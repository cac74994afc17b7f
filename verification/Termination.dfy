/** The sender empties any outbox in a bounded number of cycles, whatever the server answers. */
module Termination {
  import Admission
  import opened Basics
  import opened Frames
  import opened StreamState
  import opened SenderCycle
  import opened Soundness
  import opened StreamRuns

  // ── a cycle is a run ──

  lemma {:induction false} Concat(y: System, a: seq<Label>, b: seq<Label>)
    requires Possible(y, a) && Possible(After(y, a), b)
    ensures Possible(y, a + b) && After(y, a + b) == After(After(y, a), b)
    decreases |a|
  {
    hide Next, Enabled;
    if a == [] {
      assert a + b == b;
    } else {
      var z := Next(y, a[0]);
      assert (a + b)[0] == a[0] && (a + b)[1..] == a[1..] + b;
      assert After(y, a) == After(z, a[1..]);
      Concat(z, a[1..], b);
      assert Possible(z, (a + b)[1..]);
    }
  }

  /** Two labels in a row, as a run. */
  lemma Two(y: System, l: Label, m: Label)
    requires Enabled(y, l) && Enabled(Next(y, l), m)
    ensures Possible(y, [l, m]) && After(y, [l, m]) == Next(Next(y, l), m)
  {
    assert [l, m][1..] == [m];
    assert [m][1..] == [];
    assert After(Next(y, l), [m]) == Next(Next(y, l), m);
  }

  ghost function WithCycle(y: System, c: Cycle): System {
    y.(s := c.s, known := c.known)
  }

  lemma {:induction false} LearningIsARun(y: System, frames: seq<Frame>, answers: map<Key, Ack>)
    returns (run: seq<Label>)
    requires forall f :: f in frames ==> f in y.window
    ensures Possible(y, run) && After(y, run) == y.(known := LearnAll(y.known, frames, answers))
    decreases |frames|
  {
    if frames == [] {
      run := [];
    } else {
      var f := frames[0];
      var k := Answered(f, answers);
      assert f in y.window;
      assert forall g :: g in frames[1..] ==> g in frames;
      if k.Some? {
        var l := Learn(f, answers[f.Key()]);
        var rest := LearningIsARun(Next(y, l), frames[1..], answers);
        run := [l] + rest;
        assert run[1..] == rest;
      } else {
        run := LearningIsARun(y, frames[1..], answers);
      }
    }
  }

  lemma {:induction false} DrainIsARun(y: System, fuse: int) returns (run: seq<Label>)
    requires y.held == None
    ensures Possible(y, run) && After(y, run) == WithCycle(y, Drain(y.s, y.known, fuse))
    decreases |y.known|
  {
    if y.s.mem.frames == [] || y.s.mem.frames[0].Key() !in y.known {
      run := [];
    } else {
      var l := SettleKnown(fuse != 0, true);
      Two(y, ReadHead, l);
      var z := Next(Next(y, ReadHead), l);
      if z.known == y.known {
        run := [ReadHead, l];
      } else {
        var rest := DrainIsARun(z, fuse - 1);
        Concat(y, [ReadHead, l], rest);
        run := [ReadHead, l] + rest;
      }
    }
  }

  lemma {:induction false} DroppingIsARun(y: System, fuse: int) returns (run: seq<Label>)
    requires y.held == None
    ensures Possible(y, run) && After(y, run) == WithCycle(y, DropReports(y.s, y.known, Keys(y.window), fuse))
    decreases |y.s.mem.frames|
  {
    var s := y.s;
    if s.mem.frames != [] && IsReopen(s.mem.frames[0])
       && (s.mem.frames[0].Key() in Keys(y.window) || s.mem.frames[0].Key() in s.wired)
    {
      var l := DropReport(fuse != 0);
      Two(y, ReadHead, l);
      if fuse == 0 {
        run := [ReadHead, l];
      } else {
        var rest := DroppingIsARun(Next(Next(y, ReadHead), l), fuse - 1);
        Concat(y, [ReadHead, l], rest);
        run := [ReadHead, l] + rest;
      }
    } else {
      run := [];
    }
  }

  lemma SpendingIsARun(y: System, fuse: int) returns (run: seq<Label>)
    requires y.held == None
    ensures Possible(y, run) && After(y, run) == WithCycle(y, SpendAttempt(y.s, y.known, Keys(y.window), fuse))
  {
    if y.s.mem.frames != [] && y.s.mem.frames[0].Key() in Keys(y.window) {
      Two(y, ReadHead, Exhaust(fuse != 0));
      run := [ReadHead, Exhaust(fuse != 0)];
    } else {
      run := [];
    }
  }

  lemma SettlePhaseIsARun(y: System, fuse: int) returns (run: seq<Label>)
    requires y.held == None
    ensures Possible(y, run) && After(y, run) == WithCycle(y, SettlePhase(y.s, y.known, Keys(y.window), fuse))
  {
    run := DrainIsARun(y, fuse);
    var c := Drain(y.s, y.known, fuse);
    if !c.raised {
      var drop := DroppingIsARun(After(y, run), c.fuse);
      Concat(y, run, drop);
      run := run + drop;
      var d := DropReports(c.s, c.known, Keys(y.window), c.fuse);
      if !d.raised {
        var spend := SpendingIsARun(After(y, run), d.fuse);
        Concat(y, run, spend);
        run := run + spend;
      }
    }
  }

  /** The window is sliced and the answers to it are learned. */
  lemma DispatchIsARun(y: System, answers: map<Key, Ack>) returns (run: seq<Label>)
    ensures var window := Unsettled(First(y.s.mem.frames, ACK_WINDOW), y.known);
      Possible(y, run) && After(y, run) == y.(window := window, known := LearnAll(y.known, window, answers))
  {
    var z := Next(y, SliceWindow);
    assert After(y, [SliceWindow]) == z by { assert [SliceWindow][1..] == []; }
    var learn := LearningIsARun(z, z.window, answers);
    Concat(y, [SliceWindow], learn);
    run := [SliceWindow] + learn;
  }

  lemma FaultIsARun(y: System)
    ensures Possible(y, [SenderFault]) && After(y, [SenderFault]) == y.(s := Latched(y.s, Admission.StorageFault, true))
  {
    assert [SenderFault][1..] == [];
    assert After(y, [SenderFault]) == Next(y, SenderFault);
  }

  /** A whole cycle is a run, from the slice of the window to the handler of a failed write. */
  lemma CycleIsARun(y: System, answers: map<Key, Ack>, fuse: int) returns (run: seq<Label>, z: System)
    requires y.held == None
    ensures Possible(y, run) && After(y, run) == z && z.held == None
    ensures z.s == RunCycle(y.s, y.known, answers, fuse).s && z.known == RunCycle(y.s, y.known, answers, fuse).known
  {
    if y.s.mem.frames == [] {
      return [], y;
    }
    run := DispatchIsARun(y, answers);
    var d := After(y, run);
    var phase := SettlePhaseIsARun(d, fuse);
    Concat(y, run, phase);
    run := run + phase;
    z := After(y, run);
    if SettlePhase(d.s, d.known, Keys(d.window), fuse).raised && z.s.mem.frames != [] {
      FaultIsARun(z);
      Concat(y, run, [SenderFault]);
      run := run + [SenderFault];
      z := After(y, run);
    }
  }

  // ── the measure ──

  /** Cycles a frame may still cost: its remaining attempts, and as many again for the event that an accepted
      result leaves behind. */
  function Weight(f: Frame, attempts: map<Key, nat>): (w: nat)
    ensures w >= 1
  {
    var spent := if f.Key() in attempts then attempts[f.Key()] else 0;
    var own := if spent <= DELIVERY_PENDING_MAX_ATTEMPTS then DELIVERY_PENDING_MAX_ATTEMPTS + 1 - spent else 1;
    own + (if f.payload.Result? then DELIVERY_PENDING_MAX_ATTEMPTS + 1 else 0)
  }

  function Work(frames: seq<Frame>, attempts: map<Key, nat>): nat {
    if frames == [] then 0 else Weight(frames[0], attempts) + Work(frames[1..], attempts)
  }

  function WorkOf(s: State): nat {
    Work(s.mem.frames, s.attempts)
  }

  function Count(frames: seq<Frame>, results: bool): nat {
    if frames == [] then 0
    else (if frames[0].payload.Result? == results then 1 else 0) + Count(frames[1..], results)
  }

  lemma {:induction false} WorkIsBounded(frames: seq<Frame>, attempts: map<Key, nat>)
    ensures Work(frames, attempts) <= 121 * (Count(frames, false) + 2 * Count(frames, true))
  {
    if frames != [] {
      WorkIsBounded(frames[1..], attempts);
    }
  }

  lemma {:induction false} WorkIgnoresOthers(frames: seq<Frame>, a: map<Key, nat>, b: map<Key, nat>)
    requires forall f :: f in frames ==> (f.Key() in a <==> f.Key() in b) && (f.Key() in a ==> a[f.Key()] == b[f.Key()])
    ensures Work(frames, a) == Work(frames, b)
  {
    if frames != [] {
      assert frames[0] in frames;
      assert forall f :: f in frames[1..] ==> f in frames;
      WorkIgnoresOthers(frames[1..], a, b);
    }
  }

  lemma {:induction false} WorkAtTail(frames: seq<Frame>, f: Frame, attempts: map<Key, nat>)
    ensures Work(frames + [f], attempts) == Work(frames, attempts) + Weight(f, attempts)
  {
    if frames == [] {
      assert frames + [f] == [f];
      assert [f][1..] == [];
    } else {
      assert (frames + [f])[1..] == frames[1..] + [f];
      WorkAtTail(frames[1..], f, attempts);
    }
  }

  // ── each phase costs work ──

  /** What every settlement that removes the head leaves: the rest, and for an accepted result one event. */
  lemma SettledOutbox(s: State, disp: Disposition, ack: Option<Ack>)
    requires Sound(s) && s.mem.frames != [] && (disp.Accepted? ==> ack.Some?)
    requires !disp.Pending? || IsReopen(s.mem.frames[0])
    ensures var head := s.mem.frames[0];
      var r := Settle(s, head, disp, ack, true, true);
      && !r.1
      && r.0.mem.frames == s.mem.frames[1..] +
           (if disp.Accepted? && head.payload.Result? then [NewFrame(s, ResultAcked(head.payload))] else [])
      && r.0.attempts == Drop(s.attempts, head.Key())
  {
    var head := s.mem.frames[0];
    var u := Unmark(s, head.Key());
    if disp.Accepted? {
      assert SettleAccepted(u, head, ack.value, true).0.mem.frames == Retire(u, head, ack.value).mem.frames;
    } else if !IsReopen(head) {
      BuriedOutbox(u, head, disp, ack);
    }
  }

  lemma BuriedOutbox(s: State, head: Frame, disp: Disposition, ack: Option<Ack>)
    requires AtHead(s, head.Key())
    ensures var r := SettleRefused(s, head, disp, ack, true, true);
      !r.1 && r.0.mem.frames == s.mem.frames[1..] && r.0.attempts == Drop(s.attempts, head.Key())
  {
  }

  lemma SettlementCostsWork(s: State, disp: Disposition, ack: Option<Ack>)
    requires Sound(s) && s.attempts.Keys <= s.log.Keys
    requires s.mem.frames != [] && (disp.Accepted? ==> ack.Some?)
    requires !disp.Pending? || IsReopen(s.mem.frames[0])
    ensures !Settle(s, s.mem.frames[0], disp, ack, true, true).1
    ensures WorkOf(Settle(s, s.mem.frames[0], disp, ack, true, true).0) < WorkOf(s)
  {
    hide Settle, DeadLetterOk, InboxOk, ResultsUnique;
    var head := s.mem.frames[0];
    var rest := s.mem.frames[1..];
    var left := Drop(s.attempts, head.Key());
    SettledOutbox(s, disp, ack);
    forall f | f in rest
      ensures f.Key() != head.Key()
    {
      var i :| 0 <= i < |rest| && rest[i] == f;
      assert s.mem.frames[i + 1].Key() != s.mem.frames[0].Key();
    }
    WorkIgnoresOthers(rest, s.attempts, left);
    if disp.Accepted? && head.payload.Result? {
      var f := NewFrame(s, ResultAcked(head.payload));
      assert f.Key() !in s.log;
      WorkAtTail(rest, f, left);
    } else {
      assert rest + [] == rest;
    }
  }

  lemma AttemptCostsWork(s: State)
    requires Sound(s) && s.attempts.Keys <= s.log.Keys && s.mem.frames != []
    ensures WorkOf(ExhaustState(s, s.mem.frames[0], true).0) < WorkOf(s)
    ensures !ExhaustState(s, s.mem.frames[0], true).1
  {
    var head := s.mem.frames[0];
    var s1 := CountAttempt(s, head.Key());
    assert head in s.mem.frames;
    CountAttemptKeeps(s, head);
    if Attempts(s, head.Key()) + 1 > DELIVERY_PENDING_MAX_ATTEMPTS {
      SettlementCostsWork(s1, Abandoned, Some(CapAck(head.Key())));
      RestUnchanged(s);
    } else if IsReopen(head) {
      SettlementCostsWork(s1, Pending, None);
      RestUnchanged(s);
    } else {
      RestUnchanged(s);
    }
  }

  /** Counting an attempt of the head moves only the head's own weight, and never up. */
  lemma RestUnchanged(s: State)
    requires Sound(s) && s.mem.frames != []
    ensures var s1 := CountAttempt(s, s.mem.frames[0].Key());
      && WorkOf(s1) <= WorkOf(s)
      && (Attempts(s, s.mem.frames[0].Key()) < DELIVERY_PENDING_MAX_ATTEMPTS ==> WorkOf(s1) < WorkOf(s))
  {
    var head, rest := s.mem.frames[0], s.mem.frames[1..];
    forall f | f in rest
      ensures f.Key() != head.Key()
    {
      var i :| 0 <= i < |rest| && rest[i] == f;
      assert s.mem.frames[i + 1].Key() != s.mem.frames[0].Key();
    }
    WorkIgnoresOthers(rest, s.attempts, CountAttempt(s, head.Key()).attempts);
  }

  /** Settling a head whose verdict is known costs work and leaves a sound system. */
  lemma KnownHeadBurns(y: System) returns (z: System)
    requires SystemOk(y) && y.held == None
    requires y.s.mem.frames != [] && y.s.mem.frames[0].Key() in y.known
    ensures SystemOk(z) && z.held == None && z.known == Drop(y.known, y.s.mem.frames[0].Key())
    ensures z.window == y.window
    ensures var v := y.known[y.s.mem.frames[0].Key()];
      (z.s, false) == Settle(y.s, y.s.mem.frames[0], v.disp, Some(v.ack), true, true)
    ensures WorkOf(z.s) < WorkOf(y.s)
  {
    hide MemoryOk, Settle;
    var head := y.s.mem.frames[0];
    var v := y.known[head.Key()];
    assert Judge(y.s.log[head.Key()].frame, v.ack) == Some(v.disp);
    SettlementCostsWork(y.s, v.disp, Some(v.ack));
    TwoSteps(y, SettleKnown(true, true));
    z := Next(Next(y, ReadHead), SettleKnown(true, true));
  }

  lemma TwoSteps(y: System, l: Label)
    requires SystemOk(y) && y.s.mem.frames != [] && Enabled(Next(y, ReadHead), l)
    ensures SystemOk(Next(Next(y, ReadHead), l))
  {
    Step(y, ReadHead);
    Step(Next(y, ReadHead), l);
  }

  lemma {:induction false} DrainBurns(y: System, fuse: int)
    requires SystemOk(y) && y.held == None && fuse < 0
    ensures var c := Drain(y.s, y.known, fuse);
      && !c.raised && c.fuse < 0 && WorkOf(c.s) <= WorkOf(y.s)
      && (y.s.mem.frames != [] && y.s.mem.frames[0].Key() in y.known ==> WorkOf(c.s) < WorkOf(y.s))
    decreases |y.known|
  {
    hide SystemOk;
    if y.s.mem.frames != [] && y.s.mem.frames[0].Key() in y.known {
      var z := KnownHeadBurns(y);
      DrainBurns(z, fuse - 1);
    }
  }

  lemma {:induction false} DroppingBurns(y: System, fuse: int)
    requires SystemOk(y) && y.held == None && fuse < 0
    ensures var c := DropReports(y.s, y.known, Keys(y.window), fuse);
      && !c.raised && c.fuse < 0 && WorkOf(c.s) <= WorkOf(y.s)
      && (c.s == y.s || WorkOf(c.s) < WorkOf(y.s))
    decreases |y.s.mem.frames|
  {
    hide Sound;
    var s := y.s;
    if s.mem.frames != [] && IsReopen(s.mem.frames[0])
       && (s.mem.frames[0].Key() in Keys(y.window) || s.mem.frames[0].Key() in s.wired)
    {
      SettlementCostsWork(s, Abandoned, None);
      TwoSteps(y, DropReport(true));
      DroppingBurns(Next(Next(y, ReadHead), DropReport(true)), fuse - 1);
    }
  }

  lemma {:induction false} LearningRemembers(known: map<Key, Known>, frames: seq<Frame>, answers: map<Key, Ack>)
    ensures known.Keys <= LearnAll(known, frames, answers).Keys
    decreases |frames|
  {
    if frames != [] {
      var k := Answered(frames[0], answers);
      LearningRemembers(if k.Some? then known[frames[0].Key() := k.value] else known, frames[1..], answers);
    }
  }

  /** The settling part of a cycle costs work whenever the head was dispatched or its verdict is known. */
  lemma SettlePhaseBurns(y: System)
    requires SystemOk(y) && y.held == None && y.s.mem.frames != []
    requires y.s.mem.frames[0].Key() in y.known || y.s.mem.frames[0].Key() in Keys(y.window)
    ensures var c := SettlePhase(y.s, y.known, Keys(y.window), -1);
      !c.raised && WorkOf(c.s) < WorkOf(y.s)
  {
    DrainBurns(y, -1);
    var c := Drain(y.s, y.known, -1);
    var drain := DrainIsARun(y, -1);
    Run(y, drain);
    var y2 := After(y, drain);
    DroppingBurns(y2, c.fuse);
    var d := DropReports(c.s, c.known, Keys(y.window), c.fuse);
    var drop := DroppingIsARun(y2, c.fuse);
    Run(y2, drop);
    if d.s.mem.frames != [] && d.s.mem.frames[0].Key() in Keys(y.window) {
      AttemptCostsWork(d.s);
    }
  }

  // ── what a cycle does to the head ──

  /** The frame has left the outbox for good. */
  ghost predicate Gone(s: State, f: Frame) {
    f !in s.mem.frames && f.Key() in s.log && !s.log[f.Key()].fate.Live?
  }

  ghost predicate OneMoreAttempt(s: State, t: State, f: Frame) {
    t.mem.frames == s.mem.frames && Attempts(t, f.Key()) == Attempts(s, f.Key()) + 1
  }

  lemma SettledSeals(s: State, disp: Disposition, ack: Option<Ack>)
    requires s.mem.frames != [] && (disp.Accepted? ==> ack.Some?) && IdsOk(s)
    requires OutboxOk(s.mem.frames, s.log) && (!disp.Pending? || IsReopen(s.mem.frames[0]))
    ensures var t, k := Settle(s, s.mem.frames[0], disp, ack, true, true).0, s.mem.frames[0].Key();
      k in t.log && !t.log[k].fate.Live?
  {
    assert s.mem.frames[0] in s.mem.frames;
  }

  lemma SealedIsGone(s: State, t: State, f: Frame)
    requires Sound(t) && LogGrows(s, t) && f.Key() in s.log && !s.log[f.Key()].fate.Live?
    ensures Gone(t, f)
  {
  }

  /** What a run of the sender leaves of a frame already sealed. */
  lemma RunLeavesGone(y: System, run: seq<Label>, f: Frame)
    requires SystemOk(y) && Possible(y, run) && f.Key() in y.s.log && !y.s.log[f.Key()].fate.Live?
    ensures Gone(After(y, run).s, f)
  {
    Run(y, run);
    SealedIsGone(y.s, After(y, run).s, f);
  }

  lemma KnownHeadGoes(y: System)
    requires SystemOk(y) && y.held == None && y.s.mem.frames != [] && y.s.mem.frames[0].Key() in y.known
    ensures Gone(SettlePhase(y.s, y.known, Keys(y.window), -1).s, y.s.mem.frames[0])
  {
    var z := KnownHeadBurns(y);
    VerdictSeals(y);
    var run := SettlePhaseIsARun(z, -2);
    RunLeavesGone(z, run, y.s.mem.frames[0]);
    PhaseAfterHead(y, z);
  }

  lemma VerdictSeals(y: System)
    requires SystemOk(y) && y.s.mem.frames != [] && y.s.mem.frames[0].Key() in y.known
    ensures var k := y.s.mem.frames[0].Key();
      var v := y.known[k];
      var t := Settle(y.s, y.s.mem.frames[0], v.disp, Some(v.ack), true, true).0;
      k in t.log && !t.log[k].fate.Live?
  {
    var v := y.known[y.s.mem.frames[0].Key()];
    assert Judge(y.s.log[y.s.mem.frames[0].Key()].frame, v.ack) == Some(v.disp);
    SettledSeals(y.s, v.disp, Some(v.ack));
  }

  lemma PhaseAfterHead(y: System, z: System)
    requires y.s.mem.frames != [] && y.s.mem.frames[0].Key() in y.known && z.window == y.window
    requires var v := y.known[y.s.mem.frames[0].Key()];
      (z.s, false) == Settle(y.s, y.s.mem.frames[0], v.disp, Some(v.ack), true, true)
    requires z.known == Drop(y.known, y.s.mem.frames[0].Key())
    ensures SettlePhase(y.s, y.known, Keys(y.window), -1) == SettlePhase(z.s, z.known, Keys(z.window), -2)
  {
    assert Drain(y.s, y.known, -1) == Drain(z.s, z.known, -2);
  }

  lemma DroppedHeadGoes(y: System)
    requires SystemOk(y) && y.held == None && y.s.mem.frames != [] && y.s.mem.frames[0].Key() !in y.known
    requires IsReopen(y.s.mem.frames[0]) && y.s.mem.frames[0].Key() in Keys(y.window)
    ensures Gone(SettlePhase(y.s, y.known, Keys(y.window), -1).s, y.s.mem.frames[0])
  {
    hide Settle, LogGrows;
    var head := y.s.mem.frames[0];
    SettledSeals(y.s, Abandoned, None);
    SettledOutbox(y.s, Abandoned, None);
    TwoSteps(y, DropReport(true));
    var z := Next(Next(y, ReadHead), DropReport(true));
    RestLeavesGone(z, head);
    assert DropReports(y.s, y.known, Keys(y.window), -1) == DropReports(z.s, z.known, Keys(z.window), -2);
  }

  /** The rest of the phase, once a report has gone. */
  lemma RestLeavesGone(y: System, f: Frame)
    requires SystemOk(y) && y.held == None && f.Key() in y.s.log && !y.s.log[f.Key()].fate.Live?
    ensures var d := DropReports(y.s, y.known, Keys(y.window), -2);
      !d.raised && Gone(SpendAttempt(d.s, d.known, Keys(y.window), d.fuse).s, f)
  {
    hide Sound, SpendAttempt;
    var d := DropReports(y.s, y.known, Keys(y.window), -2);
    DroppingBurns(y, -2);
    var drop := DroppingIsARun(y, -2);
    var spend := SpendingIsARun(After(y, drop), d.fuse);
    Concat(y, drop, spend);
    RunLeavesGone(y, drop + spend, f);
  }

  lemma AttemptedHead(y: System)
    requires SystemOk(y) && y.s.mem.frames != [] && y.s.mem.frames[0].Key() !in y.known
    requires !IsReopen(y.s.mem.frames[0]) && y.s.mem.frames[0].Key() in Keys(y.window)
    ensures var t := SettlePhase(y.s, y.known, Keys(y.window), -1).s;
      Gone(t, y.s.mem.frames[0]) || OneMoreAttempt(y.s, t, y.s.mem.frames[0])
  {
    var head := y.s.mem.frames[0];
    var s1 := CountAttempt(y.s, head.Key());
    assert head in y.s.mem.frames;
    CountAttemptKeeps(y.s, head);
    if Attempts(y.s, head.Key()) + 1 > DELIVERY_PENDING_MAX_ATTEMPTS {
      SettledSeals(s1, Abandoned, Some(CapAck(head.Key())));
      AbandonKeeps(s1, head, true);
      var t := Settle(s1, head, Abandoned, Some(CapAck(head.Key())), true, true).0;
      SealedIsGone(t, t, head);
    }
  }

  /** Every cycle on a non-empty outbox settles its head or spends an attempt of it, and so costs work. */
  lemma CycleCostsWork(y: System, answers: map<Key, Ack>)
    requires SystemOk(y) && y.held == None && y.s.mem.frames != []
    ensures var t, head := RunCycle(y.s, y.known, answers, -1).s, y.s.mem.frames[0];
      && (Gone(t, head) || OneMoreAttempt(y.s, t, head))
      && WorkOf(t) < WorkOf(y.s)
  {
    hide Sound;
    var run := DispatchIsARun(y, answers);
    Run(y, run);
    var z := After(y, run);
    LearningRemembers(y.known, z.window, answers);
    var head := y.s.mem.frames[0];
    if head.Key() !in z.known {
      assert head in First(y.s.mem.frames, ACK_WINDOW) && head in z.window;
    }
    SettlePhaseBurns(z);
    if head.Key() in z.known {
      KnownHeadGoes(z);
    } else if IsReopen(head) {
      DroppedHeadGoes(z);
    } else {
      AttemptedHead(z);
    }
  }

  // ── the theorem ──

  /** `|rounds|` cycles in a row, with what the server answers in each. */
  function Cycles(s: State, known: map<Key, Known>, rounds: seq<map<Key, Ack>>): State
    decreases |rounds|
  {
    if rounds == [] then s
    else
      var c := RunCycle(s, known, rounds[0], -1);
      Cycles(c.s, c.known, rounds[1..])
  }

  lemma {:induction false} CyclesEmptyTheOutbox(y: System, rounds: seq<map<Key, Ack>>)
    requires SystemOk(y) && y.held == None && |rounds| >= WorkOf(y.s)
    ensures Cycles(y.s, y.known, rounds).mem.frames == []
    decreases |rounds|
  {
    if rounds != [] {
      var run, z := CycleIsARun(y, rounds[0], -1);
      Run(y, run);
      if y.s.mem.frames != [] {
        CycleCostsWork(y, rounds[0]);
      }
      CyclesEmptyTheOutbox(z, rounds[1..]);
    }
  }

  /** With no new appends and successful writes, an outbox of `e` other frames and `r` results is empty after
      at most 121 * (e + 2r) cycles, whatever the server answers. */
  lemma OutboxIsEmptiedInTime(y: System, rounds: seq<map<Key, Ack>>)
    requires SystemOk(y) && y.held == None
    requires |rounds| >= 121 * (Count(y.s.mem.frames, false) + 2 * Count(y.s.mem.frames, true))
    ensures Cycles(y.s, y.known, rounds).mem.frames == []
  {
    WorkIsBounded(y.s.mem.frames, y.s.attempts);
    CyclesEmptyTheOutbox(y, rounds);
  }
}

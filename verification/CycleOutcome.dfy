/** What one cycle of the sender makes of the outbox, read off the answers alone: which frames leave and with which
    fate, and what becomes of all others. */
module CycleOutcome {
  import opened Basics
  import opened Frames
  import opened Admission
  import opened StreamState
  import opened SenderCycle
  import opened Soundness
  import opened StreamRuns
  import opened Termination
  import opened AttemptCap

  // ── the verdict of an answer ──

  /** The fate a status gives a frame; None keeps it waiting. */
  function FateBy(f: Frame, ack: Ack): Option<Fate> {
    if 200 <= ack.status < 300 then Some(Retired(ack))
    else if IsReopen(f) then (if ack.status in {403, 409, 422} then Some(ReopenDropped) else None)
    else if ack.status in {403, 422} || (ack.status == 409 && OneFrameText(ack.error)) then
      Some(DeadLettered(Some(ack)))
    else None
  }

  /** The acknowledgement that decides a frame in this cycle: one remembered from an earlier cycle, or an answer to a
      frame of this window that carries the frame's own key and a status with a verdict. */
  function Decided(f: Frame, known: map<Key, Known>, answers: map<Key, Ack>, asked: bool): Option<Ack> {
    if f.Key() in known then Some(known[f.Key()].ack)
    else if asked && f.Key() in answers && answers[f.Key()].key == f.Key() && FateBy(f, answers[f.Key()]).Some? then
      Some(answers[f.Key()])
    else None
  }

  /** Decided, by its place in the outbox. */
  function DecidedAt(y: System, answers: map<Key, Ack>, i: nat): Option<Ack>
    requires i < |y.s.mem.frames|
  {
    Decided(y.s.mem.frames[i], y.known, answers, i < ACK_WINDOW)
  }

  lemma FateMatchesJudge(f: Frame, ack: Ack)
    ensures FateBy(f, ack).Some? <==> Judge(f, ack).Some?
    ensures 200 <= ack.status < 300 <==> Judge(f, ack) == Some(Accepted)
    ensures Judge(f, ack) in {None, Some(Accepted), Some(Rejected), Some(OneFrameOnly)}
  {
  }

  // ── what is learned ──

  lemma {:induction false} LearningLeaves(known: map<Key, Known>, frames: seq<Frame>, answers: map<Key, Ack>, k: Key)
    requires k !in Keys(frames)
    ensures k in LearnAll(known, frames, answers) <==> k in known
    ensures k in known ==> LearnAll(known, frames, answers)[k] == known[k]
    decreases |frames|
  {
    if frames != [] {
      var a := Answered(frames[0], answers);
      assert frames[0].Key() in Keys(frames) && Keys(frames[1..]) <= Keys(frames);
      LearningLeaves(if a.Some? then known[frames[0].Key() := a.value] else known, frames[1..], answers, k);
    }
  }

  lemma {:induction false} LearningTakes(known: map<Key, Known>, frames: seq<Frame>, answers: map<Key, Ack>, f: Frame)
    requires Distinct(frames) && f in frames && f.Key() !in known
    ensures f.Key() in LearnAll(known, frames, answers) <==> Answered(f, answers).Some?
    ensures Answered(f, answers).Some? ==> LearnAll(known, frames, answers)[f.Key()] == Answered(f, answers).value
    decreases |frames|
  {
    var a := Answered(frames[0], answers);
    var rest := frames[1..];
    var next := if a.Some? then known[frames[0].Key() := a.value] else known;
    assert forall g :: g in rest ==> exists i :: 0 < i < |frames| && frames[i] == g by {
      forall g | g in rest ensures exists i :: 0 < i < |frames| && frames[i] == g {
        var i :| 0 <= i < |rest| && rest[i] == g;
        assert frames[i + 1] == g;
      }
    }
    if f == frames[0] {
      assert f.Key() !in Keys(rest);
      LearningLeaves(next, rest, answers, f.Key());
    } else {
      LearningTakes(next, rest, answers, f);
    }
  }

  lemma {:induction false} UnsettledDistinct(frames: seq<Frame>, known: map<Key, Known>)
    requires Distinct(frames)
    ensures Distinct(Unsettled(frames, known))
  {
    if frames != [] {
      UnsettledDistinct(frames[1..], known);
      var rest := Unsettled(frames[1..], known);
      forall j | 0 <= j < |rest| ensures rest[j].Key() != frames[0].Key() {
        assert rest[j] in frames[1..];
      }
    }
  }

  function Window(y: System): seq<Frame> {
    Unsettled(First(y.s.mem.frames, ACK_WINDOW), y.known)
  }

  lemma InWindow(y: System, i: nat)
    requires Distinct(y.s.mem.frames) && i < |y.s.mem.frames|
    ensures y.s.mem.frames[i] in Window(y) <==> i < ACK_WINDOW && y.s.mem.frames[i].Key() !in y.known
    ensures y.s.mem.frames[i].Key() in Keys(Window(y)) <==> y.s.mem.frames[i] in Window(y)
    ensures Distinct(Window(y))
  {
    var frames, first := y.s.mem.frames, First(y.s.mem.frames, ACK_WINDOW);
    UnsettledDistinct(first, y.known);
    if i < ACK_WINDOW {
      assert first[i] == frames[i];
    }
    forall f | f in Window(y) && f.Key() == frames[i].Key() ensures f == frames[i] {
      var j :| 0 <= j < |first| && first[j] == f;
      assert frames[j] == f;
    }
  }

  /** After the window has been answered the sender knows a verdict for exactly the decided frames. */
  lemma LearnedExactly(y: System, answers: map<Key, Ack>, i: nat)
    requires Distinct(y.s.mem.frames) && i < |y.s.mem.frames|
    ensures var known := LearnAll(y.known, Window(y), answers);
      var k := y.s.mem.frames[i].Key();
      && (k in known <==> DecidedAt(y, answers, i).Some?)
      && (k in known ==> known[k].ack == DecidedAt(y, answers, i).value)
  {
    var f := y.s.mem.frames[i];
    InWindow(y, i);
    if f in Window(y) {
      LearningTakes(y.known, Window(y), answers, f);
      if f.Key() in answers {
        FateMatchesJudge(f, answers[f.Key()]);
      }
    } else {
      LearningLeaves(y.known, Window(y), answers, f.Key());
    }
  }

  // ── the settled head ──

  /** A head settled on a verdict gets the fate its status gives, and costs no other frame an attempt. */
  lemma HeadFate(s: State, disp: Disposition, ack: Ack)
    requires Sound(s) && s.mem.frames != [] && Judge(s.mem.frames[0], ack) == Some(disp)
    ensures var head := s.mem.frames[0];
      var t := Settle(s, head, disp, Some(ack), true, true).0;
      && head.Key() in t.log && FateBy(head, ack).Some?
      && t.log[head.Key()] == Entry(head, FateBy(head, ack).value)
      && t.attempts == Drop(s.attempts, head.Key())
  {
    var head := s.mem.frames[0];
    assert head in s.mem.frames && NewFrame(s, head.payload).Key() !in s.log;
    FateMatchesJudge(head, ack);
    SettledOutbox(s, disp, Some(ack));
    HeadFateByBranch(Unmark(s, head.Key()), disp, ack);
  }

  lemma HeadFateByBranch(u: State, disp: Disposition, ack: Ack)
    requires u.mem.frames != [] && Judge(u.mem.frames[0], ack) == Some(disp)
    requires u.mem.frames[0].Key() != KeyOf(u.streamId, u.next)
    ensures var head := u.mem.frames[0];
      var k := head.Key();
      && (disp.Accepted? ==> SettleAccepted(u, head, ack, true).0.log[k] == Entry(head, Retired(ack)))
      && (!disp.Accepted? && IsReopen(head) ==> SettleReport(u, k, true).0.log[k] == Entry(head, ReopenDropped))
      && (!disp.Accepted? ==>
            SettleRefused(u, head, disp, Some(ack), true, true).0.log[k] == Entry(head, DeadLettered(Some(ack))))
  {
  }

  // ── the decided frames leave ──

  /** The frame is in the log with the fate this acknowledgement gives it. */
  ghost predicate EndedBy(s: State, f: Frame, ack: Ack) {
    && FateBy(f, ack).Some?
    && f.Key() in s.log && s.log[f.Key()] == Entry(f, FateBy(f, ack).value)
  }

  lemma EndedStays(s: State, t: State, f: Frame, ack: Ack)
    requires EndedBy(s, f, ack) && LogGrows(s, t)
    ensures EndedBy(t, f, ack)
  {
    assert !s.log[f.Key()].fate.Live?;
  }

  lemma KnownHeadEnds(y: System, z: System)
    requires SystemOk(y) && y.s.mem.frames != [] && y.s.mem.frames[0].Key() in y.known
    requires var v := y.known[y.s.mem.frames[0].Key()];
      (z.s, false) == Settle(y.s, y.s.mem.frames[0], v.disp, Some(v.ack), true, true)
    ensures EndedBy(z.s, y.s.mem.frames[0], y.known[y.s.mem.frames[0].Key()].ack)
    ensures z.s.attempts == Drop(y.s.attempts, y.s.mem.frames[0].Key())
  {
    hide Settle;
    var head := y.s.mem.frames[0];
    var v := y.known[head.Key()];
    assert Judge(y.s.log[head.Key()].frame, v.ack) == Some(v.disp);
    HeadFate(y.s, v.disp, v.ack);
  }

  lemma DrainGrowsLog(y: System, fuse: int)
    requires SystemOk(y) && y.held == None
    ensures LogGrows(y.s, Drain(y.s, y.known, fuse).s)
  {
    hide Sound;
    var run := DrainIsARun(y, fuse);
    Run(y, run);
  }

  /** Draining gives each leading frame whose verdict is known the fate of that verdict. */
  lemma {:induction false} DrainSeals(y: System, fuse: int, n: nat)
    requires SystemOk(y) && y.held == None && fuse < 0 && n <= |y.s.mem.frames|
    requires forall i :: 0 <= i < n ==> y.s.mem.frames[i].Key() in y.known
    ensures forall i :: 0 <= i < n ==>
      EndedBy(Drain(y.s, y.known, fuse).s, y.s.mem.frames[i], y.known[y.s.mem.frames[i].Key()].ack)
    decreases n
  {
    hide Sound, EndedBy, Settle;
    if n > 0 {
      var z, event := SettledHead(y);
      KnownHeadEnds(y, z);
      DrainGrowsLog(z, fuse - 1);
      var c := Drain(z.s, z.known, fuse - 1).s;
      EndedStays(z.s, c, y.s.mem.frames[0], y.known[y.s.mem.frames[0].Key()].ack);
      NextFrames(y, z, event, n);
      DrainSeals(z, fuse - 1, n - 1);
      forall i | 0 <= i < n
        ensures EndedBy(c, y.s.mem.frames[i], y.known[y.s.mem.frames[i].Key()].ack)
      {
        if i > 0 {
          assert z.s.mem.frames[i - 1] == y.s.mem.frames[i];
        }
      }
    }
  }

  lemma NextFrames(y: System, z: System, event: seq<Frame>, n: nat)
    requires SystemOk(y) && 0 < n <= |y.s.mem.frames| && z.s.mem.frames == y.s.mem.frames[1..] + event
    requires forall i :: 0 <= i < n ==> y.s.mem.frames[i].Key() in y.known
    requires z.known == Drop(y.known, y.s.mem.frames[0].Key())
    ensures forall i :: 0 <= i < n - 1 ==>
      var f := y.s.mem.frames[i + 1];
      z.s.mem.frames[i] == f && f.Key() in z.known && z.known[f.Key()] == y.known[f.Key()]
  {
    OthersHaveOtherKeys(y.s);
    assert forall i :: 0 <= i < n - 1 ==> z.s.mem.frames[i] == y.s.mem.frames[1..][i];
  }

  lemma {:induction false} DrainAttempts(y: System, fuse: int, k: Key)
    requires SystemOk(y) && y.held == None && fuse < 0
    ensures Attempts(Drain(y.s, y.known, fuse).s, k) <= Attempts(y.s, k)
    decreases |y.known|
  {
    hide Sound, Settle;
    if y.s.mem.frames != [] && y.s.mem.frames[0].Key() in y.known {
      var z := KnownHeadBurns(y);
      KnownHeadEnds(y, z);
      DrainAttempts(z, fuse - 1, k);
    }
  }

  // ── the other frames wait ──

  /** No answer ended the frame: it waits, or it was a report that is dropped, or it has spent its attempts. */
  ghost predicate NotAnswered(s: State, t: State, f: Frame) {
    var k := f.Key();
    && k in t.log
    && (|| t.log[k] == Entry(f, Live)
        || (IsReopen(f) && t.log[k] == Entry(f, ReopenDropped))
        || (Attempts(s, k) >= DELIVERY_PENDING_MAX_ATTEMPTS && t.log[k] == Entry(f, DeadLettered(Some(CapAck(k))))))
  }

  /** No frame ended but for a report that was dropped. */
  ghost predicate OnlyReportsGo(t: State, f: Frame) {
    && f.Key() in t.log
    && (t.log[f.Key()] == Entry(f, Live) || (IsReopen(f) && t.log[f.Key()] == Entry(f, ReopenDropped)))
  }

  lemma WaitingIsLive(s: State, f: Frame)
    requires Sound(s)
    ensures f in s.mem.frames <==> f.Key() in s.log && s.log[f.Key()] == Entry(f, Live)
  {
  }

  lemma ReportDrops(s: State)
    requires Sound(s) && s.mem.frames != [] && IsReopen(s.mem.frames[0])
    ensures var head := s.mem.frames[0];
      var (t, raised) := Settle(s, head, Abandoned, None, true, true);
      && !raised && t.mem.frames == s.mem.frames[1..] && t.attempts == Drop(s.attempts, head.Key())
      && head.Key() in t.log && t.log[head.Key()] == Entry(head, ReopenDropped)
  {
    SettledOutbox(s, Abandoned, None);
    assert s.mem.frames[1..] + [] == s.mem.frames[1..];
  }

  lemma DroppingGrowsLog(y: System, fuse: int)
    requires SystemOk(y) && y.held == None
    ensures LogGrows(y.s, DropReports(y.s, y.known, Keys(y.window), fuse).s)
  {
    hide Sound;
    var run := DroppingIsARun(y, fuse);
    Run(y, run);
  }

  lemma {:induction false} DroppingFates(y: System, fuse: int, f: Frame)
    requires SystemOk(y) && y.held == None && fuse < 0 && f in y.s.mem.frames
    ensures var d := DropReports(y.s, y.known, Keys(y.window), fuse).s;
      OnlyReportsGo(d, f) && Attempts(d, f.Key()) <= Attempts(y.s, f.Key())
    decreases |y.s.mem.frames|
  {
    hide Sound, Settle;
    WaitingIsLive(y.s, f);
    var s := y.s;
    if Droppable(s.mem.frames[0], Keys(y.window), s.wired) {
      ReportDrops(s);
      TwoSteps(y, DropReport(true));
      var z := Next(Next(y, ReadHead), DropReport(true));
      if f == s.mem.frames[0] {
        DroppingGrowsLog(z, fuse - 1);
        DroppingAttempts(z, fuse - 1, f.Key());
      } else {
        assert f in s.mem.frames[1..] by {
          var i :| 0 <= i < |s.mem.frames| && s.mem.frames[i] == f;
          assert s.mem.frames[1..][i - 1] == f;
        }
        DroppingFates(z, fuse - 1, f);
      }
    }
  }

  lemma {:induction false} DroppingAttempts(y: System, fuse: int, k: Key)
    requires SystemOk(y) && y.held == None && fuse < 0
    ensures Attempts(DropReports(y.s, y.known, Keys(y.window), fuse).s, k) <= Attempts(y.s, k)
    decreases |y.s.mem.frames|
  {
    hide Sound, Settle;
    var s := y.s;
    if s.mem.frames != [] && Droppable(s.mem.frames[0], Keys(y.window), s.wired) {
      ReportDrops(s);
      TwoSteps(y, DropReport(true));
      DroppingAttempts(Next(Next(y, ReadHead), DropReport(true)), fuse - 1, k);
    }
  }

  lemma SpendGrowsLog(s: State, known: map<Key, Known>, attempted: set<Key>, fuse: int)
    requires Sound(s)
    ensures LogGrows(s, SpendAttempt(s, known, attempted, fuse).s)
    ensures Sound(SpendAttempt(s, known, attempted, fuse).s)
  {
    if s.mem.frames != [] && s.mem.frames[0].Key() in attempted {
      WaitingIsLive(s, s.mem.frames[0]);
      hide Sound, ExhaustState;
      ExhaustKeeps(s, s.mem.frames[0], fuse != 0);
    }
  }

  /** Past the cap the head is buried, a report dropped; below it the head only waits on. */
  lemma ChargedFate(s: State)
    requires Sound(s) && s.mem.frames != []
    ensures NotAnswered(s, ExhaustState(s, s.mem.frames[0], true).0, s.mem.frames[0])
    ensures ExhaustState(s, s.mem.frames[0], true).0.mem.frames in {s.mem.frames, s.mem.frames[1..]}
    ensures !ExhaustState(s, s.mem.frames[0], true).1
  {
    var head := s.mem.frames[0];
    WaitingIsLive(s, head);
    assert s.mem.frames[1..] + [] == s.mem.frames[1..];
  }

  lemma SpendFates(s: State, known: map<Key, Known>, attempted: set<Key>, fuse: int, f: Frame)
    requires Sound(s) && f in s.mem.frames && fuse < 0
    ensures NotAnswered(s, SpendAttempt(s, known, attempted, fuse).s, f)
  {
    hide ExhaustState, Sound;
    WaitingIsLive(s, f);
    if s.mem.frames[0].Key() in attempted {
      ChargedFate(s);
      if f != s.mem.frames[0] {
        var t := SpendAttempt(s, known, attempted, fuse).s;
        assert f in s.mem.frames[1..] by {
          var i :| 0 <= i < |s.mem.frames| && s.mem.frames[i] == f;
          assert s.mem.frames[1..][i - 1] == f;
        }
        SpendGrowsLog(s, known, attempted, fuse);
        WaitingIsLive(t, f);
      }
    }
  }

  // ── the phase and the cycle ──

  /** With no failing write the phase is its three parts. */
  lemma Parts(y: System) returns (c: System, d: System)
    requires SystemOk(y) && y.held == None
    ensures SystemOk(c) && c.held == None && SystemOk(d) && d.held == None && c.window == d.window == y.window
    ensures var drained := Drain(y.s, y.known, -1);
      !drained.raised && drained.fuse < 0 && c.s == drained.s && c.known == drained.known
      && d.s == DropReports(c.s, c.known, Keys(y.window), drained.fuse).s
    ensures SettlePhase(y.s, y.known, Keys(y.window), -1).s ==
              SpendAttempt(d.s, d.known, Keys(y.window), DropReports(c.s, c.known, Keys(y.window),
                           Drain(y.s, y.known, -1).fuse).fuse).s
    ensures DropReports(c.s, c.known, Keys(y.window), Drain(y.s, y.known, -1).fuse).fuse < 0
    ensures !SettlePhase(y.s, y.known, Keys(y.window), -1).raised
  {
    hide Sound, ExhaustState;
    DrainBurns(y, -1);
    var drain := DrainIsARun(y, -1);
    Run(y, drain);
    c := After(y, drain);
    var fuse := Drain(y.s, y.known, -1).fuse;
    DroppingBurns(c, fuse);
    var drop := DroppingIsARun(c, fuse);
    Run(c, drop);
    d := After(c, drop);
    if d.s.mem.frames != [] {
      ChargedFate(d.s);
    }
  }

  lemma PhaseEnds(y: System, n: nat)
    requires SystemOk(y) && y.held == None && n <= |y.s.mem.frames|
    requires forall i :: 0 <= i < n ==> y.s.mem.frames[i].Key() in y.known
    ensures forall i :: 0 <= i < n ==>
      EndedBy(SettlePhase(y.s, y.known, Keys(y.window), -1).s, y.s.mem.frames[i],
              y.known[y.s.mem.frames[i].Key()].ack)
  {
    hide Sound, EndedBy, Drain, DropReports, SpendAttempt, SettlePhase;
    var c, d := Parts(y);
    DrainSeals(y, -1, n);
    DroppingGrowsLog(c, Drain(y.s, y.known, -1).fuse);
    SpendGrowsLog(d.s, d.known, Keys(y.window), DropReports(c.s, c.known, Keys(y.window),
                  Drain(y.s, y.known, -1).fuse).fuse);
    var t := SettlePhase(y.s, y.known, Keys(y.window), -1).s;
    forall i | 0 <= i < n ensures EndedBy(t, y.s.mem.frames[i], y.known[y.s.mem.frames[i].Key()].ack) {
      EndedStays(c.s, d.s, y.s.mem.frames[i], y.known[y.s.mem.frames[i].Key()].ack);
      EndedStays(d.s, t, y.s.mem.frames[i], y.known[y.s.mem.frames[i].Key()].ack);
    }
  }

  lemma {:induction false} UnansweredFrom(frames: seq<Frame>, known: map<Key, Known>, n: nat)
    requires n <= |frames| && forall i :: 0 <= i < n ==> frames[i].Key() in known
    requires n < |frames| ==> frames[n].Key() !in known
    ensures Unanswered(frames, known) == frames[n..]
    decreases n
  {
    if n > 0 {
      UnansweredFrom(frames[1..], known, n - 1);
    }
  }

  lemma PhaseLeaves(y: System, n: nat, f: Frame)
    requires SystemOk(y) && y.held == None && n <= |y.s.mem.frames| && f in y.s.mem.frames[n..]
    requires forall i :: 0 <= i < n ==> y.s.mem.frames[i].Key() in y.known
    requires n < |y.s.mem.frames| ==> y.s.mem.frames[n].Key() !in y.known
    ensures NotAnswered(y.s, SettlePhase(y.s, y.known, Keys(y.window), -1).s, f)
  {
    hide Sound, Drain, DropReports, SpendAttempt, SettlePhase, LogGrows;
    var c, d := Parts(y);
    var tail := DrainLeaves(y, -1);
    UnansweredFrom(y.s.mem.frames, y.known, n);
    assert f in c.s.mem.frames;
    DrainAttempts(y, -1, f.Key());
    DroppingFates(c, Drain(y.s, y.known, -1).fuse, f);
    var fuse := DropReports(c.s, c.known, Keys(y.window), Drain(y.s, y.known, -1).fuse).fuse;
    SpendGrowsLog(d.s, d.known, Keys(y.window), fuse);
    if d.s.log[f.Key()] == Entry(f, Live) {
      WaitingIsLive(d.s, f);
      SpendFates(d.s, d.known, Keys(y.window), fuse, f);
    } else {
      SealedStays(d.s, SpendAttempt(d.s, d.known, Keys(y.window), fuse).s, f.Key());
    }
  }

  lemma SealedStays(s: State, t: State, k: Key)
    requires LogGrows(s, t) && k in s.log && !s.log[k].fate.Live?
    ensures k in t.log && t.log[k] == s.log[k]
  {
  }

  /** The phase settles its leading frames with a known verdict, and those only. */
  ghost predicate FirstSettled(y: System, t: State, n: nat)
    requires n <= |y.s.mem.frames| && forall i :: 0 <= i < n ==> y.s.mem.frames[i].Key() in y.known
  {
    && (forall i :: 0 <= i < n ==>
          EndedBy(t, y.s.mem.frames[i], y.known[y.s.mem.frames[i].Key()].ack) && y.s.mem.frames[i] !in t.mem.frames)
    && (forall i :: n <= i < |y.s.mem.frames| ==> NotAnswered(y.s, t, y.s.mem.frames[i]))
  }

  lemma PhaseSettles(y: System, n: nat)
    requires SystemOk(y) && y.held == None && n <= |y.s.mem.frames|
    requires forall i :: 0 <= i < n ==> y.s.mem.frames[i].Key() in y.known
    requires n < |y.s.mem.frames| ==> y.s.mem.frames[n].Key() !in y.known
    ensures !SettlePhase(y.s, y.known, Keys(y.window), -1).raised
    ensures FirstSettled(y, SettlePhase(y.s, y.known, Keys(y.window), -1).s, n)
  {
    hide Sound, SettlePhase, EndedBy, NotAnswered;
    PhaseEnds(y, n);
    var phase := SettlePhaseIsARun(y, -1);
    Run(y, phase);
    var c, d := Parts(y);
    var t := SettlePhase(y.s, y.known, Keys(y.window), -1).s;
    forall i | 0 <= i < n ensures y.s.mem.frames[i] !in t.mem.frames {
      EndedIsGone(t, y.s.mem.frames[i], y.known[y.s.mem.frames[i].Key()].ack);
    }
    forall i | n <= i < |y.s.mem.frames| ensures NotAnswered(y.s, t, y.s.mem.frames[i]) {
      assert y.s.mem.frames[n..][i - n] == y.s.mem.frames[i];
      PhaseLeaves(y, n, y.s.mem.frames[i]);
    }
  }

  /** The window has been answered: verdicts are known for exactly the decided frames. */
  lemma Answering(y: System, answers: map<Key, Ack>) returns (z: System)
    requires SystemOk(y) && y.held == None && y.s.mem.frames != []
    ensures SystemOk(z) && z.held == None && z.s == y.s && z.window == Window(y)
    ensures z.known == LearnAll(y.known, Window(y), answers)
    ensures forall i :: 0 <= i < |y.s.mem.frames| ==>
      var k := y.s.mem.frames[i].Key();
      && (k in z.known <==> DecidedAt(y, answers, i).Some?)
      && (k in z.known ==> z.known[k].ack == DecidedAt(y, answers, i).value)
  {
    hide Sound;
    var run := DispatchIsARun(y, answers);
    Run(y, run);
    z := After(y, run);
    WaitingAreDistinct(y.s);
    forall i | 0 <= i < |y.s.mem.frames|
      ensures z.s.mem.frames[i].Key() in z.known <==> DecidedAt(y, answers, i).Some?
      ensures z.s.mem.frames[i].Key() in z.known ==>
        z.known[z.s.mem.frames[i].Key()].ack == DecidedAt(y, answers, i).value
    {
      LearnedExactly(y, answers, i);
    }
  }

  /** What a cycle without a failing write makes of the outbox.  Let n be the number of leading frames that are
      decided.  These leave, each with exactly the fate the status of its acknowledgement gives.  No answer ends any
      other frame. */
  lemma CycleSettlesTheDecided(y: System, answers: map<Key, Ack>, n: nat)
    requires SystemOk(y) && y.held == None && n <= |y.s.mem.frames|
    requires forall i :: 0 <= i < n ==> DecidedAt(y, answers, i).Some?
    requires n < |y.s.mem.frames| ==> DecidedAt(y, answers, n).None?
    ensures var c := RunCycle(y.s, y.known, answers, -1);
      && !c.raised
      && (forall i :: 0 <= i < n ==>
            EndedBy(c.s, y.s.mem.frames[i], DecidedAt(y, answers, i).value) && y.s.mem.frames[i] !in c.s.mem.frames)
      && (forall i :: n <= i < |y.s.mem.frames| ==> NotAnswered(y.s, c.s, y.s.mem.frames[i]))
  {
    hide SystemOk, SettlePhase, EndedBy, NotAnswered, Decided, LearnAll;
    if y.s.mem.frames != [] {
      var z := Answering(y, answers);
      PhaseSettles(z, n);
    }
  }

  lemma WaitingAreDistinct(s: State)
    requires Sound(s)
    ensures Distinct(s.mem.frames)
  {
  }

  lemma EndedIsGone(s: State, f: Frame, ack: Ack)
    requires Sound(s) && EndedBy(s, f, ack)
    ensures f !in s.mem.frames
  {
  }

  // ── answers that decide nothing ──

  lemma {:induction false} SameLearning(known: map<Key, Known>, frames: seq<Frame>, a: map<Key, Ack>, b: map<Key, Ack>)
    requires forall f :: f in frames ==> Answered(f, a) == Answered(f, b)
    ensures LearnAll(known, frames, a) == LearnAll(known, frames, b)
    decreases |frames|
  {
    if frames != [] {
      var k := Answered(frames[0], a);
      assert frames[0] in frames && forall f :: f in frames[1..] ==> f in frames;
      SameLearning(if k.Some? then known[frames[0].Key() := k.value] else known, frames[1..], a, b);
    }
  }

  /** Answers that decide no frame of the window, because they carry another frame's key, answer a frame outside it or
      have a status without a verdict, change nothing in the cycle. */
  lemma OtherAnswersChangeNothing(y: System, a: map<Key, Ack>, b: map<Key, Ack>, fuse: int)
    requires SystemOk(y)
    requires forall i :: 0 <= i < |y.s.mem.frames| ==> DecidedAt(y, a, i) == DecidedAt(y, b, i)
    ensures RunCycle(y.s, y.known, a, fuse) == RunCycle(y.s, y.known, b, fuse)
  {
    hide Sound, SettlePhase, Recovered;
    WaitingAreDistinct(y.s);
    forall f | f in Window(y) ensures Answered(f, a) == Answered(f, b) {
      var i :| 0 <= i < |y.s.mem.frames| && y.s.mem.frames[i] == f;
      InWindow(y, i);
      assert DecidedAt(y, a, i) == DecidedAt(y, b, i);
      AnsweredIsDecided(f, y.known, a);
      AnsweredIsDecided(f, y.known, b);
    }
    SameLearning(y.known, Window(y), a, b);
  }

  lemma AnsweredIsDecided(f: Frame, known: map<Key, Known>, answers: map<Key, Ack>)
    requires f.Key() !in known
    ensures var d := Decided(f, known, answers, true);
      Answered(f, answers) == if d.Some? then Some(Known(Judge(f, d.value).value, d.value)) else None
  {
    if f.Key() in answers {
      FateMatchesJudge(f, answers[f.Key()]);
    }
  }

  // ── what a cycle without success means for admission ──

  lemma {:induction false} DrainRaises(s: State, known: map<Key, Known>, fuse: int)
    ensures Drain(s, known, fuse).raised ==> Drain(s, known, fuse).s.mem.frames != []
    decreases |known|
  {
    if s.mem.frames != [] && s.mem.frames[0].Key() in known {
      var head := s.mem.frames[0];
      var v := known[head.Key()];
      RaisingKeepsTheOutbox(s, head, v.disp, Some(v.ack), fuse != 0);
      DrainRaises(Settle(s, head, v.disp, Some(v.ack), fuse != 0, true).0, Drop(known, head.Key()), fuse - 1);
    }
  }

  lemma {:induction false} DropRaises(s: State, known: map<Key, Known>, attempted: set<Key>, fuse: int)
    ensures DropReports(s, known, attempted, fuse).raised ==> DropReports(s, known, attempted, fuse).s.mem.frames != []
    decreases |s.mem.frames|
  {
    if s.mem.frames != [] && Droppable(s.mem.frames[0], attempted, s.wired) {
      RaisingKeepsTheOutbox(s, s.mem.frames[0], Abandoned, None, fuse != 0);
      var r := Settle(s, s.mem.frames[0], Abandoned, None, fuse != 0, true);
      if !r.1 {
        DropRaises(r.0, known, attempted, fuse - 1);
      }
    }
  }

  lemma RaisingKeepsTheOutbox(s: State, f: Frame, disp: Disposition, ack: Option<Ack>, write: bool)
    requires disp.Accepted? ==> ack.Some?
    ensures Settle(s, f, disp, ack, write, true).1 ==> Settle(s, f, disp, ack, write, true).0.mem == s.mem
  {
  }

  /** A cycle that ends in a failed write leaves the frame it failed on in the outbox, storage marked as down and
      admission closed. */
  lemma FailedWriteClosesAdmission(s: State, known: map<Key, Known>, answers: map<Key, Ack>, fuse: int)
    ensures var c := RunCycle(s, known, answers, fuse);
      c.raised ==> c.s.mem.frames != [] && c.s.adm.storage.Some? && c.s.adm.current.Some?
  {
    if s.mem.frames != [] {
      var unsent := Unsettled(First(s.mem.frames, ACK_WINDOW), known);
      PhaseRaises(s, LearnAll(known, unsent, answers), Keys(unsent), fuse);
      hide SettlePhase;
    }
  }

  lemma PhaseRaises(s: State, known: map<Key, Known>, attempted: set<Key>, fuse: int)
    ensures SettlePhase(s, known, attempted, fuse).raised ==> SettlePhase(s, known, attempted, fuse).s.mem.frames != []
  {
    hide Settle;
    var c := Drain(s, known, fuse);
    DrainRaises(s, known, fuse);
    var d := DropReports(c.s, c.known, attempted, c.fuse);
    DropRaises(c.s, c.known, attempted, c.fuse);
    if d.s.mem.frames != [] {
      var head := d.s.mem.frames[0];
      RaisingKeepsTheOutbox(CountAttempt(d.s, head.Key()), head, Abandoned, Some(CapAck(head.Key())), d.fuse != 0);
      RaisingKeepsTheOutbox(CountAttempt(d.s, head.Key()), head, Pending, None, d.fuse != 0);
    }
  }

  /** A head that gets no verdict closes admission for as long as it has attempts left. */
  lemma UnansweredHeadClosesAdmission(y: System, answers: map<Key, Ack>)
    requires SystemOk(y) && y.held == None && y.s.mem.frames != [] && !IsReopen(y.s.mem.frames[0])
    requires DecidedAt(y, answers, 0).None? && Attempts(y.s, y.s.mem.frames[0].Key()) < DELIVERY_PENDING_MAX_ATTEMPTS
    ensures var t, head := RunCycle(y.s, y.known, answers, -1).s, y.s.mem.frames[0];
      && t.adm.current.Some? && t.mem == y.s.mem
      && Attempts(t, head.Key()) == Attempts(y.s, head.Key()) + 1
  {
    var z := Answering(y, answers);
    InWindow(y, 0);
    hide Sound;
    WaitingAreDistinct(y.s);
    ChargedBelowTheCap(y.s);
  }

  lemma ChargedBelowTheCap(s: State)
    requires s.mem.frames != [] && !IsReopen(s.mem.frames[0])
    requires Attempts(s, s.mem.frames[0].Key()) < DELIVERY_PENDING_MAX_ATTEMPTS
    ensures var (t, raised) := ExhaustState(s, s.mem.frames[0], true);
      && !raised && t.adm.current.Some? && t.mem == s.mem
      && Attempts(t, s.mem.frames[0].Key()) == Attempts(s, s.mem.frames[0].Key()) + 1
  {
  }
}

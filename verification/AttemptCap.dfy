/** Which frames the delivery-pending cap may bury.  The cap is meant for frames without a verdict; a reopen
    report in front of a frame whose verdict is known defeats that, and nothing else does. */
module AttemptCap {
  import opened Basics
  import opened Frames
  import opened Admission
  import opened StreamState
  import opened SenderCycle
  import opened Soundness
  import opened StreamRuns
  import opened Termination

  // ── what a cycle leaves in front ──

  /** A reopen report that was dispatched or written to the wire. */
  predicate Droppable(f: Frame, attempted: set<Key>, wired: set<Key>) {
    IsReopen(f) && (f.Key() in attempted || f.Key() in wired)
  }

  /** The outbox without its leading frames whose verdict is known. */
  function Unanswered(frames: seq<Frame>, known: map<Key, Known>): (r: seq<Frame>)
    ensures forall f :: f in r ==> f in frames
    ensures r != [] ==> r[0].Key() !in known
  {
    if frames != [] && frames[0].Key() in known then Unanswered(frames[1..], known) else frames
  }

  /** The outbox without its leading droppable reports. */
  function Skip(frames: seq<Frame>, attempted: set<Key>, wired: set<Key>): (r: seq<Frame>)
    ensures forall f :: f in r ==> f in frames
    ensures r != [] ==> !Droppable(r[0], attempted, wired)
    ensures r == frames || |r| < |frames|
  {
    if frames != [] && Droppable(frames[0], attempted, wired) then Skip(frames[1..], attempted, wired) else frames
  }

  lemma {:induction false} UnansweredIgnores(frames: seq<Frame>, known: map<Key, Known>, k: Key)
    requires forall f :: f in frames ==> f.Key() != k
    ensures Unanswered(frames, Drop(known, k)) == Unanswered(frames, known)
  {
    if frames != [] {
      assert frames[0] in frames;
      assert forall f :: f in frames[1..] ==> f in frames;
      UnansweredIgnores(frames[1..], known, k);
    }
  }

  lemma {:induction false} UnansweredJoined(frames: seq<Frame>, tail: seq<Frame>, known: map<Key, Known>)
    requires forall f :: f in tail ==> f.Key() !in known
    ensures Unanswered(frames + tail, known) == Unanswered(frames, known) + tail
  {
    if frames == [] {
      assert frames + tail == tail;
      assert tail != [] ==> tail[0] in tail;
    } else {
      assert (frames + tail)[1..] == frames[1..] + tail;
      UnansweredJoined(frames[1..], tail, known);
    }
  }

  lemma {:induction false} SkipAgrees(frames: seq<Frame>, attempted: set<Key>, w1: set<Key>, w2: set<Key>)
    requires forall f :: f in frames ==> (f.Key() in w1 <==> f.Key() in w2)
    ensures Skip(frames, attempted, w1) == Skip(frames, attempted, w2)
  {
    if frames != [] {
      assert frames[0] in frames;
      assert forall f :: f in frames[1..] ==> f in frames;
      SkipAgrees(frames[1..], attempted, w1, w2);
    }
  }

  lemma {:induction false} SkipJoined(frames: seq<Frame>, tail: seq<Frame>, attempted: set<Key>, wired: set<Key>)
    requires forall f :: f in tail ==> !IsReopen(f)
    ensures Skip(frames + tail, attempted, wired) == Skip(frames, attempted, wired) + tail
  {
    if frames == [] {
      assert frames + tail == tail;
      assert tail != [] ==> tail[0] in tail;
    } else {
      assert (frames + tail)[1..] == frames[1..] + tail;
      SkipJoined(frames[1..], tail, attempted, wired);
    }
  }

  lemma OthersHaveOtherKeys(s: State)
    requires Sound(s) && s.mem.frames != []
    ensures forall f :: f in s.mem.frames[1..] ==> f.Key() != s.mem.frames[0].Key()
  {
    var rest := s.mem.frames[1..];
    forall f | f in rest ensures f.Key() != s.mem.frames[0].Key() {
      var i :| 0 <= i < |rest| && rest[i] == f;
      assert s.mem.frames[i + 1].Key() != s.mem.frames[0].Key();
    }
  }

  // ── draining ──

  /** Draining stops at a head without a verdict. */
  lemma {:induction false} DrainStopsAtTheUnknown(s: State, known: map<Key, Known>, fuse: int)
    ensures var c := Drain(s, known, fuse);
      !c.raised && c.s.mem.frames != [] ==> c.s.mem.frames[0].Key() !in c.known
    decreases |known|
  {
    if s.mem.frames != [] && s.mem.frames[0].Key() in known {
      var head := s.mem.frames[0];
      var v := known[head.Key()];
      var r := Settle(s, head, v.disp, Some(v.ack), fuse != 0, true);
      if !r.1 {
        DrainStopsAtTheUnknown(r.0, Drop(known, head.Key()), fuse - 1);
      }
    }
  }

  lemma SettleUnwires(s: State, disp: Disposition, ack: Option<Ack>)
    requires s.mem.frames != [] && (disp.Accepted? ==> ack.Some?)
    requires !disp.Pending? || IsReopen(s.mem.frames[0])
    ensures Settle(s, s.mem.frames[0], disp, ack, true, true).0.wired == s.wired - {s.mem.frames[0].Key()}
    ensures Settle(s, s.mem.frames[0], disp, ack, false, true).1
  {
  }

  /** What is left agrees with what was there on the frames that were not settled. */
  ghost predicate Left(y: System, c: Cycle, tail: seq<Frame>) {
    var lead := Unanswered(y.s.mem.frames, y.known);
    && c.s.mem.frames == lead + tail
    && (forall f :: f in tail ==> f.Key() !in y.s.log && !IsReopen(f))
    && c.known.Keys <= y.known.Keys
    && (forall f :: f in lead ==> (f.Key() in c.known <==> f.Key() in y.known))
    && (forall f :: f in lead ==> (f.Key() in c.s.wired <==> f.Key() in y.s.wired))
  }

  lemma VerdictSettles(y: System, head: Frame, v: Known)
    requires SystemOk(y) && y.s.mem.frames != [] && head == y.s.mem.frames[0]
    requires head.Key() in y.known && v == y.known[head.Key()]
    ensures var t := Settle(y.s, head, v.disp, Some(v.ack), true, true).0;
      && t.mem.frames == y.s.mem.frames[1..] +
           (if v.disp.Accepted? && head.payload.Result? then [NewFrame(y.s, ResultAcked(head.payload))] else [])
      && t.wired == y.s.wired - {head.Key()} && LogGrows(y.s, t)
    ensures head.payload.Result? ==> NewFrame(y.s, ResultAcked(head.payload)).Key() !in y.s.log
  {
    hide Settle, LogGrows;
    assert Judge(y.s.log[head.Key()].frame, v.ack) == Some(v.disp);
    SettledOutbox(y.s, v.disp, Some(v.ack));
    SettleUnwires(y.s, v.disp, Some(v.ack));
    SettleKeeps(y.s, head, v.disp, Some(v.ack), true, true);
  }

  /** One settlement of the drain: the head goes, perhaps its acknowledgement event comes. */
  lemma SettledHead(y: System) returns (z: System, event: seq<Frame>)
    requires SystemOk(y) && y.held == None && y.s.mem.frames != [] && y.s.mem.frames[0].Key() in y.known
    ensures var v := y.known[y.s.mem.frames[0].Key()];
      (z.s, false) == Settle(y.s, y.s.mem.frames[0], v.disp, Some(v.ack), true, true)
    ensures SystemOk(z) && z.held == None && z.known == Drop(y.known, y.s.mem.frames[0].Key())
    ensures z.s.mem.frames == y.s.mem.frames[1..] + event && LogGrows(y.s, z.s)
    ensures forall f :: f in event ==> f.Key() !in y.s.log && !IsReopen(f)
    ensures z.s.wired == y.s.wired - {y.s.mem.frames[0].Key()}
  {
    hide SystemOk;
    var head := y.s.mem.frames[0];
    var v := y.known[head.Key()];
    z := KnownHeadBurns(y);
    VerdictSettles(y, head, v);
    event := if v.disp.Accepted? && head.payload.Result? then [NewFrame(y.s, ResultAcked(head.payload))] else [];
  }

  lemma LeftGrows(y: System, z: System, event: seq<Frame>, c: Cycle, tail: seq<Frame>)
    requires SystemOk(y) && y.s.mem.frames != [] && y.s.mem.frames[0].Key() in y.known
    requires z.known == Drop(y.known, y.s.mem.frames[0].Key()) && LogGrows(y.s, z.s)
    requires z.s.mem.frames == y.s.mem.frames[1..] + event
    requires forall f :: f in event ==> f.Key() !in y.s.log && !IsReopen(f)
    requires z.s.wired == y.s.wired - {y.s.mem.frames[0].Key()}
    requires Left(z, c, tail)
    ensures Left(y, c, event + tail)
  {
    hide Sound, IsReopen, SenderOk;
    var rest := y.s.mem.frames[1..];
    OthersHaveOtherKeys(y.s);
    var lead := Unanswered(rest, y.known);
    LeadStays(y, z, event);
    assert lead + event + tail == lead + (event + tail);
    forall f | f in lead
      ensures (f.Key() in c.known <==> f.Key() in y.known) && (f.Key() in c.s.wired <==> f.Key() in y.s.wired)
    {
      assert f in rest && f in lead + event;
    }
    forall f | f in event + tail ensures f.Key() !in y.s.log && !IsReopen(f) {
    }
  }

  /** The frames left without a verdict are the same from the second frame on. */
  lemma LeadStays(y: System, z: System, event: seq<Frame>)
    requires SystemOk(y) && y.s.mem.frames != [] && y.s.mem.frames[0].Key() in y.known
    requires z.known == Drop(y.known, y.s.mem.frames[0].Key())
    requires z.s.mem.frames == y.s.mem.frames[1..] + event
    requires forall f :: f in event ==> f.Key() !in y.s.log
    ensures Unanswered(z.s.mem.frames, z.known) == Unanswered(y.s.mem.frames[1..], y.known) + event
  {
    hide Sound;
    var rest := y.s.mem.frames[1..];
    OthersHaveOtherKeys(y.s);
    UnansweredJoined(rest, event, z.known);
    UnansweredIgnores(rest, y.known, y.s.mem.frames[0].Key());
  }

  lemma {:induction false} DrainLeaves(y: System, fuse: int) returns (tail: seq<Frame>)
    requires SystemOk(y) && y.held == None && !Drain(y.s, y.known, fuse).raised
    ensures Left(y, Drain(y.s, y.known, fuse), tail)
    decreases |y.known|
  {
    hide Sound, Settle;
    if y.s.mem.frames == [] || y.s.mem.frames[0].Key() !in y.known {
      tail := [];
    } else {
      var v := y.known[y.s.mem.frames[0].Key()];
      SettleUnwires(y.s, v.disp, Some(v.ack));
      var z, event := SettledHead(y);
      tail := DrainLeaves(z, fuse - 1);
      LeftGrows(y, z, event, Drain(y.s, y.known, fuse), tail);
      tail := event + tail;
    }
  }

  // ── dropping reports ──

  lemma {:induction false} DroppingLeaves(y: System, fuse: int)
    requires SystemOk(y) && y.held == None && !DropReports(y.s, y.known, Keys(y.window), fuse).raised
    ensures var d := DropReports(y.s, y.known, Keys(y.window), fuse);
      d.s.mem.frames == Skip(y.s.mem.frames, Keys(y.window), y.s.wired) && d.known == y.known
    decreases |y.s.mem.frames|
  {
    hide Sound, Settle;
    var s := y.s;
    if s.mem.frames != [] && Droppable(s.mem.frames[0], Keys(y.window), s.wired) {
      SettleUnwires(s, Abandoned, None);
      SettledOutbox(s, Abandoned, None);
      TwoSteps(y, DropReport(true));
      var z := Next(Next(y, ReadHead), DropReport(true));
      DroppingLeaves(z, fuse - 1);
      OthersHaveOtherKeys(s);
      assert s.mem.frames[1..] + [] == s.mem.frames[1..];
      SkipAgrees(s.mem.frames[1..], Keys(y.window), s.wired, z.s.wired);
    }
  }

  // ── exactly which frames ──

  /** The frame a cycle charges an attempt to, once the verdicts have been learned. */
  ghost function Charged(y: System, fuse: int): Option<Key> {
    var c := Drain(y.s, y.known, fuse);
    var d := DropReports(c.s, c.known, Keys(y.window), c.fuse);
    if !c.raised && !d.raised && d.s.mem.frames != [] && d.s.mem.frames[0].Key() in Keys(y.window)
    then Some(d.s.mem.frames[0].Key()) else None
  }

  /** Behind the settled frames come reports to drop, and behind those a dispatched frame whose verdict is known. */
  predicate VerdictBehindReports(y: System) {
    var lead := Unanswered(y.s.mem.frames, y.known);
    var rest := Skip(lead, Keys(y.window), y.s.wired);
    rest != lead && rest != [] && rest[0].Key() in Keys(y.window) && rest[0].Key() in y.known
  }

  lemma CycleLeaves(y: System, fuse: int) returns (tail: seq<Frame>)
    requires SystemOk(y) && y.held == None && !Drain(y.s, y.known, fuse).raised
    requires var c := Drain(y.s, y.known, fuse); !DropReports(c.s, c.known, Keys(y.window), c.fuse).raised
    ensures var c := Drain(y.s, y.known, fuse);
      && Left(y, c, tail)
      && DropReports(c.s, c.known, Keys(y.window), c.fuse).s.mem.frames ==
           Skip(Unanswered(y.s.mem.frames, y.known), Keys(y.window), y.s.wired) + tail
  {
    var c := Drain(y.s, y.known, fuse);
    tail := DrainLeaves(y, fuse);
    var drain := DrainIsARun(y, fuse);
    Run(y, drain);
    DroppingLeaves(After(y, drain), c.fuse);
    var lead := Unanswered(y.s.mem.frames, y.known);
    SkipJoined(lead, tail, Keys(y.window), c.s.wired);
    SkipAgrees(lead, Keys(y.window), c.s.wired, y.s.wired);
  }

  /** A cycle whose writes succeed so far charges a frame with a known verdict exactly when such a frame waits behind
      droppable reports.  The condition is about the outbox, the window and the verdicts before anything is
      settled. */
  lemma ChargedDespiteVerdictExactly(y: System, fuse: int)
    requires SystemOk(y) && y.held == None && !Drain(y.s, y.known, fuse).raised
    requires var c := Drain(y.s, y.known, fuse); !DropReports(c.s, c.known, Keys(y.window), c.fuse).raised
    ensures Charged(y, fuse).Some? && Charged(y, fuse).value in y.known <==> VerdictBehindReports(y)
    ensures VerdictBehindReports(y) ==>
      var lead := Unanswered(y.s.mem.frames, y.known);
      Charged(y, fuse) == Some(Skip(lead, Keys(y.window), y.s.wired)[0].Key())
  {
    hide Sound, Drain;
    var tail := CycleLeaves(y, fuse);
    var lead := Unanswered(y.s.mem.frames, y.known);
    var rest := Skip(lead, Keys(y.window), y.s.wired);
    if rest == [] {
      assert rest + tail == tail;
      assert tail != [] ==> tail[0] in tail;
      assert forall k :: k in Keys(y.window) ==> k in y.s.log;
    } else {
      assert (rest + tail)[0] == rest[0];
    }
  }

  /** Past the cap, being charged means the dead-letter. */
  lemma ChargedAtTheCapIsBuried(s: State)
    requires s.mem.frames != [] && Attempts(s, s.mem.frames[0].Key()) >= DELIVERY_PENDING_MAX_ATTEMPTS
    requires !IsReopen(s.mem.frames[0])
    ensures var k := s.mem.frames[0].Key();
      var t := ExhaustState(s, s.mem.frames[0], true).0;
      k in t.log && t.log[k] == Entry(s.mem.frames[0], DeadLettered(Some(CapAck(k))))
  {
  }

  // ── it happens ──

  /** The frame is the whole outbox, the sender has no verdicts, and the frame has spent this many attempts. */
  ghost predicate Alone(y: System, f: Frame, spent: nat) {
    && SystemOk(y) && y.s.mem.frames == [f] && y.known == map[] && y.held == None
    && Attempts(y.s, f.Key()) == spent && y.s.streamId == f.streamId
  }

  lemma FirstFrame(id: Id, p: Payload) returns (run: seq<Label>)
    requires ValidStreamId(id) && ValidFrame(Frame(id, 1, p))
    ensures Possible(Start(id), run) && Alone(After(Start(id), run), Frame(id, 1, p), 0)
  {
    hide Sound;
    var y := Start(id);
    var l := AppendFrame(p, true, true);
    StartIsOk(id);
    Step(y, l);
    assert Append(y.s, p, true, true) == AppendRecovered(y.s, p, true);
    assert [] + [Frame(id, 1, p)] == [Frame(id, 1, p)];
    run := [l];
    assert run[1..] == [];
    assert After(y, run) == Next(y, l);
  }

  lemma Three(y: System, a: Label, b: Label, c: Label)
    requires Enabled(y, a) && Enabled(Next(y, a), b) && Enabled(Next(Next(y, a), b), c)
    ensures Possible(y, [a] + [b, c]) && After(y, [a] + [b, c]) == Next(Next(Next(y, a), b), c)
  {
    Two(Next(y, a), b, c);
    assert ([a] + [b, c])[1..] == [b, c];
  }

  lemma PendingState(s: State, f: Frame)
    requires Attempts(s, f.Key()) < DELIVERY_PENDING_MAX_ATTEMPTS && !IsReopen(f)
    ensures var t := ExhaustState(s, f, true).0;
      t.mem == s.mem && Attempts(t, f.Key()) == Attempts(s, f.Key()) + 1 && t.streamId == s.streamId
  {
  }

  lemma {:induction false} StepsKeep(y: System, run: seq<Label>)
    requires SystemOk(y) && Possible(y, run)
    ensures SystemOk(After(y, run))
  {
    Run(y, run);
  }

  /** A cycle without an answer costs the frame one attempt. */
  lemma FruitlessCycle(y: System, f: Frame, spent: nat) returns (run: seq<Label>)
    requires Alone(y, f, spent) && spent < DELIVERY_PENDING_MAX_ATTEMPTS && !IsReopen(f)
    ensures Possible(y, run) && Alone(After(y, run), f, spent + 1)
  {
    hide Sound;
    var y1 := Next(y, SliceWindow);
    assert f in First(y.s.mem.frames, ACK_WINDOW) && f in y1.window;
    PendingState(y.s, f);
    Three(y, SliceWindow, ReadHead, Exhaust(true));
    run := [SliceWindow] + [ReadHead, Exhaust(true)];
    StepsKeep(y, run);
  }

  lemma {:induction false} WearOut(y: System, f: Frame, spent: nat) returns (run: seq<Label>)
    requires Alone(y, f, spent) && spent <= DELIVERY_PENDING_MAX_ATTEMPTS && !IsReopen(f)
    ensures Possible(y, run) && Alone(After(y, run), f, DELIVERY_PENDING_MAX_ATTEMPTS)
    decreases DELIVERY_PENDING_MAX_ATTEMPTS - spent
  {
    if spent == DELIVERY_PENDING_MAX_ATTEMPTS {
      run := [];
    } else {
      var first := FruitlessCycle(y, f, spent);
      var rest := WearOut(After(y, first), f, spent + 1);
      Concat(y, first, rest);
      run := first + rest;
    }
  }

  const REPORT := Event("boot", "stream_reopen", "", "")

  /** The report of a reconnect stands in front of the frame, and both are dispatched. */
  ghost predicate Covered(y: System, f: Frame, report: Frame, spent: nat) {
    && SystemOk(y) && y.s.mem.frames == [report, f] && y.known == map[] && y.held == None
    && Attempts(y.s, f.Key()) == spent && IsReopen(report) && y.window == [report, f]
  }

  lemma ReportState(s: State, f: Frame)
    requires IdsOk(s) && s.mem.frames == [f]
    ensures var t := AppendHead(s, REPORT, true).0;
      && t.mem.frames == [NewFrame(s, REPORT), f] && t.attempts == s.attempts && IsReopen(NewFrame(s, REPORT))
  {
    assert ValidFrame(NewFrame(s, REPORT));
  }

  lemma WindowOfTwo(report: Frame, f: Frame)
    ensures Unsettled(First([report, f], ACK_WINDOW), map[]) == [report, f]
  {
    assert [report, f][1..] == [f] && [f][1..] == [];
    assert Unsettled([f], map[]) == [f];
  }

  lemma Reconnect(y: System, f: Frame, spent: nat) returns (run: seq<Label>, report: Frame)
    requires Alone(y, f, spent)
    ensures Possible(y, run) && Covered(After(y, run), f, report, spent)
  {
    report := NewFrame(y.s, REPORT);
    ReportState(y.s, f);
    WindowOfTwo(report, f);
    Two(y, InsertHead(REPORT, true), SliceWindow);
    run := [InsertHead(REPORT, true), SliceWindow];
    StepsKeep(y, run);
  }

  /** The server accepts the frame and does not answer the report; the sender drops the report and reads the frame,
      whose verdict it knows. */
  lemma DroppedState(s: State, f: Frame, report: Frame)
    requires Sound(s) && s.mem.frames == [report, f] && IsReopen(report) && report.Key() != f.Key()
    ensures var t := Settle(s, report, Abandoned, None, true, true).0;
      t.mem.frames == [f] && Attempts(t, f.Key()) == Attempts(s, f.Key())
  {
    SettledOutbox(s, Abandoned, None);
    assert [report, f][1..] + [] == [f];
  }

  lemma AcceptedButCharged(y: System, f: Frame, report: Frame, spent: nat, ack: Ack) returns (run: seq<Label>)
    requires Covered(y, f, report, spent) && ack.key == f.Key() && 200 <= ack.status < 300
    ensures Possible(y, run)
    ensures var w := After(y, run);
      && SystemOk(w) && w.s.mem.frames == [f] && w.held == Some(f) && Enabled(w, Exhaust(true))
      && w.known == map[f.Key() := Known(Accepted, ack)] && Attempts(w.s, f.Key()) == spent
  {
    hide MemoryOk, FileOk, SenderOk;
    AcceptanceLearned(y, f, report, spent, ack);
    var first := [Learn(f, ack), ReadHead];
    ReportDropped(After(y, first), f, report);
    run := first + [DropReport(true), ReadHead];
    Concat(y, first, [DropReport(true), ReadHead]);
    StepsKeep(y, run);
  }

  lemma AcceptanceLearned(y: System, f: Frame, report: Frame, spent: nat, ack: Ack)
    requires Covered(y, f, report, spent) && ack.key == f.Key() && 200 <= ack.status < 300
    ensures Possible(y, [Learn(f, ack), ReadHead])
    ensures After(y, [Learn(f, ack), ReadHead]) ==
              y.(known := map[f.Key() := Known(Accepted, ack)], held := Some(report))
  {
    hide Sound;
    assert report in y.window && f in y.window;
    Two(y, Learn(f, ack), ReadHead);
  }

  lemma ReportDropped(y: System, f: Frame, report: Frame)
    requires Sound(y.s) && y.s.mem.frames == [report, f] && IsReopen(report) && y.held == Some(report)
    requires y.window == [report, f]
    ensures Possible(y, [DropReport(true), ReadHead])
    ensures var w := After(y, [DropReport(true), ReadHead]);
      && w.s.mem.frames == [f] && w.held == Some(f) && w.window == y.window && w.known == y.known
      && Attempts(w.s, f.Key()) == Attempts(y.s, f.Key())
  {
    OthersHaveOtherKeys(y.s);
    assert f in y.s.mem.frames[1..] && report in y.window;
    hide MemoryOk, Settle;
    DroppedState(y.s, f, report);
    Two(y, DropReport(true), ReadHead);
  }

  /** From an empty volume, any frame that is no report can be dead-lettered as undeliverable with its acceptance in
      the sender's hands: 120 cycles without an answer, a reconnect whose report stays unanswered, and the charge. */
  lemma AcceptedFrameBuried(id: Id, p: Payload, ack: Ack) returns (run: seq<Label>)
    requires ValidStreamId(id) && ValidFrame(Frame(id, 1, p)) && !IsReopen(Frame(id, 1, p))
    requires ack.key == KeyOf(id, 1) && 200 <= ack.status < 300
    ensures Possible(Start(id), run)
    ensures var w, k := After(Start(id), run), KeyOf(id, 1);
      && w.known == map[k := Known(Accepted, ack)] && k in w.s.log && w.s.log[k] == Entry(Frame(id, 1, p), Live)
      && Enabled(w, Exhaust(true))
      && k in Next(w, Exhaust(true)).s.log
      && Next(w, Exhaust(true)).s.log[k] == Entry(Frame(id, 1, p), DeadLettered(Some(CapAck(k))))
  {
    var f := Frame(id, 1, p);
    var y := Start(id);
    run := FirstFrame(id, p);
    var wear := WearOut(After(y, run), f, 0);
    Concat(y, run, wear);
    run := run + wear;
    var open, report := Reconnect(After(y, run), f, DELIVERY_PENDING_MAX_ATTEMPTS);
    Concat(y, run, open);
    run := run + open;
    var last := AcceptedButCharged(After(y, run), f, report, DELIVERY_PENDING_MAX_ATTEMPTS, ack);
    Concat(y, run, last);
    run := run + last;
    ChargedAtTheCapIsBuried(After(y, run).s);
    assert f in After(y, run).s.mem.frames;
  }
}

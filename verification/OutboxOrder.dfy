/** The order in which frames wait.  Head inserts apart, a frame takes its place behind everything appended before it,
    so within one incarnation what waits stands in the order of its numbers. */
module OutboxOrder {
  import opened Basics
  import opened Frames
  import opened Admission
  import opened StreamState
  import opened SenderCycle
  import opened Soundness
  import opened StreamRuns
  import opened QueueMoves
  import opened Claims
  import opened Jobs

  // ── every transition but a head insert works at the tail ──

  ghost predicate Extends(a: seq<Frame>, b: seq<Frame>) {
    a <= b && |b| <= |a| + 1
  }

  /** The head may leave and one frame may come, at the tail. */
  ghost predicate AtTheTail(s: State, t: State) {
    var a, b := s.mem.frames, t.mem.frames;
    Extends(a, b) || (a != [] && Extends(a[1..], b))
  }

  lemma RecoveredAtTail(s: State, p: Payload, write: bool)
    ensures Extends(s.mem.frames, AppendRecovered(s, p, write).0.mem.frames)
  {
  }

  lemma AppendAtTail(s: State, p: Payload, probe: bool, write: bool)
    ensures Extends(s.mem.frames, Append(s, p, probe, write).0.mem.frames)
  {
    RecoveredAtTail(if s.adm.storage.Some? then Persisted(s) else s, p, write);
  }

  lemma ReceiptAtTail(s: State, id: Id, d: Delivery, ack: bool, probe: bool, write: bool, done: AcceptOutcome)
    ensures Extends(s.mem.frames, EmitReceipt(s, id, d, ack, probe, write, done).0.mem.frames)
  {
    AppendAtTail(s, Receipt(id, d), probe, write);
  }

  lemma DeliverAtTail(s: State, id: Id, job: Job, d: Delivery, ack: bool, inboxWrite: bool, probe: bool, write: bool)
    ensures Extends(s.mem.frames, AcceptJob(s, id, job, d, ack, inboxWrite, probe, write).0.mem.frames)
  {
    if id in ResultCorrs(s.mem) {
      ReceiptAtTail(s, id, d, ack, probe, write, Deduplicated);
    } else if id in s.mem.inbox {
      ReceiptAtTail(Persisted(WithDelivery(s, id, d)), id, d, ack, probe, write, Replayed);
    } else {
      ReceiptAtTail(Persisted(WithJob(s, id, job, d)), id, d, ack, probe, write, Taken);
    }
  }

  lemma ReportAtTail(s: State, key: Key, write: bool)
    ensures AtTheTail(s, SettleReport(s, key, write).0)
  {
  }

  lemma AcceptedAtTail(s: State, f: Frame, ack: Ack, write: bool)
    ensures AtTheTail(s, SettleAccepted(s, f, ack, write).0)
  {
  }

  lemma RefusedAtTail(s: State, f: Frame, disp: Disposition, ack: Option<Ack>, write: bool, release: bool)
    ensures AtTheTail(s, SettleRefused(s, f, disp, ack, write, release).0)
  {
  }

  lemma SettleAtTail(s: State, f: Frame, disp: Disposition, ack: Option<Ack>, write: bool, release: bool)
    requires disp.Accepted? ==> ack.Some?
    ensures AtTheTail(s, Settle(s, f, disp, ack, write, release).0)
  {
    var u := Unmark(s, f.Key());
    if !disp.Accepted? && IsReopen(f) {
      ReportAtTail(u, f.Key(), write);
    } else if disp.Accepted? {
      AcceptedAtTail(u, f, ack.value, write);
    } else if !disp.Pending? {
      RefusedAtTail(u, f, disp, ack, write, release);
    }
  }

  lemma SettlingAtTail(y: System, l: Label)
    requires Enabled(y, l) && Settles(l)
    ensures AtTheTail(y.s, Next(y, l).s)
  {
    hide Settle, AtTheTail;
    var f := y.held.value;
    match l {
      case SettleKnown(write, release) =>
        SettleAtTail(y.s, f, y.known[f.Key()].disp, Some(y.known[f.Key()].ack), write, release);
      case DropReport(write) => SettleAtTail(y.s, f, Abandoned, None, write, true);
      case Exhaust(write) => ExhaustAtTail(y.s, f, write);
    }
  }

  lemma ExhaustAtTail(s: State, f: Frame, write: bool)
    ensures AtTheTail(s, ExhaustState(s, f, write).0)
  {
    SettleAtTail(CountAttempt(s, f.Key()), f, Abandoned, Some(CapAck(f.Key())), write, true);
    SettleAtTail(CountAttempt(s, f.Key()), f, Pending, None, write, true);
  }

  lemma StepAtTail(y: System, l: Label)
    requires SystemOk(y) && Enabled(y, l) && !l.Restart? && !l.InsertHead?
    ensures AtTheTail(y.s, Next(y, l).s)
  {
    if Settles(l) {
      SettlingAtTail(y, l);
    } else if l.AppendFrame? {
      AppendAtTail(y.s, l.p, l.probe, l.write);
    } else if l.Deliver? {
      DeliverAtTail(y.s, l.id, l.job, l.d, l.receipt, l.inboxWrite, l.probe, l.write);
    } else {
      QuietStep(y, l);
    }
  }

  // ── in the order of their numbers ──

  /** Of the frames that were not put in front, each one of this stream stands behind those with smaller numbers and
      behind all frames of earlier incarnations. */
  ghost predicate Ranked(frames: seq<Frame>, id: Id, inFront: set<Key>) {
    forall i, j :: 0 <= i < j < |frames| && frames[i].Key() !in inFront && frames[j].Key() !in inFront ==>
      (frames[i].streamId == id ==> frames[j].streamId == id && frames[i].num < frames[j].num)
  }

  /** The key a head insert takes, when it succeeds. */
  ghost function PutInFront(y: System, l: Label): set<Key>
    requires Enabled(y, l)
  {
    if l.InsertHead? && AppendHead(y.s, l.p, l.write).1.Appended? then {KeyOf(y.s.streamId, y.s.next)} else {}
  }

  ghost function FrontKeys(y: System, run: seq<Label>): set<Key>
    requires Possible(y, run)
    decreases |run|
  {
    if run == [] then {} else PutInFront(y, run[0]) + FrontKeys(Next(y, run[0]), run[1..])
  }

  lemma RestRanked(frames: seq<Frame>, id: Id, inFront: set<Key>)
    requires Ranked(frames, id, inFront) && frames != []
    ensures Ranked(frames[1..], id, inFront)
  {
    var rest := frames[1..];
    assert forall i :: 0 <= i < |rest| ==> rest[i] == frames[i + 1];
  }

  lemma ExtendedRanked(a: seq<Frame>, b: seq<Frame>, id: Id, next: nat, inFront: set<Key>)
    requires Ranked(a, id, inFront) && Extends(a, b)
    requires forall i :: 0 <= i < |a| && a[i].streamId == id ==> a[i].num < next
    requires |b| > |a| ==> b[|a|].streamId == id && b[|a|].num >= next
    ensures Ranked(b, id, inFront)
  {
    assert forall i :: 0 <= i < |a| ==> b[i] == a[i];
  }

  /** A frame that came at the tail is new. */
  lemma ComerIsNew(s: State, t: State, kept: seq<Frame>)
    requires Sound(s) && Sound(t) && NewNumbers(s, t) && OutboxMoves(s, t) && Extends(kept, t.mem.frames)
    requires || kept == s.mem.frames
             || (s.mem.frames != [] && kept == s.mem.frames[1..] && !Extends(s.mem.frames, t.mem.frames))
    ensures |t.mem.frames| > |kept| ==>
      t.mem.frames[|kept|].streamId == s.streamId && t.mem.frames[|kept|].num >= s.next
  {
    var a, b := s.mem.frames, t.mem.frames;
    if |b| > |kept| {
      assert b[|kept|] in b;
      assert forall f :: f in a ==> f.Key() in s.log;
      if a != [] {
        assert a[0] in a;
      }
    }
  }

  lemma OwnNumbersArePast(s: State)
    requires Sound(s)
    ensures forall f :: f in s.mem.frames && f.streamId == s.streamId ==> f.num < s.next
  {
    forall f | f in s.mem.frames && f.streamId == s.streamId ensures f.num < s.next {
      assert f.Key() in s.log;
    }
  }

  lemma TailRanked(s: State, t: State, inFront: set<Key>)
    requires Sound(s) && Sound(t) && AtTheTail(s, t) && NewNumbers(s, t) && OutboxMoves(s, t)
    requires Ranked(s.mem.frames, s.streamId, inFront)
    ensures Ranked(t.mem.frames, s.streamId, inFront)
  {
    hide Sound, NewNumbers, OutboxMoves, Ranked;
    var kept := s.mem.frames;
    if !Extends(s.mem.frames, t.mem.frames) {
      kept := s.mem.frames[1..];
      RestRanked(s.mem.frames, s.streamId, inFront);
    }
    ComerIsNew(s, t, kept);
    OwnNumbersArePast(s);
    forall i | 0 <= i < |kept| && kept[i].streamId == s.streamId ensures kept[i].num < s.next {
      assert kept[i] in s.mem.frames;
    }
    ExtendedRanked(kept, t.mem.frames, s.streamId, s.next, inFront);
  }

  lemma HeadRanked(y: System, l: Label, inFront: set<Key>)
    requires Enabled(y, l) && l.InsertHead? && Ranked(y.s.mem.frames, y.s.streamId, inFront)
    ensures Ranked(Next(y, l).s.mem.frames, y.s.streamId, inFront + PutInFront(y, l))
  {
    var b := Next(y, l).s.mem.frames;
    if AppendHead(y.s, l.p, l.write).1.Appended? {
      assert forall i :: 0 < i < |b| ==> b[i] == y.s.mem.frames[i - 1];
      assert b[0].Key() in PutInFront(y, l);
    }
  }

  lemma RankedStep(y: System, l: Label, inFront: set<Key>)
    requires SystemOk(y) && Enabled(y, l) && !l.Restart? && Ranked(y.s.mem.frames, y.s.streamId, inFront)
    ensures Ranked(Next(y, l).s.mem.frames, y.s.streamId, inFront + PutInFront(y, l))
    ensures Next(y, l).s.streamId == y.s.streamId
  {
    hide Sound, Ranked, AtTheTail, OutboxMoves;
    StepNumbers(y, l);
    if l.InsertHead? {
      HeadRanked(y, l, inFront);
    } else {
      Step(y, l);
      StepAtTail(y, l);
      TailRanked(y.s, Next(y, l).s, inFront);
      assert inFront + PutInFront(y, l) == inFront;
    }
  }

  /** Over a run of one incarnation the order of numbers is kept, apart from what is put in front. */
  lemma {:induction false} RankedRun(y: System, run: seq<Label>, inFront: set<Key>)
    requires SystemOk(y) && Possible(y, run) && OneIncarnation(run) && Ranked(y.s.mem.frames, y.s.streamId, inFront)
    ensures Ranked(After(y, run).s.mem.frames, y.s.streamId, inFront + FrontKeys(y, run))
    decreases |run|
  {
    hide Next, Enabled, Ranked, PutInFront, Sound;
    if run == [] {
      assert inFront + {} == inFront;
    } else {
      RankedStep(y, run[0], inFront);
      Step(y, run[0]);
      var z := Next(y, run[0]);
      RankedRun(z, run[1..], inFront + PutInFront(y, run[0]));
      assert inFront + PutInFront(y, run[0]) + FrontKeys(z, run[1..]) == inFront + FrontKeys(y, run);
    }
  }

  /** From a restart on, whatever happens: the frames that wait stand in the order of their numbers, behind the frames
      inherited from earlier incarnations, but for those put in front. */
  lemma WaitingStandsInOrder(y: System, newId: Id, order: seq<Id>, run: seq<Label>)
    requires SystemOk(y) && Enabled(y, Restart(newId, order))
    requires Possible(Next(y, Restart(newId, order)), run) && OneIncarnation(run)
    ensures var z := Next(y, Restart(newId, order));
      Ranked(After(z, run).s.mem.frames, newId, FrontKeys(z, run))
  {
    hide Sound, DropBoots;
    var z := Next(y, Restart(newId, order));
    Step(y, Restart(newId, order));
    InheritedHaveOtherIds(y, newId, order);
    RankedRun(z, run, {});
    assert {} + FrontKeys(z, run) == FrontKeys(z, run);
  }

  lemma InheritedHaveOtherIds(y: System, newId: Id, order: seq<Id>)
    requires SystemOk(y) && Enabled(y, Restart(newId, order))
    ensures forall f :: f in Next(y, Restart(newId, order)).s.mem.frames ==> f.streamId != newId
  {
    DropBootsKeeps(y.s.disk.frames);
    forall f | f in y.s.disk.frames ensures f.streamId != newId {
      assert f.Key() in y.s.log;
    }
  }

  /** The receipt of a new job stands ahead of every frame that is appended after it, its claimer's included, for as
      long as both wait. */
  lemma ReceiptStandsAhead(y: System, l: Label, run: seq<Label>, i: nat, j: nat)
    requires SystemOk(y) && l.Deliver? && l.receipt
    requires AcceptJob(y.s, l.id, l.job, l.d, l.receipt, l.inboxWrite, l.probe, l.write).1 == Taken
    requires Possible(Next(y, l), run) && OneIncarnation(run)
    requires var z := Next(y, l);
      var frames := After(z, run).s.mem.frames;
      && i < |frames| && j < |frames|
      && frames[i].Key() == KeyOf(y.s.streamId, y.s.next)
      && frames[j].Key() !in z.s.log && frames[j].Key() !in FrontKeys(z, run)
    ensures i < j
  {
    hide Sound, AcceptJob, Ranked;
    var z := Next(y, l);
    var receipt := KeyOf(y.s.streamId, y.s.next);
    Step(y, l);
    StepNumbers(y, l);
    ReceiptComesFirst(y, l, run);
    var others := z.s.log.Keys - {receipt};
    OnlyOneOutside(z.s, receipt);
    RankedRun(z, run, others);
    FrontKeysAreNew(z, run);
    Run(z, run);
    WaitingIsLogged(After(z, run).s);
    var frames := After(z, run).s.mem.frames;
    assert frames[j] in frames;
    LaterStandsBehind(frames, others + FrontKeys(z, run), receipt, i, j);
  }

  lemma LaterStandsBehind(frames: seq<Frame>, inFront: set<Key>, first: Key, i: nat, j: nat)
    requires Ranked(frames, first.streamId, inFront) && i < |frames| && j < |frames|
    requires frames[i].Key() == first && first !in inFront && frames[j].Key() !in inFront
    requires frames[j].streamId == first.streamId && frames[j].num > first.num
    ensures i < j
  {
  }

  lemma OnlyOneOutside(s: State, k: Key)
    requires Sound(s)
    ensures Ranked(s.mem.frames, s.streamId, s.log.Keys - {k})
  {
    forall i | 0 <= i < |s.mem.frames| ensures s.mem.frames[i].Key() in s.log {
      assert s.mem.frames[i] in s.mem.frames;
    }
  }

  lemma {:induction false} FrontKeysAreNew(y: System, run: seq<Label>)
    requires SystemOk(y) && Possible(y, run) && OneIncarnation(run)
    ensures forall k :: k in FrontKeys(y, run) ==> k !in y.s.log
    decreases |run|
  {
    hide Next, Enabled;
    if run != [] {
      Step(y, run[0]);
      FrontKeysAreNew(Next(y, run[0]), run[1..]);
      assert KeyOf(y.s.streamId, y.s.next) !in y.s.log;
    }
  }
}

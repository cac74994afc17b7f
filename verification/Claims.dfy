/** Admission and hand-out over whole runs: permanent verdicts stick, a replaying process claims nothing before
    its outbox has been empty, no accepted job is lost, and receipts come first. */
module Claims {
  import opened Basics
  import opened Frames
  import opened Admission
  import opened StreamState
  import opened Soundness
  import opened SenderCycle
  import opened StreamRuns

  /** The step in which a claimer walks away with a job. */
  predicate HandsOut(y: System, l: Label) {
    l.ResolveItem? && Resolve(y.s, l.item).1.Claimed?
  }

  /** No restart in the run: one incarnation. */
  predicate OneIncarnation(run: seq<Label>) {
    forall l :: l in run ==> !l.Restart?
  }

  ghost predicate NeverHandsOut(y: System, run: seq<Label>)
    requires Possible(y, run)
    decreases |run|
  {
    run == [] || (!HandsOut(y, run[0]) && NeverHandsOut(Next(y, run[0]), run[1..]))
  }

  // ── how the verdict layer may move ──

  function Verdict(s: State): Option<Fault> {
    Abs(s.adm).verdict
  }

  /** Ambiguity is forgotten only around an empty outbox, and a permanent verdict only for another one. */
  ghost predicate VerdictMoves(s: State, t: State) {
    || Verdict(t) == Verdict(s)
    || Permanent(Verdict(t))
    || (Verdict(s).None? && Verdict(t) == Some(DeliveryPending))
    || (Verdict(s) == Some(DeliveryPending) && Verdict(t).None? && (s.mem.frames == [] || t.mem.frames == []))
  }

  lemma LatchMovesVerdict(s: State, e: Fault, storage: bool)
    requires Admission.Valid(s.adm) && (storage ==> !e.DeliveryPending?)
    ensures VerdictMoves(s, Latched(s, e, storage))
  {
    LatchRefines(s.adm, e, storage);
  }

  lemma WriteMovesVerdict(s: State)
    requires Admission.Valid(s.adm)
    ensures VerdictMoves(s, Persisted(s)) && Admission.Valid(Persisted(s).adm)
    ensures Verdict(s) != Verdict(Persisted(s)) ==> s.mem.frames == []
  {
    RecoverRefines(s.adm, s.mem.frames == []);
  }

  lemma ClearMovesVerdict(s: State)
    requires Admission.Valid(s.adm)
    ensures VerdictMoves(s, Cleared(s))
    ensures Verdict(s) != Verdict(Cleared(s)) ==> s.mem.frames == [] && Verdict(s) == Some(DeliveryPending)
  {
    ClearRefines(s.adm, s.mem.frames == []);
  }

  lemma AppendRecoveredMovesVerdict(s: State, p: Payload, write: bool)
    requires Admission.Valid(s.adm)
    ensures VerdictMoves(s, AppendRecovered(s, p, write).0)
  {
    LatchMovesVerdict(s, StorageFault, true);
    RecoverRefines(s.adm, false);
  }

  lemma AppendMovesVerdict(s: State, p: Payload, probe: bool, write: bool)
    requires Admission.Valid(s.adm)
    ensures VerdictMoves(s, Append(s, p, probe, write).0)
  {
    LatchMovesVerdict(s, Unhealthy, false);
    WriteMovesVerdict(s);
    AppendRecoveredMovesVerdict(s, p, write);
    AppendRecoveredMovesVerdict(Persisted(s), p, write);
  }

  lemma AppendHeadMovesVerdict(s: State, p: Payload, write: bool)
    requires Admission.Valid(s.adm) && p.Event?
    ensures VerdictMoves(s, AppendHead(s, p, write).0)
  {
    LatchMovesVerdict(s, StorageFault, true);
    RecoverRefines(s.adm, false);
  }

  lemma ReceiptMovesVerdict(s: State, s1: State, id: Id, d: Delivery, ack: bool, probe: bool, write: bool,
                            done: AcceptOutcome)
    requires Admission.Valid(s.adm) && s1.adm == s.adm && s1.mem.frames == s.mem.frames
    ensures VerdictMoves(s, EmitReceipt(Persisted(s1), id, d, ack, probe, write, done).0)
  {
    WriteMovesVerdict(s1);
    AppendMovesVerdict(Persisted(s1), Receipt(id, d), probe, write);
  }

  lemma AcceptMovesVerdict(s: State, id: Id, job: Job, d: Delivery, ack: bool, inboxWrite: bool, probe: bool,
                           write: bool)
    requires Admission.Valid(s.adm)
    ensures VerdictMoves(s, AcceptJob(s, id, job, d, ack, inboxWrite, probe, write).0)
  {
    if id in ResultCorrs(s.mem) {
      AppendMovesVerdict(s, Receipt(id, d), probe, write);
    } else if id in s.mem.inbox {
      LatchMovesVerdict(s, Unhealthy, false);
      LatchMovesVerdict(s, StorageFault, true);
      ReceiptMovesVerdict(s, WithDelivery(s, id, d), id, d, ack, probe, write, Replayed);
    } else {
      LatchMovesVerdict(s, StorageFault, true);
      ReceiptMovesVerdict(s, WithJob(s, id, job, d), id, d, ack, probe, write, Taken);
    }
  }

  lemma SettleAcceptedMovesVerdict(s: State, f: Frame, ack: Ack, write: bool)
    requires Admission.Valid(s.adm)
    ensures VerdictMoves(s, SettleAccepted(s, f, ack, write).0)
  {
    ClearMovesVerdict(Forget(s, f.Key()));
    if AtHead(s, f.Key()) && write {
      var frames := s.mem.frames[1..] + (if f.payload.Result? then [NewFrame(s, ResultAcked(f.payload))] else []);
      RecoverRefines(s.adm, frames == []);
      var r := Retire(s, f, ack);
      assert r.mem.frames == frames;
      ClearMovesVerdict(Forget(r, f.Key()));
    }
  }

  lemma AfterBurialMovesVerdict(s: State, f: Frame, disp: Disposition, ack: Option<Ack>, release: bool)
    requires Admission.Valid(s.adm)
    ensures VerdictMoves(s, AfterBurial(s, f, disp, ack, release))
    ensures AfterBurial(s, f, disp, ack, release).mem.frames == s.mem.frames
  {
    LatchMovesVerdict(s, FrameRejected(f.Key()), false);
    ClearMovesVerdict(s);
    var r := Release(s, f, ack, release);
    RecoverRefines(s.adm, s.mem.frames == []);
    ClearMovesVerdict(r);
  }

  lemma SettleMovesVerdict(s: State, f: Frame, disp: Disposition, ack: Option<Ack>, write: bool, release: bool)
    requires Admission.Valid(s.adm) && (disp.Accepted? ==> ack.Some?)
    ensures VerdictMoves(s, Settle(s, f, disp, ack, write, release).0)
  {
    var u := Unmark(s, f.Key());
    if !disp.Accepted? && IsReopen(f) {
      if AtHead(u, f.Key()) {
        WriteMovesVerdict(PopHead(SetFate(u, ReopenDropped)));
      }
    } else if disp.Accepted? {
      SettleAcceptedMovesVerdict(u, f, ack.value, write);
    } else if disp.Pending? {
      LatchMovesVerdict(u, DeliveryPending, false);
    } else {
      AfterBurialMovesVerdict(Forget(u, f.Key()), f, disp, ack, release);
      if AtHead(u, f.Key()) && write {
        var b := Bury(u, f, ack);
        RecoverRefines(u.adm, b.mem.frames == []);
        AfterBurialMovesVerdict(Forget(b, f.Key()), f, disp, ack, release);
      }
    }
  }

  lemma SettlingMovesVerdict(y: System, l: Label)
    requires SystemOk(y) && Enabled(y, l) && Settles(l)
    ensures VerdictMoves(y.s, Next(y, l).s)
  {
    hide VerdictMoves, Settle;
    var s, f := y.s, y.held.value;
    match l {
      case SettleKnown(write, release) =>
        SettleMovesVerdict(s, f, y.known[f.Key()].disp, Some(y.known[f.Key()].ack), write, release);
      case DropReport(write) => SettleMovesVerdict(s, f, Abandoned, None, write, true);
      case Exhaust(write) => ExhaustMovesVerdict(s, f, write);
    }
  }

  lemma ExhaustMovesVerdict(s: State, f: Frame, write: bool)
    requires Admission.Valid(s.adm)
    ensures VerdictMoves(s, ExhaustState(s, f, write).0)
  {
    SettleMovesVerdict(CountAttempt(s, f.Key()), f, Abandoned, Some(CapAck(f.Key())), write, true);
    SettleMovesVerdict(CountAttempt(s, f.Key()), f, Pending, None, write, true);
  }

  lemma StepMovesVerdict(y: System, l: Label)
    requires SystemOk(y) && Enabled(y, l) && !l.Restart?
    ensures VerdictMoves(y.s, Next(y, l).s)
  {
    var s := y.s;
    if Settles(l) {
      SettlingMovesVerdict(y, l);
    } else if Appends(l) {
      AppendingMovesVerdict(y, l);
    } else if MovesLatch(l) {
      LatchingMovesVerdict(y, l);
    } else {
      VerdictStays(y, l);
    }
  }

  lemma AppendingMovesVerdict(y: System, l: Label)
    requires SystemOk(y) && Enabled(y, l) && Appends(l)
    ensures VerdictMoves(y.s, Next(y, l).s)
  {
    hide VerdictMoves;
    match l {
      case AppendFrame(p, probe, write) => AppendMovesVerdict(y.s, p, probe, write);
      case InsertHead(p, write) => AppendHeadMovesVerdict(y.s, p, write);
      case Deliver(id, job, d, receipt, inboxWrite, probe, write) =>
        AcceptMovesVerdict(y.s, id, job, d, receipt, inboxWrite, probe, write);
    }
  }

  lemma LatchingMovesVerdict(y: System, l: Label)
    requires SystemOk(y) && Enabled(y, l) && MovesLatch(l)
    ensures VerdictMoves(y.s, Next(y, l).s)
  {
    hide VerdictMoves;
    var s := y.s;
    match l {
      case RefuseInput => LatchMovesVerdict(s, Unhealthy, false);
      case GiveUpWaiting => LatchMovesVerdict(s, DeliveryPending, false);
      case SocketOpened => ClearMovesVerdict(s);
      case EarlyVerdict(f, ack) => LatchMovesVerdict(s, FrameRejected(f.Key()), false);
      case SenderFault => LatchMovesVerdict(s, StorageFault, true);
    }
  }

  lemma VerdictStays(y: System, l: Label)
    requires Enabled(y, l) && !Settles(l) && !Appends(l) && !MovesLatch(l) && !l.Restart?
    ensures Verdict(Next(y, l).s) == Verdict(y.s)
  {
    hide Next;
    if TouchesQueue(l) {
      ClaimingStep(y, l);
    } else {
      NotingStep(y, l);
    }
  }

  lemma NoHandOutUnderVerdict(y: System, l: Label)
    requires SystemOk(y) && Verdict(y.s).Some?
    ensures !HandsOut(y, l)
  {
    OpenExactlyWhenBothLayersAre(y.s.adm);
  }

  // ── permanent verdicts stick ──

  /** Once a permanent verdict is latched, no mix of storage faults, recoveries, settlements, reconnects or
      ambiguous latches lets that incarnation hand out another job. */
  lemma {:induction false} PermanentVerdictsStick(y: System, run: seq<Label>)
    requires SystemOk(y) && Possible(y, run) && OneIncarnation(run)
    requires Permanent(Verdict(y.s))
    ensures NeverHandsOut(y, run) && Permanent(Verdict(After(y, run).s))
    decreases |run|
  {
    if run != [] {
      var z := Next(y, run[0]);
      NoHandOutUnderVerdict(y, run[0]);
      StepMovesVerdict(y, run[0]);
      Step(y, run[0]);
      PermanentVerdictsStick(z, run[1..]);
    }
  }

  /** What latches one: refused input, a verdict on the worker's identity as soon as it is read, and the same
      verdict when it is settled. */
  lemma PermanentVerdictsAreLatched(y: System, l: Label)
    requires SystemOk(y) && Enabled(y, l)
    requires || l.RefuseInput? || l.EarlyVerdict?
             || (l.SettleKnown? && y.known[y.held.value.Key()].disp.Rejected? && l.write)
    ensures Permanent(Verdict(Next(y, l).s))
  {
    match l {
      case RefuseInput => LatchRefines(y.s.adm, Unhealthy, false);
      case EarlyVerdict(f, ack) => LatchRefines(y.s.adm, FrameRejected(f.Key()), false);
      case SettleKnown(write, release) =>
        var f := y.held.value;
        assert Judge(f, y.known[f.Key()].ack) == Some(Rejected);
        RefusalLatches(Unmark(y.s, f.Key()), f, Some(y.known[f.Key()].ack), release);
    }
  }

  lemma RefusalLatches(s: State, f: Frame, ack: Option<Ack>, release: bool)
    requires Admission.Valid(s.adm) && !IsReopen(f)
    ensures Permanent(Verdict(SettleRefused(s, f, Rejected, ack, true, release).0))
  {
    LatchRefines(s.adm, FrameRejected(f.Key()), false);
    if AtHead(s, f.Key()) {
      var b := Bury(s, f, ack);
      RecoverRefines(s.adm, b.mem.frames == []);
      LatchRefines(b.adm, FrameRejected(f.Key()), false);
    }
  }

  // ── replay before work ──

  /** The outbox is never empty at any state the run visits. */
  ghost predicate AlwaysPending(y: System, run: seq<Label>)
    requires Possible(y, run)
    decreases |run|
  {
    y.s.mem.frames != [] && (run == [] || AlwaysPending(Next(y, run[0]), run[1..]))
  }

  /** After a restart with unacknowledged frames nothing is handed out before the outbox has been empty once. */
  lemma ReplayBeforeWork(y: System, newId: Id, order: seq<Id>, run: seq<Label>)
    requires SystemOk(y) && Enabled(y, Restart(newId, order))
    requires var z := Next(y, Restart(newId, order));
             Possible(z, run) && OneIncarnation(run) && AlwaysPending(z, run)
    ensures NeverHandsOut(Next(y, Restart(newId, order)), run)
  {
    Step(y, Restart(newId, order));
    ClosedWhilePending(Next(y, Restart(newId, order)), run);
  }

  lemma {:induction false} ClosedWhilePending(y: System, run: seq<Label>)
    requires SystemOk(y) && Possible(y, run) && OneIncarnation(run) && AlwaysPending(y, run)
    requires Verdict(y.s).Some?
    ensures NeverHandsOut(y, run)
    decreases |run|
  {
    if run != [] {
      NoHandOutUnderVerdict(y, run[0]);
      StepMovesVerdict(y, run[0]);
      Step(y, run[0]);
      ClosedWhilePending(Next(y, run[0]), run[1..]);
    }
  }
}

/** Jobs over whole runs: none that was accepted is lost, each hand-out is of a job then in the inbox, and the
    receipt of a job precedes everything its claimer says. */
module Jobs {
  import opened Basics
  import opened Frames
  import opened Admission
  import opened StreamState
  import opened Soundness
  import opened SenderCycle
  import opened StreamRuns
  import opened Claims
  import opened QueueMoves

  /** Every job of the inbox is with a claimer, still queued, or in a claimer's hand. */
  ghost predicate JobsOk(y: System) {
    forall id :: id in y.s.mem.inbox ==>
      id in y.s.claimed || Handout(id) in y.s.jobs || Handout(id) in y.hands
  }

  lemma StayingKeepsJobs(y: System, z: System)
    requires JobsOk(y) && Stays(y.s, z.s) && z.hands == y.hands
    ensures JobsOk(z)
  {
    assert forall it :: it in y.s.jobs ==> it in z.s.jobs;
  }

  lemma EnteringKeepsJobs(y: System, z: System, id: Id)
    requires JobsOk(y) && Enters(y.s, z.s, id) && z.hands == y.hands
    ensures JobsOk(z)
  {
    assert forall it :: it in y.s.jobs ==> it in z.s.jobs;
    assert z.s.jobs[|z.s.jobs| - 1] == Handout(id);
  }

  lemma TakingKeepsJobs(y: System)
    requires JobsOk(y) && y.s.jobs != []
    ensures JobsOk(Next(y, Take))
  {
    assert forall it :: it in y.s.jobs ==> it == y.s.jobs[0] || it in y.s.jobs[1..];
  }

  lemma RestartKeepsJobs(y: System, l: Label)
    requires Enabled(y, l) && l.Restart?
    ensures JobsOk(Next(y, l))
  {
    assert forall i :: 0 <= i < |l.order| ==> Handouts(l.order)[i] == Handout(l.order[i]);
  }

  lemma JobsStep(y: System, l: Label)
    requires SystemOk(y) && Enabled(y, l) && JobsOk(y)
    ensures JobsOk(Next(y, l))
  {
    if l.Restart? {
      RestartKeepsJobs(y, l);
    } else if l.Take? {
      TakingKeepsJobs(y);
    } else if l.ResolveItem? {
      ResolveKeepsJobs(y, l.item);
    } else if TakesNewJob(y, l) {
      DeliveryEnters(y, l);
      EnteringKeepsJobs(y, Next(y, l), l.id);
    } else if LeavesItems(l) {
      StepStays(y, l);
      StayingKeepsJobs(y, Next(y, l));
    } else {
      InterruptKeepsJobs(y);
    }
  }

  lemma InterruptKeepsJobs(y: System)
    requires JobsOk(y)
    ensures JobsOk(Next(y, Interrupt))
  {
    assert forall it :: it in y.s.jobs ==> it in y.s.jobs + [ClaimInterrupt];
  }

  /** Resolving an item never drops the last trace of a job. */
  lemma ResolveKeepsJobs(y: System, item: Item)
    requires item in y.hands && JobsOk(y)
    ensures JobsOk(Next(y, ResolveItem(item)))
  {
    var z := Next(y, ResolveItem(item));
    forall id | id in z.s.mem.inbox
      ensures id in z.s.claimed || Handout(id) in z.s.jobs || Handout(id) in z.hands
    {
      if item != Handout(id) && Handout(id) in y.hands {
        assert z.hands[Handout(id)] == y.hands[Handout(id)];
      }
    }
  }

  /** In every reachable state each job of the inbox is claimed, queued or in a claimer's hand, and claimed
      jobs are jobs of the inbox. */
  lemma {:induction false} NoJobIsLost(y: System, run: seq<Label>)
    requires SystemOk(y) && JobsOk(y) && Possible(y, run)
    ensures JobsOk(After(y, run)) && After(y, run).s.claimed <= After(y, run).s.mem.inbox.Keys
    decreases |run|
  {
    if run != [] {
      JobsStep(y, run[0]);
      Step(y, run[0]);
      NoJobIsLost(Next(y, run[0]), run[1..]);
    }
  }

  lemma StartLosesNoJob(newId: Id)
    requires ValidStreamId(newId)
    ensures SystemOk(Start(newId)) && JobsOk(Start(newId))
  {
    StartIsOk(newId);
  }

  /** From an empty volume, with crashes and restarts. */
  lemma EveryRunLosesNoJob(newId: Id, run: seq<Label>)
    requires ValidStreamId(newId) && Possible(Start(newId), run)
    ensures var z := After(Start(newId), run);
      JobsOk(z) && z.s.claimed <= z.s.mem.inbox.Keys
  {
    StartLosesNoJob(newId);
    NoJobIsLost(Start(newId), run);
  }

  /** A restart hands out exactly the inbox on file, each job once, and nothing counts as claimed. */
  lemma RestartRequeuesTheInbox(y: System, newId: Id, order: seq<Id>)
    requires SystemOk(y) && Enabled(y, Restart(newId, order))
    ensures var z := Next(y, Restart(newId, order));
      && z.s.mem.inbox == y.s.disk.inbox && z.s.claimed == {}
      && (forall id :: Handout(id) in z.s.jobs <==> id in y.s.disk.inbox)
      && (forall i, j :: 0 <= i < j < |z.s.jobs| ==> z.s.jobs[i] != z.s.jobs[j])
  {
    var z := Next(y, Restart(newId, order));
    assert forall i :: 0 <= i < |order| ==> z.s.jobs[i] == Handout(order[i]);
    forall id
      ensures Handout(id) in z.s.jobs <==> id in y.s.disk.inbox
    {
      if id in y.s.disk.inbox {
        var i :| 0 <= i < |order| && order[i] == id;
        assert z.s.jobs[i] == Handout(id);
      }
    }
  }

  /** A claim returns a job that is in the inbox, durable, not yet answered, under open admission. */
  lemma ClaimsAreHonest(y: System, l: Label)
    requires SystemOk(y) && Enabled(y, l) && HandsOut(y, l)
    ensures var id := l.item.id;
      && Resolve(y.s, l.item).1 == Claimed(id, y.s.disk.inbox[id])
      && id in y.s.disk.inbox && id !in ResultCorrs(y.s.disk)
      && Abs(y.s.adm) == Layers(None, false)
      && id in Next(y, l).s.claimed
  {
    OpenExactlyWhenBothLayersAre(y.s.adm);
    SoundFilesLoad(y.s);
  }

  // ── how a job may leave the inbox ──

  /** In memory a job leaves the inbox only when its own result is durably appended, or when the server says,
      in a settled verdict on its receipt, that another worker owns it, and then only unclaimed. */
  lemma JobsLeaveOnlyAnswered(y: System, l: Label, id: Id)
    requires SystemOk(y) && Enabled(y, l) && !l.Restart?
    requires id in y.s.mem.inbox && id !in Next(y, l).s.mem.inbox
    ensures || (exists k :: HeldResult(Next(y, l).s.log, k) && k !in y.s.log
                            && Next(y, l).s.log[k].frame.payload.corr == id)
            || (l.SettleKnown? && y.known[y.held.value.Key()].ack.error == NOT_OWNED
                && y.held.value.payload.JobAck? && y.held.value.payload.corr == id && id !in y.s.claimed)
  {
    if l.AppendFrame? {
      AppendAnswers(y.s, l.p, l.probe, l.write, id);
    } else {
      OthersKeepTheInbox(y, l, id);
    }
  }

  lemma AppendAnswers(s: State, p: Payload, probe: bool, write: bool, id: Id)
    requires IdsOk(s) && id in s.mem.inbox
    requires id !in Append(s, p, probe, write).0.mem.inbox
    ensures var t := Append(s, p, probe, write).0;
      exists k :: HeldResult(t.log, k) && k !in s.log && t.log[k].frame.payload.corr == id
  {
    assert NewFrame(s, p).Key() !in s.log;
    assert HeldResult(Append(s, p, probe, write).0.log, NewFrame(s, p).Key());
  }

  lemma OthersKeepTheInbox(y: System, l: Label, id: Id)
    requires SystemOk(y) && Enabled(y, l) && !l.Restart? && !l.AppendFrame?
    requires id in y.s.mem.inbox && id !in Next(y, l).s.mem.inbox
    ensures l.SettleKnown? && y.known[y.held.value.Key()].ack.error == NOT_OWNED
    ensures y.held.value.payload.JobAck? && y.held.value.payload.corr == id && id !in y.s.claimed
  {
    hide SystemOk, Settle;
    if l.Deliver? {
      DeliverKeepsTheInbox(y.s, l.id, l.job, l.d, l.receipt, l.inboxWrite, l.probe, l.write);
    } else if l.InsertHead? {
      HeadKeepsTheInbox(y.s, l.p, l.write);
    } else if l.SettleKnown? {
      var v := y.known[y.held.value.Key()];
      SettleKeepsTheInbox(y.s, y.held.value, v.disp, Some(v.ack), l.write, l.release, id);
    } else if l.Exhaust? {
      ExhaustKeepsTheInbox(y.s, y.held.value, l.write);
    } else if l.DropReport? {
      SettleKeepsTheInbox(y.s, y.held.value, Abandoned, None, l.write, true, id);
    }
  }

  lemma HeadKeepsTheInbox(s: State, p: Payload, write: bool)
    requires p.Event?
    ensures AppendHead(s, p, write).0.mem.inbox == s.mem.inbox
  {
  }

  lemma ExhaustKeepsTheInbox(s: State, f: Frame, write: bool)
    ensures s.mem.inbox.Keys <= ExhaustState(s, f, write).0.mem.inbox.Keys
  {
    var s1 := CountAttempt(s, f.Key());
    forall id | id in s.mem.inbox ensures id in ExhaustState(s, f, write).0.mem.inbox {
      if id !in Settle(s1, f, Abandoned, Some(CapAck(f.Key())), write, true).0.mem.inbox {
        SettleKeepsTheInbox(s1, f, Abandoned, Some(CapAck(f.Key())), write, true, id);
      }
      if id !in Settle(s1, f, Pending, None, write, true).0.mem.inbox {
        SettleKeepsTheInbox(s1, f, Pending, None, write, true, id);
      }
    }
  }

  lemma SettleKeepsTheInbox(s: State, f: Frame, disp: Disposition, ack: Option<Ack>, write: bool, release: bool, id: Id)
    requires disp.Accepted? ==> ack.Some?
    requires id in s.mem.inbox && id !in Settle(s, f, disp, ack, write, release).0.mem.inbox
    ensures disp.OneFrameOnly? && ack.Some? && ack.value.error == NOT_OWNED
    ensures f.payload.JobAck? && f.payload.corr == id && id !in s.claimed
  {
    var u := Unmark(s, f.Key());
    ReportKeepsTheInbox(u, f.Key(), write);
    if disp.Accepted? {
      AcceptedKeepsTheInbox(u, f, ack.value, write);
    } else if !IsReopen(f) && !disp.Pending? {
      RefusedKeepsTheInbox(u, f, disp, ack, write, release, id);
    }
  }

  lemma RefusedKeepsTheInbox(s: State, f: Frame, disp: Disposition, ack: Option<Ack>, write: bool, release: bool,
                             id: Id)
    requires id in s.mem.inbox && id !in SettleRefused(s, f, disp, ack, write, release).0.mem.inbox
    ensures disp.OneFrameOnly? && ack.Some? && ack.value.error == NOT_OWNED
    ensures f.payload.JobAck? && f.payload.corr == id && id !in s.claimed
  {
  }

  lemma ReportKeepsTheInbox(s: State, key: Key, write: bool)
    ensures SettleReport(s, key, write).0.mem.inbox == s.mem.inbox
  {
  }

  lemma AcceptedKeepsTheInbox(s: State, f: Frame, ack: Ack, write: bool)
    ensures SettleAccepted(s, f, ack, write).0.mem.inbox == s.mem.inbox
  {
  }

  lemma ReceiptKeepsTheInbox(s: State, id: Id, d: Delivery, ack: bool, probe: bool, write: bool, done: AcceptOutcome)
    ensures EmitReceipt(s, id, d, ack, probe, write, done).0.mem.inbox == s.mem.inbox
  {
  }

  lemma DeliverKeepsTheInbox(s: State, id: Id, job: Job, d: Delivery, ack: bool, inboxWrite: bool, probe: bool,
                             write: bool)
    ensures s.mem.inbox.Keys <= AcceptJob(s, id, job, d, ack, inboxWrite, probe, write).0.mem.inbox.Keys
  {
    if id in ResultCorrs(s.mem) {
      ReceiptKeepsTheInbox(s, id, d, ack, probe, write, Deduplicated);
    } else if id in s.mem.inbox {
      ReceiptKeepsTheInbox(Persisted(WithDelivery(s, id, d)), id, d, ack, probe, write, Replayed);
    } else {
      ReceiptKeepsTheInbox(Persisted(WithJob(s, id, job, d)), id, d, ack, probe, write, Taken);
    }
  }

  // ── receipts first ──

  /** Every frame the transition adds carries the stream's own id and a number from the counter on. */
  ghost predicate NewNumbers(s: State, t: State) {
    && t.streamId == s.streamId && s.next <= t.next
    && forall k :: k in t.log && k !in s.log ==> k.streamId == s.streamId && k.num >= s.next
  }

  lemma AppendRecoveredNumbers(s: State, p: Payload, write: bool)
    ensures NewNumbers(s, AppendRecovered(s, p, write).0)
  {
  }

  lemma AppendNumbers(s: State, p: Payload, probe: bool, write: bool)
    ensures NewNumbers(s, Append(s, p, probe, write).0)
  {
    var s1 := if s.adm.storage.Some? then Persisted(s) else s;
    AppendRecoveredNumbers(s1, p, write);
    NumbersFrom(s, s1, AppendRecovered(s1, p, write).0);
  }

  lemma AppendHeadNumbers(s: State, p: Payload, write: bool)
    requires p.Event?
    ensures NewNumbers(s, AppendHead(s, p, write).0)
  {
  }

  lemma AcceptedNumbers(s: State, f: Frame, ack: Ack, write: bool)
    requires Sound(s) && Logged(s, f)
    ensures NewNumbers(s, SettleAccepted(s, f, ack, write).0)
  {
    if AtHead(s, f.Key()) {
      HeadIsTheFrame(s, f);
    }
  }

  lemma RefusedNumbers(s: State, f: Frame, disp: Disposition, ack: Option<Ack>, write: bool, release: bool)
    requires Sound(s) && Logged(s, f)
    ensures NewNumbers(s, SettleRefused(s, f, disp, ack, write, release).0)
  {
    if AtHead(s, f.Key()) {
      HeadIsTheFrame(s, f);
    }
  }

  lemma ReportNumbers(s: State, f: Frame, write: bool)
    requires Sound(s) && Logged(s, f)
    ensures NewNumbers(s, SettleReport(s, f.Key(), write).0)
  {
    if AtHead(s, f.Key()) {
      HeadIsTheFrame(s, f);
    }
  }

  lemma SettleNumbers(s: State, f: Frame, disp: Disposition, ack: Option<Ack>, write: bool, release: bool)
    requires Sound(s) && Logged(s, f) && (disp.Accepted? ==> ack.Some?)
    ensures NewNumbers(s, Settle(s, f, disp, ack, write, release).0)
  {
    var u := Unmark(s, f.Key());
    assert Sound(u) && Logged(u, f);
    if !disp.Accepted? && IsReopen(f) {
      ReportNumbers(u, f, write);
    } else if disp.Accepted? {
      AcceptedNumbers(u, f, ack.value, write);
    } else if !disp.Pending? {
      RefusedNumbers(u, f, disp, ack, write, release);
    }
  }

  lemma ReceiptNumbers(s: State, id: Id, d: Delivery, ack: bool, probe: bool, write: bool, done: AcceptOutcome)
    ensures NewNumbers(s, EmitReceipt(s, id, d, ack, probe, write, done).0)
  {
    AppendNumbers(s, Receipt(id, d), probe, write);
  }

  lemma NumbersFrom(s: State, s1: State, t: State)
    requires s1.log == s.log && s1.streamId == s.streamId && s1.next == s.next && NewNumbers(s1, t)
    ensures NewNumbers(s, t)
  {
  }

  lemma ReplayNumbers(s: State, id: Id, job: Job, d: Delivery, ack: bool, inboxWrite: bool, probe: bool, write: bool)
    requires id in s.mem.inbox
    ensures NewNumbers(s, AcceptReplay(s, id, job, d, ack, inboxWrite, probe, write).0)
  {
    var s1 := Persisted(WithDelivery(s, id, d));
    ReceiptNumbers(s1, id, d, ack, probe, write, Replayed);
    NumbersFrom(s, s1, EmitReceipt(s1, id, d, ack, probe, write, Replayed).0);
  }

  lemma NewJobNumbers(s: State, id: Id, job: Job, d: Delivery, ack: bool, inboxWrite: bool, probe: bool, write: bool)
    ensures NewNumbers(s, AcceptNew(s, id, job, d, ack, inboxWrite, probe, write).0)
  {
    var s1 := Persisted(WithJob(s, id, job, d));
    ReceiptNumbers(s1, id, d, ack, probe, write, Taken);
    NumbersFrom(s, s1, EmitReceipt(s1, id, d, ack, probe, write, Taken).0);
  }

  lemma DeliverNumbers(s: State, id: Id, job: Job, d: Delivery, ack: bool, inboxWrite: bool, probe: bool, write: bool)
    ensures NewNumbers(s, AcceptJob(s, id, job, d, ack, inboxWrite, probe, write).0)
  {
    if id in ResultCorrs(s.mem) {
      ReceiptNumbers(s, id, d, ack, probe, write, Deduplicated);
    } else if id in s.mem.inbox {
      ReplayNumbers(s, id, job, d, ack, inboxWrite, probe, write);
    } else {
      NewJobNumbers(s, id, job, d, ack, inboxWrite, probe, write);
    }
  }

  lemma SettlingNumbers(y: System, l: Label)
    requires SystemOk(y) && Enabled(y, l) && Settles(l)
    ensures NewNumbers(y.s, Next(y, l).s)
  {
    var f := y.held.value;
    match l {
      case SettleKnown(write, release) =>
        SettleNumbers(y.s, f, y.known[f.Key()].disp, Some(y.known[f.Key()].ack), write, release);
      case DropReport(write) => SettleNumbers(y.s, f, Abandoned, None, write, true);
      case Exhaust(write) =>
        CountAttemptKeeps(y.s, f);
        SettleNumbers(CountAttempt(y.s, f.Key()), f, Abandoned, Some(CapAck(f.Key())), write, true);
        SettleNumbers(CountAttempt(y.s, f.Key()), f, Pending, None, write, true);
    }
  }

  lemma StepNumbers(y: System, l: Label)
    requires SystemOk(y) && Enabled(y, l) && !l.Restart?
    ensures NewNumbers(y.s, Next(y, l).s)
  {
    if Settles(l) {
      SettlingNumbers(y, l);
    } else if l.AppendFrame? {
      AppendNumbers(y.s, l.p, l.probe, l.write);
    } else if l.InsertHead? {
      AppendHeadNumbers(y.s, l.p, l.write);
    } else if l.Deliver? {
      DeliverNumbers(y.s, l.id, l.job, l.d, l.receipt, l.inboxWrite, l.probe, l.write);
    } else {
      QuietStep(y, l);
    }
  }

  /** Over a run of one incarnation, every frame added carries the stream's own id and a number from the counter on. */
  lemma {:induction false} NumbersGrow(y: System, run: seq<Label>)
    requires SystemOk(y) && Possible(y, run) && OneIncarnation(run)
    ensures NewNumbers(y.s, After(y, run).s)
    decreases |run|
  {
    if run != [] {
      StepNumbers(y, run[0]);
      Step(y, run[0]);
      NumbersGrow(Next(y, run[0]), run[1..]);
    }
  }

  /** When a new job's receipt persists, nobody has claimed the job yet, and every frame this incarnation appends from
      then on carries a larger number than the receipt. */
  lemma ReceiptComesFirst(y: System, l: Label, run: seq<Label>)
    requires SystemOk(y) && l.Deliver? && l.receipt
    requires AcceptJob(y.s, l.id, l.job, l.d, l.receipt, l.inboxWrite, l.probe, l.write).1 == Taken
    requires Possible(Next(y, l), run) && OneIncarnation(run)
    ensures l.id !in y.s.claimed && l.id !in Next(y, l).s.claimed
    ensures var receipt := Frame(y.s.streamId, y.s.next, JobAck(l.id, l.d.attempt, l.d.received));
      && receipt.Key() in Next(y, l).s.log && Next(y, l).s.log[receipt.Key()] == Entry(receipt, Live)
    ensures forall k :: k in After(Next(y, l), run).s.log && k !in Next(y, l).s.log ==>
              k.streamId == y.s.streamId && k.num > y.s.next
  {
    Step(y, l);
    NumbersGrow(Next(y, l), run);
    ReceiptIsTaken(y.s, l.id, l.job, l.d, l.inboxWrite, l.probe, l.write);
  }

  lemma ReceiptIsTaken(s: State, id: Id, job: Job, d: Delivery, inboxWrite: bool, probe: bool, write: bool)
    requires AcceptJob(s, id, job, d, true, inboxWrite, probe, write).1 == Taken
    ensures id !in s.mem.inbox
    ensures var t := AcceptJob(s, id, job, d, true, inboxWrite, probe, write).0;
      var receipt := Frame(s.streamId, s.next, Receipt(id, d));
      && receipt.Key() in t.log && t.log[receipt.Key()] == Entry(receipt, Live)
      && t.next == s.next + 1 && t.claimed == s.claimed
  {
    ReceiptIsWritten(Persisted(WithJob(s, id, job, d)), Receipt(id, d), probe, write);
  }

  lemma ReceiptIsWritten(s: State, p: Payload, probe: bool, write: bool)
    requires p.JobAck? && Append(s, p, probe, write).1.Appended?
    ensures var t := Append(s, p, probe, write).0;
      && KeyOf(s.streamId, s.next) in t.log && t.log[KeyOf(s.streamId, s.next)] == Entry(NewFrame(s, p), Live)
      && t.next == s.next + 1 && t.claimed == s.claimed
  {
  }
}

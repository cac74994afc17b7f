/** What each transition may do to the hand-out queue, the claims and the inbox, before anybody takes an item. */
module QueueMoves {
  import opened Basics
  import opened Frames
  import opened Admission
  import opened StreamState
  import opened SenderCycle
  import opened StreamRuns

  /** Closing admission puts a wake-up in the queue. */
  predicate Wakes(s: State, t: State) {
    s.adm.current.None? && t.adm.current.Some? ==> AdmissionWake in t.jobs
  }

  /** The queue stays but perhaps for a wake-up, no job enters the inbox, and a claim is forgotten only with its
      job. */
  ghost predicate Stays(s: State, t: State) {
    && (t.jobs == s.jobs || t.jobs == s.jobs + [AdmissionWake]) && Wakes(s, t)
    && t.mem.inbox.Keys <= s.mem.inbox.Keys
    && s.claimed * t.mem.inbox.Keys <= t.claimed <= s.claimed
  }

  /** One job enters the inbox and the queue; claims stay. */
  ghost predicate Enters(s: State, t: State, id: Id) {
    && (t.jobs == s.jobs + [Handout(id)] || t.jobs == s.jobs + [AdmissionWake] + [Handout(id)])
    && id !in s.mem.inbox && t.mem.inbox.Keys == s.mem.inbox.Keys + {id}
    && t.claimed == s.claimed && Wakes(s, t)
  }

  /** The delivery is taken as new work: neither answered nor in the inbox, admission not closed for good, and its
      inbox write succeeds. */
  predicate TakesNewJob(y: System, l: Label) {
    && l.Deliver? && l.inboxWrite
    && l.id !in ResultCorrs(y.s.mem) && l.id !in y.s.mem.inbox && !Permanent(y.s.adm.current)
  }

  // ── appends ──

  lemma AppendRecoveredStays(s: State, p: Payload, write: bool)
    requires Admission.Valid(s.adm)
    ensures Stays(s, AppendRecovered(s, p, write).0)
    ensures !p.Result? ==>
      AppendRecovered(s, p, write).0.claimed == s.claimed && AppendRecovered(s, p, write).0.mem.inbox == s.mem.inbox
  {
  }

  lemma AppendStays(s: State, p: Payload, probe: bool, write: bool)
    requires Admission.Valid(s.adm)
    ensures Stays(s, Append(s, p, probe, write).0)
    ensures !p.Result? ==>
      Append(s, p, probe, write).0.claimed == s.claimed && Append(s, p, probe, write).0.mem.inbox == s.mem.inbox
  {
    AppendRecoveredStays(if s.adm.storage.Some? then Persisted(s) else s, p, write);
  }

  lemma AppendHeadStays(s: State, p: Payload, write: bool)
    requires Admission.Valid(s.adm)
    requires p.Event?
    ensures Stays(s, AppendHead(s, p, write).0)
  {
  }

  lemma ReceiptStays(s: State, id: Id, d: Delivery, ack: bool, probe: bool, write: bool, done: AcceptOutcome)
    requires Admission.Valid(s.adm)
    ensures var t := EmitReceipt(s, id, d, ack, probe, write, done).0;
      Stays(s, t) && t.claimed == s.claimed && t.mem.inbox == s.mem.inbox
  {
    AppendStays(s, Receipt(id, d), probe, write);
  }

  // ── deliveries ──

  lemma ReplayStays(s: State, id: Id, job: Job, d: Delivery, ack: bool, inboxWrite: bool, probe: bool, write: bool)
    requires Admission.Valid(s.adm)
    requires id in s.mem.inbox
    ensures Stays(s, AcceptReplay(s, id, job, d, ack, inboxWrite, probe, write).0)
  {
    ReceiptStays(Persisted(WithDelivery(s, id, d)), id, d, ack, probe, write, Replayed);
  }

  lemma NewJobEnters(s: State, id: Id, job: Job, d: Delivery, ack: bool, probe: bool, write: bool)
    requires Admission.Valid(s.adm)
    requires id !in s.mem.inbox
    ensures Enters(s, AcceptNew(s, id, job, d, ack, true, probe, write).0, id)
  {
    ReceiptStays(Persisted(WithJob(s, id, job, d)), id, d, ack, probe, write, Taken);
  }

  lemma AcceptStays(s: State, id: Id, job: Job, d: Delivery, ack: bool, inboxWrite: bool, probe: bool, write: bool)
    requires Admission.Valid(s.adm)
    requires id in ResultCorrs(s.mem) || id in s.mem.inbox || Permanent(s.adm.current) || !inboxWrite
    ensures Stays(s, AcceptJob(s, id, job, d, ack, inboxWrite, probe, write).0)
  {
    if id in ResultCorrs(s.mem) {
      ReceiptStays(s, id, d, ack, probe, write, Deduplicated);
    } else if id in s.mem.inbox {
      ReplayStays(s, id, job, d, ack, inboxWrite, probe, write);
    }
  }

  lemma DeliveryEnters(y: System, l: Label)
    requires Admission.Valid(y.s.adm)
    requires TakesNewJob(y, l)
    ensures Enters(y.s, Next(y, l).s, l.id)
  {
    NewJobEnters(y.s, l.id, l.job, l.d, l.receipt, l.probe, l.write);
  }

  // ── settlements ──

  lemma ReportStays(s: State, key: Key, write: bool)
    requires Admission.Valid(s.adm)
    ensures Stays(s, SettleReport(s, key, write).0)
  {
  }

  lemma AcceptedStays(s: State, f: Frame, ack: Ack, write: bool)
    requires Admission.Valid(s.adm)
    ensures Stays(s, SettleAccepted(s, f, ack, write).0)
  {
  }

  lemma AfterBurialStays(s: State, f: Frame, disp: Disposition, ack: Option<Ack>, release: bool)
    requires Admission.Valid(s.adm)
    ensures Stays(s, AfterBurial(s, f, disp, ack, release))
  {
  }

  lemma StaysFrom(s: State, s1: State, t: State)
    requires s1.jobs == s.jobs && s1.claimed == s.claimed && s1.mem.inbox == s.mem.inbox
    requires s.adm.current.None? ==> s1.adm.current.None?
    requires Stays(s1, t)
    ensures Stays(s, t)
  {
  }

  lemma RefusedStays(s: State, f: Frame, disp: Disposition, ack: Option<Ack>, write: bool, release: bool)
    requires Admission.Valid(s.adm)
    ensures Stays(s, SettleRefused(s, f, disp, ack, write, release).0)
  {
    if !AtHead(s, f.Key()) {
      var s1 := Forget(s, f.Key());
      AfterBurialStays(s1, f, disp, ack, release);
      StaysFrom(s, s1, AfterBurial(s1, f, disp, ack, release));
    } else if write {
      var s1 := Forget(Bury(s, f, ack), f.Key());
      AfterBurialStays(s1, f, disp, ack, release);
      StaysFrom(s, s1, AfterBurial(s1, f, disp, ack, release));
    }
  }

  lemma SettlementStays(s: State, f: Frame, disp: Disposition, ack: Option<Ack>, write: bool, release: bool)
    requires Admission.Valid(s.adm)
    requires disp.Accepted? ==> ack.Some?
    ensures Stays(s, Settle(s, f, disp, ack, write, release).0)
  {
    var u := Unmark(s, f.Key());
    if !disp.Accepted? && IsReopen(f) {
      ReportStays(u, f.Key(), write);
    } else if disp.Accepted? {
      AcceptedStays(u, f, ack.value, write);
    } else if !disp.Pending? {
      RefusedStays(u, f, disp, ack, write, release);
    }
    StaysFrom(s, u, Settle(s, f, disp, ack, write, release).0);
  }

  lemma SettlingStays(y: System, l: Label)
    requires Admission.Valid(y.s.adm)
    requires Enabled(y, l) && Settles(l)
    ensures Stays(y.s, Next(y, l).s)
  {
    var f := y.held.value;
    match l {
      case SettleKnown(write, release) =>
        SettlementStays(y.s, f, y.known[f.Key()].disp, Some(y.known[f.Key()].ack), write, release);
      case DropReport(write) => SettlementStays(y.s, f, Abandoned, None, write, true);
      case Exhaust(write) =>
        SettlementStays(CountAttempt(y.s, f.Key()), f, Abandoned, Some(CapAck(f.Key())), write, true);
        SettlementStays(CountAttempt(y.s, f.Key()), f, Pending, None, write, true);
    }
  }

  // ── every step ──

  /** A step that neither restarts nor touches the queue's items. */
  predicate LeavesItems(l: Label) {
    !l.Restart? && !l.Take? && !l.ResolveItem? && !l.Interrupt?
  }

  lemma StepStays(y: System, l: Label)
    requires Admission.Valid(y.s.adm)
    requires Enabled(y, l) && LeavesItems(l) && !TakesNewJob(y, l)
    ensures Stays(y.s, Next(y, l).s)
  {
    if Settles(l) {
      SettlingStays(y, l);
    } else if l.AppendFrame? {
      AppendStays(y.s, l.p, l.probe, l.write);
    } else if l.InsertHead? {
      AppendHeadStays(y.s, l.p, l.write);
    } else if l.Deliver? {
      AcceptStays(y.s, l.id, l.job, l.d, l.receipt, l.inboxWrite, l.probe, l.write);
    }
  }
}

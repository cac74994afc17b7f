/** What an operation leaves, written out: frames, jobs, receipts and the latch after an append, a delivery, a new
    connection, a restart and a last acknowledgement. */
module Outcomes {
  import opened Basics
  import opened Frames
  import opened Admission
  import opened StreamState
  import opened SenderCycle
  import opened Soundness
  import opened StreamRuns
  import opened QueueMoves

  // ── appends ──

  /** An append succeeds exactly when the payload is well formed, storage takes its writes and no result for the same
      correlation is held.  The frame is then the last of the outbox, in memory and on disk, under the next number;
      a result has taken its job out of the inbox; storage counts as up.  A failed append stores nothing. */
  lemma AppendedAtTheTail(s: State, p: Payload, probe: bool, write: bool)
    requires Sound(s)
    ensures var (t, r) := Append(s, p, probe, write);
      var f := Frame(s.streamId, s.next, p);
      && (r.Appended? <==>
            && ValidPayload(p) && ValidFrame(f) && (s.adm.storage.Some? ==> probe) && write
            && !(p.Result? && p.corr in ResultCorrs(s.mem)))
      && (r.Appended? ==>
            && r.num == s.next && t.next == s.next + 1
            && t.disk.frames == s.disk.frames + [f] && t.mem.frames == s.mem.frames + [f]
            && t.mem.inbox == (if p.Result? then s.mem.inbox - {p.corr} else s.mem.inbox) && t.disk == t.mem
            && t.claimed == (if p.Result? then s.claimed - {p.corr} else s.claimed)
            && t.adm.storage.None?)
      && (!r.Appended? ==> t.mem == s.mem && t.disk.frames == s.disk.frames && t.next == s.next && t.log == s.log)
  {
    RecoveredAppend(if s.adm.storage.Some? then Persisted(s) else s, p, write);
  }

  lemma RecoveredAppend(s: State, p: Payload, write: bool)
    ensures var (t, r) := AppendRecovered(s, p, write);
      var f := Frame(s.streamId, s.next, p);
      && (r.Appended? <==> ValidFrame(f) && write && !(p.Result? && p.corr in ResultCorrs(s.mem)))
      && (r.Appended? ==>
            && r.num == s.next && t.next == s.next + 1
            && t.mem.frames == s.mem.frames + [f] && t.disk == t.mem
            && t.mem.inbox == (if p.Result? then s.mem.inbox - {p.corr} else s.mem.inbox)
            && t.claimed == (if p.Result? then s.claimed - {p.corr} else s.claimed)
            && t.adm.storage.None?)
      && (!r.Appended? ==> t.mem == s.mem && t.disk == s.disk && t.next == s.next && t.log == s.log)
  {
  }

  /** A head insert is first of all, on disk too; a failed one stores nothing. */
  lemma InsertedAtTheHead(s: State, p: Payload, write: bool)
    requires p.Event?
    ensures var (t, r) := AppendHead(s, p, write);
      var f := Frame(s.streamId, s.next, p);
      && (r.Appended? <==> ValidFrame(f) && write)
      && (r.Appended? ==>
            && r.num == s.next && t.next == s.next + 1
            && t.mem == s.mem.(frames := [f] + s.mem.frames) && t.disk == t.mem && t.adm.storage.None?)
      && (!r.Appended? ==> t.mem == s.mem && t.disk == s.disk && t.next == s.next && t.log == s.log)
  {
  }

  // ── deliveries ──

  /** The receipt of a delivery, as the next frame of the stream. */
  function ReceiptFrame(s: State, id: Id, d: Delivery): Frame {
    Frame(s.streamId, s.next, JobAck(id, d.attempt, d.received))
  }

  /** Nothing stands against the delivery: its content and attempt are those on file if there are any, and admission
      is not closed for good to new work. */
  predicate Acceptable(s: State, id: Id, job: Job, d: Delivery) {
    if id in ResultCorrs(s.mem) then true
    else if id in s.mem.inbox then
      s.mem.inbox[id] == job && (id in s.mem.deliveries ==> s.mem.deliveries[id].attempt == d.attempt)
    else !Permanent(s.adm.current)
  }

  lemma ReceiptWritten(s: State, id: Id, d: Delivery, done: AcceptOutcome)
    requires !done.ReceiptFailed? && ValidFrame(ReceiptFrame(s, id, d))
    ensures var (t, r) := EmitReceipt(s, id, d, true, true, true, done);
      && r == done
      && t.mem == s.mem.(frames := s.mem.frames + [ReceiptFrame(s, id, d)]) && t.disk == t.mem
      && t.jobs == s.jobs && t.claimed == s.claimed && (s.adm == OPEN ==> t.adm == OPEN)
  {
    RecoveredAppend(if s.adm.storage.Some? then Persisted(s) else s, Receipt(id, d), true);
  }

  /** Every delivery that is not refused gets its receipt, as the last frame of the outbox on disk: one for a job
      already answered, one again for a job delivered again, and one for new work.  A repeated delivery adds no entry
      to the queue and the newest one is kept; new work is stored with its content, then queued once. */
  lemma DeliveriesAreReceipted(s: State, id: Id, job: Job, d: Delivery)
    requires Acceptable(s, id, job, d) && ValidFrame(ReceiptFrame(s, id, d))
    ensures var (t, r) := AcceptJob(s, id, job, d, true, true, true, true);
      && r == (if id in ResultCorrs(s.mem) then Deduplicated else if id in s.mem.inbox then Replayed else Taken)
      && t.disk.frames == s.mem.frames + [ReceiptFrame(s, id, d)] && t.disk == t.mem
      && (r == Deduplicated ==> t.mem.inbox == s.mem.inbox && t.mem.deliveries == s.mem.deliveries && t.jobs == s.jobs)
      && (r == Replayed ==>
            t.mem.inbox == s.mem.inbox && t.mem.deliveries == s.mem.deliveries[id := d] && t.jobs == s.jobs)
      && (r == Taken ==>
            && t.mem.inbox == s.mem.inbox[id := job] && t.mem.deliveries == s.mem.deliveries[id := d]
            && t.jobs == s.jobs + [Handout(id)])
      && t.claimed == s.claimed && (s.adm == OPEN ==> t.adm == OPEN)
  {
    if id in ResultCorrs(s.mem) {
      ReceiptWritten(s, id, d, Deduplicated);
    } else if id in s.mem.inbox {
      ReceiptWritten(Persisted(WithDelivery(s, id, d)), id, d, Replayed);
    } else {
      ReceiptWritten(Persisted(WithJob(s, id, job, d)), id, d, Taken);
    }
  }

  /** And what is refused stores nothing: the job on file, its delivery and the outbox stay. */
  lemma RefusedDeliveriesStoreNothing(s: State, id: Id, job: Job, d: Delivery, ack: bool, inboxWrite: bool,
                                      probe: bool, write: bool)
    requires !Acceptable(s, id, job, d)
    ensures var (t, r) := AcceptJob(s, id, job, d, ack, inboxWrite, probe, write);
      && (r.Conflict? || r.AttemptChanged? || r.Closed?)
      && t.mem == s.mem && t.disk == s.disk && t.adm.current.Some?
      && (r.Conflict? || r.AttemptChanged? ==> Permanent(t.adm.current))
  {
  }

  // ── a new connection ──

  /** On a connection that stays up readiness is pending.  Unless an identical event waits already it is at the head,
      and the report of the last close stands in front of it.  Everything else keeps its place. */
  lemma OpeningCarriesReadiness(s: State, bootstrap: Payload, report: Option<Payload>, bootWrite: bool,
                                reportWrite: bool)
    requires bootstrap.Event? && (report.Some? ==> report.value.Event?)
    ensures var (t, up) := Opened(s, Some(bootstrap), report, bootWrite, reportWrite);
      var pending := exists f :: f in s.mem.frames && f.payload == bootstrap;
      var ready := if pending then [] else [Frame(s.streamId, s.next, bootstrap)];
      var fits := report.Some? && ValidFrame(Frame(s.streamId, s.next + |ready|, report.value)) && reportWrite;
      var told := if fits then [Frame(s.streamId, s.next + |ready|, report.value)] else [];
      && (up <==> pending || (bootWrite && ValidFrame(Frame(s.streamId, s.next, bootstrap))))
      && (up ==> t.mem.frames == told + (ready + s.mem.frames))
      && (up ==> exists f :: f in t.mem.frames && f.payload == bootstrap)
      && (!up ==> t.mem.frames == s.mem.frames)
  {
    var (t, up) := Opened(s, Some(bootstrap), report, bootWrite, reportWrite);
    var b := InstallBootstrap(Cleared(s), Some(bootstrap), bootWrite);
    if AlreadyPending(s, bootstrap) {
      var f :| f in s.mem.frames && f.payload == bootstrap;
      assert AlreadyPending(Cleared(s), bootstrap);
      assert [] + s.mem.frames == s.mem.frames && f in t.mem.frames;
    } else {
      assert !AlreadyPending(Cleared(s), bootstrap);
      InsertedAtTheHead(Cleared(s), bootstrap, bootWrite);
      if b.1 {
        assert b.0.mem.frames[0].payload == bootstrap && b.0.mem.frames[0] in t.mem.frames;
      }
    }
    if b.1 && report.Some? {
      InsertedAtTheHead(b.0, report.value, reportWrite);
    }
    assert [] + b.0.mem.frames == b.0.mem.frames;
  }

  // ── a restart ──

  lemma {:induction false} KeepsTheRest(frames: seq<Frame>)
    ensures forall f :: f in DropBoots(frames) <==> f in frames && !IsBoot(f)
  {
    DropBootsKeeps(frames);
  }

  /** A restart drops the boot frames it inherits and nothing else, forgets claims, attempts and marks, starts to
      number from one, and admits work exactly when nothing is left to deliver. */
  lemma RestartedState(y: System, newId: Id, order: seq<Id>)
    requires SystemOk(y) && Enabled(y, Restart(newId, order))
    ensures var z := Next(y, Restart(newId, order));
      && (forall f :: f in z.s.mem.frames <==> f in y.s.disk.frames && !IsBoot(f))
      && z.s.mem == z.s.disk && z.s.mem.rejected == y.s.disk.rejected && z.s.mem.inbox == y.s.disk.inbox
      && (z.s.adm.current.None? <==> z.s.mem.frames == []) && z.s.adm.storage.None?
      && z.s.streamId == newId && z.s.next == 1 && z.s.claimed == {} && z.s.attempts == map[] && z.s.wired == {}
      && z.known == map[] && z.held == None
  {
    KeepsTheRest(y.s.disk.frames);
  }

  // ── the latch ──

  /** When the acknowledgement of the last frame is settled, an ambiguous verdict is over and work is admitted. */
  lemma LastAcknowledgementReopens(s: State, f: Frame, ack: Ack, release: bool)
    requires Admission.Valid(s.adm) && s.mem.frames == [f] && !f.payload.Result? && !Permanent(Abs(s.adm).verdict)
    ensures var (t, raised) := Settle(s, f, Accepted, Some(ack), true, release);
      !raised && t.mem.frames == [] && t.disk.frames == [] && t.adm.current.None? && t.adm.storage.None?
  {
    RecoverRefines(s.adm, true);
    ClearRefines(Recover(s.adm, true), true);
    OpenExactlyWhenBothLayersAre(ClearPending(Recover(s.adm, true), true));
  }

  /** A step that closes admission wakes the claimers. */
  lemma ClosingWakes(y: System, l: Label)
    requires SystemOk(y) && Enabled(y, l) && !l.Restart?
    requires y.s.adm.current.None? && Next(y, l).s.adm.current.Some?
    ensures AdmissionWake in Next(y, l).s.jobs
  {
    if TakesNewJob(y, l) {
      DeliveryEnters(y, l);
    } else if LeavesItems(l) {
      StepStays(y, l);
    } else {
      ClaimingStep(y, l);
    }
  }
}

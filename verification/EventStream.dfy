/** The event stream as the program runs it: one object, its durable file, and the lock-held methods that
    update them in place.  Every method is proved against its transition in StreamState.  The flags named
    `write`, `probe` and `release` say whether the durable write at that point succeeds. */
module EventStream {
  import opened Basics
  import opened Frames
  import opened Admission
  import SS = StreamState
  import opened StreamState
  import SC = SenderCycle

  /** The outbox file, which outlives any one process.  No content stands for a file not yet written. */
  class StateFile {
    var content: Option<Durable>
    ghost var log: Log
    ghost var used: set<Id>

    constructor ()
      ensures content == None && log == map[] && used == {}
    {
      content := None;
      log := map[];
      used := {};
    }

    function Disk(): Durable
      reads this
    {
      if content.Some? then content.value else BLANK
    }
  }

  /** The live connection, the readiness event to replay on each new one, and the report of the last close. */
  class Socket {
    var connected: bool
    var bootstrapEvent: Option<Payload>
    var lastClose: Option<Payload>

    constructor ()
      ensures !connected && bootstrapEvent == None && lastClose == None
    {
      connected, bootstrapEvent, lastClose := false, None, None;
    }

    /** Both are events by construction. */
    ghost predicate HooksOk()
      reads this
    {
      && (bootstrapEvent.Some? ==> bootstrapEvent.value.Event?)
      && (lastClose.Some? ==> lastClose.value.Event?)
    }
  }

  class EventStream {
    const file: StateFile
    const streamId: Id
    /** Outbox, dead-letter, inbox and deliveries: what one durable write stores. */
    var durable: Durable
    var nextSeq: nat
    /** The admission error, the storage error, and the fault a storage error displaced. */
    var latches: Latches
    var jobs: seq<Item>
    var queuedIds: set<Id>
    var claimedIds: set<Id>
    var pendingBootstrapKey: Option<Key>
    var pendingReopenKey: Option<Key>
    var settlementAttempts: map<Key, nat>
    var wireAttempts: set<Key>
    const socket: Socket

    ghost function View(): State
      reads this, file
    {
      State(durable, file.Disk(), streamId, nextSeq, latches, jobs, queuedIds, claimedIds,
            pendingBootstrapKey, pendingReopenKey, settlementAttempts, wireAttempts, file.log, file.used)
    }

    constructor FromLoaded(file: StateFile, newId: Id, d: Durable)
      ensures this.file == file && streamId == newId && durable == d && nextSeq == 1
      ensures latches == if d.frames == [] then OPEN else OPEN.(current := Some(DeliveryPending))
      ensures jobs == [] && queuedIds == {} && claimedIds == {}
      ensures pendingBootstrapKey == None && pendingReopenKey == None
      ensures settlementAttempts == map[] && wireAttempts == {}
    {
      this.file := file;
      streamId := newId;
      durable := d;
      nextSeq := 1;
      latches := if d.frames == [] then OPEN else OPEN.(current := Some(DeliveryPending));
      jobs, queuedIds, claimedIds := [], {}, {};
      pendingBootstrapKey, pendingReopenKey := None, None;
      settlementAttempts, wireAttempts := map[], {};
      socket := new Socket();
    }

    /** A start-up: load, drop inherited boot frames, establish durability, hand the inbox out again.
        Null stands for the start-up errors: a file it refuses to read, or one it cannot write. */
    static method Boot(file: StateFile, newId: Id, write: bool) returns (s: EventStream?, order: seq<Id>)
      modifies file
      ensures s != null <==> Loadable(old(file.Disk())) && write
      ensures s == null ==> file.content == old(file.content)
      ensures s == null ==> file.log == old(file.log) && file.used == old(file.used)
      ensures s != null ==> fresh(s) && s.file == file
      ensures s != null ==> Requeues(order, old(file.Disk()).inbox.Keys)
      ensures s != null ==> s.View() == SS.Boot(old(file.Disk()), old(file.log), old(file.used), newId, order)
    {
      var d := file.Disk();
      order := [];
      if !Loadable(d) {
        return null, [];
      }
      var kept := WithoutBoots(d.frames);
      var e := new EventStream.FromLoaded(file, newId, d.(frames := kept));
      var ok := e.PersistLocked(write);
      if !ok {
        return null, [];
      }
      order := e.Requeue();
      file.log := DropBootsFromLog(file.log);
      file.used := file.used + {newId};
      s := e;
    }

    static method WithoutBoots(frames: seq<Frame>) returns (kept: seq<Frame>)
      ensures kept == DropBoots(frames)
    {
      kept := [];
      var i := 0;
      while i < |frames|
        invariant 0 <= i <= |frames|
        invariant kept + DropBoots(frames[i..]) == DropBoots(frames)
      {
        assert frames[i..][1..] == frames[i + 1..];
        if !IsBoot(frames[i]) {
          kept := kept + [frames[i]];
        }
        i := i + 1;
      }
      assert kept == DropBoots(frames);
    }

    /** Every job of the inbox is handed out again, in some order. */
    method Requeue() returns (order: seq<Id>)
      requires jobs == [] && queuedIds == {}
      modifies this`jobs, this`queuedIds
      ensures Requeues(order, durable.inbox.Keys)
      ensures jobs == Handouts(order) && queuedIds == durable.inbox.Keys
    {
      var left := durable.inbox.Keys;
      order := [];
      while left != {}
        invariant left <= durable.inbox.Keys && queuedIds == durable.inbox.Keys - left
        invariant forall id :: id in order <==> id in durable.inbox.Keys - left
        invariant forall j, k :: 0 <= j < k < |order| ==> order[j] != order[k]
        invariant jobs == Handouts(order)
        decreases left
      {
        var id :| id in left;
        queuedIds := queuedIds + {id};
        jobs := jobs + [Handout(id)];
        order := order + [id];
        left := left - {id};
      }
    }

    // ── durable writes and the latch ──

    /** Store the containers as they stand; a write that succeeds is where storage recovers. */
    method PersistLocked(write: bool) returns (ok: bool)
      modifies file`content, this`latches
      ensures ok == write
      ensures View() == if write then Persisted(old(View())) else old(View())
      ensures !write ==> file.content == old(file.content)
    {
      if !write {
        return false;
      }
      file.content := Some(durable);
      if latches.storage.Some? {
        var a := latches.(storage := None);
        if a.fromStorage {
          var before := a.displaced;
          if before == Some(DeliveryPending) && durable.frames == [] {
            before := None;
          }
          a := a.(current := before, fromStorage := false, displaced := None);
        }
        latches := a;
      }
      return true;
    }

    method LatchLocked(e: Fault, storage: bool)
      modifies this`latches, this`jobs
      ensures View() == Latched(old(View()), e, storage)
    {
      var a := latches;
      var changed := false;
      if a.current.None? || !e.DeliveryPending? {
        if storage && !a.fromStorage {
          a := a.(displaced := a.current);
        }
        a := a.(current := Some(e), fromStorage := storage);
        changed := true;
      }
      if storage && a.storage.None? {
        a := a.(storage := Some(e));
      }
      latches := a;
      if changed || storage {
        jobs := jobs + [AdmissionWake];
      }
    }

    // ── appending ──

    method Append(p: Payload, probe: bool, write: bool) returns (r: AppendOutcome)
      modifies this, file
      ensures (View(), r) == SS.Append(old(View()), p, probe, write)
    {
      if !ValidPayload(p) {
        LatchLocked(Unhealthy, false);
        return BadPayload;
      }
      if latches.storage.Some? {
        var recovered := PersistLocked(probe);
        if !recovered {
          return StorageDown;
        }
      }
      r := AppendRecovered(p, write);
    }

    /** The append proper, once storage is known to be writable; a failed write rolls everything back. */
    method AppendRecovered(p: Payload, write: bool) returns (r: AppendOutcome)
      modifies this, file
      ensures (View(), r) == SS.AppendRecovered(old(View()), p, write)
    {
      hide ValidFrame;
      if p.Result? && p.corr in ResultCorrs(durable) {
        return DuplicateResult;
      }
      var f := Frame(streamId, nextSeq, p);
      if !ValidFrame(f) {
        return Malformed;
      }
      var was := durable;
      durable := durable.(frames := durable.frames + [f]);
      nextSeq := nextSeq + 1;
      if p.Result? {
        durable := durable.(inbox := Drop(durable.inbox, p.corr), deliveries := Drop(durable.deliveries, p.corr));
      }
      var ok := PersistLocked(write);
      if !ok {
        durable := Rollback(durable, was, f);
        nextSeq := nextSeq - 1;
        LatchLocked(StorageFault, true);
        return AppendFailed;
      }
      file.log := file.log[f.Key() := Entry(f, Live)];
      if p.Result? {
        queuedIds := queuedIds - {p.corr};
        claimedIds := claimedIds - {p.corr};
      }
      return Appended(f.num);
    }

    /** Undo a failed append step by step: the frame leaves the tail and a popped inbox entry goes back. */
    static function Rollback(d: Durable, was: Durable, f: Frame): (back: Durable)
      requires d == WithTail(was, f)
      ensures back == was
    {
      var frames := d.frames[..|d.frames| - 1];
      assert frames == was.frames;
      if !f.payload.Result? then d.(frames := frames)
      else
        var corr := f.payload.corr;
        var inbox := if corr in was.inbox then d.inbox[corr := was.inbox[corr]] else d.inbox;
        var deliveries := if corr in was.deliveries then d.deliveries[corr := was.deliveries[corr]] else d.deliveries;
        assert inbox == was.inbox && deliveries == was.deliveries;
        d.(frames := frames, inbox := inbox, deliveries := deliveries)
    }

    method AppendBootstrapHead(p: Payload, write: bool) returns (r: AppendOutcome)
      requires p.Event?
      modifies this, file
      ensures (View(), r) == SS.AppendHead(old(View()), p, write)
    {
      var f := Frame(streamId, nextSeq, p);
      if !ValidFrame(f) {
        return Malformed;
      }
      ghost var before := durable.frames;
      durable := durable.(frames := [f] + durable.frames);
      nextSeq := nextSeq + 1;
      var ok := PersistLocked(write);
      if !ok {
        durable := durable.(frames := durable.frames[1..]);
        nextSeq := nextSeq - 1;
        assert durable.frames == before;
        LatchLocked(StorageFault, true);
        return AppendFailed;
      }
      file.log := file.log[f.Key() := Entry(f, Live)];
      return Appended(f.num);
    }

    // ── settling ──

    /** True stands for the exception of a settlement whose write failed. */
    method Settle(frame: Frame, disp: Disposition, ack: Option<Ack>, write: bool, release: bool) returns (raised: bool)
      requires disp.Accepted? ==> ack.Some?
      modifies this, file
      ensures (View(), raised) == SS.Settle(old(View()), frame, disp, ack, write, release)
    {
      var key := frame.Key();
      UnmarkKey(key);
      if !disp.Accepted? && IsReopen(frame) {
        raised := SettleReport(key, write);
      } else if disp.Accepted? {
        raised := SettleAccepted(frame, ack.value, write);
      } else if disp.Pending? {
        LatchLocked(DeliveryPending, false);
        raised := false;
      } else {
        raised := SettleRefused(frame, disp, ack, write, release);
      }
    }

    method UnmarkKey(key: Key)
      modifies this`pendingBootstrapKey, this`pendingReopenKey
      ensures View() == Unmark(old(View()), key)
    {
      if pendingBootstrapKey == Some(key) {
        pendingBootstrapKey := None;
      }
      if pendingReopenKey == Some(key) {
        pendingReopenKey := None;
      }
    }

    method SettleReport(key: Key, write: bool) returns (raised: bool)
      modifies this, file
      ensures (View(), raised) == SS.SettleReport(old(View()), key, write)
    {
      if durable.frames != [] && durable.frames[0].Key() == key {
        raised := DropHead(write);
        if raised {
          return;
        }
      }
      ForgetKey(key);
      return false;
    }

    method SettleAccepted(frame: Frame, ack: Ack, write: bool) returns (raised: bool)
      modifies this, file
      ensures (View(), raised) == SS.SettleAccepted(old(View()), frame, ack, write)
    {
      if durable.frames != [] && durable.frames[0].Key() == frame.Key() {
        raised := RetireHead(frame, ack, write);
        if raised {
          return;
        }
      }
      ForgetKey(frame.Key());
      ClearPendingLatch();
      return false;
    }

    method SettleRefused(frame: Frame, disp: Disposition, ack: Option<Ack>, write: bool, release: bool)
      returns (raised: bool)
      modifies this, file
      ensures (View(), raised) == SS.SettleRefused(old(View()), frame, disp, ack, write, release)
    {
      if durable.frames != [] && durable.frames[0].Key() == frame.Key() {
        raised := BuryHead(frame, ack, write);
        if raised {
          return;
        }
      }
      ForgetKey(frame.Key());
      ActOnRefusal(frame, disp, ack, release);
      return false;
    }

    /** What a dead-lettered frame means for admission and for its job. */
    method ActOnRefusal(frame: Frame, disp: Disposition, ack: Option<Ack>, release: bool)
      modifies this, file
      ensures View() == SS.AfterBurial(old(View()), frame, disp, ack, release)
    {
      if disp.Rejected? {
        LatchLocked(FrameRejected(frame.Key()), false);
      } else {
        if disp.OneFrameOnly? {
          ReleaseReassignedJobLocked(frame, ack, release);
        }
        ClearPendingLatch();
      }
    }

    method ForgetKey(key: Key)
      modifies this`wireAttempts, this`settlementAttempts
      ensures View() == Forget(old(View()), key)
    {
      wireAttempts := wireAttempts - {key};
      settlementAttempts := Drop(settlementAttempts, key);
    }

    method ClearPendingLatch()
      modifies this`latches
      ensures View() == Cleared(old(View()))
    {
      if latches.current == Some(DeliveryPending) && durable.frames == [] && latches.storage.None? {
        latches := latches.(current := None);
      }
    }

    /** An undelivered reopen report leaves the outbox for good. */
    method DropHead(write: bool) returns (raised: bool)
      requires durable.frames != []
      modifies this, file
      ensures raised == !write
      ensures View() == if write then Persisted(PopHead(SetFate(old(View()), ReopenDropped))) else old(View())
    {
      var popped := durable.frames[0];
      durable := durable.(frames := durable.frames[1..]);
      var ok := PersistLocked(write);
      if !ok {
        durable := durable.(frames := [popped] + durable.frames);
        return true;
      }
      file.log := file.log[popped.Key() := Entry(popped, ReopenDropped)];
      return false;
    }

    method RetireHead(frame: Frame, ack: Ack, write: bool) returns (raised: bool)
      requires durable.frames != []
      modifies this, file
      ensures raised == !write
      ensures View() == if write then Retire(old(View()), frame, ack) else old(View())
    {
      hide ResultAcked, Recover;
      var popped := durable.frames[0];
      durable := durable.(frames := durable.frames[1..]);
      var result := frame.payload.Result?;
      var acked := Frame(streamId, nextSeq, if result then ResultAcked(frame.payload) else frame.payload);
      if result {
        durable := durable.(frames := durable.frames + [acked]);
        nextSeq := nextSeq + 1;
      }
      ghost var log := file.log[popped.Key() := Entry(popped, Retired(ack))];
      var ok := PersistLocked(write);
      if ok {
        file.log := if result then log[acked.Key() := Entry(acked, Live)] else log;
      } else {
        UndoRetirement(popped, result);
      }
      return !ok;
    }

    /** The acknowledgement event leaves the tail again, its number is free, and the head goes back. */
    method UndoRetirement(popped: Frame, result: bool)
      requires result ==> durable.frames != [] && nextSeq > 0
      modifies this`durable, this`nextSeq
      ensures durable == old(durable).(frames := [popped] +
                if result then old(durable.frames[..|durable.frames| - 1]) else old(durable.frames))
      ensures nextSeq == if result then old(nextSeq) - 1 else old(nextSeq)
    {
      if result {
        durable := durable.(frames := durable.frames[..|durable.frames| - 1]);
        nextSeq := nextSeq - 1;
      }
      durable := durable.(frames := [popped] + durable.frames);
    }

    method BuryHead(frame: Frame, ack: Option<Ack>, write: bool) returns (raised: bool)
      requires durable.frames != []
      modifies this, file
      ensures raised == !write
      ensures View() == if write then Bury(old(View()), frame, ack) else old(View())
    {
      var popped := durable.frames[0];
      ghost var rows := durable.rejected;
      durable := durable.(frames := durable.frames[1..], rejected := durable.rejected + [Row(frame, ack)]);
      var ok := PersistLocked(write);
      if !ok {
        durable := durable.(rejected := durable.rejected[..|durable.rejected| - 1],
                            frames := [popped] + durable.frames);
        assert durable.rejected == rows;
        return true;
      }
      file.log := file.log[popped.Key() := Entry(popped, DeadLettered(ack))];
      return false;
    }

    method ReleaseReassignedJobLocked(frame: Frame, ack: Option<Ack>, write: bool)
      modifies this, file
      ensures View() == SS.Release(old(View()), frame, ack, write)
    {
      if !frame.payload.JobAck? || ack.None? || ack.value.error != NOT_OWNED {
        return;
      }
      var corr := frame.payload.corr;
      if corr !in durable.inbox || corr in claimedIds {
        return;
      }
      durable := durable.(inbox := Drop(durable.inbox, corr), deliveries := Drop(durable.deliveries, corr));
      queuedIds := queuedIds - {corr};
      var ok := PersistLocked(write);
    }

    // ── the sender ──

    /** One cycle of the sender, undisturbed by other threads.  The settlement counted down by `fuse` is the
        one whose write fails; `answers` is what the server acknowledges. */
    method SenderCycle(known: map<Key, SC.Known>, answers: map<Key, Ack>, fuse: int)
      returns (k: map<Key, SC.Known>, f: int, raised: bool)
      modifies this, file
      ensures SC.Cycle(View(), k, f, raised) == SC.RunCycle(old(View()), known, answers, fuse)
    {
      if durable.frames == [] {
        return known, fuse, false;
      }
      var unsent := SC.Unsettled(SC.First(durable.frames, SC.ACK_WINDOW), known);
      k := LearnAnswers(known, unsent, answers);
      k, f, raised := SettlePhase(k, SC.Keys(unsent), fuse);
      if raised && durable.frames != [] {
        LatchLocked(StorageFault, true);
      }
    }

    static method LearnAnswers(known: map<Key, SC.Known>, frames: seq<Frame>, answers: map<Key, Ack>)
      returns (k: map<Key, SC.Known>)
      ensures k == SC.LearnAll(known, frames, answers)
    {
      k := known;
      var i := 0;
      while i < |frames|
        invariant 0 <= i <= |frames|
        invariant SC.LearnAll(k, frames[i..], answers) == SC.LearnAll(known, frames, answers)
      {
        assert frames[i..][1..] == frames[i + 1..];
        var a := SC.Answered(frames[i], answers);
        if a.Some? {
          k := k[frames[i].Key() := a.value];
        }
        i := i + 1;
      }
    }

    method SettlePhase(known: map<Key, SC.Known>, attempted: set<Key>, fuse: int)
      returns (k: map<Key, SC.Known>, f: int, raised: bool)
      modifies this, file
      ensures SC.Cycle(View(), k, f, raised) == SC.SettlePhase(old(View()), known, attempted, fuse)
    {
      k, f, raised := DrainKnown(known, fuse);
      if raised {
        return;
      }
      f, raised := DropReports(k, attempted, f);
      if raised {
        return;
      }
      if durable.frames != [] && durable.frames[0].Key() in attempted {
        raised := SpendAttempt(durable.frames[0], f != 0);
      }
    }

    /** Settle the head for as long as its verdict is known; successors wait for it. */
    method DrainKnown(known: map<Key, SC.Known>, fuse: int)
      returns (k: map<Key, SC.Known>, f: int, raised: bool)
      modifies this, file
      ensures SC.Cycle(View(), k, f, raised) == SC.Drain(old(View()), known, fuse)
    {
      k, f := known, fuse;
      while durable.frames != [] && durable.frames[0].Key() in k
        invariant SC.Drain(View(), k, f) == SC.Drain(old(View()), known, fuse)
        decreases |k|
      {
        var head := durable.frames[0];
        var v := k[head.Key()];
        raised := Settle(head, v.disp, Some(v.ack), f != 0, true);
        if raised {
          return;
        }
        k, f := Drop(k, head.Key()), f - 1;
      }
      raised := false;
    }

    method DropReports(known: map<Key, SC.Known>, attempted: set<Key>, fuse: int) returns (f: int, raised: bool)
      modifies this, file
      ensures SC.Cycle(View(), known, f, raised) == SC.DropReports(old(View()), known, attempted, fuse)
    {
      f := fuse;
      while durable.frames != [] && IsReopen(durable.frames[0])
            && (durable.frames[0].Key() in attempted || durable.frames[0].Key() in wireAttempts)
        invariant SC.DropReports(View(), known, attempted, f) == SC.DropReports(old(View()), known, attempted, fuse)
        decreases |durable.frames|
      {
        raised := Settle(durable.frames[0], Abandoned, None, f != 0, true);
        if raised {
          return;
        }
        f := f - 1;
      }
      raised := false;
    }

    /** A fruitless cycle: the head spends one attempt, and past the cap it goes to the dead-letter. */
    method SpendAttempt(head: Frame, write: bool) returns (raised: bool)
      modifies this, file
      ensures (View(), raised) == SC.ExhaustState(old(View()), head, write)
    {
      var key := head.Key();
      var attempts := (if key in settlementAttempts then settlementAttempts[key] else 0) + 1;
      settlementAttempts := settlementAttempts[key := attempts];
      if attempts > SC.DELIVERY_PENDING_MAX_ATTEMPTS {
        raised := Settle(head, Abandoned, Some(SC.CapAck(key)), write, true);
      } else {
        raised := Settle(head, Pending, None, write, true);
      }
    }

    // ── accepting and claiming jobs ──

    method EmitReceipt(id: Id, d: Delivery, ack: bool, probe: bool, write: bool, done: AcceptOutcome)
      returns (r: AcceptOutcome)
      modifies this, file
      ensures (View(), r) == SS.EmitReceipt(old(View()), id, d, ack, probe, write, done)
    {
      if !ack {
        return done;
      }
      var a := Append(Receipt(id, d), probe, write);
      return if a.Appended? then done else ReceiptFailed(a);
    }

    method AcceptJob(id: Id, job: Job, d: Delivery, ack: bool, inboxWrite: bool, probe: bool, write: bool)
      returns (r: AcceptOutcome)
      modifies this, file
      ensures (View(), r) == SS.AcceptJob(old(View()), id, job, d, ack, inboxWrite, probe, write)
    {
      if id in ResultCorrs(durable) {
        r := EmitReceipt(id, d, ack, probe, write, Deduplicated);
      } else if id in durable.inbox {
        r := AcceptReplay(id, job, d, ack, inboxWrite, probe, write);
      } else if latches.current.Some? && !latches.current.value.DeliveryPending? {
        r := Closed(latches.current.value);
      } else {
        r := AcceptNew(id, job, d, ack, inboxWrite, probe, write);
      }
    }

    method AcceptReplay(id: Id, job: Job, d: Delivery, ack: bool, inboxWrite: bool, probe: bool, write: bool)
      returns (r: AcceptOutcome)
      requires id in durable.inbox
      modifies this, file
      ensures (View(), r) == SS.AcceptReplay(old(View()), id, job, d, ack, inboxWrite, probe, write)
    {
      if durable.inbox[id] != job {
        LatchLocked(Unhealthy, false);
        return Conflict;
      }
      if id in durable.deliveries && durable.deliveries[id].attempt != d.attempt {
        LatchLocked(Unhealthy, false);
        return AttemptChanged;
      }
      var was := durable.deliveries;
      durable := durable.(deliveries := durable.deliveries[id := d]);
      var kept := PersistLocked(inboxWrite);
      if !kept {
        if id in was {
          durable := durable.(deliveries := durable.deliveries[id := was[id]]);
          assert durable.deliveries == was;
        }
        LatchLocked(StorageFault, true);
        return InboxFailed;
      }
      r := EmitReceipt(id, d, ack, probe, write, Replayed);
    }

    method AcceptNew(id: Id, job: Job, d: Delivery, ack: bool, inboxWrite: bool, probe: bool, write: bool)
      returns (r: AcceptOutcome)
      requires id !in durable.inbox
      modifies this, file
      ensures (View(), r) == SS.AcceptNew(old(View()), id, job, d, ack, inboxWrite, probe, write)
    {
      ghost var was := durable;
      durable := durable.(inbox := durable.inbox[id := job], deliveries := durable.deliveries[id := d]);
      var ok := PersistLocked(inboxWrite);
      if !ok {
        durable := durable.(inbox := Drop(durable.inbox, id), deliveries := Drop(durable.deliveries, id));
        assert durable.inbox == was.inbox && durable.deliveries == Drop(was.deliveries, id);
        LatchLocked(StorageFault, true);
        return InboxFailed;
      }
      r := EmitReceipt(id, d, ack, probe, write, Taken);
      queuedIds := queuedIds + {id};
      jobs := jobs + [Handout(id)];
    }

    method ResolveClaim(item: Item) returns (r: ClaimOutcome)
      modifies this
      ensures (View(), r) == SS.Resolve(old(View()), item)
    {
      match item
      case ClaimInterrupt =>
        return Nothing;
      case AdmissionWake =>
        return if latches.current.Some? then Refused(latches.current.value) else Again;
      case Handout(id) =>
        if latches.current.Some? {
          jobs := jobs + [item];
          return Refused(latches.current.value);
        }
        if id !in durable.inbox {
          return Again;
        }
        queuedIds := queuedIds - {id};
        claimedIds := claimedIds + {id};
        return Claimed(id, durable.inbox[id]);
    }

    /** Take items off the queue until one decides the claim; an empty queue is the caller's deadline. */
    method ClaimQueued() returns (r: ClaimOutcome)
      modifies this
      ensures (View(), r) == SS.ClaimFrom(old(View()))
    {
      while jobs != []
        invariant SS.ClaimFrom(View()) == SS.ClaimFrom(old(View()))
        decreases |jobs|
      {
        var item := jobs[0];
        jobs := jobs[1..];
        r := ResolveClaim(item);
        if !r.Again? {
          return;
        }
      }
      return Nothing;
    }

    /** One bounded claim.  A stream that cannot open a socket closes admission instead of waiting. */
    method Claim(connects: bool, bootWrite: bool, reportWrite: bool, why: Payload) returns (r: ClaimOutcome)
      requires socket.HooksOk() && why.Event?
      modifies this, file, socket
      ensures (View(), r) == SS.ClaimOnce(old(View()), old(socket.connected), connects, old(socket.bootstrapEvent),
                                          old(socket.lastClose), bootWrite, reportWrite)
    {
      if latches.current.Some? {
        return Refused(latches.current.value);
      }
      var open := EnsureOpen(connects, bootWrite, reportWrite, why);
      if !open {
        LatchLocked(DeliveryPending, false);
        return Refused(DeliveryPending);
      }
      r := ClaimQueued();
    }

    /** `connects` says whether the connection attempt succeeds; `why` reports the close of a socket that
        could not carry its readiness event. */
    method EnsureOpen(connects: bool, bootWrite: bool, reportWrite: bool, why: Payload) returns (open: bool)
      requires socket.HooksOk() && why.Event?
      modifies this, file, socket
      ensures socket.HooksOk() && open == socket.connected && socket.bootstrapEvent == old(socket.bootstrapEvent)
      ensures socket.lastClose == if old(socket.connected) || !connects then old(socket.lastClose)
                                  else if open then None else Some(why)
      ensures old(socket.connected) || !connects ==> View() == old(View()) && open == old(socket.connected)
      ensures !old(socket.connected) && connects ==>
                (View(), open) == SS.Opened(old(View()), old(socket.bootstrapEvent), old(socket.lastClose),
                                            bootWrite, reportWrite)
    {
      if socket.connected || !connects {
        return socket.connected;
      }
      socket.connected := true;
      ClearPendingLatch();
      open := InstallBootstrap(socket.bootstrapEvent, bootWrite);
      if !open {
        socket.connected := false;
        socket.lastClose := Some(why);
        return;
      }
      InstallReport(socket.lastClose, reportWrite);
      socket.lastClose := None;
    }

    method InstallBootstrap(boot: Option<Payload>, write: bool) returns (ok: bool)
      requires boot.Some? ==> boot.value.Event?
      modifies this, file
      ensures (View(), ok) == SS.InstallBootstrap(old(View()), boot, write)
    {
      if boot.None? || AlreadyPending(boot.value) {
        return true;
      }
      var r := AppendBootstrapHead(boot.value, write);
      if r.Appended? {
        pendingBootstrapKey := Some(KeyOf(streamId, r.num));
      }
      return r.Appended?;
    }

    predicate AlreadyPending(p: Payload)
      reads this
    {
      exists f :: f in durable.frames && f.payload == p
    }

    method InstallReport(report: Option<Payload>, write: bool)
      requires report.Some? ==> report.value.Event?
      modifies this, file
      ensures View() == SS.InstallReport(old(View()), report, write)
    {
      if report.None? {
        return;
      }
      var r := AppendBootstrapHead(report.value, write);
      if r.Appended? {
        pendingReopenKey := Some(KeyOf(streamId, r.num));
      }
    }
  }
}

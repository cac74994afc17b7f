/** The event stream as a value: its durable file, its memory, and what each lock-held transition makes of
    them.  The class in EventStream.dfy performs these transitions in place and is proved against them. */
module StreamState {
  import opened Basics
  import opened Frames
  import opened Admission

  /** A dead-lettered frame and the acknowledgement that condemned it. */
  datatype Row = Row(frame: Frame, ack: Option<Ack>)

  /** A job as received; its content is opaque here. */
  datatype Job = Job(content: nat)

  datatype Delivery = Delivery(attempt: Id, received: nat, boundary: nat)

  /** Exactly what one durable write stores. */
  datatype Durable = Durable(frames: seq<Frame>, rejected: seq<Row>, inbox: map<Id, Job>,
                             deliveries: map<Id, Delivery>)

  const BLANK := Durable([], [], map[], map[])

  datatype Item = Handout(id: Id) | AdmissionWake | ClaimInterrupt

  // ── history: what became of every frame that was ever durably appended ──

  datatype Fate = Live | Retired(ack: Ack) | DeadLettered(verdict: Option<Ack>) | ReopenDropped | BootDropped

  datatype Entry = Entry(frame: Frame, fate: Fate)

  type Log = map<Key, Entry>

  /** `mem` is what the next write would store and `disk` what the last successful one stored.  `log` and
      `used` are history: they record, and never steer, what the stream does. */
  datatype State = State(
    mem: Durable, disk: Durable,
    streamId: Id, next: nat,
    adm: Latches,
    jobs: seq<Item>, queued: set<Id>, claimed: set<Id>,
    bootKey: Option<Key>, reopenKey: Option<Key>,
    attempts: map<Key, nat>, wired: set<Key>,
    log: Log, used: set<Id>)

  // ── loading ──

  function FrameCorrs(frames: seq<Frame>): set<Id> {
    set f | f in frames && f.payload.Result? :: f.payload.corr
  }

  function RowCorrs(rows: seq<Row>): set<Id> {
    set r | r in rows && r.frame.payload.Result? :: r.frame.payload.corr
  }

  /** Correlations whose result is already durable, pending or refused. */
  function ResultCorrs(d: Durable): set<Id> {
    FrameCorrs(d.frames) + RowCorrs(d.rejected)
  }

  predicate Distinct(frames: seq<Frame>) {
    forall i, j :: 0 <= i < j < |frames| ==> frames[i].Key() != frames[j].Key()
  }

  /** The structural checks a start-up makes before it trusts the file. */
  predicate Loadable(d: Durable) {
    && (forall f :: f in d.frames ==> ValidFrame(f))
    && Distinct(d.frames)
    && (forall r :: r in d.rejected ==> ValidFrame(r.frame))
    && d.inbox.Keys == d.deliveries.Keys
    && d.inbox.Keys !! ResultCorrs(d)
  }

  function DropBoots(frames: seq<Frame>): seq<Frame> {
    if frames == [] then []
    else (if IsBoot(frames[0]) then [] else [frames[0]]) + DropBoots(frames[1..])
  }

  function DropBootsFromLog(log: Log): Log {
    map k | k in log ::
      if log[k].fate.Live? && IsBoot(log[k].frame) then log[k].(fate := BootDropped) else log[k]
  }

  /** A hand-out queue that holds each of `ids` once and nothing else. */
  ghost predicate Requeues(order: seq<Id>, ids: set<Id>) {
    && (forall id :: id in order <==> id in ids)
    && (forall i, j :: 0 <= i < j < |order| ==> order[i] != order[j])
  }

  function Handouts(order: seq<Id>): (items: seq<Item>)
    ensures |items| == |order|
    ensures forall i :: 0 <= i < |order| ==> items[i] == Handout(order[i])
  {
    seq(|order|, i requires 0 <= i < |order| => Handout(order[i]))
  }

  /** A fresh process over the durable file, under a stream id no earlier incarnation used. */
  function Boot(disk: Durable, log: Log, used: set<Id>, newId: Id, order: seq<Id>): State {
    var mem := disk.(frames := DropBoots(disk.frames));
    State(mem, mem, newId, 1,
          if mem.frames == [] then OPEN else OPEN.(current := Some(DeliveryPending)),
          Handouts(order), disk.inbox.Keys, {},
          None, None, map[], {},
          DropBootsFromLog(log), used + {newId})
  }

  // ── durable writes and the latch ──

  /** A successful write.  A failed one changes nothing. */
  function Persisted(s: State): State {
    s.(disk := s.mem, adm := Recover(s.adm, s.mem.frames == []))
  }

  function Latched(s: State, e: Fault, storage: bool): State {
    s.(adm := Latch(s.adm, e, storage),
       jobs := if Replaces(s.adm, e) || storage then s.jobs + [AdmissionWake] else s.jobs)
  }

  function Cleared(s: State): State {
    s.(adm := ClearPending(s.adm, s.mem.frames == []))
  }

  // ── appending a frame ──

  datatype AppendOutcome = Appended(num: nat) | BadPayload | StorageDown | DuplicateResult | Malformed | AppendFailed

  /** The durable content once `f` is at the tail; a result retires its own inbox entry in the same write. */
  function WithTail(d: Durable, f: Frame): Durable {
    if f.payload.Result? then
      d.(frames := d.frames + [f], inbox := Drop(d.inbox, f.payload.corr),
         deliveries := Drop(d.deliveries, f.payload.corr))
    else d.(frames := d.frames + [f])
  }

  function NewFrame(s: State, p: Payload): Frame {
    Frame(s.streamId, s.next, p)
  }

  function AppendRecovered(s: State, p: Payload, write: bool): (State, AppendOutcome) {
    var f := NewFrame(s, p);
    if p.Result? && p.corr in ResultCorrs(s.mem) then (s, DuplicateResult)
    else if !ValidFrame(f) then (s, Malformed)
    else if !write then (Latched(s, StorageFault, true), AppendFailed)
    else
      var s1 := Persisted(s.(mem := WithTail(s.mem, f), next := s.next + 1, log := s.log[f.Key() := Entry(f, Live)]));
      (if p.Result? then s1.(queued := s1.queued - {p.corr}, claimed := s1.claimed - {p.corr}) else s1,
       Appended(f.num))
  }

  /** `probe` and `write` say whether the storage probe and the append's own write succeed. */
  function Append(s: State, p: Payload, probe: bool, write: bool): (State, AppendOutcome) {
    if !ValidPayload(p) then (Latched(s, Unhealthy, false), BadPayload)
    else if s.adm.storage.Some? && !probe then (s, StorageDown)
    else AppendRecovered(if s.adm.storage.Some? then Persisted(s) else s, p, write)
  }

  /** Readiness and reopen reports go in front of everything pending. */
  function AppendHead(s: State, p: Payload, write: bool): (State, AppendOutcome)
    requires p.Event?
  {
    var f := NewFrame(s, p);
    if !ValidFrame(f) then (s, Malformed)
    else if !write then (Latched(s, StorageFault, true), AppendFailed)
    else
      (Persisted(s.(mem := s.mem.(frames := [f] + s.mem.frames), next := s.next + 1,
                    log := s.log[f.Key() := Entry(f, Live)])), Appended(f.num))
  }

  // ── settling the head ──

  predicate AtHead(s: State, key: Key) {
    s.mem.frames != [] && s.mem.frames[0].Key() == key
  }

  /** The keys the sender tracks for a frame that is no longer its concern. */
  function Forget(s: State, key: Key): State {
    s.(wired := s.wired - {key}, attempts := Drop(s.attempts, key))
  }

  function Unmark(s: State, key: Key): State {
    s.(bootKey := if s.bootKey == Some(key) then None else s.bootKey,
       reopenKey := if s.reopenKey == Some(key) then None else s.reopenKey)
  }

  function SetFate(s: State, fate: Fate): State
    requires s.mem.frames != []
  {
    var f := s.mem.frames[0];
    s.(log := s.log[f.Key() := Entry(f, fate)])
  }

  function PopHead(s: State): State
    requires s.mem.frames != []
  {
    s.(mem := s.mem.(frames := s.mem.frames[1..]))
  }

  /** Retire the head on its acknowledgement; a result leaves its acknowledgement event at the tail. */
  function Retire(s: State, frame: Frame, ack: Ack): State
    requires s.mem.frames != []
  {
    var s1 := PopHead(SetFate(s, Retired(ack)));
    if frame.payload.Result? then
      var f := NewFrame(s1, ResultAcked(frame.payload));
      Persisted(s1.(mem := s1.mem.(frames := s1.mem.frames + [f]), next := s1.next + 1,
                    log := s1.log[f.Key() := Entry(f, Live)]))
    else Persisted(s1)
  }

  function Bury(s: State, frame: Frame, ack: Option<Ack>): State
    requires s.mem.frames != []
  {
    var s1 := PopHead(SetFate(s, DeadLettered(ack)));
    Persisted(s1.(mem := s1.mem.(rejected := s1.mem.rejected + [Row(frame, ack)])))
  }

  /** Another worker owns the correlation: an unclaimed job leaves the inbox.  A failed write is tolerated
      and leaves the entry on disk. */
  function Release(s: State, frame: Frame, ack: Option<Ack>, write: bool): State {
    if frame.payload.JobAck? && ack.Some? && ack.value.error == NOT_OWNED
       && frame.payload.corr in s.mem.inbox && frame.payload.corr !in s.claimed
    then
      var corr := frame.payload.corr;
      var s1 := s.(mem := s.mem.(inbox := Drop(s.mem.inbox, corr), deliveries := Drop(s.mem.deliveries, corr)),
                   queued := s.queued - {corr});
      if write then Persisted(s1) else s1
    else s
  }

  /** A reopen report that was not accepted is dropped, never dead-lettered. */
  function SettleReport(s: State, key: Key, write: bool): (State, bool) {
    if !AtHead(s, key) then (Forget(s, key), false)
    else if !write then (s, true)
    else (Forget(Persisted(PopHead(SetFate(s, ReopenDropped))), key), false)
  }

  function SettleAccepted(s: State, frame: Frame, ack: Ack, write: bool): (State, bool) {
    if !AtHead(s, frame.Key()) then (Cleared(Forget(s, frame.Key())), false)
    else if !write then (s, true)
    else (Cleared(Forget(Retire(s, frame, ack), frame.Key())), false)
  }

  /** What a dead-lettered frame means for admission. */
  function AfterBurial(s: State, frame: Frame, disp: Disposition, ack: Option<Ack>, release: bool): State {
    if disp.Rejected? then Latched(s, FrameRejected(frame.Key()), false)
    else Cleared(if disp.OneFrameOnly? then Release(s, frame, ack, release) else s)
  }

  function SettleRefused(s: State, frame: Frame, disp: Disposition, ack: Option<Ack>, write: bool, release: bool)
    : (State, bool)
  {
    if !AtHead(s, frame.Key()) then (AfterBurial(Forget(s, frame.Key()), frame, disp, ack, release), false)
    else if !write then (s, true)
    else (AfterBurial(Forget(Bury(s, frame, ack), frame.Key()), frame, disp, ack, release), false)
  }

  /** One settlement.  The flag says that its write failed: the sender's handler takes over then. */
  function Settle(s: State, frame: Frame, disp: Disposition, ack: Option<Ack>, write: bool, release: bool)
    : (State, bool)
    requires disp.Accepted? ==> ack.Some?
  {
    var u := Unmark(s, frame.Key());
    if !disp.Accepted? && IsReopen(frame) then SettleReport(u, frame.Key(), write)
    else match disp
      case Accepted => SettleAccepted(u, frame, ack.value, write)
      case Pending => (Latched(u, DeliveryPending, false), false)
      case _ => SettleRefused(u, frame, disp, ack, write, release)
  }

  // ── accepting a job ──

  datatype AcceptOutcome =
    | Deduplicated | Replayed | Taken
    | Conflict | AttemptChanged | Closed(fault: Fault) | InboxFailed
    | ReceiptFailed(why: AppendOutcome)

  function Receipt(id: Id, d: Delivery): Payload {
    JobAck(id, d.attempt, d.received)
  }

  /** The receipt appended within the same lock hold; without one the outcome stands as it is. */
  function EmitReceipt(s: State, id: Id, d: Delivery, ack: bool, probe: bool, write: bool, done: AcceptOutcome)
    : (State, AcceptOutcome)
  {
    if !ack then (s, done)
    else
      var r := Append(s, Receipt(id, d), probe, write);
      (r.0, if r.1.Appended? then done else ReceiptFailed(r.1))
  }

  function WithDelivery(s: State, id: Id, d: Delivery): State {
    s.(mem := s.mem.(deliveries := s.mem.deliveries[id := d]))
  }

  function WithoutDelivery(s: State, id: Id): State {
    s.(mem := s.mem.(deliveries := Drop(s.mem.deliveries, id)))
  }

  function WithJob(s: State, id: Id, job: Job, d: Delivery): State {
    s.(mem := s.mem.(inbox := s.mem.inbox[id := job], deliveries := s.mem.deliveries[id := d]))
  }

  function HandOut(s: State, id: Id): State {
    s.(queued := s.queued + {id}, jobs := s.jobs + [Handout(id)])
  }

  /** The same delivery again, on a new socket or with different content. */
  function AcceptReplay(s: State, id: Id, job: Job, d: Delivery, ack: bool, inboxWrite: bool, probe: bool, write: bool)
    : (State, AcceptOutcome)
    requires id in s.mem.inbox
  {
    if s.mem.inbox[id] != job then (Latched(s, Unhealthy, false), Conflict)
    else if id in s.mem.deliveries && s.mem.deliveries[id].attempt != d.attempt then
      (Latched(s, Unhealthy, false), AttemptChanged)
    else if !inboxWrite then
      (Latched(if id in s.mem.deliveries then s else WithDelivery(s, id, d), StorageFault, true), InboxFailed)
    else EmitReceipt(Persisted(WithDelivery(s, id, d)), id, d, ack, probe, write, Replayed)
  }

  /** A job the stream has not seen: durable in the inbox, then its receipt, then claimable.  It is claimable
      even when the receipt could not be written. */
  function AcceptNew(s: State, id: Id, job: Job, d: Delivery, ack: bool, inboxWrite: bool, probe: bool, write: bool)
    : (State, AcceptOutcome)
  {
    if !inboxWrite then (Latched(WithoutDelivery(s, id), StorageFault, true), InboxFailed)
    else
      var r := EmitReceipt(Persisted(WithJob(s, id, job, d)), id, d, ack, probe, write, Taken);
      (HandOut(r.0, id), r.1)
  }

  function AcceptJob(s: State, id: Id, job: Job, d: Delivery, ack: bool, inboxWrite: bool, probe: bool, write: bool)
    : (State, AcceptOutcome)
  {
    if id in ResultCorrs(s.mem) then EmitReceipt(s, id, d, ack, probe, write, Deduplicated)
    else if id in s.mem.inbox then AcceptReplay(s, id, job, d, ack, inboxWrite, probe, write)
    else if Permanent(s.adm.current) then (s, Closed(s.adm.current.value))
    else AcceptNew(s, id, job, d, ack, inboxWrite, probe, write)
  }

  // ── claiming a job ──

  datatype ClaimOutcome = Nothing | Refused(fault: Fault) | Again | Claimed(id: Id, job: Job)

  /** What a claimer does with an item it has taken off the queue. */
  function Resolve(s: State, item: Item): (State, ClaimOutcome) {
    match item
    case ClaimInterrupt => (s, Nothing)
    case AdmissionWake => (s, if s.adm.current.Some? then Refused(s.adm.current.value) else Again)
    case Handout(id) =>
      if s.adm.current.Some? then (s.(jobs := s.jobs + [item]), Refused(s.adm.current.value))
      else if id !in s.mem.inbox then (s, Again)
      else (s.(queued := s.queued - {id}, claimed := s.claimed + {id}), Claimed(id, s.mem.inbox[id]))
  }

  /** One claim over the queue as it stands: items are taken until one decides it. */
  function ClaimFrom(s: State): (State, ClaimOutcome)
    decreases |s.jobs|
  {
    if s.jobs == [] then (s, Nothing)
    else
      var r := Resolve(s.(jobs := s.jobs[1..]), s.jobs[0]);
      if r.1.Again? then ClaimFrom(r.0) else r
  }

  // ── opening a socket ──

  /** Readiness goes to the head of a new socket unless an identical event is already pending. */
  predicate AlreadyPending(s: State, bootstrap: Payload) {
    exists f :: f in s.mem.frames && f.payload == bootstrap
  }

  function InstallBootstrap(s: State, bootstrap: Option<Payload>, write: bool): (State, bool)
    requires bootstrap.Some? ==> bootstrap.value.Event?
  {
    if bootstrap.None? || AlreadyPending(s, bootstrap.value) then (s, true)
    else
      var r := AppendHead(s, bootstrap.value, write);
      if r.1.Appended? then (r.0.(bootKey := Some(KeyOf(s.streamId, r.1.num))), true) else (r.0, false)
  }

  /** The report of the previous close is best effort: a failure never blocks the socket. */
  function InstallReport(s: State, report: Option<Payload>, write: bool): State
    requires report.Some? ==> report.value.Event?
  {
    if report.None? then s
    else
      var r := AppendHead(s, report.value, write);
      if r.1.Appended? then r.0.(reopenKey := Some(KeyOf(s.streamId, r.1.num))) else r.0
  }

  /** A socket that connected: clear an ambiguity with nothing left to deliver, then the two head inserts.
      The flag says whether the socket stays open. */
  function Opened(s: State, bootstrap: Option<Payload>, report: Option<Payload>, bootWrite: bool, reportWrite: bool)
    : (State, bool)
    requires bootstrap.Some? ==> bootstrap.value.Event?
    requires report.Some? ==> report.value.Event?
  {
    var b := InstallBootstrap(Cleared(s), bootstrap, bootWrite);
    if b.1 then (InstallReport(b.0, report, reportWrite), true) else b
  }

  /** One bounded claim, on a socket that is up, comes up or does not.  A stream that cannot open one closes
      admission instead of waiting. */
  function ClaimOnce(s: State, connected: bool, connects: bool, bootstrap: Option<Payload>, report: Option<Payload>,
                     bootWrite: bool, reportWrite: bool): (State, ClaimOutcome)
    requires bootstrap.Some? ==> bootstrap.value.Event?
    requires report.Some? ==> report.value.Event?
  {
    if s.adm.current.Some? then (s, Refused(s.adm.current.value))
    else
      var o := if connected || !connects then (s, connected) else Opened(s, bootstrap, report, bootWrite, reportWrite);
      if o.1 then ClaimFrom(o.0) else (Latched(o.0, DeliveryPending, false), Refused(DeliveryPending))
  }
}

/** What every lock-held transition of the event stream keeps: the log accounts for each frame exactly once,
    the file is one a restart accepts, and no accepted job is forgotten. */
module Soundness {
  import opened Basics
  import opened Frames
  import opened Admission
  import opened StreamState

  // ── the invariant, part by part ──

  /** Identities: unique by construction of the log, and never ahead of the counter of the running process. */
  ghost predicate IdsOk(s: State) {
    && s.next >= 1 && ValidStreamId(s.streamId) && s.streamId in s.used
    && (forall k :: k in s.log ==> s.log[k].frame.Key() == k && k.streamId in s.used && ValidFrame(s.log[k].frame))
    && (forall k :: k in s.log && k.streamId == s.streamId ==> k.num < s.next)
  }

  /** The outbox holds exactly the live frames, each once. */
  ghost predicate OutboxOk(frames: seq<Frame>, log: Log) {
    && Distinct(frames)
    && (forall f :: f in frames ==> f.Key() in log && log[f.Key()] == Entry(f, Live))
    && (forall k :: k in log && log[k].fate.Live? ==> log[k].frame in frames)
  }

  /** The dead-letter holds exactly the frames buried there, each once, with the verdict that buried it. */
  ghost predicate DeadLetterOk(rows: seq<Row>, log: Log) {
    && (forall i, j :: 0 <= i < j < |rows| ==> rows[i].frame.Key() != rows[j].frame.Key())
    && (forall r :: r in rows ==> r.frame.Key() in log && log[r.frame.Key()] == Entry(r.frame, DeadLettered(r.ack)))
    && (forall k :: k in log && log[k].fate.DeadLettered? ==> Row(log[k].frame, log[k].fate.verdict) in rows)
  }

  /** Why a frame may be where it is. */
  ghost predicate Justified(e: Entry, k: Key, current: Id) {
    match e.fate
    case Live => true
    case Retired(ack) => ack.key == k && 200 <= ack.status < 300
    case DeadLettered(v) =>
      && v.Some? && v.value.key == k
      && (v.value.status == 0 || Judge(e.frame, v.value) in {Some(Rejected), Some(OneFrameOnly)})
    case ReopenDropped => IsReopen(e.frame)
    case BootDropped => IsBoot(e.frame) && k.streamId != current
  }

  ghost predicate FatesOk(s: State) {
    forall k :: k in s.log ==> Justified(s.log[k], k, s.streamId)
  }

  /** A result whose correlation is still taken: pending, or refused for good. */
  ghost predicate HeldResult(log: Log, k: Key) {
    k in log && (log[k].fate.Live? || log[k].fate.DeadLettered?) && log[k].frame.payload.Result?
  }

  ghost predicate ResultsUnique(log: Log) {
    forall k1, k2 :: HeldResult(log, k1) && HeldResult(log, k2) && k1 != k2 ==>
      log[k1].frame.payload.corr != log[k2].frame.payload.corr
  }

  ghost predicate InboxOk(d: Durable, log: Log) {
    && d.inbox.Keys == d.deliveries.Keys
    && (forall k :: HeldResult(log, k) ==> log[k].frame.payload.corr !in d.inbox)
  }

  /** The part that does not mention the file. */
  ghost predicate MemoryOk(s: State) {
    && IdsOk(s) && FatesOk(s)
    && OutboxOk(s.mem.frames, s.log) && DeadLetterOk(s.mem.rejected, s.log)
    && ResultsUnique(s.log) && InboxOk(s.mem, s.log)
    && s.claimed <= s.mem.inbox.Keys
    && Admission.Valid(s.adm)
  }

  /** Memory and file agree on every frame.  On jobs the file may only be ahead by entries a failed write
      could not remove. */
  ghost predicate FileOk(s: State) {
    && s.disk.frames == s.mem.frames && s.disk.rejected == s.mem.rejected
    && InboxOk(s.disk, s.log)
    && (forall id :: id in s.mem.inbox ==> id in s.disk.inbox && s.disk.inbox[id] == s.mem.inbox[id])
  }

  ghost predicate Sound(s: State) {
    MemoryOk(s) && FileOk(s)
  }

  ghost predicate Logged(s: State, f: Frame) {
    f.Key() in s.log && s.log[f.Key()].frame == f
  }

  // ── what one transition may do to the history and to the outbox ──

  /** Frames in the log stay there and stay what they are; a fate once sealed never changes. */
  ghost predicate LogGrows(s: State, t: State) {
    forall k :: k in s.log ==>
      k in t.log && t.log[k].frame == s.log[k].frame && (s.log[k].fate.Live? || t.log[k] == s.log[k])
  }

  /** The outbox loses at most its head and gains at most one frame, never seen before, at either end; a
      frame that takes the head's place in the same transition goes to the tail. */
  ghost predicate OutboxMoves(s: State, t: State) {
    var a, b := s.mem.frames, t.mem.frames;
    || b == a
    || (|b| == |a| + 1 && b[1..] == a && b[0].Key() !in s.log)
    || (|b| == |a| + 1 && b[..|a|] == a && b[|a|].Key() !in s.log)
    || (a != [] && b == a[1..])
    || (a != [] && |b| == |a| && b[..|a| - 1] == a[1..] && b[|a| - 1].Key() !in s.log)
  }

  /** Within one incarnation, moreover, sequence numbers only grow. */
  ghost predicate Moves(s: State, t: State) {
    LogGrows(s, t) && OutboxMoves(s, t) && t.streamId == s.streamId && s.next <= t.next
  }

  // ── consequences ──

  lemma HeldCorrs(s: State)
    requires MemoryOk(s)
    ensures forall k :: HeldResult(s.log, k) ==> s.log[k].frame.payload.corr in ResultCorrs(s.mem)
    ensures forall corr :: corr in ResultCorrs(s.mem) ==>
              exists k :: HeldResult(s.log, k) && s.log[k].frame.payload.corr == corr
  {
    forall k | HeldResult(s.log, k)
      ensures s.log[k].frame.payload.corr in ResultCorrs(s.mem)
    {
      if s.log[k].fate.DeadLettered? {
        assert Row(s.log[k].frame, s.log[k].fate.verdict) in s.mem.rejected;
      }
    }
    forall corr | corr in ResultCorrs(s.mem)
      ensures exists k :: HeldResult(s.log, k) && s.log[k].frame.payload.corr == corr
    {
      if corr in FrameCorrs(s.mem.frames) {
        var f :| f in s.mem.frames && f.payload.Result? && f.payload.corr == corr;
        assert HeldResult(s.log, f.Key());
      } else {
        var r :| r in s.mem.rejected && r.frame.payload.Result? && r.frame.payload.corr == corr;
        assert HeldResult(s.log, r.frame.Key());
      }
    }
  }

  /** Every state a run can write is one a start-up accepts. */
  lemma SoundFilesLoad(s: State)
    requires Sound(s)
    ensures Loadable(s.disk) && Loadable(s.mem)
  {
    HeldCorrs(s);
    assert forall r :: r in s.mem.rejected ==> ValidFrame(r.frame);
    assert ResultCorrs(s.disk) == ResultCorrs(s.mem);
    forall d | d == s.disk || d == s.mem
      ensures d.inbox.Keys !! ResultCorrs(d)
    {
    }
  }

  // ── one frame arrives ──

  /** `t` is `s` after a fresh frame `f` became durable at either end of the outbox. */
  ghost predicate Arrives(s: State, t: State, f: Frame) {
    && f.streamId == s.streamId && f.num == s.next
    && t.log == s.log[f.Key() := Entry(f, Live)] && t.next == s.next + 1
    && (t.mem.frames == s.mem.frames + [f] || t.mem.frames == [f] + s.mem.frames)
    && t.mem.rejected == s.mem.rejected
    && t.streamId == s.streamId && t.used == s.used
  }

  lemma ArrivalKeepsOutbox(s: State, t: State, f: Frame)
    requires IdsOk(s) && OutboxOk(s.mem.frames, s.log) && Arrives(s, t, f)
    ensures f.Key() !in s.log
    ensures OutboxOk(t.mem.frames, t.log)
  {
    assert forall g :: g in t.mem.frames <==> g == f || g in s.mem.frames;
    if t.mem.frames == [f] + s.mem.frames {
      forall i, j | 0 <= i < j < |t.mem.frames|
        ensures t.mem.frames[i].Key() != t.mem.frames[j].Key()
      {
        assert t.mem.frames[j] == s.mem.frames[j - 1];
        assert t.mem.frames[j] in s.mem.frames;
        if i > 0 {
          assert t.mem.frames[i] == s.mem.frames[i - 1];
        }
      }
    } else {
      forall i, j | 0 <= i < j < |t.mem.frames|
        ensures t.mem.frames[i].Key() != t.mem.frames[j].Key()
      {
        assert t.mem.frames[i] == s.mem.frames[i];
        assert t.mem.frames[i] in s.mem.frames;
      }
    }
  }

  lemma ArrivalKeepsResults(s: State, t: State, f: Frame)
    requires MemoryOk(s) && Arrives(s, t, f)
    requires f.payload.Result? ==> f.payload.corr !in ResultCorrs(s.mem) && f.payload.corr !in t.mem.inbox
    requires t.mem.inbox.Keys == t.mem.deliveries.Keys && t.mem.inbox.Keys <= s.mem.inbox.Keys
    ensures ResultsUnique(t.log) && InboxOk(t.mem, t.log)
  {
    HeldCorrs(s);
    forall k | HeldResult(t.log, k) && k != f.Key()
      ensures HeldResult(s.log, k) && t.log[k] == s.log[k]
    {
    }
  }

  lemma ArrivalKeepsMemory(s: State, t: State, f: Frame)
    requires MemoryOk(s) && Arrives(s, t, f) && ValidFrame(f)
    requires f.payload.Result? ==> f.payload.corr !in ResultCorrs(s.mem) && f.payload.corr !in t.mem.inbox
    requires t.mem.inbox.Keys == t.mem.deliveries.Keys && t.mem.inbox.Keys <= s.mem.inbox.Keys
    requires t.claimed <= t.mem.inbox.Keys && Admission.Valid(t.adm)
    ensures MemoryOk(t)
  {
    ArrivalKeepsOutbox(s, t, f);
    ArrivalKeepsResults(s, t, f);
    forall r | r in t.mem.rejected
      ensures r.frame.Key() in t.log && t.log[r.frame.Key()] == Entry(r.frame, DeadLettered(r.ack))
    {
      assert r.frame.Key() in s.log;
    }
  }

  // ── the head leaves ──

  /** `t` is `s` after the head left the outbox for `fate`. */
  ghost predicate Departs(s: State, t: State, fate: Fate) {
    && s.mem.frames != []
    && t.log == s.log[s.mem.frames[0].Key() := Entry(s.mem.frames[0], fate)] && t.next == s.next
    && t.mem.frames == s.mem.frames[1..]
    && t.mem.rejected == s.mem.rejected + (if fate.DeadLettered? then [Row(s.mem.frames[0], fate.verdict)] else [])
    && t.mem.inbox == s.mem.inbox && t.mem.deliveries == s.mem.deliveries
    && t.streamId == s.streamId && t.used == s.used
  }

  lemma DepartureKeepsOutbox(s: State, t: State, fate: Fate)
    requires IdsOk(s) && OutboxOk(s.mem.frames, s.log) && Departs(s, t, fate) && !fate.Live?
    ensures OutboxOk(t.mem.frames, t.log)
  {
    var head := s.mem.frames[0];
    forall f | f in t.mem.frames
      ensures f.Key() in t.log && t.log[f.Key()] == Entry(f, Live)
    {
      var i :| 0 <= i < |t.mem.frames| && t.mem.frames[i] == f;
      assert s.mem.frames[i + 1] == f && f in s.mem.frames;
      assert s.mem.frames[0].Key() != s.mem.frames[i + 1].Key();
    }
    forall k | k in t.log && t.log[k].fate.Live?
      ensures t.log[k].frame in t.mem.frames
    {
      var f := s.log[k].frame;
      assert f in s.mem.frames && f != head;
      var i :| 0 <= i < |s.mem.frames| && s.mem.frames[i] == f;
      assert t.mem.frames[i - 1] == f;
    }
    forall i, j | 0 <= i < j < |t.mem.frames|
      ensures t.mem.frames[i].Key() != t.mem.frames[j].Key()
    {
      assert s.mem.frames[i + 1].Key() != s.mem.frames[j + 1].Key();
    }
  }

  lemma DepartureKeepsDeadLetter(s: State, t: State, fate: Fate)
    requires OutboxOk(s.mem.frames, s.log) && DeadLetterOk(s.mem.rejected, s.log) && Departs(s, t, fate) && !fate.Live?
    ensures DeadLetterOk(t.mem.rejected, t.log)
  {
    var head := s.mem.frames[0];
    assert head in s.mem.frames && s.log[head.Key()].fate.Live?;
    var rows := s.mem.rejected;
    forall i, j | 0 <= i < j < |t.mem.rejected|
      ensures t.mem.rejected[i].frame.Key() != t.mem.rejected[j].frame.Key()
    {
      assert t.mem.rejected[i] == rows[i] && rows[i] in rows;
    }
    forall r | r in t.mem.rejected
      ensures r.frame.Key() in t.log && t.log[r.frame.Key()] == Entry(r.frame, DeadLettered(r.ack))
    {
      if r in rows {
        assert s.log[r.frame.Key()].fate.DeadLettered?;
      }
    }
    forall k | k in t.log && t.log[k].fate.DeadLettered?
      ensures Row(t.log[k].frame, t.log[k].fate.verdict) in t.mem.rejected
    {
      if k != head.Key() {
        assert Row(s.log[k].frame, s.log[k].fate.verdict) in rows;
      }
    }
  }

  lemma DepartureKeepsMemory(s: State, t: State, fate: Fate)
    requires MemoryOk(s) && Departs(s, t, fate) && !fate.Live?
    requires Justified(Entry(s.mem.frames[0], fate), s.mem.frames[0].Key(), s.streamId)
    requires t.claimed == s.claimed && Admission.Valid(t.adm)
    ensures MemoryOk(t)
  {
    hide OutboxOk, DeadLetterOk, ResultsUnique, InboxOk;
    DepartureKeepsOutbox(s, t, fate);
    DepartureKeepsDeadLetter(s, t, fate);
    DepartureKeepsResults(s, t, fate);
    assert FatesOk(t);
  }

  lemma DepartureKeepsResults(s: State, t: State, fate: Fate)
    requires MemoryOk(s) && Departs(s, t, fate) && !fate.Live?
    ensures ResultsUnique(t.log) && InboxOk(t.mem, t.log) && IdsOk(t)
  {
    assert s.mem.frames[0] in s.mem.frames;
    assert forall k :: HeldResult(t.log, k) ==> HeldResult(s.log, k) && t.log[k].frame == s.log[k].frame;
  }

  // ── writes and latches touch no frame ──

  lemma WriteKeeps(s: State)
    requires MemoryOk(s)
    ensures Sound(Persisted(s))
  {
    RecoverRefines(s.adm, s.mem.frames == []);
  }

  lemma LatchKeeps(s: State, e: Fault, storage: bool)
    requires storage ==> !e.DeliveryPending?
    ensures MemoryOk(s) ==> MemoryOk(Latched(s, e, storage))
    ensures Sound(s) ==> Sound(Latched(s, e, storage))
    ensures Moves(s, Latched(s, e, storage))
  {
    if Admission.Valid(s.adm) {
      LatchRefines(s.adm, e, storage);
    }
  }

  lemma ClearKeeps(s: State)
    requires Sound(s)
    ensures Sound(Cleared(s))
  {
    ClearRefines(s.adm, s.mem.frames == []);
  }

  // ── the transitions ──

  lemma AppendRecoveredMoves(s: State, p: Payload, write: bool)
    requires IdsOk(s)
    ensures Moves(s, AppendRecovered(s, p, write).0)
  {
  }

  lemma AppendRecoveredKeeps(s: State, p: Payload, write: bool)
    requires Sound(s)
    ensures Sound(AppendRecovered(s, p, write).0)
    ensures Moves(s, AppendRecovered(s, p, write).0)
  {
    hide Moves;
    AppendRecoveredMoves(s, p, write);
    var r := AppendRecovered(s, p, write);
    LatchKeeps(s, StorageFault, true);
    if r.1.Appended? {
      var f := NewFrame(s, p);
      var s1 := s.(mem := WithTail(s.mem, f), next := s.next + 1, log := s.log[f.Key() := Entry(f, Live)],
                   claimed := if p.Result? then s.claimed - {p.corr} else s.claimed,
                   queued := if p.Result? then s.queued - {p.corr} else s.queued);
      ArrivalKeepsMemory(s, s1, f);
      WriteKeeps(s1);
      assert r.0 == Persisted(s1);
    }
  }

  lemma AppendKeeps(s: State, p: Payload, probe: bool, write: bool)
    requires Sound(s)
    ensures Sound(Append(s, p, probe, write).0)
    ensures Moves(s, Append(s, p, probe, write).0)
  {
    hide AppendRecovered, Latched, Sound, Moves, ValidPayload;
    if !ValidPayload(p) {
      LatchKeeps(s, Unhealthy, false);
    } else if s.adm.storage.None? {
      AppendRecoveredKeeps(s, p, write);
    } else if probe {
      ProbedAppendKeeps(s, p, write);
    } else {
      StayingPut(s);
    }
  }

  lemma StayingPut(s: State)
    ensures Moves(s, s)
  {
  }

  lemma ProbedAppendKeeps(s: State, p: Payload, write: bool)
    requires Sound(s)
    ensures Sound(AppendRecovered(Persisted(s), p, write).0)
    ensures Moves(s, AppendRecovered(Persisted(s), p, write).0)
  {
    hide AppendRecovered, Moves;
    WriteKeeps(s);
    AppendRecoveredKeeps(Persisted(s), p, write);
    MovesFrom(s, Persisted(s), AppendRecovered(Persisted(s), p, write).0);
  }

  lemma AppendHeadMoves(s: State, p: Payload, write: bool)
    requires IdsOk(s) && p.Event?
    ensures Moves(s, AppendHead(s, p, write).0)
  {
  }

  lemma AppendHeadKeeps(s: State, p: Payload, write: bool)
    requires Sound(s) && p.Event?
    ensures Sound(AppendHead(s, p, write).0)
    ensures Moves(s, AppendHead(s, p, write).0)
  {
    hide Moves;
    AppendHeadMoves(s, p, write);
    var r := AppendHead(s, p, write);
    LatchKeeps(s, StorageFault, true);
    if r.1.Appended? {
      var f := NewFrame(s, p);
      var s1 := s.(mem := s.mem.(frames := [f] + s.mem.frames), next := s.next + 1,
                   log := s.log[f.Key() := Entry(f, Live)]);
      ArrivalKeepsMemory(s, s1, f);
      WriteKeeps(s1);
    }
  }

  /** The acknowledgement event a retired result leaves behind is always a valid frame. */
  lemma ResultAckedIsValid(s: State, p: Payload)
    requires IdsOk(s) && p.Result? && ValidPayload(p)
    ensures ValidFrame(NewFrame(s, ResultAcked(p)))
  {
  }

  lemma RetireKeeps(s: State, frame: Frame, ack: Ack)
    requires Sound(s) && AtHead(s, frame.Key()) && s.mem.frames[0] == frame
    requires ack.key == frame.Key() && 200 <= ack.status < 300
    ensures Sound(Retire(s, frame, ack))
    ensures Moves(s, Retire(s, frame, ack))
  {
    assert frame in s.mem.frames;
    var s1 := PopHead(SetFate(s, Retired(ack)));
    DepartureKeepsMemory(s, s1, Retired(ack));
    if frame.payload.Result? {
      RetireResultKeeps(s, s1, frame, ack);
    } else {
      WriteKeeps(s1);
    }
  }

  /** A result's retirement: its acknowledgement event arrives in the same write. */
  lemma RetireResultKeeps(s: State, s1: State, frame: Frame, ack: Ack)
    requires Sound(s) && AtHead(s, frame.Key()) && s.mem.frames[0] == frame && frame.payload.Result?
    requires frame in s.mem.frames && s1 == PopHead(SetFate(s, Retired(ack))) && MemoryOk(s1)
    ensures Sound(Retire(s, frame, ack))
    ensures Moves(s, Retire(s, frame, ack))
  {
    ResultAckedIsValid(s1, frame.payload);
    RetireResultMoves(s, s1, frame, ack);
    var f := NewFrame(s1, ResultAcked(frame.payload));
    var s2 := s1.(mem := s1.mem.(frames := s1.mem.frames + [f]), next := s1.next + 1,
                  log := s1.log[f.Key() := Entry(f, Live)]);
    ArrivalKeepsMemory(s1, s2, f);
    WriteKeeps(s2);
  }

  lemma RetireResultMoves(s: State, s1: State, frame: Frame, ack: Ack)
    requires IdsOk(s) && OutboxOk(s.mem.frames, s.log) && AtHead(s, frame.Key()) && s.mem.frames[0] == frame
    requires frame.payload.Result? && s1 == PopHead(SetFate(s, Retired(ack)))
    ensures Moves(s, Retire(s, frame, ack))
  {
    var f := NewFrame(s1, ResultAcked(frame.payload));
    var t := Retire(s, frame, ack);
    assert frame in s.mem.frames && f.Key() !in s.log;
    assert t.mem.frames == s.mem.frames[1..] + [f];
    assert t.mem.frames[..|s.mem.frames| - 1] == s.mem.frames[1..];
  }

  lemma BuryKeeps(s: State, frame: Frame, verdict: Option<Ack>)
    requires Sound(s) && AtHead(s, frame.Key()) && s.mem.frames[0] == frame
    requires Justified(Entry(frame, DeadLettered(verdict)), frame.Key(), s.streamId)
    ensures Sound(Bury(s, frame, verdict))
    ensures Moves(s, Bury(s, frame, verdict))
  {
    var s1 := PopHead(SetFate(s, DeadLettered(verdict)));
    var s2 := s1.(mem := s1.mem.(rejected := s1.mem.rejected + [Row(frame, verdict)]));
    DepartureKeepsMemory(s, s2, DeadLettered(verdict));
    WriteKeeps(s2);
  }

  lemma DropReportKeeps(s: State)
    requires Sound(s) && s.mem.frames != [] && IsReopen(s.mem.frames[0])
    ensures Sound(Persisted(PopHead(SetFate(s, ReopenDropped))))
    ensures Moves(s, Persisted(PopHead(SetFate(s, ReopenDropped))))
  {
    var s1 := PopHead(SetFate(s, ReopenDropped));
    DepartureKeepsMemory(s, s1, ReopenDropped);
    WriteKeeps(s1);
  }

  lemma ReleaseKeeps(s: State, frame: Frame, ack: Option<Ack>, write: bool)
    requires Sound(s)
    ensures Sound(Release(s, frame, ack, write))
  {
    var t := Release(s, frame, ack, write);
    if t != s {
      var corr := frame.payload.corr;
      var s1 := s.(mem := s.mem.(inbox := Drop(s.mem.inbox, corr), deliveries := Drop(s.mem.deliveries, corr)),
                   queued := s.queued - {corr});
      assert MemoryOk(s1);
      WriteKeeps(s1);
    }
  }

  /** The head the sender settles is the very frame it read, whatever was inserted in between. */
  lemma HeadIsTheFrame(s: State, frame: Frame)
    requires Sound(s) && Logged(s, frame) && AtHead(s, frame.Key())
    ensures s.mem.frames[0] == frame
  {
    assert s.mem.frames[0] in s.mem.frames;
  }

  lemma SettleReportKeeps(s: State, frame: Frame, write: bool)
    requires Sound(s) && Logged(s, frame) && IsReopen(frame)
    ensures Sound(SettleReport(s, frame.Key(), write).0)
    ensures Moves(s, SettleReport(s, frame.Key(), write).0)
  {
    if AtHead(s, frame.Key()) {
      HeadIsTheFrame(s, frame);
      DropReportKeeps(s);
    }
  }

  lemma SettleAcceptedKeeps(s: State, frame: Frame, ack: Ack, write: bool)
    requires Sound(s) && Logged(s, frame)
    requires ack.key == frame.Key() && 200 <= ack.status < 300
    ensures Sound(SettleAccepted(s, frame, ack, write).0)
    ensures Moves(s, SettleAccepted(s, frame, ack, write).0)
  {
    if AtHead(s, frame.Key()) {
      HeadIsTheFrame(s, frame);
      RetireKeeps(s, frame, ack);
      ClearKeeps(Forget(Retire(s, frame, ack), frame.Key()));
    }
    ClearKeeps(Forget(s, frame.Key()));
  }

  lemma SettleRefusedKeeps(s: State, frame: Frame, disp: Disposition, ack: Option<Ack>, write: bool, release: bool)
    requires Sound(s) && Logged(s, frame)
    requires Justified(Entry(frame, DeadLettered(ack)), frame.Key(), s.streamId)
    ensures Sound(SettleRefused(s, frame, disp, ack, write, release).0)
    ensures Moves(s, SettleRefused(s, frame, disp, ack, write, release).0)
  {
    if !AtHead(s, frame.Key()) {
      AfterBurialKeeps(Forget(s, frame.Key()), frame, disp, ack, release);
    } else if write {
      HeadIsTheFrame(s, frame);
      BuryKeeps(s, frame, ack);
      BuriedKeeps(s, Bury(s, frame, ack), frame, disp, ack, release);
    }
  }

  lemma BuriedKeeps(s: State, b: State, frame: Frame, disp: Disposition, ack: Option<Ack>, release: bool)
    requires Sound(b) && Moves(s, b)
    ensures Sound(AfterBurial(Forget(b, frame.Key()), frame, disp, ack, release))
    ensures Moves(s, AfterBurial(Forget(b, frame.Key()), frame, disp, ack, release))
  {
    hide AfterBurial;
    AfterBurialKeeps(Forget(b, frame.Key()), frame, disp, ack, release);
  }

  lemma SettleKeeps(s: State, frame: Frame, disp: Disposition, ack: Option<Ack>, write: bool, release: bool)
    requires Sound(s) && Logged(s, frame)
    requires disp.Accepted? ==> ack.Some? && ack.value.key == frame.Key() && 200 <= ack.value.status < 300
    requires disp in {Rejected, OneFrameOnly, Abandoned} && !IsReopen(frame) ==>
               Justified(Entry(frame, DeadLettered(ack)), frame.Key(), s.streamId)
    ensures Sound(Settle(s, frame, disp, ack, write, release).0)
    ensures Moves(s, Settle(s, frame, disp, ack, write, release).0)
  {
    hide Sound, Moves, Unmark;
    var u := Unmark(s, frame.Key());
    UnmarkKeeps(s, frame);
    if !disp.Accepted? && IsReopen(frame) {
      SettleReportKeeps(u, frame, write);
    } else if disp.Accepted? {
      SettleAcceptedKeeps(u, frame, ack.value, write);
    } else if disp.Pending? {
      LatchKeeps(u, DeliveryPending, false);
    } else {
      SettleRefusedKeeps(u, frame, disp, ack, write, release);
    }
    MovesFrom(s, u, Settle(s, frame, disp, ack, write, release).0);
  }

  lemma UnmarkKeeps(s: State, frame: Frame)
    requires Sound(s) && Logged(s, frame)
    ensures var u := Unmark(s, frame.Key());
      && Sound(u) && Logged(u, frame)
      && u.mem.frames == s.mem.frames && u.log == s.log && u.streamId == s.streamId && u.next == s.next
  {
  }

  lemma AfterBurialKeeps(s: State, frame: Frame, disp: Disposition, ack: Option<Ack>, release: bool)
    requires Sound(s)
    ensures Sound(AfterBurial(s, frame, disp, ack, release))
    ensures var t := AfterBurial(s, frame, disp, ack, release);
      t.log == s.log && t.mem.frames == s.mem.frames && t.streamId == s.streamId && t.next == s.next
  {
    LatchKeeps(s, FrameRejected(frame.Key()), false);
    ReleaseKeeps(s, frame, ack, release);
    ClearKeeps(if disp.OneFrameOnly? then Release(s, frame, ack, release) else s);
  }

  lemma EmitReceiptKeeps(s: State, id: Id, d: Delivery, ack: bool, probe: bool, write: bool, done: AcceptOutcome)
    requires Sound(s)
    ensures Sound(EmitReceipt(s, id, d, ack, probe, write, done).0)
    ensures Moves(s, EmitReceipt(s, id, d, ack, probe, write, done).0)
  {
    AppendKeeps(s, Receipt(id, d), probe, write);
  }

  lemma MovesFrom(s: State, s1: State, t: State)
    requires s1.mem.frames == s.mem.frames && s1.log == s.log && s1.streamId == s.streamId && s1.next == s.next
    requires Moves(s1, t)
    ensures Moves(s, t)
  {
  }

  lemma NewDeliveryKeeps(s: State, id: Id, d: Delivery)
    requires Sound(s) && id in s.mem.inbox
    ensures Sound(Persisted(WithDelivery(s, id, d)))
  {
    var s1 := WithDelivery(s, id, d);
    assert s1.mem.deliveries.Keys == s.mem.deliveries.Keys;
    assert MemoryOk(s1);
    WriteKeeps(s1);
  }

  lemma AcceptReplayKeeps(s: State, id: Id, job: Job, d: Delivery, ack: bool, inboxWrite: bool, probe: bool,
                          write: bool)
    requires Sound(s) && id in s.mem.inbox
    ensures Sound(AcceptReplay(s, id, job, d, ack, inboxWrite, probe, write).0)
    ensures Moves(s, AcceptReplay(s, id, job, d, ack, inboxWrite, probe, write).0)
  {
    if s.mem.inbox[id] != job || (id in s.mem.deliveries && s.mem.deliveries[id].attempt != d.attempt) {
      LatchKeeps(s, Unhealthy, false);
    } else if !inboxWrite {
      LatchKeeps(s, StorageFault, true);
    } else {
      var s1 := Persisted(WithDelivery(s, id, d));
      NewDeliveryKeeps(s, id, d);
      EmitReceiptKeeps(s1, id, d, ack, probe, write, Replayed);
      MovesFrom(s, s1, EmitReceipt(s1, id, d, ack, probe, write, Replayed).0);
    }
  }

  lemma AcceptNewKeeps(s: State, id: Id, job: Job, d: Delivery, ack: bool, inboxWrite: bool, probe: bool, write: bool)
    requires Sound(s) && id !in s.mem.inbox && id !in ResultCorrs(s.mem)
    ensures Sound(AcceptNew(s, id, job, d, ack, inboxWrite, probe, write).0)
    ensures Moves(s, AcceptNew(s, id, job, d, ack, inboxWrite, probe, write).0)
  {
    hide EmitReceipt, Sound;
    if inboxWrite {
      var s1 := Persisted(WithJob(s, id, job, d));
      NewJobKeeps(s, id, job, d);
      EmitReceiptKeeps(s1, id, d, ack, probe, write, Taken);
      var r := EmitReceipt(s1, id, d, ack, probe, write, Taken).0;
      HandOutKeeps(r, id);
      MovesFrom(s, s1, r);
    } else {
      NothingToDrop(s, id);
      LatchKeeps(s, StorageFault, true);
    }
  }

  lemma NothingToDrop(s: State, id: Id)
    requires Sound(s) && id !in s.mem.inbox
    ensures WithoutDelivery(s, id) == s
  {
    assert Drop(s.mem.deliveries, id) == s.mem.deliveries;
  }

  lemma HandOutKeeps(s: State, id: Id)
    requires Sound(s)
    ensures Sound(HandOut(s, id))
  {
  }

  lemma NewJobKeeps(s: State, id: Id, job: Job, d: Delivery)
    requires Sound(s) && id !in s.mem.inbox && id !in ResultCorrs(s.mem)
    ensures Sound(Persisted(WithJob(s, id, job, d)))
  {
    HeldCorrs(s);
    assert MemoryOk(WithJob(s, id, job, d));
    WriteKeeps(WithJob(s, id, job, d));
  }

  lemma AcceptJobKeeps(s: State, id: Id, job: Job, d: Delivery, ack: bool, inboxWrite: bool, probe: bool, write: bool)
    requires Sound(s)
    ensures Sound(AcceptJob(s, id, job, d, ack, inboxWrite, probe, write).0)
    ensures Moves(s, AcceptJob(s, id, job, d, ack, inboxWrite, probe, write).0)
  {
    if id in ResultCorrs(s.mem) {
      EmitReceiptKeeps(s, id, d, ack, probe, write, Deduplicated);
    } else if id in s.mem.inbox {
      AcceptReplayKeeps(s, id, job, d, ack, inboxWrite, probe, write);
    } else if !Permanent(s.adm.current) {
      AcceptNewKeeps(s, id, job, d, ack, inboxWrite, probe, write);
    }
  }
}

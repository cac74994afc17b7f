/** Which files start-up accepts, compared with the files that runs leave behind. */
module LoadedFiles {
  import opened Basics
  import opened Frames
  import opened Admission
  import opened StreamState
  import opened Soundness

  /** The file of a state that meets the invariant, in a process that has not appended anything yet. */
  ghost predicate Recordable(d: Durable, id: Id) {
    exists s: State :: Sound(s) && s.mem == d && s.disk == d && s.streamId == id
  }

  function RowFrames(rows: seq<Row>): (frames: seq<Frame>)
    ensures |frames| == |rows| && forall i :: 0 <= i < |rows| ==> frames[i] == rows[i].frame
  {
    seq(|rows|, i requires 0 <= i < |rows| => rows[i].frame)
  }

  /** A dead-letter row whose verdict condemns its frame. */
  predicate Condemned(r: Row) {
    && r.ack.Some? && r.ack.value.key == r.frame.Key()
    && (r.ack.value.status == 0 || Judge(r.frame, r.ack.value) in {Some(Rejected), Some(OneFrameOnly)})
  }

  /** What start-up takes on trust: identities unique over outbox and dead-letter together, one result for a
      correlation, and every row with the verdict that condemned its frame. */
  ghost predicate Trusted(d: Durable) {
    var all := d.frames + RowFrames(d.rejected);
    && Distinct(all)
    && (forall f, g :: f in all && g in all && f.payload.Result? && g.payload.Result? && f.Key() != g.Key() ==>
          f.payload.corr != g.payload.corr)
    && (forall r :: r in d.rejected ==> Condemned(r))
  }

  // ── every recordable file is loadable and keeps the trust ──

  lemma InAll(d: Durable, f: Frame)
    ensures f in d.frames + RowFrames(d.rejected) <==> f in d.frames || exists r :: r in d.rejected && r.frame == f
  {
    var rows := RowFrames(d.rejected);
    if f in rows {
      var i :| 0 <= i < |rows| && rows[i] == f;
      assert d.rejected[i] in d.rejected;
    }
    if r :| r in d.rejected && r.frame == f {
      var i :| 0 <= i < |d.rejected| && d.rejected[i] == r;
      assert rows[i] == f;
    }
  }

  lemma HeldFrames(s: State, f: Frame)
    requires Sound(s) && f in s.mem.frames + RowFrames(s.mem.rejected)
    ensures f.Key() in s.log && s.log[f.Key()].frame == f
    ensures f.payload.Result? ==> HeldResult(s.log, f.Key())
  {
    InAll(s.mem, f);
  }

  lemma AllDistinct(s: State)
    requires Sound(s)
    ensures Distinct(s.mem.frames + RowFrames(s.mem.rejected))
  {
    var frames, rows := s.mem.frames, RowFrames(s.mem.rejected);
    var all := frames + rows;
    forall i, j | 0 <= i < j < |all| ensures all[i].Key() != all[j].Key() {
      if j < |frames| {
        assert all[i] == frames[i] && all[j] == frames[j];
      } else if i < |frames| {
        assert all[i] in frames && s.mem.rejected[j - |frames|] in s.mem.rejected;
        assert s.log[all[i].Key()].fate.Live?;
      } else {
        assert all[i] == s.mem.rejected[i - |frames|].frame && all[j] == s.mem.rejected[j - |frames|].frame;
      }
    }
  }

  lemma RecordableIsTrusted(s: State)
    requires Sound(s)
    ensures Trusted(s.mem)
  {
    AllDistinct(s);
    var all := s.mem.frames + RowFrames(s.mem.rejected);
    forall f, g | f in all && g in all && f.payload.Result? && g.payload.Result? && f.Key() != g.Key()
      ensures f.payload.corr != g.payload.corr
    {
      HeldFrames(s, f);
      HeldFrames(s, g);
    }
    forall r | r in s.mem.rejected ensures Condemned(r) {
      assert Justified(s.log[r.frame.Key()], r.frame.Key(), s.streamId);
    }
  }

  // ── and the other way round ──

  /** The log a file stands for. */
  ghost function LogOf(d: Durable): Log
    requires Trusted(d)
  {
    SameKeySameFrame(d);
    (map f | f in d.frames :: f.Key() := Entry(f, Live))
    + (map r | r in d.rejected :: r.frame.Key() := Entry(r.frame, DeadLettered(r.ack)))
  }

  lemma SameKeySameFrame(d: Durable)
    requires Trusted(d)
    ensures forall f, g :: f in d.frames && g in d.frames && f.Key() == g.Key() ==> f == g
    ensures forall r, q :: r in d.rejected && q in d.rejected && r.frame.Key() == q.frame.Key() ==> r == q
    ensures forall f, r :: f in d.frames && r in d.rejected ==> f.Key() != r.frame.Key()
  {
    var frames, rows := d.frames, RowFrames(d.rejected);
    var all := frames + rows;
    forall f, g | f in d.frames && g in d.frames && f.Key() == g.Key() ensures f == g {
      var i :| 0 <= i < |frames| && frames[i] == f;
      var j :| 0 <= j < |frames| && frames[j] == g;
      assert all[i] == f && all[j] == g;
    }
    forall r, q | r in d.rejected && q in d.rejected && r.frame.Key() == q.frame.Key() ensures r == q {
      var i :| 0 <= i < |rows| && d.rejected[i] == r;
      var j :| 0 <= j < |rows| && d.rejected[j] == q;
      assert all[|frames| + i] == r.frame && all[|frames| + j] == q.frame;
    }
    forall f, r | f in d.frames && r in d.rejected ensures f.Key() != r.frame.Key() {
      var i :| 0 <= i < |frames| && frames[i] == f;
      var j :| 0 <= j < |rows| && d.rejected[j] == r;
      assert all[i] == f && all[|frames| + j] == r.frame;
    }
  }

  lemma LogOfMeans(d: Durable)
    requires Trusted(d)
    ensures forall f :: f in d.frames ==> f.Key() in LogOf(d) && LogOf(d)[f.Key()] == Entry(f, Live)
    ensures forall r :: r in d.rejected ==>
      r.frame.Key() in LogOf(d) && LogOf(d)[r.frame.Key()] == Entry(r.frame, DeadLettered(r.ack))
    ensures forall k :: k in LogOf(d) ==> FromFile(d, k, LogOf(d)[k])
  {
    hide Trusted;
    SameKeySameFrame(d);
  }

  /** The entry is that of a frame of the outbox or of a row of the dead-letter. */
  ghost predicate FromFile(d: Durable, k: Key, e: Entry) {
    && e.frame.Key() == k
    && match e.fate
       case Live => e.frame in d.frames
       case DeadLettered(v) => Row(e.frame, v) in d.rejected
       case _ => false
  }

  ghost function Restored(d: Durable, id: Id): State
    requires Trusted(d)
  {
    State(d, d, id, 1, OPEN, [], {}, {}, None, None, map[], {}, LogOf(d),
          {id} + set k | k in LogOf(d) :: k.streamId)
  }

  lemma RestoredOutbox(d: Durable)
    requires Loadable(d) && Trusted(d)
    ensures OutboxOk(d.frames, LogOf(d))
  {
    hide LogOf, Trusted;
    LogOfMeans(d);
    assert forall k :: k in LogOf(d) ==> FromFile(d, k, LogOf(d)[k]);
  }

  lemma RestoredDeadLetter(d: Durable)
    requires Trusted(d)
    ensures DeadLetterOk(d.rejected, LogOf(d))
  {
    RowsDiffer(d);
    hide LogOf, Trusted;
    LogOfMeans(d);
    assert forall k :: k in LogOf(d) ==> FromFile(d, k, LogOf(d)[k]);
  }

  lemma RowsDiffer(d: Durable)
    requires Trusted(d)
    ensures forall i, j :: 0 <= i < j < |d.rejected| ==> d.rejected[i].frame.Key() != d.rejected[j].frame.Key()
  {
    var all := d.frames + RowFrames(d.rejected);
    forall i, j | 0 <= i < j < |d.rejected| ensures d.rejected[i].frame.Key() != d.rejected[j].frame.Key() {
      assert all[|d.frames| + i] == d.rejected[i].frame && all[|d.frames| + j] == d.rejected[j].frame;
    }
  }

  lemma RestoredEntries(d: Durable, id: Id, k: Key)
    requires Loadable(d) && Trusted(d) && k in LogOf(d)
    ensures var e := LogOf(d)[k]; e.frame.Key() == k && ValidFrame(e.frame) && Justified(e, k, id)
    ensures HeldResult(LogOf(d), k) ==> LogOf(d)[k].frame.payload.corr in ResultCorrs(d)
    ensures LogOf(d)[k].frame in d.frames + RowFrames(d.rejected)
  {
    hide LogOf;
    LogOfMeans(d);
    assert FromFile(d, k, LogOf(d)[k]);
    InAll(d, LogOf(d)[k].frame);
  }

  lemma RestoredResults(d: Durable, id: Id)
    requires Loadable(d) && Trusted(d)
    ensures ResultsUnique(LogOf(d)) && InboxOk(d, LogOf(d))
  {
    hide LogOf;
    var log := LogOf(d);
    forall k | k in log
      ensures log[k].frame.Key() == k && log[k].frame in d.frames + RowFrames(d.rejected)
      ensures HeldResult(log, k) ==> log[k].frame.payload.corr in ResultCorrs(d)
    {
      RestoredEntries(d, id, k);
    }
  }

  ghost predicate Unused(d: Durable, id: Id) {
    (forall f :: f in d.frames ==> f.streamId != id) && (forall r :: r in d.rejected ==> r.frame.streamId != id)
  }

  lemma RestoredIds(d: Durable, id: Id)
    requires Loadable(d) && Trusted(d) && ValidStreamId(id) && Unused(d, id)
    ensures IdsOk(Restored(d, id)) && FatesOk(Restored(d, id))
  {
    hide LogOf, Trusted, Loadable;
    var s := Restored(d, id);
    LogOfMeans(d);
    forall k | k in s.log
      ensures s.log[k].frame.Key() == k && k.streamId in s.used && ValidFrame(s.log[k].frame)
      ensures Justified(s.log[k], k, id) && k.streamId != id
    {
      RestoredEntries(d, id, k);
      assert FromFile(d, k, s.log[k]);
    }
  }

  lemma RestoredIsSound(d: Durable, id: Id)
    requires Loadable(d) && Trusted(d) && ValidStreamId(id) && Unused(d, id)
    ensures Sound(Restored(d, id))
  {
    hide LogOf, Trusted, IdsOk, FatesOk, OutboxOk, DeadLetterOk, ResultsUnique, InboxOk;
    RestoredIds(d, id);
    RestoredOutbox(d);
    RestoredDeadLetter(d);
    RestoredResults(d, id);
  }

  /** Exactly the files that load and deserve the trust are files a sound state could have written. */
  lemma AcceptedFilesExactly(d: Durable, id: Id)
    requires ValidStreamId(id) && Unused(d, id)
    ensures Recordable(d, id) <==> Loadable(d) && Trusted(d)
  {
    hide Sound, Loadable, Trusted;
    if Recordable(d, id) {
      var s: State :| Sound(s) && s.mem == d && s.disk == d && s.streamId == id;
      SoundFilesLoad(s);
      RecordableIsTrusted(s);
    }
    if Loadable(d) && Trusted(d) {
      RestoredIsSound(d, id);
      assert Restored(d, id).mem == d;
    }
  }

  /** The trust is not checked: a frame that waits and is buried at the same time loads. */
  lemma LoadableIsNotEnough(f: Frame, id: Id)
    requires ValidFrame(f) && ValidStreamId(id) && f.streamId != id
    ensures var d := Durable([f], [Row(f, None)], map[], map[]);
      Loadable(d) && !Recordable(d, id)
  {
    var d := Durable([f], [Row(f, None)], map[], map[]);
    assert d.rejected[0] == Row(f, None) && !Condemned(d.rejected[0]);
    AcceptedFilesExactly(d, id);
  }
}

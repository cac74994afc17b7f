/** Conservation and order: no frame is lost, duplicated or reordered, over every run with crashes, failed
    writes and an adversarial server. */
module Conservation {
  import opened Basics
  import opened Frames
  import opened Admission
  import opened StreamState
  import opened Soundness
  import opened SenderCycle
  import opened StreamRuns

  ghost predicate InOutbox(d: Durable, k: Key) {
    exists f :: f in d.frames && f.Key() == k
  }

  ghost predicate InDeadLetter(d: Durable, k: Key) {
    exists r :: r in d.rejected && r.frame.Key() == k
  }

  /** Every frame ever durably appended is in exactly one place. */
  ghost predicate Conserved(s: State) {
    && (forall k :: InOutbox(s.disk, k) <==> k in s.log && s.log[k].fate.Live?)
    && (forall k :: InDeadLetter(s.disk, k) <==> k in s.log && s.log[k].fate.DeadLettered?)
    && Distinct(s.disk.frames)
    && (forall i, j :: 0 <= i < j < |s.disk.rejected| ==>
          s.disk.rejected[i].frame.Key() != s.disk.rejected[j].frame.Key())
    && (forall k :: k in s.log ==> Justified(s.log[k], k, s.streamId))
  }

  lemma SoundConserves(s: State)
    requires Sound(s)
    ensures Conserved(s)
  {
    forall k
      ensures InOutbox(s.disk, k) <==> k in s.log && s.log[k].fate.Live?
      ensures InDeadLetter(s.disk, k) <==> k in s.log && s.log[k].fate.DeadLettered?
    {
      if k in s.log && s.log[k].fate.Live? {
        assert s.log[k].frame in s.disk.frames;
      }
      if k in s.log && s.log[k].fate.DeadLettered? {
        assert Row(s.log[k].frame, s.log[k].fate.verdict) in s.disk.rejected;
      }
    }
  }

  /** Over every run from an empty volume, whatever the server answers and whichever writes fail: every frame
      ever appended is in exactly one place and for a reason, memory agrees with the file on every frame, and
      the file is one the next start-up accepts. */
  lemma EveryRunConserves(newId: Id, run: seq<Label>)
    requires ValidStreamId(newId) && Possible(Start(newId), run)
    ensures var s := After(Start(newId), run).s;
      && Conserved(s)
      && s.mem.frames == s.disk.frames && s.mem.rejected == s.disk.rejected
      && Loadable(s.disk)
  {
    StartIsOk(newId);
    Run(Start(newId), run);
    SoundConserves(After(Start(newId), run).s);
    SoundFilesLoad(After(Start(newId), run).s);
  }

  /** What a run has appended it never forgets, and a frame that left the outbox never comes back. */
  lemma LeavingIsForever(y: System, run: seq<Label>, k: Key)
    requires SystemOk(y) && Possible(y, run) && k in y.s.log && !y.s.log[k].fate.Live?
    ensures k in After(y, run).s.log && After(y, run).s.log[k] == y.s.log[k]
    ensures !InOutbox(After(y, run).s.disk, k)
  {
    Run(y, run);
    SoundConserves(After(y, run).s);
  }

  // ── who may remove a frame ──

  /** Outside a restart only the head leaves, only through a settlement of that very frame, and it is retired
      only by a settlement that accepts it. */
  lemma OnlyTheHeadLeaves(y: System, l: Label, k: Key)
    requires SystemOk(y) && Enabled(y, l) && !l.Restart?
    ensures Leaves(y, l, k) ==>
      && y.s.mem.frames != [] && y.s.mem.frames[0].Key() == k
      && Settles(l) && y.held == Some(y.s.mem.frames[0])
      && (Next(y, l).s.log[k].fate.Retired? ==> l.SettleKnown? && k in y.known && y.known[k].disp.Accepted?)
  {
    if Leaves(y, l, k) {
      Step(y, l);
      assert y.s.log[k].frame in y.s.mem.frames;
      if Appends(l) {
        AppendingKeepsFates(y, l);
      } else if !Settles(l) {
        QuietStep(y, l);
      } else {
        SettlingTouchesOnlyTheHeld(y, l, k);
      }
    }
  }

  /** The step takes the frame out of the outbox. */
  ghost predicate Leaves(y: System, l: Label, k: Key)
    requires Enabled(y, l)
  {
    && k in y.s.log && y.s.log[k].fate.Live?
    && k in Next(y, l).s.log && !Next(y, l).s.log[k].fate.Live?
  }

  ghost predicate OnlyAdds(s: State, t: State) {
    forall k :: k in s.log ==> k in t.log && t.log[k] == s.log[k]
  }

  lemma AppendOnlyAdds(s: State, p: Payload, probe: bool, write: bool)
    requires IdsOk(s)
    ensures OnlyAdds(s, Append(s, p, probe, write).0)
  {
    var s1 := if s.adm.storage.Some? then Persisted(s) else s;
    AppendRecoveredOnlyAdds(s1, p, write);
    OnlyAddsFrom(s, s1, AppendRecovered(s1, p, write).0);
  }

  lemma AppendRecoveredOnlyAdds(s: State, p: Payload, write: bool)
    requires IdsOk(s)
    ensures OnlyAdds(s, AppendRecovered(s, p, write).0)
  {
  }

  lemma OnlyAddsFrom(s: State, s1: State, t: State)
    requires s1.log == s.log && OnlyAdds(s1, t)
    ensures OnlyAdds(s, t)
  {
  }

  lemma AppendingKeepsFates(y: System, l: Label)
    requires SystemOk(y) && Enabled(y, l) && Appends(l)
    ensures OnlyAdds(y.s, Next(y, l).s)
  {
    if l.AppendFrame? {
      AppendOnlyAdds(y.s, l.p, l.probe, l.write);
    } else if l.Deliver? {
      DeliverOnlyAdds(y.s, l.id, l.job, l.d, l.receipt, l.inboxWrite, l.probe, l.write);
    }
  }

  lemma DeliverOnlyAdds(s: State, id: Id, job: Job, d: Delivery, ack: bool, inboxWrite: bool, probe: bool, write: bool)
    requires IdsOk(s)
    ensures OnlyAdds(s, AcceptJob(s, id, job, d, ack, inboxWrite, probe, write).0)
  {
    hide Append;
    var p := Receipt(id, d);
    if id in ResultCorrs(s.mem) {
      AppendOnlyAdds(s, p, probe, write);
    } else if id in s.mem.inbox {
      var s1 := Persisted(WithDelivery(s, id, d));
      AppendOnlyAdds(s1, p, probe, write);
      OnlyAddsFrom(s, s1, Append(s1, p, probe, write).0);
    } else {
      var s1 := Persisted(WithJob(s, id, job, d));
      AppendOnlyAdds(s1, p, probe, write);
      OnlyAddsFrom(s, s1, Append(s1, p, probe, write).0);
    }
  }

  /** A settlement seals the fate of no frame but the one it settles, and retires only what it accepts. */
  lemma SettleTouchesOnly(s: State, f: Frame, disp: Disposition, ack: Option<Ack>, write: bool, release: bool, k: Key)
    requires Sound(s) && Logged(s, f) && (disp.Accepted? ==> ack.Some?)
    requires k in s.log && s.log[k].fate.Live?
    requires var t := Settle(s, f, disp, ack, write, release).0; k in t.log && !t.log[k].fate.Live?
    ensures s.mem.frames != [] && s.mem.frames[0] == f && k == f.Key()
    ensures Settle(s, f, disp, ack, write, release).0.log[k].fate.Retired? ==> disp.Accepted?
  {
    hide Sound, Settle;
    if AtHead(s, f.Key()) {
      HeadIsTheFrame(s, f);
      HeadSettlement(s, disp, ack, write, release);
    } else {
      SettleElsewhere(s, f, disp, ack, write, release);
    }
  }

  /** A settlement of the head leaves every other entry of the log as it was, and retires only what it accepts. */
  lemma HeadSettlement(s: State, disp: Disposition, ack: Option<Ack>, write: bool, release: bool)
    requires s.mem.frames != [] && (disp.Accepted? ==> ack.Some?)
    ensures var f := s.mem.frames[0];
      var t := Settle(s, f, disp, ack, write, release).0;
      SealsOnly(s, t, f.Key(), disp.Accepted?)
  {
    hide SettleReport, SettleAccepted, SettleRefused;
    var u := Unmark(s, s.mem.frames[0].Key());
    ReportSealsOnly(u, write);
    if disp.Accepted? {
      AcceptedSealsOnly(u, ack.value, write);
    }
    RefusedSealsOnly(u, disp, ack, write, release);
  }

  ghost predicate SealsOnly(s: State, t: State, key: Key, mayRetire: bool) {
    && (forall k :: k in s.log && k != key ==> k in t.log && (s.log[k].fate.Live? ==> t.log[k].fate.Live?))
    && (key in s.log && s.log[key].fate.Live? && key in t.log && t.log[key].fate.Retired? ==> mayRetire)
  }

  lemma ReportSealsOnly(s: State, write: bool)
    requires s.mem.frames != []
    ensures SealsOnly(s, SettleReport(s, s.mem.frames[0].Key(), write).0, s.mem.frames[0].Key(), false)
  {
  }

  lemma AcceptedSealsOnly(s: State, ack: Ack, write: bool)
    requires s.mem.frames != []
    ensures SealsOnly(s, SettleAccepted(s, s.mem.frames[0], ack, write).0, s.mem.frames[0].Key(), true)
  {
  }

  lemma RefusedSealsOnly(s: State, disp: Disposition, ack: Option<Ack>, write: bool, release: bool)
    requires s.mem.frames != []
    ensures SealsOnly(s, SettleRefused(s, s.mem.frames[0], disp, ack, write, release).0, s.mem.frames[0].Key(), false)
  {
  }

  /** A settlement whose frame is no longer at the head changes no fate at all. */
  lemma SettleElsewhere(s: State, f: Frame, disp: Disposition, ack: Option<Ack>, write: bool, release: bool)
    requires !AtHead(s, f.Key()) && (disp.Accepted? ==> ack.Some?)
    ensures Settle(s, f, disp, ack, write, release).0.log == s.log
  {
  }

  lemma SettlingTouchesOnlyTheHeld(y: System, l: Label, k: Key)
    requires SystemOk(y) && Enabled(y, l) && Settles(l) && Leaves(y, l, k)
    ensures y.s.mem.frames != [] && y.held == Some(y.s.mem.frames[0]) && y.s.mem.frames[0].Key() == k
    ensures Next(y, l).s.log[k].fate.Retired? ==> l.SettleKnown? && k in y.known && y.known[k].disp.Accepted?
  {
    var f := y.held.value;
    match l {
      case SettleKnown(write, release) =>
        SettleTouchesOnly(y.s, f, y.known[f.Key()].disp, Some(y.known[f.Key()].ack), write, release, k);
      case DropReport(write) => SettleTouchesOnly(y.s, f, Abandoned, None, write, true, k);
      case Exhaust(write) => ExhaustTouchesOnly(y.s, f, write, k);
    }
  }

  lemma ExhaustTouchesOnly(s: State, f: Frame, write: bool, k: Key)
    requires Sound(s) && Logged(s, f) && k in s.log && s.log[k].fate.Live?
    requires var t := ExhaustState(s, f, write).0; k in t.log && !t.log[k].fate.Live?
    ensures s.mem.frames != [] && s.mem.frames[0] == f && k == f.Key()
    ensures !ExhaustState(s, f, write).0.log[k].fate.Retired?
  {
    CountAttemptKeeps(s, f);
    if Attempts(s, f.Key()) + 1 > DELIVERY_PENDING_MAX_ATTEMPTS {
      SettleTouchesOnly(CountAttempt(s, f.Key()), f, Abandoned, Some(CapAck(f.Key())), write, true, k);
    } else {
      SettleTouchesOnly(CountAttempt(s, f.Key()), f, Pending, None, write, true, k);
    }
  }

  /** A result whose acknowledgement is settled is replaced, in the same durable write, by exactly one
      acknowledgement event at the very tail. */
  lemma RetiredResultLeavesOneEvent(y: System, release: bool)
    requires SystemOk(y) && Enabled(y, SettleKnown(true, release))
    requires y.known[y.held.value.Key()].disp.Accepted? && AtHead(y.s, y.held.value.Key())
    requires y.held.value.payload.Result?
    ensures var t := Next(y, SettleKnown(true, release)).s;
      var head := y.held.value;
      && t.disk.frames == y.s.disk.frames[1..] + [Frame(y.s.streamId, y.s.next, ResultAcked(head.payload))]
      && t.log[head.Key()].fate == Retired(y.known[head.Key()].ack)
      && forall k :: k in t.log && k !in y.s.log ==> k == KeyOf(y.s.streamId, y.s.next)
  {
    HeadIsTheFrame(y.s, y.held.value);
  }

  // ── order ──

  ghost predicate Before(frames: seq<Frame>, f: Frame, g: Frame) {
    exists i, j :: 0 <= i < j < |frames| && frames[i] == f && frames[j] == g
  }

  lemma {:induction false} DropBootsKeepsOrder(frames: seq<Frame>, f: Frame, g: Frame)
    requires Before(frames, f, g) && !IsBoot(f) && !IsBoot(g)
    ensures Before(DropBoots(frames), f, g)
  {
    var i, j :| 0 <= i < j < |frames| && frames[i] == f && frames[j] == g;
    var rest := DropBoots(frames[1..]);
    if i == 0 {
      DropBootsKeeps(frames[1..]);
      assert frames[1..][j - 1] == g;
      InFront(rest, f, g);
    } else {
      assert frames[1..][i - 1] == f && frames[1..][j - 1] == g;
      DropBootsKeepsOrder(frames[1..], f, g);
      if IsBoot(frames[0]) {
        assert [] + rest == rest;
      } else {
        OneMoreInFront(rest, frames[0], f, g);
      }
    }
  }

  lemma InFront(rest: seq<Frame>, f: Frame, g: Frame)
    requires g in rest
    ensures Before([f] + rest, f, g)
  {
    var n :| 0 <= n < |rest| && rest[n] == g;
    assert ([f] + rest)[0] == f && ([f] + rest)[n + 1] == g;
  }

  lemma OneMoreInFront(rest: seq<Frame>, x: Frame, f: Frame, g: Frame)
    requires Before(rest, f, g)
    ensures Before([x] + rest, f, g)
  {
    var more := [x] + rest;
    assert more[1..1 + |rest|] == rest;
    SliceKeepsOrder(more, 1, 1 + |rest|, f, g);
  }

  lemma SliceKeepsOrder(b: seq<Frame>, lo: nat, hi: nat, f: Frame, g: Frame)
    requires lo <= hi <= |b| && Before(b[lo..hi], f, g)
    ensures Before(b, f, g)
  {
    var i, j :| 0 <= i < j < hi - lo && b[lo..hi][i] == f && b[lo..hi][j] == g;
    assert b[lo + i] == f && b[lo + j] == g;
  }

  lemma TailKeepsOrder(a: seq<Frame>, f: Frame, g: Frame)
    requires Before(a, f, g) && f != a[0]
    ensures Before(a[1..], f, g)
  {
    var i, j :| 0 <= i < j < |a| && a[i] == f && a[j] == g;
    assert a[1..][i - 1] == f && a[1..][j - 1] == g;
  }

  /** A frame that is still there was not the head that left. */
  lemma SurvivorIsNotTheHead(s: State, t: State, f: Frame)
    requires Sound(s) && s.mem.frames != [] && f in s.mem.frames && f in t.mem.frames
    requires forall g :: g in t.mem.frames ==> g in s.mem.frames[1..] || g.Key() !in s.log
    ensures f != s.mem.frames[0]
  {
    var i :| 0 <= i < |s.mem.frames[1..]| && s.mem.frames[1..][i] == f;
    assert s.mem.frames[i + 1].Key() != s.mem.frames[0].Key();
  }

  lemma GrowthKeepsOrder(a: seq<Frame>, b: seq<Frame>, lo: nat, f: Frame, g: Frame)
    requires lo + |a| <= |b| && b[lo..lo + |a|] == a && Before(a, f, g)
    ensures Before(b, f, g)
  {
    SliceKeepsOrder(b, lo, lo + |a|, f, g);
  }

  lemma ShrinkKeepsOrder(s: State, t: State, f: Frame, g: Frame)
    requires Sound(s) && s.mem.frames != [] && Before(s.mem.frames, f, g) && f in s.mem.frames && f in t.mem.frames
    requires var n := |s.mem.frames| - 1;
      && n <= |t.mem.frames| <= n + 1 && t.mem.frames[..n] == s.mem.frames[1..]
      && (|t.mem.frames| == n + 1 ==> t.mem.frames[n].Key() !in s.log)
    ensures Before(t.mem.frames, f, g)
  {
    var n := |s.mem.frames| - 1;
    var b := t.mem.frames;
    forall x | x in b
      ensures x in s.mem.frames[1..] || x.Key() !in s.log
    {
      var i :| 0 <= i < |b| && b[i] == x;
      assert i < n ==> b[..n][i] == x;
    }
    SurvivorIsNotTheHead(s, t, f);
    TailKeepsOrder(s.mem.frames, f, g);
    SliceKeepsOrder(b, 0, n, f, g);
  }

  lemma MoveKeepsOrder(s: State, t: State, f: Frame, g: Frame)
    requires Sound(s) && OutboxMoves(s, t)
    requires Before(s.mem.frames, f, g) && f in s.mem.frames && f in t.mem.frames
    ensures Before(t.mem.frames, f, g)
  {
    hide Sound;
    var a, b := s.mem.frames, t.mem.frames;
    if |b| == |a| + 1 && b[1..] == a {
      assert b[1..1 + |a|] == b[1..];
      GrowthKeepsOrder(a, b, 1, f, g);
    } else if |b| == |a| + 1 {
      assert b[0..|a|] == b[..|a|];
      GrowthKeepsOrder(a, b, 0, f, g);
    } else if b != a {
      assert b[..|a| - 1] == a[1..];
      ShrinkKeepsOrder(s, t, f, g);
    }
  }

  lemma StepKeepsOrder(y: System, l: Label, f: Frame, g: Frame)
    requires SystemOk(y) && Enabled(y, l)
    requires Before(y.s.mem.frames, f, g)
    requires f in Next(y, l).s.mem.frames && g in Next(y, l).s.mem.frames
    ensures Before(Next(y, l).s.mem.frames, f, g)
  {
    hide MemoryOk;
    Step(y, l);
    if l.Restart? {
      DropBootsKeeps(y.s.mem.frames);
      DropBootsKeepsOrder(y.s.mem.frames, f, g);
    } else {
      assert f in y.s.mem.frames;
      MoveKeepsOrder(y.s, Next(y, l).s, f, g);
    }
  }

  /** Two frames that wait together are never reordered, however the run goes on. */
  lemma {:induction false} OrderIsKept(y: System, run: seq<Label>, f: Frame, g: Frame)
    requires SystemOk(y) && Possible(y, run)
    requires Before(y.s.mem.frames, f, g)
    requires f in After(y, run).s.mem.frames && g in After(y, run).s.mem.frames
    ensures Before(After(y, run).s.mem.frames, f, g)
    decreases |run|
  {
    if run != [] {
      var z := Next(y, run[0]);
      Step(y, run[0]);
      Run(z, run[1..]);
      forall x | x in {f, g}
        ensures x in z.s.mem.frames
      {
        assert x in y.s.mem.frames;
        assert z.s.log[x.Key()].frame == x;
        assert After(z, run[1..]).s.log[x.Key()].fate.Live?;
        assert z.s.log[x.Key()].fate.Live?;
      }
      StepKeepsOrder(y, run[0], f, g);
      OrderIsKept(z, run[1..], f, g);
    }
  }
}

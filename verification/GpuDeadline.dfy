/** The park deadline, priced once at entry, is enough for up to four operations ahead, and for no more. */
module GpuDeadline {
  import opened Basics
  import opened GpuLedger
  import opened GpuRuns

  /** Every admitted operation releases within its ceiling, and time never passes while the head of the queue
      could be admitted. */
  predicate Orderly(y: System, l: Label) {
    l.Tick? ==>
      && (y.b.queue != [] ==> !Fits(y.b, y.b.queue[0]))
      && (forall r :: r in y.b.live ==> y.now + l.seconds < r.since + OP_CEILING)
  }

  predicate OrderlyRun(y: System, run: seq<Label>)
    requires Possible(y, run)
    decreases |run|
  {
    run == [] || (Orderly(y, run[0]) && OrderlyRun(Next(y, run[0]), run[1..]))
  }

  /** The latest time by which all but `m` of the operations ahead of a waiter are over. */
  function Due(w: Waiter, m: int): real {
    w.entered + (w.load - m) as real * OP_CEILING
  }

  /** With `m` operations still ahead of a waiter, one of the live ones was admitted by the time due, or none is
      live and that time has not come. */
  ghost predicate OnTime(b: Book, now: real, w: Waiter, m: int) {
    && m <= w.load
    && w.entered <= now
    && if b.live == [] then now <= Due(w, m) else exists r :: r in b.live && r.since <= Due(w, m)
  }

  ghost predicate Timely(y: System) {
    && (forall r :: r in y.b.live ==> r.since <= y.now < r.since + OP_CEILING)
    && (forall i :: 0 <= i < |y.b.queue| ==> OnTime(y.b, y.now, y.b.queue[i], i + |y.b.live|))
    && (forall w :: w in y.b.queue && w.priced ==> w.deadline == w.entered + ParkDeadline(w.load))
    && (forall w :: w in y.timedOut && w.priced ==> w.load > 4)
  }

  // ── steps ──

  lemma FewerAhead(b: Book, now: real, w: Waiter, m: int, fewer: int)
    requires OnTime(b, now, w, m) && fewer <= m
    ensures OnTime(b, now, w, fewer)
  {
    assert Due(w, m) <= Due(w, fewer);
    if b.live != [] {
      var r :| r in b.live && r.since <= Due(w, m);
      assert r.since <= Due(w, fewer);
    }
  }

  /** Where the waiters stand once one of them has left. */
  lemma Survivors(y: System, w: Waiter) returns (i: nat)
    requires Ok(y) && w in y.b.queue
    ensures i < |y.b.queue| && y.b.queue[i] == w
    ensures var rest := WithoutWaiter(y.b.queue, w.token);
      && |rest| == |y.b.queue| - 1
      && forall j :: 0 <= j < |rest| ==> rest[j] == y.b.queue[if j < i then j else j + 1]
  {
    i :| 0 <= i < |y.b.queue| && y.b.queue[i] == w;
    QueueWithout(y.admitted, y.b.queue, i);
  }

  lemma WithdrawTimely(y: System, w: Waiter)
    requires Ok(y) && Timely(y) && w in y.b.queue
    ensures Timely(y.(b := Withdraw(y.b, w.token)))
  {
    var i := Survivors(y, w);
    var z := y.(b := Withdraw(y.b, w.token));
    forall j | 0 <= j < |z.b.queue| ensures OnTime(z.b, z.now, z.b.queue[j], j + |z.b.live|) {
      var k := if j < i then j else j + 1;
      FewerAhead(y.b, y.now, y.b.queue[k], k + |y.b.live|, j + |y.b.live|);
    }
  }

  lemma ReleaseTimely(y: System, token: Token)
    requires Ok(y) && Timely(y)
    ensures Timely(Next(y, GiveBack(token)))
  {
    ReleaseKeeps(y.b.live, token);
    var z := Next(y, GiveBack(token));
    if z.b != y.b {
      forall i | 0 <= i < |z.b.queue| ensures OnTime(z.b, z.now, z.b.queue[i], i + |z.b.live|) {
        var w := y.b.queue[i];
        assert OnTime(y.b, y.now, w, i + |y.b.live|);
        var r :| r in y.b.live && r.since <= Due(w, i + |y.b.live|);
        assert y.now < Due(w, i + |z.b.live|);
        if z.b.live != [] {
          assert z.b.live[0] in z.b.live && z.b.live[0].since <= y.now;
        }
      }
    }
  }

  lemma AdmitTimely(y: System)
    requires Ok(y) && Timely(y) && y.b.queue != []
    ensures Timely(y.(b := Admit(y.b, y.now)))
  {
    var b := Admit(y.b, y.now);
    var newest := b.live[|y.b.live|];
    forall i | 0 <= i < |b.queue| ensures OnTime(b, y.now, b.queue[i], i + |b.live|) {
      var w := y.b.queue[i + 1];
      assert OnTime(y.b, y.now, w, i + 1 + |y.b.live|);
      if y.b.live == [] {
        assert newest in b.live && newest.since <= Due(w, i + |b.live|);
      } else {
        var r :| r in y.b.live && r.since <= Due(w, i + 1 + |y.b.live|);
        assert r in b.live;
      }
    }
  }

  lemma JoinTimely(y: System, wants: Option<real>, quote: real, limit: Option<real>)
    requires Timely(y) && quote in y.quotes
    ensures Timely(Next(y, Join(wants, quote, limit)))
  {
    var z := Next(y, Join(wants, quote, limit));
    var n := |y.b.queue|;
    forall i | 0 <= i < |z.b.queue| ensures OnTime(z.b, z.now, z.b.queue[i], i + |z.b.live|) {
      if i < n {
        assert OnTime(y.b, y.now, y.b.queue[i], i + |y.b.live|);
      } else if y.b.live != [] {
        assert y.b.live[0] in z.b.live;
      }
    }
  }

  lemma TickTimely(y: System, seconds: real)
    requires Ok(y) && Timely(y) && seconds > 0.0 && Orderly(y, Tick(seconds))
    ensures Timely(Next(y, Tick(seconds)))
  {
    var z := Next(y, Tick(seconds));
    forall i | 0 <= i < |z.b.queue| ensures OnTime(z.b, z.now, z.b.queue[i], i + |z.b.live|) {
      assert OnTime(y.b, y.now, y.b.queue[i], i + |y.b.live|);
      assert Fair(y.b.queue[0], y.quotes);
    }
  }

  /** A waiter whose deadline has come, that was priced behind at most four operations, can be admitted. */
  lemma DeadlineIsEnough(y: System, i: nat)
    requires Ok(y) && Timely(y) && i < |y.b.queue|
    requires var w := y.b.queue[i]; w.priced && w.load <= 4 && w.deadline <= y.now
    ensures i == 0 && y.b.live == [] && y.b.queue[0].deadline == y.now && Fits(y.b, y.b.queue[0])
  {
    var w := y.b.queue[i];
    assert OnTime(y.b, y.now, w, i + |y.b.live|) && Fair(w, y.quotes) && w in y.b.queue;
  }

  lemma TurnTimely(y: System, w: Waiter)
    requires Ok(y) && Timely(y) && w in y.b.queue
    ensures Timely(Next(y, Turn(w)))
  {
    match Wake(y.b, w, y.now).1
    case Admitted => AdmitTimely(y);
    case TimedOut =>
      WithdrawTimely(y, w);
      if w.priced && w.load <= 4 {
        var i :| 0 <= i < |y.b.queue| && y.b.queue[i] == w;
        DeadlineIsEnough(y, i);
      }
    case _ =>
  }

  lemma TimelyStep(y: System, l: Label)
    requires Ok(y) && Timely(y) && Enabled(y, l) && Orderly(y, l)
    ensures Timely(Next(y, l))
  {
    match l
    case Join(wants, quote, limit) => JoinTimely(y, wants, quote, limit);
    case Turn(w) => TurnTimely(y, w);
    case Abandon(w) => WithdrawTimely(y, w);
    case GiveBack(token) => ReleaseTimely(y, token);
    case Tick(seconds) => TickTimely(y, seconds);
    case _ =>
      assert Next(y, l).b.queue == y.b.queue && Next(y, l).b.live == y.b.live;
      assert forall i :: 0 <= i < |y.b.queue| ==> OnTime(y.b, y.now, y.b.queue[i], i + |y.b.live|);
  }

  lemma {:induction false} TimelyRun(y: System, run: seq<Label>)
    requires Ok(y) && Timely(y) && Possible(y, run) && OrderlyRun(y, run)
    ensures Ok(After(y, run)) && Timely(After(y, run))
    decreases |run|
  {
    if run != [] {
      StepKeeps(y, run[0]);
      TimelyStep(y, run[0]);
      TimelyRun(Next(y, run[0]), run[1..]);
    }
  }

  /** Whatever the needs and whoever withdraws: a request priced behind at most four operations never times out,
      and while it is parked its deadline has not passed; when the deadline comes it can be admitted at once. */
  lemma PricedDeadlineSuffices(given: Option<real>, run: seq<Label>)
    requires Possible(Start(given), run) && OrderlyRun(Start(given), run)
    ensures var z := After(Start(given), run);
      && (forall w :: w in z.timedOut && w.priced ==> w.load > 4)
      && (forall w :: w in z.b.queue && w.priced && w.load <= 4 ==>
            z.now <= w.deadline && (z.now == w.deadline ==> Admissible(z.b, w.token)))
  {
    TimelyRun(Start(given), run);
    var z := After(Start(given), run);
    forall w | w in z.b.queue && w.priced && w.load <= 4
      ensures z.now <= w.deadline && (z.now == w.deadline ==> Admissible(z.b, w.token))
    {
      var i :| 0 <= i < |z.b.queue| && z.b.queue[i] == w;
      if w.deadline <= z.now {
        DeadlineIsEnough(z, i);
      }
    }
  }

  // ── five ahead are too many ──

  /** Some memory is held by operations admitted just now, and every waiter wants the whole budget. */
  ghost predicate Packed(y: System, mib: real) {
    && mib > 0.0 && Reserved(y.b.live) > 0.0
    && (forall r :: r in y.b.live ==> r.since == y.now)
    && (forall w :: w in y.b.queue ==> w.need == mib && w.budget == mib)
    && (forall i, j :: 0 <= i < j < |y.b.queue| ==> y.b.queue[i].token != y.b.queue[j].token)
  }

  lemma {:induction false} Chain(y: System, first: seq<Label>, rest: seq<Label>)
    requires Possible(y, first) && OrderlyRun(y, first)
    requires Possible(After(y, first), rest) && OrderlyRun(After(y, first), rest)
    ensures Possible(y, first + rest) && OrderlyRun(y, first + rest)
    ensures After(y, first + rest) == After(After(y, first), rest)
    decreases |first|
  {
    if first == [] {
      assert first + rest == rest;
    } else {
      assert (first + rest)[1..] == first[1..] + rest;
      Chain(Next(y, first[0]), first[1..], rest);
    }
  }

  lemma One(y: System, l: Label)
    requires Enabled(y, l) && Orderly(y, l)
    ensures Possible(y, [l]) && OrderlyRun(y, [l]) && After(y, [l]) == Next(y, l)
  {
    assert [l][1..] == [];
  }

  /** All running operations end. */
  lemma {:induction false} ReleaseAll(y: System) returns (run: seq<Label>)
    ensures Possible(y, run) && OrderlyRun(y, run) && After(y, run) == y.(b := y.b.(live := []))
    decreases |y.b.live|
  {
    if y.b.live == [] {
      run := [];
    } else {
      var l := GiveBack(y.b.live[|y.b.live| - 1].token);
      var z := Next(y, l);
      assert z.b.live == y.b.live[..|y.b.live| - 1];
      var rest := ReleaseAll(z);
      One(y, l);
      Chain(y, [l], rest);
      run := [l] + rest;
    }
  }

  lemma ReservedByOne(r: Lease)
    ensures Reserved([r]) == r.need
  {
    assert [r][..0] == [];
  }

  lemma FirstOfQueue(y: System, mib: real)
    requires mib > 0.0 && y.b.live == [] && y.b.queue != []
    requires y.b.queue[0].need == mib && y.b.queue[0].budget == mib
    ensures var w := y.b.queue[0];
      var z := Next(y, Turn(w));
      && z.b.queue == y.b.queue[1..] && z.now == y.now && z.b.live == [Lease(w.token, mib, mib, y.now)]
      && Reserved(z.b.live) == mib
  {
    var w := y.b.queue[0];
    assert Fits(y.b, w);
    var lease := Lease(w.token, mib, mib, y.now);
    assert [] + [lease] == [lease];
    assert Admit(y.b, y.now).live == [lease];
    ReservedByOne(lease);
  }

  /** The running operations take 130 seconds, and the next one starts as they end. */
  lemma Round(y: System, mib: real) returns (run: seq<Label>)
    requires Packed(y, mib) && y.b.queue != []
    ensures Possible(y, run) && OrderlyRun(y, run)
    ensures var z := After(y, run);
      Packed(z, mib) && z.b.queue == y.b.queue[1..] && z.now == y.now + 130.0
  {
    var w := y.b.queue[0];
    assert w in y.b.queue;
    var y1 := Next(y, Tick(130.0));
    One(y, Tick(130.0));
    var release := ReleaseAll(y1);
    var y2 := After(y1, release);
    FirstOfQueue(y2, mib);
    One(y2, Turn(w));
    Chain(y1, release, [Turn(w)]);
    Chain(y, [Tick(130.0)], release + [Turn(w)]);
    run := [Tick(130.0)] + (release + [Turn(w)]);
    assert forall v :: v in y.b.queue[1..] ==> v in y.b.queue;
  }

  lemma {:induction false} Rounds(y: System, mib: real, n: nat) returns (run: seq<Label>)
    requires Packed(y, mib) && n <= |y.b.queue|
    ensures Possible(y, run) && OrderlyRun(y, run)
    ensures var z := After(y, run);
      Packed(z, mib) && z.b.queue == y.b.queue[n..] && z.now == y.now + n as real * 130.0
    decreases n
  {
    if n == 0 {
      run := [];
    } else {
      var first := Round(y, mib);
      var rest := Rounds(After(y, first), mib, n - 1);
      Chain(y, first, rest);
      run := first + rest;
    }
  }

  /** The last of five or more waiters, priced as it joined just now, can time out in an orderly run. */
  lemma LastOfManyTimesOut(y: System, mib: real, w: Waiter) returns (run: seq<Label>)
    requires Packed(y, mib) && |y.b.queue| >= 5 && w == y.b.queue[|y.b.queue| - 1]
    requires w.deadline == y.now + PARK_CEILING
    ensures Possible(y, run) && OrderlyRun(y, run) && w in After(y, run).timedOut
  {
    var first := Rounds(y, mib, 4);
    var z := After(y, first);
    assert z.b.queue[|z.b.queue| - 1] == w;
    assert z.b.queue[0] in z.b.queue;
    var z1 := Next(z, Tick(40.0));
    One(z, Tick(40.0));
    assert !Admissible(z1.b, w.token);
    One(z1, Turn(w));
    Chain(z, [Tick(40.0)], [Turn(w)]);
    Chain(y, first, [Tick(40.0)] + [Turn(w)]);
    run := first + ([Tick(40.0)] + [Turn(w)]);
  }

  // ── any load above four arises ──

  function Whole(leases: nat): real {
    NVENC_SESSION + leases as real
  }

  /** So many small operations were admitted at the start, out of a budget with room for them all. */
  ghost predicate Busy(y: System, leases: nat, live: nat) {
    && y.now == 0.0 && Whole(leases) in y.quotes && y.timedOut == []
    && |y.b.live| == live && Reserved(y.b.live) == live as real
    && (forall r :: r in y.b.live ==> r.since == 0.0)
  }

  lemma AdmitSmall(y: System, leases: nat, live: nat) returns (run: seq<Label>)
    requires Busy(y, leases, live) && y.b.queue == [] && live < leases
    ensures Possible(y, run) && OrderlyRun(y, run)
    ensures Busy(After(y, run), leases, live + 1) && After(y, run).b.queue == []
  {
    var join := Join(Some(1.0), Whole(leases), None);
    var w := Waiter(y.b.minted, 1.0, Whole(leases), 0.0, live, true, 0.0 + ParkDeadline(live));
    var y1 := Next(y, join);
    assert y1.b.queue == [w];
    var y2 := Next(y1, Turn(w));
    assert y2.b.live == y.b.live + [Lease(w.token, 1.0, Whole(leases), 0.0)];
    assert y2.b.live[..live] == y.b.live;
    One(y, join);
    One(y1, Turn(w));
    Chain(y, [join], [Turn(w)]);
    run := [join] + [Turn(w)];
  }

  lemma {:induction false} Occupy(leases: nat, live: nat) returns (run: seq<Label>)
    requires live <= leases
    ensures Possible(Start(None), run) && OrderlyRun(Start(None), run)
    ensures Busy(After(Start(None), run), leases, live) && After(Start(None), run).b.queue == []
    decreases live
  {
    if live == 0 {
      var quote := Quote(Some(Whole(leases) + VRAM_RESERVE));
      One(Start(None), quote);
      run := [quote];
    } else {
      var first := Occupy(leases, live - 1);
      var more := AdmitSmall(After(Start(None), first), leases, live - 1);
      Chain(Start(None), first, more);
      run := first + more;
    }
  }

  /** So many waiters for the whole budget parked behind the small operations, all at the start. */
  ghost predicate Crowded(y: System, leases: nat, n: nat) {
    && Busy(y, leases, leases) && Packed(y, Whole(leases)) && |y.b.queue| == n
    && (forall w :: w in y.b.queue ==> w.token < y.b.minted)
    && (n > 0 ==>
          var w := y.b.queue[n - 1];
          w == Waiter(w.token, Whole(leases), Whole(leases), 0.0, leases + n - 1, true, ParkDeadline(leases + n - 1)))
  }

  lemma {:induction false} Crowd(leases: nat, n: nat) returns (run: seq<Label>)
    requires leases > 0 && n <= MAX_PARKED
    ensures Possible(Start(None), run) && OrderlyRun(Start(None), run)
    ensures Crowded(After(Start(None), run), leases, n)
    decreases n
  {
    hide Admissible;
    if n == 0 {
      run := Occupy(leases, leases);
    } else {
      var join := Join(None, Whole(leases), None);
      var first := Crowd(leases, n - 1);
      One(After(Start(None), first), join);
      Chain(Start(None), first, [join]);
      run := first + [join];
    }
  }

  /** The cap on the park makes five or more operations ahead too many: every operation releases within its ceiling,
      nobody wastes time, and still a priced waiter times out. */
  lemma LongerParksTimeOut(load: nat) returns (run: seq<Label>, w: Waiter)
    requires load >= 5
    ensures Possible(Start(None), run) && OrderlyRun(Start(None), run)
    ensures w.priced && w.load == load && w in After(Start(None), run).timedOut
  {
    var first := Crowd(load - 4, 5);
    var y := After(Start(None), first);
    w := y.b.queue[4];
    var rest := LastOfManyTimesOut(y, Whole(load - 4), w);
    Chain(Start(None), first, rest);
    run := first + rest;
  }
}

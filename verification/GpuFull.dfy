/** The ledger wastes nothing: whatever fits the measured budget together can be on the card together, at once. */
module GpuFull {
  import opened Basics
  import opened GpuLedger
  import opened GpuRuns

  function Sum(needs: seq<real>): real {
    if needs == [] then 0.0 else needs[0] + Sum(needs[1..])
  }

  function LiveNeeds(live: seq<Lease>): (needs: seq<real>)
    ensures |needs| == |live| && forall i :: 0 <= i < |live| ==> needs[i] == live[i].need
  {
    seq(|live|, i requires 0 <= i < |live| => live[i].need)
  }

  function QueueNeeds(queue: seq<Waiter>): (needs: seq<real>)
    ensures |needs| == |queue| && forall i :: 0 <= i < |queue| ==> needs[i] == queue[i].need
  {
    seq(|queue|, i requires 0 <= i < |queue| => queue[i].need)
  }

  predicate Positive(needs: seq<real>) {
    forall i :: 0 <= i < |needs| ==> needs[i] > 0.0
  }

  /** Nobody waits and nobody gives anything back. */
  predicate Instant(run: seq<Label>) {
    forall l :: l in run ==> l.Quote? || l.Join? || l.Turn?
  }

  lemma {:induction false} SumJoined(a: seq<real>, b: seq<real>)
    ensures Sum(a + b) == Sum(a) + Sum(b)
  {
    if a == [] {
      assert a + b == b;
    } else {
      assert (a + b)[1..] == a[1..] + b;
      SumJoined(a[1..], b);
    }
  }

  lemma {:induction false} SumOfPositive(needs: seq<real>)
    requires Positive(needs)
    ensures Sum(needs) >= 0.0 && forall i :: 0 <= i < |needs| ==> needs[i] <= Sum(needs)
  {
    if needs != [] {
      SumOfPositive(needs[1..]);
      assert forall i :: 0 < i < |needs| ==> needs[i] == needs[1..][i - 1];
    }
  }

  lemma FirstOfMany(live: seq<real>, needs: seq<real>)
    requires needs != [] && Positive(needs)
    ensures Sum(live + [needs[0]]) + Sum(needs[1..]) == Sum(live) + Sum(needs)
    ensures needs[0] <= Sum(needs) && Positive(needs[1..])
  {
    SumJoined(live, [needs[0]]);
    assert Sum([needs[0]]) == needs[0] + Sum([needs[0]][1..]);
    SumOfPositive(needs);
  }

  lemma {:induction false} ReservedIsSum(live: seq<Lease>)
    ensures Reserved(live) == Sum(LiveNeeds(live))
  {
    if live != [] {
      var n := |live| - 1;
      ReservedIsSum(live[..n]);
      assert LiveNeeds(live) == LiveNeeds(live[..n]) + [live[n].need];
      SumJoined(LiveNeeds(live[..n]), [live[n].need]);
      assert Sum([live[n].need]) == live[n].need + Sum([]);
    }
  }

  /** A turn admits exactly the head, exactly when its need and the live needs sum up to at most its budget; a turn that
      does not admit times out exactly from the deadline on. */
  lemma TurnDecides(y: System, w: Waiter)
    requires Enabled(y, Turn(w))
    ensures var (b, r) := Wake(y.b, w, y.now);
      var head := y.b.queue[0];
      && (r.Admitted? <==> head.token == w.token && Sum(LiveNeeds(y.b.live)) + head.need <= head.budget)
      && (r.Admitted? ==>
            b.queue == y.b.queue[1..] && b.live == y.b.live + [Lease(head.token, head.need, head.budget, y.now)])
      && (!r.Admitted? ==> b.live == y.b.live && (r.TimedOut? <==> w.deadline <= y.now) && !r.NotQueued?)
  {
    ReservedIsSum(y.b.live);
  }

  /** What a refresh leaves in the cache: on an idle, unpinned ledger what the card shows after the reserve, at least
      one session; on a busy or pinned one with a cached budget, that budget; and when the card cannot be read, the
      cached budget, or one session if there is none. */
  lemma RefreshFollowsTheCard(b: Book, free: Option<real>)
    ensures var after := Refreshed(b, b.budget, free, None).budget;
      && (Idle(b) && !b.pinned && free.Some? ==>
            after == Some(if free.value - VRAM_RESERVE < NVENC_SESSION then NVENC_SESSION
                          else free.value - VRAM_RESERVE))
      && (b.budget.Some? && (!Idle(b) || b.pinned || free == None) ==> after == b.budget)
      && (b.budget == None && free == None ==> after == Some(NVENC_SESSION))
  {
  }

  // ── runs ──

  lemma Regroup(a: seq<real>, x: real, b: seq<real>)
    ensures a + [x] + b == a + ([x] + b)
    ensures forall c: seq<real> :: c != [] && x == c[0] && b == c[1..] ==> [x] + b == c
  {
  }

  lemma {:induction false} Chain(y: System, first: seq<Label>, rest: seq<Label>)
    requires Possible(y, first) && Possible(After(y, first), rest)
    ensures Possible(y, first + rest) && After(y, first + rest) == After(After(y, first), rest)
    decreases |first|
  {
    hide Next, Enabled;
    if first == [] {
      assert first + rest == rest;
    } else {
      assert (first + rest)[1..] == first[1..] + rest;
      Chain(Next(y, first[0]), first[1..], rest);
    }
  }

  lemma One(y: System, l: Label)
    requires Enabled(y, l)
    ensures Possible(y, [l]) && After(y, [l]) == Next(y, l)
  {
    hide Next, Enabled;
    assert [l][1..] == [];
    assert After(Next(y, l), []) == Next(y, l);
  }

  /** The head is admitted when it fits. */
  lemma AdmitHead(y: System) returns (run: seq<Label>)
    requires y.b.queue != [] && Sum(LiveNeeds(y.b.live)) + y.b.queue[0].need <= y.b.queue[0].budget
    ensures Possible(y, run) && Instant(run)
    ensures var z := After(y, run);
      && z.b.queue == y.b.queue[1..] && z.quotes == y.quotes
      && LiveNeeds(z.b.live) == LiveNeeds(y.b.live) + [y.b.queue[0].need]
  {
    var w := y.b.queue[0];
    TurnDecides(y, w);
    One(y, Turn(w));
    run := [Turn(w)];
  }

  lemma JoinOne(y: System, need: real, quote: real) returns (run: seq<Label>)
    requires quote in y.quotes && 0.0 < need <= quote && |y.b.queue| < MAX_PARKED
    ensures Possible(y, run) && Instant(run)
    ensures var z := After(y, run);
      && |z.b.queue| == |y.b.queue| + 1 && z.b.queue[..|y.b.queue|] == y.b.queue && z.b.live == y.b.live
      && z.b.queue[|y.b.queue|].need == need && z.b.queue[|y.b.queue|].budget == quote && z.quotes == y.quotes
  {
    run := [Join(Some(need), quote, None)];
    One(y, run[0]);
  }

  // ── requests that come one by one ──

  /** However many requests come, each is admitted on arrival as long as all fit the budget they were quoted. */
  lemma {:induction false} AdmittedAsTheyCome(y: System, needs: seq<real>, quote: real) returns (run: seq<Label>)
    requires y.b.queue == [] && quote in y.quotes && Positive(needs) && Positive(LiveNeeds(y.b.live))
    requires Sum(LiveNeeds(y.b.live)) + Sum(needs) <= quote
    ensures Possible(y, run) && Instant(run)
    ensures After(y, run).b.queue == [] && LiveNeeds(After(y, run).b.live) == LiveNeeds(y.b.live) + needs
    decreases |needs|
  {
    hide Next, Enabled, LiveNeeds;
    if needs == [] {
      run := [];
    } else {
      FirstOfMany(LiveNeeds(y.b.live), needs);
      SumOfPositive(LiveNeeds(y.b.live));
      SumOfPositive(needs[1..]);
      assert needs[0] + Sum(needs[1..]) == Sum(needs);
      var join := JoinOne(y, needs[0], quote);
      var y1 := After(y, join);
      var turn := AdmitHead(y1);
      Chain(y, join, turn);
      var y2 := After(y1, turn);
      var rest := AdmittedAsTheyCome(y2, needs[1..], quote);
      Chain(y, join + turn, rest);
      Regroup(LiveNeeds(y.b.live), needs[0], needs[1..]);
      run := join + turn + rest;
    }
  }

  /** A card read on an empty ledger can be filled: for any needs whose sum is at most what the reading leaves after
      the reserve, there is a run without a tick after which all of them are live. */
  lemma WholeBudgetCanBeUsed(free: real, needs: seq<real>) returns (run: seq<Label>)
    requires Positive(needs) && Sum(needs) <= (if free - VRAM_RESERVE < NVENC_SESSION then NVENC_SESSION
                                               else free - VRAM_RESERVE)
    ensures Possible(Start(None), run) && Instant(run)
    ensures LiveNeeds(After(Start(None), run).b.live) == needs && After(Start(None), run).b.queue == []
  {
    var quote := Quote(Some(free));
    One(Start(None), quote);
    var y := After(Start(None), [quote]);
    var rest := AdmittedAsTheyCome(y, needs, Measured(Some(free)));
    Chain(Start(None), [quote], rest);
    run := [quote] + rest;
    assert LiveNeeds(y.b.live) + needs == needs;
  }

  // ── requests that park together ──

  ghost predicate QuotedAlike(queue: seq<Waiter>, quote: real) {
    forall i :: 0 <= i < |queue| ==> queue[i].budget == quote && queue[i].need > 0.0
  }

  lemma {:induction false} ParkAll(y: System, needs: seq<real>, quote: real) returns (run: seq<Label>)
    requires quote in y.quotes && Positive(needs) && |y.b.queue| + |needs| <= MAX_PARKED
    requires (forall i :: 0 <= i < |needs| ==> needs[i] <= quote) && QuotedAlike(y.b.queue, quote)
    ensures Possible(y, run) && Instant(run)
    ensures var z := After(y, run);
      QuotedAlike(z.b.queue, quote) && QueueNeeds(z.b.queue) == QueueNeeds(y.b.queue) + needs && z.b.live == y.b.live
    decreases |needs|
  {
    hide Next, Enabled;
    if needs == [] {
      run := [];
    } else {
      var join := JoinOne(y, needs[0], quote);
      var y1 := After(y, join);
      assert forall i :: 0 <= i < |y.b.queue| ==> y1.b.queue[i] == y1.b.queue[..|y.b.queue|][i];
      assert QueueNeeds(y1.b.queue) == QueueNeeds(y.b.queue) + [needs[0]];
      var rest := ParkAll(y1, needs[1..], quote);
      Chain(y, join, rest);
      Regroup(QueueNeeds(y.b.queue), needs[0], needs[1..]);
      run := join + rest;
    }
  }

  /** The first of the waiters fits, and what is left still fits beside it. */
  lemma OneFewer(live: seq<real>, queue: seq<Waiter>, quote: real)
    requires queue != [] && QuotedAlike(queue, quote) && Sum(live) + Sum(QueueNeeds(queue)) <= quote
    ensures Sum(live) + queue[0].need <= quote && queue[0].budget == quote
    ensures Sum(live + [queue[0].need]) + Sum(QueueNeeds(queue[1..])) <= quote && QuotedAlike(queue[1..], quote)
    ensures [queue[0].need] + QueueNeeds(queue[1..]) == QueueNeeds(queue)
  {
    assert QueueNeeds(queue)[1..] == QueueNeeds(queue[1..]);
    FirstOfMany(live, QueueNeeds(queue));
    assert forall i :: 0 <= i < |queue[1..]| ==> queue[1..][i] == queue[i + 1];
  }

  lemma {:induction false} AdmitAll(y: System, quote: real) returns (run: seq<Label>)
    requires QuotedAlike(y.b.queue, quote) && Sum(LiveNeeds(y.b.live)) + Sum(QueueNeeds(y.b.queue)) <= quote
    ensures Possible(y, run) && Instant(run)
    ensures After(y, run).b.queue == []
    ensures LiveNeeds(After(y, run).b.live) == LiveNeeds(y.b.live) + QueueNeeds(y.b.queue)
    decreases |y.b.queue|
  {
    hide Next, Enabled, Sum, QuotedAlike, LiveNeeds, QueueNeeds;
    if y.b.queue == [] {
      run := [];
    } else {
      OneFewer(LiveNeeds(y.b.live), y.b.queue, quote);
      var turn := AdmitHead(y);
      var y1 := After(y, turn);
      var rest := AdmitAll(y1, quote);
      Chain(y, turn, rest);
      Regroup(LiveNeeds(y.b.live), y.b.queue[0].need, QueueNeeds(y1.b.queue));
      run := turn + rest;
    }
  }

  /** Up to eight requests that have all parked before the first of them gets a turn are admitted together too. */
  lemma ParkedTogetherAdmittedTogether(free: real, needs: seq<real>) returns (park: seq<Label>, admit: seq<Label>)
    requires Positive(needs) && |needs| <= MAX_PARKED
    requires Sum(needs) <= (if free - VRAM_RESERVE < NVENC_SESSION then NVENC_SESSION else free - VRAM_RESERVE)
    ensures Possible(Start(None), park) && Instant(park)
    ensures var y := After(Start(None), park);
      && QueueNeeds(y.b.queue) == needs && y.b.live == []
      && Possible(y, admit) && Instant(admit)
      && After(y, admit).b.queue == [] && LiveNeeds(After(y, admit).b.live) == needs
  {
    var quote := Quote(Some(free));
    One(Start(None), quote);
    var y := After(Start(None), [quote]);
    SumOfPositive(needs);
    var join := ParkAll(y, needs, Measured(Some(free)));
    Chain(Start(None), [quote], join);
    park := [quote] + join;
    assert QueueNeeds(y.b.queue) + needs == needs;
    var z := After(y, join);
    admit := AdmitAll(z, Measured(Some(free)));
    assert LiveNeeds(z.b.live) + needs == needs;
  }
}

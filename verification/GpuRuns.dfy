/** Whole runs of the GPU ledger under any interleaving of its callers: what is reserved stays within the budget
    it was priced against, and requests are served in arrival order. */
module GpuRuns {
  import opened Basics
  import opened GpuLedger

  /** `quotes` are the budgets read so far: a caller may enter with any of them, however old.  The other three
      logs hold the tokens admitted, the tokens that left the queue unadmitted, and the waiters that timed out. */
  datatype System = System(b: Book, now: real, quotes: set<real>, admitted: seq<Token>, gone: set<Token>,
                           timedOut: seq<Waiter>)

  datatype Label =
    | Quote(free: Option<real>)
    | Refresh(cached: Option<real>, free: Option<real>, again: Option<real>)
    | Join(wants: Option<real>, quote: real, limit: Option<real>)
    | Turn(waiter: Waiter)
    | Abandon(waiter: Waiter)
    | GiveBack(token: Token)
    | Tick(seconds: real)

  predicate Enabled(y: System, l: Label) {
    match l
    case Refresh(cached, _, _) => cached.Some? ==> y.b.budget.Some?
    case Join(_, quote, _) => quote in y.quotes
    case Turn(w) => w in y.b.queue
    case Abandon(w) => w in y.b.queue
    case Tick(seconds) => seconds > 0.0
    case _ => true
  }

  function Quoted(y: System, b: Book): System {
    y.(b := b, quotes := if b.budget.Some? then y.quotes + {b.budget.value} else y.quotes)
  }

  function Next(y: System, l: Label): System
    requires Enabled(y, l)
  {
    match l
    case Quote(free) => Quoted(y, Cached(y.b, free))
    case Refresh(cached, free, again) => Quoted(y, Refreshed(y.b, cached, free, again))
    case Join(wants, quote, limit) => y.(b := Enter(y.b, wants, quote, limit, y.now).0)
    case Turn(w) =>
      var r := Wake(y.b, w, y.now);
      (match r.1
       case Admitted => y.(b := r.0, admitted := y.admitted + [w.token])
       case TimedOut => y.(b := r.0, gone := y.gone + {w.token}, timedOut := y.timedOut + [w])
       case _ => y.(b := r.0))
    case Abandon(w) => y.(b := Withdraw(y.b, w.token), gone := y.gone + {w.token})
    case GiveBack(token) => y.(b := Release(y.b, token))
    case Tick(seconds) => y.(now := y.now + seconds)
  }

  function Start(given: Option<real>): System {
    System(Book([], [], given, given.Some?, 0), 0.0, if given.Some? then {given.value} else {}, [], {}, [])
  }

  predicate Possible(y: System, run: seq<Label>)
    decreases |run|
  {
    run == [] || (Enabled(y, run[0]) && Possible(Next(y, run[0]), run[1..]))
  }

  function After(y: System, run: seq<Label>): System
    requires Possible(y, run)
    decreases |run|
  {
    if run == [] then y else After(Next(y, run[0]), run[1..])
  }

  // ── the invariant ──

  /** The reservations admitted up to and including each live one fit the budget that one was priced against. */
  predicate Fitting(live: seq<Lease>) {
    live == [] || (
      var n := |live| - 1;
      Fitting(live[..n]) && live[n].need > 0.0 && Reserved(live) <= live[n].budget)
  }

  ghost predicate Fair(w: Waiter, quotes: set<real>) {
    0.0 < w.need <= w.budget && w.budget in quotes
  }

  ghost predicate Rising(ts: seq<Token>) {
    forall i, j :: 0 <= i < j < |ts| ==> ts[i] < ts[j]
  }

  /** Tokens are numbered in arrival order: the admitted ones and then the queue are in that order, and every
      token handed out is in that line or gone, never both. */
  ghost predicate InOrder(line: seq<Token>, gone: set<Token>, minted: nat) {
    && Rising(line)
    && (forall t :: t in line ==> t !in gone)
    && (forall t: nat :: t < minted <==> t in line || t in gone)
  }

  function Line(y: System): seq<Token> {
    y.admitted + Tokens(y.b.queue)
  }

  ghost predicate Ok(y: System) {
    && Fitting(y.b.live)
    && (forall i :: 0 <= i < |y.b.queue| ==> Fair(y.b.queue[i], y.quotes))
    && |y.b.queue| <= MAX_PARKED
    && (y.b.budget.Some? ==> y.b.budget.value in y.quotes)
    && InOrder(Line(y), y.gone, y.b.minted)
    && (forall l :: l in y.b.live ==> l.token in y.admitted)
  }

  // ── steps ──

  lemma {:induction false} RemovalAt(queue: seq<Waiter>, i: nat)
    requires i < |queue| && forall j :: 0 <= j < i ==> queue[j].token != queue[i].token
    ensures WithoutWaiter(queue, queue[i].token) == queue[..i] + queue[i + 1..]
    decreases i
  {
    if i > 0 {
      var rest := queue[1..];
      RemovalAt(rest, i - 1);
      assert [queue[0]] + (rest[..i - 1] + rest[i..]) == queue[..i] + queue[i + 1..];
    }
  }

  lemma LineGrows(line: seq<Token>, gone: set<Token>, minted: nat)
    requires InOrder(line, gone, minted)
    ensures InOrder(line + [minted], gone, minted + 1)
  {
    assert forall j :: 0 <= j < |line| ==> line[j] in line;
    assert minted in line + [minted];
    forall t: nat | t < minted + 1 ensures t in line + [minted] || t in gone {
    }
  }

  lemma DropAt(line: seq<Token>, i: nat)
    requires Rising(line) && i < |line|
    ensures Rising(line[..i] + line[i + 1..])
    ensures forall t :: t in line[..i] + line[i + 1..] <==> t in line && t != line[i]
  {
    var rest := line[..i] + line[i + 1..];
    forall t | t in rest ensures t in line && t != line[i] {
      var j :| 0 <= j < |rest| && rest[j] == t;
      assert line[if j < i then j else j + 1] == t;
    }
    forall t | t in line && t != line[i] ensures t in rest {
      var j :| 0 <= j < |line| && line[j] == t;
      assert rest[if j < i then j else j - 1] == t;
    }
  }

  lemma LineLoses(line: seq<Token>, gone: set<Token>, minted: nat, i: nat)
    requires InOrder(line, gone, minted) && i < |line|
    ensures InOrder(line[..i] + line[i + 1..], gone + {line[i]}, minted)
  {
    DropAt(line, i);
    assert line[i] in line;
    var rest := line[..i] + line[i + 1..];
    forall t: nat ensures t < minted <==> t in rest || t in gone + {line[i]} {
      assert t < minted <==> t in line || t in gone;
    }
  }

  lemma LineWithout(admitted: seq<Token>, queue: seq<Waiter>, i: nat)
    requires i < |queue|
    ensures var line := admitted + Tokens(queue);
      && |admitted| + i < |line| && line[|admitted| + i] == queue[i].token
      && admitted + Tokens(queue[..i] + queue[i + 1..]) == line[..|admitted| + i] + line[|admitted| + i + 1..]
  {
    assert Tokens(queue[..i] + queue[i + 1..]) == Tokens(queue)[..i] + Tokens(queue)[i + 1..];
  }

  lemma QueuedTokensDiffer(admitted: seq<Token>, queue: seq<Waiter>, i: nat, j: nat)
    requires Rising(admitted + Tokens(queue)) && j < i < |queue|
    ensures queue[j].token != queue[i].token
  {
    var line := admitted + Tokens(queue);
    assert line[|admitted| + j] < line[|admitted| + i];
  }

  /** A waiter leaving the queue leaves the others where they were. */
  lemma QueueWithout(admitted: seq<Token>, queue: seq<Waiter>, i: nat)
    requires Rising(admitted + Tokens(queue)) && i < |queue|
    ensures WithoutWaiter(queue, queue[i].token) == queue[..i] + queue[i + 1..]
  {
    forall j | 0 <= j < i ensures queue[j].token != queue[i].token {
      QueuedTokensDiffer(admitted, queue, i, j);
    }
    RemovalAt(queue, i);
  }

  lemma FairWithout(queue: seq<Waiter>, i: nat, quotes: set<real>)
    requires i < |queue| && forall j :: 0 <= j < |queue| ==> Fair(queue[j], quotes)
    ensures var rest := queue[..i] + queue[i + 1..];
      forall j :: 0 <= j < |rest| ==> Fair(rest[j], quotes)
  {
    var rest := queue[..i] + queue[i + 1..];
    forall j | 0 <= j < |rest| ensures Fair(rest[j], quotes) {
      assert rest[j] == queue[if j < i then j else j + 1];
    }
  }

  lemma QueueLoses(y: System, w: Waiter)
    requires Ok(y) && w in y.b.queue
    ensures Ok(y.(b := Withdraw(y.b, w.token), gone := y.gone + {w.token}))
  {
    var i :| 0 <= i < |y.b.queue| && y.b.queue[i] == w;
    QueueWithout(y.admitted, y.b.queue, i);
    LineWithout(y.admitted, y.b.queue, i);
    LineLoses(Line(y), y.gone, y.b.minted, |y.admitted| + i);
    FairWithout(y.b.queue, i, y.quotes);
  }

  /** What `Fitting` says of each prefix of the live reservations. */
  lemma {:induction false} FittingPrefixes(live: seq<Lease>, k: nat)
    requires Fitting(live) && k < |live|
    ensures Fitting(live[..k]) && live[k].need > 0.0
    ensures 0.0 < Reserved(live[..k + 1]) <= live[k].budget
    ensures 0.0 <= Reserved(live[..k]) < Reserved(live[..k + 1]) <= Reserved(live)
    decreases |live|
  {
    var n := |live| - 1;
    if k < n {
      FittingPrefixes(live[..n], k);
      assert live[..n][..k] == live[..k] && live[..n][..k + 1] == live[..k + 1];
    } else {
      assert live[..n + 1] == live && live[..n + 1][..n] == live[..n];
      if n > 0 {
        FittingPrefixes(live[..n], n - 1);
        assert live[..n][..n - 1 + 1] == live[..n];
      }
    }
  }

  lemma {:induction false} ReleaseKeeps(live: seq<Lease>, token: Token)
    requires Fitting(live)
    ensures var rest := WithoutLease(live, token);
      && Fitting(rest) && Reserved(rest) <= Reserved(live)
      && (forall l :: l in rest ==> l in live)
      && (rest == live || |rest| == |live| - 1)
    decreases |live|
  {
    if live != [] {
      var n := |live| - 1;
      if live[n].token != token {
        ReleaseKeeps(live[..n], token);
        var rest := WithoutLease(live[..n], token);
        assert (rest + [live[n]])[..|rest|] == rest;
        assert live == live[..n] + [live[n]];
      }
    }
  }

  lemma AdmitKeeps(b: Book, now: real)
    requires b.queue != [] && Fits(b, b.queue[0]) && b.queue[0].need > 0.0 && Fitting(b.live)
    ensures Fitting(Admit(b, now).live)
  {
    assert Admit(b, now).live[..|b.live|] == b.live;
  }

  lemma JoinKeeps(y: System, wants: Option<real>, quote: real, limit: Option<real>)
    requires Ok(y) && quote in y.quotes
    ensures Ok(Next(y, Join(wants, quote, limit)))
  {
    var z := Next(y, Join(wants, quote, limit));
    if z.b != y.b {
      assert Line(z) == Line(y) + [y.b.minted];
      LineGrows(Line(y), y.gone, y.b.minted);
    }
  }

  lemma TurnKeeps(y: System, w: Waiter)
    requires Ok(y) && w in y.b.queue
    ensures Ok(Next(y, Turn(w)))
  {
    var r := Wake(y.b, w, y.now);
    match r.1
    case Admitted =>
      AdmitKeeps(y.b, y.now);
      assert Line(Next(y, Turn(w))) == Line(y);
    case TimedOut =>
      QueueLoses(y, w);
    case _ =>
  }

  lemma StepKeeps(y: System, l: Label)
    requires Ok(y) && Enabled(y, l)
    ensures Ok(Next(y, l))
  {
    match l
    case Join(wants, quote, limit) => JoinKeeps(y, wants, quote, limit);
    case Turn(w) => TurnKeeps(y, w);
    case Abandon(w) => QueueLoses(y, w);
    case GiveBack(token) => ReleaseKeeps(y.b.live, token);
    case _ =>
  }

  lemma {:induction false} RunKeeps(y: System, run: seq<Label>)
    requires Ok(y) && Possible(y, run)
    ensures Ok(After(y, run))
    decreases |run|
  {
    if run != [] {
      StepKeeps(y, run[0]);
      RunKeeps(Next(y, run[0]), run[1..]);
    }
  }

  // ── safety of every run ──

  /** However callers race, the reservations admitted up to and including each live one fit the budget that one
      was priced against; at most eight requests park; a request is admitted only after every earlier one was
      admitted or left; and an empty ledger can admit the head of the queue at once. */
  lemma EveryRunIsFairAndFits(given: Option<real>, run: seq<Label>)
    requires Possible(Start(given), run)
    ensures var z := After(Start(given), run);
      && (forall k :: 0 <= k < |z.b.live| ==> Reserved(z.b.live[..k + 1]) <= z.b.live[k].budget)
      && |z.b.queue| <= MAX_PARKED
      && Rising(z.admitted + Tokens(z.b.queue))
      && (forall t, e: Token :: t in z.admitted && e < t ==> e in z.admitted || e in z.gone)
      && (z.b.live == [] && z.b.queue != [] ==> Admissible(z.b, z.b.queue[0].token))
  {
    RunKeeps(Start(given), run);
    var z := After(Start(given), run);
    forall k | 0 <= k < |z.b.live| ensures Reserved(z.b.live[..k + 1]) <= z.b.live[k].budget {
      FittingPrefixes(z.b.live, k);
    }
    forall t, e: Token | t in z.admitted && e < t ensures e in z.admitted || e in z.gone {
      assert t in Line(z);
      NothingQueuedIsOlder(z, t, e);
    }
  }

  lemma NothingQueuedIsOlder(z: System, t: Token, e: Token)
    requires Ok(z) && t in z.admitted && e < t
    ensures e in z.admitted || e in z.gone
  {
    assert t in Line(z);
    assert e in Line(z) || e in z.gone;
    if e in Line(z) {
      var i :| 0 <= i < |z.admitted| && z.admitted[i] == t;
      var j :| 0 <= j < |Line(z)| && Line(z)[j] == e;
      assert Line(z)[i] == t;
      assert j < i;
    }
  }

  // ── the cached budget ──

  /** A caller whose quote is no larger than the budget cached when it joins. */
  predicate Careful(y: System, l: Label) {
    l.Join? ==> y.b.budget.Some? && l.quote <= y.b.budget.value
  }

  predicate CarefulRun(y: System, run: seq<Label>)
    requires Possible(y, run)
    decreases |run|
  {
    run == [] || (Careful(y, run[0]) && CarefulRun(Next(y, run[0]), run[1..]))
  }

  ghost predicate WithinCache(b: Book) {
    && (Idle(b) || b.budget.Some?)
    && (forall w :: w in b.queue ==> w.budget <= b.budget.value)
    && (forall l :: l in b.live ==> l.budget <= b.budget.value)
  }

  lemma CarefulStep(y: System, l: Label)
    requires Ok(y) && WithinCache(y.b) && Enabled(y, l) && Careful(y, l)
    ensures WithinCache(Next(y, l).b)
  {
    match l
    case GiveBack(token) => ReleaseKeeps(y.b.live, token);
    case Turn(w) => SublistOfQueue(y.b.queue, w.token);
    case Abandon(w) => SublistOfQueue(y.b.queue, w.token);
    case _ =>
  }

  lemma {:induction false} SublistOfQueue(queue: seq<Waiter>, token: Token)
    ensures forall w :: w in WithoutWaiter(queue, token) ==> w in queue
  {
    if queue != [] {
      SublistOfQueue(queue[1..], token);
    }
  }

  lemma {:induction false} CarefulRunStaysWithin(y: System, run: seq<Label>)
    requires Ok(y) && WithinCache(y.b) && Possible(y, run) && CarefulRun(y, run)
    ensures Ok(After(y, run)) && WithinCache(After(y, run).b)
    decreases |run|
  {
    if run != [] {
      StepKeeps(y, run[0]);
      CarefulStep(y, run[0]);
      CarefulRunStaysWithin(Next(y, run[0]), run[1..]);
    }
  }

  lemma OthersHoldMemory(live: seq<Lease>, k: nat)
    requires Fitting(live) && k < |live|
    ensures live[k].need <= Reserved(live)
    ensures |live| > 1 ==> live[k].need < Reserved(live)
  {
    FittingPrefixes(live, k);
    assert live[..k + 1][..k] == live[..k];
    if k > 0 {
      FittingPrefixes(live, k - 1);
      assert live[..k - 1 + 1] == live[..k];
    }
    if k < |live| - 1 {
      FittingPrefixes(live, |live| - 1);
      FittingPrefixes(live, k + 1);
      assert live[..k + 1 + 1][..k + 1] == live[..k + 1];
    }
  }

  /** While no caller enters with a quote above the cached budget, the ledger never reserves more than the
      cached budget, and a reservation of the whole budget is alone on the card. */
  lemma CarefulRunsNeverOverbook(given: Option<real>, run: seq<Label>)
    requires Possible(Start(given), run) && CarefulRun(Start(given), run)
    ensures var b := After(Start(given), run).b;
      && (b.live != [] ==> b.budget.Some? && Reserved(b.live) <= b.budget.value)
      && (forall k :: 0 <= k < |b.live| && b.live[k].need == b.budget.value ==> |b.live| == 1)
  {
    CarefulRunStaysWithin(Start(given), run);
    var b := After(Start(given), run).b;
    if b.live != [] {
      assert b.live[|b.live| - 1] in b.live;
    }
    forall k | 0 <= k < |b.live| && b.live[k].need == b.budget.value ensures |b.live| == 1 {
      OthersHoldMemory(b.live, k);
    }
  }

  /** On an idle ledger a self-sizing request reserves what it was quoted, so it stays within the cached budget
      exactly when its quote is no larger: `reserve` reads the budget before it takes the lock, and a refresh in
      between may have lowered it. */
  lemma WholeBudgetNeedsAFreshQuote(y: System, quote: real)
    requires Ok(y) && Idle(y.b) && y.b.budget.Some? && quote in y.quotes && quote > 0.0
    ensures var l := Join(None, quote, None);
      var w := Enter(y.b, None, quote, None, y.now).1.waiter;
      && Possible(y, [l, Turn(w)])
      && Reserved(After(y, [l, Turn(w)]).b.live) == quote
      && (Reserved(After(y, [l, Turn(w)]).b.live) <= y.b.budget.value <==> Careful(y, l))
  {
    var l := Join(None, quote, None);
    var w := Enter(y.b, None, quote, None, y.now).1.waiter;
    var y1 := Next(y, l);
    assert y1.b.queue == [w] && Fits(y1.b, w);
    var y2 := Next(y1, Turn(w));
    assert y2.b.live == [Lease(w.token, w.need, w.budget, y.now)];
    assert y2.b.live[..0] == [];
    assert [l, Turn(w)][1..] == [Turn(w)] && [Turn(w)][1..] == [];
    assert After(y, [l, Turn(w)]) == After(y1, [Turn(w)]) == After(y2, []);
  }

  function TwoReadings(before: real, after: real): System {
    var b := Book([], [], Some(Measured(Some(after))), false, 0);
    System(b, 0.0, {Measured(Some(before)), Measured(Some(after))}, [], {}, [])
  }

  lemma ReadTwice(before: real, after: real, rest: seq<Label>)
    requires Possible(TwoReadings(before, after), rest)
    ensures var run := [Quote(Some(before)), Refresh(Some(Measured(Some(before))), Some(after), None)] + rest;
      Possible(Start(None), run) && After(Start(None), run) == After(TwoReadings(before, after), rest)
  {
    var run := [Quote(Some(before)), Refresh(Some(Measured(Some(before))), Some(after), None)] + rest;
    var y1 := Next(Start(None), run[0]);
    assert run[1..][1..] == rest;
    assert Next(y1, run[1]) == TwoReadings(before, after);
    assert After(Start(None), run) == After(y1, run[1..]);
  }

  /** Such a race on an empty ledger: one caller is quoted a reading, then a refresh caches another, and the
      caller reserves what it was quoted, be it more than the cached budget. */
  lemma RacedQuoteOverbooks(before: real, after: real) returns (run: seq<Label>)
    ensures Possible(Start(None), run)
    ensures var b := After(Start(None), run).b;
      b.budget == Some(Measured(Some(after))) && Reserved(b.live) == Measured(Some(before))
  {
    var y := TwoReadings(before, after);
    var quote := Measured(Some(before));
    WholeBudgetNeedsAFreshQuote(y, quote);
    var w := Enter(y.b, None, quote, None, y.now).1.waiter;
    var rest := [Join(None, quote, None), Turn(w)];
    BudgetStays(y, rest);
    ReadTwice(before, after, rest);
    run := [Quote(Some(before)), Refresh(Some(quote), Some(after), None)] + rest;
  }

  /** Only a refresh can change a budget once cached. */
  lemma {:induction false} BudgetStays(y: System, run: seq<Label>)
    requires Possible(y, run) && y.b.budget.Some? && forall l :: l in run ==> !l.Refresh?
    ensures After(y, run).b.budget == y.b.budget
    decreases |run|
  {
    if run != [] {
      assert run[0] in run;
      BudgetStays(Next(y, run[0]), run[1..]);
    }
  }

  // ── never stricter than one at a time ──

  lemma {:induction false} BudgetsHoldASession(y: System, run: seq<Label>)
    requires Possible(y, run) && !y.b.pinned
    requires forall q :: q in y.quotes ==> q >= NVENC_SESSION
    requires y.b.budget.Some? ==> y.b.budget.value >= NVENC_SESSION
    ensures forall q :: q in After(y, run).quotes ==> q >= NVENC_SESSION
    decreases |run|
  {
    if run != [] {
      BudgetsHoldASession(Next(y, run[0]), run[1..]);
    }
  }

  /** A measured ledger refuses a request for one session only because eight are parked already. */
  lemma OneSessionIsNeverTooMuch(run: seq<Label>, quote: real, limit: Option<real>)
    requires Possible(Start(None), run) && quote in After(Start(None), run).quotes
    ensures var z := After(Start(None), run);
      var entry := Enter(z.b, Some(NVENC_SESSION), quote, limit, z.now).1;
      (if |z.b.queue| == MAX_PARKED then entry == QueueFull else entry.Parked?)
  {
    BudgetsHoldASession(Start(None), run);
    RunKeeps(Start(None), run);
  }
}

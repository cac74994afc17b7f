/** The reservation ledger that admits heavy operations to the one GPU: lock-held transitions on values, and the
    ledger itself, whose methods are proved against them.  Memory is in MiB and time in seconds. */
module GpuLedger {
  import opened Basics

  const NVENC_SESSION := 960.0
  const VRAM_RESERVE := 512.0
  const OP_CEILING := 140.0
  const PARK_CEILING := 560.0
  const MAX_PARKED := 8

  type Token = nat

  /** A parked request: its token and the values its call fixed when it entered. */
  datatype Waiter = Waiter(token: Token, need: real, budget: real, entered: real, load: nat, priced: bool,
                           deadline: real)

  /** A live reservation, with the budget its request was priced against and the time it was admitted. */
  datatype Lease = Lease(token: Token, need: real, budget: real, since: real)

  /** Both lists are oldest first.  `minted` counts the tokens handed out so far, which names them. */
  datatype Book = Book(queue: seq<Waiter>, live: seq<Lease>, budget: Option<real>, pinned: bool, minted: nat)

  datatype Entry = OutsideBudget | QueueFull | Parked(waiter: Waiter, parks: bool)
  datatype Outcome = Admitted | TimedOut | StillParked | NotQueued

  function Reserved(live: seq<Lease>): real {
    if live == [] then 0.0 else Reserved(live[..|live| - 1]) + live[|live| - 1].need
  }

  function Max(a: real, b: real): real {
    if a < b then b else a
  }

  function Min(a: real, b: real): real {
    if a < b then a else b
  }

  /** The budget one reading of free memory gives; an unreadable card gives one session. */
  function Measured(free: Option<real>): real {
    match free
    case None => NVENC_SESSION
    case Some(mib) => Max(mib - VRAM_RESERVE, NVENC_SESSION)
  }

  function ParkDeadline(load: nat): real {
    Min((if load == 0 then 1 else load) as real * OP_CEILING, PARK_CEILING)
  }

  predicate Idle(b: Book) {
    b.live == [] && b.queue == []
  }

  predicate Fits(b: Book, w: Waiter) {
    Reserved(b.live) + w.need <= w.budget
  }

  /** The waiter leads the queue and its need fits beside the live reservations. */
  predicate Admissible(b: Book, token: Token) {
    b.queue != [] && b.queue[0].token == token && Fits(b, b.queue[0])
  }

  function Tokens(queue: seq<Waiter>): (ts: seq<Token>)
    ensures |ts| == |queue| && forall i :: 0 <= i < |queue| ==> ts[i] == queue[i].token
  {
    seq(|queue|, i requires 0 <= i < |queue| => queue[i].token)
  }

  /** The queue without the first entry for a token. */
  function WithoutWaiter(queue: seq<Waiter>, token: Token): seq<Waiter> {
    if queue == [] then []
    else if queue[0].token == token then queue[1..]
    else [queue[0]] + WithoutWaiter(queue[1..], token)
  }

  function WithoutLease(live: seq<Lease>, token: Token): seq<Lease> {
    if live == [] then []
    else if live[|live| - 1].token == token then live[..|live| - 1]
    else WithoutLease(live[..|live| - 1], token) + [live[|live| - 1]]
  }

  // ── transitions ──

  /** A first reading fills an empty cache; any later one finds the cache filled. */
  function Cached(b: Book, free: Option<real>): Book {
    if b.budget.Some? then b else b.(budget := Some(Measured(free)))
  }

  /** The end of a refresh that read `free` (and read again if the cache had been empty and the card silent).
      The write needs an idle ledger, so a racing admission keeps the value it was priced against. */
  function Refreshed(b: Book, cached: Option<real>, free: Option<real>, again: Option<real>): Book {
    if free == None && cached.Some? then b
    else if b.budget == None || (Idle(b) && !b.pinned) then
      b.(budget := Some(Measured(if free == None then again else free)))
    else b
  }

  /** A request joins the queue; without a need of its own it books the whole budget it was quoted. */
  function Enter(b: Book, wants: Option<real>, quote: real, limit: Option<real>, now: real): (Book, Entry) {
    var need := if wants.Some? then wants.value else quote;
    var load := |b.queue| + |b.live|;
    var wait := if limit.Some? then limit.value else ParkDeadline(load);
    var w := Waiter(b.minted, need, quote, now, load, limit == None, now + wait);
    if !(0.0 < need <= quote) then (b, OutsideBudget)
    else if |b.queue| >= MAX_PARKED then (b, QueueFull)
    else
      var b1 := b.(queue := b.queue + [w], minted := b.minted + 1);
      (b1, Parked(w, !Admissible(b1, w.token)))
  }

  function Admit(b: Book, now: real): Book
    requires b.queue != []
  {
    var w := b.queue[0];
    b.(queue := b.queue[1..], live := b.live + [Lease(w.token, w.need, w.budget, now)])
  }

  function Withdraw(b: Book, token: Token): Book {
    b.(queue := WithoutWaiter(b.queue, token))
  }

  /** One turn of a waiter's loop. */
  function Wake(b: Book, w: Waiter, now: real): (Book, Outcome) {
    if b.queue == [] then (b, NotQueued)
    else if Admissible(b, w.token) then (Admit(b, now), Admitted)
    else if w.deadline <= now then (Withdraw(b, w.token), TimedOut)
    else (b, StillParked)
  }

  function Release(b: Book, token: Token): Book {
    b.(live := WithoutLease(b.live, token))
  }

  // ── the ledger ──

  class Ledger {
    var queue: seq<Waiter>
    var live: seq<Lease>
    var budget: Option<real>
    var pinned: bool
    var minted: nat

    ghost function View(): Book
      reads this
    {
      Book(queue, live, budget, pinned, minted)
    }

    /** An empty ledger; a given budget is never measured again. */
    constructor (given: Option<real>)
      ensures View() == Book([], [], given, given.Some?, 0)
    {
      queue, live, budget, pinned, minted := [], [], given, given.Some?, 0;
    }

    method BudgetMib(free: Option<real>) returns (mib: real)
      modifies this
      ensures View() == Cached(old(View()), free) && View().budget == Some(mib)
    {
      if budget == None {
        budget := Some(Measured(free));
      }
      mib := budget.value;
    }

    /** The first half of a refresh: a cache that may not change is returned without reading the card. */
    method MayRefresh() returns (settled: Option<real>)
      ensures settled.Some? <==> budget.Some? && (pinned || live != [] || queue != [])
      ensures settled.Some? ==> settled == budget
    {
      var idle := live == [] && queue == [];
      if budget.Some? && (pinned || !idle) {
        return budget;
      }
      return None;
    }

    method FinishRefresh(cached: Option<real>, free: Option<real>, again: Option<real>) returns (mib: real)
      modifies this
      ensures View() == Refreshed(old(View()), cached, free, again)
      ensures !(free == None && cached.Some?) ==> View().budget == Some(mib)
      ensures free == None && cached.Some? ==> mib == cached.value
    {
      if free == None && cached.Some? {
        return cached.value;
      }
      var measured := Measured(if free == None then again else free);
      if budget == None || (live == [] && queue == [] && !pinned) {
        budget := Some(measured);
      }
      mib := budget.value;
    }

    method Join(wants: Option<real>, quote: real, limit: Option<real>, now: real) returns (entry: Entry)
      modifies this
      ensures (View(), entry) == Enter(old(View()), wants, quote, limit, now)
    {
      var need := if wants.Some? then wants.value else quote;
      if !(0.0 < need <= quote) {
        return OutsideBudget;
      }
      if |queue| >= MAX_PARKED {
        return QueueFull;
      }
      var load := |queue| + |live|;
      var wait := if limit.Some? then limit.value else ParkDeadline(load);
      var w := Waiter(minted, need, quote, now, load, limit == None, now + wait);
      queue := queue + [w];
      minted := minted + 1;
      entry := Parked(w, !(queue[0].token == w.token && Reserved(live) + queue[0].need <= queue[0].budget));
    }

    /** One turn of the wait loop of `reserve`, under the lock. */
    method Turn(w: Waiter, now: real) returns (outcome: Outcome)
      modifies this
      ensures (View(), outcome) == Wake(old(View()), w, now)
    {
      if queue == [] {
        return NotQueued;
      }
      if queue[0].token == w.token && Reserved(live) + queue[0].need <= queue[0].budget {
        live := live + [Lease(queue[0].token, queue[0].need, queue[0].budget, now)];
        queue := queue[1..];
        return Admitted;
      }
      if w.deadline <= now {
        Remove(w.token);
        return TimedOut;
      }
      return StillParked;
    }

    /** Any unwind before admission drops the token; a token no longer queued is ignored. */
    method Remove(token: Token)
      modifies this
      ensures View() == Withdraw(old(View()), token)
    {
      var i := 0;
      while i < |queue| && queue[i].token != token
        invariant 0 <= i <= |queue|
        invariant WithoutWaiter(queue, token) == queue[..i] + WithoutWaiter(queue[i..], token)
      {
        assert queue[i..][1..] == queue[i + 1..];
        assert queue[..i + 1] == queue[..i] + [queue[i]];
        i := i + 1;
      }
      if i < |queue| {
        assert queue[i..][1..] == queue[i + 1..];
        queue := queue[..i] + queue[i + 1..];
      }
    }

    /** Releasing is idempotent: a token that holds nothing changes nothing. */
    method GiveBack(token: Token)
      modifies this
      ensures View() == Release(old(View()), token)
    {
      var i := |live|;
      assert live[..i] + live[i..] == live && live[..i] == live;
      while i > 0 && live[i - 1].token != token
        invariant 0 <= i <= |live|
        invariant WithoutLease(live, token) == WithoutLease(live[..i], token) + live[i..]
      {
        assert live[..i][..i - 1] == live[..i - 1];
        assert live[i - 1..] == [live[i - 1]] + live[i..];
        i := i - 1;
      }
      if i > 0 {
        assert live[..i][..i - 1] == live[..i - 1];
        live := live[..i - 1] + live[i..];
      } else {
        assert live[0..] == live;
      }
    }
  }
}

/** The byte-bounded cache of origin bytes: least recently used goes first. */
module OriginCache {
  import opened Basics

  type Url = string
  type Bytes = seq<bv8>

  datatype Item = Item(url: Url, data: Bytes)

  datatype Op = Get(url: Url) | Put(url: Url, data: Bytes)

  function Total(items: seq<Item>): nat {
    if items == [] then 0 else |items[0].data| + Total(items[1..])
  }

  function Find(items: seq<Item>, url: Url): Option<Bytes> {
    if items == [] then None else if items[0].url == url then Some(items[0].data) else Find(items[1..], url)
  }

  function Without(items: seq<Item>, url: Url): seq<Item> {
    if items == [] then []
    else if items[0].url == url then Without(items[1..], url)
    else [items[0]] + Without(items[1..], url)
  }

  /** `kept` is the longest most recent part of `all` that fits the limit. */
  predicate LongestFit(kept: seq<Item>, all: seq<Item>, limit: nat) {
    && |kept| <= |all| && kept == all[|all| - |kept|..]
    && Total(kept) <= limit
    && (|kept| < |all| ==> Total(all[|all| - |kept| - 1..]) > limit)
  }

  // ── what the history says ──

  predicate Fits(op: Op, limit: nat) {
    op.Put? ==> |op.data| <= limit
  }

  /** The bytes of a url's latest put that fitted the limit. */
  function LatestPut(log: seq<Op>, url: Url, limit: nat): Option<Bytes> {
    if log == [] then None else
      var op := log[|log| - 1];
      if op.Put? && op.url == url && Fits(op, limit) then Some(op.data) else LatestPut(log[..|log| - 1], url, limit)
  }

  /** One more than the place of a url's latest use: a get, or a put that fitted. */
  function LastUse(log: seq<Op>, url: Url, limit: nat): nat {
    if log == [] then 0 else
      var op := log[|log| - 1];
      if op.url == url && Fits(op, limit) then |log| else LastUse(log[..|log| - 1], url, limit)
  }

  /** Oldest use first, every item with the bytes of its latest put that fitted. */
  ghost predicate ByUse(items: seq<Item>, log: seq<Op>, limit: nat) {
    && (forall i :: 0 <= i < |items| ==> LatestPut(log, items[i].url, limit) == Some(items[i].data))
    && (forall i, j :: 0 <= i < j < |items| ==>
          LastUse(log, items[i].url, limit) < LastUse(log, items[j].url, limit))
  }

  /** The cache is a recency list within the limit. */
  ghost predicate Recency(items: seq<Item>, log: seq<Op>, limit: nat) {
    Total(items) <= limit && ByUse(items, log, limit)
  }

  lemma {:induction false} UsesArePast(log: seq<Op>, url: Url, limit: nat)
    ensures LastUse(log, url, limit) <= |log|
  {
    if log != [] {
      UsesArePast(log[..|log| - 1], url, limit);
    }
  }

  // ── lists ──

  lemma {:induction false} NotThere(items: seq<Item>, url: Url)
    requires forall i :: 0 <= i < |items| ==> items[i].url != url
    ensures Without(items, url) == items && Find(items, url) == None
  {
    if items != [] {
      NotThere(items[1..], url);
    }
  }

  lemma {:induction false} WithoutAt(items: seq<Item>, url: Url) returns (i: nat)
    requires forall a, b :: 0 <= a < b < |items| ==> items[a].url != items[b].url
    ensures i <= |items|
    ensures i == |items| ==> Without(items, url) == items && Find(items, url) == None
    ensures i < |items| ==> items[i].url == url && Without(items, url) == items[..i] + items[i + 1..]
    ensures i < |items| ==> Find(items, url) == Some(items[i].data)
    ensures forall k :: 0 <= k < |items| && k != i ==> items[k].url != url
  {
    if items == [] {
      i := 0;
    } else if items[0].url == url {
      i := 0;
      NotThere(items[1..], url);
      assert items[..0] + items[1..] == items[1..];
    } else {
      var j := WithoutAt(items[1..], url);
      i := j + 1;
      if j < |items| - 1 {
        assert items[..i] + items[i + 1..] == [items[0]] + (items[1..][..j] + items[1..][j + 1..]);
      }
    }
  }

  lemma {:induction false} TotalOfParts(a: seq<Item>, b: seq<Item>)
    ensures Total(a + b) == Total(a) + Total(b)
  {
    if a == [] {
      assert a + b == b;
    } else {
      TotalOfParts(a[1..], b);
      assert (a + b)[1..] == a[1..] + b;
    }
  }

  lemma TotalWithout(items: seq<Item>, i: nat)
    requires i < |items|
    ensures Total(items) == Total(items[..i] + items[i + 1..]) + |items[i].data|
  {
    TotalOfParts(items[..i], items[i..]);
    TotalOfParts(items[..i], items[i + 1..]);
    assert items == items[..i] + items[i..];
    assert items[i..][1..] == items[i + 1..];
  }

  // ── the steps keep the recency list ──

  /** A used item moves to the end. */
  lemma UseKeeps(items: seq<Item>, log: seq<Op>, limit: nat, op: Op, data: Bytes)
    requires Recency(items, log, limit) && Fits(op, limit)
    requires op.Put? ==> op.data == data
    requires op.Get? ==> Find(items, op.url) == Some(data)
    ensures var all := Without(items, op.url) + [Item(op.url, data)];
      ByUse(all, log + [op], limit)
  {
    hide Without, Find;
    var log' := log + [op];
    assert log'[..|log|] == log;
    var at := WithoutAt(items, op.url);
    var rest := Without(items, op.url);
    forall i | 0 <= i < |rest| ensures rest[i].url != op.url && LastUse(log', rest[i].url, limit) <= |log| {
      UsesArePast(log, rest[i].url, limit);
    }
  }

  lemma FitKeeps(kept: seq<Item>, all: seq<Item>, log: seq<Op>, limit: nat)
    requires ByUse(all, log, limit) && LongestFit(kept, all, limit)
    ensures Recency(kept, log, limit)
  {
  }

  function Size(data: Option<Bytes>): nat {
    if data.Some? then |data.value| else 0
  }

  lemma TotalMoved(items: seq<Item>, log: seq<Op>, limit: nat, url: Url, data: Bytes)
    requires ByUse(items, log, limit)
    ensures Total(items) == Total(Without(items, url)) + Size(Find(items, url))
    ensures Total(Without(items, url) + [Item(url, data)]) == Total(Without(items, url)) + |data|
  {
    var at := WithoutAt(items, url);
    TotalOfParts(Without(items, url), [Item(url, data)]);
    if at < |items| {
      TotalWithout(items, at);
    }
  }

  /** An operation that changes nothing: a miss, or a put too big to keep. */
  lemma IdleKeeps(items: seq<Item>, log: seq<Op>, limit: nat, op: Op)
    requires Recency(items, log, limit)
    requires if op.Put? then !Fits(op, limit) else Find(items, op.url) == None
    ensures Recency(items, log + [op], limit)
  {
    assert (log + [op])[..|log|] == log;
    var at := WithoutAt(items, op.url);
  }

  // ── the cache ──

  class Cache {
    const limit: nat
    var items: seq<Item>
    var size: int
    ghost var log: seq<Op>

    ghost predicate Valid()
      reads this
    {
      Recency(items, log, limit) && size == Total(items)
    }

    constructor (limit: nat)
      ensures Valid() && this.limit == limit && items == [] && log == []
    {
      this.limit, items, size, log := limit, [], 0, [];
    }

    /** A hit returns the bytes of the url's latest put that fitted, and moves it to the end. */
    method Lookup(url: Url) returns (data: Option<Bytes>)
      requires Valid()
      modifies this
      ensures Valid() && log == old(log) + [Get(url)]
      ensures data == Find(old(items), url)
      ensures data.Some? ==> data == LatestPut(old(log), url, limit)
      ensures items == if data == None then old(items) else Without(old(items), url) + [Item(url, data.value)]
    {
      data := Find(items, url);
      ghost var at := WithoutAt(items, url);
      if data.Some? {
        UseKeeps(items, log, limit, Get(url), data.value);
        TotalMoved(items, log, limit, url, data.value);
        items := Without(items, url) + [Item(url, data.value)];
      } else {
        IdleKeeps(items, log, limit, Get(url));
      }
      log := log + [Get(url)];
    }

    /** Drop the oldest items until the rest fits. */
    method Evict()
      requires size == Total(items) && items != [] && |items[|items| - 1].data| <= limit
      modifies `items, `size
      ensures size == Total(items) && items != [] && LongestFit(items, old(items), limit)
    {
      ghost var all := items;
      ghost var k := 0;
      while size > limit
        invariant k < |all| && items == all[k..] && size == Total(items)
        invariant k > 0 ==> Total(all[k - 1..]) > limit
        decreases |items|
      {
        assert all[k..][1..] == all[k + 1..];
        size := size - |items[0].data|;
        items := items[1..];
        k := k + 1;
      }
    }

    /** Storing keeps exactly the longest most recent part that fits; bytes over the limit are not stored, and leave
        what was there. */
    method Store(url: Url, data: Bytes)
      requires Valid()
      modifies this
      ensures Valid() && log == old(log) + [Put(url, data)]
      ensures |data| > limit ==> items == old(items)
      ensures |data| <= limit ==>
        items != [] && LongestFit(items, Without(old(items), url) + [Item(url, data)], limit)
    {
      hide ByUse;
      ghost var op := Put(url, data);
      if |data| > limit {
        IdleKeeps(items, log, limit, op);
        log := log + [op];
        return;
      }
      UseKeeps(items, log, limit, op, data);
      TotalMoved(items, log, limit, url, data);
      var prior := Find(items, url);
      ghost var all := Without(items, url) + [Item(url, data)];
      Insert(url, data, prior);
      Evict();
      FitKeeps(items, all, log + [op], limit);
      log := log + [op];
    }

    /** Replace what was stored for the url, at the recent end. */
    method Insert(url: Url, data: Bytes, prior: Option<Bytes>)
      requires prior == Find(items, url)
      modifies `items, `size
      ensures items == Without(old(items), url) + [Item(url, data)]
      ensures size == old(size) - Size(prior) + |data|
    {
      if prior.Some? {
        items := Without(items, url);
        size := size - |prior.value|;
      } else {
        Absent(items, url);
      }
      items := items + [Item(url, data)];
      size := size + |data|;
    }
  }

  lemma {:induction false} Absent(items: seq<Item>, url: Url)
    requires Find(items, url) == None
    ensures Without(items, url) == items
  {
    if items != [] {
      Absent(items[1..], url);
    }
  }
}

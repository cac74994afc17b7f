/** How the two ranged downloads cut an object into parts.  Ranges are inclusive, as in a Range header. */
module Ranges {

  /** Consecutive non-empty ranges that cover exactly the bytes from 0 up to `total`. */
  ghost predicate Partition(parts: seq<(int, int)>, total: int) {
    && parts != []
    && parts[0].0 == 0
    && parts[|parts| - 1].1 == total - 1
    && (forall i :: 0 <= i < |parts| ==> parts[i].0 <= parts[i].1)
    && (forall i :: 0 < i < |parts| ==> parts[i].0 == parts[i - 1].1 + 1)
  }

  /** In a partition each byte has exactly one part. */
  lemma {:induction false} OnePartEach(parts: seq<(int, int)>, total: int, at: int) returns (i: nat)
    requires Partition(parts, total) && 0 <= at < total
    ensures i < |parts| && parts[i].0 <= at <= parts[i].1
    ensures forall j :: 0 <= j < |parts| && parts[j].0 <= at <= parts[j].1 ==> j == i
  {
    i := 0;
    while parts[i].1 < at
      invariant i < |parts| && parts[i].0 <= at
      decreases |parts| - i
    {
      i := i + 1;
    }
    forall j | 0 <= j < |parts| && j != i ensures !(parts[j].0 <= at <= parts[j].1) {
      if j < i {
        InOrder(parts, total, j, i);
      } else {
        InOrder(parts, total, i, j);
      }
    }
  }

  lemma {:induction false} InOrder(parts: seq<(int, int)>, total: int, i: nat, j: nat)
    requires Partition(parts, total) && i < j < |parts|
    ensures parts[i].1 < parts[j].0
    decreases j
  {
    if i + 1 < j {
      InOrder(parts, total, i, j - 1);
    }
  }

  // ── parts of equal width, the last one cut short ──

  function PartSize(total: nat, width: nat): (part: nat)
    requires width > 0
    ensures part * width >= total && (total > 0 ==> 0 < part && (part - 1) * width < total)
  {
    if total % width == 0 then total / width else total / width + 1
  }

  function BoundsFrom(total: nat, width: nat, part: nat, i: nat): seq<(int, int)>
    requires i <= width
    decreases width - i
  {
    if i == width then []
    else
      var end := if (i + 1) * part < total then (i + 1) * part else total;
      (if i * part < total then [(i * part, end - 1)] else []) + BoundsFrom(total, width, part, i + 1)
  }

  function RangeBounds(total: nat, width: nat): seq<(int, int)>
    requires width > 0
  {
    BoundsFrom(total, width, PartSize(total, width), 0)
  }

  lemma Products(part: nat, i: nat, width: nat)
    requires i < width
    ensures (i + 1) * part == i * part + part <= width * part
  {
    assert (i + 1) * part == i * part + part;
    assert (width - (i + 1)) * part >= 0;
    assert width * part == (i + 1) * part + (width - (i + 1)) * part;
  }

  lemma {:induction false} NothingPastTheEnd(total: nat, width: nat, part: nat, i: nat)
    requires i <= width && i * part >= total
    ensures BoundsFrom(total, width, part, i) == []
    decreases width - i
  {
    if i < width {
      Products(part, i, width);
      NothingPastTheEnd(total, width, part, i + 1);
    }
  }

  /** The bounds from the i-th on partition what is left, shifted to where they start. */
  lemma {:induction false} BoundsCover(total: nat, width: nat, part: nat, i: nat)
    requires i < width && part > 0 && width * part >= total && i * part < total
    ensures var b := BoundsFrom(total, width, part, i);
      && 0 < |b| <= width - i && b[0].0 == i * part && b[|b| - 1].1 == total - 1
      && (forall k :: 0 <= k < |b| ==> b[k].0 <= b[k].1 < b[k].0 + part)
      && (forall k :: 0 <= k < |b| - 1 ==> b[k].1 == b[k].0 + part - 1)
      && (forall k :: 0 < k < |b| ==> b[k].0 == b[k - 1].1 + 1)
    decreases width - i
  {
    Products(part, i, width);
    var rest := BoundsFrom(total, width, part, i + 1);
    if (i + 1) * part < total {
      assert i + 1 < width;
      BoundsCover(total, width, part, i + 1);
      var b := BoundsFrom(total, width, part, i);
      assert b == [(i * part, (i + 1) * part - 1)] + rest;
      assert forall k {:trigger b[k]} :: 0 < k < |b| ==> b[k] == rest[k - 1];
    } else {
      NothingPastTheEnd(total, width, part, i + 1);
    }
  }

  /** A ranged download of a non-empty object gets at most `width` parts, all non-empty, that cover it: all of the
      rounded-up size but the last, which has what is left. */
  lemma RangeBoundsPartition(total: nat, width: nat)
    requires width > 0 && total > 0
    ensures Partition(RangeBounds(total, width), total) && |RangeBounds(total, width)| <= width
    ensures var b, part := RangeBounds(total, width), PartSize(total, width);
      forall k :: 0 <= k < |b| ==> if k < |b| - 1 then b[k].1 - b[k].0 + 1 == part else b[k].1 - b[k].0 + 1 <= part
  {
    var part := PartSize(total, width);
    BoundsCover(total, width, part, 0);
  }

  // ── four streams ──

  const STREAMS := 4

  function Bound(length: nat, i: nat): nat {
    i * length / STREAMS
  }

  function Streams(length: nat): seq<(int, int)> {
    seq(STREAMS, i requires 0 <= i < STREAMS => (Bound(length, i), Bound(length, i + 1) - 1))
  }

  /** The probe asks for at least four bytes; with fewer some stream would have none. */
  lemma StreamsPartition(length: nat)
    ensures Partition(Streams(length), length) <==> length >= STREAMS
  {
    if length < STREAMS {
      assert Streams(length)[0] == (0, -1);
    }
  }

  /** No stream has more than one byte more than another. */
  lemma StreamsAreEven(length: nat, i: nat)
    requires i < STREAMS
    ensures length / STREAMS <= Streams(length)[i].1 - Streams(length)[i].0 + 1 <= length / STREAMS + 1
  {
    assert Streams(length)[i] == (Bound(length, i), Bound(length, i + 1) - 1);
    Quarters(length, i);
    Quarters(length, i + 1);
  }

  lemma Quarters(length: nat, i: nat)
    requires i <= STREAMS
    ensures Bound(length, i) == i * (length / STREAMS) + i * (length % STREAMS) / STREAMS
  {
    var q, r := length / STREAMS, length % STREAMS;
    assert length == STREAMS * q + r;
    if i == 0 {
    } else if i == 1 {
    } else if i == 2 {
      assert 2 * length == STREAMS * (2 * q) + 2 * r;
    } else if i == 3 {
      assert 3 * length == STREAMS * (3 * q) + 3 * r;
    } else {
      assert 4 * length == STREAMS * (4 * q) + 4 * r;
    }
  }
}

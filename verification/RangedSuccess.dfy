/** The four-stream fetch can succeed: every object of at least four bytes has a run with an honest server after which
    it is on disk and success is reported. */
module RangedSuccess {
  import opened Basics
  import opened Ranges
  import opened RangedFetch

  /** The answer a worker asks for. */
  function GoodHead(part: (int, int), length: nat): Head {
    Head(206, false, Some((part, length)), Some(part.1 - part.0 + 1))
  }

  const IDLE := Worker(true, false, [], [], 0)

  /** The workers before the n-th are done, those behind it have not connected, and the n-th stands like this. */
  ghost predicate WorkerAt(y: System, o: Bytes, n: nat, w: Worker) {
    && y.Sized() && Good(y) && n < STREAMS && |y.file| == |o|
    && !y.stop && !y.failed && y.sup == Watching
    && (forall i :: 0 <= i < n ==> !y.workers[i].running)
    && y.workers[n] == w
    && (forall i :: n < i < STREAMS ==> y.workers[i] == IDLE)
  }

  /** All workers before the n-th are done. */
  ghost predicate HalfDone(y: System, o: Bytes, n: nat) {
    && y.Sized() && Good(y) && n <= STREAMS && |y.file| == |o|
    && !y.stop && !y.failed && y.sup == Watching
    && (forall i :: 0 <= i < n ==> !y.workers[i].running)
    && (forall i :: n <= i < STREAMS ==> y.workers[i] == IDLE)
  }

  /** An honest run that gets from one state to the other. */
  ghost predicate Leads(y: System, heads: Heads, run: seq<Label>, z: System, heads': Heads, o: Bytes)
    requires y.Sized() && |heads| == STREAMS
  {
    Possible(y, run) && TruthfulRun(y, heads, run, o) && After(y, run) == z && HeardAll(heads, run) == heads'
  }

  function HeardAll(heads: Heads, run: seq<Label>): Heads
    requires |heads| == STREAMS
    decreases |run|
  {
    if run == [] then heads
    else if run[0].Connect? && run[0].i >= STREAMS then heads
    else HeardAll(Heard(heads, run[0]), run[1..])
  }

  lemma {:induction false} LeadsOn(y: System, heads: Heads, a: seq<Label>, z: System, heads': Heads, b: seq<Label>,
                                   w: System, heads'': Heads, o: Bytes)
    requires y.Sized() && |heads| == STREAMS && Leads(y, heads, a, z, heads', o)
    requires z.Sized() && |heads'| == STREAMS && Leads(z, heads', b, w, heads'', o)
    ensures Leads(y, heads, a + b, w, heads'', o)
    decreases |a|
  {
    hide Next, Truthful;
    if a == [] {
      assert a + b == b;
    } else {
      assert (a + b)[1..] == a[1..] + b;
      LeadsOn(Next(y, a[0]), Heard(heads, a[0]), a[1..], z, heads', b, w, heads'', o);
    }
  }

  lemma OneStep(y: System, heads: Heads, l: Label, o: Bytes)
    requires y.Sized() && |heads| == STREAMS && Enabled(y, l) && Truthful(y, heads, l, o)
    ensures Leads(y, heads, [l], Next(y, l), Heard(heads, l), o)
  {
    hide Next, Truthful;
    assert [l][1..] == [];
    assert After(y, [l]) == After(Next(y, l), []) == Next(y, l);
    assert TruthfulRun(Next(y, l), Heard(heads, l), [], o);
    assert HeardAll(heads, [l]) == HeardAll(Heard(heads, l), []) == Heard(heads, l);
  }

  /** One step of a worker on its way. */
  lemma Moves(y: System, heads: Heads, o: Bytes, i: nat, w: Worker, l: Label, w': Worker)
    requires WorkerAt(y, o, i, w) && |heads| == STREAMS && Enabled(y, l) && Truthful(y, heads, l, o)
    requires var z := Next(y, l);
      z.workers == y.workers[i := w'] && z.stop == y.stop && z.failed == y.failed && z.sup == y.sup
    ensures WorkerAt(Next(y, l), o, i, w') && Leads(y, heads, [l], Next(y, l), Heard(heads, l), o)
  {
    hide Next, Good, Truthful;
    GoodStep(y, l);
    OneStep(y, heads, l, o);
  }

  /** One worker connects, is sent its part in one chunk, writes it and ends. */
  lemma WorkerFinishes(y: System, heads: Heads, o: Bytes, i: nat) returns (run: seq<Label>, z: System, heads': Heads)
    requires |heads| == STREAMS && i < STREAMS && HalfDone(y, o, i)
    ensures z.Sized() && |heads'| == STREAMS && HalfDone(z, o, i + 1) && Leads(y, heads, run, z, heads', o)
  {
    hide Good, Leads;
    var part := Part(y, i);
    PartInside(y, i);
    var head, chunk := GoodHead(part, |o|), o[part.0..part.1 + 1];
    heads' := heads[i := Some(head)];
    Moves(y, heads, o, i, IDLE, Connect(i, head), IDLE.(verified := true));
    var y1 := Next(y, Connect(i, head));
    var w := Worker(true, true, [], chunk, 0);
    Moves(y1, heads', o, i, IDLE.(verified := true), Deliver(i, chunk), w);
    var y2 := Next(y1, Deliver(i, chunk));
    var tail;
    tail, z := WritesAndEnds(y2, heads', o, i, w);
    LeadsOn(y1, heads', [Deliver(i, chunk)], y2, heads', tail, z, heads', o);
    LeadsOn(y, heads, [Connect(i, head)], y1, heads', [Deliver(i, chunk)] + tail, z, heads', o);
    run := [Connect(i, head)] + ([Deliver(i, chunk)] + tail);
  }

  lemma PartInside(y: System, i: nat)
    requires Good(y) && i < STREAMS
    ensures 0 <= Part(y, i).0 <= Part(y, i).1 < |y.file|
  {
    assert InPart(y.workers[i], y.parts[i], y.file);
  }

  lemma WritesAndEnds(y: System, heads: Heads, o: Bytes, i: nat, w: Worker) returns (run: seq<Label>, z: System)
    requires |heads| == STREAMS && WorkerAt(y, o, i, w) && w == Worker(true, true, [], w.pending, 0)
    requires |w.pending| == Part(y, i).1 + 1 - Part(y, i).0 > 0
    ensures z.Sized() && HalfDone(z, o, i + 1) && Leads(y, heads, run, z, heads, o)
  {
    hide Good, Leads;
    var n := |w.pending|;
    var full := Worker(true, true, w.pending, [], n);
    assert [] + w.pending[..n] == w.pending && w.pending[n..] == [];
    Moves(y, heads, o, i, w, Write(i, n), full);
    var y1 := Next(y, Write(i, n));
    Moves(y1, heads, o, i, full, End(i), full.(running := false));
    z := Next(y1, End(i));
    LeadsOn(y, heads, [Write(i, n)], y1, heads, [End(i)], z, heads, o);
    run := [Write(i, n)] + [End(i)];
  }

  lemma {:induction false} WorkersFinish(o: Bytes, n: nat) returns (run: seq<Label>, z: System, heads: Heads)
    requires |o| >= STREAMS && n <= STREAMS
    ensures z.Sized() && |heads| == STREAMS && HalfDone(z, o, n) && Leads(Start(|o|), NOBODY, run, z, heads, o)
    decreases n
  {
    if n == 0 {
      StartIsGood(|o|);
      run, z, heads := [], Start(|o|), NOBODY;
    } else {
      var first, y, before := WorkersFinish(o, n - 1);
      var more;
      more, z, heads := WorkerFinishes(y, before, o, n - 1);
      LeadsOn(Start(|o|), NOBODY, first, y, before, more, z, heads, o);
      run := first + more;
    }
  }

  /** Every object of at least four bytes can be fetched. */
  lemma EveryObjectCanBeFetched(o: Bytes) returns (run: seq<Label>)
    requires |o| >= STREAMS
    ensures Possible(Start(|o|), run) && TruthfulRun(Start(|o|), NOBODY, run, o)
    ensures After(Start(|o|), run).sup == Returned(true) && After(Start(|o|), run).file == o
  {
    var first, y, heads := WorkersFinish(o, STREAMS);
    var y1 := Next(y, Poll(false));
    OneStep(y, heads, Poll(false), o);
    OneStep(y1, heads, Judge(false), o);
    var z := Next(y1, Judge(false));
    LeadsOn(y, heads, [Poll(false)], y1, heads, [Judge(false)], z, heads, o);
    LeadsOn(Start(|o|), NOBODY, first, y, heads, [Poll(false)] + [Judge(false)], z, heads, o);
    run := first + ([Poll(false)] + [Judge(false)]);
    SuccessIsTheObject(|o|, o, run);
  }
}

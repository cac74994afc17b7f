/** The four-stream ranged fetch: workers that write their own part of one preallocated file, in any
    interleaving, and a supervisor that judges them. */
module RangedFetch {
  import opened Basics
  import opened Ranges

  type Byte = bv8
  type Bytes = seq<Byte>

  // ── writing one chunk ──

  /** Write all of `data` at `offset`.  `kernel` gives what each write call returns, in order; a call never
      writes more than it was given, may write less, and nothing written is an error. */
  method PwriteAll(file: array<Byte>, data: Bytes, offset: nat, kernel: (nat, nat) -> int) returns (ok: bool)
    requires offset + |data| <= file.Length
    requires forall call, size :: kernel(call, size) <= size
    modifies file
    ensures exists n: nat ::
      && n <= |data| && (ok <==> n == |data|)
      && file[..] == old(file[..offset]) + data[..n] + old(file[offset + n..])
  {
    var at, call := offset, 0;
    var view := data;
    while view != []
      invariant at + |view| == offset + |data| && offset <= at && view == data[at - offset..]
      invariant file[..] == old(file[..offset]) + data[..at - offset] + old(file[at..])
      decreases |view|
    {
      var n := kernel(call, |view|);
      if n <= 0 {
        assert at - offset < |data|;
        return false;
      }
      forall i | at <= i < at + n {
        file[i] := view[i - at];
      }
      assert data[..at + n - offset] == data[..at - offset] + view[..n];
      view, at, call := view[n..], at + n, call + 1;
    }
    assert data[..|data|] == data;
    return true;
  }

  // ── workers and supervisor ──

  /** `got` is what this worker has written of its part, `pending` what is left of the chunk in hand, `counted`
      the bytes it has reported; `verified` says its answer passed every check. */
  datatype Worker = Worker(running: bool, verified: bool, got: Bytes, pending: Bytes, counted: nat)

  datatype Verdict = Watching | Broken | Finished | Returned(complete: bool)

  /** `parts` are the ranges the workers were started with. */
  datatype System = System(parts: seq<(int, int)>, file: Bytes, workers: seq<Worker>, stop: bool, failed: bool,
                           progress: int, sup: Verdict) {
    predicate Sized() {
      |parts| == STREAMS && |workers| == STREAMS
    }
  }

  /** The headers of a range answer: the Content-Range is given as its parsed span and total. */
  datatype Head = Head(status: int, encoded: bool, span: Option<((int, int), int)>, length: Option<int>)

  datatype Label =
    | Connect(i: nat, head: Head)
    | Deliver(i: nat, chunk: Bytes)
    | Write(i: nat, n: nat)
    | Break(i: nat)
    | End(i: nat)
    | Poll(late: bool)
    | Stop
    | Judge(stuck: bool)

  function Part(y: System, i: nat): (int, int)
    requires i < |y.parts|
  {
    y.parts[i]
  }

  /** Where worker i writes next. */
  function At(y: System, i: nat): int
    requires i < STREAMS && y.Sized()
  {
    Part(y, i).0 + |y.workers[i].got|
  }

  predicate Accepted(head: Head, part: (int, int), length: nat) {
    && head.status == 206
    && !head.encoded
    && head.span == Some((part, length))
    && (head.length.Some? ==> head.length.value == part.1 - part.0 + 1)
  }

  /** The first failure is recorded and stops the others; once stopped, a failing worker just leaves. */
  function Fail(y: System, i: nat): System
    requires i < |y.workers|
  {
    var y1 := y.(workers := y.workers[i := y.workers[i].(running := false)]);
    if y.stop then y1 else y1.(failed := true, stop := true)
  }

  function Leave(y: System, i: nat): System
    requires i < |y.workers|
  {
    y.(workers := y.workers[i := y.workers[i].(running := false)])
  }

  predicate Enabled(y: System, l: Label)
    requires y.Sized()
  {
    match l
    case Connect(i, _) => i < STREAMS && y.workers[i].running && !y.workers[i].verified
    case Deliver(i, _) => i < STREAMS && y.workers[i].running && y.workers[i].verified && y.workers[i].pending == []
    case Write(i, n) => i < STREAMS && y.workers[i].running && 0 < n <= |y.workers[i].pending|
    case Break(i) => i < STREAMS && y.workers[i].running
    case End(i) => i < STREAMS && y.workers[i].running && y.workers[i].verified && y.workers[i].pending == []
    case Poll(_) => y.sup == Watching
    case Stop => y.sup == Broken
    case Judge(stuck) =>
      || (y.sup == Broken && y.stop && (stuck || forall i :: 0 <= i < STREAMS ==> !y.workers[i].running))
      || y.sup == Finished
  }

  /** Requests that raise, failing reads and failing writes are `Break`. */
  function Next(y: System, l: Label): (z: System)
    requires y.Sized() && Enabled(y, l)
    ensures z.Sized() && |z.file| == |y.file|
  {
    match l
    case Connect(i, head) =>
      if y.stop then Leave(y, i)
      else if !Accepted(head, Part(y, i), |y.file|) then Fail(y, i)
      else y.(workers := y.workers[i := y.workers[i].(verified := true)])
    case Deliver(i, chunk) =>
      if y.stop then Leave(y, i)
      else if At(y, i) + |chunk| > Part(y, i).1 + 1 then Fail(y, i)
      else y.(workers := y.workers[i := y.workers[i].(pending := chunk)])
    case Write(i, n) => WriteSome(y, i, n)
    case Break(i) => Fail(y, i)
    case End(i) => if At(y, i) != Part(y, i).1 + 1 && !y.stop then Fail(y, i) else Leave(y, i)
    case Poll(late) =>
      if y.failed then y.(sup := Broken)
      else if late then y.(sup := Broken)
      else if forall i :: 0 <= i < STREAMS ==> !y.workers[i].running then y.(sup := Finished)
      else y
    case Stop => y.(stop := true)
    case Judge(stuck) => y.(sup := Returned(y.sup == Finished && !stuck && !y.failed))
  }

  /** What a worker has after a write of n bytes; a chunk fully written is reported. */
  function Credit(w: Worker, n: nat): Worker
    requires n <= |w.pending|
  {
    var got := w.got + w.pending[..n];
    w.(got := got, pending := w.pending[n..], counted := if n == |w.pending| then |got| else w.counted)
  }

  function WriteSome(y: System, i: nat, n: nat): System
    requires y.Sized() && i < STREAMS && n <= |y.workers[i].pending|
  {
    var w := y.workers[i];
    y.(file := Written(y.file, At(y, i), w.pending[..n]), workers := y.workers[i := Credit(w, n)],
       progress := y.progress + Credit(w, n).counted - w.counted)
  }

  /** A file after a write at an offset; nothing is written outside it. */
  function Written(file: Bytes, at: int, data: Bytes): (r: Bytes)
    ensures |r| == |file|
  {
    seq(|file|, k requires 0 <= k < |file| => if at <= k < at + |data| then data[k - at] else file[k])
  }

  /** The preallocated file, and four workers that have not connected yet. */
  function Start(length: nat): System {
    var idle := Worker(true, false, [], [], 0);
    System(Streams(length), seq(length, _ => 0), [idle, idle, idle, idle], false, false, 0, Watching)
  }

  predicate Possible(y: System, run: seq<Label>)
    requires y.Sized()
    decreases |run|
  {
    run == [] || (Enabled(y, run[0]) && Possible(Next(y, run[0]), run[1..]))
  }

  function After(y: System, run: seq<Label>): (z: System)
    requires y.Sized() && Possible(y, run)
    ensures z.Sized() && |z.file| == |y.file|
    decreases |run|
  {
    if run == [] then y else After(Next(y, run[0]), run[1..])
  }

  // ── the invariant ──

  function Counted(ws: seq<Worker>): int {
    if ws == [] then 0 else Counted(ws[..|ws| - 1]) + ws[|ws| - 1].counted
  }

  /** A worker keeps within its part, writes only what a verified answer delivered, and what it wrote is there. */
  ghost predicate InPart(w: Worker, part: (int, int), file: Bytes) {
    && 0 <= part.0 <= part.1 < |file|
    && part.0 + |w.got| + |w.pending| <= part.1 + 1
    && (w.got + w.pending != [] ==> w.verified)
    && w.counted <= |w.got|
    && (w.pending == [] ==> w.counted == |w.got|)
    && (forall k :: 0 <= k < |w.got| ==> file[part.0 + k] == w.got[k])
  }

  predicate Complete(w: Worker, part: (int, int)) {
    !w.running && w.verified && w.pending == [] && |w.got| == part.1 + 1 - part.0
  }

  ghost predicate Laid(parts: seq<(int, int)>, workers: seq<Worker>, file: Bytes) {
    && |parts| == STREAMS && |workers| == STREAMS
    && forall i :: 0 <= i < STREAMS ==> InPart(workers[i], parts[i], file)
  }

  ghost predicate Steered(y: System)
    requires y.Sized()
  {
    && (y.failed ==> y.stop)
    && (!y.stop ==> forall i :: 0 <= i < STREAMS && !y.workers[i].running ==> Complete(y.workers[i], y.parts[i]))
    && (y.stop ==> y.failed || y.sup == Broken || y.sup == Returned(false))
    && (y.sup == Finished || y.sup == Returned(true) ==>
          !y.stop && forall i :: 0 <= i < STREAMS ==> !y.workers[i].running)
  }

  ghost predicate Good(y: System) {
    && Laid(y.parts, y.workers, y.file)
    && Partition(y.parts, |y.file|)
    && y.progress == Counted(y.workers)
    && Steered(y)
  }

  lemma {:induction false} CountedChanges(ws: seq<Worker>, i: nat, w: Worker)
    requires i < |ws|
    ensures Counted(ws[i := w]) == Counted(ws) + w.counted - ws[i].counted
    decreases |ws|
  {
    var n := |ws| - 1;
    if i < n {
      CountedChanges(ws[..n], i, w);
      assert ws[i := w][..n] == ws[..n][i := w];
    } else {
      assert ws[i := w][..n] == ws[..n];
    }
  }

  lemma WrittenApart(w: Worker, part: (int, int), file: Bytes, at: int, data: Bytes)
    requires InPart(w, part, file) && (part.1 < at || at + |data| <= part.0)
    ensures InPart(w, part, Written(file, at, data))
  {
  }

  lemma WrittenNext(w: Worker, part: (int, int), file: Bytes, n: nat)
    requires InPart(w, part, file) && n <= |w.pending|
    ensures var got := w.got + w.pending[..n];
      InPart(Credit(w, n), part, Written(file, part.0 + |w.got|, w.pending[..n]))
  {
    assert w.pending != [] ==> w.got + w.pending != [];
    assert Credit(w, n).got + Credit(w, n).pending != [] ==> w.got + w.pending != [];
  }

  lemma Apart(parts: seq<(int, int)>, length: nat, i: nat, j: nat)
    requires Partition(parts, length) && i < |parts| && j < |parts| && i != j
    ensures parts[i].1 < parts[j].0 || parts[j].1 < parts[i].0
  {
    if i < j {
      InOrder(parts, length, i, j);
    } else {
      InOrder(parts, length, j, i);
    }
  }

  lemma OthersUntouched(y: System, i: nat, n: nat, j: nat)
    requires Good(y) && Enabled(y, Write(i, n)) && j < STREAMS && j != i
    ensures InPart(y.workers[j], y.parts[j], Next(y, Write(i, n)).file)
  {
    var w, part := y.workers[i], y.parts[i];
    assert InPart(w, part, y.file) && InPart(y.workers[j], y.parts[j], y.file);
    Apart(y.parts, |y.file|, i, j);
    WrittenApart(y.workers[j], y.parts[j], y.file, part.0 + |w.got|, w.pending[..n]);
  }

  /** A write changes bytes of its worker's own part only. */
  lemma WriteStaysInside(y: System, i: nat, n: nat)
    requires Good(y) && Enabled(y, Write(i, n))
    ensures var z := Next(y, Write(i, n));
      && |z.file| == |y.file|
      && (forall k :: 0 <= k < |y.file| && !(Part(y, i).0 <= k <= Part(y, i).1) ==> z.file[k] == y.file[k])
      && Laid(z.parts, z.workers, z.file)
  {
    assert InPart(y.workers[i], y.parts[i], y.file);
    WrittenNext(y.workers[i], y.parts[i], y.file, n);
    var z := Next(y, Write(i, n));
    forall j | 0 <= j < STREAMS ensures InPart(z.workers[j], z.parts[j], z.file) {
      if j != i {
        OthersUntouched(y, i, n, j);
      }
    }
  }

  lemma WriteGood(y: System, i: nat, n: nat)
    requires Good(y) && Enabled(y, Write(i, n))
    ensures Good(Next(y, Write(i, n)))
  {
    WriteStaysInside(y, i, n);
    CountedChanges(y.workers, i, Credit(y.workers[i], n));
  }

  lemma WorkerGood(y: System, i: nat, w: Worker)
    requires Good(y) && i < STREAMS && InPart(w, y.parts[i], y.file) && w.counted == y.workers[i].counted
    ensures y.progress == Counted(y.workers[i := w]) && Laid(y.parts, y.workers[i := w], y.file)
  {
    CountedChanges(y.workers, i, w);
  }

  lemma FailGood(y: System, i: nat)
    requires Good(y) && i < STREAMS && y.workers[i].running
    ensures Good(Fail(y, i))
  {
    assert InPart(y.workers[i], y.parts[i], y.file);
    WorkerGood(y, i, y.workers[i].(running := false));
  }

  lemma LeaveGood(y: System, i: nat)
    requires Good(y) && i < STREAMS && y.workers[i].running
    requires y.stop || Complete(y.workers[i].(running := false), y.parts[i])
    ensures Good(Leave(y, i))
  {
    assert InPart(y.workers[i], y.parts[i], y.file);
    WorkerGood(y, i, y.workers[i].(running := false));
  }

  lemma ConnectGood(y: System, i: nat, head: Head)
    requires Good(y) && Enabled(y, Connect(i, head))
    ensures Good(Next(y, Connect(i, head)))
  {
    if y.stop {
      LeaveGood(y, i);
    } else if !Accepted(head, Part(y, i), |y.file|) {
      FailGood(y, i);
    } else {
      assert InPart(y.workers[i], y.parts[i], y.file);
      WorkerGood(y, i, y.workers[i].(verified := true));
    }
  }

  lemma DeliverGood(y: System, i: nat, chunk: Bytes)
    requires Good(y) && Enabled(y, Deliver(i, chunk))
    ensures Good(Next(y, Deliver(i, chunk)))
  {
    if y.stop {
      LeaveGood(y, i);
    } else if At(y, i) + |chunk| > Part(y, i).1 + 1 {
      FailGood(y, i);
    } else {
      assert InPart(y.workers[i], y.parts[i], y.file);
      WorkerGood(y, i, y.workers[i].(pending := chunk));
    }
  }

  lemma EndGood(y: System, i: nat)
    requires Good(y) && Enabled(y, End(i))
    ensures Good(Next(y, End(i)))
  {
    if At(y, i) != Part(y, i).1 + 1 && !y.stop {
      FailGood(y, i);
    } else {
      LeaveGood(y, i);
    }
  }

  lemma GoodStep(y: System, l: Label)
    requires Good(y) && Enabled(y, l)
    ensures Good(Next(y, l))
  {
    match l
    case Write(i, n) => WriteGood(y, i, n);
    case Connect(i, head) => ConnectGood(y, i, head);
    case Deliver(i, chunk) => DeliverGood(y, i, chunk);
    case Break(i) => FailGood(y, i);
    case End(i) => EndGood(y, i);
    case _ =>
  }

  lemma {:induction false} GoodRun(y: System, run: seq<Label>)
    requires Good(y) && Possible(y, run)
    ensures Good(After(y, run))
    decreases |run|
  {
    if run != [] {
      GoodStep(y, run[0]);
      GoodRun(Next(y, run[0]), run[1..]);
    }
  }

  lemma StartIsGood(length: nat)
    requires length >= STREAMS
    ensures Good(Start(length))
  {
    StreamsPartition(length);
    var ws := Start(length).workers;
    assert ws[..3][..2] == ws[..2] && ws[..2][..1] == ws[..1];
    assert Counted(ws[..1]) == Counted(ws[..1][..0]) == 0;
  }

  // ── the result ──

  function Bodies(ws: seq<Worker>): Bytes {
    if ws == [] then [] else Bodies(ws[..|ws| - 1]) + ws[|ws| - 1].got
  }

  lemma {:induction false} BodiesFill(y: System, i: nat)
    requires Good(y) && i < STREAMS
    requires forall j :: 0 <= j < STREAMS ==> Complete(y.workers[j], y.parts[j])
    ensures Bodies(y.workers[..i + 1]) == y.file[..Part(y, i).1 + 1]
    ensures Counted(y.workers[..i + 1]) == Part(y, i).1 + 1
    decreases i
  {
    var ws := y.workers[..i + 1];
    assert ws[..i] == y.workers[..i];
    if i > 0 {
      BodiesFill(y, i - 1);
    }
    var from, to := Part(y, i).0, Part(y, i).1 + 1;
    BodyInPlace(y, i);
    Glued(y.file, from, to);
  }

  lemma BodyInPlace(y: System, i: nat)
    requires Good(y) && i < STREAMS && Complete(y.workers[i], y.parts[i])
    ensures 0 <= Part(y, i).0 <= Part(y, i).1 + 1 <= |y.file|
    ensures y.file[Part(y, i).0..Part(y, i).1 + 1] == y.workers[i].got
  {
    assert InPart(y.workers[i], y.parts[i], y.file);
  }

  lemma Glued(file: Bytes, from: nat, to: nat)
    requires from <= to <= |file|
    ensures file[..from] + file[from..to] == file[..to]
  {
  }

  /** In every interleaving, a fetch that reports success has the whole file on disk: it is the four bodies in
      order, each from an answer whose status and Content-Range were checked, and all of it was reported. */
  lemma SuccessIsTheWholeFile(length: nat, run: seq<Label>)
    requires length >= STREAMS && Possible(Start(length), run)
    ensures var z := After(Start(length), run);
      z.sup == Returned(true) ==>
        && |z.file| == length && z.file == Bodies(z.workers)
        && (forall i :: 0 <= i < STREAMS ==> Complete(z.workers[i], z.parts[i]))
        && z.progress == length
  {
    StartIsGood(length);
    GoodRun(Start(length), run);
    var z := After(Start(length), run);
    if z.sup == Returned(true) {
      BodiesFill(z, STREAMS - 1);
      assert z.workers[..STREAMS] == z.workers && z.file[..length] == z.file;
    }
  }

  // ── honest bodies ──

  /** The object has these bytes at this place, as far as it goes. */
  ghost predicate Matches(bytes: Bytes, o: Bytes, at: int) {
    forall k :: 0 <= k < |bytes| && 0 <= at + k < |o| ==> o[at + k] == bytes[k]
  }

  /** The last answer each worker was sent, by its headers. */
  type Heads = seq<Option<Head>>

  function Heard(heads: Heads, l: Label): Heads
    requires |heads| == STREAMS && (l.Connect? ==> l.i < STREAMS)
  {
    if l.Connect? then heads[l.i := Some(l.head)] else heads
  }

  /** What an honest server says and sends.  A plain 206 declares the length the object has.  A chunk of its body
      carries the object's bytes from the place on that the answer itself declared, whatever was asked for; a chunk
      the worker has no room for may carry anything, as may every other kind of answer. */
  ghost predicate Truthful(y: System, heads: Heads, l: Label, o: Bytes)
    requires y.Sized() && |heads| == STREAMS && Enabled(y, l)
  {
    match l
    case Connect(_, head) => head.status == 206 && head.span.Some? ==> head.span.value.1 == |o|
    case Deliver(i, chunk) =>
      var head := heads[i];
      head.Some? && head.value.status == 206 && !head.value.encoded && head.value.span.Some?
      && At(y, i) + |chunk| <= Part(y, i).1 + 1 ==>
        Matches(chunk, o, head.value.span.value.0.0 + |y.workers[i].got|)
    case _ => true
  }

  ghost predicate TruthfulRun(y: System, heads: Heads, run: seq<Label>, o: Bytes)
    requires y.Sized() && |heads| == STREAMS && Possible(y, run)
    decreases |run|
  {
    run == [] || (Truthful(y, heads, run[0], o) && TruthfulRun(Next(y, run[0]), Heard(heads, run[0]), run[1..], o))
  }

  const NOBODY: Heads := [None, None, None, None]

  ghost predicate Own(w: Worker, part: (int, int), o: Bytes) {
    Matches(w.got, o, part.0) && Matches(w.pending, o, part.0 + |w.got|)
  }

  /** A verified worker has an answer to its own part, of a server whose object has the length of the file. */
  ghost predicate Answered(w: Worker, part: (int, int), head: Option<Head>, length: nat, o: Bytes) {
    && (w.verified ==>
          && head.Some? && head.value.status == 206 && !head.value.encoded
          && head.value.span.Some? && head.value.span.value.0.0 == part.0 && |o| == length)
    && (!w.verified ==> w.got == [] && w.pending == [])
  }

  ghost predicate Genuine(y: System, heads: Heads, o: Bytes)
    requires y.Sized() && |heads| == STREAMS
  {
    forall i :: 0 <= i < STREAMS ==>
      Own(y.workers[i], y.parts[i], o) && Answered(y.workers[i], y.parts[i], heads[i], |y.file|, o)
  }

  /** A worker that connects goes on exactly when its answer is a plain 206 for the very range and length it asked for,
      and any Content-Length is that of the range.  Otherwise it fails the fetch, and none of its bytes is read. */
  lemma ConnectsExactly(y: System, i: nat, head: Head)
    requires y.Sized() && Enabled(y, Connect(i, head)) && !y.stop
    ensures var z := Next(y, Connect(i, head));
      && (z.workers[i].verified <==>
            && head.status == 206 && !head.encoded && head.span.Some?
            && head.span.value.0.0 == y.parts[i].0 && head.span.value.0.1 == y.parts[i].1
            && head.span.value.1 == |y.file|
            && (head.length.Some? ==> head.length.value == y.parts[i].1 - y.parts[i].0 + 1))
      && (!z.workers[i].verified ==> z.failed && z.stop && !z.workers[i].running)
      && z.file == y.file && z.workers[i].got == y.workers[i].got && z.workers[i].pending == y.workers[i].pending
  {
  }

  lemma CreditOwn(w: Worker, part: (int, int), o: Bytes, n: nat)
    requires n <= |w.pending| && Own(w, part, o)
    ensures Own(Credit(w, n), part, o)
  {
    var z := Credit(w, n);
    forall k | 0 <= k < |z.pending| && 0 <= part.0 + |z.got| + k < |o| ensures o[part.0 + |z.got| + k] == z.pending[k] {
      assert z.pending[k] == w.pending[n + k] && o[part.0 + |w.got| + (n + k)] == w.pending[n + k];
    }
  }

  lemma OneWorkerMoves(y: System, heads: Heads, z: System, heads': Heads, i: nat, o: Bytes)
    requires y.Sized() && z.Sized() && |heads| == |heads'| == STREAMS && Genuine(y, heads, o) && i < STREAMS
    requires z.parts == y.parts && |z.file| == |y.file|
    requires z.workers == y.workers[i := z.workers[i]] && heads' == heads[i := heads'[i]]
    requires Own(z.workers[i], z.parts[i], o) && Answered(z.workers[i], z.parts[i], heads'[i], |z.file|, o)
    ensures Genuine(z, heads', o)
  {
  }

  lemma ConnectGenuine(y: System, heads: Heads, i: nat, head: Head, o: Bytes)
    requires y.Sized() && |heads| == STREAMS && Enabled(y, Connect(i, head)) && Genuine(y, heads, o)
    requires Truthful(y, heads, Connect(i, head), o)
    ensures Genuine(Next(y, Connect(i, head)), heads[i := Some(head)], o)
  {
    assert Own(y.workers[i], y.parts[i], o) && Answered(y.workers[i], y.parts[i], heads[i], |y.file|, o);
    OneWorkerMoves(y, heads, Next(y, Connect(i, head)), heads[i := Some(head)], i, o);
  }

  lemma GenuineStep(y: System, heads: Heads, l: Label, o: Bytes)
    requires y.Sized() && |heads| == STREAMS && Enabled(y, l) && Genuine(y, heads, o) && Truthful(y, heads, l, o)
    ensures Genuine(Next(y, l), Heard(heads, l), o)
  {
    match l
    case Write(i, n) =>
      assert Own(y.workers[i], y.parts[i], o) && Answered(y.workers[i], y.parts[i], heads[i], |y.file|, o);
      CreditOwn(y.workers[i], y.parts[i], o, n);
      OneWorkerMoves(y, heads, Next(y, l), heads, i, o);
    case Connect(i, head) => ConnectGenuine(y, heads, i, head, o);
    case Deliver(i, chunk) =>
      assert Own(y.workers[i], y.parts[i], o) && Answered(y.workers[i], y.parts[i], heads[i], |y.file|, o);
      OneWorkerMoves(y, heads, Next(y, l), heads, i, o);
    case Break(i) => StaysOwn(y, heads, Next(y, l), i, o);
    case End(i) => StaysOwn(y, heads, Next(y, l), i, o);
    case _ =>
  }

  lemma StaysOwn(y: System, heads: Heads, z: System, i: nat, o: Bytes)
    requires y.Sized() && z.Sized() && |heads| == STREAMS && Genuine(y, heads, o) && i < STREAMS
    requires z.parts == y.parts && |z.file| == |y.file| && z.workers == y.workers[i := z.workers[i]]
    requires z.workers[i] == y.workers[i].(running := z.workers[i].running)
    ensures Genuine(z, heads, o)
  {
    assert Own(y.workers[i], y.parts[i], o) && Answered(y.workers[i], y.parts[i], heads[i], |y.file|, o);
    OneWorkerMoves(y, heads, z, heads, i, o);
  }

  lemma {:induction false} GenuineRun(y: System, heads: Heads, run: seq<Label>, o: Bytes) returns (last: Heads)
    requires y.Sized() && |heads| == STREAMS && Possible(y, run) && Genuine(y, heads, o)
    requires TruthfulRun(y, heads, run, o)
    ensures |last| == STREAMS && Genuine(After(y, run), last, o)
    decreases |run|
  {
    if run == [] {
      last := heads;
    } else {
      GenuineStep(y, heads, run[0], o);
      last := GenuineRun(Next(y, run[0]), Heard(heads, run[0]), run[1..], o);
    }
  }

  lemma FileMatches(y: System, heads: Heads, o: Bytes, k: nat)
    requires Good(y) && |heads| == STREAMS && Genuine(y, heads, o) && |o| == |y.file| && k < |o|
    requires forall i :: 0 <= i < STREAMS ==> Complete(y.workers[i], y.parts[i])
    ensures y.file[k] == o[k]
  {
    var i := OnePartEach(y.parts, |y.file|, k);
    var w, part := y.workers[i], y.parts[i];
    assert Complete(w, part) && InPart(w, part, y.file) && Own(w, part, o);
    assert y.file[part.0 + (k - part.0)] == w.got[k - part.0] == o[part.0 + (k - part.0)];
  }

  /** With an honest server a fetch that reports success has the object on disk, whatever length the probe had
      announced.  Nothing is assumed about how answers relate to what was asked: that is what the workers check. */
  lemma SuccessIsTheObject(length: nat, o: Bytes, run: seq<Label>)
    requires length >= STREAMS && Possible(Start(length), run) && TruthfulRun(Start(length), NOBODY, run, o)
    ensures var z := After(Start(length), run); z.sup == Returned(true) ==> z.file == o
  {
    hide Good;
    StartIsGood(length);
    GoodRun(Start(length), run);
    var heads := GenuineRun(Start(length), NOBODY, run, o);
    SuccessIsTheWholeFile(length, run);
    var z := After(Start(length), run);
    if z.sup == Returned(true) {
      assert Complete(z.workers[0], z.parts[0]) && Answered(z.workers[0], z.parts[0], heads[0], |z.file|, o);
      forall k | 0 <= k < |o| ensures z.file[k] == o[k] {
        FileMatches(z, heads, o, k);
      }
    }
  }
}

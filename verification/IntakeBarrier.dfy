/** The barrier between the readers and the sender.  The reader of a connection hands jobs to its intake in arrival
    order and stamps each acknowledgement with the number of jobs read so far on any connection; the sender settles
    an acknowledgement once that many jobs have been dealt with, or the connection is lost, or the stream stops.
    The two counters outlive the connections. */
module IntakeBarrier {
  import opened Basics
  import opened Frames

  /** The jobs an intake still has to deal with, oldest first.  Jobs are named by their place in the arrival order
      over all connections. */
  datatype Conn = Conn(deferred: seq<nat>, dead: bool)

  /** Read on this connection, after this many jobs. */
  datatype Mark = Mark(conn: nat, jobs: nat)

  /** An acknowledgement the barrier let through; `calm` says that its connection was live and the stream not
      stopping, so that the count alone opened the barrier. */
  datatype Passed = Passed(mark: Mark, calm: bool)

  /** The event a settled acknowledgement left, by its number. */
  datatype Settled = Settled(passed: Passed, num: nat)

  /** `origin` gives the connection of every job read.  Connections are numbered as they open.  `receipts` gives
      the number of the receipt a job got, if it could be written. */
  datatype Barrier = Barrier(conns: seq<Conn>, live: Option<nat>, stop: bool, origin: seq<nat>, done: nat,
                             marks: map<Key, Mark>, passed: map<Key, Passed>, next: nat, receipts: map<nat, nat>,
                             settled: seq<Settled>)

  const START := Barrier([], None, false, [], 0, map[], map[], 1, map[], [])

  datatype Step =
    | Open
    | Lose
    | Stop
    | ReadJob(conn: nat)
    | ReadAck(key: Key)
    | HandleJob(conn: nat, receipt: bool)
    | IntakeDies(conn: nat)
    | PassBarrier(key: Key)
    | SettleAck(key: Key)
    | OtherAppend

  /** What the sender waits for. */
  predicate Released(b: Barrier, mark: Mark) {
    b.stop || b.live == None || b.done >= mark.jobs
  }

  predicate Working(b: Barrier, c: nat) {
    c < |b.conns| && b.conns[c].deferred != [] && !b.conns[c].dead
  }

  predicate Enabled(b: Barrier, t: Step) {
    match t
    case Open => b.live == None && !b.stop
    case ReadJob(c) => c < |b.conns|
    case ReadAck(_) => b.live.Some? && b.live.value < |b.conns|
    case HandleJob(c, _) => Working(b, c)
    case IntakeDies(c) => c < |b.conns| && !b.conns[c].dead
    case PassBarrier(key) => key in b.marks && Released(b, b.marks[key])
    case SettleAck(key) => key in b.passed
    case _ => true
  }

  function Next(b: Barrier, t: Step): Barrier
    requires Enabled(b, t)
  {
    match t
    case Open => b.(conns := b.conns + [Conn([], false)], live := Some(|b.conns|))
    case Lose => b.(live := None)
    case Stop => b.(live := None, stop := true)
    case ReadJob(c) =>
      // A dead intake takes no more jobs; they are not counted either.
      if b.conns[c].dead then b
      else b.(conns := b.conns[c := b.conns[c].(deferred := b.conns[c].deferred + [|b.origin|])],
              origin := b.origin + [c])
    case ReadAck(key) => b.(marks := b.marks[key := Mark(b.live.value, |b.origin|)])
    case HandleJob(c, receipt) =>
      var job := b.conns[c].deferred[0];
      var b1 := b.(done := b.done + 1, conns := b.conns[c := b.conns[c].(deferred := b.conns[c].deferred[1..])]);
      if receipt then b1.(receipts := b.receipts[job := b.next], next := b.next + 1) else b1
    case IntakeDies(c) =>
      // Every job still deferred counts as dealt with, without a receipt.
      b.(done := b.done + |b.conns[c].deferred|, conns := b.conns[c := Conn([], true)])
    case PassBarrier(key) =>
      var mark := b.marks[key];
      b.(marks := Drop(b.marks, key),
         passed := b.passed[key := Passed(mark, !b.stop && b.live == Some(mark.conn))])
    case SettleAck(key) =>
      b.(settled := b.settled + [Settled(b.passed[key], b.next)], next := b.next + 1,
         passed := Drop(b.passed, key))
    case OtherAppend => b.(next := b.next + 1)
  }

  predicate Possible(b: Barrier, run: seq<Step>)
    decreases |run|
  {
    run == [] || (Enabled(b, run[0]) && Possible(Next(b, run[0]), run[1..]))
  }

  function After(b: Barrier, run: seq<Step>): Barrier
    requires Possible(b, run)
    decreases |run|
  {
    if run == [] then b else After(Next(b, run[0]), run[1..])
  }

  // ── the invariant of every run ──

  function Deferred(conns: seq<Conn>): nat {
    if conns == [] then 0 else Deferred(conns[..|conns| - 1]) + |conns[|conns| - 1].deferred|
  }

  /** The job still waits for the intake of its connection. */
  predicate Waiting(b: Barrier, j: nat) {
    j < |b.origin| && b.origin[j] < |b.conns| && j in b.conns[b.origin[j]].deferred
  }

  /** What an intake has left is the end of what its connection read, in order. */
  ghost predicate Tidy(b: Barrier, c: nat)
    requires c < |b.conns|
  {
    var q := b.conns[c].deferred;
    && (b.conns[c].dead ==> q == [])
    && (forall i :: 0 <= i < |q| ==> q[i] < |b.origin| && b.origin[q[i]] == c)
    && (forall i, j :: 0 <= i < j < |q| ==> q[i] < q[j])
    && (q != [] ==> forall j: nat :: q[0] <= j < |b.origin| && b.origin[j] == c ==> j in q)
  }

  ghost predicate Ordered(b: Barrier) {
    && (forall c :: 0 <= c < |b.conns| ==> Tidy(b, c))
    && (forall j :: 0 <= j < |b.origin| ==> b.origin[j] < |b.conns|)
    && (b.live.Some? ==> b.live.value < |b.conns|)
    && b.done + Deferred(b.conns) == |b.origin|
    && (forall j :: j in b.receipts ==> j < |b.origin| && !Waiting(b, j) && b.receipts[j] < b.next)
    && (forall k :: k in b.marks ==> b.marks[k].jobs <= |b.origin|)
    && (forall k :: k in b.passed ==> b.passed[k].mark.jobs <= |b.origin|)
  }

  lemma {:induction false} DeferredChanges(conns: seq<Conn>, c: nat, w: Conn)
    requires c < |conns|
    ensures Deferred(conns[c := w]) == Deferred(conns) + |w.deferred| - |conns[c].deferred|
    decreases |conns|
  {
    var n := |conns| - 1;
    if c < n {
      DeferredChanges(conns[..n], c, w);
      assert conns[c := w][..n] == conns[..n][c := w];
    } else {
      assert conns[c := w][..n] == conns[..n];
    }
  }

  lemma ReadJobTidy(b: Barrier, c: nat, d: nat)
    requires Ordered(b) && Enabled(b, ReadJob(c)) && !b.conns[c].dead && d < |b.conns|
    ensures Tidy(Next(b, ReadJob(c)), d)
  {
    assert Tidy(b, d);
  }

  lemma ReadJobKeeps(b: Barrier, c: nat)
    requires Ordered(b) && Enabled(b, ReadJob(c))
    ensures Ordered(Next(b, ReadJob(c)))
  {
    var z := Next(b, ReadJob(c));
    if !b.conns[c].dead {
      DeferredChanges(b.conns, c, z.conns[c]);
      forall d | 0 <= d < |z.conns| ensures Tidy(z, d) {
        ReadJobTidy(b, c, d);
      }
    }
  }

  lemma HandleJobTidy(b: Barrier, c: nat, receipt: bool, d: nat)
    requires Ordered(b) && Enabled(b, HandleJob(c, receipt)) && d < |b.conns|
    ensures Tidy(Next(b, HandleJob(c, receipt)), d)
  {
    assert Tidy(b, d);
  }

  /** The job handled waits no more, and no other job starts to wait. */
  lemma HandledIsDone(b: Barrier, c: nat, receipt: bool, j: nat)
    requires Ordered(b) && Enabled(b, HandleJob(c, receipt))
    ensures Waiting(Next(b, HandleJob(c, receipt)), j) ==> Waiting(b, j) && j != b.conns[c].deferred[0]
  {
    assert Tidy(b, c);
  }

  lemma HandleJobKeeps(b: Barrier, c: nat, receipt: bool)
    requires Ordered(b) && Enabled(b, HandleJob(c, receipt))
    ensures Ordered(Next(b, HandleJob(c, receipt)))
  {
    var z := Next(b, HandleJob(c, receipt));
    DeferredChanges(b.conns, c, z.conns[c]);
    forall d | 0 <= d < |z.conns| ensures Tidy(z, d) {
      HandleJobTidy(b, c, receipt, d);
    }
    forall j | j in z.receipts ensures j < |z.origin| && !Waiting(z, j) && z.receipts[j] < z.next {
      HandledIsDone(b, c, receipt, j);
      assert Tidy(b, c);
    }
  }

  lemma IntakeDiesKeeps(b: Barrier, c: nat)
    requires Ordered(b) && Enabled(b, IntakeDies(c))
    ensures Ordered(Next(b, IntakeDies(c)))
  {
    var z := Next(b, IntakeDies(c));
    DeferredChanges(b.conns, c, z.conns[c]);
    forall d | 0 <= d < |z.conns| ensures Tidy(z, d) {
      assert Tidy(b, d);
    }
  }

  lemma OpenKeeps(b: Barrier)
    requires Ordered(b) && Enabled(b, Open)
    ensures Ordered(Next(b, Open))
  {
    var z := Next(b, Open);
    assert z.conns[..|b.conns|] == b.conns;
    forall d | 0 <= d < |z.conns| ensures Tidy(z, d) {
      if d < |b.conns| {
        assert Tidy(b, d);
      }
    }
  }

  lemma OrderedStep(b: Barrier, t: Step)
    requires Ordered(b) && Enabled(b, t)
    ensures Ordered(Next(b, t))
  {
    match t
    case Open => OpenKeeps(b);
    case ReadJob(c) => ReadJobKeeps(b, c);
    case HandleJob(c, receipt) => HandleJobKeeps(b, c, receipt);
    case IntakeDies(c) => IntakeDiesKeeps(b, c);
    case _ => OtherKeeps(b, t);
  }

  lemma OtherKeeps(b: Barrier, t: Step)
    requires Ordered(b) && Enabled(b, t)
    requires !t.Open? && !t.ReadJob? && !t.HandleJob? && !t.IntakeDies?
    ensures Ordered(Next(b, t))
  {
    var z := Next(b, t);
    forall d | 0 <= d < |z.conns| ensures Tidy(z, d) {
      assert Tidy(b, d);
    }
  }

  lemma {:induction false} OrderedRun(b: Barrier, run: seq<Step>)
    requires Ordered(b) && Possible(b, run)
    ensures Ordered(After(b, run))
    decreases |run|
  {
    if run != [] {
      OrderedStep(b, run[0]);
      OrderedRun(Next(b, run[0]), run[1..]);
    }
  }

  // ── receipts are final ──

  lemma ReceiptStaysOneStep(b: Barrier, t: Step, j: nat)
    requires Ordered(b) && Enabled(b, t) && j < |b.origin| && !Waiting(b, j)
    ensures var z := Next(b, t);
      && j < |z.origin| && z.origin[j] == b.origin[j] && !Waiting(z, j)
      && (j in z.receipts <==> j in b.receipts) && (j in b.receipts ==> z.receipts[j] == b.receipts[j])
  {
    if t.HandleJob? {
      assert Tidy(b, t.conn);
    }
  }

  /** A job once dealt with keeps its receipt, or its lack of one, for good. */
  lemma {:induction false} ReceiptsAreFinal(b: Barrier, run: seq<Step>, j: nat)
    requires Ordered(b) && Possible(b, run) && j < |b.origin| && !Waiting(b, j)
    ensures var z := After(b, run);
      && j < |z.origin| && z.origin[j] == b.origin[j] && !Waiting(z, j)
      && (j in z.receipts <==> j in b.receipts) && (j in b.receipts ==> z.receipts[j] == b.receipts[j])
    decreases |run|
  {
    if run != [] {
      ReceiptStaysOneStep(b, run[0], j);
      OrderedStep(b, run[0]);
      ReceiptsAreFinal(Next(b, run[0]), run[1..], j);
    }
  }

  // ── when the order holds ──

  /** No receipt of a job read before the mark on the mark's connection has a number above this one. */
  ghost predicate ReceiptsBefore(b: Barrier, mark: Mark, num: nat) {
    forall j :: j in b.receipts && j < mark.jobs && j < |b.origin| && b.origin[j] == mark.conn ==> b.receipts[j] < num
  }

  /** Some job read before the mark on its connection still waits for the intake. */
  predicate Behind(b: Barrier, mark: Mark) {
    mark.conn < |b.conns| && exists j :: j in b.conns[mark.conn].deferred && j < mark.jobs
  }

  lemma {:induction false} OriginStays(b: Barrier, run: seq<Step>)
    requires Possible(b, run)
    ensures b.origin <= After(b, run).origin
    decreases |run|
  {
    if run != [] {
      OriginStays(Next(b, run[0]), run[1..]);
    }
  }

  /** Once nobody is behind a mark, the order it has holds for good. */
  lemma OrderHolds(b: Barrier, mark: Mark, num: nat, run: seq<Step>)
    requires Ordered(b) && mark.jobs <= |b.origin| && !Behind(b, mark) && ReceiptsBefore(b, mark, num)
    requires Possible(b, run)
    ensures ReceiptsBefore(After(b, run), mark, num) && !Behind(After(b, run), mark)
  {
    var z := After(b, run);
    OriginStays(b, run);
    OrderedRun(b, run);
    forall j | j in z.receipts && j < mark.jobs && j < |z.origin| && z.origin[j] == mark.conn
      ensures z.receipts[j] < num
    {
      assert !Waiting(b, j);
      ReceiptsAreFinal(b, run, j);
    }
    if Behind(z, mark) {
      var j :| j in z.conns[mark.conn].deferred && j < mark.jobs;
      assert Tidy(z, mark.conn);
      assert z.origin[j] == mark.conn == b.origin[j];
      assert !Waiting(b, j);
      ReceiptsAreFinal(b, run, j);
    }
  }

  /** An intake that works on reaches any job it still has, and gives it a receipt younger than anything so far. */
  lemma {:induction false} Reach(b: Barrier, c: nat, k: nat) returns (run: seq<Step>)
    requires Ordered(b) && c < |b.conns| && k < |b.conns[c].deferred|
    ensures Possible(b, run)
    ensures var j, z := b.conns[c].deferred[k], After(b, run);
      j in z.receipts && z.receipts[j] >= b.next && j < |z.origin| && z.origin[j] == c
    decreases k
  {
    assert Tidy(b, c);
    var t := HandleJob(c, true);
    OrderedStep(b, t);
    if k == 0 {
      run := [t];
      assert run[1..] == [];
      assert After(b, run) == Next(b, t);
    } else {
      var rest := Reach(Next(b, t), c, k - 1);
      run := [t] + rest;
      assert run[1..] == rest;
    }
  }

  /** Exactly when the order of one settlement holds whatever happens next: when no job read before its
      acknowledgement, on the same connection, still waits for the intake. */
  lemma SettlementOrderedExactly(b: Barrier, key: Key)
    requires Ordered(b) && Enabled(b, SettleAck(key))
    ensures var z, mark := Next(b, SettleAck(key)), b.passed[key].mark;
      (forall run :: Possible(z, run) ==> ReceiptsBefore(After(z, run), mark, b.next)) <==> !Behind(b, mark)
  {
    var z, mark := Next(b, SettleAck(key)), b.passed[key].mark;
    OrderedStep(b, SettleAck(key));
    if Behind(b, mark) {
      var j :| j in z.conns[mark.conn].deferred && j < mark.jobs;
      var k :| 0 <= k < |z.conns[mark.conn].deferred| && z.conns[mark.conn].deferred[k] == j;
      var run := Reach(z, mark.conn, k);
      assert !ReceiptsBefore(After(z, run), mark, b.next);
    } else {
      forall run | Possible(z, run) ensures ReceiptsBefore(After(z, run), mark, b.next) {
        OrderHolds(z, mark, b.next, run);
      }
    }
  }

  // ── the count is enough on a live connection ──

  /** Jobs are read only from the live connection. */
  predicate Prompt(b: Barrier, t: Step) {
    t.ReadJob? ==> b.live == Some(t.conn)
  }

  predicate PromptRun(b: Barrier, run: seq<Step>)
    requires Possible(b, run)
    decreases |run|
  {
    run == [] || (Prompt(b, run[0]) && PromptRun(Next(b, run[0]), run[1..]))
  }

  /** The live connection is the newest, jobs came in connection by connection, and nobody is behind a mark that the
      count alone let through, nor behind what such a mark left settled. */
  ghost predicate Calm(b: Barrier) {
    && (b.live.Some? ==> b.live.value == |b.conns| - 1)
    && (forall i, j :: 0 <= i < j < |b.origin| ==> b.origin[i] <= b.origin[j])
    && (forall k :: k in b.passed && b.passed[k].calm ==> !Behind(b, b.passed[k].mark))
    && (forall i :: 0 <= i < |b.settled| && b.settled[i].passed.calm ==>
          && b.settled[i].passed.mark.jobs <= |b.origin|
          && !Behind(b, b.settled[i].passed.mark)
          && ReceiptsBefore(b, b.settled[i].passed.mark, b.settled[i].num))
  }

  lemma {:induction false} TailIsLong(q: seq<nat>, first: nat, end: nat)
    requires first <= end && (forall i, j :: 0 <= i < j < |q| ==> q[i] < q[j])
    requires forall j :: first <= j < end ==> j in q
    requires forall i :: 0 <= i < |q| ==> q[i] < end
    ensures |q| >= end - first
    decreases end
  {
    if first < end {
      assert end - 1 in q;
      var i :| 0 <= i < |q| && q[i] == end - 1;
      var n := |q| - 1;
      assert forall k :: 0 <= k < n ==> q[k] < q[n] < end;
      assert i == n;
      forall j | first <= j < end - 1 ensures j in q[..n] {
        assert j in q;
      }
      TailIsLong(q[..n], first, end - 1);
    }
  }

  lemma {:induction false} OneOfThem(conns: seq<Conn>, c: nat)
    requires c < |conns|
    ensures |conns[c].deferred| <= Deferred(conns)
  {
    if c < |conns| - 1 {
      OneOfThem(conns[..|conns| - 1], c);
    }
  }

  /** While the connection lives, as many jobs dealt with as were read before the mark means these very jobs, as far
      as they came on it. */
  lemma CountIsEnough(b: Barrier, mark: Mark)
    requires Ordered(b) && Calm(b) && b.live == Some(mark.conn) && b.done >= mark.jobs
    ensures !Behind(b, mark)
  {
    if Behind(b, mark) {
      var c := mark.conn;
      var q := b.conns[c].deferred;
      var j :| j in q && j < mark.jobs;
      assert Tidy(b, c) && b.origin[j] == c;
      forall i | j <= i < |b.origin| ensures i in q {
        assert b.origin[j] <= b.origin[i] < |b.conns|;
        assert q[0] <= j;
      }
      TailIsLong(q, j, |b.origin|);
      OneOfThem(b.conns, c);
    }
  }

  lemma CalmSettled(b: Barrier, t: Step)
    requires Ordered(b) && Calm(b) && Enabled(b, t)
    ensures var z := Next(b, t);
      forall i :: 0 <= i < |z.settled| && z.settled[i].passed.calm ==>
        && z.settled[i].passed.mark.jobs <= |z.origin|
        && !Behind(z, z.settled[i].passed.mark)
        && ReceiptsBefore(z, z.settled[i].passed.mark, z.settled[i].num)
  {
    var z := Next(b, t);
    assert [t][1..] == [] && After(b, [t]) == z;
    forall i | 0 <= i < |z.settled| && z.settled[i].passed.calm
      ensures z.settled[i].passed.mark.jobs <= |z.origin| && !Behind(z, z.settled[i].passed.mark)
      ensures ReceiptsBefore(z, z.settled[i].passed.mark, z.settled[i].num)
    {
      var x := z.settled[i];
      if i < |b.settled| {
        OrderHolds(b, x.passed.mark, x.num, [t]);
        OriginStays(b, [t]);
      }
    }
  }

  lemma CalmPassed(b: Barrier, t: Step)
    requires Ordered(b) && Calm(b) && Enabled(b, t)
    ensures var z := Next(b, t);
      forall k :: k in z.passed && z.passed[k].calm ==> !Behind(z, z.passed[k].mark)
  {
    var z := Next(b, t);
    assert [t][1..] == [] && After(b, [t]) == z;
    forall k | k in z.passed && z.passed[k].calm ensures !Behind(z, z.passed[k].mark) {
      if k in b.passed && b.passed[k] == z.passed[k] {
        OrderHolds(b, z.passed[k].mark, b.next, [t]);
      } else {
        CountIsEnough(b, b.marks[k]);
      }
    }
  }

  lemma CalmStep(b: Barrier, t: Step)
    requires Ordered(b) && Calm(b) && Enabled(b, t) && Prompt(b, t)
    ensures Calm(Next(b, t))
  {
    CalmSettled(b, t);
    CalmPassed(b, t);
  }

  lemma {:induction false} CalmRun(b: Barrier, run: seq<Step>)
    requires Ordered(b) && Calm(b) && Possible(b, run) && PromptRun(b, run)
    ensures Ordered(After(b, run)) && Calm(After(b, run))
    decreases |run|
  {
    if run != [] {
      OrderedStep(b, run[0]);
      CalmStep(b, run[0]);
      CalmRun(Next(b, run[0]), run[1..]);
    }
  }

  /** Over every run from the start, with connections lost and reopened, intakes dying and jobs of earlier
      connections still in the works: the event of an acknowledgement that the count let through while its
      connection lived has a larger number than any receipt, then or later, of a job read before it on that
      connection. */
  lemma ReceiptsPrecedeLaterAcks(run: seq<Step>)
    requires Possible(START, run) && PromptRun(START, run)
    ensures var z := After(START, run);
      forall i :: 0 <= i < |z.settled| && z.settled[i].passed.calm ==>
        ReceiptsBefore(z, z.settled[i].passed.mark, z.settled[i].num) && !Behind(z, z.settled[i].passed.mark)
  {
    CalmRun(START, run);
  }

  // ── and when it fails ──

  lemma Then(b: Barrier, t: Step, rest: seq<Step>)
    requires Enabled(b, t) && Possible(Next(b, t), rest)
    ensures Possible(b, [t] + rest) && After(b, [t] + rest) == After(Next(b, t), rest)
  {
    assert ([t] + rest)[1..] == rest;
  }

  /** A state in which a settlement is due while a job read before its acknowledgement still waits. */
  lemma DueTooEarly(b: Barrier, c: nat, key: Key) returns (run: seq<Step>, mark: Mark)
    requires Ordered(b) && b.live == Some(c) && c < |b.conns| && !b.conns[c].dead
    ensures Possible(b, run)
    ensures var z := After(b, run);
      Ordered(z) && key in z.passed && z.passed[key] == Passed(mark, false) && Behind(z, mark)
  {
    hide Deferred;
    var b1 := Next(b, ReadJob(c));
    var b2 := Next(b1, ReadAck(key));
    var b3 := Next(b2, Lose);
    mark := Mark(c, |b1.origin|);
    assert b1.conns[c].deferred[|b.conns[c].deferred|] == |b.origin|;
    Then(b3, PassBarrier(key), []);
    Then(b2, Lose, [PassBarrier(key)]);
    Then(b1, ReadAck(key), [Lose] + [PassBarrier(key)]);
    Then(b, ReadJob(c), [ReadAck(key)] + ([Lose] + [PassBarrier(key)]));
    run := [ReadJob(c)] + ([ReadAck(key)] + ([Lose] + [PassBarrier(key)]));
    assert [PassBarrier(key)] + [] == [PassBarrier(key)];
    OrderedRun(b, run);
    assert Next(b3, PassBarrier(key)).conns == b1.conns && |b.origin| in b1.conns[c].deferred;
  }

  lemma {:induction false} Joined(b: Barrier, first: seq<Step>, rest: seq<Step>)
    requires Possible(b, first) && Possible(After(b, first), rest)
    ensures Possible(b, first + rest) && After(b, first + rest) == After(After(b, first), rest)
    decreases |first|
  {
    if first == [] {
      assert first + rest == rest;
    } else {
      Joined(Next(b, first[0]), first[1..], rest);
      assert (first + rest)[1..] == first[1..] + rest;
    }
  }

  /** A connection lost while the intake is behind lets the acknowledgement through: from every state with a live
      connection whose intake works, a job, its acknowledgement and a loss break the order. */
  lemma LossReleasesEarly(b: Barrier, c: nat, key: Key) returns (run: seq<Step>, mark: Mark, num: nat)
    requires Ordered(b) && b.live == Some(c) && c < |b.conns| && !b.conns[c].dead
    ensures Possible(b, run) && !ReceiptsBefore(After(b, run), mark, num)
    ensures Settled(Passed(mark, false), num) in After(b, run).settled
  {
    var first;
    first, mark := DueTooEarly(b, c, key);
    var due := After(b, first);
    num := due.next;
    var z := Next(due, SettleAck(key));
    SettlementOrderedExactly(due, key);
    var rest :| Possible(z, rest) && !ReceiptsBefore(After(z, rest), mark, num);
    SettledStays(z, rest, Settled(Passed(mark, false), num));
    Then(due, SettleAck(key), rest);
    Joined(b, first, [SettleAck(key)] + rest);
    run := first + ([SettleAck(key)] + rest);
  }

  lemma {:induction false} SettledStays(b: Barrier, run: seq<Step>, x: Settled)
    requires Possible(b, run) && x in b.settled
    ensures x in After(b, run).settled
    decreases |run|
  {
    if run != [] {
      SettledStays(Next(b, run[0]), run[1..], x);
    }
  }

  /** Two connections, the first one lost, with one job each: the live one's read first. */
  function TwoReaders(key: Key): Barrier {
    Barrier([Conn([1], false), Conn([0], false)], Some(1), false, [1, 0], 0, map[key := Mark(1, 1)], map[], 1, map[],
            [])
  }

  lemma TwoReadersArise(key: Key) returns (run: seq<Step>)
    ensures Possible(START, run) && After(START, run) == TwoReaders(key)
  {
    var b1 := Next(START, Open);
    var b2 := Next(b1, Lose);
    var b3 := Next(b2, Open);
    assert b3 == START.(conns := [Conn([], false), Conn([], false)], live := Some(1));
    var b4 := Next(b3, ReadJob(1));
    assert b3.conns[1].deferred + [|b3.origin|] == [0];
    assert b4.conns[0] == Conn([], false) && b4.conns[1] == Conn([0], false);
    assert b4.conns == [Conn([], false), Conn([0], false)];
    assert b3.origin + [1] == [1];
    assert b4 == b3.(conns := [Conn([], false), Conn([0], false)], origin := [1]);
    var b5 := Next(b4, ReadAck(key));
    assert b5 == b4.(marks := map[key := Mark(1, 1)]);
    assert Next(b5, ReadJob(0)) == TwoReaders(key);
    Then(b5, ReadJob(0), []);
    assert [ReadJob(0)] + [] == [ReadJob(0)];
    Then(b4, ReadAck(key), [ReadJob(0)]);
    var tail := [ReadAck(key)] + [ReadJob(0)];
    Then(b3, ReadJob(1), tail);
    Then(b2, Open, [ReadJob(1)] + tail);
    Then(b1, Lose, [Open] + ([ReadJob(1)] + tail));
    Then(START, Open, [Lose] + ([Open] + ([ReadJob(1)] + tail)));
    run := [Open] + ([Lose] + ([Open] + ([ReadJob(1)] + tail)));
  }

  lemma LateReadCounts(key: Key) returns (run: seq<Step>)
    ensures Possible(TwoReaders(key), run)
    ensures var z := After(TwoReaders(key), run);
      Settled(Passed(Mark(1, 1), true), 1) in z.settled && !ReceiptsBefore(z, Mark(1, 1), 1)
  {
    var b0 := TwoReaders(key);
    var b1 := Next(b0, HandleJob(0, false));
    assert [1][1..] == [] && b1.conns[0] == Conn([1][1..], false);
    assert b1 == b0.(conns := [Conn([], false), Conn([0], false)], done := 1);
    var b2 := Next(b1, PassBarrier(key));
    var b3 := Next(b2, SettleAck(key));
    assert b3.settled == [Settled(Passed(Mark(1, 1), true), 1)] && b3.conns == b1.conns && b3.next == 2;
    var z := Next(b3, HandleJob(1, true));
    assert z.receipts == map[0 := 2] && z.settled == b3.settled && z.origin == [1, 0];
    Then(b3, HandleJob(1, true), []);
    assert [HandleJob(1, true)] + [] == [HandleJob(1, true)];
    Then(b2, SettleAck(key), [HandleJob(1, true)]);
    var tail := [SettleAck(key)] + [HandleJob(1, true)];
    Then(b1, PassBarrier(key), tail);
    Then(b0, HandleJob(0, false), [PassBarrier(key)] + tail);
    run := [HandleJob(0, false)] + ([PassBarrier(key)] + tail);
    assert 0 in z.receipts;
  }

  /** So does a job that the reader of a lost connection still takes in: it is counted, and dealt with, ahead of the
      jobs of the live connection, and the count lets an acknowledgement pass too early. */
  lemma LateReadReleasesEarly(key: Key) returns (run: seq<Step>, x: Settled)
    ensures Possible(START, run) && x in After(START, run).settled
    ensures x.passed.calm && !ReceiptsBefore(After(START, run), x.passed.mark, x.num)
  {
    var first := TwoReadersArise(key);
    var rest := LateReadCounts(key);
    Joined(START, first, rest);
    run, x := first + rest, Settled(Passed(Mark(1, 1), true), 1);
  }

  // ── the barrier opens ──

  /** The barrier never holds the sender forever: as many intake steps as jobs are deferred open it for every
      acknowledgement already read, on whichever connection. */
  lemma {:induction false} BarrierOpens(b: Barrier, n: nat) returns (run: seq<Step>)
    requires Ordered(b) && n == Deferred(b.conns)
    ensures Possible(b, run) && |run| == n && forall t :: t in run ==> t.HandleJob?
    ensures forall k :: k in b.marks ==> k in After(b, run).marks && Enabled(After(b, run), PassBarrier(k))
    decreases n
  {
    if n == 0 {
      run := [];
    } else {
      var c := SomeWork(b.conns);
      assert Tidy(b, c);
      var t := HandleJob(c, false);
      OrderedStep(b, t);
      DeferredChanges(b.conns, c, Next(b, t).conns[c]);
      var rest := BarrierOpens(Next(b, t), n - 1);
      run := [t] + rest;
      assert run[1..] == rest;
    }
  }

  lemma {:induction false} SomeWork(conns: seq<Conn>) returns (c: nat)
    requires Deferred(conns) > 0
    ensures c < |conns| && conns[c].deferred != []
  {
    var n := |conns| - 1;
    if conns[n].deferred != [] {
      c := n;
    } else {
      c := SomeWork(conns[..n]);
    }
  }
}

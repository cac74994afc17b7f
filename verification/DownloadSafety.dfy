/** What the resuming download promises: it never splices two versions of an object, exactly when the destination
    was absent (or the first answer is not a bare failure) and it kept no dropped answer that ran past its span. */
module DownloadSafety {
  import opened Basics
  import opened Download

  /** `obj` gives the bytes each entity tag stands for. */
  type Store = Tag -> Bytes

  /** Two byte strings agree as far as the shorter one goes. */
  predicate Agree(a: Bytes, b: Bytes) {
    a <= b || b <= a
  }

  /** Bodies tell the truth: a tag always, the length of the tagged object, and its bytes over the declared span.
      Bytes past the declared span may be anything. */
  ghost predicate Honest(obj: Store, a: Answer) {
    a.Answer? ==>
      && (a.status == 200 ==> a.etag != "" && HonestFull(obj(a.etag), a))
      && (a.status == 206 && a.span.Span? && a.span.inBytes ==> a.etag != "" && HonestSpan(obj(a.etag), a))
  }

  predicate HonestFull(o: Bytes, a: Answer)
    requires a.Answer?
  {
    if !a.encoded && a.length.Framed? then a.length.n == |o| && Agree(Body(a.chunks), o)
    else Body(a.chunks) <= o
  }

  predicate HonestSpan(o: Bytes, a: Answer)
    requires a.Answer? && a.span.Span?
  {
    && 0 <= a.span.first <= a.span.last < |o|
    && (a.span.of.Known? ==> a.span.of.total == |o|)
    && Agree(Body(a.chunks), o[a.span.first..a.span.last + 1])
  }

  /** A dropped answer delivered more than it declared. */
  predicate Overruns(a: Answer) {
    && a.Answer? && a.dropped
    && (|| (a.status == 200 && !a.encoded && a.length.Framed? && |Body(a.chunks)| > a.length.n)
        || (a.status == 206 && a.span.Span? && |Body(a.chunks)| > a.span.last - a.span.first + 1))
  }

  /** The download keeps such an answer: a full one always, a partial one when it resumes with it. */
  predicate KeepsExcess(l: Local, first: bool, a: Answer) {
    Overruns(a) && (a.status == 200 || (!first && Size(l.file) != 0 && Resume(l, a) != RESTART))
  }

  const EMPTIED := Local(Some([]), None, "")

  /** The file, if it holds anything, holds a prefix of the object the pinned tag stands for, and the pinned
      total is the length of that object. */
  ghost predicate Pinned(obj: Store, l: Local) {
    l.file.Some? && l != EMPTIED ==>
      && l.etag != ""
      && l.file.value <= obj(l.etag)
      && (l.total.Some? ==> l.total.value == |obj(l.etag)|)
  }

  lemma ResumeKeeps(obj: Store, l: Local, a: Answer)
    requires a.Answer? && l.file.Some? && l.file.value != [] && a.status == 206
    requires Pinned(obj, l) && Honest(obj, a) && !KeepsExcess(l, false, a)
    ensures Pinned(obj, Resume(l, a).l)
  {
    if Resume(l, a) != RESTART {
      var o := obj(l.etag);
      var have := |l.file.value|;
      var piece := o[have..a.span.last + 1];
      var body := Body(a.chunks);
      assert body <= piece;
      assert l.file.value + body <= o by {
        assert l.file.value == o[..have];
        assert o[..have] + piece == o[..a.span.last + 1];
      }
    }
  }

  lemma FullKeeps(obj: Store, etag: Tag, a: Answer)
    requires a.Answer? && a.status == 200 && Honest(obj, a) && !Overruns(a)
    ensures Pinned(obj, Full(etag, a).l)
  {
  }

  lemma AttemptKeeps(obj: Store, l: Local, first: bool, a: Answer)
    requires Pinned(obj, l) && Honest(obj, a) && !KeepsExcess(l, first, a)
    ensures Pinned(obj, Attempt(l, first, a).l)
  {
    if a.Answer? {
      if a.status == 206 && !first && Size(l.file) != 0 {
        ResumeKeeps(obj, l, a);
      } else if a.status == 200 {
        FullKeeps(obj, l.etag, a);
      }
    }
  }

  /** A finished attempt with a pinned total holds the whole object. */
  lemma DoneIsWhole(obj: Store, l: Local, first: bool, a: Answer)
    requires Attempt(l, first, a).Done? && Pinned(obj, Attempt(l, first, a).l)
    ensures var z := Attempt(l, first, a).l;
      z.file.Some? && (z.total.Some? ==> z.file == Some(obj(z.etag)))
  {
    var z := Attempt(l, first, a).l;
    if z.total.Some? {
      var o := obj(z.etag);
      assert o[..|z.file.value|] == z.file.value && o[..|o|] == o;
      assert z.file.value == o;
    }
  }

  /** One attempt decides, or hands what it kept to the rest. */
  lemma FromTurn(l: Local, n: nat, answers: seq<Answer>)
    requires n < ATTEMPTS && |answers| == ATTEMPTS
    ensures var t := Attempt(l, n == 0, answers[n]);
      From(l, n, answers) ==
      if t.Done? then (Returned(t.l.total), t.l)
      else if t.Failed? && n + 1 == ATTEMPTS then (Raised, t.l)
      else From(t.l, n + 1, answers)
  {
  }

  /** No attempt the download makes keeps an excess. */
  predicate NoExcess(l: Local, n: nat, answers: seq<Answer>)
    requires n <= ATTEMPTS && |answers| == ATTEMPTS
    decreases ATTEMPTS - n
  {
    n < ATTEMPTS ==>
      var t := Attempt(l, n == 0, answers[n]);
      !KeepsExcess(l, n == 0, answers[n]) && (t.Done? || NoExcess(t.l, n + 1, answers))
  }

  lemma {:induction false} NoOverrunNoExcess(l: Local, n: nat, answers: seq<Answer>)
    requires n <= ATTEMPTS && |answers| == ATTEMPTS && forall i :: n <= i < ATTEMPTS ==> !Overruns(answers[i])
    ensures NoExcess(l, n, answers)
    decreases ATTEMPTS - n
  {
    if n < ATTEMPTS {
      NoOverrunNoExcess(Attempt(l, n == 0, answers[n]).l, n + 1, answers);
    }
  }

  lemma {:induction false} FromKeeps(obj: Store, l: Local, n: nat, answers: seq<Answer>)
    requires n <= ATTEMPTS && |answers| == ATTEMPTS && Pinned(obj, l)
    requires (forall i :: n <= i < ATTEMPTS ==> Honest(obj, answers[i])) && NoExcess(l, n, answers)
    requires n == ATTEMPTS ==> l.total.Some? && Size(l.file) < l.total.value
    ensures Unspliced(obj, From(l, n, answers))
    decreases ATTEMPTS - n
  {
    if n < ATTEMPTS {
      var t := Attempt(l, n == 0, answers[n]);
      AttemptKeeps(obj, l, n == 0, answers[n]);
      FromTurn(l, n, answers);
      if t.Done? {
        DoneIsWhole(obj, l, n == 0, answers[n]);
      } else if t.Partial? || n + 1 < ATTEMPTS {
        FromKeeps(obj, t.l, n + 1, answers);
      }
    }
  }

  // ── the promise ──

  /** However the download ends, what it leaves is a prefix of one version of the object, and when it returns
      with a pinned length it leaves exactly that version. */
  ghost predicate Unspliced(obj: Store, r: (Outcome, Local)) {
    var (outcome, z) := r;
    && (z.file.Some? ==> z.file.value <= obj(z.etag))
    && (outcome.Returned? ==> z.file.Some? && outcome.total == z.total)
    && (outcome.Returned? && z.total.Some? ==> z.file.value == obj(z.etag) && z.total.value == |obj(z.etag)|)
  }

  ghost predicate AllHonest(obj: Store, answers: seq<Answer>) {
    |answers| == ATTEMPTS && forall i :: 0 <= i < ATTEMPTS ==> Honest(obj, answers[i])
  }

  predicate WholeNoExcess(file: Option<Bytes>, probe: Probe, answers: seq<Answer>)
    requires |answers| == ATTEMPTS
  {
    match probe
    case SingleStream => NoExcess(Local(file, None, ""), 0, answers)
    case RangedFailed(total, etag) => NoExcess(Local(None, Some(total), etag), 1, answers)
  }

  /** The destination holds nothing, or the first attempt gets as far as opening or unlinking it. */
  predicate CleanStart(file: Option<Bytes>, probe: Probe, a: Answer) {
    || Size(file) == 0
    || probe.RangedFailed?
    || !(a.Fault? || (a.status != 416 && 400 <= a.status < 600))
  }

  /** Across any sequence of drops, short or overlong answers, restarts and changed tags. */
  lemma ResumedDownloadNeverSplices(obj: Store, file: Option<Bytes>, probe: Probe, answers: seq<Answer>)
    requires AllHonest(obj, answers) && WholeNoExcess(file, probe, answers) && CleanStart(file, probe, answers[0])
    ensures Unspliced(obj, Whole(file, probe, answers))
  {
    if probe.RangedFailed? {
      FromKeeps(obj, Local(None, Some(probe.total), probe.etag), 1, answers);
    } else if Size(file) == 0 {
      FromKeeps(obj, Local(file, None, ""), 0, answers);
    } else {
      // The first attempt does not look at the old file.
      var l, blank := Local(file, None, ""), Local(None, None, "");
      assert Attempt(l, true, answers[0]) == Attempt(blank, true, answers[0]);
      assert From(l, 0, answers) == From(blank, 0, answers);
      assert KeepsExcess(l, true, answers[0]) == KeepsExcess(blank, true, answers[0]);
      FromKeeps(obj, blank, 0, answers);
    }
  }

  function Tail(o: Bytes, from: nat): Answer
    requires from < |o|
  {
    Answer(206, "v", false, Absent, Span(true, from, |o| - 1, Known(|o|)), [o[from..]], false)
  }

  lemma OneChunk(c: Bytes)
    ensures Body([c]) == c
  {
    assert [c][..0] == [] && [] + c == c;
  }

  /** A dropped connection costs the remaining bytes, never the job: one drop, then another drop or an answer cut
      short by the server, then the rest, and the whole object is there, whatever the file held before. */
  lemma DropsCostOnlyTheRest(file: Option<Bytes>, o: Bytes, h: nat, m: nat, dropped: bool)
    requires 0 < h < m < |o|
    ensures var answers := [
        Answer(200, "v", false, Framed(|o|), NoRange, [o[..h]], true),
        Answer(206, "v", false, Absent, Span(true, h, if dropped then |o| - 1 else m - 1, Known(|o|)), [o[h..m]],
               dropped),
        Tail(o, m)];
      Whole(file, SingleStream, answers) == (Returned(Some(|o|)), Local(Some(o), Some(|o|), "v"))
  {
    hide Body;
    var drop := Answer(200, "v", false, Framed(|o|), NoRange, [o[..h]], true);
    var span := Span(true, h, if dropped then |o| - 1 else m - 1, Known(|o|));
    var more := Answer(206, "v", false, Absent, span, [o[h..m]], dropped);
    var answers := [drop, more, Tail(o, m)];
    OneChunk(o[..h]);
    OneChunk(o[h..m]);
    OneChunk(o[m..]);
    var l0 := Local(file, None, "");
    var l1 := Local(Some(o[..h]), Some(|o|), "v");
    var l2 := Local(Some(o[..m]), Some(|o|), "v");
    assert o[..h] + o[h..m] == o[..m] && o[..m] + o[m..] == o;
    FromTurn(l0, 0, answers);
    FromTurn(l1, 1, answers);
    FromTurn(l2, 2, answers);
    assert Attempt(l1, false, more).l == l2;
    assert Attempt(l2, false, Tail(o, m)) == Done(Local(Some(o), Some(|o|), "v"));
  }

  /** A request that fails, or an error status other than 416. */
  predicate Fails(a: Answer) {
    a.Fault? || (400 <= a.status < 600 && a.status != 416)
  }

  /** So do failed requests and error statuses: between the drop and the rest one costs nothing, whatever the file held
      before, and so does one before the drop unless the file held bytes of something else. */
  lemma FailuresCostOnlyTheRest(file: Option<Bytes>, o: Bytes, h: nat, a: Answer)
    requires 0 < h < |o| && Fails(a)
    ensures var drop := Answer(200, "v", false, Framed(|o|), NoRange, [o[..h]], true);
      var whole := (Returned(Some(|o|)), Local(Some(o), Some(|o|), "v"));
      && Whole(file, SingleStream, [drop, a, Tail(o, h)]) == whole
      && (Size(file) == 0 ==> Whole(file, SingleStream, [a, drop, Tail(o, h)]) == whole)
  {
    hide Body;
    var drop := Answer(200, "v", false, Framed(|o|), NoRange, [o[..h]], true);
    OneChunk(o[..h]);
    OneChunk(o[h..]);
    assert o[..h] + o[h..] == o;
    var l0, l1 := Local(file, None, ""), Local(Some(o[..h]), Some(|o|), "v");
    assert Attempt(l1, false, Tail(o, h)) == Done(Local(Some(o), Some(|o|), "v"));
    FromTurn(l0, 0, [drop, a, Tail(o, h)]);
    FromTurn(l1, 1, [drop, a, Tail(o, h)]);
    FromTurn(l1, 2, [drop, a, Tail(o, h)]);
    FromTurn(l0, 0, [a, drop, Tail(o, h)]);
    FromTurn(l0, 1, [a, drop, Tail(o, h)]);
    FromTurn(l1, 2, [a, drop, Tail(o, h)]);
  }

  /** An attempt that fails so leaves file and pins alone, whatever they are. */
  lemma FailuresTouchNothing(l: Local, first: bool, a: Answer)
    requires Fails(a)
    ensures Attempt(l, first, a) == Failed(l)
  {
  }

  /** An answer to a request for the bytes from h on, of the version "v" whose length is known, that cannot be trusted:
      unsatisfiable, neither whole nor partial, transcoded, of another version, or for another range. */
  predicate Untrusted(a: Answer, h: nat, length: nat) {
    a.Answer? && (
      || a.status == 416
      || (a.status !in {200, 206} && !(400 <= a.status < 600))
      || (a.status == 206 && (
            || a.encoded
            || (a.etag != "" && a.etag != "v")
            || !a.span.Span? || !a.span.inBytes || a.span.first != h || a.span.last < h
            || (a.span.of.Known? && a.span.of.total != length)
            || (!a.span.of.Star? && a.span.last >= length)
            || (!a.dropped && |Body(a.chunks)| > a.span.last - h + 1))))
  }

  /** These and no others make the download forget the file and both pins. */
  lemma RestartsExactly(o: Bytes, h: nat, a: Answer)
    requires 0 < h < |o|
    ensures Attempt(Local(Some(o[..h]), Some(|o|), "v"), false, a) == Failed(Local(None, None, ""))
            <==> Untrusted(a, h, |o|)
  {
    hide Body;
  }

  /** Such an answer, and a full one that ends short of its length or past it, leaves nothing behind: the next attempt
      starts over and can still return the whole object. */
  lemma DistrustCostsOneAttempt(file: Option<Bytes>, o: Bytes, h: nat, a: Answer)
    requires 0 < h < |o|
    requires Untrusted(a, h, |o|) || (a.Answer? && a.status == 200 && !a.encoded && !a.dropped
                                      && a.length == Framed(|o|) && |Body(a.chunks)| != |o|)
    ensures var drop := Answer(200, "v", false, Framed(|o|), NoRange, [o[..h]], true);
      var full := Answer(200, "v", false, Framed(|o|), NoRange, [o], false);
      && Attempt(Local(Some(o[..h]), Some(|o|), "v"), false, a).Failed?
      && Attempt(Local(Some(o[..h]), Some(|o|), "v"), false, a).l.file == None
      && Whole(file, SingleStream, [drop, a, full]) == (Returned(Some(|o|)), Local(Some(o), Some(|o|), "v"))
  {
    var drop := Answer(200, "v", false, Framed(|o|), NoRange, [o[..h]], true);
    var full := Answer(200, "v", false, Framed(|o|), NoRange, [o], false);
    OneChunk(o[..h]);
    OneChunk(o);
    var l1 := Local(Some(o[..h]), Some(|o|), "v");
    hide Body;
    FromTurn(Local(file, None, ""), 0, [drop, a, full]);
    FromTurn(l1, 1, [drop, a, full]);
    FromTurn(Attempt(l1, false, a).l, 2, [drop, a, full]);
  }

  // ── where the promise ends ──

  ghost predicate NeverSplices(file: Option<Bytes>, probe: Probe, a: Answer) {
    forall obj: Store, answers: seq<Answer> ::
      AllHonest(obj, answers) && WholeNoExcess(file, probe, answers) && answers[0] == a ==>
        Unspliced(obj, Whole(file, probe, answers))
  }

  function Foreign(prior: Bytes): Bytes
    requires prior != []
  {
    [prior[0] + 1] + prior
  }

  /** A first answer that fails before the file is opened leaves foreign bytes in place, and the next attempt
      resumes after them without any pin. */
  lemma ForeignBytesAreKept(prior: Bytes, a: Answer)
    requires prior != [] && !CleanStart(Some(prior), SingleStream, a)
    ensures !NeverSplices(Some(prior), SingleStream, a)
  {
    var o := Foreign(prior);
    var obj: Store := (tag: Tag) => o;
    var tail := Tail(o, |prior|);
    var answers := [a, tail, tail];
    OneChunk(o[|prior|..]);
    assert o[|prior|..|o| - 1 + 1] == o[|prior|..];
    assert AllHonest(obj, answers);
    var l := Local(Some(prior), None, "");
    NoOverrunNoExcess(l, 0, answers);
    FromTurn(l, 0, answers);
    assert Attempt(l, true, a) == Failed(l);
    FromTurn(l, 1, answers);
    var spliced := prior + o[|prior|..];
    assert Attempt(l, false, tail) == Done(Local(Some(spliced), Some(|o|), "v"));
    assert spliced[0] != o[0];
    assert !Unspliced(obj, Whole(Some(prior), SingleStream, answers));
  }

  /** The download is safe against every fair server exactly when it starts clean. */
  lemma CleanStartDecides(file: Option<Bytes>, probe: Probe, a: Answer)
    ensures NeverSplices(file, probe, a) <==> CleanStart(file, probe, a)
  {
    if CleanStart(file, probe, a) {
      forall obj: Store, answers: seq<Answer>
        | AllHonest(obj, answers) && WholeNoExcess(file, probe, answers) && answers[0] == a
        ensures Unspliced(obj, Whole(file, probe, answers))
      {
        ResumedDownloadNeverSplices(obj, file, probe, answers);
      }
    } else {
      ForeignBytesAreKept(file.value, a);
    }
  }

  // ── exactly which dropped answers do harm ──

  /** The store with one byte of one object changed. */
  function Flipped(obj: Store, tag: Tag, at: nat, unlike: Byte): Store
    requires at < |obj(tag)|
  {
    (t: Tag) => if t == tag && obj(tag)[at] == unlike then obj(tag)[at := unlike + 1] else obj(t)
  }

  lemma FlippedPiece(obj: Store, tag: Tag, at: nat, unlike: Byte, i: nat, j: nat)
    requires at < |obj(tag)| && i <= j <= |obj(tag)| && !(i <= at < j)
    ensures var o := Flipped(obj, tag, at, unlike)(tag);
      |o| == |obj(tag)| && o[i..j] == obj(tag)[i..j] && o[at] != unlike
  {
  }

  /** A store as honest as the given one, whose object differs from the excess of a kept partial answer. */
  lemma ExcessSplices(obj: Store, l: Local, a: Answer) returns (other: Store)
    requires a.Answer? && a.status == 206 && l.file.Some? && Size(l.file) != 0 && l != EMPTIED
    requires Pinned(obj, l) && Honest(obj, a) && KeepsExcess(l, false, a)
    ensures Pinned(other, l) && Honest(other, a) && !(Resume(l, a).l.file.value <= other(Resume(l, a).l.etag))
    ensures Resume(l, a).l.file.Some?
  {
    var have, end := |l.file.value|, a.span.last + 1;
    var o, body := obj(l.etag), Body(a.chunks);
    var z := Resume(l, a).l;
    assert z.file == Some(l.file.value + body) && z.etag == l.etag;
    if end == |o| {
      other := obj;
    } else {
      other := Flipped(obj, l.etag, end, body[end - have]);
      FlippedPiece(obj, l.etag, end, body[end - have], 0, have);
      FlippedPiece(obj, l.etag, end, body[end - have], have, end);
      assert o[0..have] == l.file.value && other(l.etag)[0..have] == other(l.etag)[..have];
      assert l.file.value <= other(l.etag);
      assert z.file.value[end] == body[end - have];
    }
  }

  /** Exactly when one attempt leaves a prefix of the pinned version, whatever the object is: when it keeps no dropped
      answer that ran past what it declared.  The condition reads the answer and the branch taken, not the object. */
  lemma AttemptSafeExactly(obj: Store, l: Local, first: bool, a: Answer)
    requires Pinned(obj, l) && Honest(obj, a)
    ensures (forall other: Store :: Pinned(other, l) && Honest(other, a) ==> Pinned(other, Attempt(l, first, a).l))
            <==> !KeepsExcess(l, first, a)
  {
    if KeepsExcess(l, first, a) {
      var other := AttemptHarms(obj, l, first, a);
    } else {
      forall other: Store | Pinned(other, l) && Honest(other, a) ensures Pinned(other, Attempt(l, first, a).l) {
        AttemptKeeps(other, l, first, a);
      }
    }
  }

  lemma AttemptHarms(obj: Store, l: Local, first: bool, a: Answer) returns (other: Store)
    requires Pinned(obj, l) && Honest(obj, a) && KeepsExcess(l, first, a)
    ensures Pinned(other, l) && Honest(other, a)
    ensures var t := Attempt(l, first, a);
      t.Failed? && t.l.file.Some? && !(t.l.file.value <= other(t.l.etag)) && !Pinned(other, t.l)
  {
    if a.status == 200 {
      other := obj;
    } else {
      other := ExcessSplices(obj, l, a);
    }
  }

  /** The same for whole downloads: from a state with an honest answer due, the rest of the download is safe against
      every honest server that overruns no more, exactly when this answer is no kept overrun. */
  ghost predicate SafeFrom(l: Local, n: nat, a: Answer)
    requires n < ATTEMPTS
  {
    forall obj: Store, answers: seq<Answer> ::
      |answers| == ATTEMPTS && answers[n] == a && Pinned(obj, l)
      && (forall i :: n <= i < ATTEMPTS ==> Honest(obj, answers[i]))
      && (forall i :: n < i < ATTEMPTS ==> !Overruns(answers[i]))
      ==> Unspliced(obj, From(l, n, answers))
  }

  lemma ExcessDecides(obj: Store, l: Local, n: nat, a: Answer)
    requires n < ATTEMPTS && Pinned(obj, l) && Honest(obj, a)
    ensures SafeFrom(l, n, a) <==> !KeepsExcess(l, n == 0, a)
  {
    if KeepsExcess(l, n == 0, a) {
      var other := AttemptHarms(obj, l, n == 0, a);
      FaultsKeepTheHarm(other, l, n, a);
    } else {
      forall o: Store, answers: seq<Answer> | |answers| == ATTEMPTS && answers[n] == a && Pinned(o, l)
        && (forall i :: n <= i < ATTEMPTS ==> Honest(o, answers[i]))
        && (forall i :: n < i < ATTEMPTS ==> !Overruns(answers[i]))
        ensures Unspliced(o, From(l, n, answers))
      {
        NoOverrunNoExcess(Attempt(l, n == 0, a).l, n + 1, answers);
        FromKeeps(o, l, n, answers);
      }
    }
  }

  /** Nothing but failures after the harm: the download raises and the spliced file stays. */
  lemma FaultsKeepTheHarm(obj: Store, l: Local, n: nat, a: Answer)
    requires n < ATTEMPTS && Pinned(obj, l) && Honest(obj, a)
    requires var t := Attempt(l, n == 0, a);
      t.Failed? && t.l.file.Some? && !(t.l.file.value <= obj(t.l.etag))
    ensures !SafeFrom(l, n, a)
  {
    var answers := seq(ATTEMPTS, i requires 0 <= i < ATTEMPTS => if i == n then a else Fault);
    FromTurn(l, n, answers);
    OnlyFaults(Attempt(l, n == 0, a).l, n + 1, answers);
    assert !Unspliced(obj, From(l, n, answers));
  }

  lemma {:induction false} OnlyFaults(l: Local, n: nat, answers: seq<Answer>)
    requires 0 < n <= ATTEMPTS && |answers| == ATTEMPTS && forall i :: n <= i < ATTEMPTS ==> answers[i] == Fault
    ensures n < ATTEMPTS ==> From(l, n, answers) == (Raised, l)
    decreases ATTEMPTS - n
  {
    if n < ATTEMPTS {
      FromTurn(l, n, answers);
      OnlyFaults(l, n + 1, answers);
    }
  }

  /** Whole downloads with the first two answers given: a full answer that drops within its length, then any. */
  ghost predicate NeverSplicesAfter(file: Option<Bytes>, a0: Answer, a1: Answer) {
    forall obj: Store, answers: seq<Answer> ::
      AllHonest(obj, answers) && answers[0] == a0 && answers[1] == a1 && !Overruns(answers[2]) ==>
        Unspliced(obj, Whole(file, SingleStream, answers))
  }

  lemma PinnedMeansHonest(obj: Store, a: Answer)
    requires a.Answer? && a.status == 200 && a.dropped && a.etag != "" && !Overruns(a)
    ensures Honest(obj, a) <==> Pinned(obj, Full("", a).l)
  {
    if Honest(obj, a) {
      FullKeeps(obj, "", a);
    }
  }

  lemma AfterTheDrop(file: Option<Bytes>, a0: Answer, answers: seq<Answer>)
    requires a0.Answer? && a0.status == 200 && a0.dropped && |answers| == ATTEMPTS && answers[0] == a0
    ensures Whole(file, SingleStream, answers) == From(Full("", a0).l, 1, answers)
  {
    FromTurn(Local(file, None, ""), 0, answers);
  }

  lemma SecondAnswerHarms(obj: Store, file: Option<Bytes>, a0: Answer, a1: Answer)
    requires Honest(obj, a0) && Honest(obj, a1)
    requires a0.Answer? && a0.status == 200 && a0.dropped && !Overruns(a0)
    requires KeepsExcess(Full("", a0).l, false, a1)
    ensures !NeverSplicesAfter(file, a0, a1)
  {
    var l := Full("", a0).l;
    PinnedMeansHonest(obj, a0);
    var other := AttemptHarms(obj, l, false, a1);
    PinnedMeansHonest(other, a0);
    var answers := [a0, a1, Fault];
    AfterTheDrop(file, a0, answers);
    FromTurn(l, 1, answers);
    OnlyFaults(Attempt(l, false, a1).l, 2, answers);
    assert AllHonest(other, answers);
    assert Whole(file, SingleStream, answers) == (Raised, Attempt(l, false, a1).l);
    assert !Unspliced(other, Whole(file, SingleStream, answers));
  }

  lemma SecondAnswerSafe(obj: Store, file: Option<Bytes>, a0: Answer, a1: Answer, answers: seq<Answer>)
    requires AllHonest(obj, answers) && answers[0] == a0 && answers[1] == a1 && !Overruns(answers[2])
    requires a0.Answer? && a0.status == 200 && a0.dropped && !Overruns(a0)
    requires !KeepsExcess(Full("", a0).l, false, a1)
    ensures Unspliced(obj, Whole(file, SingleStream, answers))
  {
    var l := Full("", a0).l;
    PinnedMeansHonest(obj, a0);
    AfterTheDrop(file, a0, answers);
    NoOverrunNoExcess(Attempt(l, false, a1).l, 2, answers);
    FromKeeps(obj, l, 1, answers);
  }

  /** Over every server consistent with both answers, the download never splices exactly when it does not keep an
      overrun of the second. */
  lemma SecondAnswerDecides(obj: Store, file: Option<Bytes>, a0: Answer, a1: Answer)
    requires Honest(obj, a0) && Honest(obj, a1)
    requires a0.Answer? && a0.status == 200 && a0.dropped && !Overruns(a0)
    ensures NeverSplicesAfter(file, a0, a1) <==> !KeepsExcess(Full("", a0).l, false, a1)
  {
    if KeepsExcess(Full("", a0).l, false, a1) {
      SecondAnswerHarms(obj, file, a0, a1);
    } else {
      forall o: Store, answers: seq<Answer>
        | AllHonest(o, answers) && answers[0] == a0 && answers[1] == a1 && !Overruns(answers[2])
        ensures Unspliced(o, Whole(file, SingleStream, answers))
      {
        SecondAnswerSafe(o, file, a0, a1, answers);
      }
    }
  }

  /** An honest first answer that drops, and an honest second one that runs past its span before it drops. */
  function FirstDrop(o: Bytes, have: nat): Answer
    requires have <= |o|
  {
    Answer(200, "v", false, Framed(|o|), NoRange, [o[..have]], true)
  }

  function Overlong(o: Bytes, have: nat, end: nat, junk: Bytes): Answer
    requires have <= end <= |o|
  {
    Answer(206, "v", false, Absent, Span(true, have, end - 1, Known(|o|)), [o[have..end], junk], true)
  }

  lemma TwoChunks(a: Bytes, b: Bytes)
    ensures Body([a, b]) == a + b
  {
    assert [a, b][..1] == [a];
    OneChunk(a);
  }

  lemma ExcessIsHonest(obj: Store, o: Bytes, have: nat, end: nat, junk: Bytes)
    requires obj("v") == o && 0 < have < end && end + |junk| < |o|
    ensures Honest(obj, FirstDrop(o, have)) && Honest(obj, Overlong(o, have, end, junk))
    ensures Honest(obj, Tail(o, end + |junk|))
  {
    OneChunk(o[..have]);
    TwoChunks(o[have..end], junk);
    OneChunk(o[end + |junk|..]);
    assert o[end + |junk|..|o| - 1 + 1] == o[end + |junk|..];
  }

  lemma ExcessInPlace(o: Bytes, end: nat, junk: Bytes)
    requires end + |junk| <= |o|
    ensures o[..end] + junk + o[end + |junk|..] == o <==> junk == o[end..end + |junk|]
  {
    var whole := o[..end] + junk + o[end + |junk|..];
    assert o == o[..end] + o[end..end + |junk|] + o[end + |junk|..];
    assert whole[end..end + |junk|] == junk;
  }

  /** A partial answer that runs past its declared span is refused only when it ends without a drop.  Dropped, its
      excess stays, and an honest resumption completes the file around it. */
  lemma DroppedExcessIsKept(o: Bytes, have: nat, end: nat, junk: Bytes)
    requires 0 < have < end && junk != [] && end + |junk| < |o|
    ensures var obj: Store := (tag: Tag) => o;
      var answers := [FirstDrop(o, have), Overlong(o, have, end, junk), Tail(o, end + |junk|)];
      var (outcome, z) := Whole(None, SingleStream, answers);
      && (forall i :: 0 <= i < ATTEMPTS ==> Honest(obj, answers[i]))
      && outcome == Returned(Some(|o|))
      && z.file == Some(o[..end] + junk + o[end + |junk|..])
      && (Unspliced(obj, (outcome, z)) <==> junk == o[end..end + |junk|])
  {
    hide Body;
    var obj: Store := (tag: Tag) => o;
    var tail := Tail(o, end + |junk|);
    var answers := [FirstDrop(o, have), Overlong(o, have, end, junk), tail];
    ExcessIsHonest(obj, o, have, end, junk);
    OneChunk(o[..have]);
    TwoChunks(o[have..end], junk);
    OneChunk(o[end + |junk|..]);
    ExcessInPlace(o, end, junk);
    var l0 := Local(None, None, "");
    var l1 := Local(Some(o[..have]), Some(|o|), "v");
    var l2 := Local(Some(o[..end] + junk), Some(|o|), "v");
    assert o[..have] + (o[have..end] + junk) == o[..end] + junk;
    FromTurn(l0, 0, answers);
    FromTurn(l1, 1, answers);
    FromTurn(l2, 2, answers);
    assert Attempt(l1, false, answers[1]) == Failed(l2);
    var whole := o[..end] + junk + o[end + |junk|..];
    assert Attempt(l2, false, tail) == Done(Local(Some(whole), Some(|o|), "v"));
  }
}

/** The resuming download: at most three attempts, each answered by an adversary, on one destination file.
    Bytes a drop left behind are kept and resumed from with a Range request pinned to the entity tag. */
module Download {
  import opened Basics

  const ATTEMPTS := 3

  /** Entity tags; the empty one stands for a missing header. */
  type Tag = string
  type Byte = bv8
  type Bytes = seq<Byte>

  /** A header number: missing, not a number, or given. */
  datatype Framing = Absent | Malformed | Framed(n: int)

  /** The total of a Content-Range: `*`, not a number, or given. */
  datatype Total = Star | BadTotal | Known(total: int)

  datatype ContentRange = NoRange | Unparseable | Span(inBytes: bool, first: int, last: int, of: Total)

  /** An answer to one GET.  `dropped`: the transfer fails after these chunks were delivered. */
  datatype Answer =
    | Fault
    | Answer(status: int, etag: Tag, encoded: bool, length: Framing, span: ContentRange, chunks: seq<Bytes>,
             dropped: bool)

  /** What the probe of the first attempt led to: nothing, or a ranged download that failed. */
  datatype Probe = SingleStream | RangedFailed(total: int, etag: Tag)

  /** The destination file and the two pins. */
  datatype Local = Local(file: Option<Bytes>, total: Option<int>, etag: Tag)

  /** An attempt finishes the download, leaves it to be resumed, or fails. */
  datatype Turn = Done(l: Local) | Partial(l: Local) | Failed(l: Local)

  datatype Outcome = Returned(total: Option<int>) | Raised

  const RESTART := Failed(Local(None, None, ""))

  function Size(file: Option<Bytes>): nat {
    if file.Some? then |file.value| else 0
  }

  function Body(chunks: seq<Bytes>): Bytes {
    if chunks == [] then [] else Body(chunks[..|chunks| - 1]) + chunks[|chunks| - 1]
  }

  // ── one attempt ──

  /** A Content-Range that answers a request from `have` on; the total is None when not stated.  An accepted range
      starts there and lies within the total it states and the pinned one, which agree. */
  function ResumeRange(span: ContentRange, have: nat, pinned: Option<int>): (r: Option<(int, int, Option<int>)>)
    ensures r.Some? ==> span.Span? && r.value.0 == have
    ensures r.Some? && r.value.2.Some? ==>
      have <= r.value.1 < r.value.2.value && (pinned.Some? ==> pinned == r.value.2)
    ensures r.Some? && r.value.2 == None && pinned.Some? ==> have <= r.value.1
  {
    if !span.Span? || !span.inBytes || span.first != have then None
    else if span.of.Star? then
      if span.last < span.first then None else Some((span.first, span.last, None))
    else
      var total := if span.of.Known? then Some(span.of.total) else None;
      var ceiling := if pinned.Some? then pinned else total;
      if total.Some? && pinned.Some? && total != pinned then None
      else if ceiling.Some? && !(span.first <= span.last < ceiling.value) then None
      else Some((span.first, span.last, total))
  }

  function Checked(l: Local): Turn {
    if l.total == None || Size(l.file) >= l.total.value then Done(l) else Partial(l)
  }

  function Resume(l: Local, a: Answer): Turn
    requires a.Answer? && l.file.Some?
  {
    var range := ResumeRange(a.span, |l.file.value|, l.total);
    if a.encoded || range == None then RESTART
    else if l.etag != "" && a.etag != "" && a.etag != l.etag then RESTART
    else
      var (first, last, total) := range.value;
      var l1 := Local(Some(l.file.value + Body(a.chunks)),
                      if total.Some? then total else l.total,
                      if a.etag != "" then a.etag else l.etag);
      if a.dropped then Failed(l1)
      else if |Body(a.chunks)| > last - first + 1 then RESTART
      else Checked(l1)
  }

  function Full(etag: Tag, a: Answer): Turn
    requires a.Answer?
  {
    var total := if !a.encoded && a.length.Framed? then Some(a.length.n) else None;
    var l1 := Local(Some(Body(a.chunks)), total, if a.etag != "" then a.etag else etag);
    if a.dropped then Failed(l1)
    else if total.Some? && |Body(a.chunks)| != total.value then Failed(l1.(file := None))
    else Checked(l1)
  }

  /** The first attempt never resumes. */
  function Attempt(l: Local, first: bool, a: Answer): Turn {
    var have := if first then 0 else Size(l.file);
    if a.Fault? then Failed(l)
    else if a.status == 416 then RESTART
    else if 400 <= a.status < 600 then Failed(l)
    else if a.status == 206 then (if have == 0 then RESTART else Resume(l, a))
    else if a.status == 200 then Full(l.etag, a)
    else RESTART
  }

  // ── the whole download ──

  function Finish(l: Local): (Outcome, Local) {
    if l.total.Some? && Size(l.file) < l.total.value then (Raised, l.(file := None)) else (Returned(l.total), l)
  }

  function From(l: Local, n: nat, answers: seq<Answer>): (Outcome, Local)
    requires n <= ATTEMPTS && |answers| == ATTEMPTS
    decreases ATTEMPTS - n
  {
    if n == ATTEMPTS then Finish(l)
    else match Attempt(l, n == 0, answers[n])
      case Done(l1) => (Returned(l1.total), l1)
      case Partial(l1) => From(l1, n + 1, answers)
      case Failed(l1) => if n + 1 == ATTEMPTS then (Raised, l1) else From(l1, n + 1, answers)
  }

  /** A failed ranged download uses up the first attempt, unlinks the file and pins what the probe saw. */
  function Whole(file: Option<Bytes>, probe: Probe, answers: seq<Answer>): (Outcome, Local)
    requires |answers| == ATTEMPTS
  {
    match probe
    case SingleStream => From(Local(file, None, ""), 0, answers)
    case RangedFailed(total, etag) => From(Local(None, Some(total), etag), 1, answers)
  }

  // ── the code ──

  class File {
    var content: Option<Bytes>

    constructor (content: Option<Bytes>)
      ensures this.content == content
    {
      this.content := content;
    }

    method Unlink()
      modifies this
      ensures content == None
    {
      content := None;
    }

    /** Stream a body onto the end of an open file. */
    method Pump(chunks: seq<Bytes>) returns (moved: nat)
      requires content.Some?
      modifies this
      ensures content == Some(old(content).value + Body(chunks)) && moved == |Body(chunks)|
    {
      moved := 0;
      var i := 0;
      while i < |chunks|
        invariant 0 <= i <= |chunks|
        invariant content.Some? && content.value == old(content).value + Body(chunks[..i])
        invariant moved == |Body(chunks[..i])|
      {
        assert chunks[..i + 1][..i] == chunks[..i];
        assert content.value + chunks[i] == old(content).value + (Body(chunks[..i]) + chunks[i]);
        if chunks[i] != [] {
          content := Some(content.value + chunks[i]);
          moved := moved + |chunks[i]|;
        }
        i := i + 1;
      }
      assert chunks[..i] == chunks;
    }
  }

  datatype Step = Finished | GoOn | Restarted | Error

  method Resuming(dest: File, a: Answer, total: Option<int>, etag: Tag)
    returns (s: Step, total': Option<int>, etag': Tag)
    requires a.Answer? && dest.content.Some?
    modifies dest
    ensures var t := Resume(Local(old(dest.content), total, etag), a);
      Meets(t, s, dest.content, total', etag')
  {
    s, total', etag' := Restarted, total, etag;
    if a.encoded {
      return;
    }
    var range := ResumeRange(a.span, |dest.content.value|, total);
    if range == None {
      return;
    }
    if etag != "" && a.etag != "" && a.etag != etag {
      return;
    }
    if range.value.2.Some? {
      total' := range.value.2;
    }
    if a.etag != "" {
      etag' := a.etag;
    }
    var span := range.value.1 - range.value.0 + 1;
    var moved := dest.Pump(a.chunks);
    if a.dropped {
      s := Error;
    } else if moved <= span {
      s := if total' == None || |dest.content.value| >= total'.value then Finished else GoOn;
    }
  }

  method Restarting(dest: File, a: Answer, etag: Tag) returns (s: Step, total: Option<int>, etag': Tag)
    requires a.Answer?
    modifies dest
    ensures Meets(Full(etag, a), s, dest.content, total, etag')
  {
    total := if !a.encoded && a.length.Framed? then Some(a.length.n) else None;
    etag' := if a.etag != "" then a.etag else etag;
    dest.content := Some([]);
    var moved := dest.Pump(a.chunks);
    assert [] + Body(a.chunks) == Body(a.chunks);
    if a.dropped {
      s := Error;
    } else if total.Some? && moved != total.value {
      dest.Unlink();
      s := Error;
    } else {
      s := if total == None || moved >= total.value then Finished else GoOn;
    }
  }

  /** How a step stands for a turn; what a restart leaves is cleaned up by the caller. */
  ghost predicate Meets(t: Turn, s: Step, file: Option<Bytes>, total: Option<int>, etag: Tag) {
    match s
    case Finished => t == Done(Local(file, total, etag))
    case GoOn => t == Partial(Local(file, total, etag))
    case Error => t == Failed(Local(file, total, etag))
    case Restarted => t == RESTART
  }

  method Try(dest: File, first: bool, a: Answer, total: Option<int>, etag: Tag)
    returns (s: Step, total': Option<int>, etag': Tag)
    modifies dest
    ensures Meets(Attempt(Local(old(dest.content), total, etag), first, a), s, dest.content, total', etag')
  {
    s, total', etag' := Restarted, total, etag;
    var have := if first || dest.content == None then 0 else |dest.content.value|;
    if a.Fault? {
      s := Error;
    } else if a.status == 416 {
    } else if 400 <= a.status < 600 {
      s := Error;
    } else if have == 0 && a.status == 206 {
    } else if have != 0 && a.status == 206 {
      s, total', etag' := Resuming(dest, a, total, etag);
    } else if a.status == 200 {
      s, total', etag' := Restarting(dest, a, etag);
    }
  }

  /** The download's loop over its attempts. */
  method Fetch(dest: File, probe: Probe, answers: seq<Answer>)
    returns (outcome: Outcome, total: Option<int>, etag: Tag)
    requires |answers| == ATTEMPTS
    modifies dest
    ensures (outcome, Local(dest.content, total, etag)) == Whole(old(dest.content), probe, answers)
  {
    total, etag := None, "";
    var n := 0;
    if probe.RangedFailed? {
      total, etag := Some(probe.total), probe.etag;
      dest.Unlink();
      n := 1;
    }
    while n < ATTEMPTS
      invariant n <= ATTEMPTS
      invariant From(Local(dest.content, total, etag), n, answers) == Whole(old(dest.content), probe, answers)
    {
      var s, total', etag' := Try(dest, n == 0, answers[n], total, etag);
      total, etag := total', etag';
      if s == Finished {
        return Returned(total), total, etag;
      }
      if s == Restarted {
        dest.Unlink();
        total, etag := None, "";
      }
      if s != GoOn && n + 1 == ATTEMPTS {
        return Raised, total, etag;
      }
      n := n + 1;
    }
    var final := if dest.content == None then 0 else |dest.content.value|;
    if total.Some? && final < total.value {
      dest.Unlink();
      return Raised, total, etag;
    }
    return Returned(total), total, etag;
  }
}

/** One cycle of the single ordered sender: dispatch a window, learn verdicts, settle the head for as long as
    its verdict is known, drop undelivered reopen reports, count a fruitless attempt. */
module SenderCycle {
  import Admission
  import opened Basics
  import opened Frames
  import opened StreamState

  const ACK_WINDOW := 32
  const DELIVERY_PENDING_MAX_ATTEMPTS := 120

  /** A verdict the sender knows but has not settled yet. */
  datatype Known = Known(disp: Disposition, ack: Ack)

  /** The first frames of the outbox, at most `n` of them. */
  function First(frames: seq<Frame>, n: nat): (r: seq<Frame>)
    ensures forall f :: f in r ==> f in frames
    ensures frames != [] && n > 0 ==> r != [] && r[0] == frames[0]
  {
    if |frames| <= n then frames else frames[..n]
  }

  /** The frames among `frames` that have no verdict yet. */
  function Unsettled(frames: seq<Frame>, known: map<Key, Known>): (r: seq<Frame>)
    ensures forall f :: f in r <==> f in frames && f.Key() !in known
  {
    if frames == [] then []
    else
      var rest := Unsettled(frames[1..], known);
      assert forall f :: f in frames <==> f == frames[0] || f in frames[1..];
      if frames[0].Key() in known then rest else [frames[0]] + rest
  }

  function Keys(frames: seq<Frame>): set<Key> {
    set f | f in frames :: f.Key()
  }

  /** The verdict the server's answers give a frame, if they give one. */
  function Answered(f: Frame, answers: map<Key, Ack>): Option<Known> {
    if f.Key() in answers && answers[f.Key()].key == f.Key() && Judge(f, answers[f.Key()]).Some?
    then Some(Known(Judge(f, answers[f.Key()]).value, answers[f.Key()])) else None
  }

  function LearnAll(known: map<Key, Known>, frames: seq<Frame>, answers: map<Key, Ack>): map<Key, Known>
    decreases |frames|
  {
    if frames == [] then known
    else
      var k := Answered(frames[0], answers);
      LearnAll(if k.Some? then known[frames[0].Key() := k.value] else known, frames[1..], answers)
  }

  function CapAck(key: Key): Ack {
    Ack(key, 0, "delivery-pending cap exceeded")
  }

  function Attempts(s: State, key: Key): nat {
    if key in s.attempts then s.attempts[key] else 0
  }

  function CountAttempt(s: State, key: Key): State {
    s.(attempts := s.attempts[key := Attempts(s, key) + 1])
  }

  /** A fruitless cycle for the head: one more attempt, and the dead-letter once the cap is passed. */
  function ExhaustState(s: State, f: Frame, write: bool): (State, bool) {
    if Attempts(s, f.Key()) + 1 > DELIVERY_PENDING_MAX_ATTEMPTS then
      Settle(CountAttempt(s, f.Key()), f, Abandoned, Some(CapAck(f.Key())), write, true)
    else Settle(CountAttempt(s, f.Key()), f, Pending, None, write, true)
  }

  /** `fuse` counts the settlements until one whose write fails; a negative fuse never blows.  `raised` says
      that it did, and ends the cycle. */
  datatype Cycle = Cycle(s: State, known: map<Key, Known>, fuse: int, raised: bool)

  /** Settle the head for as long as its verdict is known. */
  function Drain(s: State, known: map<Key, Known>, fuse: int): Cycle
    decreases |known|
  {
    if s.mem.frames == [] || s.mem.frames[0].Key() !in known then Cycle(s, known, fuse, false)
    else
      var head := s.mem.frames[0];
      var v := known[head.Key()];
      var r := Settle(s, head, v.disp, Some(v.ack), fuse != 0, true);
      if r.1 then Cycle(r.0, known, fuse, true)
      else Drain(r.0, Drop(known, head.Key()), fuse - 1)
  }

  /** Drop reopen reports that were dispatched and not accepted. */
  function DropReports(s: State, known: map<Key, Known>, attempted: set<Key>, fuse: int): Cycle
    decreases |s.mem.frames|
  {
    if s.mem.frames != [] && IsReopen(s.mem.frames[0])
       && (s.mem.frames[0].Key() in attempted || s.mem.frames[0].Key() in s.wired)
    then
      var r := Settle(s, s.mem.frames[0], Abandoned, None, fuse != 0, true);
      if r.1 then Cycle(r.0, known, fuse, true) else DropReports(r.0, known, attempted, fuse - 1)
    else Cycle(s, known, fuse, false)
  }

  /** An attempted head that is still there has spent one attempt. */
  function SpendAttempt(s: State, known: map<Key, Known>, attempted: set<Key>, fuse: int): Cycle {
    if s.mem.frames != [] && s.mem.frames[0].Key() in attempted then
      var r := ExhaustState(s, s.mem.frames[0], fuse != 0);
      Cycle(r.0, known, fuse, r.1)
    else Cycle(s, known, fuse, false)
  }

  /** The handler of a settlement whose write failed. */
  function Recovered(c: Cycle): Cycle {
    if c.raised && c.s.mem.frames != [] then c.(s := Latched(c.s, Admission.StorageFault, true)) else c
  }

  function SettlePhase(s: State, known: map<Key, Known>, attempted: set<Key>, fuse: int): Cycle {
    var c := Drain(s, known, fuse);
    if c.raised then c
    else
      var d := DropReports(c.s, c.known, attempted, c.fuse);
      if d.raised then d else SpendAttempt(d.s, d.known, attempted, d.fuse)
  }

  /** One whole cycle, undisturbed by appends: what the server answers, and which write fails, are inputs. */
  function RunCycle(s: State, known: map<Key, Known>, answers: map<Key, Ack>, fuse: int): Cycle {
    if s.mem.frames == [] then Cycle(s, known, fuse, false)
    else
      var unsent := Unsettled(First(s.mem.frames, ACK_WINDOW), known);
      Recovered(SettlePhase(s, LearnAll(known, unsent, answers), Keys(unsent), fuse))
  }
}

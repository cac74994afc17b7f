/** The job-admission latch of the event stream and its storage overlay. */
module Admission {
  import opened Basics
  import opened Frames

  datatype Fault = DeliveryPending | FrameRejected(key: Key) | StorageFault | Unhealthy

  /** `current` closes admission while it is Some.  A storage fault may displace an earlier fault and must
      give it back when a later durable write succeeds. */
  datatype Latches = Latches(current: Option<Fault>, storage: Option<Fault>, fromStorage: bool,
                             displaced: Option<Fault>)

  const OPEN := Latches(None, None, false, None)

  predicate Permanent(f: Option<Fault>) {
    f.Some? && !f.value.DeliveryPending?
  }

  // ── the three ways the code moves the latch ──

  predicate Replaces(a: Latches, e: Fault) {
    a.current.None? || !e.DeliveryPending?
  }

  function Latch(a: Latches, e: Fault, storage: bool): Latches {
    var replacing := Replaces(a, e);
    Latches(
      if replacing then Some(e) else a.current,
      if storage && a.storage.None? then Some(e) else a.storage,
      if replacing then storage else a.fromStorage,
      if replacing && storage && !a.fromStorage then a.current else a.displaced)
  }

  /** The tail of a successful durable write. */
  function Recover(a: Latches, outboxEmpty: bool): Latches {
    if a.storage.None? then a
    else if a.fromStorage then
      Latches(if a.displaced == Some(DeliveryPending) && outboxEmpty then None else a.displaced,
              None, false, None)
    else a.(storage := None)
  }

  /** A settled frame, or a socket that opens, clears an ambiguous latch once nothing is left to deliver. */
  function ClearPending(a: Latches, outboxEmpty: bool): Latches {
    if a.current == Some(DeliveryPending) && outboxEmpty && a.storage.None? then a.(current := None) else a
  }

  // ── the simple machine the latch implements ──

  /** Two independent layers: the verdict on the stream's own voice, and whether storage is down. */
  datatype Layers = Layers(verdict: Option<Fault>, storageDown: bool)

  function Abs(a: Latches): Layers {
    Layers(if a.fromStorage then a.displaced else a.current, a.storage.Some?)
  }

  predicate Valid(a: Latches) {
    && (a.fromStorage ==> a.storage.Some? && Permanent(a.current))
    && (a.storage.Some? && !a.fromStorage ==> Permanent(a.current))
  }

  /** The verdict layer only ever goes from nothing to ambiguous to permanent; ambiguity can be cleared,
      and it is not recorded while storage is down. */
  function LatchLayers(l: Layers, e: Fault): Layers {
    if e.DeliveryPending? && (l.verdict.Some? || l.storageDown) then l else l.(verdict := Some(e))
  }

  function ClearLayers(l: Layers, outboxEmpty: bool): Layers {
    if outboxEmpty && l.verdict == Some(DeliveryPending) then l.(verdict := None) else l
  }

  lemma OpenExactlyWhenBothLayersAre(a: Latches)
    requires Valid(a)
    ensures a.current.None? <==> Abs(a) == Layers(None, false)
  {
  }

  lemma LatchRefines(a: Latches, e: Fault, storage: bool)
    requires Valid(a) && (storage ==> !e.DeliveryPending?)
    ensures Valid(Latch(a, e, storage))
    ensures Abs(Latch(a, e, storage)) == if storage then Abs(a).(storageDown := true) else LatchLayers(Abs(a), e)
  {
  }

  /** Recovery brings storage back and keeps a permanent verdict; it drops an ambiguous one only when the
      outbox is empty. */
  lemma RecoverRefines(a: Latches, outboxEmpty: bool)
    requires Valid(a)
    ensures Valid(Recover(a, outboxEmpty))
    ensures Abs(Recover(a, outboxEmpty)) ==
            if Abs(a).storageDown then ClearLayers(Abs(a), outboxEmpty).(storageDown := false) else Abs(a)
  {
  }

  lemma ClearRefines(a: Latches, outboxEmpty: bool)
    requires Valid(a)
    ensures Valid(ClearPending(a, outboxEmpty))
    ensures Abs(ClearPending(a, outboxEmpty)) ==
            if Abs(a).storageDown then Abs(a) else ClearLayers(Abs(a), outboxEmpty)
  {
  }
}

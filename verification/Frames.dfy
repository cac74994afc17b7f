/** Client frames, server acknowledgements and the verdict table of the pod's event stream. */
module Frames {
  import opened Basics

  type Id = string

  /** The body of a durable client frame.  An empty `kind` or `stage` stands for an absent field. */
  datatype Payload =
    | Event(stage: string, phase: string, corr: Id, detail: string)
    | Result(corr: Id, attempt: Id, job: Id, kind: string, stage: string, detail: string)
    | JobAck(corr: Id, attempt: Id, received: nat)

  /** The identity a frame keeps for life, across reconnects and process restarts. */
  datatype Key = KeyOf(streamId: Id, num: nat)

  datatype Frame = Frame(streamId: Id, num: nat, payload: Payload) {
    function Key(): Key {
      KeyOf(streamId, num)
    }
  }

  datatype Ack = Ack(key: Key, status: int, error: string)

  // ── which frames are boot telemetry ──

  /** A boot/ready event names no single job. */
  predicate IsBoot(f: Frame) {
    f.payload.Event? && f.payload.stage == "boot"
  }

  /** The best-effort diagnostic that reports why the previous socket closed. */
  predicate IsReopen(f: Frame) {
    IsBoot(f) && f.payload.phase == "stream_reopen"
  }

  // ── structural validity, as checked on append and again on load ──

  predicate IdChar(c: char) {
    'A' <= c <= 'Z' || 'a' <= c <= 'z' || '0' <= c <= '9' || c in "_.-"
  }

  predicate ValidStreamId(id: Id) {
    0 < |id| <= 128 && forall i :: 0 <= i < |id| ==> IdChar(id[i])
  }

  /** Thirty-two lower-case hexadecimal digits. */
  predicate ValidAttempt(a: Id) {
    |a| == 32 && forall i :: 0 <= i < |a| ==> '0' <= a[i] <= '9' || 'a' <= a[i] <= 'f'
  }

  predicate ValidPayload(p: Payload) {
    match p
    case Event(stage, _, _, _) => stage != ""
    case Result(corr, _, job, kind, stage, _) => corr != "" && job != "" && (kind == "") != (stage == "")
    case JobAck(corr, attempt, _) => corr != "" && ValidAttempt(attempt)
  }

  predicate ValidFrame(f: Frame) {
    && ValidPayload(f.payload)
    && ValidStreamId(f.streamId)
    && f.num >= 1
    && (f.payload.Result? ==> ValidAttempt(f.payload.attempt))
  }

  // ── the verdict table ──

  datatype Verdict = OneFrame | ClosesAdmission

  /** The refusal that says another worker now owns the correlation. */
  const NOT_OWNED := "job_ack corr is not owned by this worker"

  const ONE_FRAME_TEXTS := {
    NOT_OWNED,
    "stream_id+seq reused with different payload",
    "corr_id/result_key already names a different terminal",
    "unknown or expired fleet corr_id",
    "fleet corr attribution does not match frame",
    "fleet corr attribution does not match result",
    "late_terminal_unknown"
  }

  predicate OneFrameText(error: string) {
    || error in ONE_FRAME_TEXTS
    || "pod delivery identity conflict: " <= error
    || "job_ack arrived before readiness: " <= error
  }

  /** A permanent verdict on one frame, or none: then the transport simply retries. */
  function Classify(f: Frame, status: int, error: string): Option<Verdict> {
    if IsReopen(f) && status in {403, 409, 422} then Some(OneFrame)
    else if status == 403 then Some(if OneFrameText(error) then OneFrame else ClosesAdmission)
    else if status == 422 then Some(if IsBoot(f) then ClosesAdmission else OneFrame)
    else if status == 409 then (if OneFrameText(error) then Some(OneFrame) else None)
    else None
  }

  /** What the sender does with a frame once it stops waiting for it. */
  datatype Disposition = Accepted | Rejected | OneFrameOnly | Abandoned | Pending

  /** The disposition one acknowledgement gives its frame; None keeps the frame for another attempt. */
  function Judge(f: Frame, ack: Ack): Option<Disposition> {
    if 200 <= ack.status < 300 then Some(Accepted)
    else match Classify(f, ack.status, ack.error)
      case Some(OneFrame) => Some(OneFrameOnly)
      case Some(ClosesAdmission) => Some(Rejected)
      case None => None
  }

  /** The event that records, at the tail of the stream, that a result was acknowledged. */
  function ResultAcked(r: Payload): Payload
    requires r.Result?
  {
    var stage := if r.stage != "" then r.stage else if r.kind != "" then "infer" else "result";
    Event(stage, "result_acked", r.corr, r.detail)
  }

  /** The verdict table, by status and text.  A success status accepts.  A reopen report is refused alone on 403, 409
      and 422.  Of other frames, 403 and 409 with a text about one frame and 422 on anything but a boot frame refuse
      that frame alone; any other 403, and 422 on a boot frame, refuse the worker; everything else decides nothing. */
  lemma JudgeIsPermanentOnlyOnContentStatuses(f: Frame, ack: Ack)
    ensures Judge(f, ack) == Some(Accepted) <==> 200 <= ack.status < 300
    ensures Judge(f, ack) in {Some(Rejected), Some(OneFrameOnly)} ==> ack.status in {403, 409, 422}
    ensures Judge(f, ack) == Some(Rejected) <==>
            !IsReopen(f) && ((ack.status == 403 && !OneFrameText(ack.error)) || (ack.status == 422 && IsBoot(f)))
    ensures Judge(f, ack) == Some(OneFrameOnly) <==>
            || (IsReopen(f) && ack.status in {403, 409, 422})
            || (ack.status in {403, 409} && OneFrameText(ack.error))
            || (ack.status == 422 && !IsBoot(f))
    ensures Judge(f, ack) in {None, Some(Accepted), Some(Rejected), Some(OneFrameOnly)}
  {
  }
}

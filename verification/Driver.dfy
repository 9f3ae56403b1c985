// The five phases of one invocation, driven by the frames the app server writes.
module Driver {
  import opened Wrappers
  import opened Json
  import opened Protocol
  import Diagnostics
  import Paths
  import ProtocolState

  const MAX_CAPTURE_BYTES: nat := 64 * 1024 * 1024

  // What reading one frame yields: a line of some length with its JSON value, if it has one, a frame
  // that is not acceptable, or a last one that was cut off. A list of frames that runs out is the end
  // of the stream.
  datatype Frame =
    | Line(bytes: nat, value: Option<Json>)
    | Invalid
    | Unfinished

  datatype Phase = Initialize | ThreadStart | TurnStart | EventStream | PostTerminal

  datatype Progress = Progress(phase: Phase, monitor: Monitor, captured: nat)

  // One frame either advances the invocation or ends it with an error.
  datatype Move =
    | Continue(progress: Progress)
    | Stop(monitor: Monitor, error: Error)

  datatype Outcome = Outcome(monitor: Monitor, result: Result<(Uuid, string), Error>)

  // The phases that wait for a response.
  predicate IsWaiting(phase: Phase) {
    phase.Initialize? || phase.ThreadStart? || phase.TurnStart?
  }

  const START: Progress := Progress(Initialize, FRESH, 0)

  // A notification has a method and no id.
  predicate IsNotification(message: Json) {
    Has(message, "method") && !Has(message, "id")
  }

  // Events that may not follow the end of the turn.
  predicate IsTracked(message: Json) {
    MethodOf(message) != OtherMethod && MethodOf(message) != NoMethod
  }

  function Rejected(m: Monitor, reason: string): Move {
    Stop(m, ProtocolViolation(reason))
  }

  function ExpectedId(phase: Phase): int
    requires IsWaiting(phase)
  {
    match phase
    case Initialize => 1
    case ThreadStart => 2
    case TurnStart => 3
  }

  // The result of the request a phase waits for.
  function OnResult(ctx: Context, p: Progress, value: Json): Move
    requires IsWaiting(p.phase)
  {
    match p.phase
    case Initialize =>
      var home := AsText(Get(value, "codexHome"));
      if home.None? || Paths.Parse(home.value) != ctx.home then Rejected(p.monitor, "codex_home_mismatch")
      else Continue(p.(phase := ThreadStart))
    case ThreadStart =>
      var id := ParseUuid(AsText(Get2(value, "thread", "id")));
      if id.None? then Rejected(p.monitor, "thread_id_invalid")
      else Bound(p.(phase := TurnStart), BindThread(p.monitor, id.value))
    case TurnStart =>
      var id := AsText(Get2(value, "turn", "id"));
      if id.None? then Rejected(p.monitor, "turn_id_missing")
      else Bound(p.(phase := EventStream), BindTurn(p.monitor, id.value))
  }

  function Bound(p: Progress, o: Observed): Move {
    if o.verdict.Err? then Stop(o.monitor, o.verdict.error) else Continue(p.(monitor := o.monitor))
  }

  function WhileWaiting(ctx: Context, p: Progress, message: Json): Move
    requires IsWaiting(p.phase)
  {
    if IsNotification(message) then
      var o := Observe(ctx, p.monitor, message);
      if o.verdict == Ok(true) then Rejected(o.monitor, "terminal_before_response") else Bound(p, o)
    else if AsI64(Get(message, "id")) != Some(ExpectedId(p.phase)) then Rejected(p.monitor, "unexpected_response_id")
    else if Has(message, "result") && !Has(message, "error") then OnResult(ctx, p, Get(message, "result").value)
    else if !Has(message, "result") && Has(message, "error") then
      Stop(RecordFailure(ctx, p.monitor, Diagnostics.RpcRejection, Get(message, "error").value), RequestRejected)
    else Rejected(p.monitor, "response_envelope_invalid")
  }

  function OnMessage(ctx: Context, p: Progress, message: Json): Move {
    match p.phase
    case EventStream =>
      if Has(message, "id") then Rejected(p.monitor, "unexpected_response")
      else
        var o := Observe(ctx, p.monitor, message);
        Bound(if o.verdict == Ok(true) then p.(phase := PostTerminal) else p, o)
    case PostTerminal =>
      if !IsNotification(message) then Rejected(p.monitor, "post_terminal_message_invalid")
      else if IsTracked(message) then Rejected(p.monitor, "post_terminal_event")
      else
        var o := Observe(ctx, p.monitor, message);
        if o.verdict == Ok(true) then Rejected(o.monitor, "post_terminal_event") else Bound(p, o)
    case _ => WhileWaiting(ctx, p, message)
  }

  // The message of a frame, when the frame is a JSON line within the capture budget.
  function ReadFrame(frame: Frame, captured: nat): Result<Json, Error> {
    match frame
    case Invalid => Err(ProtocolViolation("frame_invalid"))
    case Unfinished => Err(ProcessExited)
    case Line(bytes, value) =>
      if captured + bytes > MAX_CAPTURE_BYTES then Err(ProtocolViolation("capture_limit_exceeded"))
      else if value.None? then Err(ProtocolViolation("json_invalid"))
      else Ok(value.value)
  }

  function OnFrame(ctx: Context, p: Progress, frame: Frame): Move {
    var read := ReadFrame(frame, p.captured);
    if read.Err? then Stop(p.monitor, read.error)
    else OnMessage(ctx, p.(captured := p.captured + frame.bytes), read.value)
  }

  // The stream ended between two frames.
  function AtEnd(p: Progress): Outcome {
    Outcome(p.monitor, if p.phase == PostTerminal then Authority(p.monitor) else Err(ProcessExited))
  }

  function Run(ctx: Context, p: Progress, frames: seq<Frame>): Outcome
    decreases |frames|
  {
    if frames == [] then AtEnd(p)
    else match OnFrame(ctx, p, frames[0])
      case Continue(next) => Run(ctx, next, frames[1..])
      case Stop(m, error) => Outcome(m, Err(error))
  }

  // The rest of a run after one frame.
  function RunMove(ctx: Context, move: Move, rest: seq<Frame>): Outcome {
    match move
    case Continue(next) => Run(ctx, next, rest)
    case Stop(m, error) => Outcome(m, Err(error))
  }

  // One step of a run.
  lemma RunStep(ctx: Context, p: Progress, frames: seq<Frame>, k: nat)
    requires k < |frames|
    ensures Run(ctx, p, frames[k..]) == RunMove(ctx, OnFrame(ctx, p, frames[k]), frames[k + 1..])
  {
    hide OnFrame;
    assert frames[k..][0] == frames[k] && frames[k..][1..] == frames[k + 1..];
  }

  // What is left of a run from some frame on.
  lemma RunFrom(ctx: Context, p: Progress, frames: seq<Frame>, k: nat)
    requires k <= |frames|
    ensures Run(ctx, p, frames[k..])
         == if k == |frames| then AtEnd(p) else RunMove(ctx, OnFrame(ctx, p, frames[k]), frames[k + 1..])
  {
    hide OnFrame, AtEnd;
    if k < |frames| {
      RunStep(ctx, p, frames, k);
    }
  }

  // The progress after some frames, while nothing has ended the run.
  function Advance(ctx: Context, p: Progress, frames: seq<Frame>): Option<Progress>
    decreases |frames|
  {
    if frames == [] then Some(p)
    else match OnFrame(ctx, p, frames[0])
      case Continue(next) => Advance(ctx, next, frames[1..])
      case Stop(_, _) => None
  }

  // A run over two stretches of frames is the run over the second from where the first arrived.
  lemma {:induction false} RunSplit(ctx: Context, p: Progress, before: seq<Frame>, after: seq<Frame>)
    requires Advance(ctx, p, before).Some?
    ensures Run(ctx, p, before + after) == Run(ctx, Advance(ctx, p, before).value, after)
    decreases |before|
  {
    hide OnFrame;
    if before == [] {
      assert before + after == after;
    } else {
      assert (before + after)[0] == before[0] && (before + after)[1..] == before[1..] + after;
      RunSplit(ctx, OnFrame(ctx, p, before[0]).progress, before[1..], after);
    }
  }
}

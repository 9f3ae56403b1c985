// The app-server protocol monitor as a pure transition function: what one notification does to the
// identities, image counts and diagnostics the monitor keeps.
module Protocol {
  import opened Wrappers
  import opened Json
  import opened Diagnostics
  import Text
  import Paths
  import Uuids

  type Uuid = Uuids.Uuid

  // How a reported failure is summarized. Every theorem about the monitor holds for any summary.
  type Summarizer = (Source, Json, Option<bool>) -> Diagnostic

  // What the monitor is given: the directory that must hold the image, and the failure summary.
  datatype Context = Context(home: Paths.Path, summarize: Summarizer)

  // The context of a real invocation.
  function GatewayContext(home: Paths.Path): Context {
    Context(home, Diagnostics.Summarize)
  }

  datatype Error =
    | ProtocolViolation(reason: string)
    | ProcessExited
    | RequestRejected
    | TurnFailed
    | ImageToolFailed
    | ContentPolicyRejected
    | NoImage
    | ImageIncomplete
    | MultipleImages

  datatype Monitor = Monitor(
    threadId: Option<Uuid>,
    announcedThreadId: Option<Uuid>,
    turnId: Option<string>,
    announcedTurnId: Option<string>,
    sawImageGeneration: bool,
    startedImageCallId: Option<string>,
    startedImageCount: nat,
    completedImageCallId: Option<string>,
    completedImageCount: nat,
    imageFailed: bool,
    imageIncomplete: bool,
    failure: Option<Diagnostic>,
    lastRetry: Option<Diagnostic>,
    retryCount: nat)

  const FRESH: Monitor :=
    Monitor(None, None, None, None, false, None, 0, None, 0, false, false, None, None, 0)

  // The monitor after an observation, and its verdict; a verdict of true ends the turn.
  datatype Observed = Observed(monitor: Monitor, verdict: Result<bool, Error>)

  const USIZE_MAX: nat := 0xFFFF_FFFF_FFFF_FFFF

  function SaturatingIncrement(n: nat): nat {
    if n < USIZE_MAX then n + 1 else n
  }

  predicate IsIdentifier(s: string, limit: nat) {
    && 0 < |s| <= limit
    && forall k | 0 <= k < |s| :: Text.IsAlphanumeric(s[k]) || s[k] == '-' || s[k] == '_'
  }

  predicate ValidCallId(s: string) {
    IsIdentifier(s, 255 - 4)
  }

  predicate ValidTurnId(s: string) {
    IsIdentifier(s, 255)
  }

  function ParseUuid(text: Option<string>): Option<Uuid> {
    if text.Some? then Uuids.Parse(text.value) else None
  }

  function Violation(m: Monitor, reason: string): Observed {
    Observed(m, Err(ProtocolViolation(reason)))
  }

  predicate Conflicts<T(==)>(known: Option<T>, candidate: T) {
    known.Some? && known.value != candidate
  }

  // Recording a failure: a policy rejection is never replaced; otherwise the first failure stays, and
  // only gains the structured reason of a later terminal event when it has none.
  function Record(previous: Option<Diagnostic>, source: Source, next: Diagnostic): Option<Diagnostic> {
    if previous.Some? && previous.value.policyRejected then previous
    else if previous.Some? && !next.policyRejected then
      if source == TurnTerminal && previous.value.errorInfo.None? && previous.value.httpStatus.None?
         && next.errorInfo.Some? && next.errorInfo.value != Unknown
      then Some(previous.value.(errorInfo := next.errorInfo, httpStatus := next.httpStatus))
      else previous
    else Some(next)
  }

  function RecordFailure(ctx: Context, m: Monitor, source: Source, v: Json): Monitor {
    m.(failure := Record(m.failure, source, ctx.summarize(source, v, None)))
  }

  predicate HasPolicyFailure(m: Monitor) {
    m.failure.Some? && m.failure.value.policyRejected
  }

  function BindThread(m: Monitor, id: Uuid): Observed {
    var bound := m.(threadId := Some(id));
    if Conflicts(m.threadId, id) || Conflicts(m.announcedThreadId, id)
    then Violation(bound, "thread_identity_mismatch")
    else Observed(bound, Ok(false))
  }

  function BindTurn(m: Monitor, id: string): Observed {
    if !ValidTurnId(id) || Conflicts(m.turnId, id) || Conflicts(m.announcedTurnId, id)
    then Violation(m, "turn_identity_mismatch")
    else Observed(m.(turnId := Some(id)), Ok(false))
  }

  function ExpectedTurn(m: Monitor): Option<string> {
    if m.turnId.Some? then m.turnId else m.announcedTurnId
  }

  // The reason an item or error does not belong to the bound thread and turn, or none.
  function BoundIdentityFault(m: Monitor, params: Json): Option<string> {
    var thread := ParseUuid(AsText(Get(params, "threadId")));
    var turn := AsText(Get(params, "turnId"));
    if m.threadId.None? then Some("thread_identity_missing")
    else if thread.None? then Some("item_thread_id_invalid")
    else if turn.None? then Some("item_turn_id_missing")
    else if ExpectedTurn(m).None? then Some("turn_identity_missing")
    else if thread != m.threadId || turn != ExpectedTurn(m) then Some("item_identity_mismatch")
    else None
  }

  // The reason a turn event does not agree with what is already bound, or none.
  function TurnIdentityFault(m: Monitor, params: Json, turn: string): Option<string> {
    var thread := ParseUuid(AsText(Get(params, "threadId")));
    if thread.None? then Some("turn_thread_id_invalid")
    else if Conflicts(m.threadId, thread.value) || Conflicts(m.turnId, turn) || !ValidTurnId(turn)
    then Some("turn_identity_mismatch")
    else None
  }

  function OnThreadStarted(m: Monitor, params: Json): Observed {
    var id := ParseUuid(AsText(Get2(params, "thread", "id")));
    if id.None? then Violation(m, "thread_notification_id_invalid")
    else
      var announced := m.(announcedThreadId := id);
      if Conflicts(m.announcedThreadId, id.value) || Conflicts(m.threadId, id.value)
      then Violation(announced, "thread_identity_mismatch")
      else Observed(announced, Ok(false))
  }

  function OnTurnStarted(m: Monitor, params: Json): Observed {
    var id := AsText(Get2(params, "turn", "id"));
    if id.None? then Violation(m, "turn_notification_id_missing")
    else
      var fault := TurnIdentityFault(m, params, id.value);
      if fault.Some? then Violation(m, fault.value)
      else if Conflicts(m.announcedTurnId, id.value) then Violation(m, "turn_identity_mismatch")
      else Observed(m.(announcedTurnId := id), Ok(false))
  }

  predicate IsInformational(itemType: string) {
    itemType == "userMessage" || itemType == "reasoning" || itemType == "agentMessage" || itemType == "plan"
  }

  function OnItem(ctx: Context, m: Monitor, params: Json, completed: bool): Observed {
    var itemType := AsText(Get2(params, "item", "type"));
    if itemType.None? then Violation(m, "item_type_missing")
    else
      var fault := BoundIdentityFault(m, params);
      if fault.Some? then Violation(m, fault.value)
      else if itemType.value != "imageGeneration" then
        if IsInformational(itemType.value) then Observed(m, Ok(false)) else Violation(m, "unexpected_item_type")
      else
        var seen := m.(sawImageGeneration := true);
        var call := AsText(Get2(params, "item", "id"));
        if call.None? || !ValidCallId(call.value) then Violation(seen, "image_call_id_invalid")
        else if completed then OnImageCompleted(ctx, seen, params, call.value)
        else OnImageStarted(seen, call.value)
  }

  function OnImageStarted(m: Monitor, call: string): Observed {
    var counted := m.(startedImageCount := SaturatingIncrement(m.startedImageCount));
    if counted.startedImageCount > 1 || Conflicts(m.startedImageCallId, call)
    then Observed(counted, Err(MultipleImages))
    else Observed(counted.(startedImageCallId := Some(call)), Ok(false))
  }

  function SavedPath(home: Paths.Path, thread: Uuid, call: string): Paths.Path {
    Paths.Under(home, ["generated_images", Uuids.Print(thread), call + ".png"])
  }

  function OnImageCompleted(ctx: Context, m: Monitor, params: Json, call: string): Observed {
    var counted := m.(completedImageCount := SaturatingIncrement(m.completedImageCount));
    if counted.completedImageCount > 1 || Conflicts(m.startedImageCallId, call) || Conflicts(m.completedImageCallId, call)
    then Observed(counted, Err(MultipleImages))
    else OnImageSettled(ctx, counted.(completedImageCallId := Some(call)), params, call)
  }

  // The one completion of the one call: whether there is an image, and where.
  function OnImageSettled(ctx: Context, m: Monitor, params: Json, call: string): Observed {
    var status := AsText(Get2(params, "item", "status"));
    if status == Some("completed") then OnImageSaved(ctx, m, params, call)
    else if status == Some("failed") then
      Observed(RecordFailure(ctx, m.(imageFailed := true), ImageGenerationItem, OrNull(Get(params, "item"))), Ok(false))
    else Observed(m.(imageIncomplete := true), Ok(false))
  }

  function OnImageSaved(ctx: Context, m: Monitor, params: Json, call: string): Observed {
    var result := AsText(Get2(params, "item", "result"));
    var saved := AsText(Get2(params, "item", "savedPath"));
    if result.None? || result.value == "" then Violation(m, "image_result_missing")
    else if saved.None? then Observed(m, Err(ImageIncomplete))
    else if m.threadId.None? then Violation(m, "thread_identity_missing")
    else if Paths.Parse(saved.value) != SavedPath(ctx.home, m.threadId.value, call)
    then Violation(m, "image_saved_path_mismatch")
    else Observed(m, Ok(false))
  }

  function OnTurnCompleted(ctx: Context, m: Monitor, params: Json): Observed {
    var id := AsText(Get2(params, "turn", "id"));
    if id.None? then Violation(m, "turn_terminal_id_missing")
    else
      var fault := TurnIdentityFault(m, params, id.value);
      var status := AsText(Get2(params, "turn", "status"));
      if fault.Some? then Violation(m, fault.value)
      else if status == Some("completed") then Observed(m, Ok(true))
      else if status == Some("failed") || status == Some("interrupted") then
        var failed := RecordFailure(ctx, m, TurnTerminal, OrNull(Get2(params, "turn", "error")));
        Observed(failed, Err(if HasPolicyFailure(failed) then ContentPolicyRejected else TurnFailed))
      else Violation(m, "turn_terminal_status_invalid")
  }

  function WillRetry(params: Json): Option<bool> {
    var flag := Get(params, "willRetry");
    if flag.Some? && flag.value.Bool? then Some(flag.value.truth) else None
  }

  function OnError(ctx: Context, m: Monitor, params: Json): Observed {
    var fault := BoundIdentityFault(m, params);
    if fault.Some? then Violation(m, fault.value)
    else if Has(params, "willRetry") && WillRetry(params).None? then Violation(m, "error_retry_flag_invalid")
    else
      var retry := WillRetry(params);
      var diagnostic := ctx.summarize(ServerErrorNotification, params, retry);
      if HasPolicyFailure(m) then Observed(m, Err(ContentPolicyRejected))
      else if diagnostic.policyRejected then
        Observed(m.(failure := Some(diagnostic)), Err(ContentPolicyRejected))
      else if retry == Some(true) && diagnostic.permitsRecovery then
        Observed(m.(retryCount := SaturatingIncrement(m.retryCount), lastRetry := Some(diagnostic)), Ok(false))
      else Observed(m.(failure := Some(diagnostic)), Err(RequestRejected))
  }

  function Params(message: Json): Json {
    OrNull(Get(message, "params"))
  }

  // The notifications the monitor tracks, by the name of their method.
  datatype Method =
    | ThreadStarted | TurnStarted | ItemStarted | ItemCompleted | TurnCompleted | ErrorRaised
    | OtherMethod
    | NoMethod  // the method is missing or is not a text

  function MethodNamed(name: string): Method {
    match name
    case "thread/started" => ThreadStarted
    case "turn/started" => TurnStarted
    case "item/started" => ItemStarted
    case "item/completed" => ItemCompleted
    case "turn/completed" => TurnCompleted
    case "error" => ErrorRaised
    case _ => OtherMethod
  }

  function MethodOf(message: Json): Method {
    var name := AsText(Get(message, "method"));
    if name.None? then NoMethod else MethodNamed(name.value)
  }

  function Observe(ctx: Context, m: Monitor, message: Json): Observed {
    var params := Params(message);
    match MethodOf(message)
    case NoMethod => Violation(m, "method_missing")
    case ThreadStarted => OnThreadStarted(m, params)
    case TurnStarted => OnTurnStarted(m, params)
    case ItemStarted => OnItem(ctx, m, params, false)
    case ItemCompleted => OnItem(ctx, m, params, true)
    case TurnCompleted => OnTurnCompleted(ctx, m, params)
    case ErrorRaised => OnError(ctx, m, params)
    case OtherMethod => Observed(m, Ok(false))
  }

  // The thread and call whose file may be read, or why none may.
  function Authority(m: Monitor): Result<(Uuid, string), Error> {
    if m.threadId != m.announcedThreadId || m.turnId != m.announcedTurnId then
      Err(ProtocolViolation("terminal_identity_mismatch"))
    else if m.imageFailed then Err(if HasPolicyFailure(m) then ContentPolicyRejected else ImageToolFailed)
    else if m.imageIncomplete || (m.sawImageGeneration && (m.startedImageCount != 1 || m.completedImageCount != 1)) then
      Err(ImageIncomplete)
    else if m.completedImageCount == 0 then Err(NoImage)
    else if m.startedImageCount != 1 || m.completedImageCount != 1 then Err(MultipleImages)
    else if m.threadId.None? then Err(ProtocolViolation("thread_identity_missing"))
    else if m.completedImageCallId.None? then Err(ProtocolViolation("image_call_id_missing"))
    else Ok((m.threadId.value, m.completedImageCallId.value))
  }
}

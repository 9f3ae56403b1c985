// Summaries of failures reported by the app server: whether they carry a policy signal, and whether
// an error notification may be absorbed because the stream is expected to recover.
module Diagnostics {
  import opened Wrappers
  import opened Text
  import opened Json
  import HttpStatus
  import StreamClass

  datatype ErrorInfoKind =
    | ContextWindowExceeded | SessionBudgetExceeded | UsageLimitExceeded | ServerOverloaded | CyberPolicy
    | HttpConnectionFailed | ResponseStreamConnectionFailed | InternalServerError | Unauthorized | BadRequest
    | ThreadRollbackFailed | SandboxError | ResponseStreamDisconnected | ResponseTooManyFailedAttempts
    | ActiveTurnNotSteerable | Other | Unknown

  datatype Source = ImageGenerationItem | TurnTerminal | ServerErrorNotification | RpcRejection

  datatype Blocker = Auth | NonTransientHttp | MetadataRejected

  datatype Diagnostic = Diagnostic(
    source: Source,
    errorInfo: Option<ErrorInfoKind>,
    httpStatus: Option<int>,
    willRetry: Option<bool>,
    blocker: Option<Blocker>,
    policyRejected: bool,
    permitsRecovery: bool)

  function TextIf(v: Option<Json>): seq<string> {
    if AsText(v).Some? then [AsText(v).value] else []
  }

  function Whole(v: Json): seq<string> {
    if v.Str? then [v.text] else []
  }

  function ExplicitCodes(v: Json): seq<string> {
    Whole(v) + TextIf(Get(v, "code")) + TextIf(Get2(v, "error", "code")) + TextIf(Get2(v, "result", "code"))
      + TextIf(Get3(v, "result", "error", "code"))
  }

  // The envelope type counts, except the one every image item carries.
  function ExplicitTypes(source: Source, v: Json): seq<string> {
    var envelope := AsText(Get(v, "type"));
    Whole(v) + TextIf(Get2(v, "error", "type")) + TextIf(Get2(v, "result", "type"))
      + TextIf(Get3(v, "result", "error", "type"))
      + (if envelope.Some? && (source != ImageGenerationItem || envelope.value != "imageGeneration")
         then [envelope.value] else [])
  }

  function Messages(v: Json): seq<string> {
    Whole(v) + TextIf(Get(v, "message")) + TextIf(Get(v, "error")) + TextIf(Get2(v, "error", "message"))
      + TextIf(Get(v, "result")) + TextIf(Get2(v, "result", "message")) + TextIf(Get2(v, "result", "error"))
      + TextIf(Get3(v, "result", "error", "message"))
  }

  function Get4(v: Json, first: string, second: string, third: string, fourth: string): Option<Json> {
    var inner := Get3(v, first, second, third);
    if inner.Some? then Get(inner.value, fourth) else None
  }

  // Fields one envelope further in, inspected for signals only.
  function NestedSignals(v: Json): seq<string> {
    Whole(v) + TextIf(Get3(v, "error", "error", "code")) + TextIf(Get3(v, "error", "error", "type"))
      + TextIf(Get3(v, "error", "error", "message")) + TextIf(Get4(v, "result", "error", "error", "code"))
      + TextIf(Get4(v, "result", "error", "error", "type")) + TextIf(Get4(v, "result", "error", "error", "message"))
  }

  predicate InvalidNumberAt(v: Option<Json>) {
    v.Some? && (v.value.Integer? || v.value.Fraction?) && AsI64(v).None?
  }

  function NumericFields(v: Json): seq<Option<Json>> {
    [Get(v, "code"), Get(v, "status"), Get2(v, "error", "code"), Get2(v, "error", "status"),
     Get2(v, "result", "code"), Get2(v, "result", "status"), Get3(v, "result", "error", "code"),
     Get3(v, "result", "error", "status")]
  }

  predicate AllNumericTransient(v: Json) {
    forall k | 0 <= k < |NumericFields(v)| ::
      !InvalidNumberAt(NumericFields(v)[k])
      && (AsI64(NumericFields(v)[k]).Some? ==> IsTransientStatus(AsI64(NumericFields(v)[k]).value))
  }

  function NonNull(v: Option<Json>): seq<Json> {
    if v.Some? && !v.value.Null? then [v.value] else []
  }

  function ErrorInfos(v: Json): seq<Json> {
    NonNull(Get(v, "codexErrorInfo")) + NonNull(Get2(v, "error", "codexErrorInfo"))
      + NonNull(Get2(v, "result", "codexErrorInfo")) + NonNull(Get3(v, "result", "error", "codexErrorInfo"))
  }

  function NamedKind(name: string): ErrorInfoKind {
    match name
    case "contextWindowExceeded" => ContextWindowExceeded
    case "sessionBudgetExceeded" => SessionBudgetExceeded
    case "usageLimitExceeded" => UsageLimitExceeded
    case "serverOverloaded" => ServerOverloaded
    case "cyberPolicy" => CyberPolicy
    case "internalServerError" => InternalServerError
    case "unauthorized" => Unauthorized
    case "badRequest" => BadRequest
    case "threadRollbackFailed" => ThreadRollbackFailed
    case "sandboxError" => SandboxError
    case "other" => Other
    case _ => Unknown
  }

  function HttpKind(name: string): Option<ErrorInfoKind> {
    match name
    case "httpConnectionFailed" => Some(HttpConnectionFailed)
    case "responseStreamConnectionFailed" => Some(ResponseStreamConnectionFailed)
    case "responseStreamDisconnected" => Some(ResponseStreamDisconnected)
    case "responseTooManyFailedAttempts" => Some(ResponseTooManyFailedAttempts)
    case _ => None
  }

  // The kind and HTTP status of a structured error description.
  function KindOf(info: Json): (Option<ErrorInfoKind>, Option<int>) {
    if info.Str? then (Some(NamedKind(info.text)), None)
    else if !info.Object? then (Some(Unknown), None)
    else if |info.fields| != 1 then (Some(Unknown), None)
    else if "activeTurnNotSteerable" in info.fields then
      var details := info.fields["activeTurnNotSteerable"];
      (Some(if details.Object? && |details.fields| == 1 && AsText(Get(details, "turnKind")).Some?
            then ActiveTurnNotSteerable else Unknown), None)
    else
      HttpKindOf(info)
  }

  const HTTP_KINDS: seq<string> := ["httpConnectionFailed", "responseStreamConnectionFailed",
                                     "responseStreamDisconnected", "responseTooManyFailedAttempts"]

  function HttpKindOf(info: Json): (Option<ErrorInfoKind>, Option<int>)
    requires info.Object?
  {
    var present := if HTTP_KINDS[0] in info.fields then HTTP_KINDS[0]
                   else if HTTP_KINDS[1] in info.fields then HTTP_KINDS[1]
                   else if HTTP_KINDS[2] in info.fields then HTTP_KINDS[2]
                   else HTTP_KINDS[3];
    if present !in info.fields then (Some(Unknown), None)
    else
      var details := info.fields[present];
      if !(details.Object? && |details.fields| == 1 && Has(details, "httpStatusCode")) then (Some(Unknown), None)
      else
        var status := details.fields["httpStatusCode"];
        if status.Null? then (HttpKind(present), None)
        else if status.Integer? && 100 <= status.number <= 599 then (HttpKind(present), Some(status.number))
        else (Some(Unknown), None)
  }

  function SummarizeErrorInfo(v: Json): (Option<ErrorInfoKind>, Option<int>) {
    if ErrorInfos(v) == [] then (None, None) else KindOf(ErrorInfos(v)[0])
  }

  predicate ContainsPolicySignal(text: string) {
    ContainsAny(Lower(text), ["content_policy", "cyber_policy", "safety", "moderation", "policy", "blocked"])
  }

  predicate IsTransientStatus(status: int) {
    status == 408 || status == 425 || status == 429 || 500 <= status <= 599
  }

  predicate IsMetadataSignal(signal: StreamClass.Signal) {
    signal in {StreamClass.Forbidden, StreamClass.InvalidRequest, StreamClass.Unsupported, StreamClass.Prompt,
               StreamClass.Organization, StreamClass.Account, StreamClass.Entitlement, StreamClass.Originator,
               StreamClass.Retention}
  }

  // Why a text speaks against recovery, if it does.
  function BlockerIn(text: string): Option<Blocker> {
    var lower := Lower(text);
    var signals := StreamClass.Signals(lower);
    var statuses := HttpStatus.Statuses(lower);
    if StreamClass.Authentication in signals then Some(Auth)
    else if exists k | 0 <= k < |statuses| :: !IsTransientStatus(statuses[k]) then Some(NonTransientHttp)
    else if (exists k | 0 <= k < |signals| :: IsMetadataSignal(signals[k]))
            || Contains(lower, "bad_request") || Contains(lower, "bad request") then Some(MetadataRejected)
    else None
  }

  function FirstBlocker(texts: seq<string>): Option<Blocker> {
    if texts == [] then None
    else if BlockerIn(texts[0]).Some? then BlockerIn(texts[0])
    else FirstBlocker(texts[1..])
  }

  // Kinds and statuses after which the stream is expected to recover.
  predicate PermitsStreamRecovery(kind: Option<ErrorInfoKind>, status: Option<int>) {
    if kind.None? then false
    else match kind.value
      case ServerOverloaded => status.None?
      case InternalServerError => status.None?
      case HttpConnectionFailed => status.Some? ==> IsTransientStatus(status.value)
      case ResponseStreamConnectionFailed => status.Some? ==> IsTransientStatus(status.value)
      case ResponseStreamDisconnected => status.Some? ==> IsTransientStatus(status.value)
      case _ => false
  }

  predicate IsPermanentClass(c: StreamClass.Class) {
    c in {StreamClass.Unauthenticated, StreamClass.Prohibited, StreamClass.BadArgument, StreamClass.PromptIssue,
          StreamClass.OrganizationIssue, StreamClass.AccountIssue, StreamClass.NotEntitled,
          StreamClass.OriginatorPolicy, StreamClass.DataRetention}
  }

  predicate IsTransientClass(c: StreamClass.Class) {
    c == StreamClass.Unavailable || c == StreamClass.RateLimited
  }

  // Every text of a failure that is searched for signals.
  function SearchedTexts(source: Source, v: Json): seq<string> {
    ExplicitCodes(v) + ExplicitTypes(source, v) + Messages(v) + NestedSignals(v)
  }

  // The failure carries a policy signal somewhere.
  predicate PolicyRejected(source: Source, v: Json) {
    || (exists k | 0 <= k < |ErrorInfos(v)| :: ErrorInfos(v)[k] == Str("cyberPolicy"))
    || (exists k | 0 <= k < |SearchedTexts(source, v)| :: ContainsPolicySignal(SearchedTexts(source, v)[k]))
  }

  predicate PermitsRecovery(source: Source, v: Json) {
    var (kind, status) := SummarizeErrorInfo(v);
    var explicit := ExplicitCodes(v) + ExplicitTypes(source, v);
    && !PolicyRejected(source, v)
    && |ErrorInfos(v)| == 1
    && PermitsStreamRecovery(kind, status)
    && AllNumericTransient(v)
    && FirstBlocker(SearchedTexts(source, v)).None?
    && (forall k | 0 <= k < |explicit| :: IsTransientClass(StreamClass.ClassifyText(explicit[k])))
    && (forall k | 0 <= k < |Messages(v)| :: !IsPermanentClass(StreamClass.ClassifyText(Messages(v)[k])))
  }

  function Summarize(source: Source, v: Json, willRetry: Option<bool>): Diagnostic {
    var (kind, status) := SummarizeErrorInfo(v);
    var permits := PermitsRecovery(source, v);
    var found := FirstBlocker(SearchedTexts(source, v));
    var blocker := if willRetry == Some(true) && !permits
                   then Some(if found.Some? then found.value else MetadataRejected) else None;
    Diagnostic(source, kind, status, willRetry, blocker, PolicyRejected(source, v), permits)
  }
}

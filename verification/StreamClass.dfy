// Classification of captured stderr text: a stable API code, HTTP statuses, policy signals, or a
// single wording class.
module StreamClass {
  import opened Wrappers
  import opened Text
  import HttpStatus

  // Signals, in the order in which the gateway looks for them.
  datatype Signal =
    | Originator | Entitlement | ContentPolicy | CyberPolicy | Safety | Moderation | Retention | Organization
    | Account | Prompt | Rejected | Unsupported | Blocked | Policy | Forbidden | RateLimit | Availability
    | InvalidRequest | Authentication

  const ALL_SIGNALS: seq<Signal> := [
    Originator, Entitlement, ContentPolicy, CyberPolicy, Safety, Moderation, Retention, Organization,
    Account, Prompt, Rejected, Unsupported, Blocked, Policy, Forbidden, RateLimit, Availability,
    InvalidRequest, Authentication]

  function SignalName(signal: Signal): string {
    match signal
    case Originator => "originator"
    case Entitlement => "entitlement"
    case ContentPolicy => "content_policy"
    case CyberPolicy => "cyber_policy"
    case Safety => "safety"
    case Moderation => "moderation"
    case Retention => "retention"
    case Organization => "organization"
    case Account => "account"
    case Prompt => "prompt"
    case Rejected => "rejected"
    case Unsupported => "unsupported"
    case Blocked => "blocked"
    case Policy => "policy"
    case Forbidden => "forbidden"
    case RateLimit => "rate_limit"
    case Availability => "availability"
    case InvalidRequest => "invalid_request"
    case Authentication => "authentication"
  }

  // The lower-case wordings that stand for a signal.
  function SignalNeedles(signal: Signal): seq<string> {
    match signal
    case Entitlement => ["entitlement", "not entitled"]
    case ContentPolicy => ["content_policy", "content policy"]
    case CyberPolicy => ["cyber_policy", "cyber policy"]
    case Retention => ["retention", "zero data", "zdr"]
    case Organization => ["organization", "organisation"]
    case Forbidden => ["forbidden", "status 403", "status: 403", "\"status\":403"]
    case RateLimit => ["rate_limit", "rate limit", "quota", "resource_exhausted"]
    case Availability => ["timeout", "unavailable", "availability", "overloaded", "network"]
    case InvalidRequest => ["invalid_argument", "invalid argument", "invalid_request"]
    case Authentication => ["unauthorized", "authentication", "credential"]
    case _ => [SignalName(signal)]
  }

  // Wording classes, in order of precedence; the last stands for no match.
  datatype Class =
    | OriginatorPolicy | NotEntitled | ContentRejected | DataRetention | OrganizationIssue | AccountIssue | PromptIssue
    | Prohibited | RateLimited | BadArgument | PolicyIssue | Unavailable | Unauthenticated | Refused | ToolFailure
    | Unclassified

  const ALL_CLASSES: seq<Class> := [
    OriginatorPolicy, NotEntitled, ContentRejected, DataRetention, OrganizationIssue, AccountIssue, PromptIssue,
    Prohibited, RateLimited, BadArgument, PolicyIssue, Unavailable, Unauthenticated, Refused, ToolFailure]

  function ClassName(class_: Class): string {
    match class_
    case OriginatorPolicy => "originator_policy"
    case NotEntitled => "entitlement"
    case ContentRejected => "content_policy"
    case DataRetention => "retention"
    case OrganizationIssue => "organization"
    case AccountIssue => "account"
    case PromptIssue => "prompt"
    case Prohibited => "forbidden"
    case RateLimited => "rate_limit"
    case BadArgument => "invalid_request"
    case PolicyIssue => "policy"
    case Unavailable => "availability"
    case Unauthenticated => "authentication"
    case Refused => "rejected"
    case ToolFailure => "tool_failure"
    case Unclassified => "unknown"
  }

  function ClassNeedles(class_: Class): seq<string> {
    match class_
    case OriginatorPolicy => ["originator"]
    case NotEntitled => ["entitlement", "not entitled"]
    case ContentRejected => ["content_policy", "cyber_policy"]
    case DataRetention => ["retention", "zero data", "zdr"]
    case OrganizationIssue => ["organization", "organisation"]
    case AccountIssue => ["account"]
    case PromptIssue => ["prompt"]
    case Prohibited => ["status 403", "status: 403", "\"status\":403", "forbidden"]
    case RateLimited => ["rate_limit", "rate limit", "quota", "resource_exhausted"]
    case BadArgument => ["invalid_argument", "invalid argument", "invalid_request", "unsupported"]
    case PolicyIssue => ["safety", "moderation", "policy", "blocked"]
    case Unavailable => ["timeout", "unavailable", "availability", "overloaded", "network"]
    case Unauthenticated => ["unauthorized", "authentication", "credential"]
    case Refused => ["rejected"]
    case ToolFailure => ["tool", "image_generation"]
    case Unclassified => []
  }

  // The candidates with a wording in the text, in order.
  function Matching(candidates: seq<Signal>, needles: Signal -> seq<string>, lower: string): seq<Signal> {
    if candidates == [] then []
    else (if ContainsAny(lower, needles(candidates[0])) then [candidates[0]] else [])
         + Matching(candidates[1..], needles, lower)
  }

  function Signals(lower: string): seq<Signal> {
    Matching(ALL_SIGNALS, SignalNeedles, lower)
  }

  lemma {:induction false} MatchingMeaning(
      candidates: seq<Signal>, needles: Signal -> seq<string>, lower: string, signal: Signal)
    ensures signal in Matching(candidates, needles, lower) <==> signal in candidates && ContainsAny(lower, needles(signal))
    decreases |candidates|
  {
    if candidates != [] {
      MatchingMeaning(candidates[1..], needles, lower, signal);
      assert candidates == [candidates[0]] + candidates[1..];
    }
  }

  // A signal is detected exactly when one of its wordings occurs in the text.
  lemma SignalsMeaning(lower: string, signal: Signal)
    ensures signal in Signals(lower) <==> ContainsAny(lower, SignalNeedles(signal))
  {
    MatchingMeaning(ALL_SIGNALS, SignalNeedles, lower, signal);
    IsListed(signal);
  }

  lemma IsListed(signal: Signal)
    ensures signal in ALL_SIGNALS
  {
  }

  function SignalNames(signals: seq<Signal>): (names: seq<string>)
    ensures |names| == |signals|
  {
    seq(|signals|, k requires 0 <= k < |signals| => SignalName(signals[k]))
  }

  function FirstMatch(candidates: seq<Class>, lower: string): Class {
    if candidates == [] then Unclassified
    else if ContainsAny(lower, ClassNeedles(candidates[0])) then candidates[0]
    else FirstMatch(candidates[1..], lower)
  }

  function ClassifyText(text: string): Class {
    FirstMatch(ALL_CLASSES, Lower(text))
  }

  predicate IsCodeChar(c: char) {
    IsAlphanumeric(c) || c == '_' || c == '-' || c == '.'
  }

  function TakeCode(s: string, limit: nat): (code: string)
    ensures forall k | 0 <= k < |code| :: IsCodeChar(code[k])
  {
    if s == "" || limit == 0 || !IsCodeChar(s[0]) then "" else [s[0]] + TakeCode(s[1..], limit - 1)
  }

  const CODE_MARKERS: seq<string> := ["\"code\":\"", "\\\"code\\\":\\\""]

  function ApiCodeAfter(text: string, marker: string): string {
    var start := Find(text, marker);
    if start < 0 then "" else TakeCode(text[start + |marker|..], 64)
  }

  function ApiCode(text: string): (code: Option<string>)
    ensures code.Some? ==> forall k | 0 <= k < |code.value| :: IsCodeChar(code.value[k])
  {
    var plain := ApiCodeAfter(text, CODE_MARKERS[0]);
    var escaped := ApiCodeAfter(text, CODE_MARKERS[1]);
    if plain != "" then Some(Lower(plain)) else if escaped != "" then Some(Lower(escaped)) else None
  }

  function DigitChar(d: int): char
    requires 0 <= d < 10
  {
    ('0' as int + d) as char
  }

  function ShowStatus(status: int): (shown: string)
    requires 100 <= status <= 599
    ensures |shown| == 3 && forall k | 0 <= k < 3 :: IsDigit(shown[k])
  {
    [DigitChar(status / 100), DigitChar(status / 10 % 10), DigitChar(status % 10)]
  }

  function ShowAll(statuses: seq<int>): seq<string>
    requires forall k | 0 <= k < |statuses| :: 100 <= statuses[k] <= 599
  {
    seq(|statuses|, k requires 0 <= k < |statuses| => ShowStatus(statuses[k]))
  }

  // The persisted class of a decoded stderr capture.
  function ClassifyStream(text: string): string {
    var code := ApiCode(text);
    var lower := Lower(text);
    var signals := Signals(lower);
    var statuses := HttpStatus.Statuses(lower);
    assert forall k | 0 <= k < |statuses| :: statuses[k] in statuses;
    if code.Some? then "api_code:" + code.value
    else if |statuses| > 1 then "http_status_conflict:" + Join(ShowAll(statuses), '+')
    else if |statuses| == 1 then
      "http_status:" + ShowStatus(statuses[0]) + (if signals == [] then "" else ":" + Join(SignalNames(signals), '+'))
    else if signals != [] then Join(SignalNames(signals), '+')
    else ClassName(ClassifyText(text))
  }

  method MatchingSignals(candidates: seq<Signal>, needles: Signal -> seq<string>, lower: string)
    returns (signals: seq<Signal>)
    ensures signals == Matching(candidates, needles, lower)
  {
    signals := [];
    for k := 0 to |candidates|
      invariant Matching(candidates, needles, lower) == signals + Matching(candidates[k..], needles, lower)
    {
      assert candidates[k..][0] == candidates[k] && candidates[k..][1..] == candidates[k + 1..];
      var matched := SearchAny(lower, needles(candidates[k]));
      if matched {
        signals := signals + [candidates[k]];
      }
    }
  }

  method StreamPolicySignals(lower: string) returns (signals: seq<Signal>)
    ensures signals == Signals(lower)
  {
    signals := MatchingSignals(ALL_SIGNALS, SignalNeedles, lower);
  }

  method ClassifyStreamBytes(text: string) returns (kind: string)
    ensures kind == ClassifyStream(text)
  {
    var code := ApiCode(text);
    if code.Some? {
      return "api_code:" + code.value;
    }
    var lower := Lower(text);
    var signals := StreamPolicySignals(lower);
    var statuses := HttpStatus.ObservedHttpStatuses(lower);
    assert forall k | 0 <= k < |statuses| :: statuses[k] in statuses;
    if |statuses| > 1 {
      return "http_status_conflict:" + Join(ShowAll(statuses), '+');
    }
    if |statuses| == 1 {
      return "http_status:" + ShowStatus(statuses[0]) + (if signals == [] then "" else ":" + Join(SignalNames(signals), '+'));
    }
    if signals != [] {
      return Join(SignalNames(signals), '+');
    }
    return ClassName(ClassifyText(text));
  }
}

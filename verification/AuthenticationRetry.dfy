// When a failed image call may be retried as an authentication rejection, and what such a verdict
// says about the captured stderr text.
module AuthenticationRetry {
  import opened Wrappers
  import opened Text
  import opened StreamClass
  import Diagnostics
  import HttpStatus

  // The persisted fields the verdict reads.
  datatype Report = Report(
    imageToolFailed: bool,
    failureClass: string,
    numericCode: Option<int>,
    errorInfo: Option<Diagnostics.ErrorInfoKind>,
    httpStatus: Option<int>,
    willRetry: Option<bool>,
    stderrClass: Option<string>)

  // Nothing outside stderr speaks against an authentication rejection.
  predicate Compatible(r: Report) {
    && r.imageToolFailed
    && (r.failureClass == "unknown" || r.failureClass == "tool_failure" || IsRefusalName(r.failureClass))
    && (r.numericCode.Some? ==> r.numericCode.value == 401)
    && (r.errorInfo.Some? ==> r.errorInfo.value == Diagnostics.Unauthorized)
    && (r.httpStatus.Some? ==> r.httpStatus.value == 401)
    && r.willRetry != Some(true)
  }

  const STATUS_401: string := "http_status:401"

  predicate IsRefusalName(name: string) {
    name == "rejected" || name == "authentication"
  }

  predicate AllRefusals(names: seq<string>) {
    forall k | 0 <= k < |names| :: IsRefusalName(names[k])
  }

  predicate AllRefusalsOrUnknown(names: seq<string>) {
    forall k | 0 <= k < |names| :: names[k] == "unknown" || IsRefusalName(names[k])
  }

  predicate IsRetryable(r: Report) {
    if !Compatible(r) then false
    else
      var stderr := if r.stderrClass.Some? then r.stderrClass.value else "unknown";
      if stderr == STATUS_401 then true
      else if HasPrefix(stderr, STATUS_401 + ":") then AllRefusals(Split(stderr[|STATUS_401| + 1..], '+'))
      else r.numericCode == Some(401) && AllRefusalsOrUnknown(Split(stderr, '+'))
  }

  predicate IsRefusal(signal: Signal) {
    signal == Rejected || signal == Authentication
  }

  // Names are single words, which are joined by '+' and led by ':'.
  predicate IsPlain(name: string) {
    forall k | 0 <= k < |name| :: name[k] >= '_'
  }

  lemma PlainMeaning(name: string)
    requires IsPlain(name)
    ensures '+' !in name && ':' !in name
  {
  }

  predicate IsOfOrigin(signal: Signal) {
    signal in {Originator, Entitlement, Retention, Organization, Account, Prompt}
  }

  predicate IsOfPolicy(signal: Signal) {
    signal in {ContentPolicy, CyberPolicy, Safety, Moderation, Blocked, Policy}
  }

  lemma OriginNames(signal: Signal)
    requires IsOfOrigin(signal)
    ensures IsPlain(SignalName(signal))
  {
  }

  lemma PolicyNames(signal: Signal)
    requires IsOfPolicy(signal)
    ensures IsPlain(SignalName(signal))
  {
  }

  lemma OtherNames(signal: Signal)
    requires !IsOfOrigin(signal) && !IsOfPolicy(signal)
    ensures IsPlain(SignalName(signal))
  {
  }

  lemma SignalNameIsPlain(signal: Signal)
    ensures IsPlain(SignalName(signal))
  {
    hide SignalName, IsPlain;
    if IsOfOrigin(signal) {
      OriginNames(signal);
    } else if IsOfPolicy(signal) {
      PolicyNames(signal);
    } else {
      OtherNames(signal);
    }
  }

  lemma SignalNameKnown(signal: Signal)
    ensures SignalName(signal) != "unknown"
  {
  }

  lemma RefusalNames(signal: Signal)
    ensures IsRefusalName(SignalName(signal)) <==> IsRefusal(signal)
  {
  }

  predicate IsIssue(c: Class) {
    c in {OriginatorPolicy, NotEntitled, ContentRejected, DataRetention, OrganizationIssue, AccountIssue, PromptIssue, PolicyIssue}
  }

  lemma ContentNames(c: Class)
    requires c in {OriginatorPolicy, ContentRejected, PromptIssue, PolicyIssue}
    ensures IsPlain(ClassName(c))
  {
  }

  lemma AccessNames(c: Class)
    requires c in {NotEntitled, DataRetention, OrganizationIssue, AccountIssue}
    ensures IsPlain(ClassName(c))
  {
  }

  lemma IssueNames(c: Class)
    requires IsIssue(c)
    ensures IsPlain(ClassName(c))
  {
    hide ClassName, IsPlain;
    if c in {OriginatorPolicy, ContentRejected, PromptIssue, PolicyIssue} {
      ContentNames(c);
    } else {
      AccessNames(c);
    }
  }

  lemma OtherClassNames(c: Class)
    requires !IsIssue(c)
    ensures IsPlain(ClassName(c))
  {
  }

  lemma ClassNameIsPlain(c: Class)
    ensures IsPlain(ClassName(c))
  {
    hide ClassName, IsPlain;
    if IsIssue(c) {
      IssueNames(c);
    } else {
      OtherClassNames(c);
    }
  }

  lemma RefusalClasses(c: Class)
    ensures (ClassName(c) == "unknown" || IsRefusalName(ClassName(c))) <==> c in {Unclassified, Refused, Unauthenticated}
  {
  }

  // Names of signals survive being joined and split again.
  lemma SignalsRoundTrip(signals: seq<Signal>)
    requires signals != []
    ensures Split(Join(SignalNames(signals), '+'), '+') == SignalNames(signals)
  {
    var names := SignalNames(signals);
    forall k | 0 <= k < |names| ensures '+' !in names[k] {
      SignalNameIsPlain(signals[k]);
      PlainMeaning(names[k]);
    }
    SplitJoin(names, '+');
  }

  lemma RefusalList(signals: seq<Signal>)
    ensures AllRefusals(SignalNames(signals)) <==> forall k | 0 <= k < |signals| :: IsRefusal(signals[k])
    ensures AllRefusalsOrUnknown(SignalNames(signals)) <==> AllRefusals(SignalNames(signals))
  {
    var names := SignalNames(signals);
    forall k | 0 <= k < |signals| ensures (IsRefusalName(names[k]) <==> IsRefusal(signals[k])) && names[k] != "unknown" {
      RefusalNames(signals[k]);
      SignalNameKnown(signals[k]);
    }
  }

  lemma {:induction false} JoinedWithoutColon(signals: seq<Signal>)
    ensures ':' !in Join(SignalNames(signals), '+')
  {
    if signals != [] {
      SignalNameIsPlain(signals[0]);
      PlainMeaning(SignalName(signals[0]));
      JoinedWithoutColon(signals[1..]);
      assert SignalNames(signals)[1..] == SignalNames(signals[1..]);
    }
  }

  // A class that starts with a compound prefix is never a list of permitted names.
  lemma CompoundRefused(stderr: string, prefix: string, i: nat)
    requires HasPrefix(stderr, prefix) && '+' !in prefix && i < |prefix| && prefix[i] == ':'
    ensures !AllRefusalsOrUnknown(Split(stderr, '+'))
  {
    SplitHead(stderr, prefix, '+');
    WithColon(Split(stderr, '+')[0], i);
  }

  // No name that is permitted has a colon.
  lemma WithColon(name: string, i: nat)
    requires i < |name| && name[i] == ':'
    ensures name != "unknown" && !IsRefusalName(name)
  {
    if IsRefusalName(name) {
      RefusalNameIsPlain(name);
      assert false;
    } else if name == "unknown" {
      OtherClassNames(Unclassified);
    }
  }

  lemma RefusalNameIsPlain(name: string)
    requires IsRefusalName(name)
    ensures IsPlain(name)
  {
    OtherClassNames(Refused);
    OtherClassNames(Unauthenticated);
  }

  // A class that differs from the 401 class before its end is not read as one.
  lemma NotStatus401(stderr: string, i: nat)
    requires i < |stderr| && i < |STATUS_401| && stderr[i] != STATUS_401[i]
    ensures stderr != STATUS_401 && !HasPrefix(stderr, STATUS_401 + ":")
  {
    NoPrefix(stderr, STATUS_401 + ":", i);
  }

  // A class without a colon is read as a plain list of names.
  lemma PlainClass(stderr: string)
    requires ':' !in stderr
    ensures stderr != STATUS_401 && !HasPrefix(stderr, STATUS_401 + ":")
  {
    assert STATUS_401[11] == ':';
    if |stderr| > 11 {
      NotStatus401(stderr, 11);
    }
  }

  // How the verdict reads a class naming one HTTP status, alone or followed by signals.
  lemma StatusReading(r: Report, status: int, tail: string)
    requires 100 <= status <= 599 && Compatible(r)
    requires tail == "" || tail[0] == ':'
    requires r.stderrClass == Some("http_status:" + ShowStatus(status) + tail)
    ensures IsRetryable(r) <==> status == 401 && (tail == "" || AllRefusals(Split(tail[1..], '+')))
  {
    var shown := "http_status:" + ShowStatus(status);
    var stderr := shown + tail;
    assert stderr[..15] == shown && stderr[15..] == tail;
    if status == 401 {
      assert ShowStatus(401) == "401";
      assert shown == STATUS_401;
      if tail != "" {
        assert stderr[..16] == STATUS_401 + ":";
        assert stderr[16..] == tail[1..];
      }
    } else {
      var i := DifferingDigit(status);
      NotStatus401(stderr, 12 + i);
      assert shown[11] == ':';
      CompoundRefused(stderr, shown, 11);
    }
  }

  lemma DifferingDigit(status: int) returns (i: nat)
    requires 100 <= status <= 599 && status != 401
    ensures i < 3 && ShowStatus(status)[i] != STATUS_401[12 + i]
  {
    assert STATUS_401[12] == '4' && STATUS_401[13] == '0' && STATUS_401[14] == '1';
    i := if status / 100 != 4 then 0 else if status / 10 % 10 != 0 then 1 else 2;
  }

  // The stderr text speaks of nothing but an authentication rejection.
  predicate OnlyAuthentication(text: string, numericCode: Option<int>) {
    var lower := Lower(text);
    var signals := Signals(lower);
    var statuses := HttpStatus.Statuses(lower);
    && ApiCode(text).None?
    && (forall k | 0 <= k < |statuses| :: statuses[k] == 401)
    && (forall k | 0 <= k < |signals| :: IsRefusal(signals[k]))
    && (statuses == [] ==> numericCode == Some(401))
    && (statuses == [] && signals == [] ==> ClassifyText(text) in {Unclassified, Refused, Unauthenticated})
  }

  // How the verdict reads a list of signals, and a single class.

  lemma SignalsReading(r: Report, signals: seq<Signal>)
    requires Compatible(r) && signals != [] && r.stderrClass == Some(Join(SignalNames(signals), '+'))
    ensures IsRetryable(r) <==> r.numericCode == Some(401) && forall k | 0 <= k < |signals| :: IsRefusal(signals[k])
  {
    hide Compatible, Split, AllRefusals, AllRefusalsOrUnknown, Join, IsRefusal;
    JoinedWithoutColon(signals);
    PlainClass(Join(SignalNames(signals), '+'));
    SignalsRoundTrip(signals);
    RefusalList(signals);
  }

  lemma ClassReading(r: Report, c: Class)
    requires Compatible(r) && r.stderrClass == Some(ClassName(c))
    ensures IsRetryable(r) <==> r.numericCode == Some(401) && c in {Unclassified, Refused, Unauthenticated}
  {
    hide Compatible, Split, AllRefusals, ClassName, IsRefusalName, IsPlain;
    var name := ClassName(c);
    ClassNameIsPlain(c);
    PlainMeaning(name);
    PlainClass(name);
    SplitPiece(name, "", '+');
    RefusalClasses(c);
    assert AllRefusalsOrUnknown([name]) <==> name == "unknown" || IsRefusalName(name) by {
      assert [name][0] == name;
    }
  }

  lemma PlainVerdict(r: Report, text: string)
    requires Compatible(r) && r.stderrClass == Some(ClassifyStream(text))
    requires ApiCode(text).None? && HttpStatus.Statuses(Lower(text)) == []
    ensures IsRetryable(r) <==> OnlyAuthentication(text, r.numericCode)
  {
    hide Compatible, IsRetryable, IsRefusal, ClassName;
    var signals := Signals(Lower(text));
    if signals != [] {
      SignalsReading(r, signals);
    } else {
      ClassReading(r, ClassifyText(text));
    }
  }

  lemma StatusVerdict(r: Report, text: string)
    requires Compatible(r) && r.stderrClass == Some(ClassifyStream(text))
    requires ApiCode(text).None? && |HttpStatus.Statuses(Lower(text))| == 1
    ensures IsRetryable(r) <==> OnlyAuthentication(text, r.numericCode)
  {
    var signals := Signals(Lower(text));
    var status := HttpStatus.Statuses(Lower(text))[0];
    assert status in HttpStatus.Statuses(Lower(text));
    if signals == [] {
      StatusReading(r, status, "");
    } else {
      var names := Join(SignalNames(signals), '+');
      StatusReading(r, status, ":" + names);
      assert (":" + names)[1..] == names;
      SignalsRoundTrip(signals);
      RefusalList(signals);
    }
  }

  // A class that starts neither like the 401 class nor like a permitted name is refused.
  lemma PrefixRefused(r: Report, stderr: string, prefix: string, i: nat, j: nat)
    requires r.stderrClass == Some(stderr) && HasPrefix(stderr, prefix) && '+' !in prefix && i < |prefix| && prefix[i] == ':'
    requires j < |prefix| && j < |STATUS_401| && prefix[j] != STATUS_401[j]
    ensures !IsRetryable(r)
  {
    hide Compatible, Split, AllRefusals, AllRefusalsOrUnknown;
    assert stderr[j] == stderr[..|prefix|][j] == prefix[j];
    NotStatus401(stderr, j);
    CompoundRefused(stderr, prefix, i);
  }

  lemma CompoundVerdict(r: Report, text: string)
    requires Compatible(r) && r.stderrClass == Some(ClassifyStream(text))
    requires ApiCode(text).Some? || |HttpStatus.Statuses(Lower(text))| > 1
    ensures !IsRetryable(r) && !OnlyAuthentication(text, r.numericCode)
  {
    hide Compatible, IsRetryable;
    var stderr := ClassifyStream(text);
    var statuses := HttpStatus.Statuses(Lower(text));
    if ApiCode(text).Some? {
      assert stderr[..9] == "api_code:" && "api_code:"[8] == ':';
      PrefixRefused(r, stderr, "api_code:", 8, 0);
    } else {
      assert stderr[..21] == "http_status_conflict:" && "http_status_conflict:"[20] == ':';
      assert STATUS_401[11] == ':' && "http_status_conflict:"[11] == '_';
      PrefixRefused(r, stderr, "http_status_conflict:", 20, 11);
      assert statuses[0] < statuses[1];
    }
  }

  // The retry verdict is exactly as conservative as intended: it is given if and only if nothing else
  // speaks against an authentication rejection and the captured text has no stable API code, no HTTP
  // status but 401 and no signal but rejection or authentication.
  lemma RetryIsConservative(r: Report, text: string)
    requires r.stderrClass == Some(ClassifyStream(text))
    ensures IsRetryable(r) <==> Compatible(r) && OnlyAuthentication(text, r.numericCode)
  {
    if Compatible(r) {
      var statuses := HttpStatus.Statuses(Lower(text));
      if ApiCode(text).Some? || |statuses| > 1 {
        CompoundVerdict(r, text);
      } else if |statuses| == 1 {
        StatusVerdict(r, text);
      } else {
        PlainVerdict(r, text);
      }
    }
  }

  // In terms of the text alone: behind a retry verdict, no API code stands in the text, the only status that
  // it names is 401, and the only signals with a wording in it are rejection and authentication.
  lemma RetriedTextMeaning(r: Report, text: string, status: int, signal: Signal)
    requires r.stderrClass == Some(ClassifyStream(text)) && IsRetryable(r)
    ensures ApiCode(text).None?
    ensures HttpStatus.Names(Lower(text), status) ==> status == 401
    ensures ContainsAny(Lower(text), SignalNeedles(signal)) ==> signal == Rejected || signal == Authentication
  {
    RetryIsConservative(r, text);
    SignalsMeaning(Lower(text), signal);
    assert signal in Signals(Lower(text)) ==> IsRefusal(signal);
    assert HttpStatus.Names(Lower(text), status) <==> status in HttpStatus.Statuses(Lower(text));
  }
}

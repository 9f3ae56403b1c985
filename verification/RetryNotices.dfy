// What the gateway's own summary of failures makes of an error notification: when it is absorbed as a notice
// of a retry, in terms of the texts and numbers it carries.
module RetryNotices {
  import opened Wrappers
  import opened Text
  import opened Json
  import opened Protocol
  import opened Driver
  import opened ProtocolLanguage
  import opened Diagnostics
  import AuthorityTheorem
  import HttpStatus
  import Paths
  import StreamClass

  // Nothing in a text speaks against a recovery: no authentication signal, no HTTP status but transient ones,
  // no signal of a permanent reason.
  ghost predicate IsQuiet(text: string) {
    && !ContainsAny(Lower(text), StreamClass.SignalNeedles(StreamClass.Authentication))
    && (forall status: int | HttpStatus.Names(Lower(text), status) :: IsTransientStatus(status))
    && (forall signal | IsMetadataSignal(signal) :: !ContainsAny(Lower(text), StreamClass.SignalNeedles(signal)))
    && !Contains(Lower(text), "bad_request") && !Contains(Lower(text), "bad request")
  }

  lemma StatusesMeaning(lower: string)
    ensures (exists k | 0 <= k < |HttpStatus.Statuses(lower)| :: !IsTransientStatus(HttpStatus.Statuses(lower)[k]))
       <==> exists status :: HttpStatus.Names(lower, status) && !IsTransientStatus(status)
  {
    var statuses := HttpStatus.Statuses(lower);
    forall status ensures HttpStatus.Names(lower, status) <==> status in statuses {
      assert status in statuses <==> 100 <= status && HttpStatus.Names(lower, status);
    }
    forall k | 0 <= k < |statuses| ensures HttpStatus.Names(lower, statuses[k]) {
      assert statuses[k] in statuses;
    }
  }

  lemma MetadataMeaning(lower: string)
    ensures (exists k | 0 <= k < |StreamClass.Signals(lower)| :: IsMetadataSignal(StreamClass.Signals(lower)[k]))
       <==> exists signal :: IsMetadataSignal(signal) && ContainsAny(lower, StreamClass.SignalNeedles(signal))
  {
    var signals := StreamClass.Signals(lower);
    forall signal ensures signal in signals <==> ContainsAny(lower, StreamClass.SignalNeedles(signal)) {
      StreamClass.SignalsMeaning(lower, signal);
    }
    forall k | 0 <= k < |signals| ensures signals[k] in signals {}
  }

  // A text is not blocking exactly when it is quiet.
  lemma BlockerMeaning(text: string)
    ensures BlockerIn(text).None? <==> IsQuiet(text)
  {
    StreamClass.SignalsMeaning(Lower(text), StreamClass.Authentication);
    StatusesMeaning(Lower(text));
    MetadataMeaning(Lower(text));
  }

  lemma {:induction false} NoBlocker(texts: seq<string>)
    ensures FirstBlocker(texts).None? <==> forall k | 0 <= k < |texts| :: IsQuiet(texts[k])
    decreases |texts|
  {
    if texts != [] {
      BlockerMeaning(texts[0]);
      NoBlocker(texts[1..]);
      forall k | 0 <= k < |texts| && k > 0 ensures texts[k] == texts[1..][k - 1] {}
      if forall k | 0 <= k < |texts| :: IsQuiet(texts[k]) {
        forall k | 0 <= k < |texts[1..]| ensures IsQuiet(texts[1..][k]) {
          assert IsQuiet(texts[k + 1]);
        }
      }
    }
  }

  // An error notification that may be absorbed: it announces a retry; it carries exactly one structured reason,
  // of a kind that is recoverable, with a transient status if with any; every number in it is transient; every
  // text in it is free of policy signals and quiet; its explicit codes and types are of transient classes, and
  // none of its messages is of a permanent class.
  ghost predicate IsHarmless(params: Json) {
    var (kind, status) := SummarizeErrorInfo(params);
    var texts := SearchedTexts(ServerErrorNotification, params);
    var explicit := ExplicitCodes(params) + ExplicitTypes(ServerErrorNotification, params);
    && WillRetry(params) == Some(true)
    && |ErrorInfos(params)| == 1 && ErrorInfos(params)[0] != Str("cyberPolicy")
    && IsRecoverableKind(kind) && (status.Some? ==> IsTransientStatus(status.value))
    && AllNumericTransient(params)
    && (forall k | 0 <= k < |texts| :: !ContainsPolicySignal(texts[k]) && IsQuiet(texts[k]))
    && (forall k | 0 <= k < |explicit| :: IsTransientClass(StreamClass.ClassifyText(explicit[k])))
    && (forall k | 0 <= k < |Messages(params)| :: !IsPermanentClass(StreamClass.ClassifyText(Messages(params)[k])))
  }

  predicate IsRecoverableKind(kind: Option<ErrorInfoKind>) {
    kind in {Some(ServerOverloaded), Some(InternalServerError), Some(HttpConnectionFailed),
             Some(ResponseStreamConnectionFailed), Some(ResponseStreamDisconnected)}
  }

  // Only the kinds of connections carry a status.
  lemma StatusOfKind(info: Json)
    ensures Diagnostics.KindOf(info).1.Some? ==> !(Diagnostics.KindOf(info).0 in {Some(ServerOverloaded), Some(InternalServerError)})
  {
  }

  lemma RecoveryMeaning(params: Json)
    requires |ErrorInfos(params)| == 1
    ensures var (kind, status) := SummarizeErrorInfo(params);
            PermitsStreamRecovery(kind, status) <==> IsRecoverableKind(kind) && (status.Some? ==> IsTransientStatus(status.value))
  {
    hide ErrorInfos, Diagnostics.KindOf;
    StatusOfKind(ErrorInfos(params)[0]);
  }

  lemma PolicyMeaning(params: Json)
    requires |ErrorInfos(params)| == 1
    ensures !PolicyRejected(ServerErrorNotification, params) <==>
              && ErrorInfos(params)[0] != Str("cyberPolicy")
              && forall k | 0 <= k < |SearchedTexts(ServerErrorNotification, params)| ::
                   !ContainsPolicySignal(SearchedTexts(ServerErrorNotification, params)[k])
  {
  }

  lemma NoticeOfGateway(home: Paths.Path, params: Json)
    ensures RetryNotice(GatewayContext(home), params) <==> WillRetry(params) == Some(true) && PermitsRecovery(ServerErrorNotification, params)
  {
    hide SummarizeErrorInfo, SearchedTexts, PolicyRejected, FirstBlocker, PermitsStreamRecovery, AllNumericTransient, WillRetry;
  }

  // The gateway absorbs an error notification as a notice of a retry exactly when it is harmless.
  lemma RetryNoticeMeaning(home: Paths.Path, params: Json)
    ensures RetryNotice(GatewayContext(home), params) <==> IsHarmless(params)
  {
    hide RetryNotice, SummarizeErrorInfo, SearchedTexts, PolicyRejected, FirstBlocker, ErrorInfos, PermitsStreamRecovery;
    hide IsRecoverableKind, IsTransientStatus, AllNumericTransient, ContainsPolicySignal, IsQuiet, ExplicitCodes, ExplicitTypes;
    hide Messages, IsTransientClass, IsPermanentClass, WillRetry;
    NoticeOfGateway(home, params);
    NoBlocker(SearchedTexts(ServerErrorNotification, params));
    if |ErrorInfos(params)| == 1 {
      RecoveryMeaning(params);
      PolicyMeaning(params);
    }
  }

  lemma AdmissibleErrorAt(ctx: Context, frames: seq<Frame>, k: nat, g: Grant)
    requires k < |frames| && AdmissibleAt(ctx, frames, k, g) && IsOf(frames[k], ErrorNotice)
    ensures RetryNotice(ctx, Params(MessageOf(frames[k]).value))
  {
    hide RetryNotice;
  }

  // Behind every error notification of a run of the gateway that ends with an authority stands a harmless one.
  lemma GrantedErrorsAreHarmless(home: Paths.Path, frames: seq<Frame>, k: nat)
    requires Run(GatewayContext(home), START, frames).result.Ok? && k < |frames| && IsOf(frames[k], ErrorNotice)
    ensures IsHarmless(Params(MessageOf(frames[k]).value))
  {
    hide Run, RetryNotice, IsHarmless, AdmissibleAt;
    var ctx := GatewayContext(home);
    var (thread, call) := Run(ctx, START, frames).result.value;
    AuthorityTheorem.AuthorityExactly(ctx, frames, thread, call);
    var turn :| Script(ctx, frames, Grant(thread, turn, call));
    assert AdmissibleAt(ctx, frames, k, Grant(thread, turn, call));
    AdmissibleErrorAt(ctx, frames, k, Grant(thread, turn, call));
    RetryNoticeMeaning(home, Params(MessageOf(frames[k]).value));
  }
}

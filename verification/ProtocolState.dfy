// The monitor as the gateway keeps it: an object whose methods update its fields in place. Every
// method is tied to the transition function of module Protocol.
module ProtocolState {
  import opened Wrappers
  import opened Json
  import opened Protocol
  import Diagnostics
  import Paths

  class State {
    var threadId: Option<Uuid>
    var announcedThreadId: Option<Uuid>
    var turnId: Option<string>
    var announcedTurnId: Option<string>
    var sawImageGeneration: bool
    var startedImageCallId: Option<string>
    var startedImageCount: nat
    var completedImageCallId: Option<string>
    var completedImageCount: nat
    var imageFailed: bool
    var imageIncomplete: bool
    var failure: Option<Diagnostics.Diagnostic>
    var lastRetry: Option<Diagnostics.Diagnostic>
    var retryCount: nat

    // The abstract value of the object.
    function View(): Monitor
      reads this
    {
      Monitor(threadId, announcedThreadId, turnId, announcedTurnId, sawImageGeneration, startedImageCallId,
              startedImageCount, completedImageCallId, completedImageCount, imageFailed, imageIncomplete,
              failure, lastRetry, retryCount)
    }

    const ctx: Context

    constructor (ctx: Context)
      ensures View() == FRESH && this.ctx == ctx
    {
      this.ctx := ctx;
      threadId, announcedThreadId, turnId, announcedTurnId := None, None, None, None;
      sawImageGeneration, imageFailed, imageIncomplete := false, false, false;
      startedImageCallId, completedImageCallId := None, None;
      startedImageCount, completedImageCount, retryCount := 0, 0, 0;
      failure, lastRetry := None, None;
    }

    method RecordFailure(source: Diagnostics.Source, value: Json)
      modifies this`failure
      ensures View() == Protocol.RecordFailure(ctx, old(View()), source, value)
    {
      var diagnostic := ctx.summarize(source, value, None);
      if failure.Some? && failure.value.policyRejected {
        return;
      }
      if failure.Some? && !diagnostic.policyRejected {
        // Only a later terminal reason fills an empty structured pair.
        if source == Diagnostics.TurnTerminal && failure.value.errorInfo.None? && failure.value.httpStatus.None?
           && diagnostic.errorInfo.Some? && diagnostic.errorInfo.value != Diagnostics.Unknown {
          failure := Some(failure.value.(errorInfo := diagnostic.errorInfo, httpStatus := diagnostic.httpStatus));
        }
        return;
      }
      failure := Some(diagnostic);
    }

    method BindThread(id: Uuid) returns (r: Result<bool, Error>)
      modifies this`threadId
      ensures Observed(View(), r) == Protocol.BindThread(old(View()), id)
    {
      var previous := threadId;
      threadId := Some(id);
      if Conflicts(previous, id) || Conflicts(announcedThreadId, id) {
        return Err(ProtocolViolation("thread_identity_mismatch"));
      }
      return Ok(false);
    }

    method BindTurn(id: string) returns (r: Result<bool, Error>)
      modifies this`turnId
      ensures Observed(View(), r) == Protocol.BindTurn(old(View()), id)
    {
      if !ValidTurnId(id) || Conflicts(turnId, id) || Conflicts(announcedTurnId, id) {
        return Err(ProtocolViolation("turn_identity_mismatch"));
      }
      turnId := Some(id);
      return Ok(false);
    }

    method ObserveBoundIdentity(params: Json) returns (r: Result<bool, Error>)
      ensures var fault := BoundIdentityFault(View(), params);
              r == if fault.Some? then Err(ProtocolViolation(fault.value)) else Ok(false)
    {
      if threadId.None? {
        return Err(ProtocolViolation("thread_identity_missing"));
      }
      var actualThread := ParseUuid(AsText(Get(params, "threadId")));
      if actualThread.None? {
        return Err(ProtocolViolation("item_thread_id_invalid"));
      }
      var actualTurn := AsText(Get(params, "turnId"));
      if actualTurn.None? {
        return Err(ProtocolViolation("item_turn_id_missing"));
      }
      var expectedTurn := if turnId.Some? then turnId else announcedTurnId;
      if expectedTurn.None? {
        return Err(ProtocolViolation("turn_identity_missing"));
      }
      if actualThread.value != threadId.value || actualTurn.value != expectedTurn.value {
        return Err(ProtocolViolation("item_identity_mismatch"));
      }
      return Ok(false);
    }

    method ObserveTurnIdentity(params: Json, candidate: string) returns (r: Result<bool, Error>)
      ensures var fault := TurnIdentityFault(View(), params, candidate);
              r == if fault.Some? then Err(ProtocolViolation(fault.value)) else Ok(false)
    {
      var actualThread := ParseUuid(AsText(Get(params, "threadId")));
      if actualThread.None? {
        return Err(ProtocolViolation("turn_thread_id_invalid"));
      }
      if Conflicts(threadId, actualThread.value) || Conflicts(turnId, candidate) || !ValidTurnId(candidate) {
        return Err(ProtocolViolation("turn_identity_mismatch"));
      }
      return Ok(false);
    }

    method ObserveThreadStarted(params: Json) returns (r: Result<bool, Error>)
      modifies this`announcedThreadId
      ensures Observed(View(), r) == OnThreadStarted(old(View()), params)
    {
      var candidate := ParseUuid(AsText(Get2(params, "thread", "id")));
      if candidate.None? {
        return Err(ProtocolViolation("thread_notification_id_invalid"));
      }
      var previous := announcedThreadId;
      announcedThreadId := candidate;
      if Conflicts(previous, candidate.value) || Conflicts(threadId, candidate.value) {
        return Err(ProtocolViolation("thread_identity_mismatch"));
      }
      return Ok(false);
    }

    method ObserveTurnStarted(params: Json) returns (r: Result<bool, Error>)
      modifies this`announcedTurnId
      ensures Observed(View(), r) == OnTurnStarted(old(View()), params)
    {
      var candidate := AsText(Get2(params, "turn", "id"));
      if candidate.None? {
        return Err(ProtocolViolation("turn_notification_id_missing"));
      }
      r := ObserveTurnIdentity(params, candidate.value);
      if r.Err? {
        return;
      }
      if Conflicts(announcedTurnId, candidate.value) {
        return Err(ProtocolViolation("turn_identity_mismatch"));
      }
      announcedTurnId := candidate;
    }

    method ObserveItem(params: Json, completed: bool) returns (r: Result<bool, Error>)
      modifies this
      ensures Observed(View(), r) == OnItem(ctx, old(View()), params, completed)
    {
      var itemType := AsText(Get2(params, "item", "type"));
      if itemType.None? {
        return Err(ProtocolViolation("item_type_missing"));
      }
      r := ObserveBoundIdentity(params);
      if r.Err? {
        return;
      }
      if itemType.value != "imageGeneration" {
        return if IsInformational(itemType.value) then Ok(false) else Err(ProtocolViolation("unexpected_item_type"));
      }
      sawImageGeneration := true;
      var call := AsText(Get2(params, "item", "id"));
      if call.None? || !ValidCallId(call.value) {
        return Err(ProtocolViolation("image_call_id_invalid"));
      }
      if completed {
        r := ObserveImageCompleted(params, call.value);
      } else {
        r := ObserveImageStarted(call.value);
      }
    }

    method ObserveImageStarted(call: string) returns (r: Result<bool, Error>)
      modifies this`startedImageCount, this`startedImageCallId
      ensures Observed(View(), r) == OnImageStarted(old(View()), call)
    {
      startedImageCount := SaturatingIncrement(startedImageCount);
      if startedImageCount > 1 {
        return Err(MultipleImages);
      }
      if Conflicts(startedImageCallId, call) {
        return Err(MultipleImages);
      }
      startedImageCallId := Some(call);
      return Ok(false);
    }

    method ObserveImageCompleted(params: Json, call: string) returns (r: Result<bool, Error>)
      modifies this
      ensures Observed(View(), r) == OnImageCompleted(ctx, old(View()), params, call)
    {
      completedImageCount := SaturatingIncrement(completedImageCount);
      if completedImageCount > 1 || Conflicts(startedImageCallId, call) || Conflicts(completedImageCallId, call) {
        return Err(MultipleImages);
      }
      completedImageCallId := Some(call);
      r := SettleImage(params, call);
    }

    // How the one completed image turned out.
    method SettleImage(params: Json, call: string) returns (r: Result<bool, Error>)
      modifies this
      ensures Observed(View(), r) == OnImageSettled(ctx, old(View()), params, call)
    {
      var status := AsText(Get2(params, "item", "status"));
      if status == Some("completed") {
        r := CheckSavedImage(params, call);
        return;
      }
      if status == Some("failed") {
        imageFailed := true;
        RecordFailure(Diagnostics.ImageGenerationItem, OrNull(Get(params, "item")));
      } else {
        imageIncomplete := true;
      }
      return Ok(false);
    }

    method CheckSavedImage(params: Json, call: string) returns (r: Result<bool, Error>)
      ensures Observed(View(), r) == OnImageSaved(ctx, View(), params, call)
    {
      var result := AsText(Get2(params, "item", "result"));
      if result.None? || result.value == "" {
        return Err(ProtocolViolation("image_result_missing"));
      }
      var saved := AsText(Get2(params, "item", "savedPath"));
      if saved.None? {
        return Err(ImageIncomplete);
      }
      if threadId.None? {
        return Err(ProtocolViolation("thread_identity_missing"));
      }
      if Paths.Parse(saved.value) != SavedPath(ctx.home, threadId.value, call) {
        return Err(ProtocolViolation("image_saved_path_mismatch"));
      }
      return Ok(false);
    }

    method ObserveTurnCompleted(params: Json) returns (r: Result<bool, Error>)
      modifies this`failure
      ensures Observed(View(), r) == OnTurnCompleted(ctx, old(View()), params)
    {
      var candidate := AsText(Get2(params, "turn", "id"));
      if candidate.None? {
        return Err(ProtocolViolation("turn_terminal_id_missing"));
      }
      r := ObserveTurnIdentity(params, candidate.value);
      if r.Err? {
        return;
      }
      var status := AsText(Get2(params, "turn", "status"));
      if status == Some("completed") {
        return Ok(true);
      }
      if status == Some("failed") || status == Some("interrupted") {
        RecordFailure(Diagnostics.TurnTerminal, OrNull(Get2(params, "turn", "error")));
        return Err(if failure.Some? && failure.value.policyRejected then ContentPolicyRejected else TurnFailed);
      }
      return Err(ProtocolViolation("turn_terminal_status_invalid"));
    }

    method ObserveError(params: Json) returns (r: Result<bool, Error>)
      modifies this`failure, this`lastRetry, this`retryCount
      ensures Observed(View(), r) == OnError(ctx, old(View()), params)
    {
      r := ObserveBoundIdentity(params);
      if r.Err? {
        return;
      }
      var flag := Get(params, "willRetry");
      var willRetry := None;
      if flag.Some? {
        if !flag.value.Bool? {
          return Err(ProtocolViolation("error_retry_flag_invalid"));
        }
        willRetry := Some(flag.value.truth);
      }
      var diagnostic := ctx.summarize(Diagnostics.ServerErrorNotification, params, willRetry);
      if failure.Some? && failure.value.policyRejected {
        return Err(ContentPolicyRejected);
      }
      if diagnostic.policyRejected {
        failure := Some(diagnostic);
        return Err(ContentPolicyRejected);
      }
      if willRetry == Some(true) && diagnostic.permitsRecovery {
        retryCount := SaturatingIncrement(retryCount);
        lastRetry := Some(diagnostic);
        return Ok(false);
      }
      failure := Some(diagnostic);
      return Err(RequestRejected);
    }

    method ObserveNotification(message: Json) returns (r: Result<bool, Error>)
      modifies this
      ensures Observed(View(), r) == Observe(ctx, old(View()), message)
    {
      var params := Params(message);
      match MethodOf(message) {
        case NoMethod => r := Err(ProtocolViolation("method_missing"));
        case ThreadStarted => r := ObserveThreadStarted(params);
        case TurnStarted => r := ObserveTurnStarted(params);
        case ItemStarted => r := ObserveItem(params, false);
        case ItemCompleted => r := ObserveItem(params, true);
        case TurnCompleted => r := ObserveTurnCompleted(params);
        case ErrorRaised => r := ObserveError(params);
        case OtherMethod => r := Ok(false);
      }
    }

    method FinalAuthority() returns (r: Result<(Uuid, string), Error>)
      ensures r == Authority(View())
    {
      if threadId != announcedThreadId || turnId != announcedTurnId {
        return Err(ProtocolViolation("terminal_identity_mismatch"));
      }
      if imageFailed {
        if failure.Some? && failure.value.policyRejected {
          return Err(ContentPolicyRejected);
        }
        return Err(ImageToolFailed);
      }
      if imageIncomplete || (sawImageGeneration && (startedImageCount != 1 || completedImageCount != 1)) {
        return Err(ImageIncomplete);
      }
      if completedImageCount == 0 {
        return Err(NoImage);
      }
      if startedImageCount != 1 || completedImageCount != 1 {
        return Err(MultipleImages);
      }
      if threadId.None? {
        return Err(ProtocolViolation("thread_identity_missing"));
      }
      if completedImageCallId.None? {
        return Err(ProtocolViolation("image_call_id_missing"));
      }
      return Ok((threadId.value, completedImageCallId.value));
    }
  }
}

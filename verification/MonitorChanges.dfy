// What the single observations of the monitor can change, as far as runs depend on it.
module MonitorChanges {
  import opened Wrappers
  import opened Json
  import opened Protocol
  import opened Driver
  import Diagnostics

  predicate KeepsIdentities(m: Monitor, n: Monitor) {
    && n.threadId == m.threadId && n.announcedThreadId == m.announcedThreadId
    && n.turnId == m.turnId && n.announcedTurnId == m.announcedTurnId
    && n.retryCount == m.retryCount
  }

  // A failure is only recorded for an image that has failed, and never in place of a policy rejection.
  predicate KeepsFailure(m: Monitor, n: Monitor) {
    && (n.failure != m.failure ==> n.imageFailed && !HasPolicyFailure(m))
    && (m.imageFailed ==> n.imageFailed)
  }

  // Images are never forgotten, and the first completion is that of the call that was started.
  predicate KeepsImages(m: Monitor, n: Monitor) {
    && (m.imageIncomplete ==> n.imageIncomplete)
    && (m.startedImageCallId.Some? ==> n.startedImageCallId == m.startedImageCallId)
    && (m.completedImageCallId.Some? ==> n.completedImageCallId == m.completedImageCallId)
    && (m.completedImageCount > 0 ==> n.completedImageCount > 0)
    && (m.completedImageCount == 0 < n.completedImageCount && m.startedImageCallId.Some? ==>
          n.completedImageCallId == m.startedImageCallId)
  }

  // What an item comes to.
  predicate IsItemChange(m: Monitor, o: Observed) {
    && KeepsIdentities(m, o.monitor) && KeepsFailure(m, o.monitor)
    && (o.verdict.Ok? ==> !o.verdict.value && KeepsImages(m, o.monitor))
    && (o.verdict.Err? ==> o.verdict.error != TurnFailed && o.verdict.error != ImageToolFailed)
  }

  lemma StartedChanges(m: Monitor, call: string)
    ensures IsItemChange(m, OnImageStarted(m, call))
  {
  }

  lemma SavedChangesNothing(ctx: Context, m: Monitor, params: Json, call: string)
    ensures var o := OnImageSaved(ctx, m, params, call);
            && o.monitor == m && (o.verdict.Ok? ==> !o.verdict.value)
            && (o.verdict.Err? ==> o.verdict.error != TurnFailed && o.verdict.error != ImageToolFailed)
  {
    hide SavedPath;
  }

  lemma PolicyStays(ctx: Context, m: Monitor, source: Diagnostics.Source, v: Json)
    ensures HasPolicyFailure(m) ==> RecordFailure(ctx, m, source, v) == m
    ensures RecordFailure(ctx, m, source, v) == m.(failure := RecordFailure(ctx, m, source, v).failure)
  {
  }

  // How an image turns out changes nothing but that.
  lemma SettledChanges(ctx: Context, m: Monitor, params: Json, call: string)
    ensures var o := OnImageSettled(ctx, m, params, call);
            && IsItemChange(m, o)
            && o.monitor == m.(imageFailed := o.monitor.imageFailed, imageIncomplete := o.monitor.imageIncomplete,
                               failure := o.monitor.failure)
  {
    hide OnImageSaved;
    SavedChangesNothing(ctx, m, params, call);
    if AsText(Get2(params, "item", "status")) == Some("completed") {
      NothingChanges(m, OnImageSaved(ctx, m, params, call));
    } else {
      PolicyStays(ctx, m.(imageFailed := true), Diagnostics.ImageGenerationItem, OrNull(Get(params, "item")));
    }
  }

  lemma NothingChanges(m: Monitor, o: Observed)
    requires o.monitor == m && (o.verdict.Ok? ==> !o.verdict.value)
    requires o.verdict.Err? ==> o.verdict.error != TurnFailed && o.verdict.error != ImageToolFailed
    ensures IsItemChange(m, o)
  {
  }

  lemma CompletedChanges(ctx: Context, m: Monitor, params: Json, call: string)
    ensures IsItemChange(m, OnImageCompleted(ctx, m, params, call))
  {
    hide OnImageSettled;
    var named := m.(completedImageCount := SaturatingIncrement(m.completedImageCount), completedImageCallId := Some(call));
    SettledChanges(ctx, named, params, call);
  }

  lemma SeenChanges(m: Monitor, o: Observed)
    requires IsItemChange(m.(sawImageGeneration := true), o)
    ensures IsItemChange(m, o)
  {
  }

  lemma ItemChanges(ctx: Context, m: Monitor, params: Json, completed: bool)
    ensures IsItemChange(m, OnItem(ctx, m, params, completed))
  {
    hide OnImageStarted, OnImageCompleted, BoundIdentityFault, ValidCallId;
    var call := AsText(Get2(params, "item", "id"));
    if call.Some? {
      var seen := m.(sawImageGeneration := true);
      StartedChanges(seen, call.value);
      CompletedChanges(ctx, seen, params, call.value);
      SeenChanges(m, OnImageStarted(seen, call.value));
      SeenChanges(m, OnImageCompleted(ctx, seen, params, call.value));
    }
  }

  // What an announcement comes to, and what an error notification does.

  predicate IsAnnouncementChange(m: Monitor, o: Observed) {
    && o.monitor == m.(announcedThreadId := o.monitor.announcedThreadId, announcedTurnId := o.monitor.announcedTurnId)
    && (if o.verdict.Ok? then !o.verdict.value else o.verdict.error.ProtocolViolation?)
  }

  lemma ThreadChanges(m: Monitor, params: Json)
    ensures IsAnnouncementChange(m, OnThreadStarted(m, params))
  {
    hide ParseUuid, IsAnnouncementChange;
    var id := ParseUuid(AsText(Get2(params, "thread", "id")));
    Announced(m, id, m.announcedTurnId, OnThreadStarted(m, params));
    Announced(m, m.announcedThreadId, m.announcedTurnId, OnThreadStarted(m, params));
  }

  // Announcing changes nothing but what is announced.
  lemma Announced(m: Monitor, thread: Option<Uuid>, turn: Option<string>, o: Observed)
    ensures o.monitor == m.(announcedThreadId := thread, announcedTurnId := turn)
            && (if o.verdict.Ok? then !o.verdict.value else o.verdict.error.ProtocolViolation?) ==>
              IsAnnouncementChange(m, o)
  {
  }

  lemma TurnChanges(m: Monitor, params: Json)
    ensures IsAnnouncementChange(m, OnTurnStarted(m, params))
  {
    hide TurnIdentityFault, IsAnnouncementChange;
    var id := AsText(Get2(params, "turn", "id"));
    Announced(m, m.announcedThreadId, id, OnTurnStarted(m, params));
    Announced(m, m.announcedThreadId, m.announcedTurnId, OnTurnStarted(m, params));
  }

  lemma AnnouncementChanges(m: Monitor, params: Json)
    ensures IsAnnouncementChange(m, OnThreadStarted(m, params)) && IsAnnouncementChange(m, OnTurnStarted(m, params))
  {
    hide OnThreadStarted, OnTurnStarted, IsAnnouncementChange;
    ThreadChanges(m, params);
    TurnChanges(m, params);
  }

  lemma ErrorAbsorbed(ctx: Context, m: Monitor, params: Json)
    ensures var o := OnError(ctx, m, params);
            o.verdict.Ok? ==>
              && !o.verdict.value && !HasPolicyFailure(m)
              && o.monitor == m.(retryCount := SaturatingIncrement(m.retryCount), lastRetry := o.monitor.lastRetry)
  {
    hide BoundIdentityFault, WillRetry;
  }

  lemma ErrorReported(ctx: Context, m: Monitor, params: Json)
    ensures var o := OnError(ctx, m, params);
            o.verdict.Err? ==>
              && o.monitor == m.(failure := o.monitor.failure) && (HasPolicyFailure(m) ==> o.monitor == m)
              && o.verdict.error != TurnFailed && o.verdict.error != ImageToolFailed
  {
    hide BoundIdentityFault, WillRetry;
  }

  lemma ErrorChanges(ctx: Context, m: Monitor, params: Json)
    ensures var o := OnError(ctx, m, params);
            && (o.verdict.Ok? ==> && !o.verdict.value
                                  && o.monitor == m.(retryCount := SaturatingIncrement(m.retryCount), lastRetry := o.monitor.lastRetry))
            && (o.verdict.Err? ==> o.monitor == m.(failure := o.monitor.failure)
                                   && o.verdict.error != TurnFailed && o.verdict.error != ImageToolFailed)
            && (HasPolicyFailure(m) ==> o.monitor == m && o.verdict.Err?)
  {
    hide OnError, HasPolicyFailure;
    ErrorAbsorbed(ctx, m, params);
    ErrorReported(ctx, m, params);
  }

  // What the result of a request does.

  predicate IsBinding(m: Monitor, o: Observed) {
    && o.monitor == m.(threadId := o.monitor.threadId, turnId := o.monitor.turnId)
    && (if o.verdict.Ok? then !o.verdict.value else o.verdict.error.ProtocolViolation?)
  }

  lemma ThreadIsBound(m: Monitor, id: Uuid)
    ensures IsBinding(m, BindThread(m, id))
  {
  }

  lemma TurnIsBound(m: Monitor, id: string)
    ensures IsBinding(m, BindTurn(m, id))
  {
    hide ValidTurnId;
  }

  lemma ResultChanges(ctx: Context, p: Progress, value: Json)
    requires IsWaiting(p.phase)
    ensures match OnResult(ctx, p, value)
            case Continue(q) =>
              q == p.(phase := q.phase, monitor := p.monitor.(threadId := q.monitor.threadId, turnId := q.monitor.turnId))
            case Stop(m, error) =>
              error.ProtocolViolation? && m == p.monitor.(threadId := m.threadId, turnId := m.turnId)
  {
    hide BindThread, BindTurn, ParseUuid;
    match p.phase
    case Initialize =>
    case ThreadStart =>
      var id := ParseUuid(AsText(Get2(value, "thread", "id")));
      if id.Some? { ThreadIsBound(p.monitor, id.value); }
    case TurnStart =>
      var id := AsText(Get2(value, "turn", "id"));
      if id.Some? { TurnIsBound(p.monitor, id.value); }
  }
}

// A policy rejection is final: no later message turns it into success, a plain failure or a retry.
module PolicyAbsorption {
  import opened Wrappers
  import opened Json
  import opened Protocol
  import opened Driver
  import opened MonitorChanges
  import Diagnostics

  // While a run is alive, a stored failure means that the image failed.
  predicate FailureIsImageFailure(m: Monitor) {
    m.failure.Some? ==> m.imageFailed
  }

  lemma KeepsFailureMeaning(ctx: Context, p: Progress, frame: Frame)
    requires FailureIsImageFailure(p.monitor) && OnFrame(ctx, p, frame).Continue?
    ensures FailureIsImageFailure(OnFrame(ctx, p, frame).progress.monitor)
  {
    hide Observe, OnResult;
    var q := p.(captured := p.captured + frame.bytes);
    var message := frame.value.value;
    assert OnFrame(ctx, p, frame) == OnMessage(ctx, q, message);
    if !Has(message, "id") {
      ObserveKeepsFailureMeaning(ctx, p.monitor, message);
    } else if IsWaiting(p.phase) && Has(message, "result") {
      ResultChanges(ctx, q, Get(message, "result").value);
    }
  }

  lemma ItemKeepsFailureMeaning(ctx: Context, m: Monitor, params: Json, completed: bool)
    requires FailureIsImageFailure(m)
    ensures FailureIsImageFailure(OnItem(ctx, m, params, completed).monitor)
  {
    hide OnItem;
    ItemChanges(ctx, m, params, completed);
  }

  lemma ObserveKeepsFailureMeaning(ctx: Context, m: Monitor, message: Json)
    requires FailureIsImageFailure(m) && Observe(ctx, m, message).verdict.Ok?
    ensures FailureIsImageFailure(Observe(ctx, m, message).monitor)
  {
    hide OnItem, OnError, OnThreadStarted, OnTurnStarted, TurnIdentityFault;
    AnnouncementChanges(m, Params(message));
    match MethodOf(message)
    case ItemStarted => ItemKeepsFailureMeaning(ctx, m, Params(message), false);
    case ItemCompleted => ItemKeepsFailureMeaning(ctx, m, Params(message), true);
    case ErrorRaised => ErrorChanges(ctx, m, Params(message));
    case _ =>
  }

  lemma {:induction false} AliveFailureIsImageFailure(ctx: Context, p: Progress, frames: seq<Frame>)
    requires FailureIsImageFailure(p.monitor) && Advance(ctx, p, frames).Some?
    ensures FailureIsImageFailure(Advance(ctx, p, frames).value.monitor)
    decreases |frames|
  {
    if frames != [] {
      KeepsFailureMeaning(ctx, p, frames[0]);
      AliveFailureIsImageFailure(ctx, OnFrame(ctx, p, frames[0]).progress, frames[1..]);
    }
  }

  // A failed image with a policy rejection on record.
  predicate Condemned(m: Monitor) {
    HasPolicyFailure(m) && m.imageFailed
  }

  // The rejection on record and the retry count are untouched.
  predicate Untouched(before: Monitor, after: Monitor) {
    after.failure == before.failure && after.retryCount == before.retryCount && after.imageFailed
  }

  predicate Fatal(e: Error) {
    e != TurnFailed && e != ImageToolFailed
  }

  lemma ItemWhenCondemned(ctx: Context, m: Monitor, params: Json, completed: bool)
    requires Condemned(m)
    ensures var o := OnItem(ctx, m, params, completed); Untouched(m, o.monitor) && (o.verdict.Err? ==> Fatal(o.verdict.error))
  {
    hide OnItem;
    ItemChanges(ctx, m, params, completed);
  }

  lemma EndWhenCondemned(ctx: Context, m: Monitor, params: Json)
    requires Condemned(m)
    ensures var o := OnTurnCompleted(ctx, m, params); Untouched(m, o.monitor) && (o.verdict.Err? ==> Fatal(o.verdict.error))
  {
    hide TurnIdentityFault;
  }

  lemma ObserveWhenCondemned(ctx: Context, m: Monitor, message: Json)
    requires Condemned(m)
    ensures var o := Observe(ctx, m, message); Untouched(m, o.monitor) && (o.verdict.Err? ==> Fatal(o.verdict.error))
  {
    hide OnItem, OnTurnCompleted, OnError, OnThreadStarted, OnTurnStarted;
    AnnouncementChanges(m, Params(message));
    match MethodOf(message)
    case ItemStarted => ItemWhenCondemned(ctx, m, Params(message), false);
    case ItemCompleted => ItemWhenCondemned(ctx, m, Params(message), true);
    case TurnCompleted => EndWhenCondemned(ctx, m, Params(message));
    case ErrorRaised => ErrorChanges(ctx, m, Params(message));
    case _ =>
  }

  predicate StaysCondemned(before: Monitor, move: Move) {
    match move
    case Continue(next) => Untouched(before, next.monitor)
    case Stop(m, e) => Untouched(before, m) && Fatal(e)
  }

  lemma ResponseWhenCondemned(ctx: Context, p: Progress, message: Json)
    requires Condemned(p.monitor) && Has(message, "id")
    ensures StaysCondemned(p.monitor, OnMessage(ctx, p, message))
  {
    hide Observe, OnResult;
    if IsWaiting(p.phase) && Has(message, "result") {
      ResultChanges(ctx, p, Get(message, "result").value);
    }
  }

  lemma NoticeWhenCondemned(ctx: Context, p: Progress, message: Json)
    requires Condemned(p.monitor) && !Has(message, "id")
    ensures StaysCondemned(p.monitor, OnMessage(ctx, p, message))
  {
    hide Observe;
    ObserveWhenCondemned(ctx, p.monitor, message);
  }

  lemma FrameWhenCondemned(ctx: Context, p: Progress, frame: Frame)
    requires Condemned(p.monitor)
    ensures StaysCondemned(p.monitor, OnFrame(ctx, p, frame))
  {
    hide OnMessage;
    if ReadFrame(frame, p.captured).Ok? {
      var q := p.(captured := p.captured + frame.bytes);
      assert OnFrame(ctx, p, frame) == OnMessage(ctx, q, frame.value.value);
      if Has(frame.value.value, "id") {
        ResponseWhenCondemned(ctx, q, frame.value.value);
      } else {
        NoticeWhenCondemned(ctx, q, frame.value.value);
      }
    }
  }

  lemma {:induction false} RunWhenCondemned(ctx: Context, p: Progress, frames: seq<Frame>)
    requires Condemned(p.monitor)
    ensures var o := Run(ctx, p, frames); Untouched(p.monitor, o.monitor) && o.result.Err? && Fatal(o.result.error)
    decreases |frames|
  {
    if frames != [] {
      FrameWhenCondemned(ctx, p, frames[0]);
      if OnFrame(ctx, p, frames[0]).Continue? {
        RunWhenCondemned(ctx, OnFrame(ctx, p, frames[0]).progress, frames[1..]);
      }
    }
  }

  // Once a policy rejection is on record in a live run, it is never replaced, no retry is counted any
  // more, and no continuation ends in success, a failed turn or a failed image tool.
  lemma PolicyIsAbsorbing(ctx: Context, before: seq<Frame>, after: seq<Frame>)
    requires Advance(ctx, START, before).Some? && HasPolicyFailure(Advance(ctx, START, before).value.monitor)
    ensures var m := Advance(ctx, START, before).value.monitor;
            var o := Run(ctx, START, before + after);
            && o.monitor.failure == m.failure && o.monitor.retryCount == m.retryCount
            && o.result.Err? && o.result.error != TurnFailed && o.result.error != ImageToolFailed
  {
    AliveFailureIsImageFailure(ctx, START, before);
    RunSplit(ctx, START, before, after);
    RunWhenCondemned(ctx, Advance(ctx, START, before).value, after);
  }

  // A stream that ends right after the turn reports the rejection itself.
  lemma PolicyIsReported(ctx: Context, frames: seq<Frame>)
    requires Advance(ctx, START, frames).Some? && HasPolicyFailure(Advance(ctx, START, frames).value.monitor)
    requires var p := Advance(ctx, START, frames).value;
             p.phase == PostTerminal && p.monitor.threadId == p.monitor.announcedThreadId && p.monitor.turnId == p.monitor.announcedTurnId
    ensures Run(ctx, START, frames).result == Err(ContentPolicyRejected)
  {
    AliveFailureIsImageFailure(ctx, START, frames);
    RunSplit(ctx, START, frames, []);
    assert frames + [] == frames;
  }
}

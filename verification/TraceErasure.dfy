// Frames that carry no authority: removing them changes nothing about a successful run, and retry
// notices are counted one by one.
module TraceErasure {
  import opened Wrappers
  import opened Json
  import opened Protocol
  import opened Driver
  import opened ProtocolLanguage
  import opened AuthorityTheorem
  import opened MonitorChanges

  // Retry notices, informational items and notifications the monitor ignores. Everything accepted
  // after the end of the turn is of the last kind.
  predicate IsInert(f: Frame) {
    IsOf(f, ErrorNotice) || IsOf(f, OtherItem) || IsOf(f, Untracked)
  }

  function Without(frames: seq<Frame>, i: nat): (shorter: seq<Frame>)
    requires i < |frames|
    ensures |shorter| == |frames| - 1
  {
    frames[..i] + frames[i + 1..]
  }

  predicate IsCounted(kind: Kind) {
    kind != ErrorNotice && kind != OtherItem && kind != Untracked && kind != Nameless
  }

  lemma InertCountsNothing(f: Frame, kind: Kind)
    requires IsInert(f) && IsCounted(kind)
    ensures !IsOf(f, kind) && f.Line?
  {
  }

  lemma WithoutAt(frames: seq<Frame>, i: nat, k: nat)
    requires i < |frames| && k + 1 < |frames|
    ensures Without(frames, i)[k] == frames[if k < i then k else k + 1]
  {
  }

  lemma {:induction false} SeenWithout(frames: seq<Frame>, i: nat, k: nat, kind: Kind)
    requires i < |frames| && IsInert(frames[i]) && IsCounted(kind) && k < |frames|
    ensures Seen(Without(frames, i), k, kind) == Seen(frames, if k <= i then k else k + 1, kind)
  {
    hide IsOf, IsInert, IsCounted, Without;
    InertCountsNothing(frames[i], kind);
    if k > 0 {
      WithoutAt(frames, i, k - 1);
      SeenWithout(frames, i, k - 1, kind);
    }
  }

  lemma {:induction false} BytesWithout(frames: seq<Frame>, i: nat, k: nat)
    requires i < |frames| && k < |frames|
    ensures BytesBefore(Without(frames, i), k) <= BytesBefore(frames, if k <= i then k else k + 1)
  {
    hide Without;
    if k > 0 {
      WithoutAt(frames, i, k - 1);
      BytesWithout(frames, i, k - 1);
    }
  }

  lemma CountsWithout(frames: seq<Frame>, i: nat, k: nat)
    requires i < |frames| && IsInert(frames[i]) && k < |frames|
    ensures CountsAt(Without(frames, i), k) == CountsAt(frames, if k <= i then k else k + 1)
    ensures BytesBefore(Without(frames, i), k) <= BytesBefore(frames, if k <= i then k else k + 1)
  {
    hide Seen, BytesBefore, Without, IsInert;
    BytesWithout(frames, i, k);
    SeenWithout(frames, i, k, Response);
    SeenWithout(frames, i, k, ThreadNotice);
    SeenWithout(frames, i, k, TurnNotice);
    SeenWithout(frames, i, k, ImageStart);
    SeenWithout(frames, i, k, ImageCompletion);
    SeenWithout(frames, i, k, TurnEnd);
  }

  // An inert frame counts for nothing.
  lemma CountsAgainAfter(frames: seq<Frame>, i: nat)
    requires i < |frames| && IsInert(frames[i])
    ensures CountsAt(frames, i + 1) == CountsAt(frames, i)
  {
  }

  lemma AdmissibleWithout(ctx: Context, frames: seq<Frame>, i: nat, k: nat, g: Grant)
    requires i < |frames| && IsInert(frames[i]) && k + 1 < |frames|
    requires AdmissibleAt(ctx, frames, if k < i then k else k + 1, g)
    ensures AdmissibleAt(ctx, Without(frames, i), k, g)
  {
    hide Admissible, CountsAt, IsInert;
    WithoutAt(frames, i, k);
    CountsWithout(frames, i, k);
    CountsAgainAfter(frames, i);
  }

  // Removing one inert frame from a script leaves a script for the same grant.
  lemma ScriptWithout(ctx: Context, frames: seq<Frame>, i: nat, g: Grant)
    requires Script(ctx, frames, g) && i < |frames| && IsInert(frames[i])
    ensures Script(ctx, Without(frames, i), g)
  {
    hide AdmissibleAt, IsInert, Seen;
    var shorter := Without(frames, i);
    forall k | 0 <= k < |shorter| ensures AdmissibleAt(ctx, shorter, k, g) {
      AdmissibleWithout(ctx, frames, i, k, g);
    }
    CountsWithout(frames, i, |shorter|);
    CountsAgainAfter(frames, i);
  }

  // The frames that a mask keeps.
  function Kept(frames: seq<Frame>, keep: seq<bool>): seq<Frame>
    requires |keep| == |frames|
  {
    if frames == [] then []
    else
      var last := |frames| - 1;
      Kept(frames[..last], keep[..last]) + (if keep[last] then [frames[last]] else [])
  }

  // The last frame goes, or it joins the rest.
  lemma KeptSplit(frames: seq<Frame>, keep: seq<bool>, rest: seq<Frame>)
    requires |keep| == |frames| > 0
    ensures var last := |frames| - 1;
            && frames + rest == frames[..last] + ([frames[last]] + rest)
            && Without(frames + rest, last) == frames[..last] + rest
            && Kept(frames, keep) + rest == Kept(frames[..last], keep[..last]) + if keep[last] then [frames[last]] + rest else rest
  {
  }

  lemma {:induction false} KeptScript(ctx: Context, frames: seq<Frame>, keep: seq<bool>, rest: seq<Frame>, g: Grant)
    requires |keep| == |frames| && Script(ctx, frames + rest, g)
    requires forall k | 0 <= k < |frames| :: keep[k] || IsInert(frames[k])
    ensures Script(ctx, Kept(frames, keep) + rest, g)
    decreases |frames|
  {
    hide Script, IsInert, Without;
    if frames == [] {
      assert Kept(frames, keep) + rest == frames + rest;
    } else {
      var last := |frames| - 1;
      KeptSplit(frames, keep, rest);
      if keep[last] {
        KeptScript(ctx, frames[..last], keep[..last], [frames[last]] + rest, g);
      } else {
        assert (frames + rest)[last] == frames[last];
        ScriptWithout(ctx, frames + rest, last, g);
        KeptScript(ctx, frames[..last], keep[..last], rest, g);
      }
    }
  }

  // Deleting any accepted retry notices, informational items, unknown notifications and messages after
  // the turn from a successful run gives a successful run with the same authority.
  lemma ErasurePreservesAuthority(ctx: Context, frames: seq<Frame>, keep: seq<bool>, thread: Uuid, call: string)
    requires |keep| == |frames| && forall k | 0 <= k < |frames| :: keep[k] || IsInert(frames[k])
    requires Run(ctx, START, frames).result == Ok((thread, call))
    ensures Run(ctx, START, Kept(frames, keep)).result == Ok((thread, call))
  {
    AuthorityExactly(ctx, frames, thread, call);
    var turn :| Script(ctx, frames, Grant(thread, turn, call));
    assert frames + [] == frames && Kept(frames, keep) + [] == Kept(frames, keep);
    KeptScript(ctx, frames, keep, [], Grant(thread, turn, call));
    AuthorityExactly(ctx, Kept(frames, keep), thread, call);
  }

  // ---- Counting retry notices ----

  // Every line has at least one byte.
  predicate NonEmptyLines(frames: seq<Frame>) {
    forall k | 0 <= k < |frames| :: frames[k].Line? ==> frames[k].bytes > 0
  }

  lemma RetriesInItem(ctx: Context, m: Monitor, params: Json, completed: bool)
    ensures OnItem(ctx, m, params, completed).monitor.retryCount == m.retryCount
  {
    hide OnItem;
    ItemChanges(ctx, m, params, completed);
  }

  lemma RetriesInObserve(ctx: Context, m: Monitor, message: Json)
    requires Observe(ctx, m, message).verdict.Ok?
    ensures Observe(ctx, m, message).monitor.retryCount
         == if MethodOf(message) == ErrorRaised then SaturatingIncrement(m.retryCount) else m.retryCount
  {
    hide OnItem, OnError, OnThreadStarted, OnTurnStarted, TurnIdentityFault;
    AnnouncementChanges(m, Params(message));
    match MethodOf(message)
    case ItemStarted => RetriesInItem(ctx, m, Params(message), false);
    case ItemCompleted => RetriesInItem(ctx, m, Params(message), true);
    case ErrorRaised => ErrorChanges(ctx, m, Params(message));
    case _ =>
  }

  lemma RetriesInMessage(ctx: Context, p: Progress, message: Json)
    requires OnMessage(ctx, p, message).Continue?
    ensures OnMessage(ctx, p, message).progress.monitor.retryCount
         == if KindOf(message) == ErrorNotice then SaturatingIncrement(p.monitor.retryCount) else p.monitor.retryCount
  {
    hide Observe, OnResult;
    if IsWaiting(p.phase) && Has(message, "result") {
      ResultChanges(ctx, p, Get(message, "result").value);
    }
    if !Has(message, "id") {
      var o := Observe(ctx, p.monitor, message);
      assert o.verdict.Ok? && OnMessage(ctx, p, message).progress.monitor == o.monitor;
      RetriesInObserve(ctx, p.monitor, message);
    }
  }

  lemma CapturedStays(ctx: Context, p: Progress, message: Json)
    requires OnMessage(ctx, p, message).Continue?
    ensures OnMessage(ctx, p, message).progress.captured == p.captured
  {
    hide Observe, OnResult;
    if IsWaiting(p.phase) && Has(message, "result") {
      ResultChanges(ctx, p, Get(message, "result").value);
    }
  }

  lemma RetriesInFrame(ctx: Context, p: Progress, frame: Frame)
    requires OnFrame(ctx, p, frame).Continue?
    ensures frame.Line? && frame.value.Some?
    ensures var next := OnFrame(ctx, p, frame).progress;
            && next.captured == p.captured + frame.bytes <= MAX_CAPTURE_BYTES
            && next.monitor.retryCount
                 == if IsOf(frame, ErrorNotice) then SaturatingIncrement(p.monitor.retryCount) else p.monitor.retryCount
  {
    hide OnMessage;
    var q := p.(captured := p.captured + frame.bytes);
    assert OnFrame(ctx, p, frame) == OnMessage(ctx, q, frame.value.value);
    RetriesInMessage(ctx, q, frame.value.value);
    CapturedStays(ctx, q, frame.value.value);
  }

  function ErrorNotices(frames: seq<Frame>): nat {
    if frames == [] then 0 else (if IsOf(frames[0], ErrorNotice) then 1 else 0) + ErrorNotices(frames[1..])
  }

  lemma {:induction false} RetriesFrom(ctx: Context, p: Progress, frames: seq<Frame>)
    requires NonEmptyLines(frames) && Advance(ctx, p, frames).Some?
    requires p.monitor.retryCount <= p.captured <= MAX_CAPTURE_BYTES
    ensures Advance(ctx, p, frames).value.monitor.retryCount == p.monitor.retryCount + ErrorNotices(frames)
    decreases |frames|
  {
    if frames != [] {
      RetriesInFrame(ctx, p, frames[0]);
      RetriesFrom(ctx, OnFrame(ctx, p, frames[0]).progress, frames[1..]);
    }
  }

  // In a live run the retry count is the number of error notifications, all of them accepted retries:
  // the capture budget keeps the counter from saturating.
  lemma RetriesAreCounted(ctx: Context, frames: seq<Frame>)
    requires NonEmptyLines(frames) && Advance(ctx, START, frames).Some?
    ensures Advance(ctx, START, frames).value.monitor.retryCount == ErrorNotices(frames)
  {
    RetriesFrom(ctx, START, frames);
  }
}

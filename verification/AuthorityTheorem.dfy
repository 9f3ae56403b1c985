// The monitor issues an authority for exactly the frame sequences of the language: soundness and
// completeness over every message trace.
module AuthorityTheorem {
  import opened Wrappers
  import opened Json
  import opened Protocol
  import opened Driver
  import opened ProtocolLanguage
  import opened ProtocolSteps
  import opened MonitorChanges

  lemma StepAny(ctx: Context, p: Progress, c: Counts, message: Json, g: Grant)
    requires Matches(p, c, g)
    ensures StepMeaning(ctx, p, c, message, g)
  {
    if p.phase == PostTerminal {
      StepAfterTurn(ctx, p, c, message, g);
    } else {
      match KindOf(message)
      case Response =>
        match p.phase {
          case Initialize => StepResponseInitialize(ctx, p, c, message, g);
          case ThreadStart => StepResponseThreadStart(ctx, p, c, message, g);
          case TurnStart => StepResponseTurnStart(ctx, p, c, message, g);
          case EventStream => StepResponseEventStream(ctx, p, c, message, g);
        }
      case TurnEnd => StepTurnEnd(ctx, p, c, message, g);
      case Nameless => StepNameless(ctx, p, c, message, g);
      case _ =>
        StepNotice(ctx, p, c, message, g);
        Route(ctx, p, c, message, g);
    }
  }

  predicate MatchesAt(p: Progress, frames: seq<Frame>, k: nat, g: Grant)
    requires k <= |frames|
  {
    Matches(p, CountsAt(frames, k), g) && p.captured == BytesBefore(frames, k) <= MAX_CAPTURE_BYTES
  }

  // How much has been read does not matter for what the monitor has seen.
  lemma MatchesAnyLength(p: Progress, captured: nat, c: Counts, g: Grant)
    ensures Matches(p.(captured := captured), c, g) <==> Matches(p, c, g)
  {
    hide MatchesMonitor;
  }

  // One frame keeps the run on course exactly when it is admissible and still fits.
  lemma StepFrame(ctx: Context, p: Progress, frames: seq<Frame>, k: nat, g: Grant)
    requires k < |frames| && MatchesAt(p, frames, k, g)
    ensures var move := OnFrame(ctx, p, frames[k]);
            && (OnCourse(move, g) <==> AdmissibleAt(ctx, frames, k, g) && ImagesFit(CountsAt(frames, k + 1))
                                       && BytesBefore(frames, k + 1) <= MAX_CAPTURE_BYTES)
            && (OnCourse(move, g) ==> MatchesAt(move.progress, frames, k + 1, g))
  {
    hide OnMessage, Admissible, Matches, Agrees, KindOf, Seen, Counted;
    if MessageOf(frames[k]).Some? {
      var message := MessageOf(frames[k]).value;
      var q := p.(captured := p.captured + frames[k].bytes);
      CountsStep(frames, k);
      MatchesAnyLength(p, q.captured, CountsAt(frames, k), g);
      StepAny(ctx, q, CountsAt(frames, k), message, g);
      if q.captured <= MAX_CAPTURE_BYTES {
        assert OnFrame(ctx, p, frames[k]) == OnMessage(ctx, q, message);
      } else {
        assert OnFrame(ctx, p, frames[k]).Stop?;
      }
    } else {
      assert OnFrame(ctx, p, frames[k]).Stop?;
    }
  }

  // Completeness: every script is accepted.
  lemma {:induction false} Accepted(ctx: Context, p: Progress, frames: seq<Frame>, k: nat, g: Grant)
    requires k <= |frames| && Script(ctx, frames, g) && MatchesAt(p, frames, k, g)
    ensures Run(ctx, p, frames[k..]).result == Ok((g.thread, g.call))
    decreases |frames| - k
  {
    hide OnFrame, AdmissibleAt, Agrees;
    if k < |frames| {
      StepFrame(ctx, p, frames, k, g);
      SeenGrows(frames, k + 1, |frames|, ImageStart);
      SeenGrows(frames, k + 1, |frames|, ImageCompletion);
      assert AdmissibleAt(ctx, frames, k, g);
      RunStep(ctx, p, frames, k);
      Accepted(ctx, OnFrame(ctx, p, frames[k]).progress, frames, k + 1, g);
    }
  }

  // What a run ended with agrees with a grant.
  predicate Grants(o: Outcome, g: Grant) {
    && o.result == Ok((g.thread, g.call))
    && o.monitor.threadId == Some(g.thread) && AgreesOn(o.monitor.turnId, g.turn)
  }

  // The monitor forgets nothing: what contradicts a grant before an observation still does after it.
  lemma ItemBackward(ctx: Context, m: Monitor, params: Json, completed: bool, g: Grant)
    requires OnItem(ctx, m, params, completed).verdict.Ok? && Agrees(OnItem(ctx, m, params, completed).monitor, g)
    ensures Agrees(m, g)
  {
    hide OnItem;
    ItemChanges(ctx, m, params, completed);
  }

  lemma ObserveBackward(ctx: Context, m: Monitor, message: Json, g: Grant)
    requires Observe(ctx, m, message).verdict.Ok? && Agrees(Observe(ctx, m, message).monitor, g)
    ensures Agrees(m, g)
  {
    hide OnItem, OnError, TurnIdentityFault;
    var params := Params(message);
    match MethodOf(message)
    case ErrorRaised => ErrorChanges(ctx, m, params);
    case ItemStarted => ItemBackward(ctx, m, params, false, g);
    case ItemCompleted => ItemBackward(ctx, m, params, true, g);
    case _ =>
  }

  lemma MessageBackward(ctx: Context, p: Progress, message: Json, g: Grant)
    requires OnCourse(OnMessage(ctx, p, message), g)
    ensures Agrees(p.monitor, g)
  {
    hide Observe;
    if !Has(message, "id") {
      var o := Observe(ctx, p.monitor, message);
      assert o.verdict.Ok? && OnMessage(ctx, p, message).progress.monitor == o.monitor;
      ObserveBackward(ctx, p.monitor, message, g);
    }
  }

  lemma StepBackward(ctx: Context, p: Progress, frame: Frame, g: Grant)
    requires OnCourse(OnFrame(ctx, p, frame), g)
    ensures Agrees(p.monitor, g)
  {
    hide OnMessage;
    MessageBackward(ctx, p.(captured := p.captured + frame.bytes), frame.value.value, g);
  }

  lemma {:induction false} StaysOnCourse(ctx: Context, p: Progress, frames: seq<Frame>, g: Grant)
    requires Grants(Run(ctx, p, frames), g)
    ensures Agrees(p.monitor, g)
    decreases |frames|
  {
    if frames != [] {
      var move := OnFrame(ctx, p, frames[0]);
      StaysOnCourse(ctx, move.progress, frames[1..], g);
      StepBackward(ctx, p, frames[0], g);
    }
  }

  // Soundness: a run that grants g has read a script.
  lemma {:induction false} Sound(ctx: Context, p: Progress, frames: seq<Frame>, k: nat, g: Grant)
    requires k <= |frames| && MatchesAt(p, frames, k, g) && Grants(Run(ctx, p, frames[k..]), g)
    requires forall j | 0 <= j < k :: AdmissibleAt(ctx, frames, j, g)
    ensures Script(ctx, frames, g)
    decreases |frames| - k
  {
    hide OnFrame, AdmissibleAt, Agrees;
    if k < |frames| {
      RunStep(ctx, p, frames, k);
      var move := OnFrame(ctx, p, frames[k]);
      StaysOnCourse(ctx, move.progress, frames[k + 1..], g);
      StepFrame(ctx, p, frames, k, g);
      Sound(ctx, move.progress, frames, k + 1, g);
    }
  }

  // An authority for a thread and call is issued if and only if the frames are a script that grants
  // them, for some turn.
  lemma AuthorityExactly(ctx: Context, frames: seq<Frame>, thread: Uuid, call: string)
    ensures Run(ctx, START, frames).result == Ok((thread, call))
       <==> exists turn :: Script(ctx, frames, Grant(thread, turn, call))
  {
    var o := Run(ctx, START, frames);
    assert frames[0..] == frames;
    if o.result == Ok((thread, call)) {
      var turn := if o.monitor.turnId.Some? then o.monitor.turnId.value else "";
      FinalThread(ctx, START, frames);
      Sound(ctx, START, frames, 0, Grant(thread, turn, call));
    }
    if turn :| Script(ctx, frames, Grant(thread, turn, call)) {
      Accepted(ctx, START, frames, 0, Grant(thread, turn, call));
    }
  }

  lemma {:induction false} FinalThread(ctx: Context, p: Progress, frames: seq<Frame>)
    requires Run(ctx, p, frames).result.Ok?
    ensures Run(ctx, p, frames).monitor.threadId == Some(Run(ctx, p, frames).result.value.0)
    decreases |frames|
  {
    if frames != [] {
      FinalThread(ctx, OnFrame(ctx, p, frames[0]).progress, frames[1..]);
    }
  }
}

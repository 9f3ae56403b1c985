// One message at a time: the monitor stays on course for a grant exactly when the message is
// admissible for it.
module ProtocolSteps {
  import opened Wrappers
  import opened Json
  import opened Protocol
  import opened Driver
  import opened ProtocolLanguage

  function PhaseFor(c: Counts): Phase {
    if c.responses == 0 then Initialize
    else if c.responses == 1 then ThreadStart
    else if c.responses == 2 then TurnStart
    else if c.ends == 0 then EventStream
    else PostTerminal
  }

  function KnownIf<T>(known: bool, value: T): Option<T> {
    if known then Some(value) else None
  }

  // The monitor of a run on course for g that has seen these messages.
  predicate MatchesMonitor(m: Monitor, c: Counts, g: Grant) {
    && c.starts <= 1 && c.completions <= 1
    && m.threadId == KnownIf(c.responses >= 2, g.thread)
    && m.announcedThreadId == KnownIf(c.threads > 0, g.thread)
    && m.turnId == KnownIf(c.responses == 3, g.turn)
    && m.announcedTurnId == KnownIf(c.turns > 0, g.turn)
    && m.startedImageCount == c.starts
    && m.completedImageCount == c.completions
    && m.sawImageGeneration == (c.starts + c.completions > 0)
    && (m.startedImageCallId.Some? <==> c.starts > 0)
    && (c.completions == 0 && c.starts > 0 ==> m.startedImageCallId == Some(g.call))
    && m.completedImageCallId == KnownIf(c.completions > 0, g.call)
    && !m.imageFailed && !m.imageIncomplete && m.failure.None?
  }

  predicate Matches(p: Progress, c: Counts, g: Grant) {
    && p.phase == PhaseFor(c)
    && c.responses <= 3 && (c.responses < 3 ==> c.ends == 0) && c.ends <= 1
    && MatchesMonitor(p.monitor, c, g)
  }

  predicate AgreesOn<T(==)>(known: Option<T>, value: T) {
    known.Some? ==> known.value == value
  }

  // Nothing the monitor holds contradicts a run that grants g.
  predicate Agrees(m: Monitor, g: Grant) {
    && AgreesOn(m.threadId, g.thread) && AgreesOn(m.announcedThreadId, g.thread)
    && AgreesOn(m.turnId, g.turn) && AgreesOn(m.announcedTurnId, g.turn)
    && AgreesOn(m.completedImageCallId, g.call)
    && (m.completedImageCount == 0 ==> AgreesOn(m.startedImageCallId, g.call))
    && !m.imageFailed && !m.imageIncomplete
  }

  predicate ImagesFit(c: Counts) {
    c.starts <= 1 && c.completions <= 1
  }

  predicate OnCourse(move: Move, g: Grant) {
    move.Continue? && Agrees(move.progress.monitor, g)
  }

  // A message keeps the run on course exactly when it is admissible and still fits.
  predicate StepMeaning(ctx: Context, p: Progress, c: Counts, message: Json, g: Grant) {
    var move := OnMessage(ctx, p, message);
    var next := Counted(c, KindOf(message));
    && (OnCourse(move, g) <==> Admissible(ctx, c, message, g) && ImagesFit(next))
    && (OnCourse(move, g) ==> Matches(move.progress, next, g) && move.progress.captured == p.captured)
  }

  lemma MatchingAgrees(m: Monitor, c: Counts, g: Grant)
    requires MatchesMonitor(m, c, g)
    ensures Agrees(m, g) && ImagesFit(c)
  {
  }

  // After the turn every tracked message ends the run, and none is admissible.
  lemma StepAfterTurn(ctx: Context, p: Progress, c: Counts, message: Json, g: Grant)
    requires Matches(p, c, g) && p.phase == PostTerminal
    ensures StepMeaning(ctx, p, c, message, g)
  {
    hide OnThreadStarted, OnTurnStarted, OnItem, OnTurnCompleted, OnError, MatchesMonitor, Agrees, NamesTurn, BelongsTo, GoodCompletion, RetryNotice, IdentitiesKnown, AnswersRequest, NamesThread;
    MatchingAgrees(p.monitor, c, g);
  }

  lemma StepResponseInitialize(ctx: Context, p: Progress, c: Counts, message: Json, g: Grant)
    requires Matches(p, c, g) && p.phase == Initialize && KindOf(message) == Response
    ensures StepMeaning(ctx, p, c, message, g)
  {
    hide Observe, AdmissibleThread, AdmissibleTurn, AdmissibleStart, AdmissibleCompletion, AdmissibleError, AdmissibleEnd, AdmissibleOther, BindThread, BindTurn, RecordFailure, ParseUuid, NamesTurn;
  }

  lemma JudgeBoundThread(m: Monitor, c: Counts, id: Uuid, g: Grant)
    requires MatchesMonitor(m, c, g) && c.responses == 1
    ensures var o, next := BindThread(m, id), c.(responses := 2);
            && (o.verdict.Ok? && Agrees(o.monitor, g) <==> id == g.thread)
            && (id == g.thread ==> MatchesMonitor(o.monitor, next, g) && ImagesFit(next))
  {
    var bound := BindThread(m, id).monitor;
    assert bound == m.(threadId := Some(id));
    if id == g.thread {
      assert MatchesMonitor(bound, c.(responses := 2), g);
      MatchingAgrees(bound, c.(responses := 2), g);
    } else {
      assert !AgreesOn(bound.threadId, g.thread);
    }
  }

  lemma JudgeBoundTurn(m: Monitor, c: Counts, id: string, g: Grant)
    requires MatchesMonitor(m, c, g) && c.responses == 2
    ensures var o, next := BindTurn(m, id), c.(responses := 3);
            && (o.verdict.Ok? && Agrees(o.monitor, g) <==> id == g.turn && ValidTurnId(id))
            && (id == g.turn && ValidTurnId(id) ==> MatchesMonitor(o.monitor, next, g) && ImagesFit(next))
  {
    hide ValidTurnId;
  }

  lemma StepResponseThreadStart(ctx: Context, p: Progress, c: Counts, message: Json, g: Grant)
    requires Matches(p, c, g) && p.phase == ThreadStart && KindOf(message) == Response
    ensures StepMeaning(ctx, p, c, message, g)
  {
    hide Observe, AdmissibleThread, AdmissibleTurn, AdmissibleStart, AdmissibleCompletion, AdmissibleError, AdmissibleEnd, AdmissibleOther;
    hide BindThread, BindTurn, RecordFailure, NamesTurn, MatchesMonitor, Agrees, ParseUuid;
    if Has(message, "result") {
      var id := ParseUuid(AsText(Get2(Get(message, "result").value, "thread", "id")));
      if id.Some? {
        JudgeBoundThread(p.monitor, c, id.value, g);
      }
    }
  }

  lemma StepResponseTurnStart(ctx: Context, p: Progress, c: Counts, message: Json, g: Grant)
    requires Matches(p, c, g) && p.phase == TurnStart && KindOf(message) == Response
    ensures StepMeaning(ctx, p, c, message, g)
  {
    hide Observe, AdmissibleThread, AdmissibleTurn, AdmissibleStart, AdmissibleCompletion, AdmissibleError, AdmissibleEnd, AdmissibleOther;
    hide BindThread, BindTurn, RecordFailure, ParseUuid, MatchesMonitor, Agrees, ValidTurnId;
    if Has(message, "result") {
      var id := AsText(Get2(Get(message, "result").value, "turn", "id"));
      if id.Some? {
        JudgeBoundTurn(p.monitor, c, id.value, g);
      }
    }
  }

  lemma StepResponseEventStream(ctx: Context, p: Progress, c: Counts, message: Json, g: Grant)
    requires Matches(p, c, g) && p.phase == EventStream && KindOf(message) == Response
    ensures StepMeaning(ctx, p, c, message, g)
  {
    hide Observe, AdmissibleThread, AdmissibleTurn, AdmissibleStart, AdmissibleCompletion, AdmissibleError, AdmissibleEnd, AdmissibleOther;
  }

  // What the monitor makes of a notification: it stays on course exactly when the notification is
  // admissible and the images still fit.
  predicate Judged(o: Observed, admissible: bool, next: Counts, g: Grant) {
    && o.verdict != Ok(true)
    && (o.verdict.Ok? && Agrees(o.monitor, g) <==> admissible && ImagesFit(next))
    && (o.verdict.Ok? && Agrees(o.monitor, g) ==> MatchesMonitor(o.monitor, next, g))
  }

  lemma JudgeThread(m: Monitor, c: Counts, params: Json, g: Grant)
    requires MatchesMonitor(m, c, g) && c.ends == 0
    ensures Judged(OnThreadStarted(m, params), AdmissibleThread(c, params, g), Counted(c, ThreadNotice), g)
  {
  }

  lemma JudgeTurn(m: Monitor, c: Counts, params: Json, g: Grant)
    requires MatchesMonitor(m, c, g) && c.ends == 0 && c.responses <= 3
    ensures Judged(OnTurnStarted(m, params), AdmissibleTurn(c, params, g), Counted(c, TurnNotice), g)
  {
  }

  // An item or error is bound to the thread and turn of the grant, or it is a fault.
  lemma JudgeIdentity(m: Monitor, c: Counts, params: Json, g: Grant)
    requires MatchesMonitor(m, c, g) && c.ends == 0 && c.responses <= 3
    ensures BoundIdentityFault(m, params).None? <==> AdmissibleItem(c, params, g)
  {
  }

  lemma JudgeOther(ctx: Context, m: Monitor, c: Counts, params: Json, completed: bool, g: Grant)
    requires MatchesMonitor(m, c, g) && c.ends == 0 && c.responses <= 3
    requires AsText(Get2(params, "item", "type")) != Some("imageGeneration")
    ensures Judged(OnItem(ctx, m, params, completed), AdmissibleOther(c, params, g), c, g)
  {
    JudgeIdentity(m, c, params, g);
  }

  lemma JudgeStart(ctx: Context, m: Monitor, c: Counts, params: Json, g: Grant)
    requires MatchesMonitor(m, c, g) && c.ends == 0 && c.responses <= 3
    requires AsText(Get2(params, "item", "type")) == Some("imageGeneration")
    ensures Judged(OnItem(ctx, m, params, false), AdmissibleStart(c, params, g), Counted(c, ImageStart), g)
  {
    hide BoundIdentityFault, ValidCallId, OnImageCompleted;
    JudgeIdentity(m, c, params, g);
  }

  // The first completion: on course exactly when it is good.
  lemma JudgeCompleted(ctx: Context, m: Monitor, params: Json, call: string, g: Grant)
    requires m.threadId == Some(g.thread) && m.completedImageCount == 0 && m.completedImageCallId.None?
    requires !m.imageFailed && !m.imageIncomplete && AgreesOn(m.startedImageCallId, g.call)
    requires AsText(Get2(params, "item", "id")) == Some(call) && ValidCallId(call)
    ensures var o := OnImageCompleted(ctx, m, params, call);
            && (GoodCompletion(ctx, params, g) ==>
                  o == Observed(m.(completedImageCount := 1, completedImageCallId := Some(call)), Ok(false)))
            && (!GoodCompletion(ctx, params, g) ==> o.verdict.Err? || (o.verdict == Ok(false) && !Agrees(o.monitor, g)))
  {
  }

  // A second completion ends the run.
  lemma JudgeSecond(ctx: Context, m: Monitor, params: Json, call: string)
    requires m.completedImageCount > 0
    ensures OnImageCompleted(ctx, m, params, call).verdict.Err?
  {
    hide OnImageSettled;
  }

  lemma GoodCompletionNames(ctx: Context, params: Json, g: Grant)
    ensures GoodCompletion(ctx, params, g) ==> AsText(Get2(params, "item", "id")) == Some(g.call) && ValidCallId(g.call)
  {
  }

  lemma JudgeCompletion(ctx: Context, m: Monitor, c: Counts, params: Json, g: Grant)
    requires MatchesMonitor(m, c, g) && c.ends == 0 && c.responses <= 3
    requires AsText(Get2(params, "item", "type")) == Some("imageGeneration")
    ensures Judged(OnItem(ctx, m, params, true), AdmissibleCompletion(ctx, c, params, g), Counted(c, ImageCompletion), g)
  {
    hide BoundIdentityFault, OnImageCompleted, GoodCompletion, ValidCallId;
    JudgeIdentity(m, c, params, g);
    GoodCompletionNames(ctx, params, g);
    var call := AsText(Get2(params, "item", "id"));
    if AdmissibleItem(c, params, g) && call.Some? && ValidCallId(call.value) {
      var seen := m.(sawImageGeneration := true);
      assert OnItem(ctx, m, params, true) == OnImageCompleted(ctx, seen, params, call.value);
      if c.completions == 0 {
        JudgeCompleted(ctx, seen, params, call.value, g);
      } else {
        JudgeSecond(ctx, seen, params, call.value);
      }
    }
  }

  lemma JudgeError(ctx: Context, m: Monitor, c: Counts, params: Json, g: Grant)
    requires MatchesMonitor(m, c, g) && c.ends == 0 && c.responses <= 3
    ensures Judged(OnError(ctx, m, params), AdmissibleError(ctx, c, params, g), c, g)
  {
    JudgeIdentity(m, c, params, g);
  }

  lemma JudgeNothing(m: Monitor, c: Counts, g: Grant)
    requires MatchesMonitor(m, c, g)
    ensures Judged(Observed(m, Ok(false)), true, c, g)
  {
  }

  // While the turn is open, a notification is judged by what the monitor makes of it.
  lemma Route(ctx: Context, p: Progress, c: Counts, message: Json, g: Grant)
    requires Matches(p, c, g) && p.phase != PostTerminal
    requires KindOf(message) != Response && KindOf(message) != Nameless && KindOf(message) != TurnEnd
    requires Judged(Observe(ctx, p.monitor, message), Admissible(ctx, c, message, g), Counted(c, KindOf(message)), g)
    ensures StepMeaning(ctx, p, c, message, g)
  {
    hide Observe, Admissible, MatchesMonitor, Agrees;
    assert OnMessage(ctx, p, message) == Bound(p, Observe(ctx, p.monitor, message));
  }

  lemma StepNotice(ctx: Context, p: Progress, c: Counts, message: Json, g: Grant)
    requires Matches(p, c, g) && p.phase != PostTerminal
    requires KindOf(message) != Response && KindOf(message) != Nameless && KindOf(message) != TurnEnd
    ensures Judged(Observe(ctx, p.monitor, message), Admissible(ctx, c, message, g), Counted(c, KindOf(message)), g)
  {
    hide OnThreadStarted, OnTurnStarted, OnItem, OnTurnCompleted, OnError, AdmissibleThread, AdmissibleTurn, AdmissibleStart, AdmissibleCompletion, AdmissibleError, AdmissibleOther, Judged, MatchesMonitor;
    var params := Params(message);
    match KindOf(message)
    case ThreadNotice => JudgeThread(p.monitor, c, params, g);
    case TurnNotice => JudgeTurn(p.monitor, c, params, g);
    case ImageStart => JudgeStart(ctx, p.monitor, c, params, g);
    case ImageCompletion => JudgeCompletion(ctx, p.monitor, c, params, g);
    case OtherItem => JudgeOther(ctx, p.monitor, c, params, MethodOf(message) == ItemCompleted, g);
    case ErrorNotice => JudgeError(ctx, p.monitor, c, params, g);
    case Untracked => JudgeNothing(p.monitor, c, g);
  }

  lemma JudgeEnd(ctx: Context, m: Monitor, c: Counts, params: Json, g: Grant)
    requires MatchesMonitor(m, c, g) && c.ends == 0 && c.responses <= 3
    ensures var o := OnTurnCompleted(ctx, m, params);
            && (c.responses == 3 ==> (o.verdict.Ok? <==> AdmissibleEnd(c, params, g)))
            && (o.verdict.Ok? ==> o == Observed(m, Ok(true)))
  {
  }

  lemma StepTurnEnd(ctx: Context, p: Progress, c: Counts, message: Json, g: Grant)
    requires Matches(p, c, g) && p.phase != PostTerminal && KindOf(message) == TurnEnd
    ensures StepMeaning(ctx, p, c, message, g)
  {
    hide OnThreadStarted, OnTurnStarted, OnItem, OnTurnCompleted, OnError, NamesTurn, NamesThread;
    JudgeEnd(ctx, p.monitor, c, Params(message), g);
  }

  lemma StepNameless(ctx: Context, p: Progress, c: Counts, message: Json, g: Grant)
    requires Matches(p, c, g) && p.phase != PostTerminal && KindOf(message) == Nameless
    ensures StepMeaning(ctx, p, c, message, g)
  {
    hide OnThreadStarted, OnTurnStarted, OnItem, OnTurnCompleted, OnError;
  }
}

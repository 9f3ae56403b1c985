// Every well-formed grant is issued by some run, whether the image starts before its completion is
// reported or, naming any call at all, after it.
module GrantsReachable {
  import opened Wrappers
  import opened Json
  import opened Protocol
  import opened Driver
  import opened ProtocolLanguage
  import opened ProtocolSteps
  import opened AuthorityTheorem
  import Paths
  import Uuids

  function Field(key: string, value: Json): Json {
    Object(map[key := value])
  }

  function Answer(number: int, result: Json): Json {
    Object(map["id" := Integer(number), "result" := result])
  }

  function Notice(name: string, params: Json): Json {
    Object(map["method" := Str(name), "params" := params])
  }

  function Printed(g: Grant): Json {
    Str(Uuids.Print(g.thread))
  }

  function ItemParams(g: Grant, item: Json): Json {
    Object(map["threadId" := Printed(g), "turnId" := Str(g.turn), "item" := item])
  }

  function HomeAnswer(home: string): Json {
    Answer(1, Field("codexHome", Str(home)))
  }

  function ThreadAnswer(g: Grant): Json {
    Answer(2, Field("thread", Field("id", Printed(g))))
  }

  function TurnAnswer(g: Grant): Json {
    Answer(3, Field("turn", Field("id", Str(g.turn))))
  }

  function ThreadAnnouncement(g: Grant): Json {
    Notice("thread/started", Field("thread", Field("id", Printed(g))))
  }

  function TurnAnnouncement(g: Grant): Json {
    Notice("turn/started", Object(map["threadId" := Printed(g), "turn" := Field("id", Str(g.turn))]))
  }

  function Start(g: Grant, call: string): Json {
    Notice("item/started", ItemParams(g, Object(map["type" := Str("imageGeneration"), "id" := Str(call)])))
  }

  function CompletionParams(g: Grant, saved: string): Json {
    ItemParams(g, Object(map["type" := Str("imageGeneration"), "id" := Str(g.call), "status" := Str("completed"),
                             "result" := Str("ok"), "savedPath" := Str(saved)]))
  }

  function Completion(g: Grant, saved: string): Json {
    Notice("item/completed", CompletionParams(g, saved))
  }

  function End(g: Grant): Json {
    Notice("turn/completed", Object(map["threadId" := Printed(g),
                                        "turn" := Object(map["id" := Str(g.turn), "status" := Str("completed")])]))
  }

  // Each message advances the counts and ends at the final ones, admissible all along.
  predicate Feeds(ctx: Context, c: Counts, messages: seq<Json>, g: Grant, final: Counts)
    decreases |messages|
  {
    if messages == [] then c == final
    else
      var next := Counted(c, KindOf(messages[0]));
      Admissible(ctx, c, messages[0], g) && ImagesFit(next) && Feeds(ctx, next, messages[1..], g, final)
  }

  function Lines(messages: seq<Json>): seq<Frame> {
    seq(|messages|, k requires 0 <= k < |messages| => Line(1, Some(messages[k])))
  }

  const COMPLETE: Counts := Counts(3, 1, 1, 1, 1, 1)

  lemma CompleteGrants(p: Progress, g: Grant)
    requires Matches(p, COMPLETE, g)
    ensures AtEnd(p).result == Ok((g.thread, g.call))
  {
  }

  lemma {:induction false} FedRunGrants(ctx: Context, p: Progress, c: Counts, messages: seq<Json>, g: Grant)
    requires Matches(p, c, g) && Feeds(ctx, c, messages, g, COMPLETE) && p.captured + |messages| <= MAX_CAPTURE_BYTES
    ensures Run(ctx, p, Lines(messages)).result == Ok((g.thread, g.call))
    decreases |messages|
  {
    hide OnMessage, Admissible, Matches, KindOf, Counted;
    if messages == [] {
      CompleteGrants(p, g);
    } else {
      var q := p.(captured := p.captured + 1);
      MatchesAnyLength(p, q.captured, c, g);
      StepAny(ctx, q, c, messages[0], g);
      assert OnFrame(ctx, p, Lines(messages)[0]) == OnMessage(ctx, q, messages[0]);
      assert Lines(messages)[1..] == Lines(messages[1..]);
      FedRunGrants(ctx, OnMessage(ctx, q, messages[0]).progress, Counted(c, KindOf(messages[0])), messages[1..], g);
    }
  }

  lemma FeedOne(ctx: Context, c: Counts, message: Json, rest: seq<Json>, g: Grant, next: Counts)
    requires Admissible(ctx, c, message, g) && next == Counted(c, KindOf(message)) && ImagesFit(next)
    requires Feeds(ctx, next, rest, g, COMPLETE)
    ensures Feeds(ctx, c, [message] + rest, g, COMPLETE)
  {
    assert ([message] + rest)[1..] == rest;
  }

  predicate ValidGrant(g: Grant) {
    ValidTurnId(g.turn) && ValidCallId(g.call)
  }

  lemma AnswersFit(ctx: Context, home: string, c: Counts, g: Grant)
    requires ValidGrant(g) && Paths.Parse(home) == ctx.home
    ensures c.responses == 0 ==> Admissible(ctx, c, HomeAnswer(home), g)
    ensures c.responses == 1 ==> Admissible(ctx, c, ThreadAnswer(g), g)
    ensures c.responses == 2 ==> Admissible(ctx, c, TurnAnswer(g), g)
    ensures KindOf(HomeAnswer(home)) == KindOf(ThreadAnswer(g)) == KindOf(TurnAnswer(g)) == Response
  {
    hide Uuids.Parse, Uuids.Print, Paths.Parse, ValidTurnId, ValidCallId;
    Uuids.ParsePrint(g.thread);
  }

  lemma AnnouncementsFit(ctx: Context, c: Counts, g: Grant)
    requires ValidGrant(g) && c.responses == 3 && c.ends == 0
    ensures KindOf(ThreadAnnouncement(g)) == ThreadNotice && Admissible(ctx, c, ThreadAnnouncement(g), g)
    ensures KindOf(TurnAnnouncement(g)) == TurnNotice && Admissible(ctx, c, TurnAnnouncement(g), g)
  {
    Uuids.ParsePrint(g.thread);
    assert MethodNamed("thread/started") == ThreadStarted && MethodNamed("turn/started") == TurnStarted;
  }

  lemma EndFits(ctx: Context, c: Counts, g: Grant)
    requires ValidGrant(g) && c.responses == 3 && c.ends == 0
    ensures KindOf(End(g)) == TurnEnd && Admissible(ctx, c, End(g), g)
  {
    Uuids.ParsePrint(g.thread);
    assert MethodNamed("turn/completed") == TurnCompleted;
  }

  lemma StartFits(ctx: Context, c: Counts, g: Grant, call: string)
    requires ValidGrant(g) && ValidCallId(call) && c.responses == 3 && c.ends == 0 && (c.completions > 0 || call == g.call)
    ensures KindOf(Start(g, call)) == ImageStart && Admissible(ctx, c, Start(g, call), g)
  {
    Uuids.ParsePrint(g.thread);
    assert MethodNamed("item/started") == ItemStarted;
  }

  lemma CompletionKind(g: Grant, saved: string)
    ensures KindOf(Completion(g, saved)) == ImageCompletion && Params(Completion(g, saved)) == CompletionParams(g, saved)
  {
    assert MethodNamed("item/completed") == ItemCompleted;
  }

  lemma CompletionParamsFit(ctx: Context, c: Counts, g: Grant, saved: string)
    requires ValidGrant(g) && c.responses == 3 && c.ends == 0 && Paths.Parse(saved) == SavedPath(ctx.home, g.thread, g.call)
    ensures AdmissibleCompletion(ctx, c, CompletionParams(g, saved), g)
  {
    hide Uuids.Parse, Uuids.Print, SavedPath, Paths.Parse, ValidCallId, ValidTurnId;
    Uuids.ParsePrint(g.thread);
  }

  lemma CompletionFits(ctx: Context, c: Counts, g: Grant, saved: string)
    requires ValidGrant(g) && c.responses == 3 && c.ends == 0 && Paths.Parse(saved) == SavedPath(ctx.home, g.thread, g.call)
    ensures KindOf(Completion(g, saved)) == ImageCompletion && Admissible(ctx, c, Completion(g, saved), g)
  {
    CompletionKind(g, saved);
    CompletionParamsFit(ctx, c, g, saved);
  }

  function Conversation(home: string, g: Grant, images: seq<Json>): seq<Json> {
    [HomeAnswer(home)] + ([ThreadAnswer(g)] + ([TurnAnswer(g)] + ([ThreadAnnouncement(g)] + ([TurnAnnouncement(g)] + (images + [End(g)])))))
  }

  lemma ConversationGrants(ctx: Context, home: string, g: Grant, images: seq<Json>)
    requires ValidGrant(g) && Paths.Parse(home) == ctx.home && |images| == 2
    requires Feeds(ctx, Counts(3, 1, 1, 0, 0, 0), images + [End(g)], g, COMPLETE)
    ensures Run(ctx, START, Lines(Conversation(home, g, images))).result == Ok((g.thread, g.call))
  {
    hide Feeds, Admissible, KindOf, HomeAnswer, ThreadAnswer, TurnAnswer, ThreadAnnouncement, TurnAnnouncement, Run, ValidCallId, ValidTurnId;
    AnswersFit(ctx, home, Counts(0, 0, 0, 0, 0, 0), g);
    AnswersFit(ctx, home, Counts(1, 0, 0, 0, 0, 0), g);
    AnswersFit(ctx, home, Counts(2, 0, 0, 0, 0, 0), g);
    AnnouncementsFit(ctx, Counts(3, 0, 0, 0, 0, 0), g);
    AnnouncementsFit(ctx, Counts(3, 1, 0, 0, 0, 0), g);
    var tail := images + [End(g)];
    FeedOne(ctx, Counts(3, 1, 0, 0, 0, 0), TurnAnnouncement(g), tail, g, Counts(3, 1, 1, 0, 0, 0));
    tail := [TurnAnnouncement(g)] + tail;
    FeedOne(ctx, Counts(3, 0, 0, 0, 0, 0), ThreadAnnouncement(g), tail, g, Counts(3, 1, 0, 0, 0, 0));
    tail := [ThreadAnnouncement(g)] + tail;
    FeedOne(ctx, Counts(2, 0, 0, 0, 0, 0), TurnAnswer(g), tail, g, Counts(3, 0, 0, 0, 0, 0));
    tail := [TurnAnswer(g)] + tail;
    FeedOne(ctx, Counts(1, 0, 0, 0, 0, 0), ThreadAnswer(g), tail, g, Counts(2, 0, 0, 0, 0, 0));
    tail := [ThreadAnswer(g)] + tail;
    FeedOne(ctx, Counts(0, 0, 0, 0, 0, 0), HomeAnswer(home), tail, g, Counts(1, 0, 0, 0, 0, 0));
    FedRunGrants(ctx, START, Counts(0, 0, 0, 0, 0, 0), Conversation(home, g, images), g);
  }

  // The granted file's path, as text.
  function SavedText(ctx: Context, g: Grant): string {
    Paths.Render(SavedPath(ctx.home, g.thread, g.call))
  }

  lemma SavedTextParses(ctx: Context, g: Grant)
    requires ValidGrant(g) && Paths.IsCanonical(ctx.home)
    ensures Paths.Parse(SavedText(ctx, g)) == SavedPath(ctx.home, g.thread, g.call)
  {
    var path := SavedPath(ctx.home, g.thread, g.call);
    forall k | 0 <= k < |path.parts| ensures '/' !in path.parts[k] && path.parts[k] != "" && path.parts[k] != "." {
      if k == |ctx.home.parts| {
        assert path.parts[k] == "generated_images";
      } else if k == |ctx.home.parts| + 1 {
        assert path.parts[k] == Uuids.Print(g.thread);
      } else if k == |ctx.home.parts| + 2 {
        assert path.parts[k] == g.call + ".png";
      }
    }
    Paths.ParseRender(path);
  }

  // The image events of a run: the start first, or the completion first.
  function StartFirst(ctx: Context, g: Grant): seq<Json> {
    [Start(g, g.call), Completion(g, SavedText(ctx, g))]
  }

  function CompletionFirst(ctx: Context, g: Grant, other: string): seq<Json> {
    [Completion(g, SavedText(ctx, g)), Start(g, other)]
  }

  lemma StartFirstFeeds(ctx: Context, g: Grant)
    requires ValidGrant(g) && Paths.IsCanonical(ctx.home)
    ensures Feeds(ctx, Counts(3, 1, 1, 0, 0, 0), StartFirst(ctx, g) + [End(g)], g, COMPLETE)
  {
    hide Feeds, Admissible, KindOf, SavedText, SavedPath, ValidCallId, ValidTurnId, Start, Completion, End, Paths.Parse, Paths.IsCanonical;
    SavedTextParses(ctx, g);
    var completion, end := Completion(g, SavedText(ctx, g)), [End(g)] + [];
    EndFits(ctx, Counts(3, 1, 1, 1, 1, 0), g);
    FeedOne(ctx, Counts(3, 1, 1, 1, 1, 0), End(g), [], g, COMPLETE);
    CompletionFits(ctx, Counts(3, 1, 1, 1, 0, 0), g, SavedText(ctx, g));
    FeedOne(ctx, Counts(3, 1, 1, 1, 0, 0), completion, end, g, Counts(3, 1, 1, 1, 1, 0));
    StartFits(ctx, Counts(3, 1, 1, 0, 0, 0), g, g.call);
    FeedOne(ctx, Counts(3, 1, 1, 0, 0, 0), Start(g, g.call), [completion] + end, g, Counts(3, 1, 1, 1, 0, 0));
    assert StartFirst(ctx, g) + [End(g)] == [Start(g, g.call)] + ([completion] + end);
  }

  lemma CompletionFirstFeeds(ctx: Context, g: Grant, other: string)
    requires ValidGrant(g) && ValidCallId(other) && Paths.IsCanonical(ctx.home)
    ensures Feeds(ctx, Counts(3, 1, 1, 0, 0, 0), CompletionFirst(ctx, g, other) + [End(g)], g, COMPLETE)
  {
    hide Feeds, Admissible, KindOf, SavedText, SavedPath, ValidCallId, ValidTurnId, Start, Completion, End, Paths.Parse, Paths.IsCanonical;
    SavedTextParses(ctx, g);
    var completion, end := Completion(g, SavedText(ctx, g)), [End(g)] + [];
    EndFits(ctx, Counts(3, 1, 1, 1, 1, 0), g);
    FeedOne(ctx, Counts(3, 1, 1, 1, 1, 0), End(g), [], g, COMPLETE);
    StartFits(ctx, Counts(3, 1, 1, 0, 1, 0), g, other);
    FeedOne(ctx, Counts(3, 1, 1, 0, 1, 0), Start(g, other), end, g, Counts(3, 1, 1, 1, 1, 0));
    CompletionFits(ctx, Counts(3, 1, 1, 0, 0, 0), g, SavedText(ctx, g));
    FeedOne(ctx, Counts(3, 1, 1, 0, 0, 0), completion, [Start(g, other)] + end, g, Counts(3, 1, 1, 0, 1, 0));
    assert CompletionFirst(ctx, g, other) + [End(g)] == [completion] + ([Start(g, other)] + end);
  }

  // Every well-formed grant is issued, when the start of its call is reported before the completion
  // and, whatever call the start names, when the completion is reported first.
  lemma EveryGrantIsIssued(ctx: Context, g: Grant, other: string)
    requires ValidGrant(g) && ValidCallId(other) && Paths.IsCanonical(ctx.home)
    ensures var home := Paths.Render(ctx.home);
            && Run(ctx, START, Lines(Conversation(home, g, StartFirst(ctx, g)))).result == Ok((g.thread, g.call))
            && Run(ctx, START, Lines(Conversation(home, g, CompletionFirst(ctx, g, other)))).result == Ok((g.thread, g.call))
  {
    var home := Paths.Render(ctx.home);
    Paths.ParseRender(ctx.home);
    StartFirstFeeds(ctx, g);
    ConversationGrants(ctx, home, g, StartFirst(ctx, g));
    CompletionFirstFeeds(ctx, g, other);
    ConversationGrants(ctx, home, g, CompletionFirst(ctx, g, other));
  }
}

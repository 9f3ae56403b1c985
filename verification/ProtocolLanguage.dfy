// The language of the protocol: a declarative description of the frame sequences that yield an image
// authority, in terms of what each frame is and how many frames of each kind came before it.
module ProtocolLanguage {
  import opened Wrappers
  import opened Json
  import opened Protocol
  import opened Driver
  import Diagnostics
  import Paths

  // What a message is, judged by itself.
  datatype Kind =
    | Response          // a message with an id
    | ThreadNotice | TurnNotice | ImageStart | ImageCompletion | OtherItem | TurnEnd | ErrorNotice
    | Untracked         // a notification the monitor ignores
    | Nameless          // a message with neither an id nor a textual method

  function ItemKind(message: Json, imageKind: Kind): Kind {
    if AsText(Get2(Params(message), "item", "type")) == Some("imageGeneration") then imageKind else OtherItem
  }

  function KindOf(message: Json): Kind {
    if Has(message, "id") then Response
    else match MethodOf(message)
      case NoMethod => Nameless
      case ThreadStarted => ThreadNotice
      case TurnStarted => TurnNotice
      case ItemStarted => ItemKind(message, ImageStart)
      case ItemCompleted => ItemKind(message, ImageCompletion)
      case TurnCompleted => TurnEnd
      case ErrorRaised => ErrorNotice
      case OtherMethod => Untracked
  }

  function MessageOf(f: Frame): Option<Json> {
    if f.Line? then f.value else None
  }

  predicate IsOf(f: Frame, kind: Kind) {
    MessageOf(f).Some? && KindOf(MessageOf(f).value) == kind
  }

  // How many of the first k frames are of a kind.
  function Seen(frames: seq<Frame>, k: nat, kind: Kind): nat
    requires k <= |frames|
  {
    if k == 0 then 0 else Seen(frames, k - 1, kind) + (if IsOf(frames[k - 1], kind) then 1 else 0)
  }

  function BytesBefore(frames: seq<Frame>, k: nat): nat
    requires k <= |frames|
  {
    if k == 0 then 0 else BytesBefore(frames, k - 1) + (if frames[k - 1].Line? then frames[k - 1].bytes else 0)
  }

  // How many messages of each tracked kind have been seen.
  datatype Counts = Counts(responses: nat, threads: nat, turns: nat, starts: nat, completions: nat, ends: nat)

  function CountsAt(frames: seq<Frame>, k: nat): Counts
    requires k <= |frames|
  {
    Counts(Seen(frames, k, Response), Seen(frames, k, ThreadNotice), Seen(frames, k, TurnNotice),
           Seen(frames, k, ImageStart), Seen(frames, k, ImageCompletion), Seen(frames, k, TurnEnd))
  }

  function Counted(c: Counts, kind: Kind): Counts {
    match kind
    case Response => c.(responses := c.responses + 1)
    case ThreadNotice => c.(threads := c.threads + 1)
    case TurnNotice => c.(turns := c.turns + 1)
    case ImageStart => c.(starts := c.starts + 1)
    case ImageCompletion => c.(completions := c.completions + 1)
    case TurnEnd => c.(ends := c.ends + 1)
    case _ => c
  }

  // The identities and the call an authority is issued for.
  datatype Grant = Grant(thread: Uuid, turn: string, call: string)

  predicate NamesTurn(params: Json, g: Grant) {
    AsText(Get2(params, "turn", "id")) == Some(g.turn) && ValidTurnId(g.turn)
  }

  predicate NamesThread(params: Json, g: Grant) {
    ParseUuid(AsText(Get(params, "threadId"))) == Some(g.thread)
  }

  predicate BelongsTo(params: Json, g: Grant) {
    NamesThread(params, g) && AsText(Get(params, "turnId")) == Some(g.turn)
  }

  // The response to the request with this number.
  predicate AnswersRequest(ctx: Context, message: Json, number: int, g: Grant) {
    && AsI64(Get(message, "id")) == Some(number)
    && Has(message, "result") && !Has(message, "error")
    && var result := Get(message, "result").value;
       if number == 1 then
         AsText(Get(result, "codexHome")).Some? && Paths.Parse(AsText(Get(result, "codexHome")).value) == ctx.home
       else if number == 2 then ParseUuid(AsText(Get2(result, "thread", "id"))) == Some(g.thread)
       else NamesTurn(result, g)
  }

  // A completed image with a result, stored exactly where the granted thread and call say.
  predicate GoodCompletion(ctx: Context, params: Json, g: Grant) {
    var result := AsText(Get2(params, "item", "result"));
    var saved := AsText(Get2(params, "item", "savedPath"));
    && AsText(Get2(params, "item", "id")) == Some(g.call) && ValidCallId(g.call)
    && AsText(Get2(params, "item", "status")) == Some("completed")
    && result.Some? && result.value != ""
    && saved.Some? && Paths.Parse(saved.value) == SavedPath(ctx.home, g.thread, g.call)
  }

  // An error notification the stream is expected to recover from.
  predicate RetryNotice(ctx: Context, params: Json) {
    && WillRetry(params) == Some(true)
    && var d := ctx.summarize(Diagnostics.ServerErrorNotification, params, Some(true));
       !d.policyRejected && d.permitsRecovery
  }

  // Items and errors need the thread to be answered and the turn to be answered or announced.
  predicate IdentitiesKnown(c: Counts) {
    c.responses == 3 || (c.responses == 2 && c.turns > 0)
  }

  // What each kind of notification must say, in a run that grants g, given what came before it.

  predicate AdmissibleThread(c: Counts, params: Json, g: Grant) {
    c.ends == 0 && ParseUuid(AsText(Get2(params, "thread", "id"))) == Some(g.thread)
  }

  // Before the thread is answered, the announcement of a turn may name any thread.
  predicate AdmissibleTurn(c: Counts, params: Json, g: Grant) {
    && c.ends == 0 && NamesTurn(params, g) && ParseUuid(AsText(Get(params, "threadId"))).Some?
    && (c.responses >= 2 ==> NamesThread(params, g))
  }

  predicate AdmissibleItem(c: Counts, params: Json, g: Grant) {
    c.ends == 0 && IdentitiesKnown(c) && BelongsTo(params, g)
  }

  predicate AdmissibleOther(c: Counts, params: Json, g: Grant) {
    var itemType := AsText(Get2(params, "item", "type"));
    AdmissibleItem(c, params, g) && itemType.Some? && IsInformational(itemType.value)
  }

  // Only a start that comes before the completion is compared with it.
  predicate AdmissibleStart(c: Counts, params: Json, g: Grant) {
    var call := AsText(Get2(params, "item", "id"));
    && AdmissibleItem(c, params, g) && call.Some? && ValidCallId(call.value)
    && (c.completions == 0 ==> call == Some(g.call))
  }

  predicate AdmissibleCompletion(ctx: Context, c: Counts, params: Json, g: Grant) {
    AdmissibleItem(c, params, g) && GoodCompletion(ctx, params, g)
  }

  predicate AdmissibleEnd(c: Counts, params: Json, g: Grant) {
    && c.ends == 0 && c.responses == 3 && NamesTurn(params, g) && NamesThread(params, g)
    && AsText(Get2(params, "turn", "status")) == Some("completed")
  }

  predicate AdmissibleError(ctx: Context, c: Counts, params: Json, g: Grant) {
    AdmissibleItem(c, params, g) && RetryNotice(ctx, params)
  }

  // A message may stand where it stands.
  predicate Admissible(ctx: Context, c: Counts, message: Json, g: Grant) {
    var params := Params(message);
    match KindOf(message)
    case Nameless => false
    case Untracked => true
    case Response => c.responses < 3 && AnswersRequest(ctx, message, c.responses + 1, g)
    case ThreadNotice => AdmissibleThread(c, params, g)
    case TurnNotice => AdmissibleTurn(c, params, g)
    case OtherItem => AdmissibleOther(c, params, g)
    case ImageStart => AdmissibleStart(c, params, g)
    case ImageCompletion => AdmissibleCompletion(ctx, c, params, g)
    case TurnEnd => AdmissibleEnd(c, params, g)
    case ErrorNotice => AdmissibleError(ctx, c, params, g)
  }

  predicate AdmissibleAt(ctx: Context, frames: seq<Frame>, k: nat, g: Grant)
    requires k < |frames|
  {
    MessageOf(frames[k]).Some? && Admissible(ctx, CountsAt(frames, k), MessageOf(frames[k]).value, g)
  }

  // The frame sequences that grant g: every frame may stand where it stands, all three requests are
  // answered, the turn ends, both identities are announced, exactly one image starts and exactly one
  // completes, and the messages fit the capture budget.
  predicate Script(ctx: Context, frames: seq<Frame>, g: Grant) {
    var n := |frames|;
    && (forall k | 0 <= k < n :: AdmissibleAt(ctx, frames, k, g))
    && Seen(frames, n, Response) == 3 && Seen(frames, n, TurnEnd) == 1
    && Seen(frames, n, ThreadNotice) > 0 && Seen(frames, n, TurnNotice) > 0
    && Seen(frames, n, ImageStart) == 1 && Seen(frames, n, ImageCompletion) == 1
    && BytesBefore(frames, n) <= MAX_CAPTURE_BYTES
  }

  lemma CountsStep(frames: seq<Frame>, k: nat)
    requires k < |frames| && MessageOf(frames[k]).Some?
    ensures CountsAt(frames, k + 1) == Counted(CountsAt(frames, k), KindOf(MessageOf(frames[k]).value))
  {
  }

  lemma {:induction false} SeenGrows(frames: seq<Frame>, j: nat, k: nat, kind: Kind)
    requires j <= k <= |frames|
    ensures Seen(frames, j, kind) <= Seen(frames, k, kind)
    ensures BytesBefore(frames, j) <= BytesBefore(frames, k)
    decreases k - j
  {
    if j < k {
      SeenGrows(frames, j, k - 1, kind);
    }
  }
}

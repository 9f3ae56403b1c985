// An invocation from the bytes the app server writes: framing, parsing and the protocol together.
module ByteStreamRuns {
  import opened Wrappers
  import opened Json
  import opened Protocol
  import opened Driver
  import opened ProtocolLanguage
  import F = Framing
  import AuthorityTheorem
  import TraceErasure
  import I = Invocation

  // The frames of a reading; parse is the JSON parser.
  function FramesOf(reading: F.Reading, parse: seq<F.Byte> -> Option<Json>): seq<Frame> {
    LineFrames(reading.lines, parse)
    + match reading.error
      case None => []
      case Some(Invalid) => [Frame.Invalid]
      case Some(Unfinished) => [Frame.Unfinished]
  }

  function LineFrames(lines: seq<seq<F.Byte>>, parse: seq<F.Byte> -> Option<Json>): seq<Frame> {
    seq(|lines|, k requires 0 <= k < |lines| => Frame.Line(|lines[k]|, parse(lines[k])))
  }

  // What an invocation comes to when the app server writes a stream of bytes.
  function RunBytes(ctx: Context, stream: seq<F.Byte>, broken: bool, parse: seq<F.Byte> -> Option<Json>): Outcome {
    Run(ctx, START, FramesOf(F.ReadAll(stream, broken), parse))
  }

  // A reading without an error used up a whole stream of complete lines.
  lemma {:induction false} WholeReading(stream: seq<F.Byte>, broken: bool)
    requires F.ReadAll(stream, broken).error.None?
    ensures !broken && (stream != [] ==> stream[|stream| - 1] == F.LF)
    decreases |stream|
  {
    if stream != [] {
      var rest := F.AfterLine(stream);
      WholeReading(rest, broken);
      assert rest != [] ==> stream[|stream| - 1] == rest[|rest| - 1];
    }
  }

  lemma ScriptsHaveOnlyLines(ctx: Context, reading: F.Reading, parse: seq<F.Byte> -> Option<Json>, g: Grant)
    ensures Script(ctx, FramesOf(reading, parse), g) ==> reading.error.None? && reading.lines != []
  {
    var frames := FramesOf(reading, parse);
    assert reading.error.Some? ==> |frames| > |reading.lines| && !AdmissibleAt(ctx, frames, |reading.lines|, g);
    assert reading.error.None? && reading.lines == [] ==> frames == [];
  }

  // An authority is only issued for a stream that was read to its end, whose last line was complete,
  // and whose every line is a JSON value.
  lemma GrantedStreamIsWhole(ctx: Context, stream: seq<F.Byte>, broken: bool, parse: seq<F.Byte> -> Option<Json>)
    requires RunBytes(ctx, stream, broken, parse).result.Ok?
    ensures !broken && stream != [] && stream[|stream| - 1] == F.LF
    ensures var reading := F.ReadAll(stream, broken);
            reading.error == None && forall k | 0 <= k < |reading.lines| :: parse(reading.lines[k]).Some?
  {
    var reading := F.ReadAll(stream, broken);
    var frames := FramesOf(reading, parse);
    var (thread, call) := Run(ctx, START, frames).result.value;
    AuthorityTheorem.AuthorityExactly(ctx, frames, thread, call);
    var turn :| Script(ctx, frames, Grant(thread, turn, call));
    var g := Grant(thread, turn, call);
    ScriptsHaveOnlyLines(ctx, reading, parse, g);
    forall k | 0 <= k < |reading.lines| ensures parse(reading.lines[k]).Some? {
      assert AdmissibleAt(ctx, frames, k, g) && frames[k] == Frame.Line(|reading.lines[k]|, parse(reading.lines[k]));
    }
    WholeReading(stream, broken);
  }

  // Whatever is written one framable payload per line is judged by its payloads alone.
  lemma WrittenScriptIsGranted(
      ctx: Context, payloads: seq<seq<F.Byte>>, parse: seq<F.Byte> -> Option<Json>, thread: Uuid, call: string)
    requires forall k | 0 <= k < |payloads| :: F.IsFramable(payloads[k])
    ensures RunBytes(ctx, F.Encode(payloads), false, parse).result == Ok((thread, call))
       <==> exists turn :: Script(ctx, LineFrames(payloads, parse), Grant(thread, turn, call))
  {
    F.RoundTrip(payloads);
    var frames := LineFrames(payloads, parse);
    assert FramesOf(F.Reading(payloads, None), parse) == frames;
    AuthorityTheorem.AuthorityExactly(ctx, frames, thread, call);
  }

  // Every frame of a stream is a non-empty line.
  lemma FramesAreNonEmpty(stream: seq<F.Byte>, broken: bool, parse: seq<F.Byte> -> Option<Json>)
    ensures TraceErasure.NonEmptyLines(FramesOf(F.ReadAll(stream, broken), parse))
  {
    F.LinesAreBounded(stream, broken);
  }

  // The invocation over a buffered source: its outcome depends on the bytes, not on how they arrive.
  method RunSource(ctx: Context, source: F.Source, parse: seq<F.Byte> -> Option<Json>) returns (outcome: Outcome)
    requires source.Valid()
    modifies source
    ensures outcome == RunBytes(ctx, old(source.Remaining()), source.broken, parse)
  {
    var reading := F.ReadLines(source);
    outcome := I.RunCodexAppServer(ctx, FramesOf(reading, parse));
  }
}

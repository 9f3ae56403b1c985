// Framing of the app server's output: a bounded line reader over buffers of any size, and what it
// means for the whole byte stream.
module Framing {
  import opened Wrappers

  newtype Byte = x: int | 0 <= x < 256

  const LF: Byte := 10
  const CR: Byte := 13
  const MAX_LINE_BYTES: nat := 48 * 1024 * 1024

  datatype FrameError = Invalid | Unfinished

  // A line, the end of the stream, or the error that ends the reading.
  datatype Read = Line(line: seq<Byte>) | EndOfStream | Failed(error: FrameError)

  // The index of the first line feed, or the length when there is none.
  function LineLength(s: seq<Byte>): (n: nat)
    ensures n <= |s| && LF !in s[..n] && (n < |s| ==> s[n] == LF)
  {
    if s == [] || s[0] == LF then 0
    else
      var n := 1 + LineLength(s[1..]);
      assert s[..n] == [s[0]] + s[1..][..n - 1];
      n
  }

  function WithoutCarriageReturn(s: seq<Byte>): seq<Byte> {
    if s != [] && s[|s| - 1] == CR then s[..|s| - 1] else s
  }

  // What the bytes before a line feed amount to.
  function Completed(bytes: seq<Byte>): Read {
    var line := WithoutCarriageReturn(bytes);
    if line == [] then Failed(Invalid) else Line(line)
  }

  // The next line of a stream, split at line feeds under the length bound. A stream may be broken off
  // by a read failure.
  function NextLine(stream: seq<Byte>, broken: bool): Read {
    var n := LineLength(stream);
    if n + (if n < |stream| then 1 else 0) > MAX_LINE_BYTES then Failed(Invalid)
    else if n < |stream| then
      Completed(stream[..n])
    else if broken then Failed(Invalid)
    else if stream == [] then EndOfStream
    else Failed(Unfinished)
  }

  // What follows the next line.
  function AfterLine(stream: seq<Byte>): (rest: seq<Byte>)
    requires LineLength(stream) < |stream|
    ensures |rest| < |stream|
  {
    stream[LineLength(stream) + 1..]
  }

  // Every line of a stream, and the error that ended the reading, if any.
  datatype Reading = Reading(lines: seq<seq<Byte>>, error: Option<FrameError>)

  function ReadAll(stream: seq<Byte>, broken: bool): Reading
    decreases |stream|
  {
    match NextLine(stream, broken)
    case EndOfStream => Reading([], None)
    case Failed(error) => Reading([], Some(error))
    case Line(line) =>
      var rest := ReadAll(AfterLine(stream), broken);
      Reading([line] + rest.lines, rest.error)
  }

  function Flatten(buffers: seq<seq<Byte>>): seq<Byte> {
    if buffers == [] then [] else buffers[0] + Flatten(buffers[1..])
  }

  // A buffered source: what is left of each buffer, and whether reading past the last one fails.
  class Source {
    var buffers: seq<seq<Byte>>
    const broken: bool

    predicate Valid()
      reads this
    {
      forall k | 0 <= k < |buffers| :: buffers[k] != []
    }

    function Remaining(): seq<Byte>
      reads this
    {
      Flatten(buffers)
    }

    constructor (buffers: seq<seq<Byte>>, broken: bool)
      requires forall k | 0 <= k < |buffers| :: buffers[k] != []
      ensures Valid() && Remaining() == Flatten(buffers) && this.broken == broken
    {
      this.buffers := buffers;
      this.broken := broken;
    }

    // The bytes available without another read; none at the end of the stream.
    method FillBuffer() returns (r: Result<seq<Byte>, ()>)
      requires Valid()
      ensures buffers == [] ==> r == if broken then Err(()) else Ok([])
      ensures buffers != [] ==> r == Ok(buffers[0]) && buffers[0] != []
    {
      if buffers == [] {
        return if broken then Err(()) else Ok([]);
      }
      return Ok(buffers[0]);
    }

    method Consume(n: nat)
      requires Valid() && buffers != [] && n <= |buffers[0]|
      modifies this`buffers
      ensures Valid() && Remaining() == old(Remaining())[n..]
      ensures 0 < n ==> |Remaining()| < old(|Remaining()|)
    {
      var left := buffers[0][n..];
      assert Flatten(buffers)[n..] == left + Flatten(buffers[1..]);
      if left == [] {
        buffers := buffers[1..];
      } else {
        buffers := [left] + buffers[1..];
        assert buffers[1..] == old(buffers)[1..];
      }
    }
  }

  // The first line feed of a stream lies behind a prefix without one.
  lemma {:induction false} LineLengthAfter(prefix: seq<Byte>, rest: seq<Byte>)
    requires LF !in prefix
    ensures LineLength(prefix + rest) == |prefix| + LineLength(rest)
  {
    if prefix == [] {
      assert prefix + rest == rest;
    } else {
      assert (prefix + rest)[1..] == prefix[1..] + rest;
      assert prefix[0] in prefix;
      LineLengthAfter(prefix[1..], rest);
    }
  }

  lemma EncodedHead(payload: seq<Byte>, rest: seq<Byte>)
    requires LF !in payload
    ensures var stream := payload + [LF] + rest;
            LineLength(stream) == |payload| && stream[..|payload|] == payload && AfterLine(stream) == rest
  {
    assert payload + [LF] + rest == payload + ([LF] + rest);
    LineLengthAfter(payload, [LF] + rest);
  }

  // A buffer without a line feed extends the line.
  lemma BufferExtends(line: seq<Byte>, available: seq<Byte>, rest: seq<Byte>)
    requires LF !in line && LineLength(available) == |available|
    ensures LF !in line + available && LineLength(line + available + rest) >= |line| + |available|
  {
    assert available == available[..LineLength(available)];
    LineLengthAfter(line + available, rest);
  }

  // The line feed of a buffer is that of the buffer and what follows it.
  lemma {:induction false} LineLengthWithin(available: seq<Byte>, rest: seq<Byte>)
    requires LineLength(available) < |available|
    ensures LineLength(available + rest) == LineLength(available)
  {
    if available[0] != LF {
      assert (available + rest)[1..] == available[1..] + rest;
      LineLengthWithin(available[1..], rest);
    }
  }

  // A buffer with a line feed completes it.
  lemma BufferCompletes(line: seq<Byte>, available: seq<Byte>, rest: seq<Byte>)
    requires LF !in line && LineLength(available) < |available|
    ensures LineLength(line + available + rest) == |line| + LineLength(available)
  {
    assert line + available + rest == line + (available + rest);
    LineLengthAfter(line, available + rest);
    LineLengthWithin(available, rest);
  }

  // Taking up to some point of the buffer.
  lemma Taking(line: seq<Byte>, available: seq<Byte>, rest: seq<Byte>, n: nat)
    requires n < |available|
    ensures (line + available + rest)[..|line| + n] == line + available[..n]
    ensures (line + available + rest)[|line| + n + 1..] == (available + rest)[n + 1..]
  {
  }

  // How the verdict on a stream shows in the length of its first line.
  lemma NextLineAt(line: seq<Byte>, stream: seq<Byte>, broken: bool)
    requires |line| < |stream| && LineLength(stream) == |line| && stream[..|line|] == line
    ensures NextLine(stream, broken) == if |line| + 1 > MAX_LINE_BYTES then Failed(Invalid) else Completed(line)
  {
  }

  // How it shows at the end of a buffer.
  lemma LineEndsHere(line: seq<Byte>, available: seq<Byte>, rest: seq<Byte>, broken: bool)
    requires LF !in line && LineLength(available) < |available|
    ensures var n, stream := LineLength(available), line + available + rest;
            && LineLength(stream) < |stream| && AfterLine(stream) == (available + rest)[n + 1..]
            && NextLine(stream, broken)
               == if |line| + n + 1 > MAX_LINE_BYTES then Failed(Invalid) else Completed(line + available[..n])
  {
    var n, stream := LineLength(available), line + available + rest;
    BufferCompletes(line, available, rest);
    Taking(line, available, rest, n);
    NextLineAt(line + available[..n], stream, broken);
  }

  lemma LineGoesOn(line: seq<Byte>, available: seq<Byte>, rest: seq<Byte>, broken: bool)
    requires LF !in line && LineLength(available) == |available|
    ensures LF !in line + available
    ensures |line| + |available| > MAX_LINE_BYTES ==> NextLine(line + available + rest, broken) == Failed(Invalid)
  {
    BufferExtends(line, available, rest);
  }

  lemma NothingLeft(line: seq<Byte>, broken: bool)
    requires LF !in line && |line| <= MAX_LINE_BYTES
    ensures NextLine(line, broken) == if broken then Failed(Invalid) else if line == [] then EndOfStream else Failed(Unfinished)
  {
    LineLengthAfter(line, []);
    assert line + [] == line;
  }

  // Reads one line, buffer by buffer. The result is the next line of the whole remaining stream,
  // however it is split into buffers.
  method ReadBoundedLine(source: Source) returns (r: Read)
    requires source.Valid()
    modifies source`buffers
    ensures source.Valid()
    ensures r == NextLine(old(source.Remaining()), source.broken)
    ensures r.Line? ==> LineLength(old(source.Remaining())) < |old(source.Remaining())|
                        && source.Remaining() == AfterLine(old(source.Remaining()))
  {
    ghost var stream := source.Remaining();
    var line: seq<Byte> := [];
    while true
      invariant source.Valid()
      invariant stream == line + source.Remaining() && LF !in line && |line| <= MAX_LINE_BYTES
      decreases |source.Remaining()|
    {
      var filled := source.FillBuffer();
      if filled.Err? || filled.value == [] {
        assert stream == line;
        NothingLeft(line, source.broken);
        return if filled.Err? then Failed(Invalid) else if line == [] then EndOfStream else Failed(Unfinished);
      }
      var available := filled.value;
      ghost var rest := Flatten(source.buffers[1..]);
      assert stream == line + available + rest && source.Remaining() == available + rest;
      var position := LineLength(available);
      if position < |available| {
        LineEndsHere(line, available, rest, source.broken);
        if |line| + position + 1 > MAX_LINE_BYTES {
          return Failed(Invalid);
        }
        source.Consume(position + 1);
        return Completed(line + available[..position]);
      }
      LineGoesOn(line, available, rest, source.broken);
      if |line| + |available| > MAX_LINE_BYTES {
        return Failed(Invalid);
      }
      source.Consume(|available|);
      line := line + available;
    }
  }

  function Before(lines: seq<seq<Byte>>, rest: Reading): Reading {
    Reading(lines + rest.lines, rest.error)
  }

  lemma ReadAllStep(lines: seq<seq<Byte>>, stream: seq<Byte>, broken: bool)
    ensures match NextLine(stream, broken)
            case EndOfStream => Before(lines, ReadAll(stream, broken)) == Reading(lines, None)
            case Failed(error) => Before(lines, ReadAll(stream, broken)) == Reading(lines, Some(error))
            case Line(line) => Before(lines, ReadAll(stream, broken))
                               == Before(lines + [line], ReadAll(AfterLine(stream), broken))
  {
  }

  // Reads lines until the stream ends or fails: the same for every split into buffers.
  method ReadLines(source: Source) returns (reading: Reading)
    requires source.Valid()
    modifies source`buffers
    ensures reading == ReadAll(old(source.Remaining()), source.broken)
  {
    var lines: seq<seq<Byte>> := [];
    ghost var whole := ReadAll(source.Remaining(), source.broken);
    while true
      invariant source.Valid()
      invariant whole == Before(lines, ReadAll(source.Remaining(), source.broken))
      decreases |source.Remaining()|
    {
      ReadAllStep(lines, source.Remaining(), source.broken);
      var read := ReadBoundedLine(source);
      match read {
        case EndOfStream => return Reading(lines, None);
        case Failed(error) => return Reading(lines, Some(error));
        case Line(line) => lines := lines + [line];
      }
    }
  }

  // Lines are never empty and never longer than the bound.
  lemma {:induction false} LinesAreBounded(stream: seq<Byte>, broken: bool)
    ensures forall k | 0 <= k < |ReadAll(stream, broken).lines| ::
              var line := ReadAll(stream, broken).lines[k]; 0 < |line| < MAX_LINE_BYTES && LF !in line
    decreases |stream|
  {
    if NextLine(stream, broken).Line? {
      LinesAreBounded(AfterLine(stream), broken);
    }
  }

  // ---- Round trip ----

  function Encode(payloads: seq<seq<Byte>>): seq<Byte> {
    if payloads == [] then [] else payloads[0] + [LF] + Encode(payloads[1..])
  }

  // A payload that survives framing: not empty, without a line feed, not ending in a carriage return,
  // and within the bound together with its line feed.
  predicate IsFramable(payload: seq<Byte>) {
    payload != [] && LF !in payload && payload[|payload| - 1] != CR && |payload| + 1 <= MAX_LINE_BYTES
  }

  // A payload with a line feed is cut short.
  lemma {:induction false} CutShort(payload: seq<Byte>, rest: seq<Byte>)
    requires LF in payload
    ensures LineLength(payload + rest) < |payload|
  {
    assert payload + rest == [payload[0]] + (payload[1..] + rest);
    assert (payload + rest)[1..] == payload[1..] + rest;
    if payload[0] != LF {
      CutShort(payload[1..], rest);
    }
  }

  // A payload is the first line read back exactly when it is framable.
  lemma HeadMeaning(payload: seq<Byte>, rest: seq<Byte>)
    ensures var stream := payload + [LF] + rest;
            && (NextLine(stream, false) == Line(payload) <==> IsFramable(payload))
            && (IsFramable(payload) ==> AfterLine(stream) == rest)
  {
    if LF in payload {
      assert payload + [LF] + rest == payload + ([LF] + rest);
      CutShort(payload, [LF] + rest);
    } else {
      EncodedHead(payload, rest);
    }
  }

  // Reading a stream that starts with a payload.
  lemma ReadHead(payload: seq<Byte>, rest: seq<Byte>)
    ensures var reading, after := ReadAll(payload + [LF] + rest, false), ReadAll(rest, false);
            if IsFramable(payload) then reading == Reading([payload] + after.lines, after.error)
            else if reading.lines == [] then reading.error.Some?
            else reading.lines[0] != payload
  {
    HeadMeaning(payload, rest);
  }

  lemma HeadMatters(payload: seq<Byte>, read: seq<seq<Byte>>, rest: seq<seq<Byte>>)
    ensures [payload] + read == [payload] + rest <==> read == rest
  {
    assert ([payload] + read)[1..] == read && ([payload] + rest)[1..] == rest;
  }

  predicate AreFramable(payloads: seq<seq<Byte>>) {
    forall k | 0 <= k < |payloads| :: IsFramable(payloads[k])
  }

  lemma FramableSplit(payload: seq<Byte>, rest: seq<seq<Byte>>)
    ensures AreFramable([payload] + rest) <==> IsFramable(payload) && AreFramable(rest)
  {
    var payloads := [payload] + rest;
    if AreFramable(payloads) {
      assert IsFramable(payloads[0]);
      forall k | 0 <= k < |rest| ensures IsFramable(rest[k]) {
        assert IsFramable(payloads[k + 1]);
      }
    }
  }

  // Payloads written one per line are read back unchanged, with nothing left over, if and only if each
  // of them is framable.
  lemma {:induction false} RoundTrip(payloads: seq<seq<Byte>>)
    ensures ReadAll(Encode(payloads), false) == Reading(payloads, None) <==> AreFramable(payloads)
    decreases |payloads|
  {
    if payloads != [] {
      var payload, rest := payloads[0], payloads[1..];
      var reading := ReadAll(Encode(payloads), false);
      assert payloads == [payload] + rest;
      assert Encode(payloads) == payload + [LF] + Encode(rest);
      ReadHead(payload, Encode(rest));
      RoundTrip(rest);
      FramableSplit(payload, rest);
      if IsFramable(payload) {
        HeadMatters(payload, ReadAll(Encode(rest), false).lines, rest);
      } else {
        if reading.lines != [] {
          assert reading.lines[0] != payloads[0];
        }
        assert reading != Reading(payloads, None);
      }
    }
  }
}

// What is kept of a process's output: a bounded prefix, while the whole of it is read.
module CapturedStream {
  import opened Wrappers
  import F = Framing

  const MAX_CAPTURED_STREAM_BYTES: nat := 64 * 1024
  const READ_BYTES: nat := 8 * 1024

  datatype Captured = Captured(bytes: seq<F.Byte>, truncated: bool)

  predicate IsKept(bytes: seq<F.Byte>, truncated: bool, seen: seq<F.Byte>) {
    && truncated == (|seen| > MAX_CAPTURED_STREAM_BYTES)
    && bytes == if truncated then seen[..MAX_CAPTURED_STREAM_BYTES] else seen
  }

  function Retained(bytes: seq<F.Byte>, chunk: seq<F.Byte>): nat
    requires |bytes| <= MAX_CAPTURED_STREAM_BYTES
  {
    if MAX_CAPTURED_STREAM_BYTES - |bytes| < |chunk| then MAX_CAPTURED_STREAM_BYTES - |bytes| else |chunk|
  }

  lemma KeptMeaning(bytes: seq<F.Byte>, truncated: bool, seen: seq<F.Byte>)
    requires IsKept(bytes, truncated, seen)
    ensures bytes <= seen && |bytes| <= MAX_CAPTURED_STREAM_BYTES && truncated == (|seen| > MAX_CAPTURED_STREAM_BYTES)
    ensures if truncated then |bytes| == MAX_CAPTURED_STREAM_BYTES else bytes == seen
  {
  }

  lemma Nothing()
    ensures IsKept([], false, [])
  {
  }

  // One more chunk is kept as far as there is room.
  lemma KeepsMore(bytes: seq<F.Byte>, truncated: bool, seen: seq<F.Byte>, chunk: seq<F.Byte>)
    requires IsKept(bytes, truncated, seen)
    ensures var n := Retained(bytes, chunk); IsKept(bytes + chunk[..n], truncated || n < |chunk|, seen + chunk)
  {
    var n := Retained(bytes, chunk);
    if truncated {
      assert (seen + chunk)[..MAX_CAPTURED_STREAM_BYTES] == seen[..MAX_CAPTURED_STREAM_BYTES];
      assert chunk[..n] == chunk[..0];
    } else if n < |chunk| {
      assert (seen + chunk)[..MAX_CAPTURED_STREAM_BYTES] == seen + chunk[..n];
    } else {
      assert chunk[..n] == chunk;
    }
  }

  // The chunks that reading a stream yields until it ends or, when it is broken, fails.
  method CaptureStream(chunks: seq<seq<F.Byte>>, broken: bool) returns (r: Option<Captured>)
    requires forall k | 0 <= k < |chunks| :: 0 < |chunks[k]| <= READ_BYTES
    ensures broken <==> r.None?
    ensures r.Some? ==>
              var all := F.Flatten(chunks);
              && r.value.bytes <= all && |r.value.bytes| <= MAX_CAPTURED_STREAM_BYTES
              && r.value.truncated == (|all| > MAX_CAPTURED_STREAM_BYTES)
              && (r.value.truncated ==> |r.value.bytes| == MAX_CAPTURED_STREAM_BYTES)
              && (!r.value.truncated ==> r.value.bytes == all)
  {
    hide IsKept;
    Nothing();
    var bytes: seq<F.Byte> := [];
    var truncated := false;
    ghost var all := F.Flatten(chunks);
    ghost var seen: seq<F.Byte> := [];
    for k := 0 to |chunks|
      invariant all == seen + F.Flatten(chunks[k..])
      invariant IsKept(bytes, truncated, seen)
    {
      var remaining := MAX_CAPTURED_STREAM_BYTES - |bytes|;
      var retained := if remaining < |chunks[k]| then remaining else |chunks[k]|;
      KeptMeaning(bytes, truncated, seen);
      KeepsMore(bytes, truncated, seen, chunks[k]);
      assert chunks[k..][0] == chunks[k] && chunks[k..][1..] == chunks[k + 1..];
      assert seen + (chunks[k] + F.Flatten(chunks[k + 1..])) == (seen + chunks[k]) + F.Flatten(chunks[k + 1..]);
      bytes := bytes + chunks[k][..retained];
      truncated := truncated || retained < |chunks[k]|;
      seen := seen + chunks[k];
    }
    assert all == seen + [];
    KeptMeaning(bytes, truncated, seen);
    return if broken then None else Some(Captured(bytes, truncated));
  }
}

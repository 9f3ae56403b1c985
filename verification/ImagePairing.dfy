// How the start of the image is tied to its completion: the call of a start that comes before the
// completion must be the granted one, and the call of a start that comes after it is never compared.
module ImagePairing {
  import opened Wrappers
  import opened Json
  import opened Protocol
  import opened Driver
  import opened ProtocolLanguage
  import opened AuthorityTheorem

  // The call an image start names.
  function StartedCall(f: Frame): Option<string> {
    if MessageOf(f).Some? then AsText(Get2(Params(MessageOf(f).value), "item", "id")) else None
  }

  // A start of an image on the granted thread and turn, with a well-formed call.
  predicate IsBoundStart(f: Frame, g: Grant) {
    && IsOf(f, ImageStart) && BelongsTo(Params(MessageOf(f).value), g)
    && StartedCall(f).Some? && ValidCallId(StartedCall(f).value)
  }

  lemma {:induction false} SeenUpdated(frames: seq<Frame>, s: nat, f: Frame, k: nat, kind: Kind)
    requires s < |frames| && k <= |frames| && IsOf(frames[s], ImageStart) && IsOf(f, ImageStart) && f.bytes == frames[s].bytes
    ensures Seen(frames[s := f], k, kind) == Seen(frames, k, kind)
    ensures BytesBefore(frames[s := f], k) == BytesBefore(frames, k)
  {
    if k > 0 {
      SeenUpdated(frames, s, f, k - 1, kind);
    }
  }

  lemma CountsUpdated(frames: seq<Frame>, s: nat, f: Frame, k: nat)
    requires s < |frames| && k <= |frames| && IsOf(frames[s], ImageStart) && IsOf(f, ImageStart) && f.bytes == frames[s].bytes
    ensures CountsAt(frames[s := f], k) == CountsAt(frames, k)
    ensures BytesBefore(frames[s := f], k) == BytesBefore(frames, k)
  {
    SeenUpdated(frames, s, f, k, Response);
    SeenUpdated(frames, s, f, k, ThreadNotice);
    SeenUpdated(frames, s, f, k, TurnNotice);
    SeenUpdated(frames, s, f, k, ImageStart);
    SeenUpdated(frames, s, f, k, ImageCompletion);
    SeenUpdated(frames, s, f, k, TurnEnd);
  }

  // The start of an accepted run may be replaced by another start of the same thread and turn if and
  // only if it comes after the completion or names the granted call.
  lemma StartIsComparedOnlyBeforeCompletion(ctx: Context, frames: seq<Frame>, s: nat, f: Frame, g: Grant)
    requires Script(ctx, frames, g) && s < |frames| && IsOf(frames[s], ImageStart)
    requires IsBoundStart(f, g) && f.bytes == frames[s].bytes
    ensures Script(ctx, frames[s := f], g) <==> Seen(frames, s, ImageCompletion) > 0 || StartedCall(f) == Some(g.call)
  {
    var updated := frames[s := f];
    forall k | 0 <= k < |frames|
      ensures AdmissibleAt(ctx, updated, k, g) <==>
                k != s || Seen(frames, s, ImageCompletion) > 0 || StartedCall(f) == Some(g.call)
    {
      CountsUpdated(frames, s, f, k);
      assert AdmissibleAt(ctx, frames, k, g);
    }
    CountsUpdated(frames, s, f, |frames|);
    assert |updated| == |frames|;
    assert Script(ctx, updated, g) ==> AdmissibleAt(ctx, updated, s, g);
  }
}

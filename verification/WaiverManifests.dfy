// Capacity risk waiver manifests: what an operator has reviewed, and when its text is accepted.
module WaiverManifests {
  import opened Wrappers
  import opened Uuids
  import F = Framing
  import Text

  const RISK: string := "unknown_original_may_still_occupy_upstream_capacity"
  const MAX_MANIFEST_BYTES: nat := 32768
  const MAX_ORIGINALS: nat := 15

  datatype Error = Conflict | InvalidManifest | Unavailable

  datatype Original = Original(allocation: Uuid, submission: Uuid, execution: Uuid, record: string)

  datatype Manifest = Manifest(
    schemaVersion: nat, authorization: Uuid, account: Uuid, policy: Uuid, revision: int, reference: string,
    actor: string, risk: string, observedBefore: int, expiresAt: int, originals: seq<Original>)

  // SHA-256 in hexadecimal, and the JSON parser.
  datatype Codec = Codec(sha256: seq<F.Byte> -> string, parse: seq<F.Byte> -> Option<Manifest>)

  predicate IsDigest(s: string) {
    |s| == 64 && forall i | 0 <= i < |s| :: Text.IsDigit(s[i]) || 'a' <= s[i] <= 'f'
  }

  // The characters that trimming removes, and the control characters.

  predicate IsSpace(c: char) {
    var n := c as int;
    9 <= n <= 13 || n in {0x20, 0x85, 0xA0, 0x1680, 0x2028, 0x2029, 0x202F, 0x205F, 0x3000} || 0x2000 <= n <= 0x200A
  }

  predicate IsControl(c: char) {
    c as int < 32 || 127 <= c as int < 160
  }

  function Utf8Length(s: string): nat {
    if s == "" then 0
    else
      var n := s[0] as int;
      (if n < 0x80 then 1 else if n < 0x800 then 2 else if n < 0x1_0000 then 3 else 4) + Utf8Length(s[1..])
  }

  predicate IsSafeText(s: string, maximum: nat) {
    && (exists i | 0 <= i < |s| :: !IsSpace(s[i])) && Utf8Length(s) <= maximum
    && forall i | 0 <= i < |s| :: !IsControl(s[i])
  }

  predicate IsWellFormed(o: Original) {
    o.allocation != 0 && o.submission != 0 && o.allocation == o.execution && IsDigest(o.record)
  }

  predicate AreDistinct(originals: seq<Original>) {
    forall i, j | 0 <= i < j < |originals| ::
      originals[i].allocation != originals[j].allocation && originals[i].submission != originals[j].submission
  }

  // Everything a manifest says apart from its originals.
  predicate HasReviewedHead(m: Manifest) {
    && m.schemaVersion == 1 && m.authorization != 0 && m.account != 0 && m.policy != 0 && m.revision >= 1
    && IsSafeText(m.reference, 256) && IsSafeText(m.actor, 128) && m.risk == RISK
    && 0 < m.observedBefore < m.expiresAt && 0 < |m.originals| <= MAX_ORIGINALS
  }

  predicate IsReviewed(m: Manifest) {
    && HasReviewedHead(m) && AreDistinct(m.originals)
    && forall i | 0 <= i < |m.originals| :: IsWellFormed(m.originals[i])
  }

  // The manifest that some bytes hold, when their digest is the reviewed one.
  function Accepted(codec: Codec, bytes: seq<F.Byte>, reviewed: string): Result<Manifest, Error> {
    if |bytes| > MAX_MANIFEST_BYTES || !IsDigest(reviewed) || codec.sha256(bytes) != reviewed then Err(Conflict)
    else if codec.parse(bytes).None? then Err(InvalidManifest)
    else if !IsReviewed(codec.parse(bytes).value) then Err(Conflict)
    else Ok(codec.parse(bytes).value)
  }

  // Each original in turn, remembering the allocations and submissions met before it.
  method AreReviewed(originals: seq<Original>) returns (ok: bool)
    ensures ok <==> AreDistinct(originals) && forall i | 0 <= i < |originals| :: IsWellFormed(originals[i])
  {
    var allocations: set<Uuid>, submissions: set<Uuid> := {}, {};
    for k := 0 to |originals|
      invariant AreDistinct(originals[..k]) && forall i | 0 <= i < k :: IsWellFormed(originals[i])
      invariant allocations == set i | 0 <= i < k :: originals[i].allocation
      invariant submissions == set i | 0 <= i < k :: originals[i].submission
    {
      var row := originals[k];
      if !IsWellFormed(row) || row.allocation in allocations || row.submission in submissions {
        return false;
      }
      allocations, submissions := allocations + {row.allocation}, submissions + {row.submission};
    }
    assert originals[..|originals|] == originals;
    return true;
  }

  method ParseManifest(codec: Codec, bytes: seq<F.Byte>, reviewed: string) returns (r: Result<Manifest, Error>)
    ensures r == Accepted(codec, bytes, reviewed)
  {
    if |bytes| > MAX_MANIFEST_BYTES || !IsDigest(reviewed) || codec.sha256(bytes) != reviewed {
      return Err(Conflict);
    }
    var parsed := codec.parse(bytes);
    if parsed.None? {
      return Err(InvalidManifest);
    }
    var reviewedOriginals := AreReviewed(parsed.value.originals);
    return if HasReviewedHead(parsed.value) && reviewedOriginals then Ok(parsed.value) else Err(Conflict);
  }
}

// Refresh tokens as text, and the keyring that hashes their secrets. HMAC-SHA-256 is any function of a
// pepper and a message.
module RefreshTokens {
  import opened Wrappers
  import opened RefreshService
  import F = Framing
  import Base64Url
  import Text
  import Uuids

  const REFRESH_PREFIX: string := "aifr_"
  const REFRESH_SECRET_BYTES: nat := 32
  const PEPPER_BYTES: nat := 32
  const MAX_TOKEN_BYTES: nat := 256

  type Version = v: nat | v < 0x1_0000

  type Hmac = (seq<F.Byte>, seq<F.Byte>) -> nat

  datatype Keyring = Keyring(current: Version, peppers: map<Version, seq<F.Byte>>)

  predicate IsValid(k: Keyring) {
    && 0 < k.current && k.current in k.peppers
    && forall v | v in k.peppers :: 0 < v && |k.peppers[v]| == PEPPER_BYTES
  }

  predicate IsDistinct(peppers: seq<(Version, seq<F.Byte>)>) {
    forall i, j | 0 <= i < j < |peppers| :: peppers[i].0 != peppers[j].0
  }

  // A keyring holds exactly the given peppers; it exists when their versions are distinct, the current one
  // is among them, and all are well formed.
  method NewKeyring(current: Version, peppers: seq<(Version, seq<F.Byte>)>) returns (r: Option<Keyring>)
    ensures r.Some? ==> IsValid(r.value) && r.value.current == current
                        && forall v, p :: (v in r.value.peppers && r.value.peppers[v] == p) <==> (v, p) in peppers
    ensures r.Some? <==>
              && IsDistinct(peppers) && 0 < current && (exists k | 0 <= k < |peppers| :: peppers[k].0 == current)
              && forall k | 0 <= k < |peppers| :: 0 < peppers[k].0 && |peppers[k].1| == PEPPER_BYTES
  {
    var unique: map<Version, seq<F.Byte>> := map[];
    for k := 0 to |peppers|
      invariant IsDistinct(peppers[..k])
      invariant forall v :: v in unique <==> exists i | 0 <= i < k :: peppers[i].0 == v
      invariant forall i | 0 <= i < k :: peppers[i].0 in unique && unique[peppers[i].0] == peppers[i].1
    {
      if peppers[k].0 in unique {
        return None;
      }
      unique := unique[peppers[k].0 := peppers[k].1];
    }
    var keyring := Keyring(current, unique);
    return if IsValid(keyring) then Some(keyring) else None;
  }

  // ---- The text of a token ----

  function TokenText(id: Uuids.Uuid, secret: seq<F.Byte>): string {
    REFRESH_PREFIX + Uuids.Print(id) + "." + Base64Url.Encode(secret)
  }

  // The length of what comes before the first dot.
  function BeforeDot(s: string): (n: nat)
    ensures n <= |s|
  {
    if s == "" || s[0] == '.' then 0 else 1 + BeforeDot(s[1..])
  }

  function ParseToken(token: string): Option<(Uuids.Uuid, seq<F.Byte>)> {
    if |token| > MAX_TOKEN_BYTES || !Text.HasPrefix(token, REFRESH_PREFIX) then None
    else
      var value := token[|REFRESH_PREFIX|..];
      var n := BeforeDot(value);
      if n == |value| then None
      else
        var id, secret := Uuids.Parse(value[..n]), Base64Url.Decode(value[n + 1..]);
        if id.None? || secret.None? || |secret.value| != REFRESH_SECRET_BYTES then None
        else Some((id.value, secret.value))
  }

  lemma {:induction false} DotAfter(head: string, tail: string)
    requires '.' !in head
    ensures BeforeDot(head + "." + tail) == |head|
  {
    if head == "" {
      assert (head + "." + tail)[0] == '.';
    } else {
      assert (head + "." + tail)[1..] == head[1..] + "." + tail;
      assert head[0] in head;
      DotAfter(head[1..], tail);
    }
  }

  // Every token is read back as the id and the secret it was made of.
  lemma ParseTokenText(id: Uuids.Uuid, secret: seq<F.Byte>)
    requires |secret| == REFRESH_SECRET_BYTES
    ensures ParseToken(TokenText(id, secret)) == Some((id, secret))
  {
    var head, tail := Uuids.Print(id), Base64Url.Encode(secret);
    var token := TokenText(id, secret);
    var value := token[|REFRESH_PREFIX|..];
    assert token == REFRESH_PREFIX + (head + "." + tail);
    assert value == head + "." + tail;
    DotAfter(head, tail);
    assert value[..|head|] == head && value[|head| + 1..] == tail;
    Uuids.ParsePrint(id);
    Base64Url.DecodeEncode(secret);
  }

  // A secret has one spelling: tokens that parse to the same secret end alike.
  lemma SecretIsCanonical(token: string)
    requires ParseToken(token).Some?
    ensures var encoded := Base64Url.Encode(ParseToken(token).value.1);
            |encoded| < |token| && token[|token| - |encoded|..] == encoded && token[|token| - |encoded| - 1] == '.'
  {
    var value := token[|REFRESH_PREFIX|..];
    var n := BeforeDot(value);
    AtDot(value);
    Base64Url.EncodeDecode(value[n + 1..]);
    assert token[|REFRESH_PREFIX| + n + 1..] == value[n + 1..];
  }

  lemma {:induction false} AtDot(s: string)
    ensures BeforeDot(s) < |s| ==> s[BeforeDot(s)] == '.'
  {
    if s != "" && s[0] != '.' {
      AtDot(s[1..]);
    }
  }

  // ---- Issuing and presenting ----

  datatype Issued = Issued(id: Uuids.Uuid, value: string, hash: nat, version: Version)

  method Issue(k: Keyring, hmac: Hmac, id: Uuids.Uuid, secret: seq<F.Byte>) returns (issued: Issued)
    requires IsValid(k) && |secret| == REFRESH_SECRET_BYTES
    ensures issued.id == id && issued.version == k.current && issued.hash == hmac(k.peppers[k.current], secret)
    ensures ParseToken(issued.value) == Some((id, secret))
  {
    ParseTokenText(id, secret);
    return Issued(id, TokenText(id, secret), hmac(k.peppers[k.current], secret), k.current);
  }

  // The digests of a secret: under the current pepper first, then under every other one by version.
  predicate AreDigests(k: Keyring, hmac: Hmac, secret: seq<F.Byte>, digests: seq<(nat, nat)>)
    requires IsValid(k)
  {
    && |digests| > 0 && digests[0].0 == k.current
    && (forall i | 0 <= i < |digests| ::
          digests[i].0 < 0x1_0000 && digests[i].0 in k.peppers && digests[i].1 == hmac(k.peppers[digests[i].0], secret))
    && (forall i, j | 1 <= i < j < |digests| :: digests[i].0 < digests[j].0)
    && (forall i | 1 <= i < |digests| :: digests[i].0 != k.current)
  }

  predicate HasVersion(digests: seq<(nat, nat)>, v: nat) {
    exists i | 0 <= i < |digests| :: digests[i].0 == v
  }

  // Every pepper has its digest.
  predicate CoversKeyring(k: Keyring, digests: seq<(nat, nat)>) {
    forall v | v in k.peppers :: HasVersion(digests, v)
  }

  lemma HasVersionsToo(digests: seq<(nat, nat)>, digest: (nat, nat))
    ensures HasVersion(digests + [digest], digest.0)
    ensures forall v | HasVersion(digests, v) :: HasVersion(digests + [digest], v)
  {
    var more := digests + [digest];
    assert more[|digests|] == digest;
    forall v | HasVersion(digests, v) ensures HasVersion(more, v) {
      var i :| 0 <= i < |digests| && digests[i].0 == v;
      assert more[i].0 == v;
    }
  }

  // The digests under the current pepper and under all others below a version.
  predicate AreDigestsBelow(k: Keyring, hmac: Hmac, secret: seq<F.Byte>, digests: seq<(nat, nat)>, v: nat)
    requires IsValid(k)
  {
    && AreDigests(k, hmac, secret, digests)
    && (forall i | 1 <= i < |digests| :: digests[i].0 < v)
    && (forall w | w in k.peppers && (w < v || w == k.current) :: HasVersion(digests, w))
  }

  lemma OneMoreDigest(k: Keyring, hmac: Hmac, secret: seq<F.Byte>, digests: seq<(nat, nat)>, v: Version)
    requires IsValid(k) && AreDigestsBelow(k, hmac, secret, digests, v)
    ensures v in k.peppers && v != k.current ==>
              AreDigestsBelow(k, hmac, secret, digests + [(v, hmac(k.peppers[v], secret))], v + 1)
    ensures v !in k.peppers || v == k.current ==> AreDigestsBelow(k, hmac, secret, digests, v + 1)
  {
    hide HasVersion;
    if v in k.peppers && v != k.current {
      HasVersionsToo(digests, (v, hmac(k.peppers[v], secret)));
    }
  }

  lemma FirstDigest(k: Keyring, hmac: Hmac, secret: seq<F.Byte>)
    requires IsValid(k)
    ensures AreDigestsBelow(k, hmac, secret, [(k.current, hmac(k.peppers[k.current], secret))], 0)
  {
    HasVersionsToo([], (k.current, hmac(k.peppers[k.current], secret)));
    assert [] + [(k.current, hmac(k.peppers[k.current], secret))] == [(k.current, hmac(k.peppers[k.current], secret))];
  }

  method DigestAll(k: Keyring, hmac: Hmac, secret: seq<F.Byte>) returns (digests: seq<(nat, nat)>)
    requires IsValid(k)
    ensures AreDigests(k, hmac, secret, digests) && CoversKeyring(k, digests)
  {
    digests := [(k.current, hmac(k.peppers[k.current], secret))];
    FirstDigest(k, hmac, secret);
    for v := 0 to 0x1_0000
      invariant AreDigestsBelow(k, hmac, secret, digests, v)
    {
      OneMoreDigest(k, hmac, secret, digests, v);
      if v in k.peppers && v != k.current {
        digests := digests + [(v, hmac(k.peppers[v], secret))];
      }
    }
  }

  method ParseAndDigest(k: Keyring, hmac: Hmac, token: string) returns (r: Option<Presented>)
    requires IsValid(k)
    ensures r.Some? <==> ParseToken(token).Some?
    ensures r.Some? ==> && r.value.id == ParseToken(token).value.0 && HasDistinctVersions(r.value)
                        && AreDigests(k, hmac, ParseToken(token).value.1, r.value.digests)
                        && CoversKeyring(k, r.value.digests)
  {
    var parsed := ParseToken(token);
    if parsed.None? {
      return None;
    }
    var digests := DigestAll(k, hmac, parsed.value.1);
    return Some(Presented(parsed.value.0, digests));
  }

  // Presenting an issued token undoes issuing it: the same id, and as the first credential to try the very
  // hash and version that were stored.
  method PresentIssued(k: Keyring, hmac: Hmac, id: Uuids.Uuid, secret: seq<F.Byte>)
    returns (issued: Issued, presented: Option<Presented>)
    requires IsValid(k) && |secret| == REFRESH_SECRET_BYTES
    ensures presented.Some? && presented.value.id == id
    ensures |presented.value.digests| > 0 && presented.value.digests[0] == (issued.version, issued.hash)
  {
    issued := Issue(k, hmac, id, secret);
    presented := ParseAndDigest(k, hmac, issued.value);
  }
}

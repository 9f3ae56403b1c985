// Keys derived from the current pepper: the message under the MAC names its domain and its value without
// ambiguity, and is never a message that the digest of a refresh secret uses.
module KeyDerivation {
  import opened Wrappers
  import opened F = Framing
  import opened RefreshTokens

  const LABEL: string := "ai-image-factory-key-derivation-v1\0"
  const MAX_DOMAIN_BYTES: nat := 128
  const MAX_VALUE_BYTES: nat := 4096

  function Ascii(s: string): (b: seq<Byte>)
    requires forall i | 0 <= i < |s| :: s[i] as int < 128
    ensures |b| == |s|
  {
    seq(|s|, i requires 0 <= i < |s| => s[i] as Byte)
  }

  // A length as four bytes, the most significant first.
  function BigEndian(n: nat): (b: seq<Byte>)
    requires n < 0x1_0000_0000
    ensures |b| == 4
  {
    var high := n / 0x100 / 0x100;
    [(high / 0x100) as Byte, (high % 0x100) as Byte, (n / 0x100 % 0x100) as Byte, (n % 0x100) as Byte]
  }

  lemma BigEndianIsInjective(m: nat, n: nat)
    requires m < 0x1_0000_0000 && n < 0x1_0000_0000 && BigEndian(m) == BigEndian(n)
    ensures m == n
  {
    var b, c := BigEndian(m), BigEndian(n);
    assert b[0] == c[0] && b[1] == c[1] && b[2] == c[2] && b[3] == c[3];
  }

  predicate IsDerivable(domain: seq<Byte>, value: seq<Byte>) {
    0 < |domain| <= MAX_DOMAIN_BYTES && |value| <= MAX_VALUE_BYTES
  }

  function Message(domain: seq<Byte>, value: seq<Byte>): (m: seq<Byte>)
    requires IsDerivable(domain, value)
    ensures |m| == |LABEL| + 8 + |domain| + |value|
  {
    Ascii(LABEL) + BigEndian(|domain|) + domain + BigEndian(|value|) + value
  }

  lemma SamePrefix(a: seq<Byte>, b: seq<Byte>, c: seq<Byte>, d: seq<Byte>)
    requires |a| == |c| && a + b == c + d
    ensures a == c && b == d
  {
    assert (a + b)[..|a|] == a && (a + b)[|a|..] == b && (c + d)[..|c|] == c && (c + d)[|c|..] == d;
  }

  lemma MessageParts(domain: seq<Byte>, value: seq<Byte>)
    requires IsDerivable(domain, value)
    ensures Message(domain, value) == Ascii(LABEL) + (BigEndian(|domain|) + (domain + (BigEndian(|value|) + value)))
  {
    hide Ascii, BigEndian;
  }

  // Different domains or values give different messages.
  lemma MessageIsInjective(domain: seq<Byte>, value: seq<Byte>, otherDomain: seq<Byte>, otherValue: seq<Byte>)
    requires IsDerivable(domain, value) && IsDerivable(otherDomain, otherValue)
    requires Message(domain, value) == Message(otherDomain, otherValue)
    ensures domain == otherDomain && value == otherValue
  {
    hide Ascii, BigEndian, Message;
    var inner, otherInner := BigEndian(|value|) + value, BigEndian(|otherValue|) + otherValue;
    MessageParts(domain, value);
    MessageParts(otherDomain, otherValue);
    SamePrefix(Ascii(LABEL), BigEndian(|domain|) + (domain + inner), Ascii(LABEL), BigEndian(|otherDomain|) + (otherDomain + otherInner));
    SamePrefix(BigEndian(|domain|), domain + inner, BigEndian(|otherDomain|), otherDomain + otherInner);
    BigEndianIsInjective(|domain|, |otherDomain|);
    SamePrefix(domain, inner, otherDomain, otherInner);
    SamePrefix(BigEndian(|value|), value, BigEndian(|otherValue|), otherValue);
  }

  // A derivation never has the message of a refresh digest, which is the secret alone.
  lemma DerivationIsNoDigest(domain: seq<Byte>, value: seq<Byte>, secret: seq<Byte>)
    requires IsDerivable(domain, value) && |secret| == REFRESH_SECRET_BYTES
    ensures Message(domain, value) != secret
  {
    assert |LABEL| == 35;
  }

  datatype DerivationError = InvalidInput

  // Derives a key step by step, as the message is fed to the MAC.
  method DeriveCurrent(k: Keyring, hmac: Hmac, domain: seq<Byte>, value: seq<Byte>) returns (r: Result<nat, DerivationError>)
    requires IsValid(k)
    ensures r.Ok? <==> IsDerivable(domain, value)
    ensures r.Ok? ==> r.value == hmac(k.peppers[k.current], Message(domain, value))
  {
    if domain == [] || |domain| > MAX_DOMAIN_BYTES || |value| > MAX_VALUE_BYTES {
      return Err(InvalidInput);
    }
    var mac := Ascii(LABEL);
    mac := mac + BigEndian(|domain|);
    mac := mac + domain;
    mac := mac + BigEndian(|value|);
    mac := mac + value;
    return Ok(hmac(k.peppers[k.current], mac));
  }
}

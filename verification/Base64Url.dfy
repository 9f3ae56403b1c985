// The URL-safe alphabet of section 5 of RFC 4648, without padding, decoded strictly: the unused bits of
// the last symbol must be zero.
module Base64Url {
  import opened Wrappers
  import opened F = Framing

  predicate IsSymbol(c: char) {
    'A' <= c <= 'Z' || 'a' <= c <= 'z' || '0' <= c <= '9' || c == '-' || c == '_'
  }

  function Symbol(v: nat): (c: char)
    requires v < 64
    ensures IsSymbol(c) && Value(c) == v
  {
    if v < 26 then ('A' as int + v) as char
    else if v < 52 then ('a' as int + v - 26) as char
    else if v < 62 then ('0' as int + v - 52) as char
    else if v == 62 then '-'
    else '_'
  }

  function Value(c: char): (v: nat)
    requires IsSymbol(c)
    ensures v < 64
  {
    if 'A' <= c <= 'Z' then c as int - 'A' as int
    else if 'a' <= c <= 'z' then c as int - 'a' as int + 26
    else if '0' <= c <= '9' then c as int - '0' as int + 52
    else if c == '-' then 62
    else 63
  }

  lemma SymbolOfValue(c: char)
    requires IsSymbol(c)
    ensures Symbol(Value(c)) == c
  {
  }

  predicate AreSymbols(s: string) {
    forall i | 0 <= i < |s| :: IsSymbol(s[i])
  }

  // Up to three bytes are two to four symbols.

  function EncodeGroup(b: seq<Byte>): (s: string)
    requires 0 < |b| <= 3
    ensures AreSymbols(s) && |s| == |b| + 1
  {
    var x := b[0] as nat;
    if |b| == 1 then [Symbol(x / 4), Symbol(x % 4 * 16)]
    else
      var y := b[1] as nat;
      if |b| == 2 then [Symbol(x / 4), Symbol(x % 4 * 16 + y / 16), Symbol(y % 16 * 4)]
      else
        var z := b[2] as nat;
        [Symbol(x / 4), Symbol(x % 4 * 16 + y / 16), Symbol(y % 16 * 4 + z / 64), Symbol(z % 64)]
  }

  function DecodeGroup(s: string): (b: Option<seq<Byte>>)
    requires 0 < |s| <= 4
    ensures b.Some? ==> AreSymbols(s) && |b.value| + 1 == |s|
  {
    if |s| == 1 || !AreSymbols(s) then None
    else
      var p, q := Value(s[0]), Value(s[1]);
      var x := (p * 4 + q / 16) as Byte;
      if |s| == 2 then if q % 16 == 0 then Some([x]) else None
      else
        var r := Value(s[2]);
        var y := (q % 16 * 16 + r / 4) as Byte;
        if |s| == 3 then if r % 4 == 0 then Some([x, y]) else None
        else Some([x, y, (r % 4 * 64 + Value(s[3])) as Byte])
  }

  function Encode(b: seq<Byte>): (s: string)
    ensures AreSymbols(s) && |s| == (|b| * 4 + 2) / 3
  {
    if b == [] then "" else if |b| <= 3 then EncodeGroup(b) else EncodeGroup(b[..3]) + Encode(b[3..])
  }

  function Decode(s: string): Option<seq<Byte>> {
    if s == "" then Some([])
    else if |s| <= 4 then DecodeGroup(s)
    else
      var group, rest := DecodeGroup(s[..4]), Decode(s[4..]);
      if group.None? || rest.None? then None else Some(group.value + rest.value)
  }

  lemma GroupDecodes(b: seq<Byte>)
    requires 0 < |b| <= 3
    ensures DecodeGroup(EncodeGroup(b)) == Some(b)
  {
    hide Symbol, Value;
    var s := EncodeGroup(b);
    assert DecodeGroup(s).value[0] == b[0];
    if |b| > 1 {
      assert DecodeGroup(s).value[1] == b[1];
    }
    assert DecodeGroup(s).value == b;
  }

  // Every sequence of bytes is recovered from its encoding.
  lemma {:induction false} DecodeEncode(b: seq<Byte>)
    ensures Decode(Encode(b)) == Some(b)
  {
    if |b| > 3 {
      assert Encode(b)[..4] == EncodeGroup(b[..3]) && Encode(b)[4..] == Encode(b[3..]);
      GroupDecodes(b[..3]);
      DecodeEncode(b[3..]);
      assert b == b[..3] + b[3..];
    } else if b != [] {
      GroupDecodes(b);
    }
  }

  // What groups of two, three and four symbols decode to.

  lemma TwoEncode(s: string)
    requires |s| == 2 && DecodeGroup(s).Some?
    ensures EncodeGroup(DecodeGroup(s).value) == s
  {
    hide Symbol, Value;
    var b := DecodeGroup(s).value;
    assert b[0] as nat / 4 == Value(s[0]) && b[0] as nat % 4 * 16 == Value(s[1]);
    SymbolOfValue(s[0]);
    SymbolOfValue(s[1]);
  }

  lemma ThreeEncode(s: string)
    requires |s| == 3 && DecodeGroup(s).Some?
    ensures EncodeGroup(DecodeGroup(s).value) == s
  {
    hide Symbol, Value;
    var b := DecodeGroup(s).value;
    assert b[0] as nat / 4 == Value(s[0]) && b[0] as nat % 4 * 16 + b[1] as nat / 16 == Value(s[1]);
    assert b[1] as nat % 16 * 4 == Value(s[2]);
    SymbolOfValue(s[0]);
    SymbolOfValue(s[1]);
    SymbolOfValue(s[2]);
  }

  lemma FourEncode(s: string)
    requires |s| == 4 && DecodeGroup(s).Some?
    ensures EncodeGroup(DecodeGroup(s).value) == s
  {
    hide Symbol, Value;
    var b := DecodeGroup(s).value;
    assert b[0] as nat / 4 == Value(s[0]) && b[0] as nat % 4 * 16 + b[1] as nat / 16 == Value(s[1]);
    assert b[1] as nat % 16 * 4 + b[2] as nat / 64 == Value(s[2]) && b[2] as nat % 64 == Value(s[3]);
    SymbolOfValue(s[0]);
    SymbolOfValue(s[1]);
    SymbolOfValue(s[2]);
    SymbolOfValue(s[3]);
  }

  lemma GroupEncodes(s: string)
    requires 0 < |s| <= 4 && DecodeGroup(s).Some?
    ensures EncodeGroup(DecodeGroup(s).value) == s
  {
    hide EncodeGroup;
    if |s| == 2 {
      TwoEncode(s);
    } else if |s| == 3 {
      ThreeEncode(s);
    } else {
      FourEncode(s);
    }
  }

  // Only the encoding of some bytes decodes to them.
  lemma {:induction false} EncodeDecode(s: string)
    requires Decode(s).Some?
    ensures Encode(Decode(s).value) == s
  {
    if |s| > 4 {
      GroupEncodes(s[..4]);
      EncodeDecode(s[4..]);
      var group, rest := DecodeGroup(s[..4]).value, Decode(s[4..]).value;
      assert (group + rest)[..3] == group && (group + rest)[3..] == rest;
      assert s == s[..4] + s[4..];
    } else if s != "" {
      GroupEncodes(s);
    }
  }
}

// Uuid parsing and printing as the `uuid` crate documents them: 32 hexadecimal digits, plain,
// hyphenated, braced or with the URN prefix; printed in lower case with hyphens.
module Uuids {
  import opened Wrappers
  import Text

  // An identifier is a 128-bit number; the nil identifier is zero.
  type Uuid = n: nat | n < 0x1_0000_0000_0000_0000_0000_0000_0000_0000

  predicate IsHex(c: char) {
    Text.IsDigit(c) || 'a' <= c <= 'f' || 'A' <= c <= 'F'
  }

  function HexChar(d: nat): (c: char)
    requires d < 16
    ensures IsHex(c) && HexValue(c) == d && c != '-'
  {
    if d < 10 then ('0' as int + d) as char else ('a' as int + d - 10) as char
  }

  function HexValue(c: char): (d: nat)
    requires IsHex(c)
    ensures d < 16
  {
    if Text.IsDigit(c) then c as int - '0' as int
    else if 'a' <= c then c as int - 'a' as int + 10
    else c as int - 'A' as int + 10
  }

  // The number of a given width, most significant digit first.
  function Hex(n: nat, width: nat): (s: string)
    ensures |s| == width && forall i | 0 <= i < width :: IsHex(s[i])
  {
    if width == 0 then "" else Hex(n / 16, width - 1) + [HexChar(n % 16)]
  }

  function Value(s: string): nat
    requires forall i | 0 <= i < |s| :: IsHex(s[i])
  {
    if s == "" then 0 else 16 * Value(s[..|s| - 1]) + HexValue(s[|s| - 1])
  }

  function Pow16(width: nat): nat {
    if width == 0 then 1 else 16 * Pow16(width - 1)
  }

  lemma {:induction false} ValueBelow(s: string)
    requires forall i | 0 <= i < |s| :: IsHex(s[i])
    ensures Value(s) < Pow16(|s|)
  {
    if s != "" {
      ValueBelow(s[..|s| - 1]);
    }
  }

  lemma Pow16At32()
    ensures Pow16(32) == 0x1_0000_0000_0000_0000_0000_0000_0000_0000
  {
    assert Pow16(8) == 0x1_0000_0000;
    assert Pow16(16) == 0x1_0000_0000_0000_0000;
    assert Pow16(24) == 0x1_0000_0000_0000_0000_0000_0000;
  }

  lemma {:induction false} ValueOfHex(n: nat, width: nat)
    requires n < Pow16(width)
    ensures Value(Hex(n, width)) == n
  {
    if width > 0 {
      ValueOfHex(n / 16, width - 1);
      assert Hex(n, width)[..width - 1] == Hex(n / 16, width - 1);
    }
  }

  function Print(id: Uuid): (text: string)
    ensures |text| == 36 && forall i | 0 <= i < 36 :: IsHex(text[i]) || text[i] == '-'
  {
    var d := Hex(id, 32);
    d[..8] + "-" + d[8..12] + "-" + d[12..16] + "-" + d[16..20] + "-" + d[20..]
  }

  function ParseDigits(s: string): Option<Uuid> {
    if |s| == 32 && forall i | 0 <= i < 32 :: IsHex(s[i]) then
      ValueBelow(s);
      Pow16At32();
      Some(Value(s))
    else None
  }

  function ParseHyphenated(s: string): Option<Uuid> {
    if |s| == 36 && s[8] == '-' && s[13] == '-' && s[18] == '-' && s[23] == '-'
    then ParseDigits(s[..8] + s[9..13] + s[14..18] + s[19..23] + s[24..])
    else None
  }

  function Parse(s: string): Option<Uuid> {
    if |s| == 32 then ParseDigits(s)
    else if |s| == 36 then ParseHyphenated(s)
    else if |s| == 38 && s[0] == '{' && s[37] == '}' then ParseHyphenated(s[1..37])
    else if |s| == 45 && s[..9] == "urn:uuid:" then ParseHyphenated(s[9..])
    else None
  }

  lemma Hyphenated(d: string)
    requires |d| == 32
    ensures var s := d[..8] + "-" + d[8..12] + "-" + d[12..16] + "-" + d[16..20] + "-" + d[20..];
            && |s| == 36 && s[8] == '-' && s[13] == '-' && s[18] == '-' && s[23] == '-'
            && s[..8] + s[9..13] + s[14..18] + s[19..23] + s[24..] == d
  {
    var s := d[..8] + "-" + d[8..12] + "-" + d[12..16] + "-" + d[16..20] + "-" + d[20..];
    assert s[..8] == d[..8] && s[9..13] == d[8..12] && s[14..18] == d[12..16] && s[19..23] == d[16..20] && s[24..] == d[20..];
  }

  // Every identifier is recovered from its printed form.
  lemma ParsePrint(id: Uuid)
    ensures Parse(Print(id)) == Some(id)
  {
    hide Hex, Value, Pow16;
    Hyphenated(Hex(id, 32));
    Pow16At32();
    ValueOfHex(id, 32);
  }
}

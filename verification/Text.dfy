// Text as sequences of characters, with the ASCII-only operations the gateway uses.
module Text {

  predicate IsDigit(c: char) {
    '0' <= c <= '9'
  }

  predicate IsAlphanumeric(c: char) {
    IsDigit(c) || 'a' <= c <= 'z' || 'A' <= c <= 'Z'
  }

  predicate IsWhitespace(c: char) {
    c == ' ' || c == '\t' || c == '\n' || c == '\r' || c as int == 12
  }

  function LowerChar(c: char): char {
    if 'A' <= c <= 'Z' then (c as int + 32) as char else c
  }

  function Lower(s: string): string {
    seq(|s|, i requires 0 <= i < |s| => LowerChar(s[i]))
  }

  predicate MatchesAt(s: string, needle: string, i: nat) {
    i + |needle| <= |s| && s[i..i + |needle|] == needle
  }

  predicate Contains(s: string, needle: string) {
    exists i | 0 <= i <= |s| :: MatchesAt(s, needle, i)
  }

  predicate ContainsAny(s: string, needles: seq<string>) {
    exists k | 0 <= k < |needles| :: Contains(s, needles[k])
  }

  method SearchAny(s: string, needles: seq<string>) returns (found: bool)
    ensures found <==> ContainsAny(s, needles)
  {
    found := false;
    for k := 0 to |needles|
      invariant found <==> exists m | 0 <= m < k :: Contains(s, needles[m])
    {
      found := found || Contains(s, needles[k]);
    }
  }

  // The index of the first occurrence of needle at or after from, or -1.
  function Find(s: string, needle: string, from: nat := 0): (i: int)
    requires from <= |s|
    ensures i >= 0 ==> from <= i && MatchesAt(s, needle, i)
    ensures forall j | from <= j <= |s| && (i < 0 || j < i) :: !MatchesAt(s, needle, j)
    decreases |s| - from
  {
    if MatchesAt(s, needle, from) then from
    else if from == |s| then -1
    else Find(s, needle, from + 1)
  }

  predicate HasPrefix(s: string, prefix: string) {
    |prefix| <= |s| && s[..|prefix|] == prefix
  }

  lemma NoPrefix(s: string, prefix: string, i: nat)
    requires i < |s| && i < |prefix| && s[i] != prefix[i]
    ensures !HasPrefix(s, prefix)
  {
    if |prefix| <= |s| {
      assert s[..|prefix|][i] == s[i];
    }
  }

  // Splitting at every occurrence of a separator; the inverse of Join below.
  function Split(s: string, sep: char): (parts: seq<string>)
    ensures |parts| >= 1
  {
    if s == "" then [""]
    else
      var rest := Split(s[1..], sep);
      if s[0] == sep then [""] + rest else [[s[0]] + rest[0]] + rest[1..]
  }

  function Join(parts: seq<string>, sep: char): string {
    if |parts| == 0 then ""
    else if |parts| == 1 then parts[0]
    else parts[0] + [sep] + Join(parts[1..], sep)
  }

  lemma {:induction false} SplitPiece(piece: string, rest: string, sep: char)
    requires sep !in piece
    ensures Split(piece, sep) == [piece]
    ensures Split(piece + [sep] + rest, sep) == [piece] + Split(rest, sep)
  {
    if piece == "" {
      assert (piece + [sep] + rest)[1..] == rest;
    } else {
      SplitPiece(piece[1..], rest, sep);
      assert (piece + [sep] + rest)[1..] == piece[1..] + [sep] + rest;
      assert [piece[0]] + piece[1..] == piece;
    }
  }

  // Join followed by Split gives back any non-empty list of separator-free parts.
  lemma {:induction false} SplitJoin(parts: seq<string>, sep: char)
    requires |parts| >= 1
    requires forall k | 0 <= k < |parts| :: sep !in parts[k]
    ensures Split(Join(parts, sep), sep) == parts
  {
    if |parts| == 1 {
      SplitPiece(parts[0], "", sep);
    } else {
      SplitPiece(parts[0], Join(parts[1..], sep), sep);
      SplitJoin(parts[1..], sep);
      assert parts == [parts[0]] + parts[1..];
    }
  }

  // The first part of a split is the text before the first separator.
  lemma {:induction false} SplitHead(s: string, prefix: string, sep: char)
    requires HasPrefix(s, prefix) && sep !in prefix
    ensures HasPrefix(Split(s, sep)[0], prefix)
  {
    if prefix != "" {
      assert s[1..][..|prefix| - 1] == s[..|prefix|][1..];
      SplitHead(s[1..], prefix[1..], sep);
    }
  }
}

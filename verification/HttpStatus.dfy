// The scanner that finds HTTP statuses in captured diagnostics, and what it means for one to be there.
module HttpStatus {
  import opened Text

  predicate IsWord(c: char) {
    IsAlphanumeric(c) || c == '_'
  }

  // "http" at i, not preceded by a word character.
  predicate MarkerAt(s: string, i: nat) {
    MatchesAt(s, "http", i) && (i == 0 || !IsWord(s[i - 1]))
  }

  predicate AllWhitespace(s: string, from: nat, to: nat)
    requires to <= |s|
  {
    forall k | from <= k < to :: IsWhitespace(s[k])
  }

  // Exactly three digits at start, not continued by a word character.
  predicate CodeAt(s: string, start: nat) {
    && start + 3 <= |s|
    && IsDigit(s[start]) && IsDigit(s[start + 1]) && IsDigit(s[start + 2])
    && (start + 3 == |s| || !IsWord(s[start + 3]))
  }

  function DigitValue(c: char): int
    requires IsDigit(c)
  {
    c as int - '0' as int
  }

  function CodeValue(s: string, start: nat): int
    requires CodeAt(s, start)
  {
    100 * DigitValue(s[start]) + 10 * DigitValue(s[start + 1]) + DigitValue(s[start + 2])
  }

  // A marker at i, then whitespace only (at least one), then the status at start.
  predicate StatusAt(s: string, i: nat, start: nat, status: int) {
    && MarkerAt(s, i) && i + 4 < start && CodeAt(s, start)
    && AllWhitespace(s, i + 4, start) && CodeValue(s, start) == status
  }

  predicate StatusFrom(s: string, i: nat, status: int) {
    exists start | 0 <= start < |s| :: StatusAt(s, i, start, status)
  }

  // The text names the HTTP status.
  predicate Names(s: string, status: int) {
    100 <= status <= 599 && exists i | 0 <= i < |s| :: StatusFrom(s, i, status)
  }

  // What one marker position contributes: the status it is followed by, or nothing.
  method StatusAfterMarker(s: string, i: nat) returns (found: bool, status: int)
    requires MarkerAt(s, i)
    ensures found ==> StatusFrom(s, i, status)
    ensures forall v :: StatusFrom(s, i, v) ==> found && v == status
  {
    found, status := false, 0;
    var cursor := i + 4;
    if cursor >= |s| || !IsWhitespace(s[cursor]) {
      return;
    }
    while cursor < |s| && IsWhitespace(s[cursor])
      invariant i + 4 <= cursor <= |s| && AllWhitespace(s, i + 4, cursor)
      invariant cursor < |s| && cursor == i + 4 ==> IsWhitespace(s[cursor])
    {
      cursor := cursor + 1;
    }
    var start := cursor;
    // Any status after this marker begins exactly here.
    assert forall other, v | StatusAt(s, i, other, v) :: other == start;
    while cursor < |s| && IsDigit(s[cursor])
      invariant start <= cursor <= |s|
      invariant forall k | start <= k < cursor :: IsDigit(s[k])
    {
      cursor := cursor + 1;
    }
    if cursor - start != 3 || (cursor < |s| && IsWord(s[cursor])) {
      return;
    }
    found, status := true, CodeValue(s, start);
    assert StatusAt(s, i, start, status);
  }

  lemma LeastInFront(least: int, xs: seq<int>)
    requires Increasing(xs) && forall v | v in xs :: v > least
    ensures Increasing([least] + xs)
    ensures forall v :: v in [least] + xs <==> v == least || v in xs
  {
    forall j | 0 <= j < |xs| ensures xs[j] > least {
      assert xs[j] in xs;
    }
  }

  // The statuses from a lower bound up that the text names, in increasing order.
  function StatusesFrom(s: string, low: int): (statuses: seq<int>)
    requires 100 <= low <= 600
    ensures Increasing(statuses)
    ensures forall v :: v in statuses <==> low <= v && Names(s, v)
    decreases 600 - low
  {
    if low == 600 then []
    else
      var rest := StatusesFrom(s, low + 1);
      LeastInFront(low, rest);
      if Names(s, low) then [low] + rest else rest
  }

  function Statuses(s: string): seq<int> {
    StatusesFrom(s, 100)
  }

  // Scanning returns exactly the statuses the text names, in strictly increasing order.
  method ObservedHttpStatuses(s: string) returns (statuses: seq<int>)
    ensures Increasing(statuses)
    ensures forall v :: v in statuses <==> Names(s, v)
    ensures statuses == Statuses(s)
  {
    statuses := [];
    var index := 0;
    while index + 3 < |s|
      invariant 0 <= index && (index + 3 <= |s| || index == 0)
      invariant Distinct(statuses)
      invariant forall v :: v in statuses <==> 100 <= v <= 599 && exists i | 0 <= i < index :: StatusFrom(s, i, v)
    {
      ghost var before := statuses;
      if MarkerAt(s, index) {
        var found, status := StatusAfterMarker(s, index);
        if found && 100 <= status <= 599 && status !in statuses {
          statuses := statuses + [status];
        }
        assert forall v :: v in statuses <==> v in before || (100 <= v <= 599 && StatusFrom(s, index, v));
      } else {
        assert forall v :: !StatusFrom(s, index, v);
      }
      index := index + 1;
    }
    assert forall i: nat, v | StatusFrom(s, i, v) :: i + 3 < |s|;
    SortMeaning(statuses);
    statuses := Sort(statuses);
    IncreasingUnique(statuses, Statuses(s));
  }

  predicate Distinct(xs: seq<int>) {
    forall i, j | 0 <= i < j < |xs| :: xs[i] != xs[j]
  }

  predicate Increasing(xs: seq<int>) {
    forall i, j | 0 <= i < j < |xs| :: xs[i] < xs[j]
  }

  // The first of an increasing sequence is its least; the others are the rest.
  lemma FirstIsLeast(xs: seq<int>)
    requires Increasing(xs) && xs != []
    ensures xs[0] in xs && Increasing(xs[1..])
    ensures forall v | v in xs :: v >= xs[0]
    ensures forall v :: v in xs[1..] <==> v in xs && v != xs[0]
  {
    assert xs == [xs[0]] + xs[1..];
  }

  lemma HasFirst(xs: seq<int>)
    ensures (xs != [] ==> xs[0] in xs) && (forall v | v in xs :: |xs| > 0)
  {
  }

  // Two increasing sequences with the same elements are the same sequence.
  lemma {:induction false} IncreasingUnique(xs: seq<int>, ys: seq<int>)
    requires Increasing(xs) && Increasing(ys)
    requires forall v :: v in xs <==> v in ys
    ensures xs == ys
  {
    HasFirst(xs);
    HasFirst(ys);
    if xs == [] {
      assert ys == [];
    } else {
      hide Increasing;
      FirstIsLeast(xs);
      FirstIsLeast(ys);
      IncreasingUnique(xs[1..], ys[1..]);
      assert xs == [xs[0]] + xs[1..] && ys == [ys[0]] + ys[1..];
    }
  }

  function Insert(x: int, xs: seq<int>): seq<int> {
    if xs == [] || x <= xs[0] then [x] + xs else [xs[0]] + Insert(x, xs[1..])
  }

  function Sort(xs: seq<int>): seq<int> {
    if xs == [] then [] else Insert(xs[0], Sort(xs[1..]))
  }

  lemma {:induction false} InsertMeaning(x: int, xs: seq<int>)
    requires Increasing(xs) && x !in xs
    ensures Increasing(Insert(x, xs))
    ensures forall v :: v in Insert(x, xs) <==> v == x || v in xs
  {
    if xs != [] && x > xs[0] {
      InsertMeaning(x, xs[1..]);
      assert xs == [xs[0]] + xs[1..];
      var rest := Insert(x, xs[1..]);
      forall j | 0 <= j < |rest| ensures xs[0] < rest[j] {
        assert rest[j] in rest;
        if rest[j] != x {
          var m :| 0 <= m < |xs[1..]| && xs[1..][m] == rest[j];
          assert xs[m + 1] == rest[j];
        }
      }
    }
  }

  // Sorting distinct numbers keeps exactly the same numbers, increasing.
  lemma {:induction false} SortMeaning(xs: seq<int>)
    requires Distinct(xs)
    ensures Increasing(Sort(xs))
    ensures forall v :: v in Sort(xs) <==> v in xs
  {
    if xs != [] {
      SortMeaning(xs[1..]);
      InsertMeaning(xs[0], Sort(xs[1..]));
      assert xs == [xs[0]] + xs[1..];
    }
  }
}

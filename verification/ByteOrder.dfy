// Names as bytes, their order, and sorting: the result depends on the names alone.
module ByteOrder {
  import F = Framing

  type Name = seq<F.Byte>

  predicate Less(a: Name, b: Name) {
    b != [] && (a == [] || a[0] < b[0] || (a[0] == b[0] && Less(a[1..], b[1..])))
  }

  lemma {:induction false} LessIsTransitive(a: Name, b: Name, c: Name)
    requires Less(a, b) && Less(b, c)
    ensures Less(a, c)
  {
    if a != [] && a[0] == b[0] && b[0] == c[0] {
      LessIsTransitive(a[1..], b[1..], c[1..]);
    }
  }

  lemma {:induction false} LessIsTotal(a: Name, b: Name)
    ensures Less(a, b) || Less(b, a) || a == b
    ensures !(Less(a, b) && Less(b, a)) && !Less(a, a)
    decreases |a|
  {
    if a != [] && b != [] {
      LessIsTotal(a[1..], b[1..]);
      LessIsTotal(a[1..], a[1..]);
    } else if a != [] {
      LessIsTotal(a[1..], a[1..]);
    }
  }

  predicate IsDistinct(names: seq<Name>) {
    forall i, j | 0 <= i < j < |names| :: names[i] != names[j]
  }

  predicate IsAscending(names: seq<Name>) {
    forall i, j | 0 <= i < j < |names| :: Less(names[i], names[j])
  }

  function Insert(name: Name, sorted: seq<Name>): seq<Name> {
    if sorted == [] || Less(name, sorted[0]) then [name] + sorted
    else [sorted[0]] + Insert(name, sorted[1..])
  }

  function Sort(names: seq<Name>): seq<Name> {
    if names == [] then [] else Insert(names[0], Sort(names[1..]))
  }

  lemma {:induction false} InsertKeeps(name: Name, sorted: seq<Name>)
    ensures multiset(Insert(name, sorted)) == multiset{name} + multiset(sorted)
  {
    if sorted != [] {
      assert sorted == [sorted[0]] + sorted[1..];
      if !Less(name, sorted[0]) {
        InsertKeeps(name, sorted[1..]);
      }
    }
  }

  lemma {:induction false} SortKeeps(names: seq<Name>)
    ensures multiset(Sort(names)) == multiset(names)
  {
    if names != [] {
      assert names == [names[0]] + names[1..];
      SortKeeps(names[1..]);
      InsertKeeps(names[0], Sort(names[1..]));
    }
  }

  lemma SameMembers(a: seq<Name>, b: seq<Name>, name: Name)
    requires multiset(a) == multiset(b)
    ensures name in a <==> name in b
  {
    assert name in a <==> name in multiset(a);
    assert name in b <==> name in multiset(b);
  }

  lemma MemberAt(names: seq<Name>, sorted: seq<Name>, k: nat)
    requires multiset(sorted) == multiset(names) && k < |sorted|
    ensures sorted[k] in names
  {
    assert sorted[k] in multiset(sorted);
  }

  lemma {:induction false} InsertAscends(name: Name, sorted: seq<Name>)
    requires IsAscending(sorted) && name !in sorted
    ensures IsAscending(Insert(name, sorted))
  {
    if sorted != [] {
      if Less(name, sorted[0]) {
        forall k | 0 <= k < |sorted| ensures Less(name, sorted[k]) {
          if k > 0 { LessIsTransitive(name, sorted[0], sorted[k]); }
        }
      } else {
        var rest := Insert(name, sorted[1..]);
        InsertAscends(name, sorted[1..]);
        InsertKeeps(name, sorted[1..]);
        LessIsTotal(name, sorted[0]);
        forall k | 0 <= k < |rest| ensures Less(sorted[0], rest[k]) {
          assert rest[k] in multiset(rest);
        }
      }
    }
  }

  lemma {:induction false} SortAscends(names: seq<Name>)
    requires IsDistinct(names)
    ensures IsAscending(Sort(names))
  {
    if names != [] {
      SortAscends(names[1..]);
      SortKeeps(names[1..]);
      SameMembers(Sort(names[1..]), names[1..], names[0]);
      InsertAscends(names[0], Sort(names[1..]));
    }
  }

  lemma WithoutFirst(names: seq<Name>)
    requires names != []
    ensures multiset(names[1..]) == multiset(names) - multiset{names[0]} && names == [names[0]] + names[1..]
  {
    assert names == [names[0]] + names[1..];
  }

  lemma RestAscends(names: seq<Name>)
    requires IsAscending(names) && names != []
    ensures IsAscending(names[1..])
  {
    hide Less;
  }

  lemma SameFirst(a: seq<Name>, b: seq<Name>)
    requires IsAscending(a) && IsAscending(b) && multiset(a) == multiset(b) && a != [] && b != []
    ensures a[0] == b[0]
  {
    MemberAt(b, a, 0);
    MemberAt(a, b, 0);
    LessIsTotal(a[0], b[0]);
  }

  // There is only one way to put names in strictly ascending order.
  lemma {:induction false} AscendingIsUnique(a: seq<Name>, b: seq<Name>)
    requires IsAscending(a) && IsAscending(b) && multiset(a) == multiset(b)
    ensures a == b
  {
    if a == [] {
      assert |multiset(b)| == 0;
    } else {
      hide Less, IsAscending;
      assert |multiset(a)| == |multiset(b)|;
      SameFirst(a, b);
      RestAscends(a);
      RestAscends(b);
      WithoutFirst(a);
      WithoutFirst(b);
      AscendingIsUnique(a[1..], b[1..]);
    }
  }

  // The order in which distinct names are listed does not matter.
  lemma SortForgetsOrder(a: seq<Name>, b: seq<Name>)
    requires IsDistinct(a) && multiset(a) == multiset(b)
    ensures Sort(a) == Sort(b)
  {
    SortKeeps(a);
    SortKeeps(b);
    forall i, j | 0 <= i < j < |b| ensures b[i] != b[j] {
      SameMultiset(a, b, i, j);
    }
    SortAscends(a);
    SortAscends(b);
    AscendingIsUnique(Sort(a), Sort(b));
  }

  lemma {:induction false} DistinctOnce(a: seq<Name>, name: Name)
    requires IsDistinct(a)
    ensures multiset(a)[name] <= 1
  {
    if a != [] {
      assert a == [a[0]] + a[1..];
      DistinctOnce(a[1..], name);
    }
  }

  lemma SameMultiset(a: seq<Name>, b: seq<Name>, i: nat, j: nat)
    requires IsDistinct(a) && multiset(a) == multiset(b) && i < j < |b|
    ensures b[i] != b[j]
  {
    DistinctOnce(a, b[i]);
    assert b == b[..i] + [b[i]] + b[i + 1..j] + [b[j]] + b[j + 1..];
  }
}

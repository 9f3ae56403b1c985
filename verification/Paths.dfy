// Absolute paths compared component by component, as the gateway compares them.
module Paths {
  import Text

  datatype Path = Path(rooted: bool, parts: seq<string>)

  // Empty components and "." do not count.
  function Significant(parts: seq<string>): seq<string> {
    if parts == [] then []
    else (if parts[0] == "" || parts[0] == "." then [] else [parts[0]]) + Significant(parts[1..])
  }

  function Parse(s: string): Path {
    Path(s != "" && s[0] == '/', Significant(Text.Split(s, '/')))
  }

  function Under(p: Path, parts: seq<string>): Path {
    Path(p.rooted, p.parts + parts)
  }

  // A rooted path whose components all count.
  predicate IsCanonical(p: Path) {
    && p.rooted
    && forall k | 0 <= k < |p.parts| :: '/' !in p.parts[k] && p.parts[k] != "" && p.parts[k] != "."
  }

  function Render(p: Path): string {
    "/" + Text.Join(p.parts, '/')
  }

  lemma {:induction false} SignificantPlain(parts: seq<string>)
    requires forall k | 0 <= k < |parts| :: parts[k] != "" && parts[k] != "."
    ensures Significant(parts) == parts
  {
    if parts != [] {
      SignificantPlain(parts[1..]);
    }
  }

  // A canonical path is recovered from its text.
  lemma ParseRender(p: Path)
    requires IsCanonical(p)
    ensures Parse(Render(p)) == p
  {
    var s := Render(p);
    assert s[0] == '/' && s[1..] == Text.Join(p.parts, '/');
    assert Text.Split(s, '/') == [""] + Text.Split(s[1..], '/');
    if p.parts != [] {
      Text.SplitJoin(p.parts, '/');
      assert ([""] + p.parts)[1..] == p.parts;
      SignificantPlain(p.parts);
    } else {
      assert Text.Split(s, '/') == ["", ""];
      assert ["", ""][1..] == [""];
      assert Significant([""]) == [];
    }
  }
}

// A file system of inodes and names, and what can be said of the trees in it. A directory lists its
// entries in an order of its own; two names may share an inode unless it is a directory.
module FileTrees {
  import opened Wrappers

  datatype Id = Id(device: nat, number: nat)

  // The owner's permission bits, and all the others as one number.
  datatype Mode = Mode(read: bool, write: bool, search: bool, others: nat)

  const RWXU: Mode := Mode(true, true, true, 0)

  datatype Dirent = Dirent(name: string, id: Id)

  datatype Inode =
    | Directory(owner: nat, mode: Mode, entries: seq<Dirent>)
    | Symlink(owner: nat, mode: Mode, target: string)
    | Regular(owner: nat, mode: Mode, content: seq<bv8>)

  type Inodes = map<Id, Inode>

  predicate IsDirectory(fs: Inodes, id: Id) {
    id in fs && fs[id].Directory?
  }

  function EntriesOf(fs: Inodes, id: Id): seq<Dirent> {
    if IsDirectory(fs, id) then fs[id].entries else []
  }

  predicate IsDots(name: string) {
    name == "." || name == ".."
  }

  predicate Named(entries: seq<Dirent>, name: string) {
    exists k | 0 <= k < |entries| :: entries[k].name == name
  }

  // The following are about the entries of a directory, looking a number of levels down: the directory
  // itself is the first.

  // The number of entries, nested ones included.
  function Size(fs: Inodes, entries: seq<Dirent>, levels: nat): nat
    decreases levels, |entries|
  {
    if levels == 0 || entries == [] then 0
    else 1 + Size(fs, EntriesOf(fs, entries[0].id), levels - 1) + Size(fs, entries[1..], levels)
  }

  // The directories below.
  function Reach(fs: Inodes, entries: seq<Dirent>, levels: nat): set<Id>
    decreases levels, |entries|, 1
  {
    if levels == 0 || entries == [] then {}
    else ReachOf(fs, entries[0], levels) + Reach(fs, entries[1..], levels)
  }

  function ReachOf(fs: Inodes, entry: Dirent, levels: nat): set<Id>
    requires levels > 0
    decreases levels, 0, 0
  {
    if IsDirectory(fs, entry.id) then {entry.id} + Reach(fs, EntriesOf(fs, entry.id), levels - 1) else {}
  }

  // Names are distinct and proper, inodes exist, and no directory is met twice.
  predicate IsTree(fs: Inodes, entries: seq<Dirent>, levels: nat)
    decreases levels, |entries|
  {
    levels > 0 && entries != [] ==>
      var entry, rest := entries[0], entries[1..];
      && entry.id in fs && !IsDots(entry.name) && !Named(rest, entry.name)
      && ReachOf(fs, entry, levels) !! Reach(fs, rest, levels)
      && entry.id !in Reach(fs, EntriesOf(fs, entry.id), levels - 1)
      && IsTree(fs, EntriesOf(fs, entry.id), levels - 1) && IsTree(fs, rest, levels)
  }

  predicate IsTreeAt(fs: Inodes, id: Id, levels: nat) {
    IsDirectory(fs, id) && id !in Reach(fs, EntriesOf(fs, id), levels) && IsTree(fs, EntriesOf(fs, id), levels)
  }

  // What may be deleted: everything belongs to the user, every directory is on the device, can be
  // listed and changed, and lies within the levels.

  predicate CanEmpty(fs: Inodes, id: Id) {
    IsDirectory(fs, id) && (EntriesOf(fs, id) != [] ==> fs[id].mode.search && fs[id].mode.write)
  }

  predicate Clearable(fs: Inodes, user: nat, device: nat, entries: seq<Dirent>, levels: nat)
    decreases levels, |entries|, 1
  {
    && levels > 0
    && (entries != [] ==> ClearableEntry(fs, user, device, entries[0], levels)
                          && Clearable(fs, user, device, entries[1..], levels))
  }

  predicate ClearableEntry(fs: Inodes, user: nat, device: nat, entry: Dirent, levels: nat)
    requires levels > 0
    decreases levels, 0, 0
  {
    && entry.id in fs && fs[entry.id].owner == user
    && (IsDirectory(fs, entry.id) ==>
          entry.id.device == device && fs[entry.id].mode.read && ClearableAt(fs, user, device, entry.id, levels - 1))
  }

  predicate ClearableAt(fs: Inodes, user: nat, device: nat, id: Id, levels: nat)
    decreases levels, |EntriesOf(fs, id)|, 2
  {
    CanEmpty(fs, id) && Clearable(fs, user, device, EntriesOf(fs, id), levels)
  }

  // ---- Changes ----

  predicate SameAttributes(a: Inode, b: Inode) {
    if a.Directory? then b.Directory? && a.owner == b.owner && a.mode == b.mode else a == b
  }

  // Only the entries of some directories have changed.
  predicate ChangedIn(before: Inodes, after: Inodes, places: set<Id>) {
    && before.Keys == after.Keys
    && (forall id | id in before :: SameAttributes(before[id], after[id]))
    && (forall id | id in before && id !in places :: before[id] == after[id])
  }

  // A tree that no change touches is the same tree.
  lemma {:induction false} TreeUntouched(before: Inodes, after: Inodes, places: set<Id>, entries: seq<Dirent>, levels: nat)
    requires ChangedIn(before, after, places) && Reach(before, entries, levels) !! places
    ensures Reach(after, entries, levels) == Reach(before, entries, levels)
    ensures Size(after, entries, levels) == Size(before, entries, levels)
    ensures IsTree(after, entries, levels) == IsTree(before, entries, levels)
    decreases levels, |entries|
  {
    if levels > 0 && entries != [] {
      TreeUntouched(before, after, places, EntriesOf(before, entries[0].id), levels - 1);
      TreeUntouched(before, after, places, entries[1..], levels);
    }
  }

  lemma {:induction false} ClearableUntouched(
      before: Inodes, after: Inodes, places: set<Id>, user: nat, device: nat, entries: seq<Dirent>, levels: nat)
    requires ChangedIn(before, after, places) && Reach(before, entries, levels) !! places
    ensures Clearable(after, user, device, entries, levels) == Clearable(before, user, device, entries, levels)
    decreases levels, |entries|
  {
    if levels > 0 && entries != [] {
      var id := entries[0].id;
      ClearableUntouched(before, after, places, user, device, EntriesOf(before, id), levels - 1);
      assert IsDirectory(before, id) ==> id in ReachOf(before, entries[0], levels) && id !in places;
      assert ClearableAt(after, user, device, id, levels - 1) == ClearableAt(before, user, device, id, levels - 1);
      ClearableUntouched(before, after, places, user, device, entries[1..], levels);
    }
  }

  // ---- What may be deleted, path by path ----

  // The entry a path leads to; a path is the position taken in each directory on the way.
  function Walk(fs: Inodes, entries: seq<Dirent>, path: seq<nat>): Option<Dirent>
    decreases |path|
  {
    if path == [] || path[0] >= |entries| then None
    else if |path| == 1 then Some(entries[path[0]])
    else Walk(fs, EntriesOf(fs, entries[path[0]].id), path[1..])
  }

  // An entry of the user; a directory among them needs room for its own entries.
  predicate IsDeletable(fs: Inodes, user: nat, device: nat, entry: Dirent, room: int) {
    && entry.id in fs && fs[entry.id].owner == user
    && (IsDirectory(fs, entry.id) ==>
          entry.id.device == device && fs[entry.id].mode.read && CanEmpty(fs, entry.id) && room > 0)
  }

  lemma {:induction false} ClearableHere(fs: Inodes, user: nat, device: nat, entries: seq<Dirent>, levels: nat, k: nat)
    requires Clearable(fs, user, device, entries, levels) && k < |entries|
    ensures ClearableEntry(fs, user, device, entries[k], levels)
    decreases k
  {
    if k > 0 {
      ClearableHere(fs, user, device, entries[1..], levels, k - 1);
    }
  }

  lemma {:induction false} ClearableOnPath(
      fs: Inodes, user: nat, device: nat, entries: seq<Dirent>, levels: nat, path: seq<nat>)
    requires Clearable(fs, user, device, entries, levels) && Walk(fs, entries, path).Some?
    ensures IsDeletable(fs, user, device, Walk(fs, entries, path).value, levels - |path|)
    decreases |path|
  {
    ClearableHere(fs, user, device, entries, levels, path[0]);
    var id := entries[path[0]].id;
    assert IsDirectory(fs, id) ==> Clearable(fs, user, device, EntriesOf(fs, id), levels - 1);
    if |path| > 1 {
      ClearableOnPath(fs, user, device, EntriesOf(fs, id), levels - 1, path[1..]);
    }
  }

  // Every entry on every path may be deleted.
  ghost predicate AllDeletable(fs: Inodes, user: nat, device: nat, entries: seq<Dirent>, levels: nat) {
    forall path | Walk(fs, entries, path).Some? :: IsDeletable(fs, user, device, Walk(fs, entries, path).value, levels - |path|)
  }

  lemma DeletableFirst(fs: Inodes, user: nat, device: nat, entries: seq<Dirent>, levels: nat)
    requires entries != [] && AllDeletable(fs, user, device, entries, levels)
    ensures IsDeletable(fs, user, device, entries[0], levels - 1)
  {
    assert Walk(fs, entries, [0]) == Some(entries[0]);
  }

  lemma DeletableBelow(fs: Inodes, user: nat, device: nat, entries: seq<Dirent>, levels: nat)
    requires levels > 0 && entries != [] && AllDeletable(fs, user, device, entries, levels)
    ensures AllDeletable(fs, user, device, EntriesOf(fs, entries[0].id), levels - 1)
  {
    hide IsDeletable;
    var children := EntriesOf(fs, entries[0].id);
    forall path | Walk(fs, children, path).Some?
      ensures IsDeletable(fs, user, device, Walk(fs, children, path).value, levels - 1 - |path|) {
      assert ([0] + path)[1..] == path;
      assert Walk(fs, entries, [0] + path) == Walk(fs, children, path);
    }
  }

  lemma DeletableRest(fs: Inodes, user: nat, device: nat, entries: seq<Dirent>, levels: nat)
    requires entries != [] && AllDeletable(fs, user, device, entries, levels)
    ensures AllDeletable(fs, user, device, entries[1..], levels)
  {
    hide IsDeletable;
    var rest := entries[1..];
    forall path | Walk(fs, rest, path).Some?
      ensures IsDeletable(fs, user, device, Walk(fs, rest, path).value, levels - |path|) {
      var shifted := [path[0] + 1] + path[1..];
      assert shifted[1..] == path[1..];
      assert Walk(fs, entries, shifted) == Walk(fs, rest, path);
    }
  }

  lemma {:induction false} ClearableFromPaths(fs: Inodes, user: nat, device: nat, entries: seq<Dirent>, levels: nat)
    requires levels > 0 && AllDeletable(fs, user, device, entries, levels)
    ensures Clearable(fs, user, device, entries, levels)
    decreases levels, |entries|
  {
    hide AllDeletable;
    if entries != [] {
      DeletableFirst(fs, user, device, entries, levels);
      DeletableBelow(fs, user, device, entries, levels);
      DeletableRest(fs, user, device, entries, levels);
      if IsDirectory(fs, entries[0].id) {
        ClearableFromPaths(fs, user, device, EntriesOf(fs, entries[0].id), levels - 1);
      }
      ClearableFromPaths(fs, user, device, entries[1..], levels);
      assert ClearableEntry(fs, user, device, entries[0], levels);
    }
  }

  // Everything below may be deleted exactly when every entry on every path may be, and no directory
  // lies deeper than the levels allow.
  lemma ClearableMeaning(fs: Inodes, user: nat, device: nat, entries: seq<Dirent>, levels: nat)
    requires levels > 0
    ensures Clearable(fs, user, device, entries, levels) <==> AllDeletable(fs, user, device, entries, levels)
  {
    if Clearable(fs, user, device, entries, levels) {
      forall path | Walk(fs, entries, path).Some?
        ensures IsDeletable(fs, user, device, Walk(fs, entries, path).value, levels - |path|) {
        ClearableOnPath(fs, user, device, entries, levels, path);
      }
    } else if AllDeletable(fs, user, device, entries, levels) {
      ClearableFromPaths(fs, user, device, entries, levels);
    }
  }
}

// Removing what attempts leave behind: recursive deletion under one entry budget and a depth limit.
module WorkspaceCleanup {
  import opened Wrappers
  import opened FileTrees

  const MAX_CLEANUP_DEPTH: nat := 32
  const MAX_CLEANUP_ENTRIES: nat := 1024

  datatype Error = Unavailable | Integrity

  datatype Stat = Stat(id: Id, directory: bool, owner: nat, mode: Mode)

  function StatOf(fs: Inodes, id: Id): Stat
    requires id in fs
  {
    Stat(id, fs[id].Directory?, fs[id].owner, fs[id].mode)
  }

  function Lookup(entries: seq<Dirent>, name: string): Option<Id> {
    if entries == [] then None
    else if entries[0].name == name then Some(entries[0].id)
    else Lookup(entries[1..], name)
  }

  function Without(entries: seq<Dirent>, name: string): seq<Dirent> {
    if entries == [] then []
    else if entries[0].name == name then entries[1..]
    else [entries[0]] + Without(entries[1..], name)
  }

  function Names(entries: seq<Dirent>): seq<string> {
    seq(|entries|, k requires 0 <= k < |entries| => entries[k].name)
  }

  class CleanupBudget {
    var remaining: nat

    constructor ()
      ensures remaining == MAX_CLEANUP_ENTRIES
    {
      remaining := MAX_CLEANUP_ENTRIES;
    }

    method Consume() returns (r: Result<(), Error>)
      modifies this
      ensures r == if old(remaining) > 0 then Ok(()) else Err(Integrity)
      ensures remaining == if old(remaining) > 0 then old(remaining) - 1 else 0
    {
      if remaining == 0 {
        return Err(Integrity);
      }
      remaining := remaining - 1;
      return Ok(());
    }
  }

  // The system calls, for one user, while nobody else changes anything.
  class FileSystem {
    const user: nat
    var inodes: Inodes

    constructor (user: nat, inodes: Inodes)
      ensures this.user == user && this.inodes == inodes
    {
      this.user := user;
      this.inodes := inodes;
    }

    predicate SameObject(left: Stat, right: Stat) {
      left.directory && right.directory && left.id == right.id && right.owner == user
    }

    // The identity a name leads to, when the directory may be searched and has it.
    function Find(d: Id, name: string): Option<Id>
      reads this
      requires IsDirectory(inodes, d)
    {
      var found := Lookup(inodes[d].entries, name);
      if inodes[d].mode.search && found.Some? && found.value in inodes then found else None
    }

    method StatAt(d: Id, name: string) returns (r: Result<Stat, Error>)
      requires IsDirectory(inodes, d)
      ensures r == if Find(d, name).Some? then Ok(StatOf(inodes, Find(d, name).value)) else Err(Unavailable)
    {
      var found := Find(d, name);
      return if found.Some? then Ok(StatOf(inodes, found.value)) else Err(Unavailable);
    }

    // The same for a name that may be missing.
    method StatOptionalAt(d: Id, name: string) returns (r: Result<Option<Stat>, Error>)
      requires IsDirectory(inodes, d)
      requires Lookup(inodes[d].entries, name).Some? ==> Lookup(inodes[d].entries, name).value in inodes
      ensures r == if !inodes[d].mode.search then Err(Unavailable)
                   else if Find(d, name).Some? then Ok(Some(StatOf(inodes, Find(d, name).value)))
                   else Ok(None)
    {
      if !inodes[d].mode.search {
        return Err(Unavailable);
      }
      var found := Find(d, name);
      return if found.Some? then Ok(Some(StatOf(inodes, found.value))) else Ok(None);
    }

    method OpenDirectoryAt(d: Id, name: string) returns (r: Result<Id, Error>)
      requires IsDirectory(inodes, d)
      ensures r == var found := Find(d, name);
                   if found.Some? && IsDirectory(inodes, found.value) && inodes[found.value].mode.read
                   then Ok(found.value) else Err(Integrity)
    {
      var found := Find(d, name);
      return if found.Some? && IsDirectory(inodes, found.value) && inodes[found.value].mode.read
             then Ok(found.value) else Err(Integrity);
    }

    // Removes a name: of an empty directory, or of anything else.
    method UnlinkAt(d: Id, name: string, removeDirectory: bool) returns (r: Result<(), Error>)
      requires IsDirectory(inodes, d)
      modifies this
      ensures var found := old(Find(d, name));
              r == if found.Some? && old(inodes)[d].mode.write && IsDirectory(old(inodes), found.value) == removeDirectory
                      && EntriesOf(old(inodes), found.value) == []
                   then Ok(()) else Err(Unavailable)
      ensures inodes == if r.Ok? then old(inodes)[d := old(inodes)[d].(entries := Without(old(inodes)[d].entries, name))]
                        else old(inodes)
    {
      var found := Find(d, name);
      if found.None? || !inodes[d].mode.write || IsDirectory(inodes, found.value) != removeDirectory
         || EntriesOf(inodes, found.value) != [] {
        return Err(Unavailable);
      }
      inodes := inodes[d := inodes[d].(entries := Without(inodes[d].entries, name))];
      return Ok(());
    }

    // What reading the directory yields, one name after another.
    function Stream(d: Id): seq<string>
      reads this
      requires IsDirectory(inodes, d)
    {
      [".", ".."] + Names(inodes[d].entries)
    }

    method DirectoryEntries(d: Id, limit: nat) returns (r: Result<seq<string>, Error>)
      requires IsDirectory(inodes, d)
      requires forall k | 0 <= k < |inodes[d].entries| :: !IsDots(inodes[d].entries[k].name)
      ensures r == if |inodes[d].entries| <= limit then Ok(Names(inodes[d].entries)) else Err(Integrity)
    {
      var stream := Stream(d);
      var names: seq<string> := [];
      for i := 0 to |stream|
        invariant i <= 2 ==> names == []
        invariant i >= 2 ==> names == stream[2..i]
        invariant |names| <= limit
      {
        if !IsDots(stream[i]) {
          if |names| == limit {
            return Err(Integrity);
          }
          names := names + [stream[i]];
        }
      }
      assert names == stream[2..|stream|] == Names(inodes[d].entries);
      return Ok(names);
    }
  }

  // The levels of directories from a depth on, up to the deepest allowed.
  function LevelsFrom(depth: nat): nat {
    if depth > MAX_CLEANUP_DEPTH then 0 else MAX_CLEANUP_DEPTH + 1 - depth
  }

  // ---- What goes wrong first ----

  function Verdict(fault: Option<Error>): Result<(), Error> {
    if fault.Some? then Err(fault.value) else Ok(())
  }

  function Left(budget: nat, spent: nat): nat {
    if spent < budget then budget - spent else 0
  }

  // What stops the clearing of a directory, if anything does: it is too deep or has more entries than the
  // budget, or else the first fault among its entries.
  function FaultAt(fs: Inodes, user: nat, device: nat, id: Id, levels: nat, budget: nat): Option<Error>
    decreases levels, |EntriesOf(fs, id)|, 2
  {
    if levels == 0 || |EntriesOf(fs, id)| > budget then Some(Integrity)
    else FaultAmong(fs, user, device, id, EntriesOf(fs, id), levels, budget)
  }

  function FaultAmong(
      fs: Inodes, user: nat, device: nat, d: Id, entries: seq<Dirent>, levels: nat, budget: nat): Option<Error>
    requires levels > 0
    decreases levels, |entries|, 1
  {
    if entries == [] then None
    else
      var fault := FaultOf(fs, user, device, d, entries[0], levels, budget);
      if fault.Some? then fault
      else FaultAmong(fs, user, device, d, entries[1..], levels, Left(budget, 1 + SizeBelow(fs, entries[0], levels)))
  }

  // The number of entries below an entry.
  function SizeBelow(fs: Inodes, entry: Dirent, levels: nat): nat
    requires levels > 0
  {
    Size(fs, EntriesOf(fs, entry.id), levels - 1)
  }

  // What stops the removal of an entry, the checks on it before those on what is below.
  function FaultOf(fs: Inodes, user: nat, device: nat, d: Id, entry: Dirent, levels: nat, budget: nat): Option<Error>
    requires levels > 0
    decreases levels, 0, 0
  {
    if budget == 0 then Some(Integrity)
    else if !IsDirectory(fs, d) || !fs[d].mode.search || entry.id !in fs then Some(Unavailable)
    else if fs[entry.id].owner != user then Some(Integrity)
    else if IsDirectory(fs, entry.id) && (entry.id.device != device || !fs[entry.id].mode.read) then Some(Integrity)
    else
      var below := if IsDirectory(fs, entry.id) then FaultAt(fs, user, device, entry.id, levels - 1, budget - 1) else None;
      if below.Some? then below else if !fs[d].mode.write then Some(Unavailable) else None
  }

  lemma {:induction false} FaultsUntouched(
      before: Inodes, after: Inodes, places: set<Id>, user: nat, device: nat, d: Id, entries: seq<Dirent>, levels: nat, budget: nat)
    requires ChangedIn(before, after, places) && Reach(before, entries, levels) !! places && levels > 0
    ensures FaultAmong(after, user, device, d, entries, levels, budget) == FaultAmong(before, user, device, d, entries, levels, budget)
    decreases levels, |entries|
  {
    if entries != [] {
      FaultUntouched(before, after, places, user, device, d, entries[0], levels, budget);
      TreeUntouched(before, after, places, EntriesOf(before, entries[0].id), levels - 1);
      assert SizeBelow(after, entries[0], levels) == SizeBelow(before, entries[0], levels);
      FaultsUntouched(before, after, places, user, device, d, entries[1..], levels, Left(budget, 1 + SizeBelow(before, entries[0], levels)));
    }
  }

  lemma {:induction false} FaultUntouched(
      before: Inodes, after: Inodes, places: set<Id>, user: nat, device: nat, d: Id, entry: Dirent, levels: nat, budget: nat)
    requires ChangedIn(before, after, places) && levels > 0 && ReachOf(before, entry, levels) !! places
    ensures FaultOf(after, user, device, d, entry, levels, budget) == FaultOf(before, user, device, d, entry, levels, budget)
    ensures EntriesOf(after, entry.id) == EntriesOf(before, entry.id)
    decreases levels, 0
  {
    if IsDirectory(before, entry.id) {
      assert entry.id in ReachOf(before, entry, levels) && entry.id !in places;
      if levels > 1 && budget > 0 {
        FaultsUntouched(before, after, places, user, device, entry.id, EntriesOf(before, entry.id), levels - 1, budget - 1);
      }
    }
  }

  // Nothing stops the clearing exactly when everything below may be deleted within the budget.
  lemma {:induction false} NoFaultAmong(
      fs: Inodes, user: nat, device: nat, d: Id, entries: seq<Dirent>, levels: nat, budget: nat)
    requires levels > 0 && IsDirectory(fs, d)
    ensures FaultAmong(fs, user, device, d, entries, levels, budget).None?
       <==> && (entries != [] ==> fs[d].mode.search && fs[d].mode.write)
            && Clearable(fs, user, device, entries, levels) && Size(fs, entries, levels) <= budget
    decreases levels, |entries|
  {
    if entries != [] {
      NoFaultOf(fs, user, device, d, entries[0], levels, budget);
      NoFaultAmong(fs, user, device, d, entries[1..], levels, Left(budget, 1 + SizeBelow(fs, entries[0], levels)));
    }
  }

  lemma {:induction false} NoFaultOf(fs: Inodes, user: nat, device: nat, d: Id, entry: Dirent, levels: nat, budget: nat)
    requires levels > 0 && IsDirectory(fs, d)
    ensures FaultOf(fs, user, device, d, entry, levels, budget).None?
       <==> && fs[d].mode.search && fs[d].mode.write
            && ClearableEntry(fs, user, device, entry, levels) && SizeBelow(fs, entry, levels) < budget
    decreases levels, 0
  {
    if IsDirectory(fs, entry.id) && budget > 0 {
      NoFault(fs, user, device, entry.id, levels - 1, budget - 1);
    }
  }

  lemma {:induction false} NoFault(fs: Inodes, user: nat, device: nat, id: Id, levels: nat, budget: nat)
    requires IsDirectory(fs, id)
    ensures FaultAt(fs, user, device, id, levels, budget).None?
       <==> ClearableAt(fs, user, device, id, levels) && Size(fs, EntriesOf(fs, id), levels) <= budget
    decreases levels, |EntriesOf(fs, id)| + 1
  {
    if levels > 0 {
      SizeCounts(fs, EntriesOf(fs, id), levels);
      NoFaultAmong(fs, user, device, id, EntriesOf(fs, id), levels, budget);
    }
  }

  // A call that is refused means a directory that cannot be searched or changed although it has entries.
  lemma {:induction false} RefusedAmong(
      fs: Inodes, user: nat, device: nat, d: Id, entries: seq<Dirent>, levels: nat, budget: nat)
    requires levels > 0 && IsTree(fs, entries, levels) && IsDirectory(fs, d) && fs[d].mode.search && fs[d].mode.write
    requires forall id | id in Reach(fs, entries, levels) :: CanEmpty(fs, id)
    ensures FaultAmong(fs, user, device, d, entries, levels, budget) != Some(Unavailable)
    decreases levels, |entries|
  {
    if entries != [] {
      if IsDirectory(fs, entries[0].id) && budget > 0 {
        assert entries[0].id in ReachOf(fs, entries[0], levels);
        RefusedAt(fs, user, device, entries[0].id, levels - 1, budget - 1);
      }
      RefusedAmong(fs, user, device, d, entries[1..], levels, Left(budget, 1 + SizeBelow(fs, entries[0], levels)));
    }
  }

  lemma {:induction false} RefusedAt(fs: Inodes, user: nat, device: nat, id: Id, levels: nat, budget: nat)
    requires IsTree(fs, EntriesOf(fs, id), levels)
    requires forall x | x in {id} + Reach(fs, EntriesOf(fs, id), levels) :: CanEmpty(fs, x)
    ensures FaultAt(fs, user, device, id, levels, budget) != Some(Unavailable)
    decreases levels, |EntriesOf(fs, id)| + 1
  {
    if levels > 0 && EntriesOf(fs, id) != [] {
      assert id in {id} + Reach(fs, EntriesOf(fs, id), levels);
      RefusedAmong(fs, user, device, id, EntriesOf(fs, id), levels, budget);
    }
  }

  // ---- Removing entries ----

  // One entry of a directory, the first, can be removed within the budget.
  predicate CanRemoveFirst(fs: FileSystem, d: Id, rootDevice: nat, levels: nat, budget: nat)
    reads fs
  {
    var entries := EntriesOf(fs.inodes, d);
    && levels > 0 && entries != [] && CanEmpty(fs.inodes, d)
    && ClearableEntry(fs.inodes, fs.user, rootDevice, entries[0], levels)
    && Size(fs.inodes, EntriesOf(fs.inodes, entries[0].id), levels - 1) < budget
  }

  // Whatever happened, no more entries have gone from the tree of a directory than the budget shows.
  predicate LosesAtMost(before: Inodes, after: Inodes, d: Id, levels: nat, budget: nat, remaining: nat) {
    && remaining <= budget
    && Size(before, EntriesOf(before, d), levels) - Size(after, EntriesOf(after, d), levels) <= budget - remaining
  }

  // Removes the first entry of a directory, with all that is below it.
  method ClearEntry(fs: FileSystem, d: Id, name: string, rootDevice: nat, depth: nat, budget: CleanupBudget)
    returns (r: Result<(), Error>)
    requires depth <= MAX_CLEANUP_DEPTH && IsTreeAt(fs.inodes, d, LevelsFrom(depth))
    requires EntriesOf(fs.inodes, d) != [] && EntriesOf(fs.inodes, d)[0].name == name
    modifies fs, budget
    ensures r == Verdict(old(FaultOf(fs.inodes, fs.user, rootDevice, d, EntriesOf(fs.inodes, d)[0], LevelsFrom(depth), budget.remaining)))
    ensures r.Ok? == old(CanRemoveFirst(fs, d, rootDevice, LevelsFrom(depth), budget.remaining))
    ensures r.Ok? ==> && EntriesOf(fs.inodes, d) == old(EntriesOf(fs.inodes, d))[1..]
                      && old(budget.remaining) - budget.remaining
                         == 1 + old(Size(fs.inodes, EntriesOf(fs.inodes, EntriesOf(fs.inodes, d)[0].id), LevelsFrom(depth) - 1))
    ensures LosesAtMost(old(fs.inodes), fs.inodes, d, LevelsFrom(depth), old(budget.remaining), budget.remaining)
    ensures ChangedIn(old(fs.inodes), fs.inodes, {d} + old(ReachOf(fs.inodes, EntriesOf(fs.inodes, d)[0], LevelsFrom(depth))))
    decreases MAX_CLEANUP_DEPTH + 1 - depth, 1
  {
    var consumed := budget.Consume();
    if consumed.Err? {
      return consumed;
    }
    var before := fs.StatAt(d, name);
    if before.Err? {
      return Err(before.error);
    }
    if before.value.owner != fs.user {
      return Err(Integrity);
    }
    if before.value.directory {
      r := ClearChild(fs, d, name, before.value, rootDevice, depth, budget);
    } else {
      r := ClearFile(fs, d, name, before.value, rootDevice, depth, budget);
    }
    if r.Ok? {
      FirstRemoved(old(fs.inodes), fs.inodes, fs.user, rootDevice, d, LevelsFrom(depth));
    }
  }

  // Removes the first entry of a directory when it is anything else.
  method ClearFile(fs: FileSystem, d: Id, name: string, before: Stat, rootDevice: nat, depth: nat, budget: CleanupBudget)
    returns (r: Result<(), Error>)
    requires depth <= MAX_CLEANUP_DEPTH && IsTreeAt(fs.inodes, d, LevelsFrom(depth))
    requires EntriesOf(fs.inodes, d) != [] && EntriesOf(fs.inodes, d)[0].name == name
    requires fs.Find(d, name) == Some(before.id) && before == StatOf(fs.inodes, before.id)
    requires !before.directory && before.owner == fs.user
    modifies fs
    ensures r == Verdict(old(FaultOf(fs.inodes, fs.user, rootDevice, d, EntriesOf(fs.inodes, d)[0], LevelsFrom(depth), budget.remaining + 1)))
    ensures r.Ok? == old(CanRemoveFirst(fs, d, rootDevice, LevelsFrom(depth), budget.remaining + 1))
    ensures old(Size(fs.inodes, EntriesOf(fs.inodes, EntriesOf(fs.inodes, d)[0].id), LevelsFrom(depth) - 1)) == 0
    ensures r.Ok? ==> EntriesOf(fs.inodes, d) == old(EntriesOf(fs.inodes, d))[1..]
    ensures r.Err? ==> fs.inodes == old(fs.inodes)
    ensures ChangedIn(old(fs.inodes), fs.inodes, {d})
  {
    r := fs.UnlinkAt(d, name, false);
  }

  // Removes the first entry of a directory when it is a directory itself.
  method ClearChild(fs: FileSystem, d: Id, name: string, before: Stat, rootDevice: nat, depth: nat, budget: CleanupBudget)
    returns (r: Result<(), Error>)
    requires depth <= MAX_CLEANUP_DEPTH && IsTreeAt(fs.inodes, d, LevelsFrom(depth))
    requires EntriesOf(fs.inodes, d) != [] && EntriesOf(fs.inodes, d)[0].name == name
    requires fs.Find(d, name) == Some(before.id) && before == StatOf(fs.inodes, before.id)
    requires before.directory && before.owner == fs.user
    modifies fs, budget
    ensures r == Verdict(old(FaultOf(fs.inodes, fs.user, rootDevice, d, EntriesOf(fs.inodes, d)[0], LevelsFrom(depth), budget.remaining + 1)))
    ensures r.Ok? == old(CanRemoveFirst(fs, d, rootDevice, LevelsFrom(depth), budget.remaining + 1))
    ensures r.Ok? ==> && EntriesOf(fs.inodes, d) == old(EntriesOf(fs.inodes, d))[1..]
                      && old(budget.remaining) - budget.remaining
                         == old(Size(fs.inodes, EntriesOf(fs.inodes, EntriesOf(fs.inodes, d)[0].id), LevelsFrom(depth) - 1))
    ensures r.Err? ==> LosesAtMost(old(fs.inodes), fs.inodes, d, LevelsFrom(depth), old(budget.remaining), budget.remaining)
    ensures ChangedIn(old(fs.inodes), fs.inodes, {d} + old(ReachOf(fs.inodes, EntriesOf(fs.inodes, d)[0], LevelsFrom(depth))))
    decreases MAX_CLEANUP_DEPTH + 1 - depth, 0
  {
    if before.id.device != rootDevice {
      return Err(Integrity);
    }
    var child := fs.OpenDirectoryAt(d, name);
    if child.Err? {
      return Err(child.error);
    }
    var held := StatOf(fs.inodes, child.value);
    if !fs.SameObject(before, held) {
      return Err(Integrity);
    }
    ghost var was := fs.inodes;
    r := ClearDirectory(fs, child.value, rootDevice, depth + 1, budget);
    BelowFirst(was, fs.inodes, d, LevelsFrom(depth));
    if r.Err? {
      return;
    }
    r := UnlinkChild(fs, d, name, held);
  }

  // Removes the first entry of a directory when it is an empty directory and still the same.
  method UnlinkChild(fs: FileSystem, d: Id, name: string, held: Stat) returns (r: Result<(), Error>)
    requires IsDirectory(fs.inodes, d) && EntriesOf(fs.inodes, d) != [] && EntriesOf(fs.inodes, d)[0].name == name
    requires fs.Find(d, name) == Some(held.id) && held == StatOf(fs.inodes, held.id)
    requires held.directory && held.owner == fs.user && EntriesOf(fs.inodes, held.id) == []
    modifies fs
    ensures r == if old(fs.inodes)[d].mode.write then Ok(()) else Err(Unavailable)
    ensures r.Ok? ==> EntriesOf(fs.inodes, d) == old(EntriesOf(fs.inodes, d))[1..]
    ensures r.Err? ==> fs.inodes == old(fs.inodes)
    ensures ChangedIn(old(fs.inodes), fs.inodes, {d})
  {
    var current := fs.StatAt(d, name);
    if current.Err? {
      return Err(Unavailable);
    }
    if !fs.SameObject(held, current.value) {
      return Err(Integrity);
    }
    r := fs.UnlinkAt(d, name, true);
  }

  // What clearing a directory comes to: the error of what stops it first, if anything does. It succeeds
  // exactly when everything below may be deleted and fits the budget; then the directory is empty and the
  // budget is down by the number of entries.
  // Whatever happens, only directories below have changed.
  predicate Clears(
      before: Inodes, after: Inodes, user: nat, device: nat, d: Id, levels: nat, budget: nat, remaining: nat, r: Result<(), Error>)
  {
    var all := EntriesOf(before, d);
    && r == Verdict(FaultAt(before, user, device, d, levels, budget))
    && r.Ok? == (ClearableAt(before, user, device, d, levels) && Size(before, all, levels) <= budget)
    && (r.Ok? ==> EntriesOf(after, d) == [] && remaining == budget - Size(before, all, levels))
    && LosesAtMost(before, after, d, levels, budget, remaining)
    && ChangedIn(before, after, {d} + Reach(before, all, levels))
  }

  method ClearDirectory(fs: FileSystem, d: Id, rootDevice: nat, depth: nat, budget: CleanupBudget)
    returns (r: Result<(), Error>)
    requires depth <= MAX_CLEANUP_DEPTH + 1 && IsTreeAt(fs.inodes, d, LevelsFrom(depth))
    modifies fs, budget
    ensures Clears(old(fs.inodes), fs.inodes, fs.user, rootDevice, d, LevelsFrom(depth), old(budget.remaining), budget.remaining, r)
    decreases MAX_CLEANUP_DEPTH + 1 - depth, 3
  {
    if depth > MAX_CLEANUP_DEPTH {
      return Err(Integrity);
    }
    ghost var before, levels := fs.inodes, LevelsFrom(depth);
    NamesAreProper(fs.inodes, EntriesOf(fs.inodes, d), levels);
    var names := fs.DirectoryEntries(d, budget.remaining);
    if names.Err? {
      TooMany(before, fs.user, rootDevice, d, levels, budget.remaining);
      return Err(names.error);
    }
    for i := 0 to |names.value|
      invariant ClearedTo(before, fs.inodes, fs.user, rootDevice, d, levels, i, old(budget.remaining) - budget.remaining)
      invariant FaultsAhead(before, fs.inodes, fs.user, rootDevice, d, levels, i, old(budget.remaining), budget.remaining)
    {
      r := ClearNext(fs, d, names.value[i], rootDevice, depth, budget, before, i, old(budget.remaining));
      if r.Err? {
        return;
      }
    }
    AllCleared(before, fs.inodes, fs.user, rootDevice, d, levels, old(budget.remaining), budget.remaining);
    return Ok(());
  }

  // One turn of the loop, in a directory whose first entries are gone.
  method ClearNext(
      fs: FileSystem, d: Id, name: string, rootDevice: nat, depth: nat, budget: CleanupBudget,
      ghost before: Inodes, ghost i: nat, ghost total: nat)
    returns (r: Result<(), Error>)
    requires depth <= MAX_CLEANUP_DEPTH && i < |EntriesOf(before, d)| && EntriesOf(before, d)[i].name == name
    requires ClearedTo(before, fs.inodes, fs.user, rootDevice, d, LevelsFrom(depth), i, total - budget.remaining)
    requires |EntriesOf(before, d)| <= total
    requires FaultsAhead(before, fs.inodes, fs.user, rootDevice, d, LevelsFrom(depth), i, total, budget.remaining)
    modifies fs, budget
    ensures r.Ok? ==> ClearedTo(before, fs.inodes, fs.user, rootDevice, d, LevelsFrom(depth), i + 1, total - budget.remaining)
    ensures r.Ok? ==> FaultsAhead(before, fs.inodes, fs.user, rootDevice, d, LevelsFrom(depth), i + 1, total, budget.remaining)
    ensures r.Err? ==> Clears(before, fs.inodes, fs.user, rootDevice, d, LevelsFrom(depth), total, budget.remaining, r)
    decreases MAX_CLEANUP_DEPTH + 1 - depth, 2
  {
    ghost var levels, was, middle := LevelsFrom(depth), fs.inodes, budget.remaining;
    FirstOfRest(before, was, fs.user, rootDevice, d, levels, i, total - middle);
    r := ClearEntry(fs, d, name, rootDevice, depth, budget);
    NextFault(before, was, fs.inodes, fs.user, rootDevice, d, levels, i, total, middle, budget.remaining, r);
    if r.Ok? {
      ClearedStep(before, was, fs.inodes, fs.user, rootDevice, d, levels, i, total - middle);
    } else {
      NotCleared(before, was, fs.inodes, fs.user, rootDevice, d, levels, i, total, middle, budget.remaining, r);
    }
  }

  lemma TooMany(before: Inodes, user: nat, device: nat, d: Id, levels: nat, budget: nat)
    requires levels > 0 && |EntriesOf(before, d)| > budget
    ensures Clears(before, before, user, device, d, levels, budget, budget, Err(Integrity))
  {
    SizeCounts(before, EntriesOf(before, d), levels);
  }

  // The first entries of a directory are gone, nothing else has changed in what is left, and so much
  // of the budget is spent.
  predicate ClearedTo(
      before: Inodes, after: Inodes, user: nat, device: nat, d: Id, levels: nat, i: nat, spent: int)
  {
    var all := EntriesOf(before, d);
    && i <= |all| && EntriesOf(after, d) == all[i..] && IsTreeAt(after, d, levels)
    && Reach(after, all[i..], levels) <= Reach(before, all, levels)
    && ChangedIn(before, after, {d} + Reach(before, all, levels))
    && ClearableAt(before, user, device, d, levels) == (CanEmpty(before, d) && Clearable(after, user, device, all[i..], levels))
    && (0 < i ==> CanEmpty(before, d))
    && 0 <= spent == Size(before, all, levels) - Size(after, all[i..], levels)
  }

  // What would stop the clearing of a directory is what stops the clearing of what is left of it.
  predicate FaultsAhead(
      before: Inodes, after: Inodes, user: nat, device: nat, d: Id, levels: nat, i: nat, total: nat, remaining: nat)
  {
    var all := EntriesOf(before, d);
    levels > 0 && i <= |all| &&
    FaultAmong(before, user, device, d, all, levels, total) == FaultAmong(after, user, device, d, all[i..], levels, remaining)
  }

  lemma NextFault(
      before: Inodes, was: Inodes, after: Inodes, user: nat, device: nat, d: Id, levels: nat, i: nat,
      total: nat, middle: nat, remaining: nat, r: Result<(), Error>)
    requires i < |EntriesOf(before, d)| && FaultsAhead(before, was, user, device, d, levels, i, total, middle)
    requires IsTreeAt(was, d, levels) && EntriesOf(was, d) == EntriesOf(before, d)[i..]
    requires r == Verdict(FaultOf(was, user, device, d, EntriesOf(was, d)[0], levels, middle))
    requires r.Ok? ==> && ChangedIn(was, after, {d} + ReachOf(was, EntriesOf(was, d)[0], levels))
                       && middle - remaining == 1 + SizeBelow(was, EntriesOf(was, d)[0], levels)
    ensures r.Ok? ==> FaultsAhead(before, after, user, device, d, levels, i + 1, total, remaining)
    ensures r.Err? ==> r == Verdict(FaultAmong(before, user, device, d, EntriesOf(before, d), levels, total))
  {
    var all := EntriesOf(before, d);
    assert all[i..][1..] == all[i + 1..] && all[i..][0] == all[i];
    if r.Ok? {
      FaultsUntouched(was, after, {d} + ReachOf(was, all[i], levels), user, device, d, all[i + 1..], levels, remaining);
    }
  }

  lemma ClearedStep(
      before: Inodes, was: Inodes, after: Inodes, user: nat, device: nat, d: Id, levels: nat, i: nat, spent: int)
    requires levels > 0 && i < |EntriesOf(before, d)| && ClearedTo(before, was, user, device, d, levels, i, spent)
    requires CanEmpty(was, d) && ClearableEntry(was, user, device, EntriesOf(was, d)[0], levels)
    requires ChangedIn(was, after, {d} + ReachOf(was, EntriesOf(was, d)[0], levels))
    requires EntriesOf(after, d) == EntriesOf(was, d)[1..]
    ensures ClearedTo(before, after, user, device, d, levels, i + 1,
                      spent + 1 + Size(was, EntriesOf(was, EntriesOf(was, d)[0].id), levels - 1))
  {
    var all := EntriesOf(before, d);
    assert all[i..][1..] == all[i + 1..] && all[i..][0] == all[i];
    FirstRemoved(was, after, user, device, d, levels);
  }

  lemma FirstOfRest(
      before: Inodes, after: Inodes, user: nat, device: nat, d: Id, levels: nat, i: nat, spent: int)
    requires i < |EntriesOf(before, d)| && ClearedTo(before, after, user, device, d, levels, i, spent)
    ensures EntriesOf(after, d) != [] && EntriesOf(after, d)[0].name == EntriesOf(before, d)[i].name
  {
  }

  lemma AllCleared(
      before: Inodes, after: Inodes, user: nat, device: nat, d: Id, levels: nat, budget: nat, remaining: nat)
    requires levels > 0
    requires ClearedTo(before, after, user, device, d, levels, |EntriesOf(before, d)|, budget - remaining)
    requires |EntriesOf(before, d)| <= budget
    requires FaultsAhead(before, after, user, device, d, levels, |EntriesOf(before, d)|, budget, remaining)
    ensures Clears(before, after, user, device, d, levels, budget, remaining, Ok(()))
  {
    assert EntriesOf(after, d) == [];
  }

  lemma NotCleared(
      before: Inodes, was: Inodes, after: Inodes, user: nat, device: nat, d: Id, levels: nat, i: nat,
      budget: nat, middle: nat, remaining: nat, r: Result<(), Error>)
    requires r.Err? && r == Verdict(FaultAt(before, user, device, d, levels, budget))
    requires levels > 0 && i < |EntriesOf(before, d)| && ClearedTo(before, was, user, device, d, levels, i, budget - middle)
    requires ChangedIn(was, after, {d} + ReachOf(was, EntriesOf(was, d)[0], levels))
    requires LosesAtMost(was, after, d, levels, middle, remaining)
    requires !(CanEmpty(was, d) && ClearableEntry(was, user, device, EntriesOf(was, d)[0], levels)
               && Size(was, EntriesOf(was, EntriesOf(was, d)[0].id), levels - 1) < middle)
    ensures Clears(before, after, user, device, d, levels, budget, remaining, r)
  {
    assert was[d].mode == before[d].mode;
  }

  // What changes below the first entry of a directory shows in the size of its tree.
  lemma BelowFirst(before: Inodes, after: Inodes, d: Id, levels: nat)
    requires levels > 0 && IsTreeAt(before, d, levels) && EntriesOf(before, d) != []
    requires ChangedIn(before, after, ReachOf(before, EntriesOf(before, d)[0], levels))
    ensures EntriesOf(after, d) == EntriesOf(before, d)
    ensures var child := EntriesOf(before, d)[0].id;
            Size(before, EntriesOf(before, d), levels) - Size(after, EntriesOf(after, d), levels)
            == Size(before, EntriesOf(before, child), levels - 1) - Size(after, EntriesOf(after, child), levels - 1)
  {
    TreeUntouched(before, after, ReachOf(before, EntriesOf(before, d)[0], levels), EntriesOf(before, d)[1..], levels);
  }

  lemma {:induction false} NamesAreProper(fs: Inodes, entries: seq<Dirent>, levels: nat)
    requires levels > 0 && IsTree(fs, entries, levels)
    ensures forall k | 0 <= k < |entries| :: !IsDots(entries[k].name)
    decreases |entries|
  {
    if entries != [] {
      NamesAreProper(fs, entries[1..], levels);
    }
  }

  lemma {:induction false} SizeCounts(fs: Inodes, entries: seq<Dirent>, levels: nat)
    requires levels > 0
    ensures Size(fs, entries, levels) >= |entries|
    decreases |entries|
  {
    if entries != [] {
      SizeCounts(fs, entries[1..], levels);
    }
  }

  // What removing the first entry of a directory leaves of the rest: it is as it was.
  lemma FirstRemoved(before: Inodes, after: Inodes, user: nat, device: nat, d: Id, levels: nat)
    requires levels > 0 && IsTreeAt(before, d, levels) && EntriesOf(before, d) != []
    requires ChangedIn(before, after, {d} + ReachOf(before, EntriesOf(before, d)[0], levels))
    requires EntriesOf(after, d) == EntriesOf(before, d)[1..]
    ensures var rest := EntriesOf(before, d)[1..];
            && IsTreeAt(after, d, levels)
            && Reach(after, rest, levels) == Reach(before, rest, levels) <= Reach(before, EntriesOf(before, d), levels)
            && Clearable(after, user, device, rest, levels) == Clearable(before, user, device, rest, levels)
            && Size(after, rest, levels) == Size(before, rest, levels)
  {
    var entries := EntriesOf(before, d);
    var places := {d} + ReachOf(before, entries[0], levels);
    TreeUntouched(before, after, places, entries[1..], levels);
    ClearableUntouched(before, after, places, user, device, entries[1..], levels);
  }
}

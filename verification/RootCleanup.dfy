// Removing every attempt that earlier runs left in a workspace root, under one budget for all of them.
module RootCleanup {
  import opened Wrappers
  import opened FileTrees
  import opened WorkspaceCleanup
  import Text

  // The levels below the root itself.
  const ROOT_LEVELS: nat := MAX_CLEANUP_DEPTH + 2

  // The entries other than the lock file.
  function Attempts(entries: seq<Dirent>, lock: string): seq<Dirent> {
    if entries == [] then []
    else if entries[0].name == lock then Attempts(entries[1..], lock)
    else [entries[0]] + Attempts(entries[1..], lock)
  }

  function Locks(entries: seq<Dirent>, lock: string): seq<Dirent> {
    if entries == [] then []
    else if entries[0].name == lock then [entries[0]] + Locks(entries[1..], lock)
    else Locks(entries[1..], lock)
  }

  // The entries without the first n attempts.
  function AfterRemoving(entries: seq<Dirent>, lock: string, n: nat): seq<Dirent> {
    if entries == [] then []
    else if entries[0].name == lock then [entries[0]] + AfterRemoving(entries[1..], lock, n)
    else if n == 0 then entries
    else AfterRemoving(entries[1..], lock, n - 1)
  }

  // An attempt that may be removed: a private directory of the user on the device of the root.
  predicate IsRemovable(fs: Inodes, user: nat, device: nat, entry: Dirent) {
    && IsDirectory(fs, entry.id) && fs[entry.id].mode == RWXU && fs[entry.id].owner == user
    && entry.id.device == device && ClearableAt(fs, user, device, entry.id, ROOT_LEVELS - 1)
  }

  predicate AreRemovable(fs: Inodes, user: nat, device: nat, attempts: seq<Dirent>) {
    attempts != [] ==> IsRemovable(fs, user, device, attempts[0]) && AreRemovable(fs, user, device, attempts[1..])
  }

  predicate Permits(fs: Inodes, d: Id) {
    IsDirectory(fs, d) && fs[d].mode.search && fs[d].mode.write
  }

  // The attempts of a root, from some point on, as the root's other entries allow them to be removed.
  predicate IsRoot(fs: Inodes, root: Id, attempts: seq<Dirent>) {
    && IsDirectory(fs, root) && root !in Reach(fs, attempts, ROOT_LEVELS) && IsTree(fs, attempts, ROOT_LEVELS)
  }

  // What stops the removal of an attempt, if anything does.
  function FaultOfAttempt(fs: Inodes, user: nat, device: nat, root: Id, entry: Dirent, budget: nat): Option<Error> {
    if !IsDirectory(fs, root) || !fs[root].mode.search || entry.id !in fs then Some(Unavailable)
    else if !IsDirectory(fs, entry.id) || fs[entry.id].mode != RWXU || fs[entry.id].owner != user || entry.id.device != device then
      Some(Integrity)
    else
      var below := FaultAt(fs, user, device, entry.id, ROOT_LEVELS - 1, budget);
      if below.Some? then below else if !fs[root].mode.write then Some(Unavailable) else None
  }

  method RemoveAttempt(fs: FileSystem, root: Id, name: string, rootDevice: nat, budget: CleanupBudget, ghost attempts: seq<Dirent>)
    returns (r: Result<(), Error>)
    requires IsRoot(fs.inodes, root, attempts) && attempts != [] && attempts[0].name == name
    requires Lookup(EntriesOf(fs.inodes, root), name) == Some(attempts[0].id)
    modifies fs, budget
    ensures r == Verdict(old(FaultOfAttempt(fs.inodes, fs.user, rootDevice, root, attempts[0], budget.remaining)))
    ensures r.Ok? == old(&& Permits(fs.inodes, root) && IsRemovable(fs.inodes, fs.user, rootDevice, attempts[0])
                         && Size(fs.inodes, EntriesOf(fs.inodes, attempts[0].id), ROOT_LEVELS - 1) <= budget.remaining)
    ensures r.Ok? ==> && EntriesOf(fs.inodes, root) == Without(old(EntriesOf(fs.inodes, root)), name)
                      && old(budget.remaining) - budget.remaining
                         == old(Size(fs.inodes, EntriesOf(fs.inodes, attempts[0].id), ROOT_LEVELS - 1))
    ensures r.Err? ==> EntriesOf(fs.inodes, root) == old(EntriesOf(fs.inodes, root))
    ensures budget.remaining <= old(budget.remaining)
    ensures r.Err? ==> old(Size(fs.inodes, EntriesOf(fs.inodes, attempts[0].id), ROOT_LEVELS - 1))
                       - Size(fs.inodes, EntriesOf(fs.inodes, attempts[0].id), ROOT_LEVELS - 1)
                       <= old(budget.remaining) - budget.remaining
    ensures ChangedIn(old(fs.inodes), fs.inodes, {root} + ReachOf(old(fs.inodes), attempts[0], ROOT_LEVELS))
  {
    var before := fs.StatAt(root, name);
    if before.Err? {
      return Err(before.error);
    }
    if !before.value.directory || before.value.mode != RWXU || before.value.owner != fs.user
       || before.value.id.device != rootDevice {
      return Err(Integrity);
    }
    var directory := fs.OpenDirectoryAt(root, name);
    if directory.Err? {
      return Err(Integrity);
    }
    var held := StatOf(fs.inodes, directory.value);
    if !fs.SameObject(before.value, held) {
      return Err(Integrity);
    }
    r := ClearDirectory(fs, directory.value, rootDevice, 0, budget);
    if r.Err? {
      return;
    }
    var current := fs.StatAt(root, name);
    if current.Err? {
      return Err(Unavailable);
    }
    if !fs.SameObject(held, current.value) {
      return Err(Integrity);
    }
    r := fs.UnlinkAt(root, name, true);
  }

  // The entry of a name in the root, if it has one, is the first of some attempts.
  predicate IsAttemptOf(fs: Inodes, root: Id, name: string, attempts: seq<Dirent>) {
    && IsDirectory(fs, root)
    && (Lookup(EntriesOf(fs, root), name).Some? ==>
          && IsRoot(fs, root, attempts) && attempts != [] && attempts[0].name == name && attempts[0].id in fs
          && Lookup(EntriesOf(fs, root), name) == Some(attempts[0].id))
  }

  // Removes one recoverable attempt, which may be missing, or whose lock another remover may hold. Nothing else
  // happens meanwhile: that the name is gone at the second look is only possible when others act.
  method RemoveRecoverableAttempt(
      fs: FileSystem, root: Id, name: string, rootDevice: nat, budget: CleanupBudget, lockedByAnother: bool,
      ghost attempts: seq<Dirent>)
    returns (r: Result<bool, Error>)
    requires IsAttemptOf(fs.inodes, root, name, attempts)
    modifies fs, budget
    ensures RemovesRecoverable(old(fs.inodes), fs.inodes, fs.user, rootDevice, root, name, attempts, old(budget.remaining), lockedByAnother, r)
    ensures if old(Lookup(EntriesOf(fs.inodes, root), name)).None? || lockedByAnother then fs.inodes == old(fs.inodes)
            else ChangedIn(old(fs.inodes), fs.inodes, {root} + ReachOf(old(fs.inodes), attempts[0], ROOT_LEVELS))
  {
    var before := fs.StatOptionalAt(root, name);
    if before.Err? {
      return Err(before.error);
    }
    if before.value.None? {
      return Ok(false);
    }
    if !before.value.value.directory || before.value.value.mode != RWXU || before.value.value.owner != fs.user
       || before.value.value.id.device != rootDevice {
      return Err(Integrity);
    }
    var directory := fs.OpenDirectoryAt(root, name);
    if directory.Err? {
      return Err(Integrity);
    }
    var held := StatOf(fs.inodes, directory.value);
    if !fs.SameObject(before.value.value, held) {
      return Err(Integrity);
    }
    if lockedByAnother {
      return Ok(false);
    }
    var confirmed := fs.StatOptionalAt(root, name);
    if confirmed.Err? {
      return Err(Unavailable);
    }
    if confirmed.value.None? {
      return Ok(false);
    }
    if !fs.SameObject(held, confirmed.value.value) {
      return Err(Integrity);
    }
    var cleared := ClearDirectory(fs, directory.value, rootDevice, 0, budget);
    if cleared.Err? {
      return Err(cleared.error);
    }
    var current := fs.StatAt(root, name);
    if current.Err? {
      return Err(Unavailable);
    }
    if !fs.SameObject(held, current.value) {
      return Err(Integrity);
    }
    var unlinked := fs.UnlinkAt(root, name, true);
    return if unlinked.Err? then Err(unlinked.error) else Ok(true);
  }

  // The attempt is a private directory of the user on the root's device, in a root that may be searched.
  predicate IsPrivateAttempt(fs: Inodes, user: nat, device: nat, root: Id, entry: Dirent) {
    && IsDirectory(fs, root) && fs[root].mode.search
    && IsDirectory(fs, entry.id) && fs[entry.id].mode == RWXU && fs[entry.id].owner == user && entry.id.device == device
  }

  // There is nothing to remove, for all one can tell, exactly when the name is missing, or another remover
  // holds the lock of a private attempt. The attempt is removed exactly when nobody holds its lock and it could
  // be removed within the budget. Otherwise the removal fails, by what stops it first, and leaves the name.
  predicate RemovesRecoverable(
      before: Inodes, after: Inodes, user: nat, device: nat, root: Id, name: string, attempts: seq<Dirent>, budget: nat,
      lockedByAnother: bool, r: Result<bool, Error>)
    requires IsAttemptOf(before, root, name, attempts)
  {
    var found := Lookup(EntriesOf(before, root), name).Some?;
    && (r == Ok(false) <==>
          if found then lockedByAnother && IsPrivateAttempt(before, user, device, root, attempts[0])
          else before[root].mode.search)
    && (r == Ok(true) <==>
          && found && !lockedByAnother && Permits(before, root) && IsRemovable(before, user, device, attempts[0])
          && Size(before, EntriesOf(before, attempts[0].id), ROOT_LEVELS - 1) <= budget)
    && (r.Err? ==> Some(r.error) == if found then FaultOfAttempt(before, user, device, root, attempts[0], budget) else Some(Unavailable))
    && EntriesOf(after, root) == if r == Ok(true) then Without(EntriesOf(before, root), name) else EntriesOf(before, root)
  }

  predicate IsExpected(name: string, prefix: string, lock: string) {
    name == lock || Text.HasPrefix(name, prefix)
  }

  predicate AreExpected(entries: seq<Dirent>, prefix: string, lock: string) {
    forall k | 0 <= k < |entries| :: IsExpected(entries[k].name, prefix, lock)
  }

  // The names of the attempts among all names; one of another kind spoils the whole.
  method CollectAttempts(names: seq<string>, prefix: string, lock: string, budget: CleanupBudget, ghost entries: seq<Dirent>)
    returns (r: Result<seq<string>, Error>)
    requires names == Names(entries) && budget.remaining == MAX_CLEANUP_ENTRIES
    modifies budget
    ensures var attempts := Attempts(entries, lock);
            r == if AreExpected(entries, prefix, lock) && |attempts| <= MAX_CLEANUP_ENTRIES
                 then Ok(Names(attempts)) else Err(Integrity)
    ensures r.Ok? ==> budget.remaining == MAX_CLEANUP_ENTRIES - |r.value|
  {
    var attempts: seq<string> := [];
    ghost var all := Attempts(entries, lock);
    for i := 0 to |names|
      invariant AreExpected(entries[..i], prefix, lock)
      invariant Names(all) == attempts + Names(Attempts(entries[i..], lock))
      invariant budget.remaining == MAX_CLEANUP_ENTRIES - |attempts|
    {
      assert entries[i..][0] == entries[i] && entries[i..][1..] == entries[i + 1..];
      if names[i] != lock {
        if !Text.HasPrefix(names[i], prefix) {
          assert !IsExpected(entries[i].name, prefix, lock);
          return Err(Integrity);
        }
        var consumed := budget.Consume();
        if consumed.Err? {
          assert |Names(all)| == |all|;
          return Err(Integrity);
        }
        NamesOfMore(entries[i], Attempts(entries[i + 1..], lock));
        attempts := attempts + [names[i]];
      }
    }
    assert entries[..|names|] == entries && entries[|names|..] == [] && attempts == Names(all);
    assert |Names(all)| == |all|;
    return Ok(attempts);
  }

  lemma NamesOfMore(entry: Dirent, rest: seq<Dirent>)
    ensures Names([entry] + rest) == [entry.name] + Names(rest)
  {
  }

  // ---- Removing them all ----

  // The first attempts are gone, nothing else has changed in what is left, and so much of the budget is
  // spent on what was in them.
  predicate RemovedTo(
      before: Inodes, after: Inodes, user: nat, device: nat, root: Id, lock: string, k: nat, spent: int)
  {
    var attempts := Attempts(EntriesOf(before, root), lock);
    && k <= |attempts| && EntriesOf(after, root) == AfterRemoving(EntriesOf(before, root), lock, k)
    && IsRoot(after, root, attempts[k..])
    && Reach(after, attempts[k..], ROOT_LEVELS) <= Reach(before, attempts, ROOT_LEVELS)
    && ChangedIn(before, after, {root} + Reach(before, attempts, ROOT_LEVELS))
    && AreRemovable(before, user, device, attempts) == AreRemovable(after, user, device, attempts[k..])
    && (0 < k ==> Permits(before, root))
    && 0 <= spent == Size(before, attempts, ROOT_LEVELS) - Size(after, attempts[k..], ROOT_LEVELS) - k
  }

  // The entries of a root after the removal of some attempts, whose contents went with them; no more is
  // gone than the budget allows.
  ghost predicate KeepsBudget(before: Inodes, after: Inodes, root: Id, lock: string) {
    var attempts := Attempts(EntriesOf(before, root), lock);
    exists k | 0 <= k <= |attempts| ::
      && EntriesOf(after, root) == AfterRemoving(EntriesOf(before, root), lock, k)
      && Size(before, attempts, ROOT_LEVELS) - Size(after, attempts[k..], ROOT_LEVELS) <= MAX_CLEANUP_ENTRIES
  }

  lemma {:induction false} AreRemovableUntouched(
      before: Inodes, after: Inodes, places: set<Id>, user: nat, device: nat, attempts: seq<Dirent>)
    requires ChangedIn(before, after, places) && Reach(before, attempts, ROOT_LEVELS) !! places
    ensures AreRemovable(after, user, device, attempts) == AreRemovable(before, user, device, attempts)
    decreases |attempts|
  {
    if attempts != [] {
      var id := attempts[0].id;
      ClearableUntouched(before, after, places, user, device, EntriesOf(before, id), ROOT_LEVELS - 1);
      assert IsDirectory(before, id) ==> id in ReachOf(before, attempts[0], ROOT_LEVELS) && id !in places;
      AreRemovableUntouched(before, after, places, user, device, attempts[1..]);
    }
  }

  // What removing the first of some attempts leaves of the others.
  lemma FirstAttemptRemoved(before: Inodes, after: Inodes, user: nat, device: nat, root: Id, attempts: seq<Dirent>)
    requires attempts != [] && IsRoot(before, root, attempts)
    requires ChangedIn(before, after, {root} + ReachOf(before, attempts[0], ROOT_LEVELS))
    ensures var rest := attempts[1..];
            && IsRoot(after, root, rest)
            && Reach(after, rest, ROOT_LEVELS) == Reach(before, rest, ROOT_LEVELS) <= Reach(before, attempts, ROOT_LEVELS)
            && AreRemovable(after, user, device, rest) == AreRemovable(before, user, device, rest)
            && Size(after, rest, ROOT_LEVELS) == Size(before, rest, ROOT_LEVELS)
  {
    var places := {root} + ReachOf(before, attempts[0], ROOT_LEVELS);
    TreeUntouched(before, after, places, attempts[1..], ROOT_LEVELS);
    AreRemovableUntouched(before, after, places, user, device, attempts[1..]);
  }

  // ---- The entries of the root ----

  lemma {:induction false} AttemptsOfTree(fs: Inodes, entries: seq<Dirent>, lock: string, levels: nat)
    requires levels > 0 && IsTree(fs, entries, levels)
    ensures IsTree(fs, Attempts(entries, lock), levels)
    ensures Reach(fs, Attempts(entries, lock), levels) <= Reach(fs, entries, levels)
    ensures forall name :: Named(Attempts(entries, lock), name) ==> Named(entries, name) && name != lock
    decreases |entries|
  {
    if entries != [] {
      AttemptsOfTree(fs, entries[1..], lock, levels);
      forall name | Named(Attempts(entries, lock), name) ensures Named(entries, name) && name != lock {
        NamedHead(entries, name);
        NamedHead(Attempts(entries, lock), name);
      }
    }
  }

  lemma NamedHead(entries: seq<Dirent>, name: string)
    requires entries != []
    ensures Named(entries, name) <==> entries[0].name == name || Named(entries[1..], name)
  {
    if k :| 0 <= k < |entries| && entries[k].name == name && k > 0 {
      assert entries[1..][k - 1].name == name;
    }
    if k :| 0 <= k < |entries[1..]| && entries[1..][k].name == name {
      assert entries[k + 1].name == name;
    }
  }

  // The next attempt is still there, and taking it away leaves the others.
  lemma {:induction false} NextAttempt(fs: Inodes, entries: seq<Dirent>, lock: string, k: nat)
    requires IsTree(fs, entries, ROOT_LEVELS) && k < |Attempts(entries, lock)|
    ensures var left, next := AfterRemoving(entries, lock, k), Attempts(entries, lock)[k];
            && Lookup(left, next.name) == Some(next.id)
            && Without(left, next.name) == AfterRemoving(entries, lock, k + 1)
            && Named(entries, next.name)
    decreases |entries|
  {
    NamedHead(entries, Attempts(entries, lock)[k].name);
    if entries[0].name == lock {
      NextAttempt(fs, entries[1..], lock, k);
      AttemptsOfTree(fs, entries[1..], lock, ROOT_LEVELS);
      assert Named(Attempts(entries[1..], lock), Attempts(entries, lock)[k].name);
    } else if k > 0 {
      NextAttempt(fs, entries[1..], lock, k - 1);
    } else {
      NothingRemoved(entries[1..], lock);
    }
  }

  lemma {:induction false} NothingRemoved(entries: seq<Dirent>, lock: string)
    ensures AfterRemoving(entries, lock, 0) == entries
    decreases |entries|
  {
    if entries != [] {
      NothingRemoved(entries[1..], lock);
    }
  }

  lemma {:induction false} AllRemoved(entries: seq<Dirent>, lock: string)
    ensures AfterRemoving(entries, lock, |Attempts(entries, lock)|) == Locks(entries, lock)
    decreases |entries|
  {
    if entries != [] {
      AllRemoved(entries[1..], lock);
    }
  }

  // ---- The whole cleanup ----

  // Two sides of one more removal: where it has changed something, and what it means for the rest.

  lemma RemovedWhere(
      before: Inodes, was: Inodes, after: Inodes, user: nat, device: nat, root: Id, lock: string, k: nat, spent: int)
    requires IsTree(before, EntriesOf(before, root), ROOT_LEVELS)
    requires k < |Attempts(EntriesOf(before, root), lock)| && RemovedTo(before, was, user, device, root, lock, k, spent)
    requires var attempt := Attempts(EntriesOf(before, root), lock)[k];
             && ChangedIn(was, after, {root} + ReachOf(was, attempt, ROOT_LEVELS))
             && EntriesOf(after, root) == Without(EntriesOf(was, root), attempt.name)
    ensures var attempts := Attempts(EntriesOf(before, root), lock);
            && EntriesOf(after, root) == AfterRemoving(EntriesOf(before, root), lock, k + 1)
            && IsRoot(after, root, attempts[k + 1..])
            && Reach(after, attempts[k + 1..], ROOT_LEVELS) <= Reach(before, attempts, ROOT_LEVELS)
            && ChangedIn(before, after, {root} + Reach(before, attempts, ROOT_LEVELS))
  {
    var attempts := Attempts(EntriesOf(before, root), lock);
    assert attempts[k..][1..] == attempts[k + 1..] && attempts[k..][0] == attempts[k];
    NextAttempt(before, EntriesOf(before, root), lock, k);
    FirstAttemptRemoved(was, after, user, device, root, attempts[k..]);
  }

  lemma RemovedRest(was: Inodes, after: Inodes, user: nat, device: nat, root: Id, attempts: seq<Dirent>, k: nat)
    requires k < |attempts| && IsRoot(was, root, attempts[k..])
    requires ChangedIn(was, after, {root} + ReachOf(was, attempts[k], ROOT_LEVELS))
    ensures Size(was, attempts[k..], ROOT_LEVELS)
         == 1 + Size(was, EntriesOf(was, attempts[k].id), ROOT_LEVELS - 1) + Size(after, attempts[k + 1..], ROOT_LEVELS)
    ensures AreRemovable(was, user, device, attempts[k..])
        <==> IsRemovable(was, user, device, attempts[k]) && AreRemovable(after, user, device, attempts[k + 1..])
  {
    assert attempts[k..][1..] == attempts[k + 1..] && attempts[k..][0] == attempts[k];
    FirstAttemptRemoved(was, after, user, device, root, attempts[k..]);
  }

  lemma RemovedStep(
      before: Inodes, was: Inodes, after: Inodes, user: nat, device: nat, root: Id, lock: string, k: nat, spent: int)
    requires IsTree(before, EntriesOf(before, root), ROOT_LEVELS)
    requires k < |Attempts(EntriesOf(before, root), lock)| && RemovedTo(before, was, user, device, root, lock, k, spent)
    requires var attempt := Attempts(EntriesOf(before, root), lock)[k];
             && Permits(was, root) && IsRemovable(was, user, device, attempt)
             && ChangedIn(was, after, {root} + ReachOf(was, attempt, ROOT_LEVELS))
             && EntriesOf(after, root) == Without(EntriesOf(was, root), attempt.name)
    ensures var attempt := Attempts(EntriesOf(before, root), lock)[k];
            RemovedTo(before, after, user, device, root, lock, k + 1,
                      spent + Size(was, EntriesOf(was, attempt.id), ROOT_LEVELS - 1))
  {
    RemovedWhere(before, was, after, user, device, root, lock, k, spent);
    RemovedRest(was, after, user, device, root, Attempts(EntriesOf(before, root), lock), k);
  }

  // What the cleanup of a root comes to. It succeeds exactly when every name is that of an attempt or of
  // the lock, and all attempts may be removed and together fit the budget; then the lock is all that is
  // left. A foreign name leaves everything as it was.
  ghost predicate CleansUp(
      before: Inodes, after: Inodes, user: nat, device: nat, root: Id, prefix: string, lock: string, r: Result<nat, Error>)
  {
    var entries := EntriesOf(before, root);
    var attempts := Attempts(entries, lock);
    && r.Ok? == (&& AreExpected(entries, prefix, lock) && Size(before, attempts, ROOT_LEVELS) <= MAX_CLEANUP_ENTRIES
                 && AreRemovable(before, user, device, attempts) && (attempts != [] ==> Permits(before, root)))
    && (r.Ok? ==> r.value == |attempts| && EntriesOf(after, root) == Locks(entries, lock))
    && (!AreExpected(entries, prefix, lock) || |attempts| > MAX_CLEANUP_ENTRIES ==> r == Err(Integrity) && after == before)
    && KeepsBudget(before, after, root, lock)
    && ChangedIn(before, after, {root} + Reach(before, attempts, ROOT_LEVELS))
  }

  // When an attempt cannot be removed within what is left of the budget, not all of them are within the whole.
  lemma NotAllRemovable(
      before: Inodes, was: Inodes, user: nat, device: nat, root: Id, lock: string, k: nat, middle: nat)
    requires var attempts := Attempts(EntriesOf(before, root), lock);
             k < |attempts| && RemovedTo(before, was, user, device, root, lock, k, MAX_CLEANUP_ENTRIES - |attempts| - middle)
    requires var attempt := Attempts(EntriesOf(before, root), lock)[k];
             !(Permits(was, root) && IsRemovable(was, user, device, attempt)
               && Size(was, EntriesOf(was, attempt.id), ROOT_LEVELS - 1) <= middle)
    ensures var attempts := Attempts(EntriesOf(before, root), lock);
            !(&& Size(before, attempts, ROOT_LEVELS) <= MAX_CLEANUP_ENTRIES
              && AreRemovable(before, user, device, attempts) && Permits(before, root))
  {
    var attempts := Attempts(EntriesOf(before, root), lock);
    var later := attempts[k + 1..];
    assert attempts[k..][1..] == later && attempts[k..][0] == attempts[k];
    assert Permits(was, root) == Permits(before, root);
    assert AreRemovable(was, user, device, attempts[k..]) ==> IsRemovable(was, user, device, attempts[k]);
    SizeCounts(was, later, ROOT_LEVELS);
  }

  // Then what is gone is within the budget.
  lemma FailureKeepsBudget(
      before: Inodes, was: Inodes, after: Inodes, user: nat, device: nat, root: Id, lock: string, k: nat,
      middle: nat, remaining: nat)
    requires var attempts := Attempts(EntriesOf(before, root), lock);
             k < |attempts| <= MAX_CLEANUP_ENTRIES
             && RemovedTo(before, was, user, device, root, lock, k, MAX_CLEANUP_ENTRIES - |attempts| - middle)
    requires remaining <= middle && EntriesOf(after, root) == EntriesOf(was, root)
    requires var attempt := Attempts(EntriesOf(before, root), lock)[k];
             && ChangedIn(was, after, {root} + ReachOf(was, attempt, ROOT_LEVELS))
             && Size(was, EntriesOf(was, attempt.id), ROOT_LEVELS - 1) - Size(after, EntriesOf(after, attempt.id), ROOT_LEVELS - 1)
                <= middle - remaining
    ensures KeepsBudget(before, after, root, lock)
    ensures ChangedIn(before, after, {root} + Reach(before, Attempts(EntriesOf(before, root), lock), ROOT_LEVELS))
  {
    var attempts := Attempts(EntriesOf(before, root), lock);
    assert attempts[k..][1..] == attempts[k + 1..] && attempts[k..][0] == attempts[k];
    FirstAttemptRemoved(was, after, user, device, root, attempts[k..]);
  }

  // An attempt that could not be removed ends the cleanup.
  lemma NotRemoved(
      before: Inodes, was: Inodes, after: Inodes, user: nat, device: nat, root: Id, prefix: string, lock: string, k: nat,
      middle: nat, remaining: nat, error: Error)
    requires var attempts := Attempts(EntriesOf(before, root), lock);
             && k < |attempts| <= MAX_CLEANUP_ENTRIES && AreExpected(EntriesOf(before, root), prefix, lock)
             && RemovedTo(before, was, user, device, root, lock, k, MAX_CLEANUP_ENTRIES - |attempts| - middle)
    requires remaining <= middle && EntriesOf(after, root) == EntriesOf(was, root)
    requires var attempt := Attempts(EntriesOf(before, root), lock)[k];
             && ChangedIn(was, after, {root} + ReachOf(was, attempt, ROOT_LEVELS))
             && Size(was, EntriesOf(was, attempt.id), ROOT_LEVELS - 1) - Size(after, EntriesOf(after, attempt.id), ROOT_LEVELS - 1)
                <= middle - remaining
             && !(Permits(was, root) && IsRemovable(was, user, device, attempt)
                  && Size(was, EntriesOf(was, attempt.id), ROOT_LEVELS - 1) <= middle)
    ensures CleansUp(before, after, user, device, root, prefix, lock, Err(error))
  {
    NotAllRemovable(before, was, user, device, root, lock, k, middle);
    FailureKeepsBudget(before, was, after, user, device, root, lock, k, middle, remaining);
  }

  lemma NothingDone(fs: Inodes, user: nat, device: nat, root: Id, prefix: string, lock: string)
    requires IsTreeAt(fs, root, ROOT_LEVELS)
    requires !AreExpected(EntriesOf(fs, root), prefix, lock) || |Attempts(EntriesOf(fs, root), lock)| > MAX_CLEANUP_ENTRIES
    ensures CleansUp(fs, fs, user, device, root, prefix, lock, Err(Integrity))
  {
    var attempts := Attempts(EntriesOf(fs, root), lock);
    SizeCounts(fs, attempts, ROOT_LEVELS);
    NothingRemoved(EntriesOf(fs, root), lock);
    assert attempts[0..] == attempts;
  }

  lemma AllDone(
      before: Inodes, after: Inodes, user: nat, device: nat, root: Id, prefix: string, lock: string, remaining: nat)
    requires var attempts := Attempts(EntriesOf(before, root), lock);
             && |attempts| <= MAX_CLEANUP_ENTRIES && AreExpected(EntriesOf(before, root), prefix, lock)
             && RemovedTo(before, after, user, device, root, lock, |attempts|, MAX_CLEANUP_ENTRIES - |attempts| - remaining)
    ensures CleansUp(before, after, user, device, root, prefix, lock, Ok(|Attempts(EntriesOf(before, root), lock)|))
  {
    AllRemoved(EntriesOf(before, root), lock);
  }

  method CleanupAttempts(fs: FileSystem, root: Id, prefix: string, lock: string, rootDevice: nat)
    returns (r: Result<nat, Error>)
    requires IsTreeAt(fs.inodes, root, ROOT_LEVELS)
    modifies fs
    ensures CleansUp(old(fs.inodes), fs.inodes, fs.user, rootDevice, root, prefix, lock, r)
  {
    ghost var before, entries := fs.inodes, EntriesOf(fs.inodes, root);
    ghost var all := Attempts(entries, lock);
    NamesAreProper(before, entries, ROOT_LEVELS);
    var budget := new CleanupBudget();
    var names := fs.DirectoryEntries(root, MAX_CLEANUP_ENTRIES + 1);
    if names.Err? {
      AtMostOneLock(before, entries, lock);
      NothingDone(before, fs.user, rootDevice, root, prefix, lock);
      return Err(names.error);
    }
    var attempts := CollectAttempts(names.value, prefix, lock, budget, entries);
    if attempts.Err? {
      NothingDone(before, fs.user, rootDevice, root, prefix, lock);
      return Err(attempts.error);
    }
    AtTheStart(before, fs.user, rootDevice, root, lock);
    for k := 0 to |attempts.value|
      invariant RemovedTo(before, fs.inodes, fs.user, rootDevice, root, lock, k, MAX_CLEANUP_ENTRIES - |all| - budget.remaining)
    {
      var removed := RemoveNext(fs, root, attempts.value[k], rootDevice, budget, before, prefix, lock, k);
      if removed.Err? {
        return Err(removed.error);
      }
    }
    AllDone(before, fs.inodes, fs.user, rootDevice, root, prefix, lock, budget.remaining);
    return Ok(|attempts.value|);
  }

  lemma AtTheStart(fs: Inodes, user: nat, device: nat, root: Id, lock: string)
    requires IsTreeAt(fs, root, ROOT_LEVELS)
    ensures RemovedTo(fs, fs, user, device, root, lock, 0, 0)
  {
    NothingRemoved(EntriesOf(fs, root), lock);
    AttemptsOfTree(fs, EntriesOf(fs, root), lock, ROOT_LEVELS);
    assert Attempts(EntriesOf(fs, root), lock)[0..] == Attempts(EntriesOf(fs, root), lock);
  }

  // One turn of the loop, when the first attempts are gone.
  method RemoveNext(
      fs: FileSystem, root: Id, name: string, rootDevice: nat, budget: CleanupBudget,
      ghost before: Inodes, ghost prefix: string, ghost lock: string, ghost k: nat)
    returns (r: Result<(), Error>)
    requires IsTree(before, EntriesOf(before, root), ROOT_LEVELS) && AreExpected(EntriesOf(before, root), prefix, lock)
    requires var attempts := Attempts(EntriesOf(before, root), lock);
             && k < |attempts| <= MAX_CLEANUP_ENTRIES && attempts[k].name == name
             && RemovedTo(before, fs.inodes, fs.user, rootDevice, root, lock, k,
                          MAX_CLEANUP_ENTRIES - |attempts| - budget.remaining)
    modifies fs, budget
    ensures r.Ok? ==> RemovedTo(before, fs.inodes, fs.user, rootDevice, root, lock, k + 1,
                                MAX_CLEANUP_ENTRIES - |Attempts(EntriesOf(before, root), lock)| - budget.remaining)
    ensures r.Err? ==> CleansUp(before, fs.inodes, fs.user, rootDevice, root, prefix, lock, Err(r.error))
  {
    ghost var was, middle, all := fs.inodes, budget.remaining, Attempts(EntriesOf(before, root), lock);
    NextAttempt(before, EntriesOf(before, root), lock, k);
    r := RemoveAttempt(fs, root, name, rootDevice, budget, all[k..]);
    if r.Ok? {
      RemovedStep(before, was, fs.inodes, fs.user, rootDevice, root, lock, k, MAX_CLEANUP_ENTRIES - |all| - middle);
    } else {
      NotRemoved(before, was, fs.inodes, fs.user, rootDevice, root, prefix, lock, k, middle, budget.remaining, r.error);
    }
  }

  lemma {:induction false} AtMostOneLock(fs: Inodes, entries: seq<Dirent>, lock: string)
    requires IsTree(fs, entries, ROOT_LEVELS)
    ensures |entries| <= |Attempts(entries, lock)| + 1
    ensures !Named(entries, lock) ==> |entries| == |Attempts(entries, lock)|
    decreases |entries|
  {
    if entries != [] {
      NamedHead(entries, lock);
      AtMostOneLock(fs, entries[1..], lock);
    }
  }
}

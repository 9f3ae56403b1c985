// Sealing a batch of output files out of a directory that others may change at any moment. What the
// directory and the files are like is an arbitrary function of time; every system call sees one moment.
module OutputSealing {
  import opened Wrappers
  import opened ByteOrder
  import F = Framing

  const MAX_BATCH_OUTPUT_FILES: nat := 10
  const STREAM_BUFFER_BYTES: nat := 64 * 1024
  const DOT: Name := [46]
  const DOT_DOT: Name := [46, 46]

  datatype OutputError =
    | Unavailable
    | UnsafeDirectory
    | InvalidFileLimit
    | TooManyEntries
    | Missing
    | NotRegular
    | Empty
    | TooLarge
    | ChangedDuringRead
    | SinkFailed

  datatype Id = Id(device: nat, inode: nat)

  datatype Attributes = Attributes(isFile: bool, mode: nat, links: nat, size: nat, modified: (int, nat), changed: (int, nat))

  datatype Identity = Identity(id: Id, attributes: Attributes)

  datatype File = File(attributes: Attributes, content: seq<F.Byte>)

  // The directory and all files at one moment: the raw stream of names, what the names lead to, and each
  // file by its device and inode.
  datatype World = World(isPrivate: bool, stream: seq<Name>, names: map<Name, Id>, files: Id -> File)

  predicate IsDots(name: Name) {
    name == DOT || name == DOT_DOT
  }

  function Entries(stream: seq<Name>): seq<Name> {
    if stream == [] then []
    else if IsDots(stream[0]) then Entries(stream[1..])
    else [stream[0]] + Entries(stream[1..])
  }

  function IdentityIn(w: World, id: Id): Identity {
    Identity(id, w.files(id).attributes)
  }

  // Within a stretch of time: a name leads to a file, a file has an identity, the names are just these.

  ghost predicate Leads(worlds: nat -> World, start: nat, end: nat, name: Name, id: Id) {
    exists t | start <= t < end :: name in worlds(t).names && worlds(t).names[name] == id
  }

  ghost predicate HasIdentity(worlds: nat -> World, start: nat, end: nat, identity: Identity) {
    exists t | start <= t < end :: IdentityIn(worlds(t), identity.id) == identity
  }

  ghost predicate AreListed(worlds: nat -> World, start: nat, end: nat, names: seq<Name>) {
    exists t | start <= t < end :: Sort(Entries(worlds(t).stream)) == names
  }

  // A file that has the same identity at two moments has had the same content all the while.
  ghost predicate IsFaithful(worlds: nat -> World) {
    forall i: nat, j: nat, k: nat, id: Id | i <= k <= j && IdentityIn(worlds(i), id) == IdentityIn(worlds(j), id) ::
      worlds(k).files(id).content == worlds(i).files(id).content
  }

  // Nobody interferes.
  ghost predicate IsStill(worlds: nat -> World) {
    forall t: nat :: worlds(t) == worlds(0)
  }

  // The system calls. Any of them may fail; a ghost tells whether one has.
  class Machine {
    const worlds: nat -> World
    var time: nat
    ghost var faulted: bool

    constructor (worlds: nat -> World)
      ensures this.worlds == worlds && !faulted
    {
      this.worlds := worlds;
      time, faulted := 0, false;
    }

    method ValidatePrivateDirectory() returns (r: Result<(), OutputError>)
      modifies this
      ensures time == old(time) + 1 && (old(faulted) ==> faulted)
      ensures r.Ok? ==> worlds(old(time)).isPrivate
      ensures !faulted && r.Err? ==> r == Err(UnsafeDirectory) && !worlds(old(time)).isPrivate
    {
      var fails: bool := *;
      faulted := faulted || fails;
      var isPrivate := worlds(time).isPrivate;
      time := time + 1;
      return if fails then Err(Unavailable) else if isPrivate then Ok(()) else Err(UnsafeDirectory);
    }

    method OpenOutputAt(name: Name) returns (r: Result<Id, OutputError>)
      modifies this
      ensures time == old(time) + 1 && (old(faulted) ==> faulted)
      ensures r.Ok? ==> name in worlds(old(time)).names && r.value == worlds(old(time)).names[name]
      ensures !faulted && r.Err? ==> name !in worlds(old(time)).names
    {
      var fails: bool := *;
      faulted := faulted || fails;
      var names := worlds(time).names;
      time := time + 1;
      return if fails || name !in names then Err(Unavailable) else Ok(names[name]);
    }

    method Metadata(id: Id) returns (r: Result<Attributes, OutputError>)
      modifies this
      ensures time == old(time) + 1 && (old(faulted) ==> faulted)
      ensures r.Ok? ==> r.value == worlds(old(time)).files(id).attributes
      ensures !faulted ==> r.Ok?
    {
      var fails: bool := *;
      faulted := faulted || fails;
      var attributes := worlds(time).files(id).attributes;
      time := time + 1;
      return if fails then Err(Unavailable) else Ok(attributes);
    }

    // Reads at least one byte at an offset, and at most a buffer; nothing at or beyond the end.
    method Read(id: Id, offset: nat) returns (r: Result<seq<F.Byte>, OutputError>)
      modifies this
      ensures time == old(time) + 1 && (old(faulted) ==> faulted) && (!faulted ==> r.Ok?)
      ensures r.Ok? ==> var content := worlds(old(time)).files(id).content;
                        if offset >= |content| then r.value == []
                        else 0 < |r.value| <= STREAM_BUFFER_BYTES && offset + |r.value| <= |content|
                             && r.value == content[offset..offset + |r.value|]
    {
      var fails: bool := *;
      faulted := faulted || fails;
      var wanted: int := *;
      var content := worlds(time).files(id).content;
      time := time + 1;
      if fails {
        return Err(Unavailable);
      }
      if offset >= |content| {
        return Ok([]);
      }
      var most := if |content| - offset < STREAM_BUFFER_BYTES then |content| - offset else STREAM_BUFFER_BYTES;
      var count := if 0 < wanted <= most then wanted else most;
      return Ok(content[offset..offset + count]);
    }

    // The names in the directory, in strict byte order, whatever order they are listed in.
    method SortedEntries(limit: nat) returns (r: Result<seq<Name>, OutputError>)
      modifies this
      ensures time == old(time) + 1 && (old(faulted) ==> faulted)
      ensures r.Ok? ==> r.value == Sort(Entries(worlds(old(time)).stream)) && |r.value| <= limit
      ensures r == Err(TooManyEntries) ==> |Entries(worlds(old(time)).stream)| > limit
      ensures !faulted && r.Err? ==> r == Err(TooManyEntries)
    {
      var fails: bool := *;
      faulted := faulted || fails;
      var stream := worlds(time).stream;
      time := time + 1;
      if fails {
        return Err(Unavailable);
      }
      var entries: seq<Name> := [];
      for i := 0 to |stream|
        invariant Entries(stream) == entries + Entries(stream[i..])
        invariant |entries| <= limit
      {
        assert stream[i..][1..] == stream[i + 1..];
        if !IsDots(stream[i]) {
          if |entries| == limit {
            return Err(TooManyEntries);
          }
          assert entries + ([stream[i]] + Entries(stream[i + 1..])) == entries + [stream[i]] + Entries(stream[i + 1..]);
          entries := entries + [stream[i]];
        }
      }
      assert entries + [] == entries;
      SortLength(entries);
      return Ok(Sort(entries));
    }
  }

  method ValidateRegularOutput(attributes: Attributes, maxBytes: nat) returns (r: Result<(), OutputError>)
    ensures r.Ok? <==> attributes.isFile && attributes.links == 1 && 0 < attributes.size <= maxBytes
    ensures r.Err? ==> r.error == if !attributes.isFile || attributes.links != 1 then NotRegular
                                  else if attributes.size == 0 then Empty else TooLarge
  {
    if !attributes.isFile || attributes.links != 1 {
      return Err(NotRegular);
    }
    if attributes.size == 0 {
      return Err(Empty);
    }
    return if attributes.size > maxBytes then Err(TooLarge) else Ok(());
  }

  datatype Entry = Entry(name: Name, identity: Identity)

  datatype Snapshot = Snapshot(entries: seq<Entry>, maxBytes: nat)

  function NamesOf(entries: seq<Entry>): seq<Name> {
    seq(|entries|, k requires 0 <= k < |entries| => entries[k].name)
  }

  // A name leads to its file, and the file has its identity.
  ghost predicate IsCurrent(worlds: nat -> World, start: nat, end: nat, entry: Entry) {
    Leads(worlds, start, end, entry.name, entry.identity.id) && HasIdentity(worlds, start, end, entry.identity)
  }

  // In a still world: the name leads to the very file.
  predicate IsIn(w: World, entry: Entry) {
    entry.name in w.names && IdentityIn(w, w.names[entry.name]) == entry.identity
  }

  method ValidateCurrentOutput(m: Machine, entry: Entry) returns (r: Result<(), OutputError>)
    modifies m
    ensures m.time >= old(m.time) && (old(m.faulted) ==> m.faulted)
    ensures r.Ok? ==> IsCurrent(m.worlds, old(m.time), m.time, entry)
    ensures IsStill(m.worlds) && !m.faulted ==> (r.Ok? <==> IsIn(m.worlds(0), entry))
  {
    var current := m.OpenOutputAt(entry.name);
    if current.Err? {
      return Err(current.error);
    }
    assert m.worlds(old(m.time)).names[entry.name] == current.value;
    ghost var t := m.time;
    var attributes := m.Metadata(current.value);
    if attributes.Err? {
      return Err(attributes.error);
    }
    if Identity(current.value, attributes.value) != entry.identity {
      return Err(ChangedDuringRead);
    }
    assert IdentityIn(m.worlds(t), entry.identity.id) == entry.identity;
    return Ok(());
  }

  // The directory is private, every name is listed, and every entry is current, each at some moment of a
  // stretch of time.
  ghost predicate AreCurrent(worlds: nat -> World, start: nat, end: nat, entries: seq<Entry>) {
    && (exists t | start <= t < end :: worlds(t).isPrivate)
    && AreListed(worlds, start, end, NamesOf(entries))
    && forall k | 0 <= k < |entries| :: IsCurrent(worlds, start, end, entries[k])
  }

  predicate AreIn(w: World, entries: seq<Entry>) {
    && w.isPrivate && |entries| <= MAX_BATCH_OUTPUT_FILES && Sort(Entries(w.stream)) == NamesOf(entries)
    && forall k | 0 <= k < |entries| :: IsIn(w, entries[k])
  }

  method Validate(m: Machine, snapshot: Snapshot) returns (r: Result<(), OutputError>)
    modifies m
    ensures m.time >= old(m.time) && (old(m.faulted) ==> m.faulted)
    ensures r.Ok? ==> AreCurrent(m.worlds, old(m.time), m.time, snapshot.entries)
    ensures IsStill(m.worlds) && !m.faulted ==> (r.Ok? <==> AreIn(m.worlds(0), snapshot.entries))
  {
    r := m.ValidatePrivateDirectory();
    if r.Err? {
      return;
    }
    assert m.worlds(old(m.time)).isPrivate;
    ghost var listing := m.time;
    var names := m.SortedEntries(MAX_BATCH_OUTPUT_FILES);
    SortLength(Entries(m.worlds(listing).stream));
    if names.Err? {
      return Err(if names.error == TooManyEntries then ChangedDuringRead else names.error);
    }
    if names.value != NamesOf(snapshot.entries) {
      return Err(ChangedDuringRead);
    }
    assert Sort(Entries(m.worlds(listing).stream)) == NamesOf(snapshot.entries);
    r := ValidateEach(m, snapshot.entries);
  }

  lemma SortLength(names: seq<Name>)
    ensures |Sort(names)| == |names|
  {
    SortKeeps(names);
    assert |multiset(Sort(names))| == |multiset(names)|;
  }

  method ValidateEach(m: Machine, entries: seq<Entry>) returns (r: Result<(), OutputError>)
    modifies m
    ensures m.time >= old(m.time) && (old(m.faulted) ==> m.faulted)
    ensures r.Ok? ==> forall k | 0 <= k < |entries| :: IsCurrent(m.worlds, old(m.time), m.time, entries[k])
    ensures IsStill(m.worlds) && !m.faulted ==> (r.Ok? <==> forall k | 0 <= k < |entries| :: IsIn(m.worlds(0), entries[k]))
  {
    ghost var still := IsStill(m.worlds);
    for k := 0 to |entries|
      invariant m.time >= old(m.time) && (old(m.faulted) ==> m.faulted)
      invariant still && !m.faulted ==> forall j | 0 <= j < k :: IsIn(m.worlds(0), entries[j])
      invariant forall j | 0 <= j < k :: IsCurrent(m.worlds, old(m.time), m.time, entries[j])
    {
      r := ValidateCurrentOutput(m, entries[k]);
      if r.Err? {
        return;
      }
    }
    return Ok(());
  }

  // A name leads to a regular file that may be taken.
  predicate IsTakeable(w: World, name: Name, maxBytes: nat) {
    && name in w.names
    && var attributes := w.files(w.names[name]).attributes;
       attributes.isFile && attributes.links == 1 && 0 < attributes.size <= maxBytes
  }

  // Opens a file and takes its identity.
  method VerifyFile(m: Machine, name: Name, maxBytes: nat) returns (r: Result<Entry, OutputError>, ghost now: nat)
    modifies m
    ensures m.time >= old(m.time) && (old(m.faulted) ==> m.faulted)
    ensures r.Ok? ==> r.value.name == name && IsTaken(m.worlds, old(m.time), m.time, r.value, maxBytes, now)
    ensures IsStill(m.worlds) && !m.faulted ==> (r.Ok? <==> IsTakeable(m.worlds(0), name, maxBytes))
    ensures IsStill(m.worlds) && r.Ok? ==> IsIn(m.worlds(0), r.value)
  {
    now := m.time;
    var descriptor := m.OpenOutputAt(name);
    if descriptor.Err? {
      return Err(descriptor.error), now;
    }
    now := m.time;
    var attributes := m.Metadata(descriptor.value);
    if attributes.Err? {
      return Err(attributes.error), now;
    }
    var regular := ValidateRegularOutput(attributes.value, maxBytes);
    if regular.Err? {
      return Err(regular.error), now;
    }
    return Ok(Entry(name, Identity(descriptor.value, attributes.value))), now;
  }

  method VerifyEach(m: Machine, names: seq<Name>, maxBytes: nat) returns (r: Result<seq<Entry>, OutputError>, ghost taken: seq<nat>)
    modifies m
    ensures m.time >= old(m.time) && (old(m.faulted) ==> m.faulted)
    ensures r.Ok? ==> NamesOf(r.value) == names && AreTaken(m.worlds, old(m.time), m.time, r.value, maxBytes, taken)
    ensures IsStill(m.worlds) && !m.faulted ==> (r.Ok? <==> forall k | 0 <= k < |names| :: IsTakeable(m.worlds(0), names[k], maxBytes))
    ensures IsStill(m.worlds) && r.Ok? ==> forall k | 0 <= k < |r.value| :: IsIn(m.worlds(0), r.value[k])
  {
    var entries: seq<Entry> := [];
    taken := [];
    ghost var still := IsStill(m.worlds);
    for k := 0 to |names|
      invariant m.time >= old(m.time) && (old(m.faulted) ==> m.faulted) && NamesOf(entries) == names[..k]
      invariant AreTaken(m.worlds, old(m.time), m.time, entries, maxBytes, taken)
      invariant still && !m.faulted ==> forall j | 0 <= j < k :: IsTakeable(m.worlds(0), names[j], maxBytes)
      invariant still ==> forall j | 0 <= j < k :: IsIn(m.worlds(0), entries[j])
    {
      ghost var before := m.time;
      var entry, now := VerifyFile(m, names[k], maxBytes);
      if entry.Err? {
        return Err(entry.error), taken;
      }
      TakenToo(m.worlds, old(m.time), before, m.time, entries, maxBytes, taken, entry.value, now);
      entries := entries + [entry.value];
      taken := taken + [now];
    }
    return Ok(entries), taken;
  }

  // What the directory must be like for its outputs to be verified, when nobody interferes.
  predicate IsVerifiable(w: World, maxFiles: nat, maxBytes: nat) {
    var names := Sort(Entries(w.stream));
    && 1 <= maxFiles <= MAX_BATCH_OUTPUT_FILES && w.isPrivate && 0 < |names| <= maxFiles
    && forall k | 0 <= k < |names| :: IsTakeable(w, names[k], maxBytes)
  }

  // Opens every file once and keeps its identity; the listing, the names and the identities are checked
  // again before anything is returned. Ghosts tell when each identity was taken and when the check began.
  method VerifyFiles(m: Machine, maxFiles: nat, maxBytes: nat)
    returns (r: Result<Snapshot, OutputError>, ghost taken: seq<nat>, ghost middle: nat)
    modifies m
    ensures m.time >= old(m.time) && (old(m.faulted) ==> m.faulted)
    ensures !(1 <= maxFiles <= MAX_BATCH_OUTPUT_FILES) ==> r == Err(InvalidFileLimit)
    ensures r.Ok? ==> IsVerified(m.worlds, old(m.time), middle, m.time, r.value, taken) && r.value.maxBytes == maxBytes
                      && 0 < |r.value.entries| <= maxFiles
    ensures IsStill(m.worlds) && !m.faulted ==> (r.Ok? <==> IsVerifiable(m.worlds(0), maxFiles, maxBytes))
    ensures IsStill(m.worlds) && r.Ok? ==> AreIn(m.worlds(0), r.value.entries)
  {
    taken, middle := [], m.time;
    if !(1 <= maxFiles <= MAX_BATCH_OUTPUT_FILES) {
      return Err(InvalidFileLimit), [], middle;
    }
    var isPrivate := m.ValidatePrivateDirectory();
    if isPrivate.Err? {
      return Err(isPrivate.error), [], middle;
    }
    ghost var listing := m.time;
    SortLength(Entries(m.worlds(listing).stream));
    var names := m.SortedEntries(maxFiles);
    if names.Err? {
      return Err(names.error), [], middle;
    }
    if names.value == [] {
      return Err(Missing), [], middle;
    }
    var entries;
    entries, taken := VerifyEach(m, names.value, maxBytes);
    if entries.Err? {
      return Err(entries.error), taken, middle;
    }
    middle := m.time;
    var snapshot := Snapshot(entries.value, maxBytes);
    var valid := Validate(m, snapshot);
    return if valid.Err? then Err(valid.error) else Ok(snapshot), taken, middle;
  }

  // An entry is a regular file with one link and a size within the limit, as it was when its identity was
  // taken.
  predicate IsTaken(worlds: nat -> World, start: nat, end: nat, entry: Entry, maxBytes: nat, taken: nat) {
    var identity := entry.identity;
    && start <= taken < end && IdentityIn(worlds(taken), identity.id) == identity
    && identity.attributes.isFile && identity.attributes.links == 1 && 0 < identity.attributes.size <= maxBytes
  }

  predicate AreTaken(worlds: nat -> World, start: nat, end: nat, entries: seq<Entry>, maxBytes: nat, taken: seq<nat>) {
    && |taken| == |entries|
    && forall k | 0 <= k < |entries| :: IsTaken(worlds, start, end, entries[k], maxBytes, taken[k])
  }

  lemma TakenToo(
      worlds: nat -> World, start: nat, middle: nat, end: nat, entries: seq<Entry>, maxBytes: nat, taken: seq<nat>,
      entry: Entry, now: nat)
    requires start <= middle <= end && AreTaken(worlds, start, middle, entries, maxBytes, taken)
    requires IsTaken(worlds, middle, end, entry, maxBytes, now)
    ensures AreTaken(worlds, start, end, entries + [entry], maxBytes, taken + [now])
  {
    forall k | 0 <= k < |entries| ensures IsTaken(worlds, start, end, entries[k], maxBytes, taken[k]) {
      assert IsTaken(worlds, start, middle, entries[k], maxBytes, taken[k]);
    }
  }

  // First all identities were taken, then all entries were current.
  ghost predicate IsVerified(worlds: nat -> World, start: nat, middle: nat, end: nat, snapshot: Snapshot, taken: seq<nat>) {
    && start <= middle <= end && AreTaken(worlds, start, middle, snapshot.entries, snapshot.maxBytes, taken)
    && AreCurrent(worlds, middle, end, snapshot.entries)
  }

  // ---- Sealing ----

  // Where the bytes go, chunk by chunk. A reliable sink never fails.
  class Sink {
    const reliable: bool
    var chunks: seq<seq<F.Byte>>

    constructor (reliable: bool)
      ensures chunks == [] && this.reliable == reliable
    {
      this.reliable := reliable;
      chunks := [];
    }

    method WriteChunk(chunk: seq<F.Byte>) returns (ok: bool)
      modifies this
      ensures ok ==> chunks == old(chunks) + [chunk]
      ensures reliable ==> ok
    {
      ok := *;
      ok := ok || reliable;
      chunks := chunks + [chunk];
    }
  }

  // A sealed output; the digest is that of all bytes sent to the sink.
  datatype Sealed = Sealed(name: Name, byteSize: nat, digest: nat)

  predicate IsSteady(worlds: nat -> World, start: nat, end: nat, id: Id, content: seq<F.Byte>) {
    forall t | start <= t < end :: worlds(t).files(id).content == content
  }

  lemma {:induction false} FlattenMore(chunks: seq<seq<F.Byte>>, chunk: seq<F.Byte>)
    ensures F.Flatten(chunks + [chunk]) == F.Flatten(chunks) + chunk
  {
    if chunks == [] {
      assert F.Flatten([chunk]) == chunk + F.Flatten([]);
    } else {
      assert (chunks + [chunk])[1..] == chunks[1..] + [chunk];
      FlattenMore(chunks[1..], chunk);
    }
  }

  // Bytes were read from a file that had an identity before and afterwards; they are its content if that
  // did not change in between.
  ghost predicate IsReadBetween(worlds: nat -> World, taken: nat, again: nat, identity: Identity, bytes: seq<F.Byte>) {
    var content := worlds(taken).files(identity.id).content;
    && IdentityIn(worlds(taken), identity.id) == identity && IdentityIn(worlds(again), identity.id) == identity
    && (IsSteady(worlds, taken, again, identity.id, content) ==> bytes == content)
  }

  // The same, around a moment.
  ghost predicate IsReadAround(worlds: nat -> World, moment: nat, identity: Identity, bytes: seq<F.Byte>) {
    exists taken: nat, again: nat | taken <= moment <= again :: IsReadBetween(worlds, taken, again, identity, bytes)
  }

  // In a faithful world the bytes are the content at that moment.
  lemma ReadIsContent(worlds: nat -> World, moment: nat, identity: Identity, bytes: seq<F.Byte>)
    requires IsFaithful(worlds) && IsReadAround(worlds, moment, identity, bytes)
    ensures worlds(moment).files(identity.id).content == bytes
  {
    var taken: nat, again: nat :| taken <= moment <= again && IsReadBetween(worlds, taken, again, identity, bytes);
    var content := worlds(taken).files(identity.id).content;
    forall t | taken <= t < again ensures worlds(t).files(identity.id).content == content {}
    assert worlds(moment).files(identity.id).content == content;
  }

  // A file holds as many bytes as its identity says, and no more than the limit.
  predicate IsFull(w: World, identity: Identity, maxBytes: nat) {
    |w.files(identity.id).content| == identity.attributes.size <= maxBytes
  }

  // Chunks of at most a buffer that add up to some bytes.
  predicate AreChunks(chunks: seq<seq<F.Byte>>, bytes: seq<F.Byte>) {
    bytes == F.Flatten(chunks) && forall k | 0 <= k < |chunks| :: 0 < |chunks[k]| <= STREAM_BUFFER_BYTES
  }

  lemma OneMoreChunk(chunks: seq<seq<F.Byte>>, bytes: seq<F.Byte>, chunk: seq<F.Byte>)
    requires AreChunks(chunks, bytes) && 0 < |chunk| <= STREAM_BUFFER_BYTES
    ensures AreChunks(chunks + [chunk], bytes + chunk)
  {
    FlattenMore(chunks, chunk);
  }

  lemma StillIsSteady(worlds: nat -> World, taken: nat, end: nat, id: Id)
    ensures IsStill(worlds) ==> worlds(taken) == worlds(0) && IsSteady(worlds, taken, end, id, worlds(taken).files(id).content)
  {
  }

  // Streams one more chunk; an empty one at the end of the file.
  method StreamChunk(
      m: Machine, identity: Identity, maxBytes: nat, sink: Sink, hashed: seq<F.Byte>, ghost taken: nat, ghost content: seq<F.Byte>)
    returns (r: Result<seq<F.Byte>, OutputError>)
    requires AreChunks(sink.chunks, hashed) && |hashed| <= maxBytes && taken < m.time
    requires IsSteady(m.worlds, taken, m.time, identity.id, content) ==> hashed <= content
    modifies m, sink
    ensures m.time > old(m.time) && (old(m.faulted) ==> m.faulted)
    ensures r.Ok? ==> && AreChunks(sink.chunks, hashed + r.value) && |hashed + r.value| <= maxBytes
                      && (IsSteady(m.worlds, taken, m.time, identity.id, content) ==>
                            hashed + r.value <= content && (r.value == [] ==> hashed == content))
    ensures r.Err? ==> m.faulted || !sink.reliable
                       || (IsSteady(m.worlds, taken, m.time, identity.id, content) ==> |content| > maxBytes)
  {
    hide AreChunks;
    var read := m.Read(identity.id, |hashed|);
    if read.Err? {
      return Err(read.error);
    }
    assert read.value == [] ==> hashed + read.value == hashed;
    if read.value == [] {
      return Ok([]);
    }
    if |hashed| + |read.value| > maxBytes {
      return Err(TooLarge);
    }
    OneMoreChunk(sink.chunks, hashed, read.value);
    var written := sink.WriteChunk(read.value);
    return if written then Ok(read.value) else Err(SinkFailed);
  }

  // Streams the open file to the sink. The result is the bytes read, if they add up to the size of the
  // identity and the file still has it; a ghost tells when that was seen.
  method StreamFile(m: Machine, identity: Identity, maxBytes: nat, sink: Sink, ghost taken: nat)
    returns (r: Result<seq<F.Byte>, OutputError>, ghost again: nat)
    requires sink.chunks == []
    requires taken < m.time && IdentityIn(m.worlds(taken), identity.id) == identity
    modifies m, sink
    ensures m.time >= old(m.time) && (old(m.faulted) ==> m.faulted)
    ensures r.Ok? ==>
              && r.value == F.Flatten(sink.chunks) && |r.value| == identity.attributes.size <= maxBytes
              && (forall k | 0 <= k < |sink.chunks| :: 0 < |sink.chunks[k]| <= STREAM_BUFFER_BYTES)
              && old(m.time) <= again < m.time && IsReadBetween(m.worlds, taken, again, identity, r.value)
    ensures IsStill(m.worlds) && !m.faulted && sink.reliable ==> (r.Ok? <==> IsFull(m.worlds(0), identity, maxBytes))
  {
    hide IsSteady, IsStill, IsReadBetween;
    ghost var content := m.worlds(taken).files(identity.id).content;
    ghost var first := m.time;
    again := m.time;
    var hashed: seq<F.Byte> := [];
    StillIsSteady(m.worlds, taken, m.time, identity.id);
    while true
      invariant first <= m.time && AreChunks(sink.chunks, hashed) && |hashed| <= maxBytes && (old(m.faulted) ==> m.faulted)
      invariant IsSteady(m.worlds, taken, m.time, identity.id, content) ==> hashed <= content
      decreases maxBytes - |hashed|
    {
      var chunk := StreamChunk(m, identity, maxBytes, sink, hashed, taken, content);
      StillIsSteady(m.worlds, taken, m.time, identity.id);
      if chunk.Err? {
        return Err(chunk.error), again;
      }
      if chunk.value == [] {
        assert hashed + chunk.value == hashed;
        break;
      }
      hashed := hashed + chunk.value;
    }
    again := m.time;
    r := CheckStreamed(m, identity, hashed, taken);
  }

  // What was read adds up to the size of the identity, which the file still has.
  method CheckStreamed(m: Machine, identity: Identity, hashed: seq<F.Byte>, ghost taken: nat) returns (r: Result<seq<F.Byte>, OutputError>)
    requires IdentityIn(m.worlds(taken), identity.id) == identity
    requires IsSteady(m.worlds, taken, m.time, identity.id, m.worlds(taken).files(identity.id).content) ==>
               hashed == m.worlds(taken).files(identity.id).content
    modifies m
    ensures m.time > old(m.time) && (old(m.faulted) ==> m.faulted)
    ensures r.Ok? ==> r.value == hashed && |hashed| == identity.attributes.size
                      && IsReadBetween(m.worlds, taken, old(m.time), identity, hashed)
    ensures IsStill(m.worlds) && !m.faulted ==> (r.Ok? <==> |hashed| == identity.attributes.size)
  {
    var attributes := m.Metadata(identity.id);
    if attributes.Err? {
      return Err(attributes.error);
    }
    if |hashed| != identity.attributes.size || attributes.value != identity.attributes {
      return Err(ChangedDuringRead);
    }
    return Ok(hashed);
  }

  // Seals one file of a snapshot. The whole snapshot is validated before the bytes are streamed and again
  // afterwards; ghosts tell when streaming began and ended.
  method SealToAsyncSink(m: Machine, snapshot: Snapshot, k: nat, sink: Sink, sha256: seq<F.Byte> -> nat, ghost taken: nat)
    returns (r: Result<Sealed, OutputError>, ghost begun: nat, ghost again: nat, ghost ended: nat)
    requires sink.chunks == [] && k < |snapshot.entries|
    requires taken < m.time && IdentityIn(m.worlds(taken), snapshot.entries[k].identity.id) == snapshot.entries[k].identity
    modifies m, sink
    ensures m.time >= old(m.time) && (old(m.faulted) ==> m.faulted)
    ensures r.Ok? ==>
              var identity, bytes := snapshot.entries[k].identity, F.Flatten(sink.chunks);
              && r.value == Sealed(snapshot.entries[k].name, |bytes|, sha256(bytes))
              && |bytes| == identity.attributes.size <= snapshot.maxBytes
              && (forall j | 0 <= j < |sink.chunks| :: 0 < |sink.chunks[j]| <= STREAM_BUFFER_BYTES)
              && IsReadBetween(m.worlds, taken, again, identity, bytes)
    ensures r.Ok? ==> && old(m.time) < begun <= again < ended < m.time
                      && AreCurrent(m.worlds, old(m.time), begun, snapshot.entries)
                      && AreCurrent(m.worlds, ended, m.time, snapshot.entries)
    ensures IsStill(m.worlds) && !m.faulted && sink.reliable ==>
              (r.Ok? <==> AreIn(m.worlds(0), snapshot.entries) && IsFull(m.worlds(0), snapshot.entries[k].identity, snapshot.maxBytes))
  {
    begun, again, ended := m.time, m.time, m.time;
    var valid := Validate(m, snapshot);
    if valid.Err? {
      return Err(valid.error), begun, again, ended;
    }
    begun := m.time;
    var entry := snapshot.entries[k];
    var bytes;
    bytes, again := StreamFile(m, entry.identity, snapshot.maxBytes, sink, taken);
    if bytes.Err? {
      return Err(bytes.error), begun, again, ended;
    }
    ended := m.time;
    valid := Validate(m, snapshot);
    if valid.Err? {
      return Err(valid.error), begun, again, ended;
    }
    return Ok(Sealed(entry.name, |bytes.value|, sha256(bytes.value))), begun, again, ended;
  }

  lemma StillCurrent(worlds: nat -> World, start: nat, middle: nat, end: nat, entries: seq<Entry>)
    requires start <= middle && AreCurrent(worlds, middle, end, entries)
    ensures AreCurrent(worlds, start, end, entries)
  {
    forall k | 0 <= k < |entries| ensures IsCurrent(worlds, start, end, entries[k]) {
      assert IsCurrent(worlds, middle, end, entries[k]);
    }
  }

  // What a batch delivers: for every entry of a snapshot, its bytes.
  datatype Output = Output(seal: Sealed, bytes: seq<F.Byte>)

  // The outputs of the first entries: the size of the snapshot, the digest of the very bytes.
  predicate AreSealed(snapshot: Snapshot, outputs: seq<Output>, sha256: seq<F.Byte> -> nat) {
    && |outputs| <= |snapshot.entries|
    && forall k | 0 <= k < |outputs| ::
         var entry, bytes := snapshot.entries[k], outputs[k].bytes;
         outputs[k].seal == Sealed(entry.name, |bytes|, sha256(bytes)) && |bytes| == entry.identity.attributes.size
  }

  // The outputs of the first entries are what those files contained at one moment.
  predicate AreContents(w: World, snapshot: Snapshot, outputs: seq<Output>) {
    && |outputs| <= |snapshot.entries|
    && forall k | 0 <= k < |outputs| :: w.files(snapshot.entries[k].identity.id).content == outputs[k].bytes
  }

  // What the directory must be like for all its outputs to be sealed, when nobody interferes.
  predicate IsSealable(w: World, maxFiles: nat, maxBytes: nat) {
    && IsVerifiable(w, maxFiles, maxBytes)
    && var names := Sort(Entries(w.stream));
       forall k | 0 <= k < |names| ::
         var file := w.files(w.names[names[k]]); |file.content| == file.attributes.size
  }

  lemma SealableMeaning(w: World, maxFiles: nat, maxBytes: nat, entries: seq<Entry>)
    requires IsVerifiable(w, maxFiles, maxBytes) && AreIn(w, entries)
    ensures IsSealable(w, maxFiles, maxBytes) <==> forall k | 0 <= k < |entries| :: IsFull(w, entries[k].identity, maxBytes)
  {
    var names := Sort(Entries(w.stream));
    assert |names| == |entries|;
    forall k | 0 <= k < |entries|
      ensures names[k] == entries[k].name && entries[k].identity == IdentityIn(w, w.names[names[k]])
      ensures IsFull(w, entries[k].identity, maxBytes)
         <==> |w.files(w.names[names[k]]).content| == w.files(w.names[names[k]]).attributes.size
    {
      assert IsIn(w, entries[k]) && IsTakeable(w, names[k], maxBytes);
    }
  }

  // Verifies all outputs and seals them one after another. If all goes well, every name of a listing is
  // delivered once, in strict byte order, and in a faithful world the bytes are what all the files
  // contained together at the moment the snapshot was returned. When nobody interferes and nothing fails,
  // all goes well exactly when the directory is as it should be.
  method SealBatch(m: Machine, maxFiles: nat, maxBytes: nat, sha256: seq<F.Byte> -> nat, reliable: bool)
    returns (r: Result<seq<Output>, OutputError>, ghost snapshot: Snapshot, ghost moment: nat)
    requires forall t: nat :: IsDistinct(Entries(m.worlds(t).stream))
    modifies m
    ensures r.Ok? ==>
              && old(m.time) <= moment <= m.time && |r.value| == |snapshot.entries| && 0 < |r.value| <= maxFiles
              && AreSealed(snapshot, r.value, sha256)
              && (forall k | 0 <= k < |r.value| :: 0 < |r.value[k].bytes| <= maxBytes)
              && AreListed(m.worlds, old(m.time), moment, NamesOf(snapshot.entries)) && IsAscending(NamesOf(snapshot.entries))
              && AreCurrent(m.worlds, moment, m.time, snapshot.entries)
              && (IsFaithful(m.worlds) ==> AreContents(m.worlds(moment), snapshot, r.value))
    ensures IsStill(m.worlds) && !m.faulted && reliable ==> (r.Ok? <==> IsSealable(m.worlds(0), maxFiles, maxBytes))
  {
    hide AreContents, IsVerifiable, AreIn, AreReadAround;
    hide IsFaithful, IsStill, IsAscending, IsFull;
    var verified, taken, middle := VerifyFiles(m, maxFiles, maxBytes);
    moment := m.time;
    if verified.Err? {
      return Err(verified.error), Snapshot([], 0), moment;
    }
    snapshot := verified.value;
    ListedAscend(m.worlds, middle, moment, NamesOf(snapshot.entries));
    SizesAreTaken(m.worlds, 0, middle, moment, snapshot, taken);
    if IsStill(m.worlds) && IsVerifiable(m.worlds(0), maxFiles, maxBytes) {
      SealableMeaning(m.worlds(0), maxFiles, maxBytes, snapshot.entries);
    }
    r := SealEach(m, verified.value, sha256, reliable, taken);
    if r.Ok? && IsFaithful(m.worlds) {
      ReadAreContents(m.worlds, moment, snapshot, r.value);
    }
  }

  lemma SizesAreTaken(worlds: nat -> World, start: nat, middle: nat, end: nat, snapshot: Snapshot, taken: seq<nat>)
    requires AreTaken(worlds, start, middle, snapshot.entries, snapshot.maxBytes, taken) && middle <= end
    ensures AreTaken(worlds, start, end, snapshot.entries, snapshot.maxBytes, taken)
    ensures forall k | 0 <= k < |snapshot.entries| :: 0 < snapshot.entries[k].identity.attributes.size <= snapshot.maxBytes
  {
    forall k | 0 <= k < |snapshot.entries|
      ensures IsTaken(worlds, start, end, snapshot.entries[k], snapshot.maxBytes, taken[k])
      ensures 0 < snapshot.entries[k].identity.attributes.size <= snapshot.maxBytes
    {
      assert IsTaken(worlds, start, middle, snapshot.entries[k], snapshot.maxBytes, taken[k]);
    }
  }

  // Seals all files of a snapshot, just after it was returned.
  method SealEach(m: Machine, snapshot: Snapshot, sha256: seq<F.Byte> -> nat, reliable: bool, ghost taken: seq<nat>)
    returns (r: Result<seq<Output>, OutputError>)
    requires AreTaken(m.worlds, 0, m.time, snapshot.entries, snapshot.maxBytes, taken) && snapshot.entries != []
    modifies m
    ensures m.time >= old(m.time) && (old(m.faulted) ==> m.faulted)
    ensures r.Ok? ==>
              && |r.value| == |snapshot.entries| && AreSealed(snapshot, r.value, sha256)
              && AreCurrent(m.worlds, old(m.time), m.time, snapshot.entries)
              && AreReadAround(m.worlds, old(m.time), snapshot, r.value)
    ensures IsStill(m.worlds) && !m.faulted && reliable && AreIn(m.worlds(0), snapshot.entries) ==>
              (r.Ok? <==> forall k | 0 <= k < |snapshot.entries| :: IsFull(m.worlds(0), snapshot.entries[k].identity, snapshot.maxBytes))
  {
    var outputs: seq<Output> := [];
    ghost var moment := m.time;
    ghost var still := IsStill(m.worlds) && reliable && AreIn(m.worlds(0), snapshot.entries);
    for k := 0 to |snapshot.entries|
      invariant m.time >= moment && |outputs| == k && (old(m.faulted) ==> m.faulted)
      invariant AreDelivered(m.worlds, moment, snapshot.entries, outputs, sha256)
      invariant 0 < k ==> AreCurrent(m.worlds, moment, m.time, snapshot.entries)
      invariant still && !m.faulted ==> AreFull(m.worlds(0), snapshot, k)
    {
      var output := SealOne(m, snapshot, k, sha256, reliable, taken[k], moment);
      if output.Err? {
        return Err(output.error);
      }
      DeliveredToo(m.worlds, moment, snapshot.entries, outputs, output.value, sha256);
      FullToo(m.worlds(0), snapshot, k);
      outputs := outputs + [output.value];
    }
    AllDelivered(m.worlds, moment, snapshot, outputs, sha256);
    return Ok(outputs);
  }

  predicate AreFull(w: World, snapshot: Snapshot, n: nat) {
    n <= |snapshot.entries| && forall k | 0 <= k < n :: IsFull(w, snapshot.entries[k].identity, snapshot.maxBytes)
  }

  lemma FullToo(w: World, snapshot: Snapshot, n: nat)
    requires n < |snapshot.entries|
    ensures AreFull(w, snapshot, n + 1) <==> AreFull(w, snapshot, n) && IsFull(w, snapshot.entries[n].identity, snapshot.maxBytes)
  {
  }

  ghost predicate AreReadAround(worlds: nat -> World, moment: nat, snapshot: Snapshot, outputs: seq<Output>) {
    && |outputs| <= |snapshot.entries|
    && forall k | 0 <= k < |outputs| :: IsReadAround(worlds, moment, snapshot.entries[k].identity, outputs[k].bytes)
  }

  lemma ReadAreContents(worlds: nat -> World, moment: nat, snapshot: Snapshot, outputs: seq<Output>)
    requires IsFaithful(worlds) && AreReadAround(worlds, moment, snapshot, outputs)
    ensures AreContents(worlds(moment), snapshot, outputs)
  {
    forall k | 0 <= k < |outputs|
      ensures worlds(moment).files(snapshot.entries[k].identity.id).content == outputs[k].bytes {
      ReadIsContent(worlds, moment, snapshot.entries[k].identity, outputs[k].bytes);
    }
  }

  // One output is as AreSealed and AreReadAround say of all.
  ghost predicate IsDelivered(
      worlds: nat -> World, moment: nat, entry: Entry, output: Output, sha256: seq<F.Byte> -> nat)
  {
    && output.seal == Sealed(entry.name, |output.bytes|, sha256(output.bytes))
    && |output.bytes| == entry.identity.attributes.size
    && IsReadAround(worlds, moment, entry.identity, output.bytes)
  }

  ghost predicate AreDelivered(
      worlds: nat -> World, moment: nat, entries: seq<Entry>, outputs: seq<Output>, sha256: seq<F.Byte> -> nat)
  {
    |outputs| <= |entries|
    && forall k | 0 <= k < |outputs| :: IsDelivered(worlds, moment, entries[k], outputs[k], sha256)
  }

  lemma DeliveredToo(
      worlds: nat -> World, moment: nat, entries: seq<Entry>, outputs: seq<Output>, output: Output,
      sha256: seq<F.Byte> -> nat)
    requires |outputs| < |entries| && AreDelivered(worlds, moment, entries, outputs, sha256)
    requires IsDelivered(worlds, moment, entries[|outputs|], output, sha256)
    ensures AreDelivered(worlds, moment, entries, outputs + [output], sha256)
  {
  }

  lemma AllDelivered(
      worlds: nat -> World, moment: nat, snapshot: Snapshot, outputs: seq<Output>, sha256: seq<F.Byte> -> nat)
    requires AreDelivered(worlds, moment, snapshot.entries, outputs, sha256)
    ensures AreSealed(snapshot, outputs, sha256)
    ensures AreReadAround(worlds, moment, snapshot, outputs)
  {
    assert forall k | 0 <= k < |outputs| :: IsDelivered(worlds, moment, snapshot.entries[k], outputs[k], sha256);
  }

  method SealOne(
      m: Machine, snapshot: Snapshot, k: nat, sha256: seq<F.Byte> -> nat, reliable: bool, ghost taken: nat, ghost moment: nat)
    returns (r: Result<Output, OutputError>)
    requires k < |snapshot.entries| && taken < moment <= m.time
    requires IdentityIn(m.worlds(taken), snapshot.entries[k].identity.id) == snapshot.entries[k].identity
    modifies m
    ensures m.time >= old(m.time) && (old(m.faulted) ==> m.faulted)
    ensures r.Ok? ==> IsDelivered(m.worlds, moment, snapshot.entries[k], r.value, sha256)
                      && AreCurrent(m.worlds, moment, m.time, snapshot.entries)
    ensures IsStill(m.worlds) && !m.faulted && reliable && AreIn(m.worlds(0), snapshot.entries) ==>
              (r.Ok? <==> IsFull(m.worlds(0), snapshot.entries[k].identity, snapshot.maxBytes))
  {
    var sink := new Sink(reliable);
    var seal, begun, again, ended := SealToAsyncSink(m, snapshot, k, sink, sha256, taken);
    if seal.Err? {
      return Err(seal.error);
    }
    StillCurrent(m.worlds, moment, ended, m.time, snapshot.entries);
    return Ok(Output(seal.value, F.Flatten(sink.chunks)));
  }

  lemma ListedAscend(worlds: nat -> World, start: nat, end: nat, names: seq<Name>)
    requires AreListed(worlds, start, end, names) && forall t: nat :: IsDistinct(Entries(worlds(t).stream))
    ensures IsAscending(names)
  {
    var t :| start <= t < end && Sort(Entries(worlds(t).stream)) == names;
    SortAscends(Entries(worlds(t).stream));
  }
}

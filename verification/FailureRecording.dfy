// The closed form of recording failures one after another.
module FailureRecording {
  import opened Wrappers
  import opened Diagnostics
  import opened Protocol

  // A failure with the event that reported it.
  datatype Entry = Entry(source: Source, diagnostic: Diagnostic)

  function RecordAll(start: Option<Diagnostic>, entries: seq<Entry>): Option<Diagnostic>
    decreases |entries|
  {
    if entries == [] then start
    else RecordAll(Record(start, entries[0].source, entries[0].diagnostic), entries[1..])
  }

  // The first entry, from an index on, that satisfies a condition; |entries| when there is none.
  function FirstIndex(entries: seq<Entry>, accepts: Entry -> bool, from: nat): (k: nat)
    requires from <= |entries|
    ensures from <= k <= |entries|
    ensures k < |entries| ==> accepts(entries[k])
    ensures forall j | from <= j < k :: !accepts(entries[j])
    decreases |entries| - from
  {
    if from == |entries| || accepts(entries[from]) then from else FirstIndex(entries, accepts, from + 1)
  }

  predicate IsPolicy(e: Entry) {
    e.diagnostic.policyRejected
  }

  // A terminal event with a known structured reason.
  predicate IsStructuredTerminal(e: Entry) {
    e.source == TurnTerminal && e.diagnostic.errorInfo.Some? && e.diagnostic.errorInfo.value != Unknown
  }

  // A diagnostic with its empty structured pair filled from the first structured terminal entry.
  function Filled(d: Diagnostic, entries: seq<Entry>, from: nat): Diagnostic
    requires from <= |entries|
  {
    var k := FirstIndex(entries, IsStructuredTerminal, from);
    if d.errorInfo.None? && d.httpStatus.None? && k < |entries|
    then d.(errorInfo := entries[k].diagnostic.errorInfo, httpStatus := entries[k].diagnostic.httpStatus)
    else d
  }

  lemma {:induction false} PolicyStays(d: Diagnostic, entries: seq<Entry>)
    requires d.policyRejected
    ensures RecordAll(Some(d), entries) == Some(d)
  {
    if entries != [] {
      PolicyStays(d, entries[1..]);
    }
  }

  lemma {:induction false} FirstIndexTail(entries: seq<Entry>, accepts: Entry -> bool, from: nat)
    requires 0 < from <= |entries|
    ensures FirstIndex(entries, accepts, from) == 1 + FirstIndex(entries[1..], accepts, from - 1)
    decreases |entries| - from
  {
    if from < |entries| && !accepts(entries[from]) {
      FirstIndexTail(entries, accepts, from + 1);
    }
  }

  // Recording after a first failure that no policy rejection follows.
  lemma {:induction false} FirstStays(d: Diagnostic, entries: seq<Entry>)
    requires !d.policyRejected && forall k | 0 <= k < |entries| :: !IsPolicy(entries[k])
    ensures RecordAll(Some(d), entries) == Some(Filled(d, entries, 0))
    decreases |entries|
  {
    if entries != [] {
      var e := entries[0];
      var next := Record(Some(d), e.source, e.diagnostic);
      FirstStays(next.value, entries[1..]);
      if !IsStructuredTerminal(e) {
        FirstIndexTail(entries, IsStructuredTerminal, 1);
      }
    }
  }

  // A policy rejection that follows replaces whatever was recorded.
  lemma {:induction false} PolicyWins(start: Option<Diagnostic>, entries: seq<Entry>, k: nat)
    requires k < |entries| && IsPolicy(entries[k]) && forall j | 0 <= j < k :: !IsPolicy(entries[j])
    requires start.Some? ==> !start.value.policyRejected
    ensures RecordAll(start, entries) == Some(entries[k].diagnostic)
    decreases k
  {
    var next := Record(start, entries[0].source, entries[0].diagnostic);
    if k == 0 {
      PolicyStays(entries[0].diagnostic, entries[1..]);
    } else {
      PolicyWins(next, entries[1..], k - 1);
    }
  }

  // Folding any list of failures yields the first policy rejection unchanged, if there is one, and
  // otherwise the first failure with its structured pair filled from the first later structured
  // terminal event.
  lemma ClosedForm(entries: seq<Entry>)
    requires entries != []
    ensures var k := FirstIndex(entries, IsPolicy, 0);
            RecordAll(None, entries)
              == Some(if k < |entries| then entries[k].diagnostic else Filled(entries[0].diagnostic, entries, 1))
  {
    var k := FirstIndex(entries, IsPolicy, 0);
    if k < |entries| {
      PolicyWins(None, entries, k);
    } else {
      assert !IsPolicy(entries[0]);
      FirstStays(entries[0].diagnostic, entries[1..]);
      FirstIndexTail(entries, IsStructuredTerminal, 1);
    }
  }
}

/** Histories in the shape the engine writes them, and the reader's verdict on
    them: accepted, wherever they are cut. */
module EngineLog {
  import opened Text
  import opened Records
  import opened Identity
  import opened Policies
  import opened Paths
  import opened CatchHistory
  import D = Deadlines

  /** What a continuation sets, by context. */
  type Budgets = map<string, D.Budget>

  /** A record, the place in the run it belongs to, the clock it was built at and,
      for a decision, the continuation budgets it was made under. */
  datatype Entry = Entry(record: Record, path: Path, clock: Time, budgets: Budgets)

  function RecordsOf(log: seq<Entry>): (rs: seq<Record>)
    ensures |rs| == |log| && forall i :: 0 <= i < |log| ==> rs[i] == log[i].record
  {
    seq(|log|, i requires 0 <= i < |log| => log[i].record)
  }

  predicate IsDeclaration(k: Kind) { k in {Scope, Task} }

  predicate HasPath(k: Kind) { IsDeclaration(k) || IsControl(k) }

  /** The record of a kind at a place. */
  function Find(log: seq<Entry>, k: Kind, p: Path): (f: Option<Record>)
    ensures f.Some? ==> exists i :: 0 <= i < |log| && log[i].record == f.value && f.value.kind == k && log[i].path == p
    ensures f.None? ==> forall i :: 0 <= i < |log| ==> !(log[i].record.kind == k && log[i].path == p)
  {
    if log == [] then None
    else
      var n := |log| - 1;
      if log[n].record.kind == k && log[n].path == p then Some(log[n].record) else Find(log[..n], k, p)
  }

  predicate Has(log: seq<Entry>, k: Kind, p: Path) { Find(log, k, p).Some? }

  /** The policy a declaration records, as its reader sees it. */
  function PolicyIn(rec: Record): Option<Policy> {
    if rec.kind == Task then (if TaskOf(rec.descriptor).Some? then Some(TaskOf(rec.descriptor).value.policy) else None)
    else PolicyOf(rec.descriptor)
  }

  predicate PlainRules(rules: seq<string>) { RulesOk(rules) && forall r :: r in rules ==> SegmentOk(Handler(r)) }

  /** The declaration of a boundary, when it has one. */
  function DeclarationAt(log: seq<Entry>, b: Path): Option<Record>
    requires IsBoundaryPath(b)
  {
    Find(log, if b[|b| - 1].kind == "task" then Task else Scope, b)
  }

  /** The contexts around an attempt are recorded: the whole-job attempt, and the
      selection behind every handler it runs in. */
  predicate Opened(log: seq<Entry>, p: Path)
    requires IsAttemptPath(p)
    decreases |p|
  {
    var up, v := p[..|p| - 2], p[|p| - 2];
    if up == [] then v.kind == "scope" && v.site == "$job" && Has(log, Attempt, p)
    else if up[|up| - 1].Try? then IsAttemptPath(up) && Opened(log, up)
    else if up[|up| - 1].Handler? then
      var a := up[..|up| - 1];
      IsAttemptPath(a) && Opened(log, a) && Has(log, Catch, a) && Find(log, Catch, a).value.rule == up[|up| - 1].rule
    else false
  }

  // ---- the shape of engine histories ---------------------------------------------------------

  predicate DeclaresWell(log: seq<Entry>, e: Entry) {
    && IsBoundaryPath(e.path) && e.path[|e.path| - 1].kind == KindText(e.record.kind)
    && PolicyIn(e.record).Some? && PlainRules(PolicyIn(e.record).value.rules)
       && PolicyIn(e.record).value.maximumAttempts >= 1
    && (e.record.kind == Task ==> TaskOf(e.record.descriptor).value.site == e.path[|e.path| - 1].site)
    && forall i :: 0 <= i < |log| ==> !(e.path <= log[i].path)
  }

  /** A selection follows its attempt's failure, and picks a declared rule, or
      none. */
  predicate SelectsWell(log: seq<Entry>, rec: Record, p: Path)
    requires IsAttemptPath(p)
  {
    && Has(log, Result, p) && Find(log, Result, p).value.errorKind != NoError
    && (rec.errorKind != NoError ==> rec.rule == "")
    && (rec.rule != "" ==>
          && SegmentOk(Handler(rec.rule))
          && (DeclarationAt(log, p[..|p| - 1]).Some? ==>
                PolicyIn(DeclarationAt(log, p[..|p| - 1]).value).Some?
                    && rec.rule in PolicyIn(DeclarationAt(log, p[..|p| - 1]).value).value.rules))
  }

  /** A handled result follows the selection of a rule. */
  predicate HandlesWell(log: seq<Entry>, rec: Record, p: Path) {
    && Has(log, Catch, p) && Find(log, Catch, p).value.rule != "" && Find(log, Catch, p).value.errorKind == NoError
    && rec.disposition != NoDisposition
  }

  /** A decision follows the selection and, if a rule was selected, its handled
      result, whose disposition it repeats. */
  predicate DecidesWell(log: seq<Entry>, rec: Record, p: Path) {
    && Has(log, Catch, p)
    && rec.disposition != NoDisposition
    && (rec.retry ==> rec.disposition != Propagate && rec.wakeAt != ZERO_TIME)
    && var c := Find(log, Catch, p).value;
       && (c.errorKind != NoError ==> rec.disposition == Propagate)
       && (if c.rule == "" then !Has(log, Handled, p)
           else
             && Has(log, Handled, p)
             && var h := Find(log, Handled, p).value;
                rec.disposition == h.disposition && (rec.retry ==> h.errorKind != NoError))
  }

  /** What the engine may write after `log`. */
  predicate WellNext(log: seq<Entry>, e: Entry) {
    var rec, k := e.record, e.record.kind;
    && rec.version == PATTERN_VERSION
    && (k == Header <==> log == [])
    && (HasPath(k) ==> rec.id == Print(e.path) && !Has(log, k, e.path))
    && (IsDeclaration(k) ==> DeclaresWell(log, e))
    && (IsControl(k) ==> IsAttemptPath(e.path) && Opened(log + [e], e.path))
    && (k == Attempt ==> rec.attempt == e.path[|e.path| - 1].number)
    && (k == Catch ==> SelectsWell(log, rec, e.path))
    && (k == Handled ==> HandlesWell(log, rec, e.path))
    && (k == Decision ==> DecidesWell(log, rec, e.path))
  }

  ghost predicate WellRecorded(log: seq<Entry>) {
    forall i :: 0 <= i < |log| ==> WellNext(log[..i], log[i])
  }

  // ---- places and records --------------------------------------------------------------------

  lemma {:induction false} WellPrefix(log: seq<Entry>, n: nat)
    requires WellRecorded(log) && n <= |log|
    ensures WellRecorded(log[..n])
  {
    hide WellNext;
    forall i | 0 <= i < n ensures WellNext(log[..n][..i], log[..n][i]) { assert log[..n][..i] == log[..i]; }
  }

  /** A place has at most one record of a kind. */
  lemma {:induction false} FindIs(log: seq<Entry>, i: nat)
    requires WellRecorded(log) && i < |log| && HasPath(log[i].record.kind)
    ensures Find(log, log[i].record.kind, log[i].path) == Some(log[i].record)
  {
    hide Find, DeclaresWell, SelectsWell, HandlesWell, DecidesWell, Opened, WellRecorded;
    var k, p := log[i].record.kind, log[i].path;
    var f := Find(log, k, p);
    var j :| 0 <= j < |log| && log[j].record == f.value && log[j].path == p && f.value.kind == k;
    SameSlot(log, i, j);
  }

  lemma {:induction false} SameSlot(log: seq<Entry>, i: nat, j: nat)
    requires WellRecorded(log) && i < |log| && j < |log| && HasPath(log[i].record.kind)
    requires log[i].record.kind == log[j].record.kind && log[i].path == log[j].path
    ensures i == j
  {
    hide WellRecorded;
    if i < j { NewSlot(log, i, j); } else if j < i { NewSlot(log, j, i); }
  }

  lemma {:induction false} NewSlot(log: seq<Entry>, i: nat, j: nat)
    requires WellRecorded(log) && i < j < |log| && HasPath(log[j].record.kind)
    ensures log[i].record.kind != log[j].record.kind || log[i].path != log[j].path
  {
    hide Find, DeclaresWell, SelectsWell, HandlesWell, DecidesWell, Opened;
    assert WellNext(log[..j], log[j]);
    assert log[..j][i] == log[i];
  }

  /** What a prefix has, the whole has. */
  lemma {:induction false} FindInPrefix(log: seq<Entry>, n: nat, k: Kind, p: Path)
    requires WellRecorded(log) && n <= |log| && HasPath(k) && Has(log[..n], k, p)
    ensures Find(log, k, p) == Find(log[..n], k, p)
  {
    hide Find, WellRecorded;
    var i :| 0 <= i < n && log[..n][i].record == Find(log[..n], k, p).value && log[..n][i].record.kind == k
        && log[..n][i].path == p;
    FindIs(log, i);
  }

  lemma {:induction false} OpenedInPrefix(log: seq<Entry>, n: nat, p: Path)
    requires WellRecorded(log) && n <= |log| && IsAttemptPath(p) && Opened(log[..n], p)
    ensures Opened(log, p)
    decreases |p|
  {
    hide Find, WellRecorded, PathOk;
    var up := p[..|p| - 2];
    if up == [] {
      FindInPrefix(log, n, Attempt, p);
    } else if up[|up| - 1].Try? {
      OpenedInPrefix(log, n, up);
    } else {
      var a := up[..|up| - 1];
      OpenedInPrefix(log, n, a);
      FindInPrefix(log, n, Catch, a);
    }
  }

  lemma {:induction false} EntryOk(log: seq<Entry>, i: nat)
    requires WellRecorded(log) && i < |log|
    ensures log[i].record.version == PATTERN_VERSION && (log[i].record.kind == Header <==> i == 0)
    ensures HasPath(log[i].record.kind) ==> PathOk(log[i].path) && log[i].record.id == Print(log[i].path)
    ensures IsDeclaration(log[i].record.kind) ==> DeclaresWell(log[..i], log[i])
    ensures IsControl(log[i].record.kind) ==> IsAttemptPath(log[i].path) && Opened(log, log[i].path)
  {
    hide Find, Opened, SelectsWell, HandlesWell, DecidesWell, PlainRules, PolicyIn, Has;
    assert WellNext(log[..i], log[i]);
    if IsControl(log[i].record.kind) {
      assert log[..i] + [log[i]] == log[..i + 1];
      OpenedInPrefix(log, i + 1, log[i].path);
    }
  }

  /** Records with one identity and kind are one record. */
  lemma {:induction false} SamePlace(log: seq<Entry>, i: nat, p: Path)
    requires WellRecorded(log) && i < |log| && HasPath(log[i].record.kind) && PathOk(p) && log[i].record.id == Print(p)
    ensures log[i].path == p
  {
    hide WellRecorded, Print, PathOk, DeclaresWell, Opened;
    EntryOk(log, i);
    PrintInjective(log[i].path, p);
  }

  // ---- the index of an engine history ----------------------------------------------------------

  ghost predicate Recorded(log: seq<Entry>, k: Kind, id: string) {
    exists i :: 0 <= i < |log| && log[i].record.kind == k && log[i].record.id == id
  }

  ghost predicate Declared(log: seq<Entry>, id: string) { Recorded(log, Scope, id) || Recorded(log, Task, id) }

  ghost predicate IndexesDeclarations(x: Index, log: seq<Entry>) {
    && (forall id :: id in x.declarations <==> Declared(log, id))
    && (forall i :: 0 <= i < |log| && IsDeclaration(log[i].record.kind) && log[i].record.id in x.declarations ==>
          Some(x.declarations[log[i].record.id]) == PolicyIn(log[i].record))
  }

  ghost predicate IndexesControl(x: Index, log: seq<Entry>) {
    && (forall k, id :: (k, id) in x.seen <==> IsControl(k) && Recorded(log, k, id))
    && (forall id :: id in x.selections <==> Recorded(log, Catch, id))
    && (forall i :: 0 <= i < |log| && log[i].record.kind == Catch && log[i].record.id in x.selections ==>
          x.selections[log[i].record.id] == log[i].record.rule)
  }

  /** The first pass finds what the log holds. */
  ghost predicate Indexes(x: Index, log: seq<Entry>) {
    (x.header <==> log != []) && IndexesDeclarations(x, log) && IndexesControl(x, log)
  }

  lemma {:induction false} RecordedSnoc(log: seq<Entry>, e: Entry, k: Kind, id: string)
    ensures Recorded(log + [e], k, id) <==> (e.record.kind == k && e.record.id == id) || Recorded(log, k, id)
  {
    var all := log + [e];
    assert all[|log|] == e;
    if Recorded(log, k, id) {
      var i :| 0 <= i < |log| && log[i].record.kind == k && log[i].record.id == id;
      assert all[i] == log[i];
    }
  }

  lemma {:induction false} DeclarationReads(log: seq<Entry>, e: Entry)
    requires DeclaresWell(log, e) && IsDeclaration(e.record.kind) && e.record.id == Print(e.path)
    ensures DeclaredPolicy(e.record) == Ok(PolicyIn(e.record).value)
  {
    hide BoundaryParts, Print, PathOk, PolicyOf, TaskOf;
    PrintedBoundary(e.path);
  }

  lemma {:induction false} IndexNext(x: Index, log: seq<Entry>, e: Entry)
    requires WellRecorded(log + [e]) && Indexes(x, log)
    ensures IndexStep(x, e.record).Ok?
    ensures IsDeclaration(e.record.kind) ==>
              IndexStep(x, e.record).value
              == x.(declarations := x.declarations[e.record.id := PolicyIn(e.record).value])
    ensures e.record.kind == Header ==> IndexStep(x, e.record).value == x.(header := true)
    ensures IsControl(e.record.kind) ==>
              IndexStep(x, e.record).value == x.(seen := x.seen + {(e.record.kind, e.record.id)},
                selections := if e.record.kind == Catch then x.selections[e.record.id := e.record.rule]
                              else x.selections)
    ensures !IsDeclaration(e.record.kind) && !IsControl(e.record.kind) && e.record.kind != Header ==>
              IndexStep(x, e.record).value == x
  {
    hide WellRecorded, DeclaredPolicy, SplitAttempt, Opened, Find, Print, PathOk, PolicyIn;
    var all, n := log + [e], |log|;
    assert all[..n] == log && all[n] == e;
    EntryOk(all, n);
    if IsDeclaration(e.record.kind) {
      DeclarationReads(log, e);
      assert RulesOk(PolicyIn(e.record).value.rules);
      if e.record.id in x.declarations {
        var i :| 0 <= i < |log| && IsDeclaration(log[i].record.kind) && log[i].record.id == e.record.id;
        assert all[i] == log[i];
        SamePlace(all, i, e.path);
        SameKind(all, i, n);
        SameSlot(all, i, n);
      }
    } else if IsControl(e.record.kind) {
      PrintedAttempt(e.path);
      if e.record.kind == Attempt { AttemptNumber(all, n); }
      if (e.record.kind, e.record.id) in x.seen {
        var i :| 0 <= i < |log| && log[i].record.kind == e.record.kind && log[i].record.id == e.record.id;
        assert all[i] == log[i];
        SamePlace(all, i, e.path);
        SameSlot(all, i, n);
      }
    }
  }

  lemma {:induction false} AttemptNumber(log: seq<Entry>, n: nat)
    requires WellRecorded(log) && n < |log| && log[n].record.kind == Attempt
    ensures IsAttemptPath(log[n].path) && log[n].record.attempt == log[n].path[|log[n].path| - 1].number
  {
    hide Find, Opened, PathOk;
    assert WellNext(log[..n], log[n]);
  }

  /** A boundary's kind is part of its identity. */
  lemma {:induction false} SameKind(log: seq<Entry>, i: nat, j: nat)
    requires WellRecorded(log) && i < |log| && j < |log|
    requires IsDeclaration(log[i].record.kind) && IsDeclaration(log[j].record.kind) && log[i].path == log[j].path
    ensures log[i].record.kind == log[j].record.kind
  {
    hide WellRecorded, Opened, Find, Print, PathOk, PolicyIn, PlainRules;
    EntryOk(log, i);
    EntryOk(log, j);
  }

  lemma {:induction false} DeclarationsNext(x: Index, log: seq<Entry>, e: Entry, y: Index)
    requires WellRecorded(log + [e]) && IndexesDeclarations(x, log)
    requires IsDeclaration(e.record.kind) ==> PolicyIn(e.record).Some?
    requires y.declarations == if IsDeclaration(e.record.kind)
                               then x.declarations[e.record.id := PolicyIn(e.record).value] else x.declarations
    ensures IndexesDeclarations(y, log + [e])
  {
    hide WellRecorded, PolicyIn, Recorded;
    var all, n := log + [e], |log|;
    forall id ensures id in y.declarations <==> Declared(all, id) {
      RecordedSnoc(log, e, Scope, id);
      RecordedSnoc(log, e, Task, id);
    }
    forall i | 0 <= i < |all| && IsDeclaration(all[i].record.kind) && all[i].record.id in y.declarations
      ensures Some(y.declarations[all[i].record.id]) == PolicyIn(all[i].record)
    {
      if i < n {
        assert all[i] == log[i];
        RecordedHere(log, i);
        if IsDeclaration(e.record.kind) && all[i].record.id == e.record.id { OneDeclaration(all, i, n); }
      }
    }
  }

  lemma {:induction false} RecordedHere(log: seq<Entry>, i: nat)
    requires i < |log|
    ensures Recorded(log, log[i].record.kind, log[i].record.id)
  {
  }

  lemma {:induction false} ControlNext(x: Index, log: seq<Entry>, e: Entry, y: Index)
    requires WellRecorded(log + [e]) && IndexesControl(x, log)
    requires y.seen == x.seen + if IsControl(e.record.kind) then {(e.record.kind, e.record.id)} else {}
    requires y.selections == if e.record.kind == Catch then x.selections[e.record.id := e.record.rule] else x.selections
    ensures IndexesControl(y, log + [e])
  {
    hide WellRecorded, Recorded;
    var all, n := log + [e], |log|;
    forall k, id ensures (k, id) in y.seen <==> IsControl(k) && Recorded(all, k, id) { RecordedSnoc(log, e, k, id); }
    forall id ensures id in y.selections <==> Recorded(all, Catch, id) { RecordedSnoc(log, e, Catch, id); }
    forall i | 0 <= i < |all| && all[i].record.kind == Catch && all[i].record.id in y.selections
      ensures y.selections[all[i].record.id] == all[i].record.rule
    {
      if i < n {
        assert all[i] == log[i];
        RecordedHere(log, i);
        if e.record.kind == Catch && all[i].record.id == e.record.id { OneSelection(all, i, n); }
      }
    }
  }

  lemma {:induction false} IndexNextKeeps(x: Index, log: seq<Entry>, e: Entry)
    requires WellRecorded(log + [e]) && Indexes(x, log) && IndexStep(x, e.record).Ok?
    ensures Indexes(IndexStep(x, e.record).value, log + [e])
  {
    hide WellRecorded, IndexStep, PolicyIn, IndexesDeclarations, IndexesControl;
    IndexNext(x, log, e);
    PolicyKnown(log, e);
    HeaderIsFirst(log, e);
    var y := IndexStep(x, e.record).value;
    DeclarationsNext(x, log, e, y);
    ControlNext(x, log, e, y);
  }

  lemma {:induction false} HeaderIsFirst(log: seq<Entry>, e: Entry)
    requires WellRecorded(log + [e])
    ensures e.record.kind == Header <==> log == []
  {
    hide WellRecorded, Opened, PathOk, DeclaresWell;
    EntryOk(log + [e], |log|);
  }

  lemma {:induction false} PolicyKnown(log: seq<Entry>, e: Entry)
    requires WellRecorded(log + [e])
    ensures IsDeclaration(e.record.kind) ==> PolicyIn(e.record).Some?
  {
    hide WellRecorded, Opened, PathOk, PolicyIn;
    EntryOk(log + [e], |log|);
  }

  lemma {:induction false} OneDeclaration(log: seq<Entry>, i: nat, j: nat)
    requires WellRecorded(log) && i < |log| && j < |log| && log[i].record.id == log[j].record.id
    requires IsDeclaration(log[i].record.kind) && IsDeclaration(log[j].record.kind)
    ensures i == j
  {
    hide WellRecorded, Opened, PathOk, PolicyIn, Print, DeclaresWell;
    EntryOk(log, j);
    SamePlace(log, i, log[j].path);
    SameKind(log, i, j);
    SameSlot(log, i, j);
  }

  lemma {:induction false} OneSelection(log: seq<Entry>, i: nat, j: nat)
    requires WellRecorded(log) && i < |log| && j < |log| && log[i].record.id == log[j].record.id
    requires log[i].record.kind == Catch && log[j].record.kind == Catch
    ensures i == j
  {
    hide WellRecorded, Opened, PathOk, PolicyIn, Print, DeclaresWell;
    EntryOk(log, j);
    SamePlace(log, i, log[j].path);
    SameSlot(log, i, j);
  }

  lemma {:induction false} IndexAccepts(log: seq<Entry>)
    requires WellRecorded(log)
    ensures IndexOf(RecordsOf(log)).Ok? && Indexes(IndexOf(RecordsOf(log)).value, log)
  {
    hide WellRecorded, IndexStep, Indexes;
    var rs, n := RecordsOf(log), |log| - 1;
    if log == [] {
      NothingIndexed();
    } else {
      WellPrefix(log, n);
      IndexAccepts(log[..n]);
      assert rs[..n] == RecordsOf(log[..n]) && rs[n] == log[n].record;
      assert log == log[..n] + [log[n]];
      var x := IndexOf(rs[..n]).value;
      IndexNext(x, log[..n], log[n]);
      IndexNextKeeps(x, log[..n], log[n]);
    }
  }

  lemma {:induction false} NothingIndexed()
    ensures Indexes(NOTHING, [])
  {
  }
}

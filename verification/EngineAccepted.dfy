/** The catch-history reader accepts every history of the engine's shape. */
module EngineAccepted {
  import opened Text
  import opened Records
  import opened Identity
  import opened Paths
  import opened CatchHistory
  import opened EngineLog

  // ---- ancestry ----------------------------------------------------------------------------

  /** Every attempt the index names is a printed attempt path. */
  lemma {:induction false} AttemptsPrinted(x: Index, log: seq<Entry>, a: string) returns (p: Path)
    requires WellRecorded(log) && Indexes(x, log) && a in Attempts(x)
    ensures IsAttemptPath(p) && a == Print(p)
  {
    hide WellRecorded, Print, PathOk, Opened, DeclaresWell, IndexesDeclarations;
    var k: Kind := Catch;
    if a !in x.selections {
      var s :| s in x.seen && s.1 == a;
      k := s.0;
      assert s == (k, a);
    }
    assert Recorded(log, k, a);
    var i :| 0 <= i < |log| && log[i].record.kind == k && log[i].record.id == a;
    EntryOk(log, i);
    p := log[i].path;
  }

  /** The rules an attempt may own have no slash. */
  lemma {:induction false} OwnedRulesPlain(x: Index, log: seq<Entry>, p: Path, r: string)
    requires WellRecorded(log) && Indexes(x, log) && IsAttemptPath(p) && r in RulesOwned(x, Print(p))
    ensures SegmentOk(Handler(r))
  {
    hide WellRecorded, Print, PathOk, Opened, SplitAttempt, PolicyIn, SegmentOk;
    var a := Print(p);
    if a in x.selections {
      assert Recorded(log, Catch, a);
      var i :| 0 <= i < |log| && log[i].record.kind == Catch && log[i].record.id == a;
      SelectionPlain(log, i);
    } else {
      PrintedAttempt(p);
      var b := Print(p[..|p| - 1]);
      assert b in x.declarations && r in x.declarations[b].rules;
      assert Declared(log, b);
      var i :| 0 <= i < |log| && IsDeclaration(log[i].record.kind) && log[i].record.id == b;
      EntryOk(log, i);
    }
  }

  lemma {:induction false} SelectionPlain(log: seq<Entry>, i: nat)
    requires WellRecorded(log) && i < |log| && log[i].record.kind == Catch
    ensures IsAttemptPath(log[i].path) && SelectsWell(log[..i], log[i].record, log[i].path)
    ensures log[i].record.rule != "" ==> SegmentOk(Handler(log[i].record.rule))
  {
    hide Find, Opened, PathOk, PolicyIn;
    assert WellNext(log[..i], log[i]);
  }

  /** An owner of a printed context owns it as its handler. */
  lemma {:induction false} OwnerIsAbove(x: Index, log: seq<Entry>, c: Path, a: string)
    requires WellRecorded(log) && Indexes(x, log) && PathOk(c) && a in Attempts(x) && Owns(x, a, Print(c))
    ensures c != [] && c[|c| - 1].Handler? && a == Print(c[..|c| - 1])
  {
    hide WellRecorded, Print, PathOk, Indexes, RulesOwned, Attempts, SegmentOk, IsAttemptPath;
    var p := AttemptsPrinted(x, log, a);
    var r := Print(c)[|a| + 7..];
    OwnedRulesPlain(x, log, p, r);
    assert Print(c) == a + "/catch:" + r;
    PrintSnoc(p, Handler(r));
    assert PathOk(p + [Handler(r)]) by { PathSnoc(p, Handler(r)); }
    PrintInjective(c, p + [Handler(r)]);
    assert (p + [Handler(r)])[..|p|] == p;
  }

  lemma {:induction false} PathSnoc(p: Path, s: Segment)
    requires IsAttemptPath(p) && SegmentOk(s)
    ensures PathOk(p + [s])
  {
  }

  lemma {:induction false} AttemptContextUnowned(x: Index, log: seq<Entry>, c: Path)
    requires WellRecorded(log) && Indexes(x, log) && PathOk(c) && c != [] && !c[|c| - 1].Handler?
    ensures OwnerOf(x, Print(c)) == NoOwner
  {
    hide WellRecorded, Print, PathOk, Indexes, Owns, Attempts;
    forall a | a in Attempts(x) && Owns(x, a, Print(c)) ensures false { OwnerIsAbove(x, log, c, a); }
    assert (set a | a in Attempts(x) && Owns(x, a, Print(c))) == {};
  }

  lemma {:induction false} HandlerContextOwned(x: Index, log: seq<Entry>, a: Path, rule: string)
    requires WellRecorded(log) && Indexes(x, log) && IsAttemptPath(a) && Has(log, Catch, a)
             && Find(log, Catch, a).value.rule == rule
    requires SegmentOk(Handler(rule))
    ensures OwnerOf(x, Print(a + [Handler(rule)])) == OneOwner(Print(a))
  {
    hide WellRecorded, Print, PathOk, Owns, Attempts, Opened, DeclaresWell, IsAttemptPath, Find;
    var c := a + [Handler(rule)];
    PathSnoc(a, Handler(rule));
    var i :| 0 <= i < |log| && log[i].record == Find(log, Catch, a).value && log[i].path == a
        && log[i].record.kind == Catch;
    EntryOk(log, i);
    OwnsSelected(x, log, i, a, rule);
    var owners := set b | b in Attempts(x) && Owns(x, b, Print(c));
    forall b | b in owners ensures b == Print(a) {
      OwnerIsAbove(x, log, c, b);
      assert c[..|c| - 1] == a;
    }
    assert owners == {Print(a)};
  }

  lemma {:induction false} OwnsSelected(x: Index, log: seq<Entry>, i: nat, a: Path, rule: string)
    requires IndexesControl(x, log) && i < |log| && log[i].record.kind == Catch && log[i].record.id == Print(a)
             && log[i].record.rule == rule && rule != ""
    ensures Print(a) in Attempts(x) && Owns(x, Print(a), Print(a + [Handler(rule)]))
  {
    hide Print, Recorded;
    RecordedHere(log, i);
    PrintSnoc(a, Handler(rule));
    var t, lead := Print(a + [Handler(rule)]), Print(a) + "/catch:";
    assert t == lead + rule;
    assert t[..|lead|] == lead && t[|Print(a)| + 7..] == rule;
  }

  /** Every attempt whose contexts are recorded has a reference. */
  lemma {:induction false} ReferenceExists(x: Index, log: seq<Entry>, p: Path)
    requires WellRecorded(log) && Indexes(x, log) && IsAttemptPath(p) && Opened(log, p)
    ensures Reference(x, Print(p)).Ok? && Reference(x, Print(p)).value.boundary == Print(p[..|p| - 1])
    decreases |p|
  {
    hide WellRecorded, Print, PathOk, Indexes, OwnerOf, SplitAttempt, BoundaryParts, Find;
    var b, up, v := p[..|p| - 1], p[..|p| - 2], p[|p| - 2];
    PathParts(p);
    assert b[..|b| - 1] == up;
    PrintedAttempt(p);
    PrintedBoundary(b);
    if up == [] {
      EmptyPrints();
      RootSeen(x, log, p);
    } else {
      NonemptyPrints(up);
      if up[|up| - 1].Try? {
        AttemptContextUnowned(x, log, up);
        ReferenceExists(x, log, up);
      } else {
        var a, rule := up[..|up| - 1], up[|up| - 1].rule;
        assert up == a + [Handler(rule)];
        HandlerContextOwned(x, log, a, rule);
        ReferenceExists(x, log, a);
      }
    }
  }

  lemma {:induction false} PathParts(p: Path)
    requires IsAttemptPath(p)
    ensures IsBoundaryPath(p[..|p| - 1]) && PathOk(p[..|p| - 2])
    ensures |p| > 2 ==> SegmentOk(p[|p| - 3])
  {
  }

  lemma {:induction false} EmptyPrints()
    ensures Print([]) == ""
  {
  }

  lemma {:induction false} NonemptyPrints(p: Path)
    requires p != []
    ensures Print(p) != ""
  {
  }

  lemma {:induction false} RootSeen(x: Index, log: seq<Entry>, p: Path)
    requires WellRecorded(log) && Indexes(x, log) && Has(log, Attempt, p)
    ensures (Attempt, Print(p)) in x.seen
  {
    hide WellRecorded, Print, PathOk, Find, Opened, DeclaresWell;
    var i :| 0 <= i < |log| && log[i].record == Find(log, Attempt, p).value && log[i].path == p
        && log[i].record.kind == Attempt;
    EntryOk(log, i);
    RecordedHere(log, i);
  }

  // ---- the order of control records ----------------------------------------------------------------

  /** What stands before each control record of an attempt. */
  lemma {:induction false} ControlOrder(log: seq<Entry>, p: Path)
    requires WellRecorded(log)
    ensures Has(log, Catch, p) ==>
              IsAttemptPath(p) && Has(log, Result, p) && Find(log, Result, p).value.errorKind != NoError
                                   && (Find(log, Catch, p).value.errorKind != NoError ==>
                                         Find(log, Catch, p).value.rule == "")
    ensures Has(log, Handled, p) ==> Has(log, Catch, p)
    ensures Has(log, Decision, p) ==>
              Has(log, Catch, p) && (Find(log, Catch, p).value.rule != "" ==> Has(log, Handled, p))
  {
    hide WellRecorded, Find, PolicyIn;
    if Has(log, Catch, p) {
      var i := PlaceOf(log, Catch, p);
      SelectionPlain(log, i);
      FindInPrefix(log, i, Result, p);
    }
    if Has(log, Handled, p) {
      var i := PlaceOf(log, Handled, p);
      HandledPlain(log, i);
      FindInPrefix(log, i, Catch, p);
    }
    if Has(log, Decision, p) {
      var i := PlaceOf(log, Decision, p);
      DecisionPlain(log, i);
      FindInPrefix(log, i, Catch, p);
      if Has(log[..i], Handled, p) { FindInPrefix(log, i, Handled, p); }
    }
  }

  lemma {:induction false} PlaceOf(log: seq<Entry>, k: Kind, p: Path) returns (i: nat)
    requires Has(log, k, p)
    ensures i < |log| && log[i].record == Find(log, k, p).value && log[i].record.kind == k && log[i].path == p
  {
    hide Find;
    i :| 0 <= i < |log| && log[i].record == Find(log, k, p).value && log[i].record.kind == k && log[i].path == p;
  }

  lemma {:induction false} HandledPlain(log: seq<Entry>, i: nat)
    requires WellRecorded(log) && i < |log| && log[i].record.kind == Handled
    ensures HandlesWell(log[..i], log[i].record, log[i].path)
  {
    hide Find, Opened, PathOk;
    assert WellNext(log[..i], log[i]);
  }

  lemma {:induction false} DecisionPlain(log: seq<Entry>, i: nat)
    requires WellRecorded(log) && i < |log| && log[i].record.kind == Decision
    ensures DecidesWell(log[..i], log[i].record, log[i].path)
  {
    hide Find, Opened, PathOk;
    assert WellNext(log[..i], log[i]);
  }

  // ---- evidence -------------------------------------------------------------------------------------

  /** The evidence for an attempt is what the log holds at its place. */
  ghost predicate EvidenceAt(e: Evidence, log: seq<Entry>, p: Path) {
    && p != [] && e.ref.boundary == Print(p[..|p| - 1])
    && e.result == Find(log, Result, p) && e.selection == Find(log, Catch, p)
    && e.handled == Find(log, Handled, p) && e.decision == Find(log, Decision, p)
  }

  ghost predicate Evidenced(log: seq<Entry>, id: string) {
    exists i :: 0 <= i < |log| && IsEvidence(log[i].record.kind) && log[i].record.id == id
  }

  ghost predicate Collects(l: Ledger, log: seq<Entry>) {
    && (forall i :: 0 <= i < |log| && IsEvidence(log[i].record.kind) ==>
          log[i].record.id in l.evidence && EvidenceAt(l.evidence[log[i].record.id], log, log[i].path))
    && (forall id :: id in l.evidence ==> Evidenced(log, id))
    && (forall id :: id in l.order ==> id in l.evidence)
  }

  lemma {:induction false} FindSnoc(log: seq<Entry>, e: Entry, k: Kind, p: Path)
    ensures Find(log + [e], k, p) == if e.record.kind == k && e.path == p then Some(e.record) else Find(log, k, p)
  {
    assert (log + [e])[..|log|] == log;
  }

  lemma {:induction false} EvidenceElsewhere(ev: Evidence, log: seq<Entry>, e: Entry, p: Path)
    requires EvidenceAt(ev, log, p) && (!IsEvidence(e.record.kind) || e.path != p)
    ensures EvidenceAt(ev, log + [e], p)
  {
    hide Find, Print;
    FindSnoc(log, e, Result, p);
    FindSnoc(log, e, Catch, p);
    FindSnoc(log, e, Handled, p);
    FindSnoc(log, e, Decision, p);
  }

  lemma {:induction false} EvidenceHere(ev: Evidence, log: seq<Entry>, e: Entry)
    requires EvidenceAt(ev, log, e.path) && IsEvidence(e.record.kind)
    ensures EvidenceAt(Enter(ev, e.record), log + [e], e.path)
  {
    hide Find, Print;
    forall k ensures Find(log + [e], k, e.path) == if k == e.record.kind then Some(e.record) else Find(log, k, e.path) {
      FindSnoc(log, e, k, e.path);
    }
  }

  /** A declaration of the boundary of a recorded attempt stands before it. */
  lemma {:induction false} DeclaredBefore(x: Index, log: seq<Entry>, n: nat)
    requires WellRecorded(log) && Indexes(x, log) && n < |log| && IsControl(log[n].record.kind)
             && IsAttemptPath(log[n].path)
    ensures var b := log[n].path[..|log[n].path| - 1];
            IsBoundaryPath(b) &&
            (Print(b) in x.declarations ==>
               DeclarationAt(log[..n], b).Some?
                   && PolicyIn(DeclarationAt(log[..n], b).value) == Some(x.declarations[Print(b)]))
  {
    hide WellRecorded, Print, PathOk, PolicyIn, Opened, Find;
    var p := log[n].path;
    var b := p[..|p| - 1];
    PathParts(p);
    if Print(b) in x.declarations {
      assert Declared(log, Print(b));
      var j :| 0 <= j < |log| && IsDeclaration(log[j].record.kind) && log[j].record.id == Print(b);
      IsBoundaryOk(b);
      SamePlace(log, j, b);
      EntryOk(log, j);
      assert b <= p;
      if n < j { DeclaresFirst(log, j, n); }
      WellPrefix(log, n);
      assert log[..n][j] == log[j];
      FindIs(log[..n], j);
    }
  }

  lemma {:induction false} DeclaresFirst(log: seq<Entry>, j: nat, n: nat)
    requires WellRecorded(log) && n < j < |log| && IsDeclaration(log[j].record.kind)
    ensures !(log[j].path <= log[n].path)
  {
    hide WellRecorded, PathOk, PolicyIn, Opened, PlainRules, Print;
    EntryOk(log, j);
    assert log[..j][n] == log[n];
  }

  lemma {:induction false} IsBoundaryOk(b: Path)
    requires IsBoundaryPath(b)
    ensures PathOk(b)
  {
  }

  lemma {:induction false} NoConflict(x: Index, log: seq<Entry>, n: nat, ev: Evidence)
    requires WellRecorded(log) && Indexes(x, log) && n < |log| && IsEvidence(log[n].record.kind)
    requires EvidenceAt(ev, log[..n], log[n].path)
    ensures Conflict(x, ev, log[n].record).None?
  {
    hide WellRecorded, Print, PathOk, PolicyIn, Opened, Find, Indexes;
    var P, p := log[..n], log[n].path;
    WellPrefix(log, n);
    ControlOrder(P, p);
    OwnSlot(log, n);
    match log[n].record.kind
    case Result =>
    case Catch =>
      SelectionPlain(log, n);
      DeclaredBefore(x, log, n);
    case Handled => HandledPlain(log, n);
    case _ => DecisionPlain(log, n);
  }

  lemma {:induction false} OwnSlot(log: seq<Entry>, n: nat)
    requires WellRecorded(log) && n < |log| && IsControl(log[n].record.kind)
    ensures !Has(log[..n], log[n].record.kind, log[n].path) && IsAttemptPath(log[n].path)
  {
    hide Find, Opened, PathOk, SelectsWell, HandlesWell, DecidesWell;
    assert WellNext(log[..n], log[n]);
  }

  /** The evidence an entry finds before it joins. */
  lemma {:induction false} FindsBefore(x: Index, log: seq<Entry>, n: nat, l: Ledger) returns (ev: Evidence)
    requires WellRecorded(log) && Indexes(x, log) && n < |log| && IsEvidence(log[n].record.kind)
             && Collects(l, log[..n])
    ensures EvidenceAt(ev, log[..n], log[n].path)
    ensures if log[n].record.id in l.evidence then ev == l.evidence[log[n].record.id]
            else
              && Reference(x, log[n].record.id).Ok?
              && ev == Evidence(Reference(x, log[n].record.id).value, None, None, None, None)
  {
    hide WellRecorded, Print, PathOk, Opened, Find, Indexes, Reference, DeclaresWell;
    var P, rec, p := log[..n], log[n].record, log[n].path;
    WellPrefix(log, n);
    EntryOk(log, n);
    if rec.id in l.evidence {
      ev := l.evidence[rec.id];
      var i :| 0 <= i < |P| && IsEvidence(P[i].record.kind) && P[i].record.id == rec.id;
      SamePlace(P, i, p);
    } else {
      ReferenceExists(x, log, p);
      ev := Evidence(Reference(x, rec.id).value, None, None, None, None);
      forall k | IsEvidence(k) ensures Find(P, k, p) == None {
        if Has(P, k, p) {
          var i := PlaceOf(P, k, p);
          EntryOk(P, i);
        }
      }
    }
  }

  lemma {:induction false} NotOrphan(x: Index, log: seq<Entry>, n: nat)
    requires WellRecorded(log) && Indexes(x, log) && n < |log| && IsEvidence(log[n].record.kind)
             && log[n].record.kind != Result
    ensures (Result, log[n].record.id) in x.seen
  {
    hide WellRecorded, Print, PathOk, PolicyIn, Opened, Find, DeclaresWell;
    var p := log[n].path;
    EntryOk(log, n);
    if log[n].record.kind == Catch {
      SelectionPlain(log, n);
      FindInPrefix(log, n, Result, p);
    } else {
      if log[n].record.kind == Handled { HandledPlain(log, n); } else { DecisionPlain(log, n); }
      FindInPrefix(log, n, Catch, p);
      ControlOrder(log, p);
    }
    var i := PlaceOf(log, Result, p);
    EntryOk(log, i);
    RecordedHere(log, i);
  }

  lemma {:induction false} LedgerNext(x: Index, log: seq<Entry>, n: nat, l: Ledger)
    requires WellRecorded(log) && Indexes(x, log) && n < |log| && Collects(l, log[..n])
    ensures LedgerStep(x, l, log[n].record).Ok? && Collects(LedgerStep(x, l, log[n].record).value, log[..n + 1])
  {
    hide WellRecorded, Indexes, EvidenceAt, Conflict, Reference, Enter;
    var rec, P := log[n].record, log[..n];
    assert log[..n + 1] == P + [log[n]];
    if IsEvidence(rec.kind) {
      var ev := FindsBefore(x, log, n, l);
      NoConflict(x, log, n, ev);
      if rec.kind != Result { NotOrphan(x, log, n); }
      EvidenceHere(ev, P, log[n]);
      CollectsMore(log, n, l,
                   Ledger(l.evidence[rec.id := Enter(ev, rec)],
                          if rec.id in l.evidence then l.order else l.order + [rec.id]));
    } else {
      CollectsMore(log, n, l, l);
    }
  }

  lemma {:induction false} CollectsMore(log: seq<Entry>, n: nat, l: Ledger, l': Ledger)
    requires WellRecorded(log) && n < |log| && Collects(l, log[..n])
    requires var rec := log[n].record;
             if !IsEvidence(rec.kind) then l' == l
             else
               && rec.id in l'.evidence && l'.evidence == l.evidence[rec.id := l'.evidence[rec.id]]
               && l'.order == (if rec.id in l.evidence then l.order else l.order + [rec.id])
               && EvidenceAt(l'.evidence[rec.id], log[..n + 1], log[n].path)
    ensures Collects(l', log[..n + 1])
  {
    hide WellRecorded, EvidenceAt, PathOk, Print, Opened, DeclaresWell;
    var rec, P, Q := log[n].record, log[..n], log[..n + 1];
    assert Q == P + [log[n]];
    assert forall i :: 0 <= i < n ==> Q[i] == P[i];
    assert Q[n] == log[n];
    forall i | 0 <= i < |Q| && IsEvidence(Q[i].record.kind)
      ensures Q[i].record.id in l'.evidence && EvidenceAt(l'.evidence[Q[i].record.id], Q, Q[i].path)
    {
      if i < n {
        if IsEvidence(rec.kind) && Q[i].record.id == rec.id {
          EntryOk(log, n);
          SamePlace(log, i, log[n].path);
        } else {
          if IsEvidence(rec.kind) { EntryOk(log, n); EntryOk(log, i); }
          EvidenceElsewhere(l.evidence[Q[i].record.id], P, log[n], Q[i].path);
        }
      }
    }
    forall id | id in l'.evidence ensures Evidenced(Q, id) {
      if id in l.evidence {
        var i :| 0 <= i < |P| && IsEvidence(P[i].record.kind) && P[i].record.id == id;
        assert Q[i] == P[i];
      } else {
        assert Q[n].record.id == id;
      }
    }
  }

  lemma {:induction false} LedgerAccepts(x: Index, log: seq<Entry>, n: nat)
    requires WellRecorded(log) && Indexes(x, log) && n <= |log|
    ensures LedgerOf(x, RecordsOf(log[..n])).Ok? && Collects(LedgerOf(x, RecordsOf(log[..n])).value, log[..n])
  {
    hide WellRecorded, Indexes, LedgerStep, Collects;
    if n == 0 {
      NothingCollected();
      assert log[..0] == [];
    } else {
      var rs := RecordsOf(log[..n]);
      LedgerAccepts(x, log, n - 1);
      assert rs[..n - 1] == RecordsOf(log[..n - 1]) && rs[n - 1] == log[n - 1].record;
      LedgerNext(x, log, n - 1, LedgerOf(x, rs[..n - 1]).value);
    }
  }

  lemma {:induction false} NothingCollected()
    ensures Collects(Ledger(map[], []), [])
  {
  }

  // ---- rows --------------------------------------------------------------------------------------------

  lemma {:induction false} NoContradiction(log: seq<Entry>, e: Evidence, p: Path)
    requires WellRecorded(log) && EvidenceAt(e, log, p)
    ensures Contradiction(e).None?
  {
    hide WellRecorded, Find, Print, PathOk;
    ControlOrder(log, p);
  }

  lemma {:induction false} RowsAccept(x: Index, log: seq<Entry>, l: Ledger, order: seq<string>)
    requires WellRecorded(log) && Collects(l, log) && forall id :: id in order ==> id in l.evidence
    ensures RowsOf(x, l, order).Ok?
  {
    hide WellRecorded, EvidenceAt, Contradiction, RowOf;
    if order != [] {
      var n := |order| - 1;
      var id := order[n];
      assert forall k :: k in order[..n] ==> k in order;
      RowsAccept(x, log, l, order[..n]);
      assert id in order;
      assert Evidenced(log, id);
      var i :| 0 <= i < |log| && IsEvidence(log[i].record.kind) && log[i].record.id == id;
      NoContradiction(log, l.evidence[id], log[i].path);
    }
  }

  /** Every history of the engine's shape is accepted, wherever it is cut. */
  lemma {:induction false} CutsAreAccepted(log: seq<Entry>, n: nat)
    requires WellRecorded(log) && n <= |log|
    ensures Project(RecordsOf(log)[..n]).Ok?
  {
    hide WellRecorded, Indexes, LedgerOf, IndexOf, RowsOf;
    WellPrefix(log, n);
    var P := log[..n];
    assert RecordsOf(log)[..n] == RecordsOf(P);
    IndexAccepts(P);
    var x := IndexOf(RecordsOf(P)).value;
    LedgerAccepts(x, P, n);
    assert P[..n] == P;
    RowsAccept(x, P, LedgerOf(x, RecordsOf(P)).value, LedgerOf(x, RecordsOf(P)).value.order);
  }
}

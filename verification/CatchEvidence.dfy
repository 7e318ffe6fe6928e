/** Catch evidence is monotone: what an accepted history has shown, every accepted
    extension of it shows too, at the same place. */
module CatchEvidence {
  import opened Text
  import opened Records
  import opened Identity
  import opened CatchHistory

  // ---- prefixes ---------------------------------------------------------------------------

  lemma {:induction false} IndexPrefix(e: seq<Record>, f: seq<Record>)
    requires IndexOf(e + f).Ok?
    ensures IndexOf(e).Ok?
    decreases |f|
  {
    hide IndexStep;
    var n := |f| - 1;
    if f == [] {
      assert e + f == e;
    } else {
      assert (e + f)[..|e + f| - 1] == e + f[..n];
      IndexPrefix(e, f[..n]);
    }
  }

  lemma {:induction false} LedgerPrefix(x: Index, e: seq<Record>, f: seq<Record>)
    requires LedgerOf(x, e + f).Ok?
    ensures LedgerOf(x, e).Ok?
    decreases |f|
  {
    hide LedgerStep;
    var n := |f| - 1;
    if f == [] {
      assert e + f == e;
    } else {
      assert (e + f)[..|e + f| - 1] == e + f[..n];
      LedgerPrefix(x, e, f[..n]);
    }
  }

  // ---- no control record twice ----------------------------------------------------------------

  lemma {:induction false} SeenStep(x: Index, rec: Record)
    requires IndexStep(x, rec).Ok?
    ensures IndexStep(x, rec).value.seen == x.seen + if IsControl(rec.kind) then {(rec.kind, rec.id)} else {}
    ensures IsControl(rec.kind) ==> (rec.kind, rec.id) !in x.seen
  {
    hide DeclaredPolicy, RulesOk, SplitAttempt;
  }

  lemma {:induction false} SeenIsRecorded(entries: seq<Record>, i: nat)
    requires IndexOf(entries).Ok? && i < |entries| && IsControl(entries[i].kind)
    ensures (entries[i].kind, entries[i].id) in IndexOf(entries).value.seen
    decreases |entries|
  {
    hide IndexStep;
    var n := |entries| - 1;
    SeenStep(IndexOf(entries[..n]).value, entries[n]);
    if i < n { SeenIsRecorded(entries[..n], i); }
  }

  lemma {:induction false} NoDuplicate(entries: seq<Record>, i: nat, r: Record)
    requires IndexOf(entries + [r]).Ok? && i < |entries| && IsControl(r.kind)
    ensures !(entries[i].kind == r.kind && entries[i].id == r.id)
  {
    hide IndexStep;
    assert (entries + [r])[..|entries|] == entries;
    SeenStep(IndexOf(entries).value, r);
    if IsControl(entries[i].kind) { SeenIsRecorded(entries, i); }
  }

  // ---- what the ledger holds ----------------------------------------------------------------------

  /** The part of a reference that the identity alone decides. */
  predicate OwnRef(ref: Ref, id: string) {
    && SplitAttempt(id).Ok? && BoundaryParts(SplitAttempt(id).value.boundary).Ok?
    && var s, p := SplitAttempt(id).value, BoundaryParts(SplitAttempt(id).value.boundary).value;
       ref.boundary == s.boundary && ref.attempt == id && ref.number == s.number && ref.kind == p.kind
           && ref.site == p.site
  }

  lemma {:induction false} ReferenceOwn(x: Index, id: string)
    requires Reference(x, id).Ok?
    ensures OwnRef(Reference(x, id).value, id)
  {
    hide SplitAttempt, BoundaryParts, OwnerOf;
  }

  predicate FromEntry(o: Option<Record>, k: Kind, id: string, entries: seq<Record>) {
    o.Some? ==> o.value in entries && o.value.kind == k && o.value.id == id
  }

  /** Each attempt's evidence is records of its own, at least one. */
  predicate Backed(e: Evidence, id: string, entries: seq<Record>) {
    && OwnRef(e.ref, id)
    && FromEntry(e.result, Result, id, entries) && FromEntry(e.selection, Catch, id, entries)
    && FromEntry(e.handled, Handled, id, entries) && FromEntry(e.decision, Decision, id, entries)
    && (e.result.Some? || e.selection.Some? || e.handled.Some? || e.decision.Some?)
  }

  ghost predicate LedgerOk(l: Ledger, entries: seq<Record>) {
    && (forall id :: id in l.evidence ==> Backed(l.evidence[id], id, entries))
    && (forall id :: id in l.order <==> id in l.evidence)
  }

  /** The evidence for a record's attempt before the record joins it. */
  function Before(x: Index, l: Ledger, rec: Record): Evidence
    requires rec.id in l.evidence || Reference(x, rec.id).Ok?
  {
    if rec.id in l.evidence then l.evidence[rec.id] else Evidence(Reference(x, rec.id).value, None, None, None, None)
  }

  lemma {:induction false} StepShape(x: Index, l: Ledger, rec: Record)
    requires LedgerStep(x, l, rec).Ok?
    ensures var l' := LedgerStep(x, l, rec).value;
            if !IsEvidence(rec.kind) then l' == l
            else
              && (rec.id in l.evidence || Reference(x, rec.id).Ok?)
              && var e := Before(x, l, rec);
                 && Conflict(x, e, rec).None?
                 && l' == Ledger(l.evidence[rec.id := Enter(e, rec)],
                              if rec.id in l.evidence then l.order else l.order + [rec.id])
  {
    hide Conflict, Enter, Reference;
  }

  lemma {:induction false} EnterBacked(e: Evidence, rec: Record, entries: seq<Record>)
    requires IsEvidence(rec.kind) && OwnRef(e.ref, rec.id)
    requires (e.result.None? && e.selection.None? && e.handled.None? && e.decision.None?) || Backed(e, rec.id, entries)
    ensures Backed(Enter(e, rec), rec.id, entries + [rec])
  {
    hide OwnRef;
  }

  lemma {:induction false} BackedGrows(e: Evidence, id: string, entries: seq<Record>, rec: Record)
    requires Backed(e, id, entries)
    ensures Backed(e, id, entries + [rec])
  {
    hide OwnRef;
  }

  lemma {:induction false} LedgerIsBacked(x: Index, entries: seq<Record>)
    requires LedgerOf(x, entries).Ok?
    ensures LedgerOk(LedgerOf(x, entries).value, entries)
  {
    hide LedgerStep, Backed, Enter, Conflict, Reference, OwnRef;
    if entries != [] {
      var n := |entries| - 1;
      LedgerIsBacked(x, entries[..n]);
      var l, rec := LedgerOf(x, entries[..n]).value, entries[n];
      assert entries == entries[..n] + [rec];
      StepShape(x, l, rec);
      var l' := LedgerOf(x, entries).value;
      forall id | id in l'.evidence ensures Backed(l'.evidence[id], id, entries) {
        if id in l.evidence { BackedGrows(l.evidence[id], id, entries[..n], rec); }
        if IsEvidence(rec.kind) && id == rec.id {
          OwnBefore(x, l, rec, entries[..n]);
          EnterBacked(Before(x, l, rec), rec, entries[..n]);
        }
      }
    }
  }

  lemma {:induction false} OwnBefore(x: Index, l: Ledger, rec: Record, entries: seq<Record>)
    requires rec.id in l.evidence || Reference(x, rec.id).Ok?
    requires LedgerOk(l, entries)
    ensures OwnRef(Before(x, l, rec).ref, rec.id)
    ensures rec.id in l.evidence ==> Backed(Before(x, l, rec), rec.id, entries)
  {
    hide OwnRef, Reference;
    if rec.id !in l.evidence { ReferenceOwn(x, rec.id); }
  }

  // ---- evidence only grows ---------------------------------------------------------------------------

  /** Evidence that kept every fact; only what was missing may have been added,
      and never the original outcome. */
  predicate Kept(e: Evidence, e': Evidence) {
    && e'.result == e.result
    && (e.selection.Some? ==> e'.selection == e.selection)
    && (e.handled.Some? ==> e'.handled == e.handled)
    && (e.decision.Some? ==> e'.decision == e.decision)
  }

  ghost predicate Grown(l: Ledger, l': Ledger) {
    && l.order <= l'.order
    && forall id :: id in l.evidence ==> id in l'.evidence && Kept(l.evidence[id], l'.evidence[id])
  }

  lemma {:induction false} EnterKeeps(x: Index, entries: seq<Record>, e: Evidence, rec: Record)
    requires IsEvidence(rec.kind) && IndexOf(entries + [rec]).Ok? && Backed(e, rec.id, entries)
             && Conflict(x, e, rec).None?
    ensures Kept(e, Enter(e, rec))
  {
    hide IndexOf, OwnRef;
    var same := if rec.kind == Result then e.result else if rec.kind == Catch then e.selection
                                                         else if rec.kind == Handled then e.handled else e.decision;
    if same.Some? {
      var i :| 0 <= i < |entries| && entries[i] == same.value;
      NoDuplicate(entries, i, rec);
    }
  }

  lemma {:induction false} StepGrows(x: Index, l: Ledger, entries: seq<Record>, rec: Record)
    requires LedgerOf(x, entries) == Ok(l) && LedgerStep(x, l, rec).Ok? && IndexOf(entries + [rec]).Ok?
    ensures Grown(l, LedgerStep(x, l, rec).value)
  {
    hide LedgerStep, LedgerOf, IndexOf, Conflict, Backed, Enter, Reference;
    LedgerIsBacked(x, entries);
    StepShape(x, l, rec);
    if IsEvidence(rec.kind) && rec.id in l.evidence { EnterKeeps(x, entries, l.evidence[rec.id], rec); }
  }

  lemma {:induction false} LedgerGrows(x: Index, e: seq<Record>, f: seq<Record>)
    requires LedgerOf(x, e + f).Ok? && IndexOf(e + f).Ok?
    ensures LedgerOf(x, e).Ok? && Grown(LedgerOf(x, e).value, LedgerOf(x, e + f).value)
    decreases |f|
  {
    hide LedgerStep, IndexOf, Kept;
    LedgerPrefix(x, e, f);
    if f == [] {
      assert e + f == e;
      KeptReflexive(LedgerOf(x, e).value);
    } else {
      var n := |f| - 1;
      var g := e + f[..n];
      assert (e + f)[..|e + f| - 1] == g && e + f == g + [f[n]];
      IndexPrefix(g, [f[n]]);
      LedgerGrows(x, e, f[..n]);
      StepGrows(x, LedgerOf(x, g).value, g, f[n]);
      GrownTwice(LedgerOf(x, e).value, LedgerOf(x, g).value, LedgerOf(x, e + f).value);
    }
  }

  lemma {:induction false} KeptReflexive(l: Ledger)
    ensures Grown(l, l)
  {
  }

  lemma {:induction false} GrownTwice(a: Ledger, b: Ledger, c: Ledger)
    requires Grown(a, b) && Grown(b, c)
    ensures Grown(a, c)
  {
  }

  // ---- ancestry aside, the index does not matter -----------------------------------------------------

  predicate SameFacts(e: Evidence, f: Evidence) {
    e.result == f.result && e.selection == f.selection && e.handled == f.handled && e.decision == f.decision
  }

  ghost predicate SameLedger(l: Ledger, m: Ledger) {
    && l.order == m.order && l.evidence.Keys == m.evidence.Keys
    && forall id :: id in l.evidence && id in m.evidence ==> SameFacts(l.evidence[id], m.evidence[id])
  }

  lemma {:induction false} IndexesAgree(x: Index, y: Index, entries: seq<Record>)
    requires LedgerOf(x, entries).Ok? && LedgerOf(y, entries).Ok?
    ensures SameLedger(LedgerOf(x, entries).value, LedgerOf(y, entries).value)
  {
    hide LedgerStep, Conflict, Reference;
    if entries != [] {
      var n := |entries| - 1;
      IndexesAgree(x, y, entries[..n]);
      var l, m, rec := LedgerOf(x, entries[..n]).value, LedgerOf(y, entries[..n]).value, entries[n];
      StepShape(x, l, rec);
      StepShape(y, m, rec);
    }
  }

  // ---- rows -----------------------------------------------------------------------------------------------

  /** A row that kept its identity and every fact it had. */
  predicate RowKept(r: Row, r': Row) {
    && r'.ref.boundary == r.ref.boundary && r'.ref.attempt == r.ref.attempt && r'.ref.number == r.ref.number
    && r'.ref.kind == r.ref.kind && r'.ref.site == r.ref.site
    && r'.original == r.original
    && (r.selection != UnknownSelection ==>
          r'.selection == r.selection && r'.rule == r.rule && r'.predicateError == r.predicateError)
    && (r.accepted.Some? ==> r'.accepted == r.accepted)
    && (r.retry.Some? ==> r'.retry == r.retry)
  }

  lemma {:induction false} RowIsKept(x: Index, y: Index, id: string, e: Evidence, e': Evidence)
    requires Kept(e, e') && OwnRef(e.ref, id) && OwnRef(e'.ref, id)
    ensures RowKept(RowOf(x, e), RowOf(y, e'))
  {
    hide SplitAttempt, BoundaryParts, HandlingOf;
  }

  predicate Followed(e: Evidence, e': Evidence, id: string) { Kept(e, e') && OwnRef(e.ref, id) && OwnRef(e'.ref, id) }

  lemma {:induction false} RowsAlign(x: Index, l: Ledger, y: Index, l': Ledger, order: seq<string>)
    requires RowsOf(x, l, order).Ok? && RowsOf(y, l', order).Ok?
    requires forall id :: id in order ==>
               id in l.evidence && id in l'.evidence && Followed(l.evidence[id], l'.evidence[id], id)
    ensures var rows, rows' := RowsOf(x, l, order).value, RowsOf(y, l', order).value;
            |rows'| == |rows| && forall i :: 0 <= i < |rows| ==> RowKept(rows[i], rows'[i])
  {
    hide Kept, OwnRef, RowOf, RowKept, Contradiction;
    if order != [] {
      var n := |order| - 1;
      var id := order[n];
      assert order == order[..n] + [id];
      assert forall k :: k in order[..n] ==> k in order;
      RowsAlign(x, l, y, l', order[..n]);
      assert id in order;
      RowIsKept(x, y, id, l.evidence[id], l'.evidence[id]);
      assert Succeeded(l.evidence[id]) == Succeeded(l'.evidence[id]) by {
        SameOutcome(l.evidence[id], l'.evidence[id]);
      }
    }
  }

  lemma {:induction false} SameOutcome(e: Evidence, e': Evidence)
    requires Kept(e, e')
    ensures Succeeded(e) == Succeeded(e')
  {
  }

  lemma {:induction false} RowsPrefix(x: Index, l: Ledger, order: seq<string>, n: nat)
    requires n <= |order| && RowsOf(x, l, order).Ok?
    ensures RowsOf(x, l, order[..n]).Ok? && RowsOf(x, l, order[..n]).value <= RowsOf(x, l, order).value
    decreases |order|
  {
    hide RowOf, Contradiction;
    if n == |order| {
      assert order[..n] == order;
    } else {
      RowsPrefix(x, l, order[..|order| - 1], n);
      assert order[..|order| - 1][..n] == order[..n];
    }
  }

  /** If a history and an extension of it are both accepted, the rows of the
      shorter one are an index-aligned prefix of the longer one's, and every
      recorded original failure, known selection and rule, accepted result and
      retry decision is unchanged. */
  lemma {:induction false} EvidenceIsMonotone(e: seq<Record>, f: seq<Record>)
    requires Project(e).Ok? && Project(e + f).Ok?
    ensures var rows, rows' := Project(e).value, Project(e + f).value;
            |rows| <= |rows'| && forall i :: 0 <= i < |rows| ==> RowKept(rows[i], rows'[i])
  {
    hide IndexOf, LedgerOf, RowsOf, RowKept, OwnRef, Kept, SameFacts, Backed;
    var x, y := IndexOf(e).value, IndexOf(e + f).value;
    LedgerGrows(y, e, f);
    var l, m, l' := LedgerOf(x, e).value, LedgerOf(y, e).value, LedgerOf(y, e + f).value;
    IndexesAgree(x, y, e);
    LedgerIsBacked(x, e);
    LedgerIsBacked(y, e + f);
    var n := |l.order|;
    assert l'.order[..n] == l.order;
    RowsPrefix(y, l', l'.order, n);
    forall id | id in l.order
      ensures id in l.evidence && id in l'.evidence && Followed(l.evidence[id], l'.evidence[id], id)
    {
      KeptThrough(l, m, l', id);
      OwnOf(l.evidence[id], id, e);
      OwnOf(l'.evidence[id], id, e + f);
    }
    RowsAlign(x, l, y, l', l.order);
  }

  lemma {:induction false} KeptThrough(l: Ledger, m: Ledger, l': Ledger, id: string)
    requires SameLedger(l, m) && Grown(m, l') && id in l.evidence
    ensures id in l'.evidence && Kept(l.evidence[id], l'.evidence[id])
  {
    assert id in m.evidence;
  }

  lemma {:induction false} OwnOf(e: Evidence, id: string, entries: seq<Record>)
    requires Backed(e, id, entries)
    ensures OwnRef(e.ref, id)
  {
  }
}

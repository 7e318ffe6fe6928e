/** `projectCatchHistory` as it runs: loops that fill maps, in whatever order the
    language enumerates them. */
module CatchProjection {
  import opened Text
  import opened Records
  import opened Identity
  import opened CatchHistory

  method BuildIndex(entries: seq<Record>) returns (r: Outcome<Index>)
    ensures r == IndexOf(entries)
  {
    hide IndexStep;
    var x := NOTHING;
    for i := 0 to |entries|
      invariant IndexOf(entries[..i]) == Ok(x)
    {
      assert entries[..i + 1][..i] == entries[..i];
      var s := IndexStep(x, entries[i]);
      if s.Err? {
        IndexStops(entries, i + 1);
        return s;
      }
      x := s.value;
    }
    assert entries[..|entries|] == entries;
    r := Ok(x);
  }

  /** The first refusal is the answer. */
  lemma {:induction false} IndexStops(entries: seq<Record>, n: nat)
    requires n <= |entries| && IndexOf(entries[..n]).Err?
    ensures IndexOf(entries) == IndexOf(entries[..n])
    decreases |entries|
  {
    hide IndexStep;
    if n == |entries| {
      assert entries[..n] == entries;
    } else {
      assert entries[..|entries| - 1][..n] == entries[..n];
      IndexStops(entries[..|entries| - 1], n);
    }
  }

  // ---- handler ancestry -------------------------------------------------------------------

  /** A map of owners answers; the empty string marks an ambiguous context. */
  function Lookup(owners: map<string, string>, context: string): Owner {
    if context !in owners then NoOwner else if owners[context] == "" then Ambiguous else OneOwner(owners[context])
  }

  function Binders(bound: set<(string, string)>, context: string): set<string> {
    set p | p in bound && HandlerId(p.0, p.1) == context :: p.0
  }

  /** Every attempt with every rule whose handler it may own. */
  function Bindings(x: Index): set<(string, string)> {
    set a, r | a in Attempts(x) && r in RulesOwned(x, a) :: (a, r)
  }

  lemma {:induction false} BindersAreOwners(x: Index, context: string)
    ensures Binders(Bindings(x), context) == set a | a in Attempts(x) && Owns(x, a, context)
  {
    hide RulesOwned, Attempts;
    forall a ensures a in Binders(Bindings(x), context) <==> a in Attempts(x) && Owns(x, a, context) {
      if a in Attempts(x) && Owns(x, a, context) {
        var r := context[|a| + 7..];
        assert HandlerId(a, r) == context;
        assert (a, r) in Bindings(x);
      }
      if a in Binders(Bindings(x), context) {
        var p :| p in Bindings(x) && HandlerId(p.0, p.1) == context && p.0 == a;
        assert context[..|a + "/catch:"|] == a + "/catch:" && context[|a| + 7..] == p.1;
      }
    }
  }

  lemma {:induction false} OneMore(s: set<string>, a: string)
    ensures Single(s + {a}) == if s == {} || s == {a} then OneOwner(a) else Ambiguous
  {
    if s == {} || s == {a} {
      assert s + {a} == {a};
    } else {
      var b :| b in s && b != a;
      assert a in s + {a} && b in s + {a};
    }
  }

  /** `bindHandler`, over all bindings, in any order: the map ends up saying who
      owns each handler context. */
  method BindHandlers(x: Index) returns (owners: map<string, string>)
    requires forall a :: a in Attempts(x) ==> a != ""
    ensures forall context :: Lookup(owners, context) == OwnerOf(x, context)
  {
    hide Attempts, RulesOwned, Owns, HandlerId, Single;
    owners := map[];
    var todo := Bindings(x);
    ghost var done: set<(string, string)> := {};
    NothingBound();
    while todo != {}
      invariant todo + done == Bindings(x)
      invariant forall context :: Lookup(owners, context) == Single(Binders(done, context))
    {
      var p :| p in todo;
      todo := todo - {p};
      var context := HandlerId(p.0, p.1);
      forall c ensures Binders(done + {p}, c) == Binders(done, c) + if c == context then {p.0} else {} {
        OneBinding(done, p, c);
      }
      OneMore(Binders(done, context), p.0);
      assert p in Bindings(x);
      ghost var before := owners;
      if context in owners && owners[context] != p.0 {
        owners := owners[context := ""];
      } else if context !in owners {
        owners := owners[context := p.0];
      }
      forall c ensures Lookup(owners, c) == Single(Binders(done + {p}, c)) {
        if c != context { assert Binders(done + {p}, c) == Binders(done, c);
                         assert Lookup(owners, c) == Lookup(before, c); }
        else { assert Lookup(owners, c) == Step(Lookup(before, c), p.0); StepIsMore(Binders(done, c), p.0); }
      }
      done := done + {p};
    }
    assert done == Bindings(x);
    forall context ensures Lookup(owners, context) == OwnerOf(x, context) { BindersAreOwners(x, context); }
  }

  function Step(o: Owner, a: string): Owner {
    if o == NoOwner || o == OneOwner(a) then OneOwner(a) else Ambiguous
  }

  lemma {:induction false} StepIsMore(s: set<string>, a: string)
    ensures Step(Single(s), a) == Single(s + {a})
  {
    OneMore(s, a);
    if s == {a} { assert Single(s) == OneOwner(a) by { OneMore({}, a); assert {} + {a} == {a}; } }
  }

  lemma {:induction false} NothingBound()
    ensures forall c :: Binders({}, c) == {} && Single(Binders({}, c)) == NoOwner
  {
  }

  lemma {:induction false} OneBinding(done: set<(string, string)>, p: (string, string), c: string)
    ensures Binders(done + {p}, c) == Binders(done, c) + if HandlerId(p.0, p.1) == c then {p.0} else {}
  {
    hide HandlerId;
  }

  lemma {:induction false} AttemptsAreNamed(entries: seq<Record>)
    requires IndexOf(entries).Ok?
    ensures forall a :: a in Attempts(IndexOf(entries).value) ==> a != ""
  {
    hide IndexStep, Attempts;
    if entries == [] {
      assert Attempts(NOTHING) == {} by { NoAttempts(); }
    } else {
      var n := |entries| - 1;
      AttemptsAreNamed(entries[..n]);
      NewAttempt(IndexOf(entries[..n]).value, entries[n]);
      NoEmptyAttempt();
    }
  }

  lemma {:induction false} NoAttempts()
    ensures Attempts(NOTHING) == {}
  {
  }

  lemma {:induction false} NewAttempt(x: Index, rec: Record)
    requires IndexStep(x, rec).Ok?
    ensures forall a :: a in Attempts(IndexStep(x, rec).value) ==>
              a in Attempts(x) || (a == rec.id && SplitAttempt(rec.id).Ok?)
  {
    hide DeclaredPolicy, RulesOk, SplitAttempt;
    var y := IndexStep(x, rec).value;
    forall a | a in Attempts(y) ensures a in Attempts(x) || (a == rec.id && SplitAttempt(rec.id).Ok?) {
      if k :| k in y.seen && k.1 == a { assert k in x.seen ==> k.1 in Attempts(x); }
    }
  }

  lemma {:induction false} NoEmptyAttempt()
    ensures SplitAttempt("").Err?
  {
    if SplitAttempt("").Ok? { SplitShape(""); }
  }

  /** `catchReference`. */
  method ResolveReference(x: Index, owners: map<string, string>, id: string) returns (r: Outcome<Ref>)
    requires forall context :: Lookup(owners, context) == OwnerOf(x, context)
    ensures r == Reference(x, id)
    decreases |id|
  {
    hide SplitAttempt, BoundaryParts, OwnerOf;
    var split := SplitAttempt(id);
    if split.Err? { return Err(split.reason); }
    var s := split.value;
    var parts := BoundaryParts(s.boundary);
    if parts.Err? { return Err(parts.reason); }
    var p := parts.value;
    if p.parent == "" {
      if p.kind != "scope" || p.site != "$job" { return Err("missing whole-job ancestry"); }
      if (Attempt, id) !in x.seen { return Err("missing recorded whole-job attempt"); }
      return Ok(Ref(s.boundary, id, s.number, p.kind, p.site, "", id));
    }
    PartsShrink(id);
    assert Lookup(owners, p.parent) == OwnerOf(x, p.parent);
    var context := p.parent;
    if p.parent in owners {
      if owners[p.parent] == "" { return Err("ambiguous handler ancestry"); }
      context := owners[p.parent];
    }
    var ancestor := ResolveReference(x, owners, context);
    if ancestor.Err? { return Err(ancestor.reason); }
    r := Ok(Ref(s.boundary, id, s.number, p.kind, p.site, ancestor.value.boundary, ancestor.value.jobAttempt));
  }

  // ---- evidence and rows ----------------------------------------------------------------------

  method JoinEvidence(x: Index, owners: map<string, string>, l: Ledger, rec: Record) returns (r: Outcome<Ledger>)
    requires forall context :: Lookup(owners, context) == OwnerOf(x, context)
    ensures r == LedgerStep(x, l, rec)
  {
    hide Reference, Conflict, OwnerOf, Enter;
    if !IsEvidence(rec.kind) { return Ok(l); }
    if rec.kind != Result && (Attempt, rec.id) !in x.seen && (Result, rec.id) !in x.seen {
      return Err("orphan record");
    }
    var e, order;
    if rec.id in l.evidence {
      e, order := l.evidence[rec.id], l.order;
    } else {
      var ref := ResolveReference(x, owners, rec.id);
      if ref.Err? { return Err(ref.reason); }
      e, order := Evidence(ref.value, None, None, None, None), l.order + [rec.id];
    }
    var why := Conflict(x, e, rec);
    if why.Some? { return Err(why.value); }
    r := Ok(Ledger(l.evidence[rec.id := Enter(e, rec)], order));
  }

  method BuildLedger(x: Index, owners: map<string, string>, entries: seq<Record>) returns (r: Outcome<Ledger>)
    requires forall context :: Lookup(owners, context) == OwnerOf(x, context)
    ensures r == LedgerOf(x, entries)
  {
    hide LedgerStep, OwnerOf;
    var l := Ledger(map[], []);
    for i := 0 to |entries|
      invariant LedgerOf(x, entries[..i]) == Ok(l)
    {
      assert entries[..i + 1][..i] == entries[..i];
      var s := JoinEvidence(x, owners, l, entries[i]);
      if s.Err? {
        LedgerStops(x, entries, i + 1);
        return s;
      }
      l := s.value;
    }
    assert entries[..|entries|] == entries;
    r := Ok(l);
  }

  lemma {:induction false} LedgerStops(x: Index, entries: seq<Record>, n: nat)
    requires n <= |entries| && LedgerOf(x, entries[..n]).Err?
    ensures LedgerOf(x, entries) == LedgerOf(x, entries[..n])
    decreases |entries|
  {
    hide LedgerStep;
    if n == |entries| {
      assert entries[..n] == entries;
    } else {
      assert entries[..|entries| - 1][..n] == entries[..n];
      LedgerStops(x, entries[..|entries| - 1], n);
    }
  }

  method BuildRows(x: Index, l: Ledger) returns (r: Outcome<seq<Row>>)
    ensures r == RowsOf(x, l, l.order)
  {
    hide RowOf, Contradiction;
    var rows := [];
    for i := 0 to |l.order|
      invariant RowsOf(x, l, l.order[..i]) == Ok(rows)
    {
      var id := l.order[i];
      assert l.order[..i + 1][..i] == l.order[..i];
      if id !in l.evidence {
        RowsStop(x, l, l.order, i + 1);
        return Err("no evidence");
      }
      var e := l.evidence[id];
      var why := Contradiction(e);
      if why.Some? {
        RowsStop(x, l, l.order, i + 1);
        return Err(why.value);
      }
      if !Succeeded(e) { rows := rows + [RowOf(x, e)]; }
    }
    assert l.order[..|l.order|] == l.order;
    r := Ok(rows);
  }

  lemma {:induction false} RowsStop(x: Index, l: Ledger, order: seq<string>, n: nat)
    requires n <= |order| && RowsOf(x, l, order[..n]).Err?
    ensures RowsOf(x, l, order) == RowsOf(x, l, order[..n])
    decreases |order|
  {
    hide RowOf, Contradiction;
    if n == |order| {
      assert order[..n] == order;
    } else {
      assert order[..|order| - 1][..n] == order[..n];
      RowsStop(x, l, order[..|order| - 1], n);
    }
  }

  /** `projectCatchHistory`. */
  method ProjectCatchHistory(entries: seq<Record>) returns (r: Outcome<seq<Row>>)
    ensures r == Project(entries)
  {
    hide IndexOf, LedgerOf, RowsOf, OwnerOf;
    var x := BuildIndex(entries);
    if x.Err? { return Err(x.reason); }
    AttemptsAreNamed(entries);
    var owners := BindHandlers(x.value);
    var l := BuildLedger(x.value, owners, entries);
    if l.Err? { return Err(l.reason); }
    r := BuildRows(x.value, l.value);
  }
}

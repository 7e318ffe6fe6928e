/** Which boundaries a continuation's budgets reach, and what they do to the
    attempt limit. */
module EngineBudgets {
  import opened Text
  import opened Records
  import opened Identity
  import opened Policies
  import opened Paths
  import opened EngineLog
  import opened Engine
  import opened EngineRuns
  import D = Deadlines

  const MARK := "/attempt:"

  // ---- the boundary of a context ---------------------------------------------------------

  /** Nothing after the last attempt mark looks like another. */
  lemma {:induction false} LastMarkIs(boundary: string, text: string)
    requires forall k :: 0 <= k <= |text| ==> !StartsWith(text[k..], MARK)
    ensures LastIndex(boundary + (MARK + text), MARK) == |boundary|
  {
    hide LastIndex, StartsWith;
    var id := boundary + (MARK + text);
    assert id[|boundary|..] == MARK + text;
    StartsHere(id, |boundary|, MARK, text);
    forall k | |boundary| < k <= |id| ensures !StartsWith(id[k..], MARK) {
      if k < |boundary| + 9 {
        assert id[k..][0] == MARK[k - |boundary|];
        Differs(id[k..], MARK, 0);
      } else {
        assert id[k..] == text[k - |boundary| - 9..];
      }
    }
  }

  /** Attempt numbers and handler names hold no attempt mark. */
  lemma {:induction false} NoMark(digits: string, rest: string, k: nat)
    requires Digits(digits) && (rest == "" || (|rest| >= 2 && rest[1] == 'c' && '/' !in rest[1..]))
             && k <= |digits + rest|
    ensures !StartsWith((digits + rest)[k..], MARK)
  {
    hide StartsWith;
    var s := (digits + rest)[k..];
    if k < |digits| {
      assert s[0] == digits[k];
      Differs(s, MARK, 0);
    } else if k == |digits| {
      assert s == rest;
      Differs(s, MARK, 1);
    } else if s != "" {
      assert s[0] == rest[1..][k - |digits| - 1];
      Differs(s, MARK, 0);
    } else {
      Differs(s, MARK, 0);
    }
  }

  lemma {:induction false} AttemptBelongs(b: Path, n: nat)
    ensures BoundaryOf(Print(b + [Try(n)])) == Some(Print(b))
  {
    hide LastIndex, PrintNat, Print, StartsWith;
    PrintSnoc(b, Try(n));
    PrintNatIsPlain(n);
    var text := PrintNat(n);
    forall k | 0 <= k <= |text| ensures !StartsWith(text[k..], MARK) {
      NoMark(text, "", k);
      assert text + "" == text;
    }
    LastMarkIs(Print(b), text);
    assert (Print(b) + (MARK + text))[..|Print(b)|] == Print(b);
  }

  lemma {:induction false} HandlerBelongs(b: Path, n: nat, rule: string)
    requires SegmentOk(Handler(rule))
    ensures BoundaryOf(Print(b + [Try(n)] + [Handler(rule)])) == Some(Print(b))
  {
    hide LastIndex, PrintNat, Print, StartsWith;
    PrintSnoc(b, Try(n));
    PrintSnoc(b + [Try(n)], Handler(rule));
    PrintNatIsPlain(n);
    var digits, rest := PrintNat(n), "/catch:" + rule;
    var text := digits + rest;
    forall k | 0 <= k <= |text| ensures !StartsWith(text[k..], MARK) { NoMark(digits, rest, k); }
    LastMarkIs(Print(b), text);
    assert Print(b) + (MARK + digits) + rest == Print(b) + (MARK + text);
    assert (Print(b) + (MARK + text))[..|Print(b)|] == Print(b);
  }

  // ---- running contexts -------------------------------------------------------------------

  predicate Running(f: Frame) { f.phase.Body? || f.phase.Handling? }

  lemma {:induction false} ContextBelongs(log: seq<Entry>, f: Frame)
    requires FrameOk(log, f) && Running(f)
    ensures IsBoundaryPath(f.boundary) && BoundaryOf(Print(Context(f))) == Some(Print(f.boundary))
  {
    hide BoundaryOf, Print, Find, Fresh, Opened, PathOk, PolicyOk, PolicyIn, ContextOpen, DeclaredAs, StartedAs,
         RetriedTo, LaterFresh, CallsFresh;
    if f.phase.Handling? {
      HandlerBelongs(f.boundary, f.attempt, f.phase.rule);
    } else {
      AttemptBelongs(f.boundary, f.attempt);
    }
  }

  /** A context's budget is found from exactly the attempts of its boundary. */
  lemma {:induction false} CoversOwn(log: seq<Entry>, f: Frame, b: Path, n: nat)
    requires FrameOk(log, f) && Running(f) && IsBoundaryPath(b)
    ensures Covers(Print(Context(f)), Print(b + [Try(n)])) <==> f.boundary == b
  {
    hide BoundaryOf, Print, FrameOk, Context, PathOk;
    ContextBelongs(log, f);
    AttemptBelongs(b, n);
    if Print(f.boundary) == Print(b) { PrintInjective(f.boundary, b); }
  }

  /** Where a call may be made, every boundary on the stack is running. */
  ghost predicate AllRunning(w: Writer) { forall i :: 0 <= i < |w.stack| ==> Running(w.stack[i]) }

  lemma {:induction false} CallersRun(w: Writer, kind: string, site: string)
    requires Inv(w) && MayOpen(w, kind, site)
    ensures AllRunning(w)
  {
    hide FrameOk, WellRecorded, Retried;
    forall i | 0 <= i < |w.stack| ensures Running(w.stack[i]) {
      if i < |w.stack| - 1 { assert Inside(w.stack[i], w.stack[i + 1]); }
    }
  }

  lemma {:induction false} DeeperIsLonger(w: Writer, i: nat, j: nat)
    requires Inv(w) && i < j < |w.stack|
    ensures |w.stack[i].boundary| < |w.stack[j].boundary|
  {
    hide FrameOk, WellRecorded, Retried;
    StackIsChain(w, i, j);
    assert Inside(w.stack[i], w.stack[i + 1]);
  }

  lemma {:induction false} ContextsDiffer(w: Writer)
    requires Inv(w) && AllRunning(w)
    ensures D.DistinctIds(Chain(w.stack))
  {
    hide Inv, FrameOk, BoundaryOf, Print, Context, PathOk;
    var c := Chain(w.stack);
    forall i, j | 0 <= i < j < |c| ensures c[i].id != c[j].id {
      var f, g := w.stack[i], w.stack[j];
      FrameIsOk(w, i);
      FrameIsOk(w, j);
      ContextBelongs(w.log, f);
      ContextBelongs(w.log, g);
      DeeperIsLonger(w, i, j);
      if Print(f.boundary) == Print(g.boundary) { PrintInjective(f.boundary, g.boundary); }
    }
  }

  lemma {:induction false} FrameIsOk(w: Writer, i: nat)
    requires Inv(w) && i < |w.stack|
    ensures FrameOk(w.log, w.stack[i])
  {
    hide FrameOk, WellRecorded, Retried, Inside;
  }

  /** Which frame runs a boundary, if any. */
  ghost predicate RunsAt(w: Writer, b: Path, i: int) { 0 <= i < |w.stack| && w.stack[i].boundary == b }

  /** Every budget of a continuation belongs to a running context. */
  lemma {:induction false} BudgetHasFrame(w: Writer, now: Time, b: Path, n: nat) returns (i: nat)
    requires Inv(w) && AllRunning(w) && IsBoundaryPath(b) && BudgetFor(FreshBudgets(w, now), Print(b + [Try(n)])).Some?
    ensures RunsAt(w, b, i)
            && BudgetFor(FreshBudgets(w, now), Print(b + [Try(n)])) == Some(D.Budgets(Chain(w.stack), now)[i])
  {
    hide Inv, FrameOk, Covers, Print, Context, PathOk, D.Budgets, D.BudgetMap;
    var m, aid := FreshBudgets(w, now), Print(b + [Try(n)]);
    var key :| key in m && Covers(key, aid) && BudgetFor(m, aid) == Some(m[key]);
    var c := Chain(w.stack);
    ContextsDiffer(w);
    i := D.BudgetMapOnly(c, D.Budgets(c, now), key);
    FrameIsOk(w, i);
    CoversOwn(w.log, w.stack[i], b, n);
    D.BudgetMapHas(c, D.Budgets(c, now), i);
  }

  /** A running boundary has a budget, whichever of its attempts asks. */
  lemma {:induction false} FrameHasBudget(w: Writer, now: Time, b: Path, n: nat, i: nat)
    requires Inv(w) && AllRunning(w) && IsBoundaryPath(b) && RunsAt(w, b, i)
    ensures BudgetFor(FreshBudgets(w, now), Print(b + [Try(n)])) == Some(D.Budgets(Chain(w.stack), now)[i])
  {
    hide Inv, FrameOk, Covers, Print, Context, PathOk, D.Budgets, D.BudgetMap;
    var c := Chain(w.stack);
    ContextsDiffer(w);
    FrameIsOk(w, i);
    CoversOwn(w.log, w.stack[i], b, n);
    D.BudgetMapHas(c, D.Budgets(c, now), i);
    var j := BudgetHasFrame(w, now, b, n);
    if i < j { DeeperIsLonger(w, i, j); } else if j < i { DeeperIsLonger(w, j, i); }
  }

  lemma {:induction false} BudgetAttempt(chain: seq<D.Ctx>, now: Time, i: nat)
    requires i < |chain|
    ensures D.Budgets(chain, now)[i].attempt == chain[i].attempt
  {
    var n := |chain| - 1;
    if i < n { BudgetAttempt(chain[..n], now, i); }
  }

  /** What a continuation does to the attempt limit of a boundary, for every later
      attempt of it: as many attempts again as its policy allows if it was in
      attempt k, one less than its policy allows if it was in a handler, and
      nothing if it was not running. */
  lemma {:induction false} ContinuationSetsLimit(w: Writer, kind: string, site: string, now: Time, kept: bool,
                                                 b: Path, p: Policy, n: nat)
    requires Inv(w) && MayOpen(w, kind, site) && IsBoundaryPath(b) && PolicyOk(p)
    ensures var limit := Limit(p, ContinueMove(w, kind, site, now, kept).budgets, Print(b + [Try(n)]));
            && (forall i :: RunsAt(w, b, i) ==>
                  if w.stack[i].phase.Handling? then limit == p.maximumAttempts - 1
                  else limit == Wrap32(p.maximumAttempts + (w.stack[i].attempt - 1)))
            && ((forall i :: !RunsAt(w, b, i)) ==> limit == p.maximumAttempts)
  {
    hide Inv, FrameOk, Print, PathOk, D.Budgets, D.BudgetMap, BudgetFor, PlainRules, FreshBudgets;
    CallersRun(w, kind, site);
    var m := FreshBudgets(w, now);
    forall i | RunsAt(w, b, i)
      ensures BudgetFor(m, Print(b + [Try(n)])).Some?
              && BudgetFor(m, Print(b + [Try(n)])).value.attempt == FrameCtx(w.stack[i]).attempt
      ensures 1 <= w.stack[i].attempt <= MAX_INT32
    {
      FrameHasBudget(w, now, b, n, i);
      BudgetAttempt(Chain(w.stack), now, i);
      FrameIsOk(w, i);
      AttemptInRange(w.log, w.stack[i]);
    }
    if forall i :: !RunsAt(w, b, i) {
      if BudgetFor(m, Print(b + [Try(n)])).Some? { var i := BudgetHasFrame(w, now, b, n); }
    }
  }

  lemma {:induction false} AttemptInRange(log: seq<Entry>, f: Frame)
    requires FrameOk(log, f)
    ensures 1 <= f.attempt <= MAX_INT32
  {
    hide Find, Fresh, Opened, PathOk, PolicyOk, PolicyIn, ContextOpen, DeclaredAs, StartedAs, RetriedTo, LaterFresh,
         CallsFresh, PhaseOk;
  }

  // ---- the lookup ---------------------------------------------------------------------------

  /** No boundary has two budgets. */
  ghost predicate OneEach(budgets: Budgets) {
    forall k, l :: k in budgets && l in budgets && Covers(k, l) ==> k == l
  }

  lemma {:induction false} FreshAreOneEach(w: Writer, now: Time)
    requires Inv(w) && AllRunning(w)
    ensures OneEach(FreshBudgets(w, now))
  {
    hide Inv, FrameOk, Print, Context, PathOk, BoundaryOf, D.Budgets, D.BudgetMap;
    var c := Chain(w.stack);
    var bs := D.Budgets(c, now);
    forall k, l | k in FreshBudgets(w, now) && l in FreshBudgets(w, now) && Covers(k, l) ensures k == l {
      var i := D.BudgetMapOnly(c, bs, k);
      var j := D.BudgetMapOnly(c, bs, l);
      FrameIsOk(w, i);
      FrameIsOk(w, j);
      ContextBelongs(w.log, w.stack[i]);
      ContextBelongs(w.log, w.stack[j]);
      PrintInjective(w.stack[i].boundary, w.stack[j].boundary);
      if i < j { DeeperIsLonger(w, i, j); } else if j < i { DeeperIsLonger(w, j, i); }
    }
  }

  /** `continuationBudget`, over the map in any order. */
  method ContinuationBudget(budgets: Budgets, id: string) returns (found: Option<D.Budget>)
    ensures found.Some? ==> exists key :: key in budgets && Covers(key, id) && found == Some(budgets[key])
    ensures found.None? ==> forall key :: key in budgets ==> !Covers(key, id)
    ensures OneEach(budgets) ==> found == BudgetFor(budgets, id)
  {
    hide BoundaryOf;
    var left := budgets.Keys;
    while left != {}
      invariant left <= budgets.Keys
      invariant forall key :: key in budgets && key !in left ==> !Covers(key, id)
      decreases |left|
    {
      var key :| key in left;
      if Covers(key, id) { return Some(budgets[key]); }
      left := left - {key};
    }
    return None;
  }
}

/** Nested deadlines, and the budgets a continuation gives to the contexts around
    its target. Zero means no limit. */
module Deadlines {
  import opened Text
  import opened JsonText
  import opened Records
  import P = Policies

  function DeadlineFrom(at: Time, limit: int): Time { if limit <= 0 then ZERO_TIME else at + limit }

  function Earlier(a: Time, b: Time): Time {
    if a == ZERO_TIME || (b != ZERO_TIME && b < a) then b else a
  }

  /** A limit at least as strict as another. */
  predicate Within(a: Time, b: Time) { b == ZERO_TIME || (a != ZERO_TIME && a <= b) }

  /** `Earlier` is the greatest limit within both. */
  lemma {:induction false} EarlierIsGreatest(a: Time, b: Time, c: Time)
    ensures Within(Earlier(a, b), a) && Within(Earlier(a, b), b)
    ensures Within(c, a) && Within(c, b) <==> Within(c, Earlier(a, b))
  {
  }

  // ---- contexts ---------------------------------------------------------------------------

  /** The lifetime settings of one context. */
  datatype Ctx = Ctx(id: string, totalTimeout: int, attemptTimeout: int, attempt: int, deadline: Time, total: Time)

  /** Every context ends no later than its total deadline and than the context
      around it. Outermost first. */
  predicate Nested(chain: seq<Ctx>) {
    && (forall i :: 0 <= i < |chain| ==> Within(chain[i].deadline, chain[i].total))
    && (forall i :: 0 < i < |chain| ==> Within(chain[i].deadline, chain[i - 1].deadline))
  }

  function Enclosing(chain: seq<Ctx>): Time { if chain == [] then ZERO_TIME else chain[|chain| - 1].deadline }

  /** An attempt of a scope or a task: `total` from the declaration and the context
      around, `deadline` from the attempt's own start. */
  function AttemptCtx(chain: seq<Ctx>, id: string, p: P.Policy, number: int, declaredTotal: Time, at: Time): Ctx {
    var total := Earlier(declaredTotal, Enclosing(chain));
    Ctx(id, p.totalTimeout, p.attemptTimeout, number, Earlier(DeadlineFrom(at, p.attemptTimeout), total), total)
  }

  /** The same attempt, rebuilt from its recorded start. */
  function Replayed(chain: seq<Ctx>, id: string, p: P.Policy, number: int, declaredTotal: Time,
                    recordedDeadline: Time): Ctx {
    Ctx(id, p.totalTimeout, p.attemptTimeout, number, recordedDeadline, Earlier(declaredTotal, Enclosing(chain)))
  }

  /** A matcher or handler: bounded by the attempt's total and the context around
      it, with no limits of its own. */
  function HandlerCtx(chain: seq<Ctx>, id: string, total: Time): Ctx {
    Ctx(id, 0, 0, 0, Earlier(total, Enclosing(chain)), total)
  }

  // ---- restart budgets --------------------------------------------------------------------------

  datatype Budget = Budget(deadline: Time, total: Time, attempt: int)

  /** Fresh budgets along a chain, outermost context first. */
  function Budgets(chain: seq<Ctx>, now: Time): (bs: seq<Budget>)
    ensures |bs| == |chain|
  {
    if chain == [] then []
    else
      var n := |chain| - 1;
      var outer := Budgets(chain[..n], now);
      var enclosing := if n == 0 then ZERO_TIME else outer[n - 1].deadline;
      var total := Earlier(DeadlineFrom(now, chain[n].totalTimeout), enclosing);
      outer + [Budget(Earlier(DeadlineFrom(now, chain[n].attemptTimeout), total), total, chain[n].attempt)]
  }

  predicate DistinctIds(chain: seq<Ctx>) { forall i, j :: 0 <= i < j < |chain| ==> chain[i].id != chain[j].id }

  /** The budgets by context. */
  function BudgetMap(chain: seq<Ctx>, bs: seq<Budget>): map<string, Budget>
    requires |bs| == |chain|
  {
    if chain == [] then map[]
    else var n := |chain| - 1; BudgetMap(chain[..n], bs[..n])[chain[n].id := bs[n]]
  }

  function Rebudget(c: Ctx, m: map<string, Budget>): Ctx {
    if c.id in m then c.(deadline := m[c.id].deadline, total := m[c.id].total) else c
  }

  function RebudgetAll(chain: seq<Ctx>, m: map<string, Budget>): (r: seq<Ctx>)
    ensures |r| == |chain| && forall i :: 0 <= i < |chain| ==> r[i] == Rebudget(chain[i], m)
  {
    seq(|chain|, i requires 0 <= i < |chain| => Rebudget(chain[i], m))
  }

  lemma {:induction false} BudgetMapHas(chain: seq<Ctx>, bs: seq<Budget>, i: nat)
    requires |bs| == |chain| && i < |chain| && DistinctIds(chain)
    ensures chain[i].id in BudgetMap(chain, bs) && BudgetMap(chain, bs)[chain[i].id] == bs[i]
    decreases |chain|
  {
    var n := |chain| - 1;
    if i < n { BudgetMapHas(chain[..n], bs[..n], i); }
  }

  lemma {:induction false} BudgetMapOnly(chain: seq<Ctx>, bs: seq<Budget>, id: string) returns (i: nat)
    requires |bs| == |chain| && id in BudgetMap(chain, bs)
    ensures i < |chain| && chain[i].id == id
  {
    var n := |chain| - 1;
    i := n;
    if chain[n].id != id { i := BudgetMapOnly(chain[..n], bs[..n], id); }
  }

  lemma {:induction false} BudgetsNest(chain: seq<Ctx>, now: Time)
    ensures forall i :: 0 <= i < |chain| ==> Within(Budgets(chain, now)[i].deadline, Budgets(chain, now)[i].total)
    ensures forall i :: 0 < i < |chain| ==> Within(Budgets(chain, now)[i].deadline, Budgets(chain, now)[i - 1].deadline)
    ensures forall i :: 0 < i < |chain| ==> Within(Budgets(chain, now)[i].total, Budgets(chain, now)[i - 1].deadline)
    ensures forall i :: 0 <= i < |chain| ==>
              Within(Budgets(chain, now)[i].total, DeadlineFrom(now, chain[i].totalTimeout))
    ensures forall i :: 0 <= i < |chain| ==>
              Within(Budgets(chain, now)[i].deadline, DeadlineFrom(now, chain[i].attemptTimeout))
  {
    if chain != [] { BudgetsNest(chain[..|chain| - 1], now); }
  }

  /** The budgets a restart writes nest along the whole chain, whatever the
      deadlines were before, and give each context no more than its own limits
      from now on. */
  lemma {:induction false} RestartNests(chain: seq<Ctx>, now: Time)
    requires DistinctIds(chain)
    ensures var after := RebudgetAll(chain, BudgetMap(chain, Budgets(chain, now)));
            && Nested(after)
            && (forall i :: 0 < i < |chain| ==> Within(after[i].total, after[i - 1].deadline))
            && (forall i :: 0 <= i < |chain| ==> Within(after[i].total, DeadlineFrom(now, chain[i].totalTimeout)))
            && (forall i :: 0 <= i < |chain| ==> Within(after[i].deadline, DeadlineFrom(now, chain[i].attemptTimeout)))
  {
    hide Budgets, BudgetMap, Within, DeadlineFrom;
    var bs := Budgets(chain, now);
    BudgetsNest(chain, now);
    forall i | 0 <= i < |chain| ensures chain[i].id in BudgetMap(chain, bs)
        && BudgetMap(chain, bs)[chain[i].id] == bs[i] {
      BudgetMapHas(chain, bs, i);
    }
  }

  // ---- the recorded continuation -------------------------------------------------------------------

  function BudgetJson(b: Budget): Json {
    Object(map["deadline" := Number(PrintInt(b.deadline)), "total_deadline" := Number(PrintInt(b.total)),
               "attempt" := Number(PrintInt(b.attempt))])
  }

  function ReadBudget(v: Json): Option<Budget> {
    match P.ReadObject(v)
    case None => None
    case Some(f) =>
      match (P.ReadInt(P.Member(f, "deadline")), P.ReadInt(P.Member(f, "total_deadline")),
             P.ReadInt(P.Member(f, "attempt")))
      case (Some(d), Some(t), Some(a)) => Some(Budget(d, t, a))
      case _ => None
  }

  /** The payload of a continuation record. */
  function ContinuationJson(m: map<string, Budget>): Json { Object(map id | id in m :: BudgetJson(m[id])) }

  function ReadContinuation(v: Json): Option<map<string, Budget>> {
    match P.ReadObject(v)
    case None => None
    case Some(f) =>
      if forall id :: id in f ==> ReadBudget(f[id]).Some? then Some(map id | id in f :: ReadBudget(f[id]).value)
      else None
  }

  lemma {:induction false} ContinuationRoundTrip(m: map<string, Budget>)
    ensures ReadContinuation(ContinuationJson(m)) == Some(m)
  {
    hide ReadBudget, BudgetJson;
    var v := ContinuationJson(m);
    forall id | id in m ensures ReadBudget(BudgetJson(m[id])) == Some(m[id]) { BudgetRoundTrip(m[id]); }
    assert (map id | id in v.fields :: ReadBudget(v.fields[id]).value) == m;
  }

  lemma {:induction false} BudgetRoundTrip(b: Budget)
    ensures ReadBudget(BudgetJson(b)) == Some(b)
  {
    hide PrintInt, P.ReadInt;
    P.ReadPrintedInt(b.deadline);
    P.ReadPrintedInt(b.total);
    P.ReadPrintedInt(b.attempt);
  }

  // ---- whole runs -----------------------------------------------------------------------------------

  /** What the run does to its innermost contexts, and what it records of it. */
  datatype Event =
    | Enter(id: string, policy: P.Policy, number: int, declaredTotal: Time, at: Time)
    | Guard(id: string, total: Time)
    | Rerun(at: Time)
    | Leave
    | Resume(now: Time)

  datatype Note =
    | Entered(id: string, policy: P.Policy, number: int, declaredTotal: Time, deadline: Time)
    | Handling(id: string, total: Time)
    | Left
    | Continued(payload: Json)

  datatype Run = Run(chain: seq<Ctx>, notes: seq<Note>)

  /** Live: deadlines come from clocks and policies. A local task attempt found
      without an outcome runs again, with a fresh timer that nothing records. */
  function Live(r: Run, e: Event): Run {
    match e
    case Enter(id, policy, number, declaredTotal, at) =>
      var c := AttemptCtx(r.chain, id, policy, number, declaredTotal, at);
      Run(r.chain + [c], r.notes + [Entered(id, policy, number, declaredTotal, c.deadline)])
    case Guard(id, total) => Run(r.chain + [HandlerCtx(r.chain, id, total)], r.notes + [Handling(id, total)])
    case Rerun(at) =>
      var n := |r.chain| - 1;
      if r.chain == [] || r.chain[n].attempt == 0 then r
      else r.(chain := r.chain[..n] + [r.chain[n].(deadline := Earlier(DeadlineFrom(at, r.chain[n].attemptTimeout),
          r.chain[n].total))])
    case Leave => if r.chain == [] then r else Run(r.chain[..|r.chain| - 1], r.notes + [Left])
    case Resume(now) =>
      var m := BudgetMap(r.chain, Budgets(r.chain, now));
      Run(RebudgetAll(r.chain, m), r.notes + [Continued(ContinuationJson(m))])
  }

  /** Recovery: deadlines come from the records alone. */
  function Recover(chain: seq<Ctx>, n: Note): seq<Ctx> {
    match n
    case Entered(id, policy, number, declaredTotal, deadline) =>
          chain + [Replayed(chain, id, policy, number, declaredTotal, deadline)]
    case Handling(id, total) => chain + [HandlerCtx(chain, id, total)]
    case Left => if chain == [] then chain else chain[..|chain| - 1]
    case Continued(payload) =>
      match ReadContinuation(payload)
      case None => chain
      case Some(m) => RebudgetAll(chain, m)
  }

  function LiveAll(events: seq<Event>): Run {
    if events == [] then Run([], []) else Live(LiveAll(events[..|events| - 1]), events[|events| - 1])
  }

  function RecoverAll(notes: seq<Note>): seq<Ctx> {
    if notes == [] then [] else Recover(RecoverAll(notes[..|notes| - 1]), notes[|notes| - 1])
  }

  /** Identities of nested contexts differ: each extends the one around it. */
  ghost predicate FreshIds(events: seq<Event>) {
    forall i :: 0 <= i < |events| ==>
      var chain := LiveAll(events[..i]).chain;
      events[i].Enter? || events[i].Guard? ==> forall k :: 0 <= k < |chain| ==> chain[k].id != events[i].id
  }

  lemma {:induction false} EarlierRuns(events: seq<Event>, n: nat)
    requires FreshIds(events) && n <= |events|
    ensures FreshIds(events[..n]) && (TasksAreLeaves(events) ==> TasksAreLeaves(events[..n]))
  {
    hide LiveAll;
    forall i | 0 <= i < n ensures events[..n][..i] == events[..i] && events[..n][i] == events[i] { }
  }

  /** A local task makes no calls of its own: what follows its running again is
      its end. */
  predicate TasksAreLeaves(events: seq<Event>) {
    forall i :: 0 <= i < |events| - 1 && events[i].Rerun? ==> events[i + 1].Rerun? || events[i + 1].Leave?
  }

  /** An attempt's total deadline is within its parent's deadline. */
  predicate Bounded(chain: seq<Ctx>) {
    forall i :: 0 < i < |chain| && chain[i].attempt != 0 ==> Within(chain[i].total, chain[i - 1].deadline)
  }

  lemma {:induction false} LiveNests(r: Run, e: Event)
    requires Nested(r.chain) && DistinctIds(r.chain) && Bounded(r.chain)
    requires e.Enter? || e.Guard? ==> forall k :: 0 <= k < |r.chain| ==> r.chain[k].id != e.id
    ensures Nested(Live(r, e).chain) && DistinctIds(Live(r, e).chain) && Bounded(Live(r, e).chain)
  {
    hide Budgets, BudgetMap;
    if e.Resume? { RestartNests(r.chain, e.now); }
  }

  /** The chain that recovery rebuilds: the live one, but for the timer of a task
      attempt that is being run again. */
  predicate Rebuilt(events: seq<Event>, recovered: seq<Ctx>, chain: seq<Ctx>) {
    var n := |chain| - 1;
    if events != [] && events[|events| - 1].Rerun? && chain != []
    then
      && |recovered| == |chain| && recovered[..n] == chain[..n]
      && recovered[n].(deadline := chain[n].deadline) == chain[n]
    else recovered == chain
  }

  /** Over every run of attempts, task attempts run again, handlers, returns and
      restarts: each context's deadline is within its total deadline and within its
      parent's deadline; and recovery, from the records alone, rebuilds the very
      same deadlines, but for that of a local task it is about to run again. */
  lemma {:induction false} DeadlinesNest(events: seq<Event>)
    requires FreshIds(events) && TasksAreLeaves(events)
    ensures Nested(LiveAll(events).chain) && DistinctIds(LiveAll(events).chain) && Bounded(LiveAll(events).chain)
    ensures Rebuilt(events, RecoverAll(LiveAll(events).notes), LiveAll(events).chain)
  {
    hide Nested, DistinctIds, Bounded, Live, FreshIds;
    if events == [] {
      NothingNests();
    } else {
      var n := |events| - 1;
      EarlierRuns(events, n);
      DeadlinesNest(events[..n]);
      var r, e := LiveAll(events[..n]), events[n];
      NewId(events, r, e);
      LiveNests(r, e);
      if n > 0 && events[n - 1].Rerun? { assert events[..n][n - 1].Rerun?; }
      RecoversStep(events[..n], r, e);
    }
  }

  lemma {:induction false} NewId(events: seq<Event>, r: Run, e: Event)
    requires FreshIds(events) && events != [] && r == LiveAll(events[..|events| - 1]) && e == events[|events| - 1]
    ensures e.Enter? || e.Guard? ==> forall k :: 0 <= k < |r.chain| ==> r.chain[k].id != e.id
  {
  }

  lemma {:induction false} RecoversStep(before: seq<Event>, r: Run, e: Event)
    requires Rebuilt(before, RecoverAll(r.notes), r.chain)
    requires before != [] && before[|before| - 1].Rerun? ==> e.Rerun? || e.Leave?
    ensures Rebuilt(before + [e], RecoverAll(Live(r, e).notes), Live(r, e).chain)
  {
    hide RecoverAll;
    if e.Leave? {
      if r.chain != [] { RecoverSnoc(r.notes, Left); }
    } else if !e.Rerun? {
      RecoversExactly(r, e);
    }
  }

  lemma {:induction false} NothingNests()
    ensures Nested([]) && DistinctIds([]) && Bounded([]) && RecoverAll([]) == []
  {
  }

  lemma {:induction false} RecoversExactly(r: Run, e: Event)
    requires RecoverAll(r.notes) == r.chain && !e.Rerun?
    ensures RecoverAll(Live(r, e).notes) == Live(r, e).chain
  {
    hide Budgets, BudgetMap, ContinuationJson, ReadContinuation, RecoverAll, RebudgetAll, Earlier, DeadlineFrom,
         Enclosing;
    match e
    case Enter(id, policy, number, declaredTotal, at) =>
      RecoverSnoc(r.notes, Entered(id, policy, number, declaredTotal,
                                   AttemptCtx(r.chain, id, policy, number, declaredTotal, at).deadline));
    case Guard(id, total) => RecoverSnoc(r.notes, Handling(id, total));
    case Leave => if r.chain != [] { RecoverSnoc(r.notes, Left); }
    case Resume(now) =>
      var m := BudgetMap(r.chain, Budgets(r.chain, now));
      ContinuationRoundTrip(m);
      RecoverSnoc(r.notes, Continued(ContinuationJson(m)));
  }

  lemma {:induction false} RecoverSnoc(notes: seq<Note>, n: Note)
    ensures RecoverAll(notes + [n]) == Recover(RecoverAll(notes), n)
  {
    hide Recover;
    assert (notes + [n])[..|notes|] == notes;
  }

  // ---- the context objects ---------------------------------------------------------------------------

  class Context {
    const id: string
    const totalTimeout: int
    const attemptTimeout: int
    const attempt: int
    var deadline: Time
    var total: Time

    function Value(): Ctx
      reads this
    {
      Ctx(id, totalTimeout, attemptTimeout, attempt, deadline, total)
    }

    constructor (c: Ctx)
      ensures Value() == c
    {
      id, totalTimeout, attemptTimeout, attempt, deadline, total := c.id, c.totalTimeout, c.attemptTimeout,
          c.attempt, c.deadline, c.total;
    }
  }

  function Values(contexts: seq<Context>): (vs: seq<Ctx>)
    reads contexts
    ensures |vs| == |contexts| && forall i :: 0 <= i < |contexts| ==> vs[i] == contexts[i].Value()
  {
    if contexts == [] then []
    else Values(contexts[..|contexts| - 1]) + [contexts[|contexts| - 1].Value()]
  }

  /** The budgets of `applyRestart`, outermost context first. */
  method ComputeBudgets(contexts: seq<Context>, now: Time) returns (budgets: map<string, Budget>)
    ensures budgets == BudgetMap(Values(contexts), Budgets(Values(contexts), now))
  {
    hide Earlier, DeadlineFrom;
    budgets := map[];
    var enclosing := ZERO_TIME;
    var i := 0;
    ghost var vs := Values(contexts);
    while i < |contexts|
      invariant 0 <= i <= |contexts|
      invariant budgets == BudgetMap(vs[..i], Budgets(vs[..i], now))
      invariant enclosing == if i == 0 then ZERO_TIME else Budgets(vs[..i], now)[i - 1].deadline
    {
      var p := contexts[i];
      var total := Earlier(DeadlineFrom(now, p.totalTimeout), enclosing);
      var deadline := Earlier(DeadlineFrom(now, p.attemptTimeout), total);
      budgets := budgets[p.id := Budget(deadline, total, p.attempt)];
      enclosing := deadline;
      assert vs[..i + 1][..i] == vs[..i] && vs[..i + 1][i] == p.Value();
      assert Budgets(vs[..i + 1], now)[..i] == Budgets(vs[..i], now);
      i := i + 1;
    }
    assert vs[..|vs|] == vs;
  }

  method SetBudgets(contexts: seq<Context>, budgets: map<string, Budget>)
    requires forall i, j :: 0 <= i < j < |contexts| ==> contexts[i] != contexts[j]
    modifies contexts
    ensures Values(contexts) == RebudgetAll(old(Values(contexts)), budgets)
  {
    for i := 0 to |contexts|
      invariant forall k :: 0 <= k < i ==> contexts[k].Value() == Rebudget(old(contexts[k].Value()), budgets)
      invariant forall k :: i <= k < |contexts| ==> contexts[k].Value() == old(contexts[k].Value())
    {
      var p := contexts[i];
      if p.id in budgets {
        p.deadline := budgets[p.id].deadline;
        p.total := budgets[p.id].total;
      }
    }
  }

  /** `applyRestart`: fresh budgets at the end of history, the recorded ones
      before it. */
  method ApplyRestart(contexts: seq<Context>, recorded: Option<Json>, now: Time) returns (payload: Outcome<Json>)
    requires forall i, j :: 0 <= i < j < |contexts| ==> contexts[i] != contexts[j]
    modifies contexts
    ensures var m := if recorded.Some? then ReadContinuation(recorded.value)
                     else Some(BudgetMap(old(Values(contexts)), Budgets(old(Values(contexts)), now)));
            match m
            case None => payload.Err? && Values(contexts) == old(Values(contexts))
            case Some(budgets) =>
                  payload == Ok(ContinuationJson(budgets))
                      && Values(contexts) == RebudgetAll(old(Values(contexts)), budgets)
  {
    hide Budgets, BudgetMap, ReadContinuation, ContinuationJson, Rebudget;
    var budgets;
    if recorded.Some? {
      var read := ReadContinuation(recorded.value);
      if read.None? { return Err("invalid continuation"); }
      budgets := read.value;
    } else {
      budgets := ComputeBudgets(contexts, now);
    }
    SetBudgets(contexts, budgets);
    payload := Ok(ContinuationJson(budgets));
  }
}

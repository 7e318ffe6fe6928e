/** Every run of the writer keeps its history in shape, so the reader accepts it
    wherever it is cut. */
module EngineRuns {
  import opened Text
  import opened Records
  import opened Identity
  import opened Policies
  import opened Paths
  import opened CatchHistory
  import opened EngineLog
  import opened EngineAccepted
  import opened Engine

  // ---- what a running boundary relies on -------------------------------------------------

  /** Nothing is recorded at or below a place. */
  ghost predicate Fresh(log: seq<Entry>, p: Path) {
    forall i :: 0 <= i < |log| ==> !(p <= log[i].path)
  }

  /** The context a boundary stands in is open. */
  predicate ContextOpen(log: seq<Entry>, b: Path)
    requires IsBoundaryPath(b)
  {
    var up, v := b[..|b| - 1], b[|b| - 1];
    if up == [] then v.kind == "scope" && v.site == "$job"
    else if up[|up| - 1].Try? then IsAttemptPath(up) && Opened(log, up)
    else if up[|up| - 1].Handler? then
      var a := up[..|up| - 1];
      IsAttemptPath(a) && Opened(log, a) && Has(log, Catch, a) && Find(log, Catch, a).value.rule == up[|up| - 1].rule
    else false
  }

  lemma {:induction false} OpenedMeans(log: seq<Entry>, b: Path, n: nat)
    requires IsBoundaryPath(b) && IsAttemptPath(b + [Try(n)])
    ensures Opened(log, b + [Try(n)]) <==> ContextOpen(log, b) && (|b| == 1 ==> Has(log, Attempt, b + [Try(n)]))
  {
    hide Find, PathOk;
    var p := b + [Try(n)];
    assert p[..|p| - 2] == b[..|b| - 1] && p[|p| - 2] == b[|b| - 1];
  }

  ghost predicate NoneAt(log: seq<Entry>, p: Path, ks: set<Kind>) { forall k :: k in ks ==> !Has(log, k, p) }

  ghost predicate NoHandlers(log: seq<Entry>, a: Path) { forall r :: Fresh(log, a + [Handler(r)]) }

  /** What a phase of an attempt says about its records. */
  ghost predicate PhaseOk(log: seq<Entry>, a: Path, phase: Phase) {
    match phase
    case Starting => Fresh(log, a)
    case Body => NoneAt(log, a, {Result, Catch, Handled, Decision}) && NoHandlers(log, a)
    case Failed(retryable) =>
      && NoneAt(log, a, {Catch, Handled, Decision}) && NoHandlers(log, a)
      && Has(log, Result, a) && Find(log, Result, a).value.errorKind != NoError
         && Find(log, Result, a).value.retryable == retryable
    case Handling(rule) =>
      && NoneAt(log, a, {Handled, Decision}) && SegmentOk(Handler(rule))
      && Has(log, Catch, a) && Find(log, Catch, a).value.rule == rule && Find(log, Catch, a).value.errorKind == NoError
    case Deciding(failed, disposition, flag) =>
      && NoneAt(log, a, {Decision}) && disposition != NoDisposition
      && Has(log, Catch, a) && Has(log, Result, a)
      && var c := Find(log, Catch, a).value;
         && (c.errorKind != NoError ==> disposition == Propagate)
         && if c.rule == "" then !Has(log, Handled, a) && flag == Find(log, Result, a).value.retryable
            else
              && Has(log, Handled, a)
              && var h := Find(log, Handled, a).value;
                 disposition == h.disposition && failed == (h.errorKind != NoError) && flag == h.retryable
  }

  /** Visits a context has not made are not recorded. */
  ghost predicate CallsFresh(log: seq<Entry>, f: Frame) {
    f.phase.Body? || f.phase.Handling? ==>
      forall v: Segment :: v.Visit? && v.n > multiset(f.calls)[CallSite(v.kind, v.site)] ==>
            Fresh(log, Context(f) + [v])
  }

  ghost predicate LaterFresh(log: seq<Entry>, f: Frame) {
    forall m: nat :: m > f.attempt ==> Fresh(log, f.boundary + [Try(m)])
  }

  /** A declared boundary runs under its declaration; the whole job is declared. */
  predicate DeclaredAs(log: seq<Entry>, f: Frame)
    requires IsBoundaryPath(f.boundary)
  {
    && (f.recorded ==>
          DeclarationAt(log, f.boundary).Some? && PolicyIn(DeclarationAt(log, f.boundary).value) == Some(f.policy))
    && (!f.recorded ==> |f.boundary| > 1 && f.policy == PLAIN && DeclarationAt(log, f.boundary).None?)
  }

  /** A declared attempt has its start recorded, with its total deadline; no other
      has. */
  predicate StartedAs(log: seq<Entry>, f: Frame) {
    if f.recorded && !f.phase.Starting?
    then Has(log, Attempt, AttemptPath(f)) && Find(log, Attempt, AttemptPath(f)).value.totalDeadline == f.total
    else !Has(log, Attempt, AttemptPath(f))
  }

  /** Every attempt but the first follows a decision to retry. */
  predicate RetriedTo(log: seq<Entry>, b: Path, n: nat) {
    n >= 2 ==> Has(log, Decision, b + [Try(n - 1)]) && Find(log, Decision, b + [Try(n - 1)]).value.retry
  }

  ghost predicate FrameOk(log: seq<Entry>, f: Frame) {
    && IsBoundaryPath(f.boundary) && 1 <= f.attempt <= MAX_INT32 && PolicyOk(f.policy)
    && ContextOpen(log, f.boundary) && DeclaredAs(log, f) && StartedAs(log, f) && RetriedTo(log, f.boundary, f.attempt)
    && LaterFresh(log, f) && CallsFresh(log, f) && PhaseOk(log, AttemptPath(f), f.phase)
  }

  /** One frame runs inside another. */
  predicate Inside(f: Frame, g: Frame) {
    && TakesCalls(f) && g.boundary != []
    && var v := g.boundary[|g.boundary| - 1];
       v.Visit? && g.boundary == Context(f) + [v] && v.n <= multiset(f.calls)[CallSite(v.kind, v.site)]
  }

  /** The policy a boundary runs under: the declared one, or an organizational
      scope's. */
  function PolicyAt(log: seq<Entry>, b: Path): Policy
    requires IsBoundaryPath(b)
  {
    var d := DeclarationAt(log, b);
    if d.Some? && PolicyIn(d.value).Some? then PolicyIn(d.value).value else PLAIN
  }

  /** The record whose retry flag counts: the handled result, if a rule was
      selected, and the original failure if not. */
  function Judged(log: seq<Entry>, p: Path): Option<Record> {
    if Has(log, Catch, p) && Find(log, Catch, p).value.rule != "" then Find(log, Handled, p) else Find(log, Result, p)
  }

  /** What a decision to retry rests on. */
  ghost predicate RetryAllowed(log: seq<Entry>, e: Entry)
    requires IsAttemptPath(e.path)
  {
    var p, b, aid := e.path, e.path[..|e.path| - 1], Print(e.path);
    && IsBoundaryPath(b) && p[|p| - 1].number < Limit(PolicyAt(log, b), e.budgets, aid)
    && e.record.disposition != Propagate
    && Judged(log, p).Some? && Judged(log, p).value.retryable != Some(false)
    && (Has(log, Attempt, p) ==>
          var total := TotalOf(Find(log, Attempt, p).value.totalDeadline, e.budgets, aid);
          total == ZERO_TIME || e.clock < total)
  }

  ghost predicate TryNext(log: seq<Entry>, e: Entry) {
    IsControl(e.record.kind) ==>
      && IsAttemptPath(e.path)
      && RetriedTo(log, e.path[..|e.path| - 1], e.path[|e.path| - 1].number)
      && (e.record.kind == Decision && e.record.retry ==> RetryAllowed(log, e))
  }

  ghost predicate Retried(log: seq<Entry>) {
    forall i :: 0 <= i < |log| ==> TryNext(log[..i], log[i])
  }

  ghost predicate Inv(w: Writer) {
    && WellRecorded(w.log) && Retried(w.log)
    && (forall i :: 0 <= i < |w.stack| ==> FrameOk(w.log, w.stack[i]))
    && (forall i :: 0 <= i < |w.stack| - 1 ==> Inside(w.stack[i], w.stack[i + 1]))
    && (w.stack != [] ==> w.stack[0].boundary == [Visit("scope", "$job", 1)])
    && (!w.begun ==> w.stack == [] && forall i :: 0 <= i < |w.log| ==> w.log[i].path == [])
    && (w.log == [] ==> !w.begun)
  }

  // ---- paths ----------------------------------------------------------------------------------

  lemma {:induction false} AttemptPathOk(f: Frame)
    requires IsBoundaryPath(f.boundary) && 1 <= f.attempt <= MAX_INT32
    ensures IsAttemptPath(AttemptPath(f)) && AttemptPath(f)[..|AttemptPath(f)| - 1] == f.boundary
  {
  }

  /** Every frame's place is above the innermost one's. */
  lemma {:induction false} StackIsChain(w: Writer, i: nat, j: nat)
    requires i < j < |w.stack| && forall k :: 0 <= k < |w.stack| - 1 ==> Inside(w.stack[k], w.stack[k + 1])
    ensures w.stack[i + 1].boundary <= w.stack[j].boundary && TakesCalls(w.stack[i])
            && Inside(w.stack[i], w.stack[i + 1])
    decreases j
  {
    if i + 1 < j {
      StackIsChain(w, i, j - 1);
      assert Inside(w.stack[j - 1], w.stack[j - 1 + 1]);
      assert w.stack[j - 1].boundary <= w.stack[j].boundary;
      PrefixTwice(w.stack[i + 1].boundary, w.stack[j - 1].boundary, w.stack[j].boundary);
    } else {
      assert Inside(w.stack[i], w.stack[i + 1]);
    }
  }

  lemma {:induction false} PrefixTwice(a: Path, b: Path, c: Path)
    requires a <= b && b <= c
    ensures a <= c
  {
  }

  // ---- frames survive what is recorded elsewhere -----------------------------------------------------

  lemma {:induction false} FreshSnoc(log: seq<Entry>, e: Entry, p: Path)
    requires Fresh(log, p) && !(p <= e.path)
    ensures Fresh(log + [e], p)
  {
  }

  /** A record that takes no recorded one's place. */
  predicate NewRecord(log: seq<Entry>, e: Entry) { HasPath(e.record.kind) ==> !Has(log, e.record.kind, e.path) }

  lemma {:induction false} OpenedSnoc(log: seq<Entry>, e: Entry, p: Path)
    requires IsAttemptPath(p) && Opened(log, p) && NewRecord(log, e)
    ensures Opened(log + [e], p)
    decreases |p|
  {
    hide Find, PathOk;
    var up := p[..|p| - 2];
    if up == [] {
      FindSnoc(log, e, Attempt, p);
    } else if up[|up| - 1].Try? {
      OpenedSnoc(log, e, up);
    } else {
      OpenedSnoc(log, e, up[..|up| - 1]);
      FindSnoc(log, e, Catch, up[..|up| - 1]);
    }
  }

  lemma {:induction false} ContextStaysOpen(log: seq<Entry>, e: Entry, b: Path)
    requires NewRecord(log, e) && IsBoundaryPath(b) && ContextOpen(log, b)
    ensures ContextOpen(log + [e], b)
  {
    hide Opened, Find, PathOk;
    var up := b[..|b| - 1];
    if up != [] {
      if up[|up| - 1].Try? {
        OpenedSnoc(log, e, up);
      } else {
        OpenedSnoc(log, e, up[..|up| - 1]);
        FindSnoc(log, e, Catch, up[..|up| - 1]);
      }
    }
  }

  /** An entry that is neither at a frame's own places nor at one it relies on
      being free. */
  ghost predicate ClearOf(e: Entry, f: Frame) {
    && e.path != f.boundary && (forall m: nat :: m <= f.attempt ==> e.path != f.boundary + [Try(m)])
    && (forall m: nat :: m > f.attempt ==> !(f.boundary + [Try(m)] <= e.path))
    && (f.phase.Starting? ==> !(AttemptPath(f) <= e.path))
    && (f.phase.Body? || f.phase.Failed? ==> forall r :: !(AttemptPath(f) + [Handler(r)] <= e.path))
    && (f.phase.Body? || f.phase.Handling? ==>
          forall v: Segment :: v.Visit? && v.n > multiset(f.calls)[CallSite(v.kind, v.site)] ==>
                !(Context(f) + [v] <= e.path))
  }

  lemma {:induction false} PhaseStays(log: seq<Entry>, e: Entry, a: Path, phase: Phase)
    requires PhaseOk(log, a, phase) && e.path != a
    requires phase.Starting? ==> !(a <= e.path)
    requires phase.Body? || phase.Failed? ==> forall r :: !(a + [Handler(r)] <= e.path)
    ensures PhaseOk(log + [e], a, phase)
  {
    hide Find, Fresh;
    forall k ensures Find(log + [e], k, a) == Find(log, k, a) { FindSnoc(log, e, k, a); }
    if phase.Starting? { FreshSnoc(log, e, a); }
    if phase.Body? || phase.Failed? {
      forall r ensures Fresh(log + [e], a + [Handler(r)]) { FreshSnoc(log, e, a + [Handler(r)]); }
    }
  }

  lemma {:induction false} FrameStays(log: seq<Entry>, e: Entry, f: Frame)
    requires NewRecord(log, e) && FrameOk(log, f) && ClearOf(e, f)
    ensures FrameOk(log + [e], f)
  {
    hide Opened, Find, PathOk, PolicyOk, PolicyIn, ContextOpen, PhaseOk, Fresh, Context, DeclaredAs, StartedAs,
         RetriedTo, LaterFresh, CallsFresh;
    ContextStaysOpen(log, e, f.boundary);
    PhaseStays(log, e, AttemptPath(f), f.phase);
    RecordsStay(log, e, f);
    FreshStays(log, e, f);
  }

  lemma {:induction false} OwnPlacesAreClear(e: Entry, f: Frame)
    requires ClearOf(e, f)
    ensures e.path != f.boundary && e.path != AttemptPath(f)
            && (f.attempt >= 1 ==> e.path != f.boundary + [Try(f.attempt - 1)])
  {
  }

  lemma {:induction false} RecordsStay(log: seq<Entry>, e: Entry, f: Frame)
    requires IsBoundaryPath(f.boundary) && DeclaredAs(log, f) && StartedAs(log, f)
             && RetriedTo(log, f.boundary, f.attempt) && ClearOf(e, f)
    ensures DeclaredAs(log + [e], f) && StartedAs(log + [e], f) && RetriedTo(log + [e], f.boundary, f.attempt)
  {
    hide Find, PathOk, PolicyIn, Context, ClearOf;
    OwnPlacesAreClear(e, f);
    FindSnoc(log, e, Scope, f.boundary);
    FindSnoc(log, e, Task, f.boundary);
    FindSnoc(log, e, Attempt, AttemptPath(f));
    if f.attempt >= 2 { FindSnoc(log, e, Decision, f.boundary + [Try(f.attempt - 1)]); }
  }

  lemma {:induction false} FreshStays(log: seq<Entry>, e: Entry, f: Frame)
    requires LaterFresh(log, f) && CallsFresh(log, f) && ClearOf(e, f)
    ensures LaterFresh(log + [e], f) && CallsFresh(log + [e], f)
  {
    hide Fresh, Context, AttemptPath;
    forall m: nat | m > f.attempt ensures Fresh(log + [e], f.boundary + [Try(m)]) {
      FreshSnoc(log, e, f.boundary + [Try(m)]);
    }
    if f.phase.Body? || f.phase.Handling? {
      forall v: Segment | v.Visit?
          && v.n > multiset(f.calls)[CallSite(v.kind, v.site)] ensures Fresh(log + [e], Context(f) + [v]) {
        FreshSnoc(log, e, Context(f) + [v]);
      }
    }
  }

  /** Below a frame's newest visit, everything is clear of the frame. */
  lemma {:induction false} BelowIsClear(e: Entry, f: Frame, g: Frame)
    requires Inside(f, g) && g.boundary <= e.path
    ensures ClearOf(e, f)
  {
    var c, v := Context(f), g.boundary[|g.boundary| - 1];
    assert e.path[|c|] == g.boundary[|c|] == v;
    assert e.path[|f.boundary|] == g.boundary[|f.boundary|] == Try(f.attempt);
    if f.phase.Body? { assert |c| == |f.boundary| + 1; }
  }

  lemma {:induction false} NothingIsClear(e: Entry, f: Frame)
    requires e.path == [] && f.boundary != []
    ensures ClearOf(e, f)
  {
  }
}

/** The writer: scopes and tasks, their attempts, catch handling and retry
    decisions, as `DoScope`, `DoTask` and `handleFailure` record them. */
module Engine {
  import opened Text
  import opened JsonText
  import opened Records
  import opened Identity
  import opened Policies
  import opened Paths
  import opened EngineLog
  import D = Deadlines

  // ---- policies -----------------------------------------------------------------------

  /** What `makeExecutionPolicy` lets through, with rule names that have no slash. */
  predicate PolicyOk(p: Policy) {
    && PlainRules(p.rules) && 1 <= p.maximumAttempts <= MAX_INT32 && "MaximumAttempts" !in p.others
    && p.totalTimeout >= 0 && p.attemptTimeout >= 0
  }

  /** `withRecordedLifecycle`: limits come from the declaration that opened the
      occurrence, whatever the code says now. */
  function WithRecordedLifecycle(p: Policy, recorded: Policy): Policy {
    p.(totalTimeout := recorded.totalTimeout, attemptTimeout := recorded.attemptTimeout,
       maximumAttempts := recorded.maximumAttempts, others := recorded.others)
  }

  /** An organizational scope: nothing to declare, no rules, no retries. */
  const PLAIN := Policy(0, 0, 1, map[], [], false)

  // ---- continuation budgets -----------------------------------------------------------------

  /** The boundary an attempt, or a handler inside one, belongs to. */
  function BoundaryOf(id: string): Option<string> {
    var i := LastIndex(id, "/attempt:");
    if i < 0 then None else Some(id[..i])
  }

  predicate Covers(key: string, id: string) { BoundaryOf(key).Some? && BoundaryOf(key) == BoundaryOf(id) }

  /** `continuationBudget`: a budget of any context of the same boundary. */
  ghost function BudgetFor(budgets: Budgets, id: string): Option<D.Budget> {
    if exists key :: key in budgets && Covers(key, id)
    then var key :| key in budgets && Covers(key, id); Some(budgets[key])
    else None
  }

  /** The attempt limit `handleFailure` works with. */
  ghost function Limit(p: Policy, budgets: Budgets, aid: string): int {
    match BudgetFor(budgets, aid)
    case None => p.maximumAttempts
    case Some(b) => Wrap32(p.maximumAttempts + Wrap32(b.attempt - 1))
  }

  ghost function TotalOf(total: Time, budgets: Budgets, aid: string): Time {
    match BudgetFor(budgets, aid)
    case None => total
    case Some(b) => b.total
  }

  // ---- the run ----------------------------------------------------------------------------

  datatype Phase =
    | Starting
    | Body
    | Failed(retryable: Option<bool>)
    | Handling(rule: string)
    | Deciding(failed: bool, disposition: Disposition, flag: Option<bool>)

  /** A boundary being run. `calls` are the visits made so far in its current
      context, `budgets` what its attempt ended under. */
  datatype Frame = Frame(boundary: Path, policy: Policy, recorded: bool, total: Time, attempt: nat, phase: Phase,
                         calls: seq<CallSite>, budgets: Budgets)

  function AttemptPath(f: Frame): Path { f.boundary + [Try(f.attempt)] }

  function Context(f: Frame): Path {
    if f.phase.Handling? then AttemptPath(f) + [Handler(f.phase.rule)] else AttemptPath(f)
  }

  predicate TakesCalls(f: Frame) {
    f.phase.Handling? || (f.phase.Body? && f.boundary != [] && f.boundary[|f.boundary| - 1].Visit?
                          && f.boundary[|f.boundary| - 1].kind == "scope")
  }

  /** The run so far: what is recorded, the boundaries being run, innermost last,
      and the budgets of the newest continuation. */
  datatype Writer = Writer(log: seq<Entry>, begun: bool, stack: seq<Frame>, budgets: Budgets)

  datatype Move =
    | Other(rec: Record)
    | Continues(kind: string, site: string, now: Time, kept: bool)
    | Open(kind: string, site: string, call: map<string, Json>, current: Policy, recorded: Policy, declared: bool,
           rec: Record, total: Time, clock: Time)
    | Start(rec: Record, clock: Time)
    | Return
    | Finish(rec: Record, clock: Time)
    | Select(rec: Record, clock: Time)
    | Handle(rec: Record, clock: Time)
    | Decide(allowed: bool, backoff: nat, clock: Time)
    | Unwind(depth: nat)

  function Top(w: Writer): Frame
    requires w.stack != []
  {
    w.stack[|w.stack| - 1]
  }

  function Pop(w: Writer): Writer
    requires w.stack != []
  {
    w.(stack := w.stack[..|w.stack| - 1])
  }

  function Becomes(w: Writer, f: Frame): Writer
    requires w.stack != []
  {
    w.(stack := w.stack[..|w.stack| - 1] + [f])
  }

  function MakeEntry(rec: Record, k: Kind, p: Path, clock: Time): Entry {
    Entry(rec.(kind := k, id := Print(p), version := PATTERN_VERSION), p, clock, map[])
  }

  function Note(w: Writer, rec: Record, k: Kind, p: Path, clock: Time): Writer {
    w.(log := w.log + [MakeEntry(rec, k, p, clock)])
  }

  // ---- moves --------------------------------------------------------------------------------

  /** Where the next boundary opens, and what it is called. */
  function VisitPath(w: Writer, kind: string, site: string): Path {
    if w.stack == [] then [Visit(kind, site, 1)]
    else
      var f := Top(w);
      Context(f) + [Visit(kind, site, multiset(f.calls)[CallSite(kind, site)] + 1)]
  }

  /** A whole-job scope opens once; every other boundary opens inside a running
      scope or handler. */
  predicate MayOpen(w: Writer, kind: string, site: string) {
    if w.stack == [] then !w.begun && w.log != [] && kind == "scope" && site == "$job"
    else TakesCalls(Top(w)) && IsBoundaryKind(kind) && site != ""
  }

  predicate OpensWell(w: Writer, kind: string, site: string, current: Policy, recorded: Policy, declared: bool) {
    && MayOpen(w, kind, site) && PolicyOk(current) && PolicyOk(recorded)
    && (declared ==> WithRecordedLifecycle(current, recorded) == recorded)
    && (!declared ==> kind == "scope" && w.stack != [] && current.rules == [])
  }

  function OpenMove(w: Writer, kind: string, site: string, call: map<string, Json>, current: Policy,
                    recorded: Policy, declared: bool,
                    rec: Record, total: Time, clock: Time): Writer {
    if !OpensWell(w, kind, site, current, recorded, declared) then w
    else
      var p := VisitPath(w, kind, site);
      var policy := if declared then WithRecordedLifecycle(current, recorded) else PLAIN;
      var d := if kind == "task" then TaskDescriptor(site, call, recorded) else ScopeDescriptor(recorded);
      var w1 := if declared then Note(w, rec.(descriptor := d), if kind == "task" then Task else Scope, p, clock)
                else w;
      var w2 := if w.stack == [] then w1 else Becomes(w1, Top(w).(calls := Top(w).calls + [CallSite(kind, site)]));
      w2.(begun := true, stack := w2.stack + [Frame(p, policy, declared, total, 1, Starting, [], map[])])
  }

  function StartMove(w: Writer, rec: Record, clock: Time): Writer {
    if w.stack == [] || !Top(w).phase.Starting? then w
    else
      var f := Top(w);
      var w1 := if f.recorded
                then Note(w, rec.(attempt := f.attempt, totalDeadline := f.total), Attempt, AttemptPath(f),
                          clock) else w;
      Becomes(w1, f.(phase := Body, calls := []))
  }

  /** A recorded outcome. Success ends the boundary; so does a failure with
      nothing to catch or retry. The budgets of this moment count, whatever a
      handler continues later. */
  ghost function FinishMove(w: Writer, rec: Record, clock: Time): Writer {
    if w.stack == [] || !Top(w).phase.Body? then w
    else
      var f := Top(w);
      var w1 := Note(w, rec, Result, AttemptPath(f), clock);
      if rec.errorKind == NoError
         || (f.policy.rules == [] && Limit(f.policy, w.budgets, Print(AttemptPath(f))) <= 1) then Pop(w1)
      else Becomes(w1, f.(phase := Failed(rec.retryable), budgets := w.budgets))
  }

  predicate SelectionOk(f: Frame, rec: Record) {
    (rec.rule == "" || rec.rule in f.policy.rules) && (rec.errorKind != NoError ==> rec.rule == "")
  }

  function SelectMove(w: Writer, rec: Record, clock: Time): Writer {
    if w.stack == [] || !Top(w).phase.Failed? || !SelectionOk(Top(w), rec) then w
    else
      var f := Top(w);
      var next := if rec.errorKind != NoError then Deciding(true, Propagate, f.phase.retryable)
                  else if rec.rule != "" then Handling(rec.rule)
                  else Deciding(true, Continue, f.phase.retryable);
      Becomes(Note(w, rec, Catch, AttemptPath(f), clock), f.(phase := next, calls := []))
  }

  /** Only a handled disposition may go without a failure. */
  predicate HandledRecordOk(rec: Record) {
    rec.disposition != NoDisposition && (rec.disposition != HandledOk ==> rec.errorKind != NoError)
  }

  function HandleMove(w: Writer, rec: Record, clock: Time): Writer {
    if w.stack == [] || !Top(w).phase.Handling? || !HandledRecordOk(rec) then w
    else
      var f := Top(w);
      Becomes(Note(w, rec, Handled, AttemptPath(f), clock),
              f.(phase := Deciding(rec.errorKind != NoError, rec.disposition, rec.retryable)))
  }

  ghost predicate Retries(f: Frame, allowed: bool, clock: Time)
    requires f.phase.Deciding?
  {
    var aid := Print(AttemptPath(f));
    && f.phase.failed && f.phase.disposition != Propagate && f.attempt < Limit(f.policy, f.budgets, aid)
    && (if f.phase.flag.Some? then f.phase.flag.value else allowed)
    && (TotalOf(f.total, f.budgets, aid) == ZERO_TIME || clock < TotalOf(f.total, f.budgets, aid))
  }

  /** The next attempt. A scope goes on with the total deadline of its budget; a
      task goes back to its own. */
  ghost function NextAttempt(f: Frame): Frame {
    var total := if f.boundary != [] && f.boundary[|f.boundary| - 1].Visit?
        && f.boundary[|f.boundary| - 1].kind == "scope"
                 then TotalOf(f.total, f.budgets, Print(AttemptPath(f))) else f.total;
    f.(attempt := f.attempt + 1, phase := Starting, calls := [], total := total)
  }

  ghost function DecideMove(w: Writer, allowed: bool, backoff: nat, clock: Time): Writer {
    if w.stack == [] || !Top(w).phase.Deciding? || clock <= 0 then w
    else
      var f := Top(w);
      var retry := Retries(f, allowed, clock);
      var rec := Blank(Decision, "").(retry := retry, disposition := f.phase.disposition,
                                      wakeAt := if retry then clock + backoff else ZERO_TIME);
      var w1 := w.(log := w.log + [MakeEntry(rec, Decision, AttemptPath(f), clock).(budgets := f.budgets)]);
      if retry then Becomes(w1, NextAttempt(f)) else Pop(w1)
  }

  // ---- continuations ----------------------------------------------------------------------------

  /** The limits of a running context, as a continuation sees them. A handler has
      none of its own. */
  function FrameCtx(f: Frame): D.Ctx {
    if f.phase.Handling? then D.Ctx(Print(Context(f)), 0, 0, 0, ZERO_TIME, f.total)
    else D.Ctx(Print(Context(f)), f.policy.totalTimeout, f.policy.attemptTimeout, f.attempt, ZERO_TIME, f.total)
  }

  /** The contexts around the next call, outermost first. */
  function Chain(stack: seq<Frame>): (c: seq<D.Ctx>)
    ensures |c| == |stack| && forall i :: 0 <= i < |stack| ==> c[i] == FrameCtx(stack[i])
  {
    seq(|stack|, i requires 0 <= i < |stack| => FrameCtx(stack[i]))
  }

  function FreshBudgets(w: Writer, now: Time): Budgets { D.BudgetMap(Chain(w.stack), D.Budgets(Chain(w.stack), now)) }

  function ContinuationEntry(w: Writer, kind: string, site: string, now: Time): Entry {
    var payload := D.ContinuationJson(FreshBudgets(w, now));
    Entry(Blank(Continuation, Print(VisitPath(w, kind, site))).(payload := Some(payload), at := now), [], now, map[])
  }

  /** `applyRestart` where a boundary is about to open: fresh budgets for the
      contexts around it replace all there were, even when the time for recording
      them has run out. */
  function ContinueMove(w: Writer, kind: string, site: string, now: Time, kept: bool): Writer {
    if !MayOpen(w, kind, site) then w
    else w.(budgets := FreshBudgets(w, now), log := if kept then w.log + [ContinuationEntry(w, kind, site, now)]
                                                    else w.log)
  }

  /** One move; a move that is not enabled does nothing. */
  ghost function Do(w: Writer, m: Move): Writer {
    match m
    case Other(rec) =>
      if w.log == [] then w.(log := [Entry(Blank(Header, "").(versions := rec.versions), [], 0, map[])])
      else if HasPath(rec.kind) || rec.kind in {Header, Continuation} then w
      else w.(log := w.log + [Entry(rec.(version := PATTERN_VERSION), [], 0, map[])])
    case Continues(kind, site, now, kept) => ContinueMove(w, kind, site, now, kept)
    case Open(kind, site, call, current, recorded, declared, rec, total, clock) =>
      OpenMove(w, kind, site, call, current, recorded, declared, rec, total, clock)
    case Start(rec, clock) => StartMove(w, rec, clock)
    case Return =>
      if w.stack != [] && Top(w).phase.Body? && |w.stack| > 1 then Pop(w) else w
    case Finish(rec, clock) => FinishMove(w, rec, clock)
    case Select(rec, clock) => SelectMove(w, rec, clock)
    case Handle(rec, clock) => HandleMove(w, rec, clock)
    case Decide(allowed, backoff, clock) => DecideMove(w, allowed, backoff, clock)
    case Unwind(depth) => if depth < |w.stack| then w.(stack := w.stack[..depth]) else w
  }

  const NEW_RUN := Writer([], false, [], map[])

  ghost function DoAll(moves: seq<Move>): Writer {
    if moves == [] then NEW_RUN else Do(DoAll(moves[..|moves| - 1]), moves[|moves| - 1])
  }
}

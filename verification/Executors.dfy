/** Any number of executors of one job over one append-only log: they start,
    crash, race, lose acknowledgements and recover in any interleaving. */
module Executors {
  import opened Text
  import opened Records
  import opened History

  // ---- orchestrations ----------------------------------------------------------------

  datatype Key = Key(kind: Kind, id: string)

  function KeyOf(r: Record): Key { Key(r.kind, r.id) }

  /** What an orchestration does after the records it has been given: ask for one
      of some events, or return. There is more than one when the engine peeks at
      history to decide (a task result or a wait, a dispatch or a result). A
      fallible request may fail without a record, and the code may go on. */
  datatype Request = Ask(options: set<Key>, fallible: bool := false) | Done

  type Orchestration = seq<Record> -> Request

  /** A timeout record cuts everything below its attempt short. */
  predicate Cuts(r: Request, id: string) {
    r.Ask? && forall k :: k in r.options ==> Below(k.id, id)
  }

  /** The events of one request stand inside the same attempts, but for an attempt
      whose own result is one of them. */
  ghost predicate StandTogether(o: Orchestration) {
    forall g, k, id :: o(g).Ask? && k in o(g).options && Below(k.id, id) && Key(Result, id) !in o(g).options ==>
          Cuts(o(g), id)
  }

  /** Deterministic up to the clock readings and activation names that executors
      of one path may disagree on; it never asks for engine-only records. */
  ghost predicate Deterministic(o: Orchestration) {
    && (forall g, h :: ClearAll(g) == ClearAll(h) ==> o(g) == o(h))
    && (forall g, k :: o(g).Ask? && k in o(g).options ==> !EngineOnly(k.kind))
    && StandTogether(o)
  }

  /** A handler that runs out of time cuts everything inside it short. */
  predicate CutsHandler(r: Request, id: string) {
    r.Ask? && forall k :: k in r.options ==> StartsWith(k.id, id + "/catch:")
  }

  predicate TimedOut(r: Record) { r.kind == Result && r.errorKind == Timeout }

  predicate HandlerTimedOut(r: Record) { r.kind == Handled && r.errorKind == Timeout && r.disposition == Propagate }

  /** A record that may follow history `g`: one asked for, the end of an attempt or
      of a handler that ran out of time around what was asked for, or anything the
      code records after what it asked for failed without a record. */
  predicate Justified(o: Orchestration, g: seq<Record>, r: Record) {
    && o(g).Ask?
    && (|| KeyOf(r) in o(g).options
        || (TimedOut(r) && Cuts(o(g), r.id))
        || (HandlerTimedOut(r) && CutsHandler(o(g), r.id))
        || (o(g).fallible && !EngineOnly(r.kind)))
  }

  ghost predicate Legal(o: Orchestration, g: seq<Record>) {
    forall i :: 0 <= i < |g| ==> Justified(o, g[..i], g[i])
  }

  // ---- executors and the system ---------------------------------------------------------

  /** A running executor: its engine state, the records handed to its
      orchestration, the record it takes to be in each slot it has passed, how
      many slots it loaded, and whether it adopted a prefix other than its own. */
  datatype Executor = Executor(run: Run, got: seq<Record>, held: seq<Option<Record>>, loaded: nat, adopted: bool)

  datatype System = System(origin: seq<Chapter>, store: seq<Chapter>, executors: map<nat, Executor>)

  datatype Action =
    | Start(x: nat, activation: string, versions: Versions, now: Time, net: Net)
    | Call(x: nat, choice: Key, build: Record, deferred: bool, env: Env)
    | Expire(x: nat, attempt: string, build: Record, deferred: bool, env: Env)
    | ExpireHandler(x: nat, attempt: string, build: Record, env: Env)
    | GoOn(x: nat, key: Key, build: Record, deferred: bool, env: Env)
    | CheckpointPath(x: nat, id: string, env: Env)
    | RunTask(x: nat, env: Env)
    | BindDependency(x: nat, id: string, build: Record, env: Env)
    | Complete(x: nat, delivery: Delivery)
    | FailJob(x: nat, oversized: bool, delivery: Delivery)
    | Suspend(x: nat)
    | Crash(x: nat)
    | AnswerWait(id: string, answer: Record)

  function VisibleLog(cs: seq<Chapter>): seq<Record> { Visible(ExpandAll(cs)) }

  function SlotRecord(c: Chapter): Option<Record> {
    if c.Execution? then Some(c.record) else None
  }

  function Slots(cs: seq<Chapter>): (r: seq<Option<Record>>)
    ensures |r| == |cs| && forall i :: 0 <= i < |cs| ==> r[i] == SlotRecord(cs[i])
  {
    seq(|cs|, i requires 0 <= i < |cs| => SlotRecord(cs[i]))
  }

  function PeekAt(run: Run): Option<Record>
    requires run.cursor <= |run.events|
  {
    var i := Skip(run.events, run.cursor);
    if i < |run.events| then Some(run.events[i]) else None
  }

  /** The engine peeks: a recorded option is the one requested. */
  function Choose(run: Run, options: set<Key>, choice: Key): Key
    requires run.cursor <= |run.events|
  {
    var next := PeekAt(run);
    if next.Some? && KeyOf(next.value) in options then KeyOf(next.value) else choice
  }

  predicate AtFrontier(run: Run)
    requires run.cursor <= |run.events|
  {
    PeekAt(run).None? && run.fatal.None? && !run.suspended
  }

  /** An attempt may time out once timers run, or where history says it did. At
      the target of a restart, while history goes on, the orchestration is inside
      `applyRestart` and unwinds nothing. */
  predicate MayExpire(run: Run, options: set<Key>, attempt: string)
    requires run.cursor <= |run.events|
  {
    var next := PeekAt(run);
    || run.live
    || (next.Some? && next.value.kind == Result && next.value.errorKind == Timeout && next.value.id == attempt
        && forall id :: id in run.restarts ==> Key(Continuation, id) !in options)
  }

  /** A run that ends the whole job: history contradicted the orchestration, or a
      payload was too large to append or to complete with. */
  predicate MayFail(run: Run, oversized: bool) {
    if oversized then run.fatal in {None, Some(AppendFailed)} else run.fatal == Some(NonDeterministic)
  }

  predicate Fits(build: Record, kind: Kind, id: string) {
    Acceptable(build.(kind := kind, id := id, version := PATTERN_VERSION))
  }

  /** A deferred record is one that storage will accept. Any other record may turn
      out not to be, and then its request fails without it. */
  predicate MayBuild(run: Run, build: Record, kind: Kind, id: string, deferred: bool) {
    Fits(build, kind, id) || !Deferred(run, build.(kind := kind, id := id), deferred)
  }

  predicate AwaitsAnswer(o: Orchestration, store: seq<Chapter>, id: string) {
    var log := VisibleLog(store);
    && (exists i :: 0 <= i < |log| && log[i].kind == Wait && log[i].id == id)
    && o(log).Ask? && Key(Result, id) in o(log).options
  }

  /** One executor after one step; `handed` when the answer goes to the
      orchestration rather than to the engine itself. */
  function After(e: Executor, s: Step, handed: bool): Executor {
    Executor(s.run,
             if handed && s.response.Got? then e.got + [s.response.record] else e.got,
             e.held + seq(|s.passed|, i requires 0 <= i < |s.passed| => Some(s.passed[i])),
             e.loaded,
             e.adopted || s.adopted)
  }

  function Apply(s: System, x: nat, e: Executor, step: Step, handed: bool): System {
    s.(store := step.store, executors := s.executors[x := After(e, step, handed)])
  }

  /** One action of the system; an action that is not enabled does nothing. */
  function Act(o: Orchestration, s: System, a: Action): System
    requires forall x :: x in s.executors ==> s.executors[x].run.cursor <= |s.executors[x].run.events|
  {
    match a
    case Start(x, activation, versions, now, net) =>
      if x in s.executors then s
      else
        var b := Begin(s.store, activation, versions, false, now, net);
        if b.response.Refused? then s.(store := b.store)
        else
          var held := Slots(s.store) + seq(|b.passed|, i requires 0 <= i < |b.passed| => Some(b.passed[i]));
          s.(store := b.store, executors := s.executors[x := Executor(b.run, [], held, |s.store|, b.adopted)])
    case Call(x, choice, build, deferred, env) =>
      if x !in s.executors || o(s.executors[x].got).Done? then s
      else
        var e := s.executors[x];
        var k := Choose(e.run, o(e.got).options, choice);
        if k !in o(e.got).options || (PeekAt(e.run).None? && !MayBuild(e.run, build, k.kind, k.id, deferred)) then s
        else Apply(s, x, e, RecordEvent(ReachRestart(e.run, k.kind, k.id), s.store, k.kind, k.id, build, deferred,
                                        env), true)
    case Expire(x, attempt, build, deferred, env) =>
      if x in s.executors && build.errorKind == Timeout && Cuts(o(s.executors[x].got), attempt)
         && MayExpire(s.executors[x].run, o(s.executors[x].got).options, attempt)
         && (PeekAt(s.executors[x].run).None? ==> Fits(build, Result, attempt))
      then
        var e := s.executors[x];
        Apply(s, x, e, RecordEvent(e.run, s.store, Result, attempt, build, deferred, env), true)
      else s
    case ExpireHandler(x, attempt, build, env) =>
      if x in s.executors && build.errorKind == Timeout && build.disposition == Propagate && s.executors[x].run.live
         && CutsHandler(o(s.executors[x].got), attempt) && Fits(build, Handled, attempt)
      then
        var e := s.executors[x];
        Apply(s, x, e, RecordEvent(e.run, s.store, Handled, attempt, build, false, env), true)
      else s
    case GoOn(x, k, build, deferred, env) =>
      if x in s.executors && o(s.executors[x].got).Ask? && o(s.executors[x].got).fallible && !EngineOnly(k.kind)
         && AtFrontier(s.executors[x].run) && !RestartPending(s.executors[x].run)
         && MayBuild(s.executors[x].run, build, k.kind, k.id, deferred)
      then
        var e := s.executors[x];
        Apply(s, x, e, RecordEvent(e.run, s.store, k.kind, k.id, build, deferred, env), true)
      else s
    case CheckpointPath(x, id, env) =>
      if x in s.executors && s.executors[x].run.pending != []
      then
        var e := s.executors[x];
        Apply(s, x, e, RecordEvent(e.run, s.store, Checkpoint, id, Blank(Checkpoint, id), false, env), false)
      else s
    case RunTask(x, env) =>
      if x in s.executors && s.executors[x].run.live && !s.executors[x].run.activated && AtFrontier(s.executors[x].run)
      then
        var e := s.executors[x];
        Apply(s, x, e, Activate(e.run, s.store, env.now, env.activationNet), false)
      else s
    case BindDependency(x, id, build, env) =>
      if x in s.executors && s.executors[x].run.live && s.executors[x].run.pending == []
         && AtFrontier(s.executors[x].run)
      then
        var e := s.executors[x];
        Apply(s, x, e, ActivateThenAppend(e.run, s.store, build.(kind := DependencyBinding, id := id), env), false)
      else s
    case Complete(x, delivery) =>
      if x in s.executors && o(s.executors[x].got).Done? && AtFrontier(s.executors[x].run)
         && !s.executors[x].run.finished
      then s.(store := Put(s.store, s.executors[x].run.ordinal, JobOutcome(s.executors[x].run.pending, false),
                           delivery), executors := s.executors - {x})
      else s
    case FailJob(x, oversized, delivery) =>
      if x in s.executors && MayFail(s.executors[x].run, oversized)
      then s.(store := Put(s.store, s.executors[x].run.ordinal, JobOutcome([], oversized), delivery),
              executors := s.executors - {x})
      else s
    case Suspend(x) =>
      if x in s.executors
      then s.(executors := s.executors[x := s.executors[x].(run := s.executors[x].run.(suspended := true))])
      else s
    case Crash(x) => s.(executors := s.executors - {x})
    case AnswerWait(id, answer) =>
      var r := answer.(kind := Result, id := id, version := PATTERN_VERSION);
      if AwaitsAnswer(o, s.store, id) && Acceptable(r) then s.(store := s.store + [Execution(r, [])]) else s
  }
}

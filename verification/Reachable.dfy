/** Every action of the system keeps the invariants; hence every run does. */
module Reachable {
  import opened Text
  import opened Records
  import opened History
  import opened Executors
  import opened Durability

  /** What a step of one executor must leave behind. */
  ghost predicate Kept(o: Orchestration, origin: seq<Chapter>, store: seq<Chapter>, e: Executor, s: Step,
                       handed: bool) {
    Extends(store, s.store) && StoreOk(o, origin, s.store) && ExecutorOk(o, origin, s.store, After(e, s, handed))
  }

  lemma {:induction false} AfterQuiet(e: Executor, run: Run, store: seq<Chapter>, why: Refusal, built: bool,
                                      handed: bool)
    ensures After(e, Quiet(run, store, Refused(why), built), handed) == e.(run := run)
  {
    var none: seq<Record> := [];
    assert e.held + seq(|none|, i requires 0 <= i < |none| => Some(none[i])) == e.held;
  }

  lemma {:induction false} AfterGot(e: Executor, run: Run, store: seq<Chapter>, r: Record, built: bool)
    ensures After(e, Quiet(run, store, Got(r), built), true) == e.(run := run, got := e.got + [r])
  {
    var none: seq<Record> := [];
    assert e.held + seq(|none|, i requires 0 <= i < |none| => Some(none[i])) == e.held;
  }

  lemma {:induction false} AfterTwo(e: Executor, a: Step, b: Step, handed: bool)
    ensures After(e, b.(passed := a.passed + b.passed, adopted := a.adopted || b.adopted), handed)
         == After(After(e, a, false), b, handed)
  {
    var p, q := a.passed, b.passed;
    assert seq(|p + q|, i requires 0 <= i < |p + q| => Some((p + q)[i]))
        == seq(|p|, i requires 0 <= i < |p| => Some(p[i])) + seq(|q|, i requires 0 <= i < |q| => Some(q[i]));
  }

  // ---- appends behind an activation ----------------------------------------------------------

  lemma {:induction false} ActivateKeeps(o: Orchestration, origin: seq<Chapter>, store: seq<Chapter>, e: Executor,
                                         now: Time, net: Net)
    requires Deterministic(o) && StoreOk(o, origin, store) && ExecutorOk(o, origin, store, e) && PeekAt(e.run).None?
    ensures var a := Activate(e.run, store, now, net);
            && Kept(o, origin, store, e, a, false) && SamePlace(e.run, a.run)
            && (a.response.Got? || e.run.activated ==> a.run.fatal == e.run.fatal)
  {
    hide ExecutorOk, StoreOk, Append;
    if e.run.activated {
      AfterQuiet(e, e.run, store, CacheMiss, false, false);
    } else {
      var rec := Blank(Activation, "").(versions := Some(e.run.versions));
      AppendKeeps(o, origin, store, e, rec, now, net);
      var b := Append(e.run, store, rec, now, net);
      if b.response.Got? {
        ActivatedKeeps(o, origin, b.store, After(e, b, false));
      }
    }
  }

  lemma {:induction false} ActivateThenAppendKeeps(o: Orchestration, origin: seq<Chapter>, store: seq<Chapter>,
                                                   e: Executor, rec: Record, env: Env)
    requires Deterministic(o) && StoreOk(o, origin, store) && ExecutorOk(o, origin, store, e) && PeekAt(e.run).None?
    requires MayAppend(o, e, rec)
    ensures Kept(o, origin, store, e, ActivateThenAppend(e.run, store, rec, env), !EngineOnly(rec.kind))
  {
    hide ExecutorOk, StoreOk, Append, Activate, Skip, Justified;
    var a := Activate(e.run, store, env.now, env.activationNet);
    ActivateKeeps(o, origin, store, e, env.now, env.activationNet);
    if !e.run.activated && a.response.Refused? {
      assert After(e, a, !EngineOnly(rec.kind)) == After(e, a, false);
    } else {
      var e1 := After(e, a, false);
      var b := Append(a.run, a.store, rec, env.now, env.net);
      AppendKeeps(o, origin, a.store, e1, rec, env.now, env.net);
      AfterTwo(e, a, b, !EngineOnly(rec.kind));
      ExtendsTwice(store, a.store, b.store);
    }
  }

  lemma {:induction false} ExtendsTwice(a: seq<Chapter>, b: seq<Chapter>, c: seq<Chapter>)
    requires Extends(a, b) && Extends(b, c)
    ensures Extends(a, c)
  {
    assert c[..|a|] == c[..|b|][..|a|];
  }

  // ---- recordEvent ---------------------------------------------------------------------------------

  /** An event the orchestration may ask for, however its builder fills it in. */
  ghost predicate Asked(o: Orchestration, e: Executor, kind: Kind, id: string, build: Record, deferred: bool) {
    if EngineOnly(kind) then kind == Checkpoint && !deferred
    else Justified(o, e.got, build.(kind := kind, id := id)) && MayBuild(e.run, build, kind, id, deferred)
  }

  lemma {:induction false} JustifiedStamp(o: Orchestration, e: Executor, build: Record, kind: Kind, id: string,
                                          deferred: bool, at: Time)
    requires Justified(o, e.got, build.(kind := kind, id := id)) && MayBuild(e.run, build, kind, id, deferred)
    ensures var rec := build.(kind := kind, id := id, version := PATTERN_VERSION, at := at);
            Justified(o, e.got, rec) && (Acceptable(rec) || !Deferred(e.run, rec, deferred))
  {
  }

  lemma {:induction false} EnterKeeps(o: Orchestration, origin: seq<Chapter>, store: seq<Chapter>, e: Executor,
                                      rec: Record, deferred: bool, env: Env)
    requires Deterministic(o) && StoreOk(o, origin, store) && ExecutorOk(o, origin, store, e) && PeekAt(e.run).None?
    requires !RestartPending(e.run)
    requires if EngineOnly(rec.kind) then rec.kind == Checkpoint && !deferred
             else Justified(o, e.got, rec) && (Acceptable(rec) || !Deferred(e.run, rec, deferred))
    ensures Kept(o, origin, store, e, Enter(e.run, store, rec, deferred, env), !EngineOnly(rec.kind))
  {
    hide ExecutorOk, StoreOk, ActivateThenAppend, Skip, Justified;
    if Deferred(e.run, rec, deferred) {
      var anchor := if rec.kind == Continuation then rec.at else e.run.anchor;
      DeferKeeps(o, origin, store, e, rec, anchor);
      AfterGot(e, e.run.(pending := e.run.pending + [rec], anchor := anchor), store, rec, true);
    } else {
      ActivateThenAppendKeeps(o, origin, store, e, rec, env);
    }
  }

  lemma {:induction false} FrontierKeeps(o: Orchestration, origin: seq<Chapter>, store: seq<Chapter>, e: Executor,
                                         kind: Kind, id: string, build: Record, deferred: bool, env: Env)
    requires Deterministic(o) && StoreOk(o, origin, store) && ExecutorOk(o, origin, store, e) && PeekAt(e.run).None?
    requires !e.run.inspecting && !RestartPending(e.run) && Asked(o, e, kind, id, build, deferred)
    ensures Kept(o, origin, store, e, Frontier(e.run, store, kind, id, build, deferred, env), !EngineOnly(kind))
  {
    hide ExecutorOk, StoreOk, Enter, Skip, Justified;
    var run1 := e.run.(live := true);
    var e1 := e.(run := run1);
    LiveKeeps(o, origin, store, e);
    if env.expired {
      AfterQuiet(e, run1, store, Interrupted, false, !EngineOnly(kind));
    } else {
      var at := if build.at == ZERO_TIME then env.now else build.at;
      var rec := build.(kind := kind, id := id, version := PATTERN_VERSION, at := at);
      if !EngineOnly(kind) { JustifiedStamp(o, e1, build, kind, id, deferred, at); }
      EnterKeeps(o, origin, store, e1, rec, deferred, env);
      AfterAtRun(e, run1, Enter(run1, store, rec, deferred, env), !EngineOnly(kind));
    }
  }

  /** Only the result of a step matters to what comes after it. */
  lemma {:induction false} AfterAtRun(e: Executor, run: Run, s: Step, handed: bool)
    ensures After(e.(run := run), s, handed) == After(e, s, handed)
  {
  }

  /** Where history has a record for this place, it is the one asked for, or the
      timeout of an attempt around it. */
  ghost predicate Expected(run: Run, kind: Kind, id: string)
    requires run.cursor <= |run.events|
  {
    var next := PeekAt(run);
    next.Some? ==>
      KeyOf(next.value) == Key(kind, id)
          || (next.value.kind == Result && next.value.errorKind == Timeout && Below(id, next.value.id))
  }

  /** The restart, if one is pending, is still ahead of the next event. */
  ghost predicate BeforeRestart(origin: seq<Chapter>, e: Executor)
    requires e.run.cursor <= |e.run.events|
  {
    RestartPending(e.run) ==> PeekAt(e.run).Some? && |e.got| < |VisibleLog(origin)|
  }

  /** An executor stopped by a log that replay does not get through. */
  lemma {:induction false} StuckKeeps(o: Orchestration, origin: seq<Chapter>, store: seq<Chapter>, e: Executor,
                                      fault: Fault)
    requires ExecutorOk(o, origin, store, e) && !Replays(o, RestartIds(origin), VisibleLog(store))
    ensures ExecutorOk(o, origin, store, e.(run := e.run.(fatal := Some(fault))))
  {
    hide ExpandAll, Visible, VisibleLog, Skip, Legal, ClearAll, Slots, LastRestart, RestartIds, Replays;
    var e' := e.(run := e.run.(fatal := Some(fault)));
    assert Handed(store, e') == Handed(store, e);
  }

  /** A record that the log holds and replay does not get past. */
  lemma {:induction false} StuckHere(o: Orchestration, origin: seq<Chapter>, store: seq<Chapter>, e: Executor)
    requires StoreOk(o, origin, store) && ExecutorOk(o, origin, store, e) && PeekAt(e.run).Some?
    requires !Follows(o, RestartIds(origin), e.got, PeekAt(e.run).value)
    ensures !Replays(o, RestartIds(origin), VisibleLog(store))
  {
    hide ExpandAll, Visible, VisibleLog, Skip, Legal, ClearAll, Slots, LastRestart, RestartIds, Follows, Handed;
    ReplayPosition(o, origin, store, e);
  }

  /** What a request makes of a record it meets. */
  lemma {:induction false} MeetsRecord(run: Run, store: seq<Chapter>, kind: Kind, id: string, build: Record,
                                       deferred: bool, env: Env)
    requires run.cursor < |run.events| && run.cursor == Skip(run.events, run.cursor) && !run.suspended
             && run.fatal.None? && !env.cancelled
    ensures var next := run.events[run.cursor];
            RecordEvent(run, store, kind, id, build, deferred, env)
            == if KeyOf(next) == Key(kind, id) then Quiet(Consume(run, next), store, Got(next), false)
               else if TimedOut(next) && Below(id, next.id) then Quiet(run, store, Refused(Boundary), false)
               else Quiet(run.(fatal := Some(NonDeterministic)), store, Refused(Fatal), false)
  {
    hide Frontier, Consume, Skip, StartsWith;
    assert run.(cursor := run.cursor) == run;
  }

  lemma {:induction false} ReplayedEventKeeps(o: Orchestration, origin: seq<Chapter>, store: seq<Chapter>, e: Executor,
                                              kind: Kind, id: string, build: Record, deferred: bool, env: Env)
    requires Deterministic(o) && StoreOk(o, origin, store) && ExecutorOk(o, origin, store, e) && !e.run.inspecting
    requires e.run.cursor < |e.run.events| && e.run.cursor == Skip(e.run.events, e.run.cursor)
    requires !e.run.suspended && e.run.fatal.None? && !env.cancelled && !EngineOnly(kind)
    requires BeforeRestart(origin, e)
             && (Expected(e.run, kind, id) || !Replays(o, RestartIds(origin), VisibleLog(store)))
    ensures Kept(o, origin, store, e, RecordEvent(e.run, store, kind, id, build, deferred, env), true)
  {
    hide ExecutorOk, StoreOk, RecordEvent, Consume, Skip, VisibleLog, Deterministic, Replays, RestartIds, StartsWith;
    var next := e.run.events[e.run.cursor];
    MeetsRecord(e.run, store, kind, id, build, deferred, env);
    if KeyOf(next) == Key(kind, id) {
      ConsumeKeeps(o, origin, store, e);
      AfterGot(e, Consume(e.run, next), store, next, false);
    } else if TimedOut(next) && Below(id, next.id) {
      AfterQuiet(e, e.run, store, Boundary, false, true);
    } else {
      StuckKeeps(o, origin, store, e, NonDeterministic);
      AfterQuiet(e, e.run.(fatal := Some(NonDeterministic)), store, Fatal, false, true);
    }
  }

  /** A request that is turned away before it looks at history. */
  lemma {:induction false} TurnedAwayKeeps(o: Orchestration, origin: seq<Chapter>, store: seq<Chapter>, e: Executor,
                                           kind: Kind, id: string, build: Record, deferred: bool, env: Env)
    requires StoreOk(o, origin, store) && ExecutorOk(o, origin, store, e) && e.run.cursor <= |e.run.events|
    requires e.run.suspended || e.run.fatal.Some? || env.cancelled
    ensures Kept(o, origin, store, e, RecordEvent(e.run, store, kind, id, build, deferred, env), !EngineOnly(kind))
  {
    hide ExecutorOk, StoreOk, Frontier, Consume, Skip;
    var why := if e.run.suspended then Suspended else if e.run.fatal.Some? then Fatal else Interrupted;
    AfterQuiet(e, e.run, store, why, false, !EngineOnly(kind));
  }

  /** A request starts from the first record that is not skipped. */
  lemma {:induction false} SkipsFirst(run: Run, store: seq<Chapter>, kind: Kind, id: string, build: Record,
                                      deferred: bool, env: Env)
    requires run.cursor <= |run.events| && !run.suspended && run.fatal.None? && !env.cancelled
    ensures var run1 := run.(cursor := Skip(run.events, run.cursor));
            RecordEvent(run, store, kind, id, build, deferred, env)
            == if run1.cursor < |run1.events| then RecordEvent(run1, store, kind, id, build, deferred, env)
               else Frontier(run1, store, kind, id, build, deferred, env)
  {
    hide Frontier, Consume, Skip, StartsWith;
    SkipIsStable(run.events, run.cursor);
  }

  lemma {:induction false} KeptAtRun(o: Orchestration, origin: seq<Chapter>, store: seq<Chapter>, e: Executor,
                                     run: Run, s: Step, handed: bool)
    requires Kept(o, origin, store, e.(run := run), s, handed)
    ensures Kept(o, origin, store, e, s, handed)
  {
    hide ExecutorOk, StoreOk, After;
    AfterAtRun(e, run, s, handed);
  }

  lemma {:induction false} RecordEventKeeps(o: Orchestration, origin: seq<Chapter>, store: seq<Chapter>, e: Executor,
                                            kind: Kind, id: string, build: Record, deferred: bool, env: Env)
    requires Deterministic(o) && StoreOk(o, origin, store) && ExecutorOk(o, origin, store, e) && !e.run.inspecting
    requires e.run.cursor <= |e.run.events|
    requires e.run.fatal.None? ==>
               BeforeRestart(origin, e)
                   && (Expected(e.run, kind, id) || !Replays(o, RestartIds(origin), VisibleLog(store)))
    requires PeekAt(e.run).None? ==> Asked(o, e, kind, id, build, deferred)
    requires PeekAt(e.run).Some? ==> !EngineOnly(kind)
    ensures Kept(o, origin, store, e, RecordEvent(e.run, store, kind, id, build, deferred, env), !EngineOnly(kind))
  {
    hide ExecutorOk, StoreOk, Frontier, RecordEvent, Skip, Justified, VisibleLog, Deterministic, Replays,
         RestartIds, Kept;
    if e.run.suspended || e.run.fatal.Some? || env.cancelled {
      TurnedAwayKeeps(o, origin, store, e, kind, id, build, deferred, env);
    } else {
      var run1 := e.run.(cursor := Skip(e.run.events, e.run.cursor));
      var e1 := e.(run := run1);
      SkipIsStable(e.run.events, e.run.cursor);
      SkipKeeps(o, origin, store, e);
      SkipsFirst(e.run, store, kind, id, build, deferred, env);
      if run1.cursor < |run1.events| {
        ReplayedEventKeeps(o, origin, store, e1, kind, id, build, deferred, env);
      } else {
        FrontierKeeps(o, origin, store, e1, kind, id, build, deferred, env);
      }
      KeptAtRun(o, origin, store, e, run1, RecordEvent(e.run, store, kind, id, build, deferred, env),
                !EngineOnly(kind));
    }
  }

  // ---- restarts ----------------------------------------------------------------------------------------

  lemma {:induction false} OriginInLog(origin: seq<Chapter>, store: seq<Chapter>, n: nat)
    requires |origin| <= n <= |store| && store[..|origin|] == origin
    ensures |VisibleLog(origin)| <= |VisibleLog(store[..n])|
    ensures VisibleLog(store[..n])[..|VisibleLog(origin)|] == VisibleLog(origin)
  {
    hide VisibleLog;
    assert store[..n] == origin + store[|origin|..n];
    VisibleLogConcat(origin, store[|origin|..n]);
  }

  /** An executor that still has its restart to apply, and no retained history
      left, stands at the restart target. */
  lemma {:induction false} AtRestart(o: Orchestration, origin: seq<Chapter>, store: seq<Chapter>, e: Executor)
    requires Deterministic(o) && OriginOk(o, origin) && StoreOk(o, origin, store) && ExecutorOk(o, origin, store, e)
    requires RestartPending(e.run) && (PeekAt(e.run).None? || |e.got| >= |VisibleLog(origin)|)
    ensures e.run.pending == [] && o(e.got) == Ask({Key(Continuation, e.run.restart.value)})
  {
    hide ExpandAll, Visible, VisibleLog, Skip, Legal, ClearAll, Clear, Slots, LastRestart, RestartIds, Handed;
    var start := VisibleLog(origin);
    if PeekAt(e.run).Some? {
      ReplayPosition(o, origin, store, e);
      OriginInLog(origin, store, |store|);
      assert store[..|store|] == store;
      assert e.got == start;
    } else {
      FrontierHanded(origin, store, e);
      OriginInLog(origin, store, e.run.ordinal);
      var log := VisibleLog(store[..e.run.ordinal]);
      ClearLength(e.got, log + e.run.pending);
      assert log[..|log|] == log;
      assert log + [] == log == start;
    }
  }

  lemma {:induction false} ClearLength(a: seq<Record>, b: seq<Record>)
    requires ClearAll(a) == ClearAll(b)
    ensures |a| == |b|
  {
  }

  /** `applyRestart` fails only on a log that did not go on with the continuation. */
  lemma {:induction false} ReachRestartKeeps(o: Orchestration, origin: seq<Chapter>, store: seq<Chapter>,
                                             e: Executor, k: Key)
    requires Deterministic(o) && OriginOk(o, origin) && StoreOk(o, origin, store) && ExecutorOk(o, origin, store, e)
    requires o(e.got).Ask? && k in o(e.got).options
    ensures var e' := e.(run := ReachRestart(e.run, k.kind, k.id));
            && ExecutorOk(o, origin, store, e') && PeekAt(e'.run) == PeekAt(e.run)
            && (RestartPending(e'.run) ==>
                  e'.run.fatal.Some? || (e'.run == e.run && k != Key(Continuation, e.run.restart.value)))
  {
    hide ExpandAll, Visible, VisibleLog, Skip, Legal, ClearAll, Clear, Slots, LastRestart, RestartIds;
    var e' := e.(run := ReachRestart(e.run, k.kind, k.id));
    assert Handed(store, e') == Handed(store, e);
    if k.kind == Continuation && k.id in e.run.restarts && PeekAt(e.run).Some? && KeyOf(PeekAt(e.run).value) != k {
      assert !Follows(o, RestartIds(origin), e.got, PeekAt(e.run).value);
      StuckHere(o, origin, store, e);
    }
    if LastRestart(origin).Some? { NewestIsKnown(origin); }
  }

  lemma {:induction false} NewestIsKnown(cs: seq<Chapter>)
    requires LastRestart(cs).Some?
    ensures LastRestart(cs).value in RestartIds(cs)
  {
    var c := cs[|cs| - 1];
    if !(c.Execution? && c.record.kind == Restart) { NewestIsKnown(cs[..|cs| - 1]); }
  }

  // ---- every action --------------------------------------------------------------------------------------

  lemma {:induction false} NextIsJustified(o: Orchestration, origin: seq<Chapter>, store: seq<Chapter>, e: Executor)
    requires StoreOk(o, origin, store) && ExecutorOk(o, origin, store, e) && PeekAt(e.run).Some?
    ensures Justified(o, e.got, PeekAt(e.run).value) && !EngineOnly(PeekAt(e.run).value.kind)
  {
    hide ExpandAll, Visible, VisibleLog, Skip, ClearAll, Slots, LastRestart, RestartIds;
    ReplayPosition(o, origin, store, e);
  }

  lemma {:induction false} CallIsExpected(o: Orchestration, origin: seq<Chapter>, store: seq<Chapter>, e: Executor,
                                          k: Key)
    requires Deterministic(o) && OriginOk(o, origin) && StoreOk(o, origin, store) && ExecutorOk(o, origin, store, e)
    requires e.run.cursor <= |e.run.events|
    requires o(e.got).Ask? && k in o(e.got).options && k == Choose(e.run, o(e.got).options, k)
    ensures var e1 := e.(run := ReachRestart(e.run, k.kind, k.id));
            && ExecutorOk(o, origin, store, e1) && e1.run.cursor <= |e1.run.events| && PeekAt(e1.run) == PeekAt(e.run)
            && (e1.run.fatal.None? ==>
                  BeforeRestart(origin, e1)
                      && (Expected(e1.run, k.kind, k.id) || !Replays(o, RestartIds(origin), VisibleLog(store))))
  {
    hide ExpandAll, Visible, VisibleLog, Skip, Legal, ClearAll, Clear, Slots, LastRestart, RestartIds, StoreOk,
         ReachRestart, OriginOk, Handed, Tracks, Replays;
    var e1 := e.(run := ReachRestart(e.run, k.kind, k.id));
    ReachRestartKeeps(o, origin, store, e, k);
    if PeekAt(e.run).Some? {
      if !Follows(o, RestartIds(origin), e.got, PeekAt(e.run).value) { StuckHere(o, origin, store, e); }
    }
    if RestartPending(e1.run) && e1.run.fatal.None? && (PeekAt(e.run).None? || |e.got| >= |VisibleLog(origin)|) {
      AtRestart(o, origin, store, e);
    }
  }

  lemma {:induction false} CallKeeps(o: Orchestration, origin: seq<Chapter>, store: seq<Chapter>, e: Executor,
                                     k: Key, build: Record, deferred: bool, env: Env)
    requires Deterministic(o) && OriginOk(o, origin) && StoreOk(o, origin, store) && ExecutorOk(o, origin, store, e)
    requires e.run.cursor <= |e.run.events|
    requires o(e.got).Ask? && k in o(e.got).options && k == Choose(e.run, o(e.got).options, k)
    requires PeekAt(e.run).None? ==> MayBuild(e.run, build, k.kind, k.id, deferred)
    ensures Kept(o, origin, store, e,
                 RecordEvent(ReachRestart(e.run, k.kind, k.id), store, k.kind, k.id, build, deferred, env), true)
  {
    hide StoreOk, ReachRestart, RecordEvent, OriginOk, Holds, Tracks, Acceptable, PeekAt, Expected, BeforeRestart,
         Legal;
    var run1 := ReachRestart(e.run, k.kind, k.id);
    var e1 := e.(run := run1);
    CallIsExpected(o, origin, store, e, k);
    assert Justified(o, e1.got, build.(kind := k.kind, id := k.id));
    RecordEventKeeps(o, origin, store, e1, k.kind, k.id, build, deferred, env);
    AfterAtRun(e, run1, RecordEvent(run1, store, k.kind, k.id, build, deferred, env), true);
  }

  lemma {:induction false} ExpireKeeps(o: Orchestration, origin: seq<Chapter>, store: seq<Chapter>, e: Executor,
                                       attempt: string, build: Record, deferred: bool, env: Env)
    requires Deterministic(o) && OriginOk(o, origin) && StoreOk(o, origin, store) && ExecutorOk(o, origin, store, e)
    requires e.run.cursor <= |e.run.events|
    requires build.errorKind == Timeout && Cuts(o(e.got), attempt) && MayExpire(e.run, o(e.got).options, attempt)
    requires PeekAt(e.run).None? ==> Fits(build, Result, attempt)
    ensures Kept(o, origin, store, e, RecordEvent(e.run, store, Result, attempt, build, deferred, env), true)
  {
    hide ExpandAll, Visible, VisibleLog, Skip, Legal, ClearAll, Clear, Slots, LastRestart, RestartIds, StoreOk,
         RecordEvent, OriginOk, Handed, Holds, Replays;
    if RestartPending(e.run) && (PeekAt(e.run).None? || |e.got| >= |VisibleLog(origin)|) {
      AtRestart(o, origin, store, e);
      NewestIsKnown(origin);
    }
    RecordEventKeeps(o, origin, store, e, Result, attempt, build, deferred, env);
  }

  lemma {:induction false} ExpireHandlerKeeps(o: Orchestration, origin: seq<Chapter>, store: seq<Chapter>, e: Executor,
                                              attempt: string, build: Record, env: Env)
    requires Deterministic(o) && StoreOk(o, origin, store) && ExecutorOk(o, origin, store, e)
    requires e.run.cursor <= |e.run.events| && e.run.live
    requires build.errorKind == Timeout && build.disposition == Propagate && CutsHandler(o(e.got), attempt)
             && Fits(build, Handled, attempt)
    ensures Kept(o, origin, store, e, RecordEvent(e.run, store, Handled, attempt, build, false, env), true)
  {
    hide ExpandAll, Visible, VisibleLog, Skip, Legal, ClearAll, Clear, Slots, LastRestart, RestartIds, StoreOk,
         RecordEvent, Handed, Holds, Replays, Acceptable;
    RecordEventKeeps(o, origin, store, e, Handled, attempt, build, false, env);
  }

  /** After a request that failed without a record, whatever is recorded next. */
  lemma {:induction false} GoOnKeeps(o: Orchestration, origin: seq<Chapter>, store: seq<Chapter>, e: Executor,
                                     k: Key, build: Record, deferred: bool, env: Env)
    requires Deterministic(o) && StoreOk(o, origin, store) && ExecutorOk(o, origin, store, e)
    requires e.run.cursor <= |e.run.events| && AtFrontier(e.run) && !RestartPending(e.run)
    requires o(e.got).Ask? && o(e.got).fallible && !EngineOnly(k.kind) && MayBuild(e.run, build, k.kind, k.id, deferred)
    ensures Kept(o, origin, store, e, RecordEvent(e.run, store, k.kind, k.id, build, deferred, env), true)
  {
    hide ExpandAll, Visible, VisibleLog, Skip, Legal, ClearAll, Slots, LastRestart, RestartIds, StoreOk,
         RecordEvent, Handed, Holds, Replays, MayBuild;
    RecordEventKeeps(o, origin, store, e, k.kind, k.id, build, deferred, env);
  }

  lemma {:induction false} CheckpointKeeps(o: Orchestration, origin: seq<Chapter>, store: seq<Chapter>, e: Executor,
                                           id: string, env: Env)
    requires Deterministic(o) && OriginOk(o, origin) && StoreOk(o, origin, store) && ExecutorOk(o, origin, store, e)
    requires e.run.cursor <= |e.run.events| && e.run.pending != []
    ensures Kept(o, origin, store, e, RecordEvent(e.run, store, Checkpoint, id, Blank(Checkpoint, id), false, env),
                 false)
  {
    hide ExpandAll, Visible, VisibleLog, Skip, Legal, ClearAll, Clear, Slots, LastRestart, RestartIds, StoreOk,
         RecordEvent, OriginOk, Handed, Holds, Replays;
    if RestartPending(e.run) { AtRestart(o, origin, store, e); }
    RecordEventKeeps(o, origin, store, e, Checkpoint, id, Blank(Checkpoint, id), false, env);
  }

  lemma {:induction false} BindKeeps(o: Orchestration, origin: seq<Chapter>, store: seq<Chapter>, e: Executor,
                                     id: string, build: Record, env: Env)
    requires Deterministic(o) && StoreOk(o, origin, store) && ExecutorOk(o, origin, store, e) && PeekAt(e.run).None?
    ensures Kept(o, origin, store, e,
                 ActivateThenAppend(e.run, store, build.(kind := DependencyBinding, id := id), env), false)
  {
    hide ExecutorOk, StoreOk, ActivateThenAppend, Skip;
    ActivateThenAppendKeeps(o, origin, store, e, build.(kind := DependencyBinding, id := id), env);
  }

  /** The final outcome carries what was still pending. */
  lemma {:induction false} CompleteKeeps(o: Orchestration, origin: seq<Chapter>, store: seq<Chapter>, e: Executor,
                                         delivery: Delivery)
    requires Deterministic(o) && StoreOk(o, origin, store) && ExecutorOk(o, origin, store, e) && PeekAt(e.run).None?
    ensures var store' := Put(store, e.run.ordinal, JobOutcome(e.run.pending, false), delivery);
            Extends(store, store') && StoreOk(o, origin, store')
  {
    hide ExpandAll, Visible, VisibleLog, Skip, Legal, ClearAll, Clear, Slots, LastRestart, RestartIds, Handed, Replays;
    if Lands(store, e.run.ordinal, delivery) {
      var c := JobOutcome(e.run.pending, false);
      FrontierHanded(origin, store, e);
      assert store[..|store|] == store;
      LegalClear(o, e.got, VisibleLog(store) + e.run.pending);
      VisibleIsIdentity(e.run.pending);
      GrowKeepsStore(o, origin, store, c);
    }
  }

  /** A failure outcome carries nothing. */
  lemma {:induction false} FailKeeps(o: Orchestration, origin: seq<Chapter>, store: seq<Chapter>, e: Executor,
                                     oversized: bool, delivery: Delivery)
    requires StoreOk(o, origin, store) && ExecutorOk(o, origin, store, e)
    ensures var store' := Put(store, e.run.ordinal, JobOutcome([], oversized), delivery);
            Extends(store, store') && StoreOk(o, origin, store')
  {
    hide ExpandAll, VisibleLog, Skip, Legal, ClearAll, Clear, Slots, LastRestart, RestartIds, Handed, Replays;
    if Lands(store, e.run.ordinal, delivery) {
      var c := JobOutcome([], oversized);
      assert store[..|store|] == store;
      assert VisibleLog(store) + [] == VisibleLog(store);
      GrowKeepsStore(o, origin, store, c);
    }
  }

  lemma {:induction false} AnswerKeeps(o: Orchestration, origin: seq<Chapter>, store: seq<Chapter>, id: string,
                                       r: Record)
    requires StoreOk(o, origin, store) && AwaitsAnswer(o, store, id) && r.kind == Result && r.id == id && Acceptable(r)
    ensures StoreOk(o, origin, store + [Execution(r, [])])
  {
    hide ExpandAll, Visible, VisibleLog, LastRestart, RestartIds, Legal;
    var log := VisibleLog(store);
    assert ExpandAll(store) != [] by { if ExpandAll(store) == [] { NothingVisible(store); } }
    ExpandVisible(r, []);
    assert [] + [r] == [r];
    LegalSnoc(o, log, r);
    GrowKeepsStore(o, origin, store, Execution(r, []));
  }

  lemma {:induction false} NothingVisible(store: seq<Chapter>)
    requires ExpandAll(store) == []
    ensures VisibleLog(store) == []
  {
  }

  // ---- starting -----------------------------------------------------------------------------------------

  /** An executor as `Begin` leaves it. */
  ghost function Fresh(store: seq<Chapter>, b: Step): Executor {
    Executor(b.run, [], Slots(store) + seq(|b.passed|, i requires 0 <= i < |b.passed| => Some(b.passed[i])),
             |store|, b.adopted)
  }

  lemma {:induction false} ResumeKeeps(o: Orchestration, origin: seq<Chapter>, store: seq<Chapter>, run: Run)
    requires StoreOk(o, origin, store) && ExpandAll(store) != []
    requires run.events == ExpandAll(store) && run.cursor == 1 && run.pending == [] && run.ordinal == |store|
    requires !run.live && run.fatal.None? && !run.inspecting && run.restart == LastRestart(store)
             && run.restarts == RestartIds(store)
    ensures ExecutorOk(o, origin, store, Executor(run, [], Slots(store), |store|, false))
  {
    hide ExpandAll, LastRestart, RestartIds, Skip, ClearAll, Slots;
    var e := Executor(run, [], Slots(store), |store|, false);
    assert store[..|store|] == store && store[|store|..|store|] == [];
    EmptyLog();
    VisibleStep(run.events, 0);
    assert run.events[..0] == [];
    assert Handed(store, e) == [];
  }

  lemma {:induction false} HeaderKeeps(o: Orchestration, origin: seq<Chapter>, store: seq<Chapter>, header: Record,
                                       run: Run)
    requires StoreOk(o, origin, store) && ExpandAll(store) == [] && header.kind == Header && Acceptable(header)
    requires run.events == [] && run.cursor == 0 && run.pending == [] && run.ordinal == |store| + 1
    requires !run.live && run.fatal.None? && !run.inspecting && run.restart == LastRestart(store)
             && run.restarts == RestartIds(store)
    ensures var store' := store + [Execution(header, [])];
            StoreOk(o, origin, store')
                && ExecutorOk(o, origin, store', Executor(run, [], Slots(store) + [Some(header)], |store|, false))
  {
    hide ExpandAll, LastRestart, RestartIds, Skip, ClearAll, Visible, VisibleLog;
    var c := Execution(header, []);
    var store' := store + [c];
    NothingVisible(store);
    VisibleLogSnoc(store, c);
    ExpandVisible(header, []);
    assert [] + [header] == [header];
    assert VisibleLog(store) + [] == VisibleLog(store);
    GrowKeepsStore(o, origin, store, c);
    var e := Executor(run, [], Slots(store) + [Some(header)], |store|, false);
    assert store'[..|store| + 1] == store' && store'[..|store|] == store;
    assert store'[|store|..|store| + 1] == [c];
    VisibleLogSnoc([], c);
    EmptyLog();
    assert [] + [c] == [c];
    assert run.events[..0] == [];
    NothingShown();
    assert Handed(store', e) == [];
    assert Slots(store') == Slots(store) + [Some(header)];
  }

  lemma {:induction false} NothingShown()
    ensures Visible([]) == [] && ExpandAll([]) == []
  {
  }

  lemma {:induction false} BeginKeeps(o: Orchestration, origin: seq<Chapter>, store: seq<Chapter>,
                                      activation: string, versions: Versions, now: Time, net: Net)
    requires StoreOk(o, origin, store)
    ensures var b := Begin(store, activation, versions, false, now, net);
            && Extends(store, b.store) && StoreOk(o, origin, b.store)
            && (b.response.Got? ==> ExecutorOk(o, origin, b.store, Fresh(store, b)))
  {
    hide ExpandAll, LastRestart, RestartIds, Append, StoreOk, ExecutorOk, Acceptable, EndedOversized;
    var run := Load(store, activation, versions, false);
    var b := Begin(store, activation, versions, false, now, net);
    if EndedOversized(store) {
      assert b.response.Refused? && b.store == store;
    } else if run.events == [] {
      var rec := Blank(Header, "").(versions := Some(versions));
      var a := Append(run, store, rec, now, net);
      var mine := Stamp(run, rec, now);
      AppendEffect(run, store, rec, now, net);
      var run1 := run.(ordinal := |store| + 1);
      if Acceptable(mine) { HeaderKeeps(o, origin, store, mine, run1); }
      if a.response.Got? {
        assert a.store == store + [Execution(mine, [])] && a.store[|store|] == Execution(mine, []);
        CommitKeeps(run, mine);
        HeaderKeeps(o, origin, store, mine, b.run);
        assert Fresh(store, b).held == Slots(store) + [Some(mine)];
      }
    } else {
      HeaderIsFirst(o, origin, store);
      ResumeKeeps(o, origin, store, b.run);
      assert Fresh(store, b).held == Slots(store);
    }
  }

  lemma {:induction false} HeaderIsFirst(o: Orchestration, origin: seq<Chapter>, store: seq<Chapter>)
    requires StoreOk(o, origin, store) && ExpandAll(store) != []
    ensures ExpandAll(store)[0].kind == Header && AllAcceptable(ExpandAll(store))
  {
  }

  // ---- the system -----------------------------------------------------------------------------------------

  lemma {:induction false} ApplyKeeps(o: Orchestration, s: System, x: nat, e: Executor, step: Step, handed: bool)
    requires Inv(o, s) && x in s.executors && s.executors[x] == e && Kept(o, s.origin, s.store, e, step, handed)
    ensures Inv(o, Apply(s, x, e, step, handed)) && Extends(s.store, Apply(s, x, e, step, handed).store)
  {
    hide ExecutorOk, StoreOk, OriginOk, After;
    var s' := Apply(s, x, e, step, handed);
    forall y | y in s'.executors ensures ExecutorOk(o, s'.origin, s'.store, s'.executors[y]) {
      if y != x { GrowKeepsExecutor(o, s.origin, s.store, s'.store, s.executors[y]); }
    }
  }

  lemma {:induction false} StoreKeeps(o: Orchestration, s: System, store': seq<Chapter>, gone: set<nat>)
    requires Inv(o, s) && Extends(s.store, store') && StoreOk(o, s.origin, store')
    ensures Inv(o, s.(store := store', executors := s.executors - gone))
  {
    hide ExecutorOk, StoreOk, OriginOk;
    forall y | y in s.executors - gone ensures ExecutorOk(o, s.origin, store', s.executors[y]) {
      GrowKeepsExecutor(o, s.origin, s.store, store', s.executors[y]);
    }
  }

  lemma {:induction false} CursorsInRange(o: Orchestration, s: System)
    requires Inv(o, s)
    ensures forall x :: x in s.executors ==> s.executors[x].run.cursor <= |s.executors[x].run.events|
  {
    hide OriginOk, StoreOk, Tracks, Sound, ExpandAll, Slots, LastRestart, RestartIds;
  }

  /** Actions that ask for an event. */
  predicate IsEvent(a: Action) { a.Call? || a.Expire? || a.ExpireHandler? || a.GoOn? || a.CheckpointPath? }

  lemma {:induction false} EventKeeps(o: Orchestration, s: System, a: Action)
    requires Deterministic(o) && Inv(o, s) && IsEvent(a)
    requires forall x :: x in s.executors ==> s.executors[x].run.cursor <= |s.executors[x].run.events|
    ensures Inv(o, Act(o, s, a)) && Extends(s.store, Act(o, s, a).store) && Act(o, s, a).origin == s.origin
  {
    hide ExecutorOk, StoreOk, OriginOk, RecordEvent, Begin, Activate, ActivateThenAppend, Skip, Put, After, Legal,
         Slots, Deterministic, Acceptable;
    match a
    case Call(x, choice, build, deferred, env) =>
      if x in s.executors && o(s.executors[x].got).Ask? {
        var e := s.executors[x];
        var k := Choose(e.run, o(e.got).options, choice);
        if k in o(e.got).options && (PeekAt(e.run).None? ==> MayBuild(e.run, build, k.kind, k.id, deferred)) {
          CallKeeps(o, s.origin, s.store, e, k, build, deferred, env);
          ApplyKeeps(o, s, x, e,
                     RecordEvent(ReachRestart(e.run, k.kind, k.id), s.store, k.kind, k.id, build, deferred, env), true);
        }
      }
    case Expire(x, attempt, build, deferred, env) =>
      if x in s.executors && build.errorKind == Timeout && Cuts(o(s.executors[x].got), attempt)
         && MayExpire(s.executors[x].run, o(s.executors[x].got).options, attempt)
         && (PeekAt(s.executors[x].run).None? ==> Fits(build, Result, attempt)) {
        var e := s.executors[x];
        ExpireKeeps(o, s.origin, s.store, e, attempt, build, deferred, env);
        ApplyKeeps(o, s, x, e, RecordEvent(e.run, s.store, Result, attempt, build, deferred, env), true);
      }
    case ExpireHandler(x, attempt, build, env) =>
      if x in s.executors && build.errorKind == Timeout && build.disposition == Propagate && s.executors[x].run.live
         && CutsHandler(o(s.executors[x].got), attempt) && Fits(build, Handled, attempt) {
        var e := s.executors[x];
        ExpireHandlerKeeps(o, s.origin, s.store, e, attempt, build, env);
        ApplyKeeps(o, s, x, e, RecordEvent(e.run, s.store, Handled, attempt, build, false, env), true);
      }
    case GoOn(x, k, build, deferred, env) =>
      if x in s.executors && o(s.executors[x].got).Ask? && o(s.executors[x].got).fallible && !EngineOnly(k.kind)
         && AtFrontier(s.executors[x].run) && !RestartPending(s.executors[x].run)
         && MayBuild(s.executors[x].run, build, k.kind, k.id, deferred) {
        var e := s.executors[x];
        GoOnKeeps(o, s.origin, s.store, e, k, build, deferred, env);
        ApplyKeeps(o, s, x, e, RecordEvent(e.run, s.store, k.kind, k.id, build, deferred, env), true);
      }
    case CheckpointPath(x, id, env) =>
      if x in s.executors && s.executors[x].run.pending != [] {
        var e := s.executors[x];
        CheckpointKeeps(o, s.origin, s.store, e, id, env);
        ApplyKeeps(o, s, x, e, RecordEvent(e.run, s.store, Checkpoint, id, Blank(Checkpoint, id), false, env), false);
      }
  }

  lemma {:induction false} EngineKeeps(o: Orchestration, s: System, a: Action)
    requires Deterministic(o) && Inv(o, s) && (a.Start? || a.RunTask? || a.BindDependency? || a.Complete? || a.FailJob?)
    requires forall x :: x in s.executors ==> s.executors[x].run.cursor <= |s.executors[x].run.events|
    ensures Inv(o, Act(o, s, a)) && Extends(s.store, Act(o, s, a).store) && Act(o, s, a).origin == s.origin
  {
    hide ExecutorOk, StoreOk, OriginOk, RecordEvent, Begin, Activate, ActivateThenAppend, Skip, Put, After, Legal,
         Slots, Deterministic, Acceptable;
    match a
    case Start(x, activation, versions, now, net) =>
      if x !in s.executors {
        var b := Begin(s.store, activation, versions, false, now, net);
        BeginKeeps(o, s.origin, s.store, activation, versions, now, net);
        StoreKeeps(o, s, b.store, {});
        assert s.executors - {} == s.executors;
      }
    case RunTask(x, env) =>
      if x in s.executors && s.executors[x].run.live && !s.executors[x].run.activated
         && AtFrontier(s.executors[x].run) {
        var e := s.executors[x];
        ActivateKeeps(o, s.origin, s.store, e, env.now, env.activationNet);
        ApplyKeeps(o, s, x, e, Activate(e.run, s.store, env.now, env.activationNet), false);
      }
    case BindDependency(x, id, build, env) =>
      if x in s.executors && s.executors[x].run.live && s.executors[x].run.pending == []
         && AtFrontier(s.executors[x].run) {
        var e := s.executors[x];
        BindKeeps(o, s.origin, s.store, e, id, build, env);
        ApplyKeeps(o, s, x, e, ActivateThenAppend(e.run, s.store, build.(kind := DependencyBinding, id := id), env),
                   false);
      }
    case Complete(x, delivery) =>
      if x in s.executors && o(s.executors[x].got).Done? && AtFrontier(s.executors[x].run)
         && !s.executors[x].run.finished {
        var e := s.executors[x];
        CompleteKeeps(o, s.origin, s.store, e, delivery);
        StoreKeeps(o, s, Put(s.store, e.run.ordinal, JobOutcome(e.run.pending, false), delivery), {x});
      }
    case FailJob(x, oversized, delivery) =>
      if x in s.executors && MayFail(s.executors[x].run, oversized) {
        var e := s.executors[x];
        FailKeeps(o, s.origin, s.store, e, oversized, delivery);
        StoreKeeps(o, s, Put(s.store, e.run.ordinal, JobOutcome([], oversized), delivery), {x});
      }
  }

  /** No action, in whatever state it finds the system, breaks the invariants or
      touches a committed slot. */
  lemma {:induction false} ActKeeps(o: Orchestration, s: System, a: Action)
    requires Deterministic(o) && Inv(o, s)
    requires forall x :: x in s.executors ==> s.executors[x].run.cursor <= |s.executors[x].run.events|
    ensures Inv(o, Act(o, s, a)) && Extends(s.store, Act(o, s, a).store) && Act(o, s, a).origin == s.origin
  {
    hide ExecutorOk, StoreOk, OriginOk, RecordEvent, Begin, Activate, ActivateThenAppend, Skip, Put, After, Legal,
         Slots, Deterministic, Acceptable;
    match a
    case Suspend(x) =>
      if x in s.executors { ActivatedKeeps(o, s.origin, s.store, s.executors[x]); }
    case Crash(x) =>
      StoreKeeps(o, s, s.store, {x});
    case AnswerWait(id, answer) =>
      var r := answer.(kind := Result, id := id, version := PATTERN_VERSION);
      if AwaitsAnswer(o, s.store, id) && Acceptable(r) {
        AnswerKeeps(o, s.origin, s.store, id, r);
        StoreKeeps(o, s, s.store + [Execution(r, [])], {});
        assert s.executors - {} == s.executors;
      }
    case _ =>
      if IsEvent(a) { EventKeeps(o, s, a); } else { EngineKeeps(o, s, a); }
  }

  /** Every run: any actions, in any order, from any log a job may start from. */
  ghost function RunAll(o: Orchestration, s: System, actions: seq<Action>): (s': System)
    requires Deterministic(o) && Inv(o, s)
    ensures Inv(o, s') && Extends(s.store, s'.store) && s'.origin == s.origin
    decreases |actions|
  {
    if actions == [] then s
    else
      CursorsInRange(o, s);
      ActKeeps(o, s, actions[0]);
      var s1 := Act(o, s, actions[0]);
      var s2 := RunAll(o, s1, actions[1..]);
      ExtendsTwice(s.store, s1.store, s2.store);
      s2
  }
}

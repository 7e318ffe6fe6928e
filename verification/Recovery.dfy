/** A new executor over a surviving log: what it replays, where it goes live, and
    how recorded timeouts unwind. */
module Recovery {
  import opened Text
  import opened Records
  import opened History
  import opened Executors
  import opened Durability
  import opened Reachable
  import opened Guarantees

  // ---- unwinding to a recorded timeout --------------------------------------------------------

  /** Any call an orchestration could make, with any builder and environment. */
  datatype AnyCall = AnyCall(kind: Kind, id: string, build: Record, deferred: bool, env: Env)

  ghost predicate TimeoutIsNext(run: Run, attempt: string) {
    && run.cursor <= |run.events| && run.fatal.None? && !run.suspended
    && PeekAt(run).Some?
    && var next := PeekAt(run).value;
       next.kind == Result && next.errorKind == Timeout && next.id == attempt
  }

  /** A run in which only engine records were skipped. */
  ghost predicate SameButSkipped(run: Run, run': Run) {
    run' == run || (run.cursor <= |run.events| && run' == run.(cursor := Skip(run.events, run.cursor)))
  }

  /** The engine after a list of calls. */
  function CallAll(run: Run, store: seq<Chapter>, calls: seq<AnyCall>): Step
    requires run.cursor <= |run.events|
    decreases |calls|
  {
    if calls == [] then Quiet(run, store, Refused(CacheMiss), false)
    else
      var c := calls[0];
      var s := RecordEvent(run, store, c.kind, c.id, c.build, c.deferred, c.env);
      if s.run.cursor <= |s.run.events| then CallAll(s.run, s.store, calls[1..]) else s
  }

  lemma {:induction false} OneBelowTimeout(run: Run, store: seq<Chapter>, attempt: string, c: AnyCall)
    requires TimeoutIsNext(run, attempt) && Below(c.id, attempt)
    ensures var s := RecordEvent(run, store, c.kind, c.id, c.build, c.deferred, c.env);
            && s.store == store && !s.built && s.response in {Refused(Boundary), Refused(Interrupted)}
            && SameButSkipped(run, s.run) && TimeoutIsNext(s.run, attempt) && PeekAt(s.run) == PeekAt(run)
            && Skip(s.run.events, s.run.cursor) == Skip(run.events, run.cursor) && s.run.pending == run.pending
               && s.run.ordinal == run.ordinal
  {
    hide Frontier, Consume;
    SkipIsStable(run.events, run.cursor);
    assert c.id != attempt;
  }

  lemma {:induction false} SkippedNothing(run: Run)
    ensures SameButSkipped(run, run)
  {
  }

  lemma {:induction false} SkippedTwice(a: Run, b: Run, c: Run)
    requires SameButSkipped(a, b) && SameButSkipped(b, c)
    ensures SameButSkipped(a, c)
  {
    hide Skip;
    if a.cursor <= |a.events| { SkipIsStable(a.events, a.cursor); }
  }

  lemma {:induction false} CompletionConsumes(run: Run, store: seq<Chapter>, attempt: string, done: AnyCall)
    requires TimeoutIsNext(run, attempt) && done.kind == Result && done.id == attempt && !done.env.cancelled
    ensures var end := RecordEvent(run, store, done.kind, done.id, done.build, done.deferred, done.env);
            && end.response == Got(PeekAt(run).value) && end.store == store && !end.built
            && end.run.cursor == Skip(run.events, run.cursor) + 1 && end.run.pending == run.pending
               && end.run.ordinal == run.ordinal
  {
    hide Frontier, AnchorAfter, TimeoutAfter, Skip;
  }

  /** When the next record is the timeout of attempt A, nothing the orchestration
      does below A, whatever it asks for and however it treats the errors, records
      anything or moves past that record; and A's own completion consumes it. */
  lemma {:induction false} RecordedTimeoutUnwinds(run: Run, store: seq<Chapter>, attempt: string,
                                                  calls: seq<AnyCall>, done: AnyCall)
    requires TimeoutIsNext(run, attempt)
    requires forall i :: 0 <= i < |calls| ==> Below(calls[i].id, attempt)
    requires done.kind == Result && done.id == attempt && !done.env.cancelled
    ensures var s := CallAll(run, store, calls);
            && s.store == store && SameButSkipped(run, s.run) && TimeoutIsNext(s.run, attempt)
            && var end := RecordEvent(s.run, s.store, done.kind, done.id, done.build, done.deferred, done.env);
               && end.response == Got(PeekAt(run).value) && end.store == store && !end.built
               && end.run.cursor == Skip(run.events, run.cursor) + 1 && end.run.pending == run.pending
                  && end.run.ordinal == run.ordinal
    decreases |calls|
  {
    hide RecordEvent, Skip, SameButSkipped, PeekAt;
    if calls == [] {
      SkippedNothing(run);
      CompletionConsumes(run, store, attempt, done);
    } else {
      var c := calls[0];
      var s := RecordEvent(run, store, c.kind, c.id, c.build, c.deferred, c.env);
      OneBelowTimeout(run, store, attempt, c);
      assert forall i :: 0 <= i < |calls| - 1 ==> calls[1..][i] == calls[i + 1];
      RecordedTimeoutUnwinds(s.run, s.store, attempt, calls[1..], done);
      SkippedTwice(run, s.run, CallAll(s.run, s.store, calls[1..]).run);
    }
  }

  // ---- replaying a surviving log ----------------------------------------------------------------

  /** What a recovering orchestration brings to one of its requests: its own pick
      among the options, and a builder it does not expect to be evaluated. */
  datatype Input = Input(choice: Key, build: Record, deferred: bool, env: Env)

  /** The event requested when history offers none of the options. */
  ghost function Pick(options: set<Key>, choice: Key): Key
    requires options != {}
    ensures Pick(options, choice) in options
  {
    if choice in options then choice else var k :| k in options; k
  }

  /** One request of the orchestration, and, should history cut it short, the
      completion of the attempt that timed out. */
  ghost function Move(o: Orchestration, store: seq<Chapter>, e: Executor, input: Input): Step
    requires e.run.cursor <= |e.run.events| && o(e.got).Ask? && o(e.got).options != {}
  {
    var k := Choose(e.run, o(e.got).options, Pick(o(e.got).options, input.choice));
    var s := RecordEvent(ReachRestart(e.run, k.kind, k.id), store, k.kind, k.id, input.build, input.deferred,
                         input.env);
    if s.response == Refused(Boundary) && s.run.cursor <= |s.run.events| && PeekAt(s.run).Some?
    then RecordEvent(s.run, store, Result, PeekAt(s.run).value.id, input.build, input.deferred, input.env)
    else s
  }

  /** An executor in working order, replaying. */
  ghost predicate Replaying(o: Orchestration, origin: seq<Chapter>, store: seq<Chapter>, e: Executor) {
    && Deterministic(o) && OriginOk(o, origin) && StoreOk(o, origin, store) && ExecutorOk(o, origin, store, e)
    && (forall g :: o(g).Ask? ==> o(g).options != {})
    && e.run.fatal.None? && !e.run.suspended && PeekAt(e.run).Some?
  }

  /** Replay gets past the next record. */
  ghost predicate PassesNext(o: Orchestration, origin: seq<Chapter>, e: Executor) {
    e.run.cursor <= |e.run.events| && PeekAt(e.run).Some? && Follows(o, RestartIds(origin), e.got, PeekAt(e.run).value)
  }

  lemma {:induction false} ReplayingAsks(o: Orchestration, origin: seq<Chapter>, store: seq<Chapter>, e: Executor)
    requires Replaying(o, origin, store, e)
    ensures o(e.got).Ask? && o(e.got).options != {}
    ensures e.run.cursor <= |e.run.events| && |e.got| < |VisibleLog(store)|
    ensures VisibleLog(store)[|e.got|] == PeekAt(e.run).value
  {
    hide ExecutorOk, StoreOk, OriginOk, Skip;
    NextIsJustified(o, origin, store, e);
    ReplayPosition(o, origin, store, e);
  }

  /** A request that history answers. */
  lemma {:induction false} Answered(run: Run, store: seq<Chapter>, k: Key, input: Input)
    requires run.cursor <= |run.events| && run.fatal.None? && !run.suspended && !input.env.cancelled
    requires PeekAt(run).Some? && KeyOf(PeekAt(run).value) == k
    ensures var run1 := run.(cursor := Skip(run.events, run.cursor));
            RecordEvent(run, store, k.kind, k.id, input.build, input.deferred, input.env)
            == Quiet(Consume(run1, PeekAt(run).value), store, Got(PeekAt(run).value), false)
  {
    hide Frontier, Consume;
  }

  /** A request that history cut short. */
  lemma {:induction false} CutShort(run: Run, store: seq<Chapter>, k: Key, input: Input)
    requires run.cursor <= |run.events| && run.fatal.None? && !run.suspended && !input.env.cancelled
    requires PeekAt(run).Some?
    requires var next := PeekAt(run).value; next.kind == Result && next.errorKind == Timeout && Below(k.id, next.id)
    ensures var run1 := run.(cursor := Skip(run.events, run.cursor));
            && RecordEvent(run, store, k.kind, k.id, input.build, input.deferred, input.env) == Quiet(run1, store,
                Refused(Boundary), false)
            && PeekAt(run1) == PeekAt(run)
  {
    hide Frontier, Consume;
    SkipIsStable(run.events, run.cursor);
  }

  /** The request a replaying orchestration makes: never a restart target that
      history went past. */
  lemma {:induction false} ReplayRequest(o: Orchestration, origin: seq<Chapter>, store: seq<Chapter>, e: Executor,
                                         choice: Key)
    requires Replaying(o, origin, store, e) && PassesNext(o, origin, e)
    requires e.run.cursor <= |e.run.events| && o(e.got).Ask? && o(e.got).options != {}
    ensures PeekAt(e.run).Some?
    ensures var k, next := Choose(e.run, o(e.got).options, Pick(o(e.got).options, choice)), PeekAt(e.run).value;
            var run1 := ReachRestart(e.run, k.kind, k.id);
            && k in o(e.got).options
            && (KeyOf(next) == k
                || (run1 == e.run && next.kind == Result && next.errorKind == Timeout && Below(k.id, next.id)))
            && run1.fatal.None? && !run1.suspended && run1.cursor == e.run.cursor && run1.events == e.run.events
               && PeekAt(run1) == PeekAt(e.run)
  {
    hide ExecutorOk, StoreOk, OriginOk, VisibleLog, Skip, Legal, Deterministic;
    NextIsJustified(o, origin, store, e);
    RestartsKnown(o, origin, store, e);
  }

  lemma {:induction false} RestartsKnown(o: Orchestration, origin: seq<Chapter>, store: seq<Chapter>, e: Executor)
    requires ExecutorOk(o, origin, store, e)
    ensures e.run.restarts == RestartIds(origin) && e.run.restart == LastRestart(origin)
  {
    hide Holds, Tracks, Legal, RestartIds, LastRestart, VisibleLog, Replays;
  }

  /** The next record of the log is returned, as it is, and nothing else happens. */
  lemma {:induction false} ReplayStep(o: Orchestration, origin: seq<Chapter>, store: seq<Chapter>, e: Executor,
                                      input: Input)
    requires Replaying(o, origin, store, e) && PassesNext(o, origin, e) && !input.env.cancelled
    requires e.run.cursor <= |e.run.events| && o(e.got).Ask? && o(e.got).options != {}
    ensures var s := Move(o, store, e, input);
            && |e.got| < |VisibleLog(store)| && s.response == Got(VisibleLog(store)[|e.got|])
            && s.store == store && !s.built && s.passed == [] && !s.adopted
            && s.run.fatal.None? && !s.run.suspended
            && ExecutorOk(o, origin, store, After(e, s, true))
  {
    hide ExecutorOk, StoreOk, OriginOk, RecordEvent, VisibleLog, Skip, Legal, Deterministic, PassesNext,
         ReachRestart, Consume, Replaying, After;
    ReplayingAsks(o, origin, store, e);
    ReplayRequest(o, origin, store, e, input.choice);
    var next := PeekAt(e.run).value;
    var k := Choose(e.run, o(e.got).options, Pick(o(e.got).options, input.choice));
    var run1 := ReachRestart(e.run, k.kind, k.id);
    if KeyOf(next) == k {
      Answered(run1, store, k, input);
      ConsumeFields(run1.(cursor := Skip(run1.events, run1.cursor)), next);
      CallFromReplay(o, origin, store, e, k, input);
    } else {
      CutShort(run1, store, k, input);
      var run2 := run1.(cursor := Skip(run1.events, run1.cursor));
      Answered(run2, store, KeyOf(next), input);
      ConsumeFields(run2.(cursor := Skip(run2.events, run2.cursor)), next);
      UnwindFromReplay(o, origin, store, e, input);
    }
  }

  lemma {:induction false} CallFromReplay(o: Orchestration, origin: seq<Chapter>, store: seq<Chapter>, e: Executor,
                                          k: Key, input: Input)
    requires Replaying(o, origin, store, e) && k == KeyOf(PeekAt(e.run).value) && o(e.got).Ask? && k in o(e.got).options
    ensures Kept(o, origin, store, e,
                 RecordEvent(ReachRestart(e.run, k.kind, k.id), store, k.kind, k.id, input.build, input.deferred,
                             input.env), true)
  {
    hide ExecutorOk, StoreOk, OriginOk, RecordEvent, Skip, ReachRestart, Kept;
    CallKeeps(o, origin, store, e, k, input.build, input.deferred, input.env);
  }

  lemma {:induction false} UnwindFromReplay(o: Orchestration, origin: seq<Chapter>, store: seq<Chapter>,
                                            e: Executor, input: Input)
    requires Replaying(o, origin, store, e) && PassesNext(o, origin, e) && o(e.got).Ask?
    requires KeyOf(PeekAt(e.run).value) !in o(e.got).options && PeekAt(e.run).value.kind == Result
    ensures var run2, next := e.run.(cursor := Skip(e.run.events, e.run.cursor)), PeekAt(e.run).value;
            && run2.cursor <= |run2.events|
            && Kept(o, origin, store, e,
                    RecordEvent(run2, store, Result, next.id, input.build, input.deferred, input.env), true)
  {
    hide ExpandAll, Visible, VisibleLog, Skip, Legal, ClearAll, Clear, Slots, LastRestart, RestartIds, StoreOk,
         OriginOk, Replays, RecordEvent, Handed, Holds;
    var next := PeekAt(e.run).value;
    var run2 := e.run.(cursor := Skip(e.run.events, e.run.cursor));
    var e2 := e.(run := run2);
    SkipKeeps(o, origin, store, e);
    if RestartPending(e.run) && |e.got| >= |VisibleLog(origin)| {
      AtRestart(o, origin, store, e);
      NewestIsKnown(origin);
    }
    RecordEventKeeps(o, origin, store, e2, Result, next.id, input.build, input.deferred, input.env);
    AfterAtRun(e, run2, RecordEvent(run2, store, Result, next.id, input.build, input.deferred, input.env), true);
  }

  // ---- the whole replay -----------------------------------------------------------------------------

  /** An executor after some requests, the store it left, and whether any builder
      was evaluated. */
  datatype Replayed = Replayed(e: Executor, store: seq<Chapter>, built: bool)

  /** As many requests as there are inputs, or as many as history answers. */
  ghost function Replay(o: Orchestration, store: seq<Chapter>, e: Executor, inputs: seq<Input>): Replayed
    decreases |inputs|
  {
    if inputs == [] || e.run.cursor > |e.run.events| || PeekAt(e.run).None? || o(e.got).Done? || o(e.got).options == {}
    then Replayed(e, store, false)
    else
      var s := Move(o, store, e, inputs[0]);
      var r := Replay(o, s.store, After(e, s, true), inputs[1..]);
      r.(built := s.built || r.built)
  }

  ghost predicate Recovering(o: Orchestration, origin: seq<Chapter>, store: seq<Chapter>, e: Executor) {
    && Deterministic(o) && OriginOk(o, origin) && StoreOk(o, origin, store) && ExecutorOk(o, origin, store, e)
    && (forall g :: o(g).Ask? ==> o(g).options != {})
    && e.run.fatal.None? && !e.run.suspended
    && e.loaded == |store| && e.run.ordinal == |store| && e.run.pending == [] && !e.run.live && !e.adopted
  }

  lemma {:induction false} RecoveringAtEdge(o: Orchestration, origin: seq<Chapter>, store: seq<Chapter>, e: Executor)
    requires Recovering(o, origin, store, e)
    ensures e.run.cursor <= |e.run.events|
    ensures PeekAt(e.run).None? ==> e.got == VisibleLog(store)
    ensures PeekAt(e.run).Some? ==> |e.got| < |VisibleLog(store)| && e.got == VisibleLog(store)[..|e.got|]
  {
    hide ExpandAll, Visible, VisibleLog, Skip, Legal, ClearAll, Clear, Slots, LastRestart, Handed, OriginOk;
    if PeekAt(e.run).None? {
      FrontierHanded(origin, store, e);
      assert store[..|store|] == store && VisibleLog(store) + [] == VisibleLog(store);
    } else {
      ReplayPosition(o, origin, store, e);
    }
  }

  /** The next `n` records from `k` on, as far as there are any, are ones replay gets
      past. */
  ghost predicate FollowsFor(o: Orchestration, restarts: set<string>, log: seq<Record>, k: nat, n: nat) {
    forall i :: k <= i < k + n && i < |log| ==> Follows(o, restarts, log[..i], log[i])
  }

  /** Recovery is deterministic. Whatever the recovering orchestration would
      build, and whatever the clock and the network do, each of its requests is
      answered with the next durable record, as committed; no builder runs, nothing
      is written, and it stands at the live edge, with nothing pending, exactly
      when the durable records are used up. This holds as long as the records are
      ones replay gets past. */
  lemma {:induction false} RecoveryIsDeterministic(o: Orchestration, origin: seq<Chapter>, store: seq<Chapter>,
                                                   e: Executor, inputs: seq<Input>)
    requires Recovering(o, origin, store, e)
    requires FollowsFor(o, RestartIds(origin), VisibleLog(store), |e.got|, |inputs|)
    requires forall i :: 0 <= i < |inputs| ==> !inputs[i].env.cancelled
    ensures var r, log := Replay(o, store, e, inputs), VisibleLog(store);
            && Recovering(o, origin, store, r.e) && r.store == store && !r.built
            && r.e.got == log[..if |e.got| + |inputs| < |log| then |e.got| + |inputs| else |log|]
            && (PeekAt(r.e.run).None? <==> |e.got| + |inputs| >= |log|)
    decreases |inputs|
  {
    hide ExecutorOk, StoreOk, OriginOk, VisibleLog, Skip, Legal, Deterministic, Follows, Move;
    RecoveringAtEdge(o, origin, store, e);
    var log := VisibleLog(store);
    if PeekAt(e.run).None? {
      assert log[..|log|] == log;
    } else if inputs != [] {
      ReplayingAsks(o, origin, store, e);
      assert PassesNext(o, origin, e);
      ReplayStep(o, origin, store, e, inputs[0]);
      var s := Move(o, store, e, inputs[0]);
      var e1 := After(e, s, true);
      StaysLoaded(o, origin, store, e, inputs[0]);
      assert forall i :: 0 <= i < |inputs| - 1 ==> inputs[1..][i] == inputs[i + 1];
      assert e1.got == log[..|e.got| + 1];
      RecoveryIsDeterministic(o, origin, store, e1, inputs[1..]);
    }
  }

  lemma {:induction false} StaysLoaded(o: Orchestration, origin: seq<Chapter>, store: seq<Chapter>, e: Executor,
                                       input: Input)
    requires Replaying(o, origin, store, e) && Recovering(o, origin, store, e) && PassesNext(o, origin, e)
             && !input.env.cancelled
    requires e.run.cursor <= |e.run.events| && o(e.got).Ask? && o(e.got).options != {}
    ensures var s := Move(o, store, e, input);
            s.run.ordinal == e.run.ordinal && s.run.pending == [] && !s.run.live
  {
    hide ExecutorOk, StoreOk, OriginOk, RecordEvent, VisibleLog, Skip, Legal, Deterministic, PassesNext, Consume,
         Replaying;
    ReplayRequest(o, origin, store, e, input.choice);
    var next := PeekAt(e.run).value;
    var k := Choose(e.run, o(e.got).options, Pick(o(e.got).options, input.choice));
    var run1 := ReachRestart(e.run, k.kind, k.id);
    if KeyOf(next) == k {
      Answered(run1, store, k, input);
      ConsumeFields(run1.(cursor := Skip(run1.events, run1.cursor)), next);
    } else {
      CutShort(run1, store, k, input);
      var run2 := run1.(cursor := Skip(run1.events, run1.cursor));
      Answered(run2, store, KeyOf(next), input);
      ConsumeFields(run2.(cursor := Skip(run2.events, run2.cursor)), next);
    }
  }

  /** At the end of the durable records the next request is live: its builder
      runs. */
  lemma {:induction false} LiveAtTheEdge(o: Orchestration, origin: seq<Chapter>, store: seq<Chapter>, e: Executor,
                                         input: Input)
    requires Recovering(o, origin, store, e) && o(e.got).Ask? && o(e.got).options != {}
    requires e.run.cursor <= |e.run.events| && PeekAt(e.run).None? && !input.env.cancelled && !input.env.expired
    ensures Move(o, store, e, input).built && Move(o, store, e, input).run.live
  {
    hide ExpandAll, Visible, VisibleLog, Legal, ClearAll, Slots, LastRestart, RestartIds, Handed, OriginOk, StoreOk,
         Acceptable, Adoptable, Stamp;
    RestartsKnown(o, origin, store, e);
    if RestartPending(e.run) {
      AtRestart(o, origin, store, e);
      NewestIsKnown(origin);
    }
    var k := Choose(e.run, o(e.got).options, Pick(o(e.got).options, input.choice));
    var run1 := ReachRestart(e.run, k.kind, k.id);
    SkipIsStable(run1.events, run1.cursor);
    EntersLive(run1.(cursor := Skip(run1.events, run1.cursor)), store, k, input);
  }

  lemma {:induction false} AppendStaysLive(run: Run, store: seq<Chapter>, rec: Record, now: Time, net: Net)
    ensures var s := Append(run, store, rec, now, net);
            s.built && s.run.live == run.live && s.response != Refused(Boundary)
  {
    hide Acceptable, Adoptable, Stamp, AnchorAfter, TimeoutAfter, Put;
  }

  lemma {:induction false} EnterStaysLive(run: Run, store: seq<Chapter>, rec: Record, deferred: bool, env: Env)
    ensures var s := Enter(run, store, rec, deferred, env);
            s.built && s.run.live == run.live && s.response != Refused(Boundary)
  {
    hide Append, Deferred;
    AppendStaysLive(run, store, Blank(Activation, "").(versions := Some(run.versions)), env.now, env.activationNet);
    var a := Activate(run, store, env.now, env.activationNet);
    AppendStaysLive(a.run, a.store, rec, env.now, env.net);
  }

  lemma {:induction false} EntersLive(run: Run, store: seq<Chapter>, k: Key, input: Input)
    requires run.cursor <= |run.events| && !run.inspecting && !RestartPending(run) && !input.env.expired
    ensures var s := Frontier(run, store, k.kind, k.id, input.build, input.deferred, input.env);
            s.built && s.run.live && s.response != Refused(Boundary)
  {
    hide Enter;
    var rec := input.build.(kind := k.kind, id := k.id, version := PATTERN_VERSION,
                            at := if input.build.at == ZERO_TIME then input.env.now else input.build.at);
    EnterStaysLive(run.(live := true), store, rec, input.deferred, input.env);
  }

  // ---- recovery from any crash point ---------------------------------------------------------------

  /** The executor that starts over a surviving log. */
  ghost function Recovered(store: seq<Chapter>, activation: string, versions: Versions, now: Time, net: Net): Executor {
    Fresh(store, Begin(store, activation, versions, false, now, net))
  }

  ghost predicate NeverStuck(o: Orchestration) { forall g :: o(g).Ask? ==> o(g).options != {} }

  lemma {:induction false} StartsRecovering(o: Orchestration, s: System, activation: string, versions: Versions,
                                            now: Time, net: Net)
    requires IsReachable(o, s) && NeverStuck(o) && ExpandAll(s.store) != [] && !EndedOversized(s.store)
    ensures var b := Begin(s.store, activation, versions, false, now, net);
            b.response == Got(ExpandAll(s.store)[0]) && b.store == s.store && !b.built
    ensures Recovering(o, s.origin, s.store, Recovered(s.store, activation, versions, now, net))
    ensures Recovered(s.store, activation, versions, now, net).got == []
  {
    hide ExpandAll, LastRestart, RestartIds, StoreOk, ExecutorOk, OriginOk, Deterministic, Append, EndedOversized,
         Acceptable;
    ReachableInv(o, s);
    HeaderIsFirst(o, s.origin, s.store);
    BeginKeeps(o, s.origin, s.store, activation, versions, now, net);
  }

  /** Once dead, an executor answers nothing. */
  lemma {:induction false} DeadReplay(o: Orchestration, store: seq<Chapter>, e: Executor, inputs: seq<Input>)
    requires e.run.fatal.Some?
    ensures var r := Replay(o, store, e, inputs);
            r.e.run.fatal == e.run.fatal && r.e.got == e.got && r.store == store && !r.built
    decreases |inputs|
  {
    hide RecordEvent, ReachRestart, Skip, PeekAt;
    if inputs != [] && e.run.cursor <= |e.run.events| && PeekAt(e.run).Some? && o(e.got).Ask?
       && o(e.got).options != {} {
      var k := Choose(e.run, o(e.got).options, Pick(o(e.got).options, inputs[0].choice));
      DeadCall(e.run, store, k.kind, k.id, inputs[0].build, inputs[0].deferred, inputs[0].env);
      var run1 := ReachRestart(e.run, k.kind, k.id);
      DeadCall(run1, store, k.kind, k.id, inputs[0].build, inputs[0].deferred, inputs[0].env);
      var s := RecordEvent(run1, store, k.kind, k.id, inputs[0].build, inputs[0].deferred, inputs[0].env);
      if s.response == Refused(Boundary) && PeekAt(run1).Some? {
        DeadCall(run1, store, Result, PeekAt(run1).value.id, inputs[0].build, inputs[0].deferred, inputs[0].env);
      }
      DeadReplay(o, store, After(e, Move(o, store, e, inputs[0]), true), inputs[1..]);
    }
  }

  /** Where a restart target is asked for, the log has something else. */
  ghost predicate MissesRestart(o: Orchestration, restarts: set<string>, g: seq<Record>, r: Record) {
    o(g).Ask? && exists id ::
          id in restarts && Key(Continuation, id) in o(g).options && KeyOf(r) != Key(Continuation, id)
  }

  function FaultOf(missed: bool): Fault { if missed then RestartMissed else NonDeterministic }

  /** The first record that replay does not get past. */
  ghost predicate StuckAt(o: Orchestration, restarts: set<string>, log: seq<Record>, m: nat) {
    && m < |log| && !Follows(o, restarts, log[..m], log[m])
    && forall i :: 0 <= i < m ==> Follows(o, restarts, log[..i], log[i])
  }

  /** At a restart target, history goes on with something else. */
  lemma {:induction false} StopsAtTarget(run: Run, store: seq<Chapter>, id: string, input: Input)
    requires run.cursor <= |run.events| && run.fatal.None? && !run.suspended && id in run.restarts
    requires PeekAt(run).Some? && KeyOf(PeekAt(run).value) != Key(Continuation, id)
    ensures var s := RecordEvent(ReachRestart(run, Continuation, id), store, Continuation, id, input.build,
                                 input.deferred, input.env);
            s.run.fatal == Some(RestartMissed) && s.response == Refused(Fatal) && s.store == store && !s.built
  {
    hide Frontier, Consume, Skip;
  }

  /** Something else stands where an event is asked for, and cuts nothing short. */
  lemma {:induction false} StopsElsewhere(run: Run, store: seq<Chapter>, k: Key, input: Input)
    requires run.cursor <= |run.events| && run.fatal.None? && !run.suspended && !input.env.cancelled
    requires PeekAt(run).Some? && KeyOf(PeekAt(run).value) != k
             && !(TimedOut(PeekAt(run).value) && Below(k.id, PeekAt(run).value.id))
    ensures var s := RecordEvent(run, store, k.kind, k.id, input.build, input.deferred, input.env);
            s.run.fatal == Some(NonDeterministic) && s.response == Refused(Fatal) && s.store == store && !s.built
  {
    hide Frontier, Consume, Skip, StartsWith;
  }

  /** A record that replay does not get past stops the executor. */
  lemma {:induction false} StopsHere(o: Orchestration, origin: seq<Chapter>, store: seq<Chapter>, e: Executor,
                                     input: Input)
    requires Replaying(o, origin, store, e) && !input.env.cancelled && e.run.cursor <= |e.run.events|
    requires !Follows(o, RestartIds(origin), e.got, PeekAt(e.run).value)
    ensures o(e.got).Ask? && o(e.got).options != {}
    ensures var s := Move(o, store, e, input);
            && s.run.fatal == Some(FaultOf(MissesRestart(o, RestartIds(origin), e.got, PeekAt(e.run).value)))
            && s.response == Refused(Fatal) && s.store == store && !s.built
  {
    hide ExpandAll, Visible, VisibleLog, Skip, Legal, ClearAll, Clear, Slots, Handed, RecordEvent, ReachRestart,
         RestartIds, LastRestart, StoreOk, ExecutorOk, ReachesTarget;
    NextIsJustified(o, origin, store, e);
    RestartsKnown(o, origin, store, e);
    var next := PeekAt(e.run).value;
    var k := Choose(e.run, o(e.got).options, Pick(o(e.got).options, input.choice));
    if MissesRestart(o, RestartIds(origin), e.got, next) {
      var id :| id in RestartIds(origin) && Key(Continuation, id) in o(e.got).options
          && KeyOf(next) != Key(Continuation, id);
      assert o(e.got).options == {Key(Continuation, id)};
      assert k == Key(Continuation, id);
      StopsAtTarget(e.run, store, id, input);
    } else {
      assert KeyOf(next) !in o(e.got).options && k in o(e.got).options;
      if TimedOut(next) && Below(k.id, next.id) { assert Cuts(o(e.got), next.id); }
      assert ReachRestart(e.run, k.kind, k.id) == e.run by { NoTarget(e.run, k); }
      StopsElsewhere(e.run, store, k, input);
    }
  }

  lemma {:induction false} NoTarget(run: Run, k: Key)
    requires run.cursor <= |run.events| && (k.kind == Continuation ==> k.id !in run.restarts)
    ensures ReachRestart(run, k.kind, k.id) == run
  {
    hide Skip;
  }

  lemma {:induction false} DiesWhereStuck(o: Orchestration, origin: seq<Chapter>, store: seq<Chapter>, e: Executor,
                                          inputs: seq<Input>, m: nat)
    requires Recovering(o, origin, store, e) && StuckAt(o, RestartIds(origin), VisibleLog(store), m)
    requires |e.got| <= m < |e.got| + |inputs|
    requires forall i :: 0 <= i < |inputs| ==> !inputs[i].env.cancelled
    ensures var r, log := Replay(o, store, e, inputs), VisibleLog(store);
            && r.e.run.fatal == Some(FaultOf(MissesRestart(o, RestartIds(origin), log[..m], log[m])))
            && r.e.got == log[..m] && r.store == store && !r.built
    decreases |inputs|
  {
    hide ExecutorOk, StoreOk, OriginOk, VisibleLog, Skip, Legal, Deterministic, Follows, Move, MissesRestart,
         RestartIds;
    RecoveringAtEdge(o, origin, store, e);
    var log := VisibleLog(store);
    assert log[..|log|] == log;
    ReplayingAsks(o, origin, store, e);
    if |e.got| == m {
      StopsHere(o, origin, store, e, inputs[0]);
      DeadReplay(o, store, After(e, Move(o, store, e, inputs[0]), true), inputs[1..]);
    } else {
      assert PassesNext(o, origin, e);
      ReplayStep(o, origin, store, e, inputs[0]);
      StaysLoaded(o, origin, store, e, inputs[0]);
      assert forall i :: 0 <= i < |inputs| - 1 ==> inputs[1..][i] == inputs[i + 1];
      DiesWhereStuck(o, origin, store, After(e, Move(o, store, e, inputs[0]), true), inputs[1..], m);
    }
  }

  lemma {:induction false} FirstStuck(o: Orchestration, restarts: set<string>, log: seq<Record>) returns (m: nat)
    requires !Replays(o, restarts, log)
    ensures StuckAt(o, restarts, log, m)
  {
    hide Follows;
    m := 0;
    while Follows(o, restarts, log[..m], log[m])
      invariant m < |log| && forall i :: 0 <= i < m ==> Follows(o, restarts, log[..i], log[i])
      decreases |log| - m
    {
      m := m + 1;
    }
  }

  /** Take any reachable system and start one more executor over what its log
      holds. It replays the whole log without a fault, building and writing
      nothing, if and only if the log is one that replay gets through: every
      record is asked for where it stands or is the timeout of an attempt around
      what is asked for, and every restart target it reaches is followed by that
      restart's continuation. Otherwise it stops at the first record of which this
      is not so, having built and written nothing. */
  lemma {:induction false} RecoversExactlyWhen(o: Orchestration, s: System, activation: string, versions: Versions,
                                               now: Time, net: Net, inputs: seq<Input>)
    requires IsReachable(o, s) && NeverStuck(o) && ExpandAll(s.store) != [] && !EndedOversized(s.store)
    requires |inputs| == |VisibleLog(s.store)| && forall i :: 0 <= i < |inputs| ==> !inputs[i].env.cancelled
    ensures var r, log := Replay(o, s.store, Recovered(s.store, activation, versions, now, net), inputs),
            VisibleLog(s.store);
            && r.store == s.store && !r.built
            && (Replays(o, RestartIds(s.origin), log) <==> r.e.run.fatal.None?)
            && (Replays(o, RestartIds(s.origin), log) <==> r.e.got == log)
            && (!Replays(o, RestartIds(s.origin), log) ==>
                  exists m: nat :: && StuckAt(o, RestartIds(s.origin), log, m) && r.e.got == log[..m]
                                   && r.e.run.fatal == Some(FaultOf(MissesRestart(o, RestartIds(s.origin), log[..m],
                                       log[m]))))
  {
    hide ExpandAll, LastRestart, RestartIds, StoreOk, ExecutorOk, OriginOk, Deterministic, VisibleLog, Begin,
         Replay, IsReachable, Fresh, Follows, MissesRestart;
    StartsRecovering(o, s, activation, versions, now, net);
    var e := Recovered(s.store, activation, versions, now, net);
    var log := VisibleLog(s.store);
    if Replays(o, RestartIds(s.origin), log) {
      RecoveryIsDeterministic(o, s.origin, s.store, e, inputs);
      assert log[..|log|] == log;
    } else {
      var m := FirstStuck(o, RestartIds(s.origin), log);
      DiesWhereStuck(o, s.origin, s.store, e, inputs, m);
      assert |log[..m]| == m < |log|;
    }
  }

  /** An orchestration that never calls anything from a handler, and none of whose
      requests can fail without a record. */
  ghost predicate Plain(o: Orchestration) {
    forall g :: o(g).Ask? ==> !o(g).fallible && forall id :: !CutsHandler(o(g), id)
  }

  /** Such a job, never restarted, always recovers: whatever happened to it, a new
      executor replays its whole log without a fault. */
  lemma {:induction false} PlainJobsRecover(o: Orchestration, s: System, activation: string, versions: Versions,
                                            now: Time, net: Net, inputs: seq<Input>)
    requires IsReachable(o, s) && NeverStuck(o) && ExpandAll(s.store) != [] && !EndedOversized(s.store)
    requires Plain(o) && RestartIds(s.origin) == {}
    requires |inputs| == |VisibleLog(s.store)| && forall i :: 0 <= i < |inputs| ==> !inputs[i].env.cancelled
    ensures var r := Replay(o, s.store, Recovered(s.store, activation, versions, now, net), inputs);
            r.store == s.store && !r.built && r.e.run.fatal.None? && r.e.got == VisibleLog(s.store)
  {
    hide IsReachable, VisibleLog, RestartIds, ExpandAll, EndedOversized, Replay, Recovered, NeverStuck, HeaderFirst,
         AllAcceptable;
    ReachableInv(o, s);
    LegalReplays(o, VisibleLog(s.store));
    RecoversExactlyWhen(o, s, activation, versions, now, net, inputs);
  }

  lemma {:induction false} LegalReplays(o: Orchestration, log: seq<Record>)
    requires Plain(o) && Legal(o, log)
    ensures Replays(o, {}, log)
  {
    hide CutsHandler, Cuts;
    forall i | 0 <= i < |log| ensures Follows(o, {}, log[..i], log[i]) { assert Justified(o, log[..i], log[i]); }
  }

  /** A job that ended because a payload was too large is not replayed at all. */
  lemma {:induction false} OversizedJobsStayEnded(store: seq<Chapter>, activation: string, versions: Versions,
                                                  inspecting: bool, now: Time, net: Net)
    requires EndedOversized(store)
    ensures var b := Begin(store, activation, versions, inspecting, now, net);
            b.store == store && !b.built && b.response in {Refused(Ended), Refused(Malformed)}
  {
    hide Acceptable, ExpandAll, RestartIds, LastRestart;
  }
}

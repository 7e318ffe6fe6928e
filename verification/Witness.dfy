/** Steps for building concrete runs: one live executor, a network that delivers. */
module Witness {
  import opened Text
  import opened JsonText
  import opened Records
  import opened History
  import opened Executors
  import opened Durability
  import opened Reachable
  import opened Guarantees

  const VERSIONS := Versions(PATTERN_VERSION, "v1", map[])
  const GOOD := Net(Delivered, true)
  const ACTIVATION := "one"

  function Calm(now: Time): Env { Env(now, false, false, GOOD, GOOD) }

  function ActivationRecord(now: Time): Record {
    Blank(Activation, "").(versions := Some(VERSIONS), activation := ACTIVATION, at := now)
  }

  /** A run past its history: what is stored, pending and handed out. */
  ghost predicate Frontiers(run: Run, n: nat, pend: seq<Record>, activated: bool) {
    && run.cursor <= |run.events| && PeekAt(run).None? && run.fatal.None? && !run.suspended && !run.inspecting
    && run.ordinal == n && run.pending == pend && run.activated == activated && run.activation == ACTIVATION
       && run.versions == VERSIONS
    && !RestartPending(run)
  }

  ghost predicate Ready(o: Orchestration, s: System, cs: seq<Chapter>, pend: seq<Record>, got: seq<Record>,
                        activated: bool) {
    && IsReachable(o, s) && s.executors.Keys == {0} && s.store == cs
    && s.executors[0].got == got && Frontiers(s.executors[0].run, |cs|, pend, activated)
  }

  lemma {:induction false} ReadyMeans(o: Orchestration, s: System, cs: seq<Chapter>, pend: seq<Record>,
                                      got: seq<Record>, activated: bool)
    requires Ready(o, s, cs, pend, got, activated)
    ensures 0 in s.executors && IsReachable(o, s) && s.store == cs
  {
    hide IsReachable, Frontiers;
  }

  lemma {:induction false} OneMore(rs: seq<Record>, n: nat)
    requires 0 < n <= |rs|
    ensures rs[..n] == rs[..n - 1] + [rs[n - 1]]
  {
  }

  ghost predicate Live(s: System) { 0 in s.executors && s.executors[0].run.live }

  /** A record as its builder fills it in. */
  predicate Shaped(r: Record) {
    r.at != ZERO_TIME && r.version == PATTERN_VERSION && !EngineOnly(r.kind) && r.kind != Continuation
  }

  predicate Filled(r: Record) { Acceptable(r) && Shaped(r) }

  /** A request for one event. */
  ghost predicate AsksOne(r: Request) { r.Ask? ==> exists k :: r.options == {k} }

  lemma {:induction false} OneStandsTogether(o: Orchestration)
    requires forall g :: AsksOne(o(g))
    ensures StandTogether(o)
  {
    forall g, k, id | o(g).Ask? && k in o(g).options && Below(k.id, id) ensures Cuts(o(g), id) { assert AsksOne(o(g)); }
  }

  lemma {:induction false} DeclarationFits(r: Record)
    requires r == Blank(r.kind, r.id).(at := r.at, descriptor := r.descriptor) && r.id != ""
             && r.kind in {Scope, Task} && !r.descriptor.NoDescriptor?
    ensures Acceptable(r)
  {
    assert SnapshotOk(None);
  }

  lemma {:induction false} ControlFits(r: Record)
    requires r == Blank(r.kind, r.id).(at := r.at, attempt := r.attempt, errorKind := r.errorKind, rule := r.rule,
                                       disposition := r.disposition, retry := r.retry, wakeAt := r.wakeAt)
    requires r.id != "" && r.kind in {Attempt, Result, Catch, Handled, Decision}
    requires (r.kind == Attempt ==> r.attempt >= 1) && (r.kind in {Result, Handled} ==> r.errorKind != NoError)
    ensures Acceptable(r)
  {
    assert SnapshotOk(None);
  }

  /** The run at the live edge. */
  function AtEdge(run: Run): Run
    requires run.cursor <= |run.events|
  {
    run.(cursor := Skip(run.events, run.cursor), live := true)
  }

  lemma {:induction false} FilledAt(run: Run, store: seq<Chapter>, r: Record, asked: bool, now: Time)
    requires Frontiers(run, |store|, run.pending, run.activated) && Shaped(r)
    ensures RecordEvent(run, store, r.kind, r.id, r, asked, Calm(now)) == Enter(AtEdge(run), store, r, asked, Calm(now))
    ensures Frontiers(AtEdge(run), |store|, run.pending, run.activated)
  {
    hide Enter, Acceptable, Consume, Skip;
    SkipIsStable(run.events, run.cursor);
    assert r.(kind := r.kind, id := r.id, version := PATTERN_VERSION, at := r.at) == r;
  }

  /** A deferred record joins what is pending. */
  lemma {:induction false} EntersPending(run: Run, store: seq<Chapter>, r: Record, asked: bool, now: Time)
    requires Frontiers(run, |store|, run.pending, run.activated) && Filled(r) && Deferred(run, r, asked)
    ensures var step := RecordEvent(run, store, r.kind, r.id, r, asked, Calm(now));
            && step == Quiet(step.run, store, Got(r), true)
               && Frontiers(step.run, |store|, run.pending + [r], run.activated) && step.run.live
            && step.run.timeoutError == run.timeoutError
  {
    hide Acceptable, Skip, RecordEvent, Deferred;
    FilledAt(run, store, r, asked, now);
    SameDeferred(run, AtEdge(run), r, asked);
  }

  lemma {:induction false} SameDeferred(run: Run, run': Run, r: Record, asked: bool)
    requires run'.timeoutError == run.timeoutError
    ensures Deferred(run', r, asked) == Deferred(run, r, asked)
  {
  }

  /** What a durable record adds to the log. */
  function Landing(pend: seq<Record>, r: Record, activated: bool, now: Time): seq<Chapter> {
    (if activated then [] else [Execution(ActivationRecord(now), [])]) + [Execution(r.(activation := ACTIVATION), pend)]
  }

  lemma {:induction false} AppendLands(run: Run, store: seq<Chapter>, r: Record, now: Time)
    requires run.ordinal == |store| && run.activation == ACTIVATION && Acceptable(r) && r.at != ZERO_TIME
             && r.version == PATTERN_VERSION
    ensures var mine := r.(activation := ACTIVATION);
            && Acceptable(mine)
            && Append(run, store, r, now, GOOD)
               == Step(Commit(run, mine), store + [Execution(mine, Sent(run, r.kind))], Got(mine), true, [mine], false)
  {
    hide Commit, Adoptable, SnapshotOk, Blankspace;
  }

  lemma {:induction false} ActivationFits(now: Time)
    ensures Acceptable(ActivationRecord(now))
  {
  }

  lemma {:induction false} Activates(run: Run, store: seq<Chapter>, now: Time)
    requires Frontiers(run, |store|, run.pending, false) && now != ZERO_TIME
    ensures var a := Activate(run, store, now, GOOD);
            && a.response.Got? && a.store == store + [Execution(ActivationRecord(now), [])]
               && Frontiers(a.run, |store| + 1, run.pending, true)
            && a.passed == [ActivationRecord(now)] && !a.adopted && a.run.live == run.live
  {
    hide Append, Acceptable, Commit;
    var rec := Blank(Activation, "").(versions := Some(run.versions));
    var r := rec.(at := now);
    ActivationFits(now);
    AcceptableClear(r, ActivationRecord(now));
    AppendLands(run, store, r, now);
    SameStamp(run, store, rec, now);
    CommitKeeps(run, ActivationRecord(now));
  }

  lemma {:induction false} AcceptableClear(a: Record, b: Record)
    requires Acceptable(b) && a == b.(activation := a.activation)
    ensures Acceptable(a)
  {
    hide SnapshotOk, Blankspace;
  }

  lemma {:induction false} SameStamp(run: Run, store: seq<Chapter>, rec: Record, now: Time)
    requires rec.at == ZERO_TIME && now != ZERO_TIME
    ensures Append(run, store, rec, now, GOOD) == Append(run, store, rec.(at := now), now, GOOD)
  {
    hide Acceptable, Adoptable, Commit;
  }

  /** A durable record lands, behind an activation if there was none. */
  lemma {:induction false} EntersLog(run: Run, store: seq<Chapter>, r: Record, asked: bool, now: Time)
    requires Frontiers(run, |store|, run.pending, run.activated) && Acceptable(r) && r.at != ZERO_TIME
             && r.version == PATTERN_VERSION
    requires Attaches(r.kind) && now != ZERO_TIME
    ensures var step := ActivateThenAppend(run, store, r, Calm(now));
            && step.response == Got(r.(activation := ACTIVATION))
               && step.store == store + Landing(run.pending, r, run.activated, now)
            && Frontiers(step.run, |step.store|, [], true) && step.run.live == run.live
  {
    hide Append, Acceptable, Commit, Activate, ActivationRecord;
    var a := Activate(run, store, now, GOOD);
    var mine := r.(activation := ACTIVATION);
    if run.activated {
      StaysActive(run, store, now);
      AppendLands(run, store, r, now);
      CommitKeeps(run, mine);
    } else {
      Activates(run, store, now);
      AppendLands(a.run, a.store, r, now);
      CommitKeeps(a.run, mine);
      assert a.store + [Execution(mine, run.pending)] == store + Landing(run.pending, r, run.activated, now);
    }
  }

  lemma {:induction false} StaysActive(run: Run, store: seq<Chapter>, now: Time)
    requires run.activated
    ensures Activate(run, store, now, GOOD).run == run && Activate(run, store, now, GOOD).store == store
  {
    hide Append;
  }

  // ---- steps of the system ------------------------------------------------------------------------

  lemma {:induction false} OneExecutor(o: Orchestration, s: System, a: Action)
    requires IsReachable(o, s)
    ensures (forall x :: x in s.executors ==> s.executors[x].run.cursor <= |s.executors[x].run.events|)
            && IsReachable(o, Act(o, s, a))
  {
    hide Act, IsReachable;
    StaysReachable(o, s, a);
  }

  function CallFor(r: Record, asked: bool, now: Time): Action { Call(0, KeyOf(r), r, asked, Calm(now)) }

  /** The orchestration asks for a record that is deferred. */
  lemma {:induction false} Defers(o: Orchestration, s: System, cs: seq<Chapter>, pend: seq<Record>,
                                  got: seq<Record>, activated: bool, r: Record, asked: bool, now: Time)
    requires Ready(o, s, cs, pend, got, activated) && Filled(r) && o(got) == Ask({KeyOf(r)})
    requires Deferred(s.executors[0].run, r, asked)
    ensures (forall x :: x in s.executors ==> s.executors[x].run.cursor <= |s.executors[x].run.events|)
    ensures var s' := Act(o, s, CallFor(r, asked, now));
            Ready(o, s', cs, pend + [r], got + [r], activated) && Live(s') && s'.origin == s.origin
  {
    hide Acceptable, Skip, RecordEvent, Deferred, IsReachable, ReachRestart;
    OneExecutor(o, s, CallFor(r, asked, now));
    var e := s.executors[0];
    NoRestart(e.run, r.kind, r.id);
    EntersPending(e.run, cs, r, asked, now);
    FitsItself(r);
    var step := RecordEvent(e.run, cs, r.kind, r.id, r, asked, Calm(now));
    AfterGot(e, step.run, cs, r, true);
  }

  lemma {:induction false} NoRestart(run: Run, kind: Kind, id: string)
    requires run.cursor <= |run.events| && kind != Continuation
    ensures ReachRestart(run, kind, id) == run
  {
  }

  lemma {:induction false} FitsItself(r: Record)
    requires Acceptable(r) && r.version == PATTERN_VERSION
    ensures Fits(r, r.kind, r.id)
  {
    hide Acceptable;
    assert r.(kind := r.kind, id := r.id, version := PATTERN_VERSION) == r;
  }

  /** The orchestration asks for a record that is a durable boundary. */
  lemma {:induction false} Commits(o: Orchestration, s: System, cs: seq<Chapter>, pend: seq<Record>,
                                   got: seq<Record>, activated: bool, r: Record, now: Time)
    requires Ready(o, s, cs, pend, got, activated) && Filled(r) && o(got) == Ask({KeyOf(r)}) && now != ZERO_TIME
    requires !Deferred(s.executors[0].run, r, false)
    ensures (forall x :: x in s.executors ==> s.executors[x].run.cursor <= |s.executors[x].run.events|)
    ensures var s' := Act(o, s, CallFor(r, false, now));
            Ready(o, s', cs + Landing(pend, r, activated, now), [], got + [r.(activation := ACTIVATION)], true)
                && Live(s') && s'.origin == s.origin
  {
    hide Acceptable, Skip, RecordEvent, Deferred, IsReachable, ReachRestart, ActivateThenAppend, Landing;
    OneExecutor(o, s, CallFor(r, false, now));
    var e := s.executors[0];
    NoRestart(e.run, r.kind, r.id);
    FilledAt(e.run, cs, r, false, now);
    FitsItself(r);
    SameDeferred(e.run, AtEdge(e.run), r, false);
    EntersLog(AtEdge(e.run), cs, r, false, now);
  }

  /** An attempt around what is asked for runs out of time. */
  lemma {:induction false} Expires(o: Orchestration, s: System, cs: seq<Chapter>, pend: seq<Record>,
                                   got: seq<Record>, activated: bool, r: Record, now: Time)
    requires Ready(o, s, cs, pend, got, activated) && Filled(r) && TimedOut(r) && Cuts(o(got), r.id)
             && now != ZERO_TIME && Live(s)
    ensures (forall x :: x in s.executors ==> s.executors[x].run.cursor <= |s.executors[x].run.events|)
    ensures var s' := Act(o, s, Expire(0, r.id, r, false, Calm(now)));
            Ready(o, s', cs + Landing(pend, r, activated, now), [], got + [r.(activation := ACTIVATION)], true)
                && Live(s') && s'.origin == s.origin
  {
    hide Acceptable, Skip, RecordEvent, IsReachable, ActivateThenAppend, Landing, Cuts;
    OneExecutor(o, s, Expire(0, r.id, r, false, Calm(now)));
    var e := s.executors[0];
    FilledAt(e.run, cs, r, false, now);
    FitsItself(r);
    EntersLog(AtEdge(e.run), cs, r, false, now);
  }

  /** A handler around what is asked for runs out of time. */
  lemma {:induction false} HandlerExpires(o: Orchestration, s: System, cs: seq<Chapter>, pend: seq<Record>,
                                          got: seq<Record>, activated: bool, r: Record, now: Time)
    requires Ready(o, s, cs, pend, got, activated) && Filled(r) && HandlerTimedOut(r) && CutsHandler(o(got), r.id)
             && Live(s)
    ensures (forall x :: x in s.executors ==> s.executors[x].run.cursor <= |s.executors[x].run.events|)
    ensures var s' := Act(o, s, ExpireHandler(0, r.id, r, Calm(now)));
            Ready(o, s', cs, pend + [r], got + [r], activated) && Live(s') && s'.origin == s.origin
  {
    hide Acceptable, Skip, RecordEvent, IsReachable, CutsHandler;
    OneExecutor(o, s, ExpireHandler(0, r.id, r, Calm(now)));
    var e := s.executors[0];
    EntersPending(e.run, cs, r, false, now);
    FitsItself(r);
    var step := RecordEvent(e.run, cs, r.kind, r.id, r, false, Calm(now));
    AfterGot(e, step.run, cs, r, true);
  }

  /** A request whose record storage would not accept: all it leaves is an
      activation. */
  lemma {:induction false} FailsToRecord(o: Orchestration, s: System, cs: seq<Chapter>, pend: seq<Record>,
                                         got: seq<Record>, r: Record, now: Time)
    requires Ready(o, s, cs, pend, got, false) && Shaped(r) && !Acceptable(r.(activation := ACTIVATION))
             && now != ZERO_TIME
    requires o(got).Ask? && o(got).options == {KeyOf(r)} && !Deferred(s.executors[0].run, r, false)
    ensures (forall x :: x in s.executors ==> s.executors[x].run.cursor <= |s.executors[x].run.events|)
    ensures var s' := Act(o, s, CallFor(r, false, now));
            Ready(o, s', cs + [Execution(ActivationRecord(now), [])], pend, got, true) && Live(s')
                && s'.origin == s.origin
  {
    hide Acceptable, Skip, RecordEvent, Deferred, IsReachable, ReachRestart, ActivateThenAppend, ActivationRecord;
    OneExecutor(o, s, CallFor(r, false, now));
    var e := s.executors[0];
    NoRestart(e.run, r.kind, r.id);
    FilledAt(e.run, cs, r, false, now);
    assert r.(kind := r.kind, id := r.id) == r;
    SameDeferred(e.run, AtEdge(e.run), r, false);
    LeavesActivation(AtEdge(e.run), cs, r, now);
  }

  lemma {:induction false} LeavesActivation(run: Run, store: seq<Chapter>, r: Record, now: Time)
    requires Frontiers(run, |store|, run.pending, false) && Shaped(r) && !Acceptable(r.(activation := ACTIVATION))
             && now != ZERO_TIME
    ensures var step := ActivateThenAppend(run, store, r, Calm(now));
            && step.response == Refused(Malformed) && step.store == store + [Execution(ActivationRecord(now), [])]
            && Frontiers(step.run, |step.store|, run.pending, true) && step.run.live == run.live
  {
    hide Acceptable, Activate, ActivationRecord;
    Activates(run, store, now);
    var a := Activate(run, store, now, GOOD);
    assert Stamp(a.run, r, now) == r.(activation := ACTIVATION);
  }

  /** The code goes on after such a request, to a durable boundary. */
  lemma {:induction false} GoesOn(o: Orchestration, s: System, cs: seq<Chapter>, pend: seq<Record>,
                                  got: seq<Record>, r: Record, now: Time)
    requires Ready(o, s, cs, pend, got, true) && Filled(r) && o(got).Ask? && o(got).fallible && now != ZERO_TIME
    requires !Deferred(s.executors[0].run, r, false)
    ensures (forall x :: x in s.executors ==> s.executors[x].run.cursor <= |s.executors[x].run.events|)
    ensures var s' := Act(o, s, GoOn(0, KeyOf(r), r, false, Calm(now)));
            Ready(o, s', cs + Landing(pend, r, true, now), [], got + [r.(activation := ACTIVATION)], true)
                && Live(s') && s'.origin == s.origin
  {
    hide Acceptable, Skip, RecordEvent, Deferred, IsReachable, ActivateThenAppend, Landing;
    OneExecutor(o, s, GoOn(0, KeyOf(r), r, false, Calm(now)));
    var e := s.executors[0];
    FilledAt(e.run, cs, r, false, now);
    FitsItself(r);
    SameDeferred(e.run, AtEdge(e.run), r, false);
    EntersLog(AtEdge(e.run), cs, r, false, now);
  }

  /** The path is made durable before a handoff. */
  lemma {:induction false} Checkpoints(o: Orchestration, s: System, cs: seq<Chapter>, pend: seq<Record>,
                                       got: seq<Record>, id: string, now: Time)
    requires Ready(o, s, cs, pend, got, true) && pend != [] && id != "" && now != ZERO_TIME
    ensures (forall x :: x in s.executors ==> s.executors[x].run.cursor <= |s.executors[x].run.events|)
    ensures var s' := Act(o, s, CheckpointPath(0, id, Calm(now)));
            && IsReachable(o, s') && s'.origin == s.origin
            && s'.store == cs + [Execution(Blank(Checkpoint, id).(at := now, activation := ACTIVATION), pend)]
  {
    hide Acceptable, Skip, IsReachable, Append, Consume, ActivateThenAppend;
    OneExecutor(o, s, CheckpointPath(0, id, Calm(now)));
    var e := s.executors[0];
    var r := Blank(Checkpoint, id).(at := now);
    CheckpointFits(r);
    SkipIsStable(e.run.events, e.run.cursor);
    EntersLog(AtEdge(e.run), cs, r, false, now);
    assert RecordEvent(e.run, cs, Checkpoint, id, Blank(Checkpoint, id), false,
                       Calm(now)) == ActivateThenAppend(AtEdge(e.run), cs, r, Calm(now));
    assert cs + Landing(pend, r, true, now) == cs + [Execution(r.(activation := ACTIVATION), pend)];
  }

  lemma {:induction false} CheckpointFits(r: Record)
    requires r.kind == Checkpoint && r == Blank(Checkpoint, r.id).(at := r.at) && r.id != ""
    ensures Acceptable(r)
  {
  }

  // ---- starting --------------------------------------------------------------------------------------

  function HeaderRecord(now: Time): Record {
    Blank(Header, "").(versions := Some(VERSIONS), activation := ACTIVATION, at := now)
  }

  lemma {:induction false} HeaderFits(now: Time)
    ensures Acceptable(HeaderRecord(now))
  {
  }

  lemma {:induction false} StartsNew(now: Time)
    requires now != ZERO_TIME
    ensures var b := Begin([JobStart], ACTIVATION, VERSIONS, false, now, GOOD);
            && b.response.Got? && b.store == [JobStart, Execution(HeaderRecord(now), [])] && !b.adopted
            && Frontiers(b.run, 2, [], false) && b.run.timeoutError.None?
  {
    hide Append, Acceptable, Commit, LastRestart, RestartIds, HeaderRecord;
    NothingYet();
    var run := Load([JobStart], ACTIVATION, VERSIONS, false);
    var rec := Blank(Header, "").(versions := Some(VERSIONS));
    HeaderFits(now);
    assert HeaderRecord(now) == rec.(at := now, activation := ACTIVATION) by { HeaderIs(now); }
    AcceptableClear(rec.(at := now), HeaderRecord(now));
    SameStamp(run, [JobStart], rec, now);
    AppendLands(run, [JobStart], rec.(at := now), now);
    CommitKeeps(run, HeaderRecord(now));
    NoTimeout(run, HeaderRecord(now));
  }

  lemma {:induction false} HeaderIs(now: Time)
    ensures HeaderRecord(now) == Blank(Header, "").(versions := Some(VERSIONS), at := now, activation := ACTIVATION)
  {
  }

  lemma {:induction false} NoTimeout(run: Run, r: Record)
    requires r.kind == Header && run.timeoutError.None?
    ensures Commit(run, r).timeoutError.None?
  {
  }

  lemma {:induction false} NothingYet()
    ensures ExpandAll([JobStart]) == [] && LastRestart([JobStart]) == None && RestartIds([JobStart]) == {}
            && FinalOutcome([JobStart]) == None
  {
    assert [JobStart][..0] == [];
  }

  /** The log of a new job shows nothing. */
  lemma {:induction false} NewLog()
    ensures VisibleLog([JobStart, Execution(HeaderRecord(1), [])]) == []
  {
    hide HeaderRecord, ExpandAll;
    var h := Execution(HeaderRecord(1), []);
    HeaderIs(1);
    NothingYet();
    VisibleLogSnoc([JobStart], h);
    assert [JobStart] + [h] == [JobStart, h];
    assert Expand(h) == [HeaderRecord(1)] && [HeaderRecord(1)][..0] == [];
  }

  /** A new job: started, header written. */
  lemma {:induction false} NewJob(o: Orchestration, now: Time) returns (s: System)
    requires Deterministic(o) && now != ZERO_TIME
    ensures Ready(o, s, [JobStart, Execution(HeaderRecord(now), [])], [], [], false) && s.origin == [JobStart]
    ensures s.executors[0].run.timeoutError.None?
  {
    hide Begin, Frontiers, IsReachable, OriginOk, Deterministic, HeaderRecord, Slots, ReachRestart, RecordEvent, Skip;
    var s0 := Initial([JobStart]);
    NewOriginOk(o);
    ReachableAtStart(o, [JobStart]);
    var a := Start(0, ACTIVATION, VERSIONS, now, GOOD);
    OneExecutor(o, s0, a);
    StartsNew(now);
    s := Act(o, s0, a);
  }

  lemma {:induction false} NewOriginOk(o: Orchestration)
    requires Deterministic(o)
    ensures OriginOk(o, [JobStart])
  {
    NothingYet();
  }

  lemma {:induction false} ReachableAtStart(o: Orchestration, origin: seq<Chapter>)
    requires Deterministic(o) && OriginOk(o, origin)
    ensures IsReachable(o, Initial(origin))
  {
    hide OriginOk, Deterministic;
    assert Inv(o, Initial(origin)) by { OriginIsStore(o, origin); }
    assert Initial(origin) == RunAll(o, Initial(origin), []);
  }

  lemma {:induction false} OriginIsStore(o: Orchestration, origin: seq<Chapter>)
    requires OriginOk(o, origin)
    ensures StoreOk(o, origin, origin)
  {
  }

  // ---- a restarted job ---------------------------------------------------------------------------------

  /** A run that has read history up to a position, with a restart to apply. */
  ghost predicate Reading(run: Run, n: nat, events: seq<Record>, at: nat, target: string) {
    && run.events == events && run.cursor == at <= |events| && run.fatal.None? && !run.suspended && !run.inspecting
       && !run.live
    && run.ordinal == n && run.pending == [] && !run.activated && run.activation == ACTIVATION
       && run.versions == VERSIONS
    && run.restart == Some(target) && target in run.restarts && !run.restartApplied
  }

  ghost predicate Replaying(o: Orchestration, s: System, cs: seq<Chapter>, got: seq<Record>, at: nat, target: string) {
    && IsReachable(o, s) && s.executors.Keys == {0} && s.store == cs
    && s.executors[0].got == got && Reading(s.executors[0].run, |cs|, ExpandAll(cs), at, target)
  }

  lemma {:induction false} RestartedJob(o: Orchestration, origin: seq<Chapter>, target: string) returns (s: System)
    requires Deterministic(o) && OriginOk(o, origin)
    requires LastRestart(origin) == Some(target) && target in RestartIds(origin) && FinalOutcome(origin) == None
             && ExpandAll(origin) != []
    ensures Replaying(o, s, origin, [], 1, target) && s.origin == origin
  {
    hide Acceptable, ExpandAll, LastRestart, RestartIds, FinalOutcome, Deterministic, Legal, VisibleLog,
         ReachesTarget, AsksAlone, IsReachable;
    var s0 := Initial(origin);
    ReachableAtStart(o, origin);
    var a := Start(0, ACTIVATION, VERSIONS, 1, GOOD);
    OneExecutor(o, s0, a);
    s := Act(o, s0, a);
  }

  /** The orchestration asks for what history has next. */
  lemma {:induction false} ReadsNext(o: Orchestration, s: System, cs: seq<Chapter>, got: seq<Record>, at: nat,
                                     target: string) returns (s': System)
    requires Replaying(o, s, cs, got, at, target) && at < |ExpandAll(cs)|
    requires var r := ExpandAll(cs)[at]; !Skipped(r.kind) && r.kind != Continuation && o(got) == Ask({KeyOf(r)})
    ensures Replaying(o, s', cs, got + [ExpandAll(cs)[at]], at + 1, target) && s'.origin == s.origin
  {
    hide ExpandAll, IsReachable, Acceptable, ReachRestart, Frontier, Consume;
    var r, e := ExpandAll(cs)[at], s.executors[0];
    var a := CallFor(r, false, 1);
    OneExecutor(o, s, a);
    NoRestart(e.run, r.kind, r.id);
    ConsumesNext(e.run, cs, r);
    AfterGot(e, Consume(e.run, r), cs, r, false);
    s' := Act(o, s, a);
  }

  lemma {:induction false} ConsumesNext(run: Run, store: seq<Chapter>, r: Record)
    requires run.cursor < |run.events| && run.events[run.cursor] == r && !Skipped(r.kind) && run.fatal.None?
             && !run.suspended
    ensures PeekAt(run) == Some(r)
    ensures RecordEvent(run, store, r.kind, r.id, r, false, Calm(1)) == Quiet(Consume(run, r), store, Got(r), false)
    ensures Consume(run, r) == run.(cursor := run.cursor + 1, anchor := Consume(run, r).anchor,
                                    timeoutError := Consume(run, r).timeoutError)
  {
    hide Frontier;
    assert Skip(run.events, run.cursor) == run.cursor;
    assert run.(cursor := run.cursor) == run;
  }

  function Budgets(target: string): Record { Blank(Continuation, target).(payload := Some(Null)) }

  /** The clock runs out between reaching the target and recording its
      continuation. */
  lemma {:induction false} RunsOutAtTarget(o: Orchestration, s: System, cs: seq<Chapter>, got: seq<Record>, at: nat,
                                           target: string) returns (s': System)
    requires Replaying(o, s, cs, got, at, target) && o(got) == Ask({Key(Continuation, target)}) && target != ""
    requires forall i :: at <= i < |ExpandAll(cs)| ==> Skipped(ExpandAll(cs)[i].kind)
    ensures Ready(o, s', cs, [], got, false) && Live(s') && s'.origin == s.origin
  {
    hide ExpandAll, IsReachable, Acceptable, Enter;
    var e := s.executors[0];
    var a := Call(0, Key(Continuation, target), Budgets(target), false, Env(1, false, true, GOOD, GOOD));
    OneExecutor(o, s, a);
    assert Fits(Budgets(target), Continuation, target) by { BudgetsFit(target); }
    var end := Skip(e.run.events, e.run.cursor);
    SkipIsStable(e.run.events, e.run.cursor);
    var run := e.run.(restartApplied := true, cursor := end, live := true);
    AfterQuiet(e, run, cs, Interrupted, false, true);
    s' := Act(o, s, a);
  }

  lemma {:induction false} BudgetsFit(target: string)
    requires target != ""
    ensures Fits(Budgets(target), Continuation, target)
  {
  }
}

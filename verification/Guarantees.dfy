/** What the durable log promises, for every deterministic orchestration, every
    interleaving of executors, every crash and every lost message. */
module Guarantees {
  import opened Text
  import opened Records
  import opened History
  import opened Executors
  import opened Durability
  import opened Reachable

  /** A system in which nothing has happened yet. */
  ghost function Initial(origin: seq<Chapter>): System { System(origin, origin, map[]) }

  ghost predicate IsReachable(o: Orchestration, s: System) {
    && Deterministic(o) && OriginOk(o, s.origin)
    && exists actions :: s == RunAll(o, Initial(s.origin), actions)
  }

  lemma {:induction false} ReachableInv(o: Orchestration, s: System)
    requires IsReachable(o, s)
    ensures Inv(o, s)
  {
    var actions :| s == RunAll(o, Initial(s.origin), actions);
  }

  // ---- the compact log refines a plain one ---------------------------------------------------

  /** In every reachable state, expanding the chapters an executor has passed,
      dropping the engine's own records and appending what it keeps pending gives
      the records it handed to its orchestration, in order: exactly, until it
      adopts another executor's prefix, and from then on up to clock readings
      and activation names. */
  lemma {:induction false} CompactHistoryRefinesPlainLog(o: Orchestration, s: System, x: nat)
    requires IsReachable(o, s) && x in s.executors
    ensures var e := s.executors[x];
            && e.run.cursor <= |e.run.events| && e.run.ordinal <= |s.store|
            && var log := VisibleLog(s.store[..e.run.ordinal]) + e.run.pending;
               if PeekAt(e.run).Some? then |e.got| < |log| && e.got == log[..|e.got|]
               else ClearAll(e.got) == ClearAll(log) && (!e.adopted ==> e.got == log)
  {
    hide ExpandAll, Visible, VisibleLog, Skip, Legal, ClearAll, Slots, LastRestart, RestartIds, OriginOk, Handed;
    ReachableInv(o, s);
    var e := s.executors[x];
    if PeekAt(e.run).Some? {
      ReplayPosition(o, s.origin, s.store, e);
      var i := Skip(e.run.events, e.run.cursor);
      VisibleStep(e.run.events, i);
      VisiblePrefix(e.run.events, i + 1);
      var log := VisibleLog(s.store[..e.run.ordinal]);
      assert log == Visible(e.run.events) == log + e.run.pending by { LogOfEvents(s.origin, s.store, e); }
      assert log[..|e.got| + 1] == e.got + [e.run.events[i]];
      assert log[..|e.got|] == log[..|e.got| + 1][..|e.got|];
    } else {
      FrontierHanded(s.origin, s.store, e);
    }
  }

  lemma {:induction false} LogOfEvents(origin: seq<Chapter>, store: seq<Chapter>, e: Executor)
    requires Holds(origin, store, e) && e.run.ordinal == e.loaded && e.run.pending == []
    ensures VisibleLog(store[..e.run.ordinal]) == Visible(e.run.events) == Visible(e.run.events) + e.run.pending
  {
    hide ExpandAll, Visible, Slots;
  }

  // ---- agreement ------------------------------------------------------------------------------------

  /** Two executors that have passed a slot hold the same record for it, the one
      committed there. */
  lemma {:induction false} ExecutorsAgree(o: Orchestration, s: System, x: nat, y: nat, k: nat)
    requires IsReachable(o, s) && x in s.executors && y in s.executors
    requires k < s.executors[x].run.ordinal && k < s.executors[y].run.ordinal
    ensures |s.executors[x].held| == s.executors[x].run.ordinal && |s.executors[y].held| == s.executors[y].run.ordinal
    ensures k < |s.store| && s.executors[x].held[k] == s.executors[y].held[k] == SlotRecord(s.store[k])
  {
    hide ExpandAll, Visible, VisibleLog, Skip, Legal, ClearAll, LastRestart, RestartIds, OriginOk, Handed, Tracks,
         Sound, StoreOk;
    ReachableInv(o, s);
    assert Holds(s.origin, s.store, s.executors[x]) && Holds(s.origin, s.store, s.executors[y]);
  }

  /** Committed slots never change, whatever happens next. */
  lemma {:induction false} SlotsAreForever(o: Orchestration, s: System, actions: seq<Action>, k: nat)
    requires IsReachable(o, s) && k < |s.store|
    ensures Inv(o, s) && k < |RunAll(o, s, actions).store| && RunAll(o, s, actions).store[k] == s.store[k]
  {
    hide Inv;
    ReachableInv(o, s);
    var s' := RunAll(o, s, actions);
    assert s'.store[..|s.store|][k] == s.store[k];
  }

  /** The executor an action belongs to. */
  function Actor(a: Action): Option<nat> {
    match a
    case AnswerWait(_, _) => None
    case _ => Some(a.x)
  }

  lemma {:induction false} DeadCall(run: Run, store: seq<Chapter>, kind: Kind, id: string, build: Record,
                                    deferred: bool, env: Env)
    requires run.cursor <= |run.events| && run.fatal.Some?
    ensures var s := RecordEvent(run, store, kind, id, build, deferred, env);
            s == Quiet(run, store, s.response, false) && s.response.Refused?
    ensures ReachRestart(run, kind, id).fatal == run.fatal
  {
    hide Frontier, Consume;
  }

  lemma {:induction false} DeadAsks(run: Run, store: seq<Chapter>, k: Key, build: Record, deferred: bool, env: Env)
    requires run.cursor <= |run.events| && run.fatal.Some?
    ensures var s := RecordEvent(ReachRestart(run, k.kind, k.id), store, k.kind, k.id, build, deferred, env);
            s == Quiet(s.run, store, s.response, false) && s.response.Refused? && s.run.fatal == run.fatal
  {
    hide RecordEvent, ReachRestart;
    DeadCall(run, store, k.kind, k.id, build, deferred, env);
    DeadCall(ReachRestart(run, k.kind, k.id), store, k.kind, k.id, build, deferred, env);
  }

  /** The outcome of a job that failed as a whole. */
  predicate FailureOutcome(c: Chapter) { c.JobOutcome? && c.prefix == [] }

  /** A dead executor stays dead until it is gone, and commits no execution record;
      all it may still write is that the job failed. */
  lemma {:induction false} FatalIsForever(o: Orchestration, s: System, x: nat, a: Action)
    requires IsReachable(o, s) && x in s.executors && s.executors[x].run.fatal.Some?
    ensures forall y :: y in s.executors ==> s.executors[y].run.cursor <= |s.executors[y].run.events|
    ensures var s' := Act(o, s, a);
            && (x in s'.executors ==>
                  s'.executors[x].run.fatal == s.executors[x].run.fatal && s'.executors[x].got == s.executors[x].got)
            && (Actor(a) == Some(x) ==>
                  s'.store == s.store || (|s'.store| == |s.store| + 1 && s'.store[..|s.store|] == s.store
                                          && FailureOutcome(s'.store[|s.store|])))
  {
    hide Act, Inv, IsReachable;
    ReachableInv(o, s);
    CursorsInRange(o, s);
    if IsEvent(a) { DeadRequest(o, s, x, a); } else { DeadOtherwise(o, s, x, a); }
  }

  lemma {:induction false} DeadRequest(o: Orchestration, s: System, x: nat, a: Action)
    requires forall y :: y in s.executors ==> s.executors[y].run.cursor <= |s.executors[y].run.events|
    requires x in s.executors && s.executors[x].run.fatal.Some? && IsEvent(a)
    ensures var s' := Act(o, s, a);
            && x in s'.executors && s'.executors[x].run.fatal == s.executors[x].run.fatal
               && s'.executors[x].got == s.executors[x].got
            && (Actor(a) == Some(x) ==> s'.store == s.store)
  {
    hide RecordEvent, ReachRestart, Skip, Choose, Fits, MayExpire, Cuts, CutsHandler;
    var e := s.executors[x];
    match a
    case Call(y, choice, build, deferred, env) =>
      if y == x && o(e.got).Ask? {
        DeadAsks(e.run, s.store, Choose(e.run, o(e.got).options, choice), build, deferred, env);
      }
    case Expire(y, attempt, build, deferred, env) =>
      if y == x { DeadCall(e.run, s.store, Result, attempt, build, deferred, env); }
    case ExpireHandler(y, attempt, build, env) =>
      if y == x { DeadCall(e.run, s.store, Handled, attempt, build, false, env); }
    case GoOn(y, k, build, deferred, env) =>
      if y == x { DeadCall(e.run, s.store, k.kind, k.id, build, deferred, env); }
    case CheckpointPath(y, id, env) =>
      if y == x { DeadCall(e.run, s.store, Checkpoint, id, Blank(Checkpoint, id), false, env); }
  }

  lemma {:induction false} DeadOtherwise(o: Orchestration, s: System, x: nat, a: Action)
    requires forall y :: y in s.executors ==> s.executors[y].run.cursor <= |s.executors[y].run.events|
    requires x in s.executors && s.executors[x].run.fatal.Some? && !IsEvent(a)
    ensures var s' := Act(o, s, a);
            && (x in s'.executors ==>
                  s'.executors[x].run.fatal == s.executors[x].run.fatal && s'.executors[x].got == s.executors[x].got)
            && (Actor(a) == Some(x) ==>
                  s'.store == s.store || (|s'.store| == |s.store| + 1 && s'.store[..|s.store|] == s.store
                                          && FailureOutcome(s'.store[|s.store|])))
  {
    hide Begin, Skip, Activate, ActivateThenAppend, Slots, VisibleLog, Acceptable, AwaitsAnswer;
  }

  /** What an executor's own actions add to the log over a run. */
  ghost function CommittedBy(o: Orchestration, s: System, actions: seq<Action>, x: nat): seq<Chapter>
    requires Deterministic(o) && Inv(o, s)
    decreases |actions|
  {
    if actions == [] then []
    else
      CursorsInRange(o, s);
      ActKeeps(o, s, actions[0]);
      var s1 := Act(o, s, actions[0]);
      (if Actor(actions[0]) == Some(x) then s1.store[|s.store|..] else []) + CommittedBy(o, s1, actions[1..], x)
  }

  ghost predicate NoRecords(cs: seq<Chapter>) { forall i :: 0 <= i < |cs| ==> FailureOutcome(cs[i]) }

  predicate NotStarted(actions: seq<Action>, x: nat) {
    forall i :: 0 <= i < |actions| ==> !(actions[i].Start? && actions[i].x == x)
  }

  /** Over every run: until it is replaced, a dead executor holds what it held, and
      it adds no execution record to the log. */
  lemma {:induction false} DeadOverRuns(o: Orchestration, s: System, x: nat, actions: seq<Action>)
    requires IsReachable(o, s) && x in s.executors && s.executors[x].run.fatal.Some? && NotStarted(actions, x)
    ensures Inv(o, s) && NoRecords(CommittedBy(o, s, actions, x))
    ensures var s' := RunAll(o, s, actions);
            x in s'.executors ==>
                  s'.executors[x].run.fatal == s.executors[x].run.fatal && s'.executors[x].got == s.executors[x].got
    decreases |actions|
  {
    hide Inv, Act, OriginOk, Deterministic, FailureOutcome;
    ReachableInv(o, s);
    if actions != [] {
      CursorsInRange(o, s);
      FatalIsForever(o, s, x, actions[0]);
      StaysReachable(o, s, actions[0]);
      ActKeeps(o, s, actions[0]);
      var s1 := Act(o, s, actions[0]);
      assert forall i :: 0 <= i < |actions| - 1 ==> actions[1..][i] == actions[i + 1];
      if Actor(actions[0]) == Some(x) && s1.store != s.store { assert s1.store[|s.store|..] == [s1.store[|s.store|]]; }
      if x in s1.executors {
        DeadOverRuns(o, s1, x, actions[1..]);
      } else {
        StaysGone(o, s1, x, actions[1..]);
      }
    }
  }

  lemma {:induction false} StaysGone(o: Orchestration, s: System, x: nat, actions: seq<Action>)
    requires Deterministic(o) && Inv(o, s) && x !in s.executors && NotStarted(actions, x)
    ensures x !in RunAll(o, s, actions).executors && NoRecords(CommittedBy(o, s, actions, x))
    decreases |actions|
  {
    hide Inv, Deterministic, Act, FailureOutcome;
    if actions != [] {
      CursorsInRange(o, s);
      ActKeeps(o, s, actions[0]);
      GoneDoesNothing(o, s, x, actions[0]);
      assert forall i :: 0 <= i < |actions| - 1 ==> actions[1..][i] == actions[i + 1];
      StaysGone(o, Act(o, s, actions[0]), x, actions[1..]);
    }
  }

  lemma {:induction false} GoneDoesNothing(o: Orchestration, s: System, x: nat, a: Action)
    requires forall y :: y in s.executors ==> s.executors[y].run.cursor <= |s.executors[y].run.events|
    requires x !in s.executors && !(a.Start? && a.x == x)
    ensures x !in Act(o, s, a).executors && (Actor(a) == Some(x) ==> Act(o, s, a).store == s.store)
  {
    hide RecordEvent, ReachRestart, Begin, Activate, ActivateThenAppend, Put, Slots, VisibleLog, Skip, Acceptable;
  }

  /** An executor whose append found another record in its slot, or none it could
      read, adds no execution record to the log in any run that follows. */
  lemma {:induction false} ConflictSilences(o: Orchestration, s: System, a: Action, x: nat, actions: seq<Action>)
    requires IsReachable(o, s) && x in s.executors && s.executors[x].run.fatal.None?
    requires forall y :: y in s.executors ==> s.executors[y].run.cursor <= |s.executors[y].run.events|
    requires var s1 := Act(o, s, a); x in s1.executors && s1.executors[x].run.fatal == Some(AppendFailed)
    requires NotStarted(actions, x)
    ensures var s1 := Act(o, s, a);
            && Inv(o, s1) && NoRecords(CommittedBy(o, s1, actions, x))
            && (x in RunAll(o, s1, actions).executors ==>
                  RunAll(o, s1, actions).executors[x].run.fatal == Some(AppendFailed))
  {
    hide Inv, Act, IsReachable, NoRecords;
    StaysReachable(o, s, a);
    DeadOverRuns(o, Act(o, s, a), x, actions);
  }

  lemma {:induction false} RunAllSnoc(o: Orchestration, s: System, actions: seq<Action>, a: Action)
    requires Deterministic(o) && Inv(o, s)
    ensures var s1 := RunAll(o, s, actions);
            && (forall x :: x in s1.executors ==> s1.executors[x].run.cursor <= |s1.executors[x].run.events|)
            && RunAll(o, s, actions + [a]) == Act(o, s1, a)
    decreases |actions|
  {
    hide Inv, Deterministic, Act;
    var s1 := RunAll(o, s, actions);
    CursorsInRange(o, s1);
    ActKeeps(o, s1, a);
    if actions == [] {
      assert actions + [a] == [a] && [a][1..] == [];
    } else {
      CursorsInRange(o, s);
      ActKeeps(o, s, actions[0]);
      RunAllSnoc(o, Act(o, s, actions[0]), actions[1..], a);
      assert (actions + [a])[1..] == actions[1..] + [a];
    }
  }

  lemma {:induction false} StaysReachable(o: Orchestration, s: System, a: Action)
    requires IsReachable(o, s)
    ensures (forall x :: x in s.executors ==> s.executors[x].run.cursor <= |s.executors[x].run.events|)
            && IsReachable(o, Act(o, s, a))
  {
    hide Act, Deterministic, StoreOk, ReachesTarget, LastRestart, RestartIds, AsksAlone;
    ReachableInv(o, s);
    var actions :| s == RunAll(o, Initial(s.origin), actions);
    assert Inv(o, Initial(s.origin));
    RunAllSnoc(o, Initial(s.origin), actions, a);
  }

  /** An append whose slot is taken writes nothing. It goes on with the committed
      record, when that is the same event on the same path, or never again. */
  lemma {:induction false} TakenSlotAdoptsOrKills(run: Run, store: seq<Chapter>, rec: Record, now: Time, net: Net)
    requires run.ordinal < |store| && Acceptable(Stamp(run, rec, now))
    ensures var slot, mine, a := store[run.ordinal], Stamp(run, rec, now), Append(run, store, rec, now, net);
            && a.store == store
            && (a.response.Got? <==>
                  net.readable && Adoptable(slot, mine, if Attaches(rec.kind) then run.pending else []))
            && (a.response.Got? ==>
                  slot.Execution? && a.response.record == slot.record && a.run.ordinal == run.ordinal + 1
                      && a.run.fatal == run.fatal)
            && (a.response.Refused? ==> a.run == run.(fatal := Some(AppendFailed)))
  {
    hide Acceptable, Commit, Stamp, SamePrefix;
    CommitKeeps(run, if store[run.ordinal].Execution? then store[run.ordinal].record else rec);
  }

  // ---- inspection -----------------------------------------------------------------------------------

  /** What an orchestration asks for. */
  datatype Asked = Asked(kind: Kind, id: string, build: Record, deferred: bool, env: Env)

  predicate OnlyInspects(run: Run) { run.cursor <= |run.events| && run.inspecting && !run.live }

  /** What inspection leaves alone. With no restart waiting, that includes what is
      pending. */
  predicate LeavesAlone(run: Run, run': Run) {
    && OnlyInspects(run') && run'.ordinal == run.ordinal && run'.activated == run.activated
    && (!RestartPending(run) ==> run'.pending == run.pending && !RestartPending(run'))
  }

  function InspectOne(run: Run, store: seq<Chapter>, a: Asked): Step
    requires OnlyInspects(run)
  {
    RecordEvent(ReachRestart(run, a.kind, a.id), store, a.kind, a.id, a.build, a.deferred, a.env)
  }

  /** A run that only inspects a job, asked any number of times. */
  function Inspect(run: Run, store: seq<Chapter>, asked: seq<Asked>): (r: (Run, seq<Chapter>))
    requires OnlyInspects(run)
    ensures OnlyInspects(r.0)
  {
    if asked == [] then (run, store)
    else
      var before := Inspect(run, store, asked[..|asked| - 1]);
      var s := InspectOne(before.0, before.1, asked[|asked| - 1]);
      InspectingCall(before.0, before.1, asked[|asked| - 1]);
      (s.run, s.store)
  }

  /** Over any number of calls, a run that only inspects a job leaves the log, its
      place in it, the timers and the activation alone, whatever its orchestration
      asks for. */
  lemma {:induction false} InspectionNeverWrites(run: Run, store: seq<Chapter>, asked: seq<Asked>)
    requires OnlyInspects(run)
    ensures Inspect(run, store, asked).1 == store && LeavesAlone(run, Inspect(run, store, asked).0)
  {
    hide InspectOne;
    if asked != [] {
      var n := |asked| - 1;
      InspectionNeverWrites(run, store, asked[..n]);
      var before := Inspect(run, store, asked[..n]);
      InspectingCall(before.0, before.1, asked[n]);
    }
  }

  /** What one such call builds: declarations only, with no start time. */
  predicate BuildsLittle(run: Run, a: Asked, s: Step) {
    !RestartPending(run) && s.built ==>
          !run.finished && a.kind in {Scope, Task, Attempt} && s.response.Got? && s.response.record.at == ZERO_TIME
  }

  lemma {:induction false} InspectingCall(run: Run, store: seq<Chapter>, a: Asked)
    requires OnlyInspects(run)
    ensures var s := InspectOne(run, store, a);
            s.store == store && s.passed == [] && LeavesAlone(run, s.run) && BuildsLittle(run, a, s)
  {
    hide RecordEvent, Skip;
    var run1 := ReachRestart(run, a.kind, a.id);
    InspectingEvent(run1, store, a);
  }

  lemma {:induction false} InspectingEvent(run: Run, store: seq<Chapter>, a: Asked)
    requires OnlyInspects(run)
    ensures var s := RecordEvent(run, store, a.kind, a.id, a.build, a.deferred, a.env);
            s.store == store && s.passed == [] && LeavesAlone(run, s.run) && BuildsLittle(run, a, s)
  {
    hide Skip, StartsWith, Frontier, Consume;
    var run1 := run.(cursor := Skip(run.events, run.cursor));
    if run1.cursor < |run1.events| {
      ConsumeFields(run1, run1.events[run1.cursor]);
      ConsumeActivation(run1, run1.events[run1.cursor]);
    } else {
      InspectionFrontier(run1, store, a);
    }
  }

  lemma {:induction false} ConsumeActivation(run: Run, r: Record)
    requires run.cursor < |run.events|
    ensures Consume(run, r).activated == run.activated
  {
  }

  lemma {:induction false} InspectionFrontier(run: Run, store: seq<Chapter>, a: Asked)
    requires OnlyInspects(run)
    ensures var s := Frontier(run, store, a.kind, a.id, a.build, a.deferred, a.env);
            s.store == store && s.passed == [] && LeavesAlone(run, s.run) && BuildsLittle(run, a, s)
  {
    hide ActivateThenAppend;
  }
}

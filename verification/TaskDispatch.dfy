/** Which implementation of a task runs: the primary, or the alternate once it is
    due. One task, all its attempts, and any number of recoveries. */
module TaskDispatch {
  import opened Text
  import opened Records

  datatype Alternate = Alternate(taskType: string, after: nat)

  datatype Call = Call(primary: string, alternate: Option<Alternate>)

  /** What `DoTask` demands of a call. */
  predicate CallOk(c: Call) {
    c.primary != "" && (c.alternate.Some? ==>
                          c.alternate.value.taskType != "" && c.alternate.value.taskType != c.primary)
  }

  /** `allowedExecutionType`. */
  predicate Allowed(c: Call, t: string) {
    t == c.primary || (c.alternate.Some? && t == c.alternate.value.taskType)
  }

  /** What happens to the task. Waits and dispatches are records; runs are what
      its workers do. */
  datatype Step =
    | Waits(taskType: string, due: Option<Time>, clock: Time)
    | Dispatches(taskType: string, clock: Time)
    | Runs(taskType: string, clock: Time)

  /** `taskDispatchState`. */
  datatype Choice = Choice(taskType: string, due: Option<Time>)

  // ---- following the records -----------------------------------------------------------------

  /** One record of the task, as a later execution takes it. */
  function Follow(c: Call, s: Choice, step: Step): Outcome<Choice> {
    match step
    case Waits(t, due, _) =>
      var t' := if t != "" then t else s.taskType;
      if Allowed(c, t') then Ok(Choice(t', due)) else Err("invalid waiting task type")
    case Dispatches(t, _) =>
      if !Allowed(c, t) || (s.taskType != c.primary && s.taskType != t) then Err("invalid recorded task dispatch")
      else Ok(s.(taskType := t))
    case Runs(_, _) => Ok(s)
  }

  function Replay(c: Call, log: seq<Step>): Outcome<Choice> {
    if log == [] then Ok(Choice(c.primary, None))
    else
      match Replay(c, log[..|log| - 1])
      case Err(e) => Err(e)
      case Ok(s) => Follow(c, s, log[|log| - 1])
  }

  // ---- live steps -------------------------------------------------------------------------------

  datatype Act =
    | StartWait(clock: Time)                  // an attempt starts waiting for an external worker
    | Acquire(route: string, clock: Time, runs: bool)  // by a worker that lived, in time, to run it
    | RunChosen(clock: Time)                  // a local worker, or a resumed one, runs the chosen type

  /** The due time of a wait: set by the first one, kept by the others. */
  function DueAt(c: Call, s: Choice, clock: Time): Option<Time> {
    if c.alternate.Some? && s.due.None? then Some(clock + c.alternate.value.after) else s.due
  }

  predicate MayAcquire(c: Call, s: Choice, route: string, clock: Time) {
    && Allowed(c, route) && (s.taskType == c.primary || s.taskType == route)
    && (route != c.primary ==> s.due.Some? && s.due.value <= clock)
  }

  /** The newest wait has been dispatched. */
  predicate Dispatched(log: seq<Step>) {
    log != [] && (log[|log| - 1].Dispatches? || (log[|log| - 1].Runs? && Dispatched(log[..|log| - 1])))
  }

  /** An execution replays the records and takes one step; a refused step does
      nothing. */
  function Do(c: Call, log: seq<Step>, a: Act): seq<Step> {
    match Replay(c, log)
    case Err(_) => log
    case Ok(s) =>
      match a
      case StartWait(clock) => log + [Waits(s.taskType, DueAt(c, s, clock), clock)]
      case Acquire(route, clock, runs) =>
        if !MayAcquire(c, s, route, clock) then log
        else
          var log1 := if Dispatched(log) && s.taskType == route then log else log + [Dispatches(route, clock)];
          if runs then log1 + [Runs(route, clock)] else log1
      case RunChosen(clock) => log + [Runs(s.taskType, clock)]
  }

  function DoAll(c: Call, acts: seq<Act>): seq<Step> {
    if acts == [] then [] else Do(c, DoAll(c, acts[..|acts| - 1]), acts[|acts| - 1])
  }

  // ---- what every log keeps ----------------------------------------------------------------------

  /** The due time the first wait set. */
  function FirstDue(log: seq<Step>): Option<Time> {
    if log == [] then None
    else
      var before := FirstDue(log[..|log| - 1]);
      if before.Some? || !log[|log| - 1].Waits? then before else log[|log| - 1].due
  }

  predicate Chosen(c: Call, log: seq<Step>) { exists i :: 0 <= i < |log| && log[i].taskType != c.primary }

  predicate StepOk(c: Call, log: seq<Step>, step: Step) {
    && Allowed(c, step.taskType)
    && (Chosen(c, log) ==> step.taskType != c.primary)
    && (step.taskType != c.primary && !Chosen(c, log) ==>
          step.Dispatches? && FirstDue(log).Some? && FirstDue(log).value <= step.clock)
    && (step.Waits? ==> if c.alternate.None? then step.due.None?
                        else step.due == if FirstDue(log).Some? then FirstDue(log)
                                         else Some(step.clock + c.alternate.value.after))
  }

  ghost predicate LogOk(c: Call, log: seq<Step>) { forall i :: 0 <= i < |log| ==> StepOk(c, log[..i], log[i]) }

  lemma {:induction false} LogOkSnoc(c: Call, log: seq<Step>, step: Step)
    requires LogOk(c, log) && StepOk(c, log, step)
    ensures LogOk(c, log + [step])
  {
    hide StepOk;
    var all := log + [step];
    forall i | 0 <= i < |all| ensures StepOk(c, all[..i], all[i]) {
      if i < |log| { assert all[..i] == log[..i] && all[i] == log[i]; } else { assert all[..i] == log; }
    }
  }

  lemma {:induction false} FirstDueSnoc(log: seq<Step>, step: Step)
    ensures FirstDue(log + [step]) == if FirstDue(log).Some? || !step.Waits? then FirstDue(log) else step.due
  {
    assert (log + [step])[..|log|] == log;
  }

  lemma {:induction false} ChosenSnoc(c: Call, log: seq<Step>, step: Step)
    ensures Chosen(c, log + [step]) <==> Chosen(c, log) || step.taskType != c.primary
  {
    var all := log + [step];
    assert all[|log|] == step;
    if Chosen(c, log) {
      var i :| 0 <= i < |log| && log[i].taskType != c.primary;
      assert all[i] == log[i];
    }
  }

  /** Replay never rejects such a log, and finds its choice and its due time. */
  lemma {:induction false} ReplayFinds(c: Call, log: seq<Step>)
    requires CallOk(c) && LogOk(c, log)
    ensures Replay(c, log).Ok?
    ensures var s := Replay(c, log).value;
            Allowed(c, s.taskType) && (s.taskType != c.primary <==> Chosen(c, log)) && s.due == FirstDue(log)
                && (c.alternate.None? ==> s.due.None?)
  {
    if log != [] {
      var n := |log| - 1;
      var before, step := log[..n], log[n];
      assert log == before + [step];
      forall i | 0 <= i < n ensures StepOk(c, before[..i], before[i]) { assert before[..i] == log[..i]; }
      ReplayFinds(c, before);
      assert StepOk(c, log[..n], log[n]);
      FirstDueSnoc(before, step);
      ChosenSnoc(c, before, step);
    }
  }

  lemma {:induction false} DoKeeps(c: Call, log: seq<Step>, a: Act)
    requires CallOk(c) && LogOk(c, log)
    ensures LogOk(c, Do(c, log, a))
  {
    hide LogOk, Replay;
    ReplayFinds(c, log);
    var s := Replay(c, log).value;
    match a
    case StartWait(clock) => LogOkSnoc(c, log, Waits(s.taskType, DueAt(c, s, clock), clock));
    case Acquire(route, clock, runs) =>
      if MayAcquire(c, s, route, clock) {
        LogOkSnoc(c, log, Dispatches(route, clock));
        ChosenSnoc(c, log, Dispatches(route, clock));
        LogOkSnoc(c, log + [Dispatches(route, clock)], Runs(route, clock));
        if s.taskType == route { LogOkSnoc(c, log, Runs(route, clock)); }
      }
    case RunChosen(clock) => LogOkSnoc(c, log, Runs(s.taskType, clock));
  }

  lemma {:induction false} RunsKeep(c: Call, acts: seq<Act>)
    requires CallOk(c)
    ensures LogOk(c, DoAll(c, acts))
  {
    hide LogOk, Do;
    if acts == [] {
      EmptyOk(c);
    } else {
      RunsKeep(c, acts[..|acts| - 1]);
      DoKeeps(c, DoAll(c, acts[..|acts| - 1]), acts[|acts| - 1]);
    }
  }

  lemma {:induction false} EmptyOk(c: Call)
    ensures LogOk(c, [])
  {
  }

  // ---- sticky and never early ----------------------------------------------------------------------

  /** Every execution recovers the choice: replaying the records of any run
      succeeds, and finds the type chosen last and the due time set first. */
  lemma {:induction false} RecoveryFindsChoice(c: Call, acts: seq<Act>)
    requires CallOk(c)
    ensures var log := DoAll(c, acts);
            Replay(c, log).Ok? && (Replay(c, log).value.taskType != c.primary <==> Chosen(c, log))
                && Replay(c, log).value.due == FirstDue(log)
  {
    hide LogOk, DoAll, Replay;
    RunsKeep(c, acts);
    ReplayFinds(c, DoAll(c, acts));
  }

  /** Only declared types are ever waited for, dispatched or run; and once the
      alternate is chosen, the primary never is again. */
  lemma {:induction false} AlternateIsSticky(c: Call, acts: seq<Act>, i: nat, j: nat)
    requires CallOk(c) && i < j < |DoAll(c, acts)| && DoAll(c, acts)[i].taskType != c.primary
    ensures var log := DoAll(c, acts);
            c.alternate.Some? && log[i].taskType == log[j].taskType == c.alternate.value.taskType
  {
    hide DoAll, FirstDue;
    var log := DoAll(c, acts);
    RunsKeep(c, acts);
    assert StepOk(c, log[..i], log[i]) && StepOk(c, log[..j], log[j]);
    assert log[..j][i] == log[i];
  }

  lemma {:induction false} OnlyDeclaredTypes(c: Call, acts: seq<Act>, i: nat)
    requires CallOk(c) && i < |DoAll(c, acts)|
    ensures Allowed(c, DoAll(c, acts)[i].taskType)
  {
    hide DoAll, FirstDue;
    RunsKeep(c, acts);
    var log := DoAll(c, acts);
    assert StepOk(c, log[..i], log[i]);
  }

  lemma {:induction false} FirstDueStays(log: seq<Step>, i: nat)
    requires i <= |log| && FirstDue(log[..i]).Some?
    ensures FirstDue(log) == FirstDue(log[..i])
    decreases |log|
  {
    if i == |log| {
      assert log[..i] == log;
    } else {
      assert log[..|log| - 1][..i] == log[..i];
      FirstDueStays(log[..|log| - 1], i);
    }
  }

  /** The due time never changes, and no alternate is waited for, dispatched or
      run unless it was dispatched, there or before, at or after that time. */
  lemma {:induction false} AlternateIsNeverEarly(c: Call, acts: seq<Act>, j: nat) returns (i: nat)
    requires CallOk(c) && j < |DoAll(c, acts)| && DoAll(c, acts)[j].taskType != c.primary
    ensures var log := DoAll(c, acts);
            && i <= j && log[i].Dispatches? && log[i].taskType == log[j].taskType
            && FirstDue(log).Some? && FirstDue(log).value <= log[i].clock
  {
    hide DoAll, FirstDue;
    RunsKeep(c, acts);
    var log := DoAll(c, acts);
    i := FirstChoice(c, log, j);
    assert StepOk(c, log[..i], log[i]);
    FirstDueStays(log, i);
    if i < j { AlternateIsSticky(c, acts, i, j); }
  }

  /** The first step of a type other than the primary. */
  lemma {:induction false} FirstChoice(c: Call, log: seq<Step>, j: nat) returns (i: nat)
    requires j < |log| && log[j].taskType != c.primary
    ensures i <= j && log[i].taskType != c.primary && !Chosen(c, log[..i])
  {
    i := 0;
    while log[i].taskType == c.primary
      invariant i <= j && forall k :: 0 <= k < i ==> log[k].taskType == c.primary
      decreases j - i
    {
      i := i + 1;
    }
  }

  lemma {:induction false} DueNeverChanges(c: Call, acts: seq<Act>, i: nat)
    requires CallOk(c) && i < |DoAll(c, acts)| && DoAll(c, acts)[i].Waits?
    ensures DoAll(c, acts)[i].due == FirstDue(DoAll(c, acts))
  {
    hide DoAll;
    RunsKeep(c, acts);
    var log := DoAll(c, acts);
    assert StepOk(c, log[..i], log[i]);
    FirstDueSnoc(log[..i], log[i]);
    assert log[..i + 1] == log[..i] + [log[i]];
    if c.alternate.Some? {
      FirstDueStays(log, i + 1);
    } else {
      NoDue(c, log);
    }
  }

  lemma {:induction false} NoDue(c: Call, log: seq<Step>)
    requires CallOk(c) && LogOk(c, log) && c.alternate.None?
    ensures FirstDue(log).None?
  {
    hide LogOk, FirstDue, Replay;
    ReplayFinds(c, log);
  }

  // ---- the dispatch state object ----------------------------------------------------------------------

  class TaskDispatchState {
    var taskType: string
    var alternateAt: Option<Time>

    function Value(): Choice
      reads this
    {
      Choice(taskType, alternateAt)
    }

    constructor (call: Call)
      ensures Value() == Choice(call.primary, None)
    {
      taskType, alternateAt := call.primary, None;
    }

    /** `externalTask` over recorded waits and dispatches. */
    method Consume(call: Call, records: seq<Step>) returns (ok: bool)
      requires Value() == Choice(call.primary, None)
      modifies this
      ensures ok == Replay(call, records).Ok?
      ensures ok ==> Value() == Replay(call, records).value
    {
      for i := 0 to |records|
        invariant Replay(call, records[..i]) == Ok(Value())
      {
        assert records[..i + 1][..i] == records[..i];
        match records[i]
        case Waits(t, due, _) =>
          if t != "" { taskType := t; }
          alternateAt := due;
          if !Allowed(call, taskType) {
            ReplayStops(call, records, i + 1);
            return false;
          }
        case Dispatches(t, _) =>
          if !Allowed(call, t) || (taskType != call.primary && taskType != t) {
            ReplayStops(call, records, i + 1);
            return false;
          }
          taskType := t;
        case Runs(_, _) =>
      }
      assert records[..|records|] == records;
      ok := true;
    }
  }

  lemma {:induction false} ReplayStops(c: Call, log: seq<Step>, n: nat)
    requires n <= |log| && Replay(c, log[..n]).Err?
    ensures Replay(c, log).Err?
    decreases |log|
  {
    if n == |log| {
      assert log[..n] == log;
    } else {
      assert log[..|log| - 1][..n] == log[..n];
      ReplayStops(c, log[..|log| - 1], n);
    }
  }
}

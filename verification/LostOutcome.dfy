/** A run in which a task returns an output that cannot be recorded: its request
    fails without a record, the job's attempt fails for it and is tried again, and a
    later executor asks for the outcome that is not there. */
module LostOutcome {
  import opened Records
  import opened JsonText
  import opened Text
  import opened History
  import opened Executors
  import opened Durability
  import opened Guarantees
  import opened Witness

  const JOB := "/scope:\"$job\"#1"
  const JOB_ATTEMPT := JOB + "/attempt:1"
  const TASK := JOB_ATTEMPT + "/task:\"t\"#1"
  const TASK_ATTEMPT := TASK + "/attempt:1"
  const NEXT_ATTEMPT := JOB + "/attempt:2"

  /** The records before the task runs. */
  function Opening(): seq<Record> {
    [Blank(Scope, JOB).(at := 1, descriptor := Tree(Null)),
     Blank(Attempt, JOB_ATTEMPT).(at := 1, attempt := 1),
     Blank(Task, TASK).(at := 1, descriptor := Tree(Null)),
     Blank(Attempt, TASK_ATTEMPT).(at := 1, attempt := 1)]
  }

  /** Two artifacts of one name. */
  function Twice(): Snapshot {
    var a := Artifact("a", Some(ArtifactKey("j", 1, "a", 0)));
    Snapshot(Null, [a, a])
  }

  function Outcome(): Record { Blank(Result, TASK_ATTEMPT).(at := 1, output := Some(Twice())) }

  function JobFails(): Record { Blank(Result, JOB_ATTEMPT).(at := 1, errorKind := AppError) }

  function Uncaught(): Record { Blank(Catch, JOB_ATTEMPT).(at := 1) }

  function TriesAgain(): Record {
    Blank(Decision, JOB_ATTEMPT).(at := 1, disposition := Continue, retry := true, wakeAt := 1)
  }

  /** The task's outcome may fail to be recorded; then the attempt fails. */
  function Program(): Orchestration {
    (g: seq<Record>) =>
      if |g| < 4 then Ask({KeyOf(Opening()[|g|])})
      else if |g| == 4 then Ask({KeyOf(Outcome())}, true)
      else if |g| == 5 then Ask({KeyOf(Uncaught())})
      else if |g| == 6 then Ask({KeyOf(TriesAgain())})
      else if |g| == 7 then Ask({Key(Attempt, NEXT_ATTEMPT)})
      else Done
  }

  lemma {:induction false} ProgramAsks(g: seq<Record>)
    ensures |Opening()| == 4
    ensures |g| < 4 ==> Program()(g) == Ask({KeyOf(Opening()[|g|])})
    ensures |g| == 4 ==> Program()(g) == Ask({KeyOf(Outcome())}, true)
    ensures |g| == 5 ==> Program()(g) == Ask({KeyOf(Uncaught())})
    ensures |g| == 6 ==> Program()(g) == Ask({KeyOf(TriesAgain())})
    ensures AsksOne(Program()(g))
  {
  }

  lemma {:induction false} Deterministically()
    ensures Deterministic(Program())
  {
    hide Opening, StandTogether;
    forall g ensures AsksOne(Program()(g)) { ProgramAsks(g); }
    OneStandsTogether(Program());
    forall g, h | ClearAll(g) == ClearAll(h) ensures Program()(g) == Program()(h) {
      assert |ClearAll(g)| == |g| && |ClearAll(h)| == |h|;
    }
    forall g, k | Program()(g).Ask? && k in Program()(g).options ensures !EngineOnly(k.kind) {
      ProgramAsks(g);
      if |g| < 4 { OpeningFits(|g|); }
    }
  }

  lemma {:induction false} OpeningFits(i: nat)
    requires i < 4
    ensures |Opening()| == 4 && Filled(Opening()[i])
  {
    hide Acceptable;
    assert JOB[0] == '/' && JOB_ATTEMPT[0] == '/' && TASK[0] == '/' && TASK_ATTEMPT[0] == '/';
    var r := Opening()[i];
    if r.kind in {Scope, Task} { DeclarationFits(r); } else { ControlFits(r); }
  }

  lemma {:induction false} RestFits()
    ensures Filled(JobFails()) && Filled(Uncaught()) && Filled(TriesAgain())
    ensures Shaped(Outcome()) && !Acceptable(Outcome().(activation := ACTIVATION))
  {
    hide Acceptable;
    assert JOB_ATTEMPT[0] == '/';
    ControlFits(JobFails());
    ControlFits(Uncaught());
    ControlFits(TriesAgain());
    NotAccepted(Outcome().(activation := ACTIVATION));
  }

  lemma {:induction false} NotAccepted(r: Record)
    requires r.output == Some(Twice())
    ensures !Acceptable(r)
  {
    var artifacts := Twice().artifacts;
    assert artifacts[0].name == artifacts[1].name;
  }

  lemma {:induction false} Waits(i: nat, run: Run)
    requires i < 4
    ensures |Opening()| == 4 && Deferred(run, Opening()[i], false) && Deferred(run, Uncaught(), false)
    ensures !Deferred(run, Outcome(), false) && !Deferred(run, JobFails(), false) && !Deferred(run, TriesAgain(), false)
  {
  }

  function Begun(): seq<Chapter> { [JobStart, Execution(HeaderRecord(1), [])] }

  lemma {:induction false} BegunIs()
    ensures Begun() == [JobStart, Execution(HeaderRecord(1), [])]
  {
  }

  /** The first requests are all deferred. */
  lemma {:induction false} Opens(n: nat) returns (s: System)
    requires n <= 4
    ensures |Opening()| == 4 && Ready(Program(), s, Begun(), Opening()[..n], Opening()[..n], false)
            && s.origin == [JobStart]
  {
    hide Ready, Filled, Opening, Deterministic, Deferred, Act, Program, Begun, Live;
    OpeningFits(0);
    BegunIs();
    if n == 0 {
      Deterministically();
      s := NewJob(Program(), 1);
      assert Opening()[..0] == [];
    } else {
      s := Opens(n - 1);
      var r, done := Opening()[n - 1], Opening()[..n - 1];
      OpeningFits(n - 1);
      OneMore(Opening(), n);
      ProgramAsks(done);
      ReadyMeans(Program(), s, Begun(), done, done, false);
      Waits(n - 1, s.executors[0].run);
      Defers(Program(), s, Begun(), done, done, false, r, false, 1);
      s := Act(Program(), s, CallFor(r, false, 1));
    }
  }

  /** The log once the task has run. */
  function Ran(): seq<Chapter> { Begun() + [Execution(ActivationRecord(1), [])] }

  function Written(r: Record): Record { r.(activation := ACTIVATION) }

  /** The log once the job's attempt has failed, and once it is to be tried again. */
  function Failed(): seq<Chapter> { Ran() + [Execution(Written(JobFails()), Opening())] }

  function Retried(): seq<Chapter> { Failed() + [Execution(Written(TriesAgain()), [Uncaught()])] }

  /** The task runs, and its outcome is refused. */
  lemma {:induction false} Runs() returns (s: System)
    ensures Ready(Program(), s, Ran(), Opening(), Opening(), true) && s.origin == [JobStart]
  {
    hide Ready, Filled, Shaped, Act, Program, Begun, Live, Opening, Deferred, Acceptable;
    var o := Program();
    OpeningFits(0);
    RestFits();
    s := Opens(4);
    assert Opening()[..4] == Opening();
    ProgramAsks(Opening());
    ReadyMeans(o, s, Begun(), Opening(), Opening(), false);
    Waits(0, s.executors[0].run);
    FailsToRecord(o, s, Begun(), Opening(), Opening(), Outcome(), 1);
    s := Act(o, s, CallFor(Outcome(), false, 1));
  }

  lemma {:induction false} Fails() returns (s: System)
    ensures Ready(Program(), s, Failed(), [], Opening() + [Written(JobFails())], true) && s.origin == [JobStart]
  {
    hide Ready, Filled, Shaped, Acceptable, Act, Program, Ran, Live, Opening, Deferred, Landing, Failed;
    Lands();
    var o := Program();
    OpeningFits(0);
    RestFits();
    s := Runs();
    ProgramAsks(Opening());
    ReadyMeans(o, s, Ran(), Opening(), Opening(), true);
    Waits(0, s.executors[0].run);
    GoesOn(o, s, Ran(), Opening(), Opening(), JobFails(), 1);
    s := Act(o, s, GoOn(0, KeyOf(JobFails()), JobFails(), false, Calm(1)));
  }

  lemma {:induction false} Lands()
    ensures Ran() + Landing(Opening(), JobFails(), true, 1) == Failed()
    ensures Failed() + Landing([Uncaught()], TriesAgain(), true, 1) == Retried()
  {
    hide Ran, Opening;
    LandsOne(Opening(), JobFails());
    LandsOne([Uncaught()], TriesAgain());
  }

  lemma {:induction false} LandsOne(pend: seq<Record>, r: Record)
    ensures Landing(pend, r, true, 1) == [Execution(Written(r), pend)]
  {
  }

  lemma {:induction false} Retries() returns (s: System)
    ensures IsReachable(Program(), s) && s.origin == [JobStart] && s.store == Retried()
  {
    hide Ready, Filled, Act, Program, Failed, Live, Opening, Deferred, IsReachable, Landing, Retried;
    var o := Program();
    OpeningFits(0);
    RestFits();
    s := Fails();
    var g5 := Opening() + [Written(JobFails())];
    ProgramAsks(g5);
    ReadyMeans(o, s, Failed(), [], g5, true);
    Waits(0, s.executors[0].run);
    Defers(o, s, Failed(), [], g5, true, Uncaught(), false, 1);
    s := Act(o, s, CallFor(Uncaught(), false, 1));
    var g6 := g5 + [Uncaught()];
    assert [] + [Uncaught()] == [Uncaught()];
    ProgramAsks(g6);
    ReadyMeans(o, s, Failed(), [Uncaught()], g6, true);
    Waits(0, s.executors[0].run);
    Commits(o, s, Failed(), [Uncaught()], g6, true, TriesAgain(), 1);
    s := Act(o, s, CallFor(TriesAgain(), false, 1));
    Lands();
    ReadyMeans(o, s, Retried(), [], g6 + [Written(TriesAgain())], true);
  }

  // ---- the log ----------------------------------------------------------------------------------------

  lemma {:induction false} RetriedLog()
    ensures Opening() + [Written(JobFails())] <= VisibleLog(Retried()) && |Opening()| == 4
  {
    hide ExpandAll, Visible, VisibleLog, Opening, Expand, Begun;
    var none: seq<Record> := [];
    var a, r := ActivationRecord(1), Written(JobFails());
    OpeningFits(0);
    OpeningIsVisible();
    BegunLog();
    VisibleLogSnoc(Begun(), Execution(a, []));
    ExpandVisible(a, none);
    VisibleLogSnoc(Ran(), Execution(r, Opening()));
    ExpandVisible(r, Opening());
    VisibleLogSnoc(Failed(), Execution(Written(TriesAgain()), [Uncaught()]));
    assert none + none + (Opening() + [r]) == Opening() + [r];
  }

  lemma {:induction false} BegunLog()
    ensures VisibleLog(Begun()) == []
  {
    NewLog();
    BegunIs();
  }

  lemma {:induction false} OpeningIsVisible()
    ensures AllVisible(Opening())
  {
    hide Opening;
    OpeningFits(0);
    forall i | 0 <= i < 4 ensures !EngineOnly(Opening()[i].kind) { OpeningFits(i); }
  }

  /** A reachable log, with no restart and no handler, that no executor gets
      through. */
  lemma {:induction false} OutcomeCanBeLost()
    ensures exists s ::
              IsReachable(Program(), s) && s.origin == [JobStart]
                  && !Replays(Program(), RestartIds(s.origin), VisibleLog(s.store))
  {
    hide IsReachable, VisibleLog, RestartIds, Opening, Retried;
    var s := Retries();
    RetriedLog();
    var log := VisibleLog(s.store);
    assert log[4] == (Opening() + [Written(JobFails())])[4] == Written(JobFails());
    assert |log[..4]| == 4;
    ProgramAsks(log[..4]);
    assert !Follows(Program(), RestartIds(s.origin), log[..4], log[4]);
  }
}

/** A run in which a catch handler runs out of time inside one of its own
    requests: the handled result it leaves is not what a later executor asks for. */
module ExpiredHandler {
  import opened Records
  import opened JsonText
  import opened History
  import opened Executors
  import opened Durability
  import opened Guarantees
  import opened Witness

  const JOB := "/scope:\"$job\"#1"
  const JOB_ATTEMPT := JOB + "/attempt:1"
  const INNER := JOB_ATTEMPT + "/scope:\"s\"#1"
  const INNER_ATTEMPT := INNER + "/attempt:1"
  const HANDLER_TASK := INNER_ATTEMPT + "/catch:r/task:\"t\"#1"
  const TASK_ATTEMPT := HANDLER_TASK + "/attempt:1"

  /** The records the run fills in: a scope fails, its rule matches, and the
      handler declares a task. */
  function Opening(): seq<Record> {
    [Blank(Scope, JOB).(at := 1, descriptor := Tree(Null)),
     Blank(Attempt, JOB_ATTEMPT).(at := 1, attempt := 1),
     Blank(Scope, INNER).(at := 1, descriptor := Tree(Null)),
     Blank(Attempt, INNER_ATTEMPT).(at := 1, attempt := 1),
     Blank(Result, INNER_ATTEMPT).(at := 1, errorKind := AppError),
     Blank(Catch, INNER_ATTEMPT).(at := 1, rule := "r"),
     Blank(Task, HANDLER_TASK).(at := 1, descriptor := Tree(Null))]
  }

  function Expired(): Record { Blank(Handled, INNER_ATTEMPT).(at := 1, errorKind := Timeout, disposition := Propagate) }

  function GivesUp(): Record { Blank(Decision, INNER_ATTEMPT).(at := 1, disposition := Propagate) }

  function JobFails(): Record { Blank(Result, JOB_ATTEMPT).(at := 1, errorKind := SystemError) }

  /** After the handler's task comes that task's first attempt. */
  function Program(): Orchestration {
    (g: seq<Record>) =>
      if |g| < 7 then Ask({KeyOf(Opening()[|g|])})
      else if |g| == 7 then Ask({Key(Attempt, TASK_ATTEMPT)})
      else if |g| == 8 then Ask({KeyOf(GivesUp())})
      else if |g| == 9 then Ask({KeyOf(JobFails())})
      else Done
  }

  lemma {:induction false} Deterministically()
    ensures Deterministic(Program())
  {
    hide Opening, StandTogether;
    forall g ensures AsksOne(Program()(g)) { ProgramAsks(g); }
    OneStandsTogether(Program());
    forall g, h | ClearAll(g) == ClearAll(h) ensures Program()(g) == Program()(h) {
      assert |ClearAll(g)| == |g| && |ClearAll(h)| == |h|;
    }
    forall g, k | Program()(g).Ask? && k in Program()(g).options ensures !EngineOnly(k.kind) {
      ProgramAsks(g);
      if |g| < 7 { OpeningFits(|g|); }
    }
  }

  lemma {:induction false} OpeningFits(i: nat)
    requires i < 7
    ensures |Opening()| == 7 && Filled(Opening()[i])
  {
    hide Acceptable;
    assert JOB[0] == '/' && JOB_ATTEMPT[0] == '/' && INNER[0] == '/' && INNER_ATTEMPT[0] == '/'
           && HANDLER_TASK[0] == '/';
    var r := Opening()[i];
    if r.kind in {Scope, Task} { DeclarationFits(r); } else { ControlFits(r); }
  }

  lemma {:induction false} OpeningWaits(i: nat, run: Run)
    requires i < 7
    ensures |Opening()| == 7 && Deferred(run, Opening()[i], true)
  {
  }

  lemma {:induction false} RestWaits(run: Run)
    ensures Deferred(run, GivesUp(), false) && !Deferred(run, JobFails(), false)
  {
  }

  lemma {:induction false} RestFits()
    ensures Filled(Expired()) && Filled(GivesUp()) && Filled(JobFails()) && HandlerTimedOut(Expired())
  {
    hide Acceptable;
    assert JOB_ATTEMPT[0] == '/' && INNER_ATTEMPT[0] == '/';
    ControlFits(Expired());
    ControlFits(GivesUp());
    ControlFits(JobFails());
  }

  lemma {:induction false} HandlerIsCut()
    ensures CutsHandler(Ask({Key(Attempt, TASK_ATTEMPT)}), INNER_ATTEMPT)
  {
    assert TASK_ATTEMPT[..|INNER_ATTEMPT + "/catch:"|] == INNER_ATTEMPT + "/catch:";
  }

  function Begun(): seq<Chapter> { [JobStart, Execution(HeaderRecord(1), [])] }

  /** The first requests are all deferred. */
  lemma {:induction false} Opens(n: nat) returns (s: System)
    requires n <= 7
    ensures |Opening()| == 7 && Ready(Program(), s, Begun(), Opening()[..n], Opening()[..n], false)
            && s.origin == [JobStart]
    ensures n > 0 ==> Live(s)
  {
    hide Ready, Filled, Opening, Deterministic, Deferred, Act, Program, Begun, Live;
    OpeningFits(0);
    BegunIs();
    if n == 0 {
      Deterministically();
      s := NewJob(Program(), 1);
      assert Opening()[..0] == [];
    } else {
      s := Opens(n - 1);
      var r, done := Opening()[n - 1], Opening()[..n - 1];
      OpeningFits(n - 1);
      OneMore(Opening(), n);
      ProgramAsks(done);
      ReadyMeans(Program(), s, Begun(), done, done, false);
      OpeningWaits(n - 1, s.executors[0].run);
      Defers(Program(), s, Begun(), done, done, false, r, true, 1);
      s := Act(Program(), s, CallFor(r, true, 1));
    }
  }

  lemma {:induction false} BegunIs()
    ensures Begun() == [JobStart, Execution(HeaderRecord(1), [])]
  {
  }

  lemma {:induction false} ProgramAsks(g: seq<Record>)
    ensures |Opening()| == 7
    ensures |g| < 7 ==> Program()(g) == Ask({KeyOf(Opening()[|g|])})
    ensures |g| == 7 ==> Program()(g) == Ask({Key(Attempt, TASK_ATTEMPT)})
    ensures |g| == 8 ==> Program()(g) == Ask({KeyOf(GivesUp())})
    ensures |g| == 9 ==> Program()(g) == Ask({KeyOf(JobFails())})
  {
  }

  function Pending(): seq<Record> { Opening() + [Expired()] + [GivesUp()] }

  /** The log once the job's attempt has failed. */
  function Failed(): seq<Chapter> {
    Begun() + [Execution(ActivationRecord(1), [])] + [Execution(JobFails().(activation := ACTIVATION), Pending())]
  }

  /** The handler expires; the scope is not tried again. */
  lemma {:induction false} Propagates() returns (s: System)
    ensures Ready(Program(), s, Begun(), Pending(), Pending(), false) && Live(s) && s.origin == [JobStart]
  {
    hide Ready, Filled, Opening, Act, Program, Begun, Live, CutsHandler, Deferred;
    var o := Program();
    OpeningFits(0);
    RestFits();
    HandlerIsCut();
    s := Opens(7);
    assert Opening()[..7] == Opening();
    ProgramAsks(Opening());
    HandlerExpires(o, s, Begun(), Opening(), Opening(), false, Expired(), 1);
    s := Act(o, s, ExpireHandler(0, Expired().id, Expired(), Calm(1)));
    var g8 := Opening() + [Expired()];
    ProgramAsks(g8);
    ReadyMeans(o, s, Begun(), g8, g8, false);
    RestWaits(s.executors[0].run);
    Defers(o, s, Begun(), g8, g8, false, GivesUp(), false, 1);
    s := Act(o, s, CallFor(GivesUp(), false, 1));
  }

  lemma {:induction false} Fails() returns (s: System)
    ensures IsReachable(Program(), s) && s.origin == [JobStart] && s.store == Failed()
  {
    hide Ready, IsReachable, Filled, Act, Program, Begun, Live, Pending, Deferred;
    var o := Program();
    RestFits();
    s := Propagates();
    var g9 := Pending();
    assert |g9| == 9 by { PendingLength(); }
    ProgramAsks(g9);
    ReadyMeans(o, s, Begun(), g9, g9, false);
    RestWaits(s.executors[0].run);
    Commits(o, s, Begun(), g9, g9, false, JobFails(), 1);
    s := Act(o, s, CallFor(JobFails(), false, 1));
    assert Begun() + Landing(g9, JobFails(), false, 1) == Failed();
    ReadyMeans(o, s, Failed(), [], g9 + [JobFails().(activation := ACTIVATION)], true);
  }

  lemma {:induction false} PendingLength()
    ensures |Pending()| == 9
  {
  }

  lemma {:induction false} FailedLog()
    ensures Pending() <= VisibleLog(Failed()) && |Opening()| == 7
  {
    hide ExpandAll, Visible, VisibleLog, Opening, Expand;
    var none: seq<Record> := [];
    var a, r := ActivationRecord(1), JobFails().(activation := ACTIVATION);
    var cs := Begun() + [Execution(a, [])];
    OpeningFits(0);
    PendingIsVisible();
    BegunLog();
    VisibleLogSnoc(Begun(), Execution(a, []));
    ExpandVisible(a, none);
    VisibleLogSnoc(cs, Execution(r, Pending()));
    ExpandVisible(r, Pending());
    assert none + none + (Pending() + [r]) == Pending() + [r];
  }

  lemma {:induction false} BegunLog()
    ensures VisibleLog(Begun()) == []
  {
    NewLog();
    BegunIs();
  }

  lemma {:induction false} PendingIsVisible()
    ensures AllVisible(Pending())
  {
    hide Opening;
    OpeningFits(0);
    forall i | 0 <= i < 7 ensures !EngineOnly(Opening()[i].kind) { OpeningFits(i); }
  }

  /** A reachable log that no executor gets through although nothing was
      restarted. */
  lemma {:induction false} HandlerCanExpire()
    ensures exists s ::
              IsReachable(Program(), s) && s.origin == [JobStart]
                  && !Replays(Program(), RestartIds(s.origin), VisibleLog(s.store))
  {
    hide IsReachable, VisibleLog, RestartIds, Opening, Failed;
    var s := Fails();
    FailedLog();
    var log := VisibleLog(s.store);
    assert log[7] == Pending()[7] == Expired();
    assert |log[..7]| == 7;
    assert !Follows(Program(), RestartIds(s.origin), log[..7], log[7]);
  }
}

/** A run in which a restart is not followed by its continuation: the enclosing
    attempt runs out of time between `applyRestart` computing the budgets and its
    recording them. The job goes on in its second attempt. */
module MissedRestart {
  import opened Text
  import opened Records
  import opened JsonText
  import opened History
  import opened Executors
  import opened Durability
  import opened Guarantees
  import opened RestartPoints
  import opened Witness

  const JOB := "/scope:\"$job\"#1"
  const ATTEMPT := JOB + "/attempt:1"
  const TARGET := ATTEMPT + "/scope:\"a\"#1"
  const AGAIN := JOB + "/attempt:2"
  const OTHER := AGAIN + "/scope:\"b\"#1"
  const SOURCE := JobKey("t", "j")

  function JobScope(): Record { Blank(Scope, JOB).(at := 1, descriptor := Tree(Null)) }

  function FirstAttempt(): Record { Blank(Attempt, ATTEMPT).(at := 1, attempt := 1) }

  /** A job restarted at TARGET, inside the first attempt of its own scope. */
  function Restarted(): seq<Chapter> {
    [JobStart, Execution(HeaderRecord(1),
                         [])] + [Execution(RestartMark(TARGET, [JobScope(), FirstAttempt()], SOURCE), [])]
  }

  function TimedOutResult(): Record { Blank(Result, ATTEMPT).(at := 1, errorKind := Timeout, attempt := 1) }

  function Uncaught(): Record { Blank(Catch, ATTEMPT).(at := 1, attempt := 1) }

  function Retries(): Record { Blank(Decision, ATTEMPT).(at := 1, attempt := 1, retry := true, wakeAt := 1) }

  function SecondAttempt(): Record { Blank(Attempt, AGAIN).(at := 1, attempt := 2) }

  function OtherScope(): Record { Blank(Scope, OTHER).(at := 1, descriptor := Tree(Null)) }

  /** Up to the second attempt: the restarted scope in the first one, and after
      its failure a retry. */
  function Opening(g: seq<Record>): Request {
    if |g| == 0 then Ask({KeyOf(JobScope())})
    else if |g| == 1 then Ask({KeyOf(FirstAttempt())})
    else if ClearAll(g) == ClearAll([JobScope(), FirstAttempt()]) then Ask({Key(Continuation, TARGET)})
    else if |g| == 3 then Ask({KeyOf(Uncaught())})
    else if |g| == 4 then Ask({KeyOf(Retries())})
    else if |g| == 5 then Ask({KeyOf(SecondAttempt())})
    else Done
  }

  /** The second attempt enters another scope. */
  function Program(): Orchestration {
    (g: seq<Record>) => if |g| == 6 then Ask({KeyOf(OtherScope())}) else Opening(g)
  }

  lemma {:induction false} RecordsFit()
    ensures Filled(JobScope()) && Filled(FirstAttempt()) && Filled(TimedOutResult()) && Filled(Uncaught())
    ensures Filled(Retries()) && Filled(SecondAttempt()) && Filled(OtherScope())
  {
    hide Acceptable;
    assert JOB[0] == '/' && ATTEMPT[0] == '/' && AGAIN[0] == '/' && OTHER[0] == '/';
    DeclarationFits(JobScope());
    DeclarationFits(OtherScope());
    ControlFits(FirstAttempt());
    ControlFits(SecondAttempt());
    ControlFits(TimedOutResult());
    ControlFits(Uncaught());
    ControlFits(Retries());
  }

  /** What a restart chapter brings. */
  lemma {:induction false} RestartExpands(cs: seq<Chapter>, target: string, retained: seq<Record>)
    requires AllVisible(retained)
    ensures var cs' := cs + [Execution(RestartMark(target, retained, SOURCE), [])];
            && ExpandAll(cs') == ExpandAll(cs) + retained + [RestartMark(target, retained, SOURCE)]
            && VisibleLog(cs') == VisibleLog(cs) + retained
            && LastRestart(cs') == Some(target) && RestartIds(cs') == RestartIds(cs) + {target}
               && FinalOutcome(cs') == FinalOutcome(cs)
  {
    hide ExpandAll, Visible, VisibleLog;
    var r := RestartMark(target, retained, SOURCE);
    var c := Execution(r, []);
    assert (cs + [c])[..|cs|] == cs;
    assert Expand(c) == retained + [r];
    VisibleLogSnoc(cs, c);
    VisibleConcat(retained, [r]);
    VisibleIsIdentity(retained);
    Hidden(r);
    assert ExpandAll(cs) + (retained + [r]) == ExpandAll(cs) + retained + [r];
  }

  lemma {:induction false} Hidden(r: Record)
    requires EngineOnly(r.kind)
    ensures Visible([r]) == []
  {
    assert [r][..0] == [];
  }

  lemma {:induction false} HeaderExpands()
    ensures var cs := [JobStart, Execution(HeaderRecord(1), [])];
            && ExpandAll(cs) == [HeaderRecord(1)] && VisibleLog(cs) == [] && RestartIds(cs) == {}
               && FinalOutcome(cs) == None
  {
    hide HeaderRecord;
    var h := Execution(HeaderRecord(1), []);
    NothingYet();
    assert [JobStart] + [h] == [JobStart, h] && [JobStart, h][..1] == [JobStart];
    assert HeaderRecord(1).kind == Header by { HeaderIs(1); }
    VisibleLogSnoc([JobStart], h);
    Hidden(HeaderRecord(1));
    assert VisibleLog([JobStart]) == [];
    assert Expand(h) == [HeaderRecord(1)];
  }

  lemma {:induction false} RestartedExpands()
    ensures ExpandAll(Restarted()) == [HeaderRecord(1), JobScope(), FirstAttempt(),
                                       RestartMark(TARGET, [JobScope(), FirstAttempt()], SOURCE)]
    ensures VisibleLog(Restarted()) == [JobScope(), FirstAttempt()]
    ensures LastRestart(Restarted()) == Some(TARGET) && RestartIds(Restarted()) == {TARGET}
            && FinalOutcome(Restarted()) == None
  {
    hide ExpandAll, VisibleLog, LastRestart, RestartIds, FinalOutcome, HeaderRecord, RestartMark;
    HeaderExpands();
    var retained := [JobScope(), FirstAttempt()];
    RestartExpands([JobStart, Execution(HeaderRecord(1), [])], TARGET, retained);
  }

  lemma {:induction false} SameLength(g: seq<Record>, h: seq<Record>)
    requires ClearAll(g) == ClearAll(h)
    ensures |g| == |h|
  {
    assert |ClearAll(g)| == |g| && |ClearAll(h)| == |h|;
  }

  lemma {:induction false} OpeningIsDeterministic()
    ensures forall g, h :: ClearAll(g) == ClearAll(h) ==> Opening(g) == Opening(h)
    ensures forall g, k :: Opening(g).Ask? && k in Opening(g).options ==> !EngineOnly(k.kind)
    ensures forall g :: AsksOne(Opening(g))
    ensures forall g, id :: Opening(g).Ask? && Key(Continuation, id) in Opening(g).options ==>
              Opening(g).options == {Key(Continuation, id)}
  {
    forall g, h | ClearAll(g) == ClearAll(h) ensures Opening(g) == Opening(h) { SameLength(g, h); }
  }

  lemma {:induction false} One(k: Key)
    ensures AsksOne(Ask({k}))
  {
  }

  lemma {:induction false} Deterministically()
    ensures Deterministic(Program())
  {
    hide Opening, StandTogether, AsksOne;
    OpeningIsDeterministic();
    forall g ensures AsksOne(Program()(g)) { One(KeyOf(OtherScope())); }
    OneStandsTogether(Program());
    forall g, h | ClearAll(g) == ClearAll(h) ensures Program()(g) == Program()(h) { SameLength(g, h); }
  }

  lemma {:induction false} RestartedIsOrigin()
    ensures OriginOk(Program(), Restarted())
  {
    hide Acceptable, ExpandAll, Visible, VisibleLog, LastRestart, RestartIds, Restarted, Legal, Program, AsksAlone,
         HeaderFirst, AllAcceptable;
    RestartedExpands();
    RestartedShape();
    RestartedIsLegal();
    AsksForTarget();
    assert Restarted()[..3] == Restarted();
  }

  lemma {:induction false} RestartedIsLegal()
    ensures Legal(Program(), [JobScope(), FirstAttempt()])
  {
    hide Opening;
    var log := [JobScope(), FirstAttempt()];
    OpeningAsks();
    assert log[..0] == [] && log[..1] == [JobScope()];
  }

  lemma {:induction false} AsksForTarget()
    ensures Program()([JobScope(), FirstAttempt()]) == Ask({Key(Continuation, TARGET)})
    ensures AsksAlone(Program(), {TARGET})
  {
    hide Opening, ClearAll;
    OpeningIsDeterministic();
    OpeningAsks();
  }

  lemma {:induction false} OpeningAsks()
    ensures Opening([]) == Ask({KeyOf(JobScope())}) && Opening([JobScope()]) == Ask({KeyOf(FirstAttempt())})
    ensures Opening([JobScope(), FirstAttempt()]) == Ask({Key(Continuation, TARGET)})
  {
  }

  lemma {:induction false} RestartedShape()
    ensures |Restarted()| == 3 && forall i :: 0 <= i < 3 ==> (Restarted()[i].JobStart? <==> i == 0)
    ensures HeaderFirst(ExpandAll(Restarted())) && AllAcceptable(ExpandAll(Restarted()))
  {
    hide ExpandAll, Acceptable, HeaderRecord;
    RestartedExpands();
    HeaderFits(1);
    HeaderIs(1);
    RecordsFit();
    MarkFits(TARGET, [JobScope(), FirstAttempt()], SOURCE);
    var rs := ExpandAll(Restarted());
    assert forall r :: r in rs ==> r == rs[0] || r == rs[1] || r == rs[2] || r == rs[3];
  }

  // ---- the run ----------------------------------------------------------------------------------------

  function Written(r: Record): Record { r.(activation := ACTIVATION) }

  /** The log once the attempt has timed out. */
  function Lost(): seq<Chapter> {
    Restarted() + [Execution(ActivationRecord(1), [])] + [Execution(Written(TimedOutResult()), [])]
  }

  function LostLog(): seq<Record> { [JobScope(), FirstAttempt(), Written(TimedOutResult())] }

  /** History is read back; at the target time runs out. */
  lemma {:induction false} RunsOut() returns (s: System)
    ensures Ready(Program(), s, Restarted(), [], [JobScope(), FirstAttempt()], false) && Live(s)
            && s.origin == Restarted()
  {
    hide Ready, Replaying, OriginOk, Deterministic, ExpandAll, LastRestart, RestartIds, FinalOutcome, Filled,
         Opening, RestartMark;
    var o := Program();
    Deterministically();
    RestartedIsOrigin();
    RestartedExpands();
    OpeningAsks();
    s := RestartedJob(o, Restarted(), TARGET);
    s := ReadsNext(o, s, Restarted(), [], 1, TARGET);
    assert [] + [JobScope()] == [JobScope()];
    s := ReadsNext(o, s, Restarted(), [JobScope()], 2, TARGET);
    var got := [JobScope()] + [FirstAttempt()];
    assert got == [JobScope(), FirstAttempt()];
    assert TARGET[0] == '/';
    assert Skipped(RestartMark(TARGET, got, SOURCE).kind) by { MarkFits(TARGET, got, SOURCE); }
    s := RunsOutAtTarget(o, s, Restarted(), got, 3, TARGET);
  }

  lemma {:induction false} Loses() returns (s: System)
    ensures Ready(Program(), s, Lost(), [], LostLog(), true) && Live(s) && s.origin == Restarted()
  {
    hide Ready, Filled, Opening, Restarted, Cuts, Act, Live;
    RecordsFit();
    OpeningAsks();
    s := RunsOut();
    CutShort();
    var o, got, r := Program(), [JobScope(), FirstAttempt()], TimedOutResult();
    Expires(o, s, Restarted(), [], got, false, r, 1);
    s := Act(o, s, Expire(0, r.id, r, false, Calm(1)));
    assert Restarted() + Landing([], r, false, 1) == Lost();
    assert got + [Written(r)] == LostLog();
  }

  lemma {:induction false} CutShort()
    ensures Cuts(Ask({Key(Continuation, TARGET)}), ATTEMPT)
  {
    assert TARGET[..|ATTEMPT + "/"|] == ATTEMPT + "/";
  }

  lemma {:induction false} LostExpands()
    ensures VisibleLog(Lost()) == LostLog()
    ensures ExpandAll(Lost()) == ExpandAll(Restarted()) + [ActivationRecord(1)] + [Written(TimedOutResult())]
    ensures RestartIds(Lost()) == {TARGET} && FinalOutcome(Lost()) == None
  {
    hide ExpandAll, Visible, VisibleLog, Restarted, FinalOutcome, RestartIds, LastRestart;
    RestartedExpands();
    var none: seq<Record> := [];
    var a, r := ActivationRecord(1), Written(TimedOutResult());
    var cs := Restarted() + [Execution(a, [])];
    Adds(Restarted(), a, none);
    Adds(cs, r, none);
    assert none + [a] == [a] && none + [r] == [r];
    assert [JobScope(), FirstAttempt()] + [] + [r] == LostLog();
  }

  /** What an ordinary chapter adds. */
  lemma {:induction false} Adds(cs: seq<Chapter>, r: Record, prefix: seq<Record>)
    requires r.kind != Restart && AllVisible(prefix)
    ensures var cs' := cs + [Execution(r, prefix)];
            && ExpandAll(cs') == ExpandAll(cs) + (prefix + [r])
            && VisibleLog(cs') == VisibleLog(cs) + (prefix + if EngineOnly(r.kind) then [] else [r])
            && RestartIds(cs') == RestartIds(cs) && FinalOutcome(cs') == FinalOutcome(cs)
  {
    hide ExpandAll, Visible, VisibleLog, Expand;
    VisibleLogSnoc(cs, Execution(r, prefix));
    ExpandVisible(r, prefix);
    RestartsSnoc(cs, Execution(r, prefix));
    assert (cs + [Execution(r, prefix)])[..|cs|] == cs;
  }

  lemma {:induction false} LostDoesNotReplay(o: Orchestration, log: seq<Record>, restarts: set<string>)
    requires TARGET in restarts && o([JobScope(), FirstAttempt()]) == Ask({Key(Continuation, TARGET)})
    requires LostLog() <= log
    ensures !Replays(o, restarts, log)
  {
    assert log[..2] == LostLog()[..2] == [JobScope(), FirstAttempt()];
    assert log[2] == LostLog()[2];
    assert !Follows(o, restarts, log[..2], log[2]);
  }

  /** A reachable log in which the newest restart has lost its continuation. */
  lemma {:induction false} ContinuationCanBeLost()
    ensures exists s :: IsReachable(Program(), s) && s.origin == Restarted() && s.store == Lost()
                        && !Replays(Program(), RestartIds(s.origin), VisibleLog(s.store))
  {
    hide VisibleLog, RestartIds, IsReachable, Frontiers, Lost, Restarted, Replays, Program, AsksAlone, LostLog;
    var s := Loses();
    RestartedExpands();
    LostExpands();
    AsksForTarget();
    LostDoesNotReplay(Program(), LostLog(), {TARGET});
  }
}

/** A job restarted twice, whose log is blocked by the older restart: the newer
    one keeps a history in which the older has lost its continuation. */
module OlderRestart {
  import opened Text
  import opened Records
  import opened History
  import opened Executors
  import opened Durability
  import opened Guarantees
  import opened RestartPoints
  import opened Witness
  import opened MissedRestart

  const HANDOFF := "checkpoint:1"

  /** The log once the job has decided to try again. */
  function Retried(): seq<Chapter> { Lost() + [Execution(Written(Retries()), [Uncaught()])] }

  function Paused(): Record { Blank(Checkpoint, HANDOFF).(at := 1, activation := ACTIVATION) }

  /** The log once the second attempt has handed off inside the other scope. */
  function HandedOff(): seq<Chapter> { Retried() + [Execution(Paused(), [SecondAttempt(), OtherScope()])] }

  /** The log of the job restarted at the other scope. */
  function RestartedAgain(): seq<Chapter> { Retried() + [Execution(RestartMark(OTHER, [SecondAttempt()], SOURCE), [])] }

  function RetriedLog(): seq<Record> { LostLog() + [Uncaught(), Written(Retries())] }

  function AgainLog(): seq<Record> { RetriedLog() + [SecondAttempt()] }

  // ---- the first job hands off ---------------------------------------------------------------------------

  lemma {:induction false} ProgramAsks(g: seq<Record>)
    ensures |g| == 3 ==> Program()(g) == Ask({KeyOf(Uncaught())})
    ensures |g| == 4 ==> Program()(g) == Ask({KeyOf(Retries())})
    ensures |g| == 5 ==> Program()(g) == Ask({KeyOf(SecondAttempt())})
    ensures |g| == 6 ==> Program()(g) == Ask({KeyOf(OtherScope())})
  {
    if ClearAll(g) == ClearAll([JobScope(), FirstAttempt()]) { SameLength(g, [JobScope(), FirstAttempt()]); }
  }

  lemma {:induction false} HandsOff() returns (s: System)
    ensures IsReachable(Program(), s) && s.origin == Restarted() && s.store == HandedOff()
  {
    hide Ready, Filled, Program, IsReachable, Lost, LostLog, Restarted, Act, Live;
    var o := Program();
    RecordsFit();
    LostLength();
    s := Loses();
    var g3 := LostLog();
    ProgramAsks(g3);
    Defers(o, s, Lost(), [], g3, true, Uncaught(), false, 1);
    s := Act(o, s, CallFor(Uncaught(), false, 1));
    var g4 := g3 + [Uncaught()];
    assert [] + [Uncaught()] == [Uncaught()];
    ProgramAsks(g4);
    Commits(o, s, Lost(), [Uncaught()], g4, true, Retries(), 1);
    s := Act(o, s, CallFor(Retries(), false, 1));
    assert Lost() + Landing([Uncaught()], Retries(), true, 1) == Retried();
    s := EntersOther(s, g4 + [Written(Retries())]);
  }

  lemma {:induction false} LostLength()
    ensures |LostLog()| == 3
  {
  }

  lemma {:induction false} EntersOther(s: System, g5: seq<Record>) returns (s': System)
    requires Ready(Program(), s, Retried(), [], g5, true) && |g5| == 5
    ensures IsReachable(Program(), s') && s'.origin == s.origin && s'.store == HandedOff()
  {
    hide Ready, Filled, Program, IsReachable, Retried, Act, Live;
    var o := Program();
    RecordsFit();
    ProgramAsks(g5);
    Defers(o, s, Retried(), [], g5, true, SecondAttempt(), false, 1);
    s' := Act(o, s, CallFor(SecondAttempt(), false, 1));
    var g6 := g5 + [SecondAttempt()];
    assert [] + [SecondAttempt()] == [SecondAttempt()];
    ProgramAsks(g6);
    Defers(o, s', Retried(), [SecondAttempt()], g6, true, OtherScope(), false, 1);
    s' := Act(o, s', CallFor(OtherScope(), false, 1));
    assert [SecondAttempt()] + [OtherScope()] == [SecondAttempt(), OtherScope()];
    Checkpoints(o, s', Retried(), [SecondAttempt(), OtherScope()], g6 + [OtherScope()], HANDOFF, 1);
    s' := Act(o, s', CheckpointPath(0, HANDOFF, Calm(1)));
  }

  // ---- the restart is resolved ---------------------------------------------------------------------------

  lemma {:induction false} Different()
    ensures OTHER != JOB && OTHER != ATTEMPT && OTHER != TARGET && OTHER != AGAIN && OTHER != HANDOFF && OTHER != ""
  {
    assert |JOB| == 15;
    assert OTHER[|JOB| + 9] == '2' && TARGET[|JOB| + 9] == '1';
  }

  lemma {:induction false} CountOne(cs: seq<Chapter>, c: Chapter, target: string)
    requires forall r :: r in Listed(c) ==> !Declares(r, target)
    ensures AllDeclarations(cs + [c], target) == AllDeclarations(cs, target)
  {
    NoneDeclared(Listed(c), target);
    assert (cs + [c])[..|cs|] == cs;
  }

  lemma {:induction false} NoneDeclared(rs: seq<Record>, target: string)
    requires forall r :: r in rs ==> !Declares(r, target)
    ensures Declarations(rs, target) == 0
  {
    if rs != [] { NoneDeclared(rs[..|rs| - 1], target); }
  }

  /** A chapter whose records all belong elsewhere. */
  predicate Elsewhere(c: Chapter) {
    c.JobStart? || (c.Execution? && c.record.id != OTHER && forall r :: r in Listed(c) ==> r.id != OTHER)
  }

  lemma {:induction false} ElsewhereIn(c: Chapter)
    requires c in Retried()
    ensures (forall r :: r in Listed(c) ==> !Belongs(r, OTHER)) && !CutHere(c, OTHER)
  {
    hide FirstOf, Retried, Listed;
    AllElsewhere(c);
    ListedIs(c);
  }

  lemma {:induction false} AllElsewhere(c: Chapter)
    requires c in Retried()
    ensures Elsewhere(c)
  {
    hide Listed, Restarted;
    Different();
    ListedIs(c);
    if c in Restarted() { StartElsewhere(c); }
  }

  lemma {:induction false} StartElsewhere(c: Chapter)
    requires c in Restarted()
    ensures Elsewhere(c)
  {
    hide Listed, HeaderRecord, RestartMark;
    Different();
    HeaderIs(1);
    MarkFits(TARGET, [JobScope(), FirstAttempt()], SOURCE);
    ListedIs(c);
  }

  lemma {:induction false} ListedIs(c: Chapter)
    ensures c.JobStart? ==> Listed(c) == []
    ensures c.Execution? && c.record.kind != Restart ==> Listed(c) == c.prefix
    ensures c.Execution? && c.record.kind == Restart && c.record.descriptor.Retained? ==>
              Listed(c) == c.record.descriptor.records
  {
  }

  lemma {:induction false} CountSoFar()
    ensures AllDeclarations(Retried(), OTHER) == 0
  {
    hide AllDeclarations, Listed;
    CountUpTo(|Retried()|);
    assert Retried()[..|Retried()|] == Retried();
  }

  lemma {:induction false} CountUpTo(n: nat)
    requires n <= |Retried()|
    ensures AllDeclarations(Retried()[..n], OTHER) == 0
  {
    hide Listed, Retried, CutHere;
    if n > 0 {
      CountUpTo(n - 1);
      var cs, c := Retried()[..n - 1], Retried()[n - 1];
      ElsewhereIn(c);
      forall r | r in Listed(c) ensures !Declares(r, OTHER) { assert !Belongs(r, OTHER); }
      CountOne(cs, c, OTHER);
      assert Retried()[..n] == cs + [c];
    }
  }

  /** The chapter that declares the other scope. */
  lemma {:induction false} DeclaresOther(c: Chapter)
    requires c == Execution(Paused(), [SecondAttempt(), OtherScope()])
    ensures FirstOf(Listed(c), OTHER) == 1 && CutHere(c, OTHER) && Listed(c)[..1] == [SecondAttempt()]
            && Declarations(Listed(c), OTHER) == 1
  {
    Different();
    var rs := Listed(c);
    assert rs == [SecondAttempt(), OtherScope()];
    assert !Belongs(rs[0], OTHER) && Belongs(rs[1], OTHER);
    assert rs[..1] == [SecondAttempt()] && [SecondAttempt()][..0] == [];
    assert Declarations(rs[..1], OTHER) == 0;
  }

  lemma {:induction false} ResolvesToAgain()
    ensures RestartAt(HandedOff(), OTHER, SOURCE) == Some(RestartedAgain())
  {
    hide FirstOf, CutHere, Listed, Declarations, AllDeclarations, CutIn, Retried;
    var cs, n := HandedOff(), |Retried()|;
    var c := cs[n];
    Different();
    DeclaresOther(c);
    CountSoFar();
    CountLast(Retried(), c);
    forall i | 0 <= i < n ensures !CutHere(cs[i], OTHER) { ElsewhereIn(cs[i]); }
    var cut := CutIn(cs, OTHER);
    assert cut.Cut? && cut.chapter == n;
    assert cs[..n] == Retried();
    HasHeader();
    assert cs[1].Execution? && cs[1].record.kind == Header;
  }

  lemma {:induction false} CountLast(cs: seq<Chapter>, c: Chapter)
    ensures AllDeclarations(cs + [c], OTHER) == AllDeclarations(cs, OTHER) + Declarations(Listed(c), OTHER)
  {
    assert (cs + [c])[..|cs|] == cs;
  }

  lemma {:induction false} HasHeader()
    ensures |Retried()| == 6 && Retried()[1] == Execution(HeaderRecord(1), []) && HeaderRecord(1).kind == Header
    ensures forall i :: 0 <= i < 6 ==> (Retried()[i].JobStart? <==> i == 0)
  {
  }

  // ---- the second restart is blocked by the first ----------------------------------------------------------

  /** The restarted job's orchestration: it is at the other scope once it has
      been handed all that was retained. */
  function ProgramAgain(): Orchestration {
    (g: seq<Record>) => if ClearAll(g) == ClearAll(AgainLog()) then Ask({Key(Continuation, OTHER)}) else Opening(g)
  }

  lemma {:induction false} DeterministicAgain()
    ensures Deterministic(ProgramAgain()) && AsksAlone(ProgramAgain(), {TARGET} + {OTHER})
  {
    hide Opening, ClearAll, AgainLog, StandTogether, AsksOne;
    OpeningIsDeterministic();
    forall g ensures AsksOne(ProgramAgain()(g)) { One(Key(Continuation, OTHER)); }
    OneStandsTogether(ProgramAgain());
  }

  lemma {:induction false} AgainShape()
    ensures |AgainLog()| == 6
    ensures AgainLog() == [JobScope(), FirstAttempt(), Written(TimedOutResult()), Uncaught(), Written(Retries()),
                           SecondAttempt()]
  {
  }

  lemma {:induction false} AgainAsks(n: nat)
    requires n < 6
    ensures |AgainLog()| == 6 && ProgramAgain()(AgainLog()[..n]) == Opening(AgainLog()[..n])
    ensures n != 2 ==> Opening(AgainLog()[..n]) == Ask({KeyOf(AgainLog()[n])})
    ensures n == 2 ==>
              AgainLog()[..n] == [JobScope(), FirstAttempt()]
                  && Opening(AgainLog()[..n]) == Ask({Key(Continuation, TARGET)})
  {
    AgainShape();
    var log := AgainLog();
    var g := log[..n];
    if ClearAll(g) == ClearAll(log) { SameLength(g, log); }
    if n == 2 { assert g == [JobScope(), FirstAttempt()]; }
    if ClearAll(g) == ClearAll([JobScope(), FirstAttempt()]) { SameLength(g, [JobScope(), FirstAttempt()]); }
  }

  lemma {:induction false} AgainIsLegal()
    ensures Legal(ProgramAgain(), AgainLog()) && Replays(ProgramAgain(), {OTHER}, AgainLog())
  {
    hide Opening, ClearAll, AgainLog, ProgramAgain;
    AgainShape();
    Different();
    CutShort();
    var log := AgainLog();
    forall i | 0 <= i < |log| ensures Justified(ProgramAgain(), log[..i], log[i])
        && Follows(ProgramAgain(), {OTHER}, log[..i], log[i]) {
      AgainAsks(i);
    }
  }

  lemma {:induction false} AgainExpands()
    ensures VisibleLog(RestartedAgain()) == AgainLog() && LastRestart(RestartedAgain()) == Some(OTHER)
    ensures RestartIds(RestartedAgain()) == {TARGET} + {OTHER}
    ensures ExpandAll(RestartedAgain())
            == ExpandAll(Lost()) + ([Uncaught()] + [Written(Retries())]) + [SecondAttempt()]
               + [RestartMark(OTHER, [SecondAttempt()], SOURCE)]
  {
    hide ExpandAll, VisibleLog, LastRestart, RestartIds, FinalOutcome, RestartMark, Lost;
    LostExpands();
    Adds(Lost(), Written(Retries()), [Uncaught()]);
    RestartExpands(Retried(), OTHER, [SecondAttempt()]);
    assert LostLog() + ([Uncaught()] + [Written(Retries())]) == RetriedLog();
  }

  lemma {:induction false} AgainIsOrigin()
    ensures OriginOk(ProgramAgain(), RestartedAgain())
  {
    hide ExpandAll, VisibleLog, LastRestart, RestartIds, Legal, AllAcceptable, HeaderFirst, AgainLog, Replays,
         AsksAlone, Opening, Retried, RestartMark;
    AgainExpands();
    AgainIsLegal();
    DeterministicAgain();
    HasHeader();
    KeptIsSound();
    var cs := RestartedAgain();
    assert cs[..|cs|] == cs;
    assert forall i :: 0 <= i < |cs| ==> (cs[i].JobStart? <==> i == 0);
  }

  /** What is kept was written by the first job. */
  lemma {:induction false} KeptIsSound()
    ensures HeaderFirst(ExpandAll(RestartedAgain())) && AllAcceptable(ExpandAll(RestartedAgain()))
  {
    hide IsReachable, RestartAt, HandedOff, RestartedAgain, HeaderFirst, AllAcceptable, Legal;
    var s := HandsOff();
    ReachableInv(Program(), s);
    ResolvesToAgain();
    RestartedLogIsLegal(Program(), s.origin, s.store, OTHER, SOURCE);
  }

  /** A job restarted at a scope that an earlier restarted job had reached, whose
      log no executor gets through although its newest restart has lost nothing. */
  lemma {:induction false} OlderContinuationCanBeLost()
    ensures exists first, again ::
              && IsReachable(Program(), first)
              && IsReachable(ProgramAgain(), again) && RestartAt(first.store, OTHER, SOURCE) == Some(again.origin)
                 && again.store == again.origin
              && LastRestart(again.origin) == Some(OTHER) && Replays(ProgramAgain(), {OTHER}, VisibleLog(again.store))
              && !Replays(ProgramAgain(), RestartIds(again.origin), VisibleLog(again.store))
  {
    hide IsReachable, RestartAt, HandedOff, RestartedAgain, Replays, Program, ProgramAgain, LastRestart, RestartIds,
         VisibleLog, OriginOk, Deterministic;
    var first := HandsOff();
    ResolvesToAgain();
    AgainIsOrigin();
    DeterministicAgain();
    AgainExpands();
    AgainIsLegal();
    var again := Initial(RestartedAgain());
    ReachableAtStart(ProgramAgain(), RestartedAgain());
    BlockedByOlder();
  }

  lemma {:induction false} BlockedByOlder()
    ensures !Replays(ProgramAgain(), {TARGET} + {OTHER}, AgainLog())
  {
    hide Opening, ProgramAgain;
    AgainAsks(2);
    AgainShape();
    LostDoesNotReplay(ProgramAgain(), AgainLog(), {TARGET} + {OTHER});
  }
}

/** What holds of every history the writer can leave behind, through any number
    of crashes, cuts and recoveries. */
module EngineTheorems {
  import opened Text
  import opened Records
  import opened Policies
  import opened Paths
  import opened CatchHistory
  import opened EngineLog
  import opened EngineAccepted
  import opened Engine
  import opened EngineRuns
  import opened EngineMoves
  import opened EngineBudgets
  import D = Deadlines

  // ---- crashes and recovery -----------------------------------------------------------------

  /** What happens to a job: the running executor moves, or it is gone and the
      first `kept` records are what the next one finds, after a crash or a
      restart. */
  datatype Happening = Moves(m: Move) | Crash(kept: nat)

  /** A job: its durable records, and what its present executor has done. */
  datatype Job = Job(durable: seq<Entry>, moves: seq<Move>)

  /** An executor goes through the durable records first: a move that would record
      anything else is refused. */
  ghost function Happen(j: Job, h: Happening): Job {
    match h
    case Moves(m) =>
      var log := DoAll(j.moves + [m]).log;
      if log <= j.durable then j.(moves := j.moves + [m])
      else if j.durable <= log then Job(log, j.moves + [m])
      else j
    case Crash(kept) => Job(if kept < |j.durable| then j.durable[..kept] else j.durable, [])
  }

  ghost function HappenAll(hs: seq<Happening>): Job {
    if hs == [] then Job([], []) else Happen(HappenAll(hs[..|hs| - 1]), hs[|hs| - 1])
  }

  lemma {:induction false} OneAtATime(w: Writer, m: Move)
    ensures w.log <= Do(w, m).log && |Do(w, m).log| <= |w.log| + 1
  {
    hide Limit, Retries, NextAttempt, Print, FreshBudgets;
  }

  /** A run cut anywhere is a run. */
  lemma {:induction false} CutIsRun(moves: seq<Move>, n: nat) returns (fewer: seq<Move>)
    requires n <= |DoAll(moves).log|
    ensures DoAll(fewer).log == DoAll(moves).log[..n]
  {
    hide Do;
    if n == |DoAll(moves).log| {
      fewer := moves;
      assert DoAll(moves).log[..n] == DoAll(moves).log;
    } else {
      var last := |moves| - 1;
      OneAtATime(DoAll(moves[..last]), moves[last]);
      fewer := CutIsRun(moves[..last], n);
      assert DoAll(moves).log[..n] == DoAll(moves[..last]).log[..n];
    }
  }

  /** Whatever crashes, cuts and recoveries there have been, what is durable is
      the history of one run that nothing interrupted. */
  lemma {:induction false} DurableIsOneRun(hs: seq<Happening>) returns (moves: seq<Move>)
    ensures DoAll(moves).log == HappenAll(hs).durable
  {
    hide DoAll;
    moves := [];
    if hs == [] {
      assert DoAll([]).log == [] by { NothingRecorded(); }
    } else {
      var before := HappenAll(hs[..|hs| - 1]);
      moves := DurableIsOneRun(hs[..|hs| - 1]);
      match hs[|hs| - 1]
      case Moves(m) =>
        var log := DoAll(before.moves + [m]).log;
        if !(log <= before.durable) && before.durable <= log { moves := before.moves + [m]; }
      case Crash(kept) =>
        if kept < |before.durable| { moves := CutIsRun(moves, kept); }
    }
  }

  lemma {:induction false} NothingRecorded()
    ensures DoAll([]).log == []
  {
  }

  // ---- acceptance and order -------------------------------------------------------------------

  /** Whatever the orchestration does, however often it is interrupted, and
      wherever its history is cut, the catch-history reader accepts it. */
  lemma {:induction false} EngineHistoriesAreAccepted(hs: seq<Happening>, n: nat)
    requires n <= |HappenAll(hs).durable|
    ensures Project(RecordsOf(HappenAll(hs).durable)[..n]).Ok?
  {
    hide DoAll, HappenAll, WellRecorded, Retried, FrameOk, Inside, Project;
    var moves := DurableIsOneRun(hs);
    RunsKeep(moves);
    CutsAreAccepted(DoAll(moves).log, n);
  }

  /** Where the record of a kind at a place stands. */
  ghost predicate StandsAt(log: seq<Entry>, k: Kind, p: Path, i: int) {
    0 <= i < |log| && log[i].record.kind == k && log[i].path == p
  }

  /** The control records of an attempt come in order: its failure, the
      selection, the handled result if a rule was selected, the decision; and the
      decision repeats the handled disposition, or propagates a predicate's own
      failure. */
  lemma {:induction false} ControlComesInOrder(hs: seq<Happening>, p: Path, d: nat) returns (r: nat, c: nat, h: nat)
    requires StandsAt(HappenAll(hs).durable, Decision, p, d)
    ensures var log := HappenAll(hs).durable;
            && r < c < d && StandsAt(log, Result, p, r) && StandsAt(log, Catch, p, c)
            && log[r].record.errorKind != NoError
            && (log[c].record.rule != "" ==>
                  && c < h < d && StandsAt(log, Handled, p, h) && log[h].record.disposition == log[d].record.disposition
                  && (log[d].record.retry ==> log[h].record.errorKind != NoError))
            && (log[c].record.rule == "" ==> forall i :: 0 <= i <= d ==> !StandsAt(log, Handled, p, i))
            && (log[c].record.errorKind != NoError ==>
                  log[c].record.rule == "" && log[d].record.disposition == Propagate)
            && (log[d].record.retry ==> log[d].record.disposition != Propagate && log[d].record.wakeAt != ZERO_TIME)
  {
    hide DoAll, HappenAll, WellRecorded, Retried, FrameOk, Inside;
    var moves := DurableIsOneRun(hs);
    RunsKeep(moves);
    r, c, h := OrderIn(HappenAll(hs).durable, p, d);
  }

  lemma {:induction false} OrderIn(log: seq<Entry>, p: Path, d: nat) returns (r: nat, c: nat, h: nat)
    requires WellRecorded(log) && StandsAt(log, Decision, p, d)
    ensures r < c < d && StandsAt(log, Result, p, r) && StandsAt(log, Catch, p, c)
            && log[r].record.errorKind != NoError
            && (log[c].record.rule != "" ==>
                  && c < h < d && StandsAt(log, Handled, p, h) && log[h].record.disposition == log[d].record.disposition
                  && (log[d].record.retry ==> log[h].record.errorKind != NoError))
            && (log[c].record.rule == "" ==> forall i :: 0 <= i <= d ==> !StandsAt(log, Handled, p, i))
            && (log[c].record.errorKind != NoError ==>
                  log[c].record.rule == "" && log[d].record.disposition == Propagate)
            && (log[d].record.retry ==> log[d].record.disposition != Propagate && log[d].record.wakeAt != ZERO_TIME)
  {
    hide WellRecorded, Find, PolicyIn, PathOk;
    DecisionPlain(log, d);
    c := PlaceOf(log[..d], Catch, p);
    SelectionPlain(log, c);
    r := PlaceOf(log[..c], Result, p);
    h := 0;
    if log[c].record.rule != "" {
      h := PlaceOf(log[..d], Handled, p);
      HandledPlain(log, h);
      var c' := PlaceOf(log[..h], Catch, p);
      SameSlot(log, c, c');
    } else {
      assert forall i :: 0 <= i < d ==> log[..d][i] == log[i];
    }
  }

  // ---- retries ------------------------------------------------------------------------------------

  /** The policy a boundary was found under is the one its declaration records. */
  lemma {:induction false} PolicyIsStable(log: seq<Entry>, i: nat, b: Path)
    requires WellRecorded(log) && i < |log| && IsBoundaryPath(b) && b <= log[i].path && b != log[i].path
    ensures PolicyAt(log[..i], b) == PolicyAt(log, b)
  {
    hide WellRecorded, Find, PolicyIn, PathOk, Opened, PlainRules;
    var k := if b[|b| - 1].kind == "task" then Task else Scope;
    if Has(log[..i], k, b) {
      FindInPrefix(log, i, k, b);
    } else if Has(log, k, b) {
      var j := PlaceOf(log, k, b);
      assert i != j;
      NotInPrefix(log, i, k, b, j);
      DeclaresFirst(log, j, i);
    }
  }

  lemma {:induction false} NotInPrefix(log: seq<Entry>, i: nat, k: Kind, b: Path, j: nat)
    requires i <= |log| && !Has(log[..i], k, b) && StandsAt(log, k, b, j)
    ensures i <= j
  {
    hide Find;
    assert forall m :: 0 <= m < i ==> log[..i][m] == log[m];
  }

  lemma {:induction false} LimitIsPositive(log: seq<Entry>, b: Path)
    requires WellRecorded(log) && IsBoundaryPath(b)
    ensures PolicyAt(log, b).maximumAttempts >= 1
  {
    hide WellRecorded, Find, PolicyIn, PathOk, Opened, PlainRules;
    var k := if b[|b| - 1].kind == "task" then Task else Scope;
    if Has(log, k, b) {
      var j := PlaceOf(log, k, b);
      EntryOk(log, j);
    }
  }

  /** A retry in the log: the decision at one attempt that let the next one start. */
  ghost predicate RetriedFrom(log: seq<Entry>, b: Path, n: nat, i: int) {
    && StandsAt(log, Decision, b + [Try(n)], i) && log[i].record.retry
    && IsAttemptPath(log[i].path) && RetryAllowed(log[..i], log[i])
  }

  /** An attempt after the first rests on an earlier decision to retry, which was
      within the limit, did not follow propagation or a failure recorded as
      non-retryable, and was made before the total deadline. */
  lemma {:induction false} RetriesAreDecided(hs: seq<Happening>, j: nat) returns (i: nat)
    requires var log := HappenAll(hs).durable; j < |log| && IsControl(log[j].record.kind)
    ensures var log := HappenAll(hs).durable;
            && IsAttemptPath(log[j].path)
            && var b, n := log[j].path[..|log[j].path| - 1], log[j].path[|log[j].path| - 1].number;
               n >= 2 ==> i < j && RetriedFrom(log, b, n - 1, i)
  {
    hide DoAll, HappenAll, WellRecorded, FrameOk, Inside, Find, RetryAllowed, PathOk;
    var log := HappenAll(hs).durable;
    var moves := DurableIsOneRun(hs);
    RunsKeep(moves);
    assert TryNext(log[..j], log[j]);
    i := 0;
    var b, n := log[j].path[..|log[j].path| - 1], log[j].path[|log[j].path| - 1].number;
    if n >= 2 {
      i := PlaceOf(log[..j], Decision, b + [Try(n - 1)]);
      assert log[..j][i] == log[i];
      assert TryNext(log[..i], log[i]);
    }
  }

  // ---- where budgets come from ----------------------------------------------------------------

  /** Budgets that some move of a run has set. */
  ghost predicate SetBy(moves: seq<Move>, m: int, budgets: Budgets) {
    && 0 <= m < |moves| && moves[m].Continues? && MayOpen(DoAll(moves[..m]), moves[m].kind, moves[m].site)
    && budgets == FreshBudgets(DoAll(moves[..m]), moves[m].now)
  }

  ghost predicate Sourced(moves: seq<Move>, budgets: Budgets) {
    budgets == map[] || exists m :: SetBy(moves, m, budgets)
  }

  ghost predicate AllSourced(moves: seq<Move>, w: Writer) {
    && Sourced(moves, w.budgets)
    && (forall i :: 0 <= i < |w.stack| ==> Sourced(moves, w.stack[i].budgets))
    && (forall i :: 0 <= i < |w.log| ==> Sourced(moves, w.log[i].budgets))
  }

  lemma {:induction false} SourcedLater(moves: seq<Move>, m: Move, budgets: Budgets)
    requires Sourced(moves, budgets)
    ensures Sourced(moves + [m], budgets)
  {
    hide DoAll, FreshBudgets;
    if budgets != map[] {
      var i :| SetBy(moves, i, budgets);
      assert (moves + [m])[..i] == moves[..i];
      assert SetBy(moves + [m], i, budgets);
    }
  }

  /** Budgets there already are. */
  ghost predicate Known(w: Writer, budgets: Budgets) {
    budgets == map[] || budgets == w.budgets || exists k :: 0 <= k < |w.stack| && budgets == w.stack[k].budgets
  }

  /** One state's frames and records carry only budgets of the state before. */
  ghost predicate Inherits(w: Writer, w': Writer) {
    && (forall i :: 0 <= i < |w'.stack| ==> Known(w, w'.stack[i].budgets))
    && w.log <= w'.log && (forall i :: |w.log| <= i < |w'.log| ==> Known(w, w'.log[i].budgets))
  }

  /** The innermost frame is replaced, or goes, and at most one record is added. */
  lemma {:induction false} TopInherits(w: Writer, w': Writer)
    requires w.stack != [] && (w'.log == w.log || exists e :: w'.log == w.log + [e] && Known(w, e.budgets))
    requires var n := |w.stack| - 1; w'.stack == w.stack[..n] || exists f ::
               w'.stack == w.stack[..n] + [f] && Known(w, f.budgets)
    ensures Inherits(w, w')
  {
    forall i | 0 <= i < |w'.stack| ensures Known(w, w'.stack[i].budgets) {
      if i < |w.stack| - 1 { assert w'.stack[i] == w.stack[i]; }
    }
  }

  lemma {:induction false} SameInherits(w: Writer, w': Writer)
    requires w'.stack <= w.stack && (w'.log == w.log || exists e :: w'.log == w.log + [e] && e.budgets == map[])
    ensures Inherits(w, w')
  {
    forall i | 0 <= i < |w'.stack| ensures Known(w, w'.stack[i].budgets) { assert w'.stack[i] == w.stack[i]; }
  }

  lemma {:induction false} OpenInherits(w: Writer, m: Move)
    requires m.Open?
    ensures Inherits(w, Do(w, m)) && Do(w, m).budgets == w.budgets
  {
    hide Print, VisitPath, PolicyOk, MayOpen, TaskDescriptor, ScopeDescriptor;
    var w' := Do(w, m);
    if OpensWell(w, m.kind, m.site, m.current, m.recorded, m.declared) {
      forall i | 0 <= i < |w'.stack| ensures Known(w, w'.stack[i].budgets) {
        if i < |w.stack| - 1 { assert w'.stack[i] == w.stack[i]; }
        else if i < |w.stack| { assert w'.stack[i].budgets == w.stack[i].budgets; }
      }
    } else {
      SameInherits(w, w);
    }
  }

  lemma {:induction false} DecideInherits(w: Writer, allowed: bool, backoff: nat, clock: Time)
    ensures Inherits(w, DecideMove(w, allowed, backoff, clock))
            && DecideMove(w, allowed, backoff, clock).budgets == w.budgets
  {
    hide Retries, Print, TotalOf, Inherits;
    var w' := DecideMove(w, allowed, backoff, clock);
    if w.stack == [] || !Top(w).phase.Deciding? || clock <= 0 {
      SameInherits(w, w);
    } else {
      assert Known(w, Top(w).budgets);
      var e := w'.log[|w.log|];
      assert w'.log == w.log + [e] && e.budgets == Top(w).budgets;
      assert NextAttempt(Top(w)).budgets == Top(w).budgets;
      TopInherits(w, w');
    }
  }

  lemma {:induction false} PhaseInherits(w: Writer, m: Move)
    requires m.Start? || m.Finish? || m.Select? || m.Handle?
    ensures Inherits(w, Do(w, m)) && Do(w, m).budgets == w.budgets
  {
    hide Limit, Print, Inherits, PolicyOk, SelectionOk;
    var w' := Do(w, m);
    if w' == w {
      SameInherits(w, w);
    } else {
      var n := |w.stack| - 1;
      assert Known(w, Top(w).budgets);
      if w'.log != w.log { assert w'.log == w.log + [w'.log[|w.log|]]; }
      if w'.stack != w.stack[..n] { assert w'.stack == w.stack[..n] + [w'.stack[n]]; }
      TopInherits(w, w');
    }
  }

  /** The budgets after one move are old ones, none, or a continuation's own. */
  lemma {:induction false} MoveSources(w: Writer, m: Move)
    ensures Inherits(w, Do(w, m))
    ensures Do(w, m).budgets == w.budgets
            || (m.Continues? && MayOpen(w, m.kind, m.site) && Do(w, m).budgets == FreshBudgets(w, m.now))
  {
    hide OpenMove, StartMove, FinishMove, SelectMove, HandleMove, DecideMove, Inherits, FreshBudgets, MayOpen,
         Print, VisitPath;
    match m
    case Open(_, _, _, _, _, _, _, _, _) => OpenInherits(w, m);
    case Decide(allowed, backoff, clock) => DecideInherits(w, allowed, backoff, clock);
    case Other(_) => SameInherits(w, Do(w, m));
    case Continues(_, _, _, _) => SameInherits(w, Do(w, m));
    case Return => SameInherits(w, Do(w, m));
    case Unwind(_) => SameInherits(w, Do(w, m));
    case _ => PhaseInherits(w, m);
  }

  lemma {:induction false} EverythingIsSourced(moves: seq<Move>)
    ensures AllSourced(moves, DoAll(moves))
  {
    hide Do, FreshBudgets, MayOpen, SetBy;
    if moves != [] {
      var n := |moves| - 1;
      var before, m := moves[..n], moves[n];
      EverythingIsSourced(before);
      var w := DoAll(before);
      assert moves == before + [m];
      MoveSources(w, m);
      assert Sourced(moves, DoAll(moves).budgets) by {
        if DoAll(moves).budgets == w.budgets { SourcedLater(before, m, w.budgets); } else { JustSet(moves); }
      }
      forall bs | Known(w, bs) ensures Sourced(moves, bs) { SourcedLater(before, m, bs); }
      forall k | 0 <= k < |w.log| ensures Sourced(moves, w.log[k].budgets) {
        SourcedLater(before, m, w.log[k].budgets);
      }
    }
  }

  lemma {:induction false} JustSet(moves: seq<Move>)
    requires moves != []
    requires var n := |moves| - 1; moves[n].Continues? && MayOpen(DoAll(moves[..n]), moves[n].kind, moves[n].site)
    ensures Sourced(moves, FreshBudgets(DoAll(moves[..|moves| - 1]), moves[|moves| - 1].now))
  {
    hide DoAll, FreshBudgets;
    assert SetBy(moves, |moves| - 1, FreshBudgets(DoAll(moves[..|moves| - 1]), moves[|moves| - 1].now));
  }

  // ---- the bound ------------------------------------------------------------------------------

  /** A run in which a continuation was applied while a boundary was in the body
      of its attempt `k`. */
  ghost predicate ContinuedIn(moves: seq<Move>, b: Path, k: nat) {
    exists m, i ::
      && 0 <= m < |moves| && moves[m].Continues? && MayOpen(DoAll(moves[..m]), moves[m].kind, moves[m].site)
      && RunsAt(DoAll(moves[..m]), b, i) && DoAll(moves[..m]).stack[i].phase.Body?
         && DoAll(moves[..m]).stack[i].attempt == k
  }

  /** The limit under sourced budgets. */
  lemma {:induction false} LimitIsBounded(moves: seq<Move>, budgets: Budgets, b: Path, n: nat,
                                          p: Policy) returns (k: nat)
    requires Sourced(moves, budgets) && IsBoundaryPath(b) && 1 <= p.maximumAttempts
    ensures var limit := Limit(p, budgets, Print(b + [Try(n)]));
            limit <= p.maximumAttempts || (ContinuedIn(moves, b, k) && k >= 1 && limit <= p.maximumAttempts + k - 1)
  {
    hide DoAll, FreshBudgets, MayOpen, Print, PathOk, Inv, FrameOk, BudgetFor, D.Budgets, Chain;
    k := 0;
    var aid := Print(b + [Try(n)]);
    if budgets == map[] {
      NoBudgets(aid);
    } else if BudgetFor(budgets, aid).Some? {
      var m :| SetBy(moves, m, budgets);
      var w := DoAll(moves[..m]);
      RunsKeep(moves[..m]);
      CallersRun(w, moves[m].kind, moves[m].site);
      var i := BudgetHasFrame(w, moves[m].now, b, n);
      BudgetAttempt(Chain(w.stack), moves[m].now, i);
      ChainAt(w, i);
      FrameIsOk(w, i);
      AttemptInRange(w.log, w.stack[i]);
      if w.stack[i].phase.Body? { k := w.stack[i].attempt; }
    }
  }

  lemma {:induction false} ChainAt(w: Writer, i: nat)
    requires i < |w.stack|
    ensures |Chain(w.stack)| == |w.stack|
    ensures Chain(w.stack)[i].attempt == if w.stack[i].phase.Handling? then 0 else w.stack[i].attempt
  {
  }

  lemma {:induction false} NoBudgets(aid: string)
    ensures BudgetFor(map[], aid).None?
  {
  }

  /** What a continuation at any point of a run does to the attempt limit of a
      boundary, for every later attempt of it: as many attempts again as its policy
      allows if it was in attempt `k`, one fewer than its policy allows if it was
      in a handler, and no change if it was not running. */
  lemma {:induction false} LimitsAfterContinuation(moves: seq<Move>, m: Move, b: Path, p: Policy, n: nat)
    requires m.Continues? && MayOpen(DoAll(moves), m.kind, m.site) && IsBoundaryPath(b) && PolicyOk(p)
    ensures var w, limit := DoAll(moves), Limit(p, DoAll(moves + [m]).budgets, Print(b + [Try(n)]));
            && (forall i :: RunsAt(w, b, i) ==>
                  if w.stack[i].phase.Handling? then limit == p.maximumAttempts - 1
                  else limit == Wrap32(p.maximumAttempts + (w.stack[i].attempt - 1)))
            && ((forall i :: !RunsAt(w, b, i)) ==> limit == p.maximumAttempts)
  {
    hide ContinueMove, MayOpen, Inv, Limit, Print, PathOk, PolicyOk;
    RunsKeep(moves);
    assert (moves + [m])[..|moves|] == moves;
    ContinuationSetsLimit(DoAll(moves), m.kind, m.site, m.now, m.kept, b, p, n);
  }

  /** Retry loops are bounded through any number of crashes and recoveries: the
      durable records are those of a run in which a boundary starts at most the
      attempts its declaration records, or, once a continuation has found it in
      attempt `k`, at most that many from there on. */
  lemma {:induction false} AttemptsAreBounded(hs: seq<Happening>, j: nat) returns (moves: seq<Move>, k: nat)
    requires var log := HappenAll(hs).durable; j < |log| && IsControl(log[j].record.kind)
    ensures var log := HappenAll(hs).durable;
            && DoAll(moves).log == log
            && IsAttemptPath(log[j].path)
            && var b, n := log[j].path[..|log[j].path| - 1], log[j].path[|log[j].path| - 1].number;
               && IsBoundaryPath(b)
               && var most := PolicyAt(log, b).maximumAttempts;
                  n <= 1 || n <= most || (ContinuedIn(moves, b, k) && k >= 1 && n <= most + k - 1)
  {
    hide DoAll, HappenAll, WellRecorded, Retried, FrameOk, Inside, Find, PathOk, Print, PolicyAt, Judged, Limit,
         Sourced, ContinuedIn;
    var log := HappenAll(hs).durable;
    moves := DurableIsOneRun(hs);
    k := 0;
    RunsKeep(moves);
    EverythingIsSourced(moves);
    var i := RetriesAreDecided(hs, j);
    var b, n := log[j].path[..|log[j].path| - 1], log[j].path[|log[j].path| - 1].number;
    PathParts(log[j].path);
    if n >= 2 {
      var q := log[i].path;
      assert q[..|q| - 1] == b && q[|q| - 1] == Try(n - 1);
      assert q == b + [Try(n - 1)];
      PolicyIsStable(log, i, b);
      LimitIsPositive(log, b);
      k := LimitIsBounded(moves, log[i].budgets, b, n - 1, PolicyAt(log, b));
    }
  }
}

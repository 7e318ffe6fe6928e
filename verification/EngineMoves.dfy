/** Every move of the writer keeps the invariant; hence every run does. */
module EngineMoves {
  import opened Text
  import opened JsonText
  import opened Records
  import opened Identity
  import opened Policies
  import opened Paths
  import opened EngineLog
  import opened EngineAccepted
  import opened Engine
  import opened EngineRuns

  // ---- what an entry leaves alone -------------------------------------------------------

  lemma {:induction false} ShapeSnoc(log: seq<Entry>, e: Entry)
    requires WellRecorded(log) && Retried(log) && WellNext(log, e) && TryNext(log, e)
    ensures WellRecorded(log + [e]) && Retried(log + [e])
  {
    hide WellNext, TryNext;
    var all := log + [e];
    forall i | 0 <= i < |all| ensures WellNext(all[..i], all[i]) && TryNext(all[..i], all[i]) {
      if i < |log| { assert all[..i] == log[..i] && all[i] == log[i]; } else { assert all[..i] == log; }
    }
  }

  lemma {:induction false} NextIsNew(log: seq<Entry>, e: Entry)
    requires WellNext(log, e)
    ensures NewRecord(log, e)
  {
    hide Find, Opened;
  }

  /** Frames around the innermost one survive what it records. */
  lemma {:induction false} OuterFramesStay(w: Writer, e: Entry, i: nat)
    requires i < |w.stack| - 1 && NewRecord(w.log, e) && FrameOk(w.log, w.stack[i]) && Top(w).boundary <= e.path
    requires forall k :: 0 <= k < |w.stack| - 1 ==> Inside(w.stack[k], w.stack[k + 1])
    ensures FrameOk(w.log + [e], w.stack[i])
  {
    hide FrameOk, Inside, ClearOf, NewRecord;
    StackIsChain(w, i, |w.stack| - 1);
    PrefixTwice(w.stack[i + 1].boundary, Top(w).boundary, e.path);
    BelowIsClear(e, w.stack[i], w.stack[i + 1]);
    FrameStays(w.log, e, w.stack[i]);
  }

  /** The innermost boundary records something and goes on as `f`. */
  lemma {:induction false} TopGoesOn(w: Writer, e: Entry, f: Frame)
    requires Inv(w) && w.stack != [] && WellNext(w.log, e) && TryNext(w.log, e) && Top(w).boundary <= e.path
    requires f.boundary == Top(w).boundary && FrameOk(w.log + [e], f)
    ensures Inv(Becomes(w.(log := w.log + [e]), f))
  {
    hide FrameOk, WellNext, TryNext, WellRecorded, Retried, NewRecord;
    ShapeSnoc(w.log, e);
    NextIsNew(w.log, e);
    var n := |w.stack| - 1;
    var w' := Becomes(w.(log := w.log + [e]), f);
    forall i | 0 <= i < |w'.stack| ensures FrameOk(w'.log, w'.stack[i]) {
      if i < n { OuterFramesStay(w, e, i); }
    }
    forall i | 0 <= i < |w'.stack| - 1 ensures Inside(w'.stack[i], w'.stack[i + 1]) {
      assert Inside(w.stack[i], w.stack[i + 1]);
    }
  }

  /** The innermost boundary records something and ends. */
  lemma {:induction false} TopEnds(w: Writer, e: Entry)
    requires Inv(w) && w.stack != [] && WellNext(w.log, e) && TryNext(w.log, e) && Top(w).boundary <= e.path
    ensures Inv(Pop(w.(log := w.log + [e])))
  {
    hide FrameOk, WellNext, TryNext, WellRecorded, Retried, NewRecord, Inside;
    ShapeSnoc(w.log, e);
    NextIsNew(w.log, e);
    var w' := Pop(w.(log := w.log + [e]));
    forall i | 0 <= i < |w'.stack| ensures FrameOk(w'.log, w'.stack[i]) { OuterFramesStay(w, e, i); }
  }

  lemma {:induction false} CutStack(w: Writer, n: nat)
    requires Inv(w) && n <= |w.stack|
    ensures Inv(w.(stack := w.stack[..n]))
  {
    hide FrameOk, WellRecorded, Retried, Inside;
  }

  // ---- records of the innermost attempt --------------------------------------------------------

  lemma {:induction false} FindFresh(log: seq<Entry>, p: Path, k: Kind)
    requires Fresh(log, p)
    ensures Find(log, k, p).None?
  {
    hide Find;
  }

  lemma {:induction false} FreshBelow(log: seq<Entry>, p: Path, q: Path)
    requires Fresh(log, p) && p <= q
    ensures Fresh(log, q)
  {
  }

  /** What stays true of a frame when its own attempt records something. */
  lemma {:induction false} OwnRecord(log: seq<Entry>, e: Entry, f: Frame)
    requires FrameOk(log, f) && NewRecord(log, e) && e.path == AttemptPath(f)
    ensures ContextOpen(log + [e], f.boundary) && DeclaredAs(log + [e], f) && LaterFresh(log + [e], f)
    ensures RetriedTo(log + [e], f.boundary, f.attempt)
    ensures e.record.kind != Attempt ==> StartedAs(log + [e], f)
  {
    hide Opened, Find, PathOk, PolicyOk, PolicyIn, ContextOpen, PhaseOk, Fresh, CallsFresh, NewRecord, LaterFresh,
         RetriedTo;
    ContextStaysOpen(log, e, f.boundary);
    FindSnoc(log, e, Scope, f.boundary);
    FindSnoc(log, e, Task, f.boundary);
    FindSnoc(log, e, Attempt, AttemptPath(f));
    LaterStays(log, e, f);
  }

  lemma {:induction false} LaterStays(log: seq<Entry>, e: Entry, f: Frame)
    requires LaterFresh(log, f) && RetriedTo(log, f.boundary, f.attempt) && e.path == AttemptPath(f)
    ensures LaterFresh(log + [e], f) && RetriedTo(log + [e], f.boundary, f.attempt)
  {
    hide Find, Fresh;
    assert e.path[|f.boundary|] == Try(f.attempt);
    if f.attempt >= 2 { FindSnoc(log, e, Decision, f.boundary + [Try(f.attempt - 1)]); }
    forall m: nat | m > f.attempt ensures Fresh(log + [e], f.boundary + [Try(m)]) {
      FreshSnoc(log, e, f.boundary + [Try(m)]);
    }
  }

  /** The attempt is open, so its records may follow. */
  lemma {:induction false} AttemptIsOpen(log: seq<Entry>, e: Entry, f: Frame)
    requires FrameOk(log, f) && NewRecord(log, e) && e.path == AttemptPath(f)
    requires f.phase.Starting? ==> e.record.kind == Attempt
    requires f.boundary == [Visit("scope", "$job", 1)] ==> f.recorded
    ensures IsAttemptPath(AttemptPath(f)) && Opened(log + [e], AttemptPath(f))
  {
    hide Opened, Find, PathOk, PolicyOk, PolicyIn, PhaseOk, Fresh, CallsFresh, LaterFresh, NewRecord, RetriedTo;
    AttemptPathOk(f);
    OwnRecord(log, e, f);
    OpenedMeans(log + [e], f.boundary, f.attempt);
    FindSnoc(log, e, Attempt, AttemptPath(f));
  }

  lemma {:induction false} ParentOf(f: Frame)
    requires IsBoundaryPath(f.boundary) && 1 <= f.attempt <= MAX_INT32
    ensures AttemptPath(f)[..|AttemptPath(f)| - 1] == f.boundary
            && AttemptPath(f)[|AttemptPath(f)| - 1] == Try(f.attempt) && f.boundary <= AttemptPath(f)
  {
  }

  /** The root frame is declared. */
  lemma {:induction false} RootIsDeclared(w: Writer)
    requires Inv(w) && w.stack != []
    ensures FrameOk(w.log, Top(w)) && w.log != []
    ensures |Top(w).boundary| == 1 ==> Top(w).recorded
  {
    hide Opened, Find, PathOk, PolicyOk, PolicyIn, PhaseOk, Fresh, CallsFresh, LaterFresh, WellRecorded, Retried,
         ContextOpen, RetriedTo;
  }

  // ---- starting an attempt ------------------------------------------------------------------------

  /** The state of an attempt that has just begun. */
  lemma {:induction false} BodyBegins(log: seq<Entry>, f: Frame)
    requires FrameOk(log, f) && f.phase.Starting? && !f.recorded
    ensures FrameOk(log, f.(phase := Body, calls := []))
  {
    hide Opened, Find, PathOk, PolicyOk, PolicyIn, Fresh, ContextOpen;
    var a, g := AttemptPath(f), f.(phase := Body, calls := []);
    FreshAttempt(log, a);
    assert Context(g) == a;
  }

  lemma {:induction false} FreshAttempt(log: seq<Entry>, a: Path)
    requires Fresh(log, a)
    ensures forall k :: Find(log, k, a).None?
    ensures forall s: Segment :: Fresh(log, a + [s])
  {
    hide Find, Fresh;
    forall k ensures Find(log, k, a).None? { FindFresh(log, a, k); }
    forall s: Segment ensures Fresh(log, a + [s]) { FreshBelow(log, a, a + [s]); }
  }

  lemma {:induction false} BodyBeginsRecorded(log: seq<Entry>, f: Frame, e: Entry)
    requires FrameOk(log, f) && f.phase.Starting? && f.recorded && NewRecord(log, e)
    requires e.path == AttemptPath(f) && e.record.kind == Attempt && e.record.totalDeadline == f.total
    ensures FrameOk(log + [e], f.(phase := Body, calls := []))
  {
    hide Opened, Find, PathOk, PolicyOk, PolicyIn, Fresh, ContextOpen, NewRecord, DeclaredAs, LaterFresh, RetriedTo;
    var a, g := AttemptPath(f), f.(phase := Body, calls := []);
    OwnRecord(log, e, f);
    assert DeclaredAs(log + [e], g) by { SameDeclaration(log + [e], f, g); }
    assert LaterFresh(log + [e], g) by { SameLater(log + [e], f, g); }
    FreshAttempt(log, a);
    forall k ensures Find(log + [e], k, a) == if k == Attempt then Some(e.record) else None { FindSnoc(log, e, k, a); }
    forall s: Segment ensures Fresh(log + [e], a + [s]) { FreshSnoc(log, e, a + [s]); }
    assert Context(g) == a;
  }

  lemma {:induction false} SameDeclaration(log: seq<Entry>, f: Frame, g: Frame)
    requires IsBoundaryPath(f.boundary) && DeclaredAs(log, f) && g.boundary == f.boundary
             && g.recorded == f.recorded && g.policy == f.policy
    ensures DeclaredAs(log, g)
  {
    hide Find, PolicyIn, PathOk;
  }

  lemma {:induction false} SameLater(log: seq<Entry>, f: Frame, g: Frame)
    requires LaterFresh(log, f) && g.boundary == f.boundary && g.attempt >= f.attempt
    ensures LaterFresh(log, g)
  {
    hide Fresh;
  }

  lemma {:induction false} StartKeeps(w: Writer, rec: Record, clock: Time)
    requires Inv(w)
    ensures Inv(StartMove(w, rec, clock))
  {
    hide Inv, FrameOk, Opened, Find, PathOk;
    if w.stack != [] && Top(w).phase.Starting? {
      var f := Top(w);
      RootIsDeclared(w);
      if f.recorded {
        var e := MakeEntry(rec.(attempt := f.attempt, totalDeadline := f.total), Attempt, AttemptPath(f), clock);
        StartIsNext(w.log, f, e);
        BodyBeginsRecorded(w.log, f, e);
        TopGoesOn(w, e, f.(phase := Body, calls := []));
      } else {
        BodyBegins(w.log, f);
        SilentStep(w, f.(phase := Body, calls := []));
      }
    }
  }

  lemma {:induction false} StartIsNext(log: seq<Entry>, f: Frame, e: Entry)
    requires FrameOk(log, f) && f.phase.Starting? && log != [] && f.recorded
    requires e.path == AttemptPath(f) && e.record.kind == Attempt && e.record.attempt == f.attempt
    requires e.record.version == PATTERN_VERSION && e.record.id == Print(e.path)
    ensures NewRecord(log, e) && WellNext(log, e) && TryNext(log, e) && f.boundary <= e.path
  {
    hide Opened, Find, PathOk, PolicyOk, PolicyIn, ContextOpen, CallsFresh, LaterFresh, Fresh, Print;
    FindFresh(log, AttemptPath(f), Attempt);
    AttemptIsOpen(log, e, f);
    ParentOf(f);
  }

  /** A step that records nothing. */
  lemma {:induction false} SilentStep(w: Writer, f: Frame)
    requires Inv(w) && w.stack != [] && f.boundary == Top(w).boundary && FrameOk(w.log, f)
    ensures Inv(Becomes(w, f))
  {
    hide FrameOk, WellRecorded, Retried;
    var w' := Becomes(w, f);
    forall i | 0 <= i < |w'.stack| - 1 ensures Inside(w'.stack[i], w'.stack[i + 1]) {
      assert Inside(w.stack[i], w.stack[i + 1]);
    }
  }

  // ---- control records -------------------------------------------------------------------------------

  /** What a control record of the innermost attempt needs besides its own rules. */
  lemma {:induction false} ControlIsNext(log: seq<Entry>, f: Frame, e: Entry)
    requires FrameOk(log, f) && !f.phase.Starting? && log != [] && (|f.boundary| == 1 ==> f.recorded)
    requires e.path == AttemptPath(f) && e.record.kind in {Result, Catch, Handled, Decision}
    requires e.record.version == PATTERN_VERSION && e.record.id == Print(e.path) && !Has(log, e.record.kind, e.path)
    requires e.record.kind == Catch ==> IsAttemptPath(e.path) && SelectsWell(log, e.record, e.path)
    requires e.record.kind == Handled ==> HandlesWell(log, e.record, e.path)
    requires e.record.kind == Decision ==> DecidesWell(log, e.record, e.path)
    requires e.record.kind == Decision && e.record.retry ==> IsAttemptPath(e.path) && RetryAllowed(log, e)
    ensures NewRecord(log, e) && WellNext(log, e) && TryNext(log, e) && f.boundary <= e.path
  {
    hide Opened, Find, PathOk, PolicyOk, PolicyIn, ContextOpen, CallsFresh, LaterFresh, Fresh, Print, SelectsWell,
         HandlesWell, DecidesWell, RetryAllowed, PhaseOk;
    AttemptIsOpen(log, e, f);
    ParentOf(f);
  }

  /** A frame after a control record of its own, in its next phase. */
  lemma {:induction false} NextPhase(log: seq<Entry>, e: Entry, f: Frame, g: Frame)
    requires FrameOk(log, f) && NewRecord(log, e) && e.path == AttemptPath(f) && e.record.kind != Attempt
             && !f.phase.Starting?
    requires g == f.(phase := g.phase, calls := g.calls, budgets := g.budgets) && !g.phase.Starting? && !g.phase.Body?
    requires PhaseOk(log + [e], AttemptPath(f), g.phase) && CallsFresh(log + [e], g)
    ensures FrameOk(log + [e], g)
  {
    hide Opened, Find, PathOk, PolicyOk, PolicyIn, ContextOpen, CallsFresh, LaterFresh, Fresh, PhaseOk, DeclaredAs,
         NewRecord;
    OwnRecord(log, e, f);
    SameDeclaration(log + [e], f, g);
    SameLater(log + [e], f, g);
  }

  lemma {:induction false} OwnFinds(log: seq<Entry>, e: Entry, a: Path)
    requires e.path == a
    ensures forall k :: Find(log + [e], k, a) == if k == e.record.kind then Some(e.record) else Find(log, k, a)
    ensures forall s: Segment :: Fresh(log, a + [s]) ==> Fresh(log + [e], a + [s])
    ensures forall s: Segment, t: Segment :: Fresh(log, a + [s]) ==> Fresh(log + [e], a + [s] + [t])
  {
    hide Find, Fresh;
    forall k ensures Find(log + [e], k, a) == if k == e.record.kind then Some(e.record) else Find(log, k, a) {
      FindSnoc(log, e, k, a);
    }
    forall s: Segment | Fresh(log, a + [s]) ensures Fresh(log + [e], a + [s]) { FreshSnoc(log, e, a + [s]); }
    forall s: Segment, t: Segment | Fresh(log, a + [s]) ensures Fresh(log + [e], a + [s] + [t]) {
      FreshBelow(log, a + [s], a + [s] + [t]);
      FreshSnoc(log, e, a + [s] + [t]);
    }
  }

  lemma {:induction false} FinishKeeps(w: Writer, rec: Record, clock: Time)
    requires Inv(w)
    ensures Inv(FinishMove(w, rec, clock))
  {
    hide Inv, FrameOk, Opened, Find, PathOk, WellNext, TryNext, Limit, PhaseOk, AttemptPath, Print;
    if w.stack != [] && Top(w).phase.Body? {
      var f := Top(w);
      var e := MakeEntry(rec, Result, AttemptPath(f), clock);
      RootIsDeclared(w);
      PhaseOf(w.log, f);
      BodyMeans(w.log, AttemptPath(f), f.phase);
      ControlIsNext(w.log, f, e);
      if rec.errorKind == NoError || (f.policy.rules == [] && Limit(f.policy, w.budgets, Print(AttemptPath(f))) <= 1) {
        TopEnds(w, e);
      } else {
        var g := f.(phase := Failed(rec.retryable), budgets := w.budgets);
        FailsInto(w.log, e, f, g);
        TopGoesOn(w, e, g);
      }
    }
  }

  lemma {:induction false} PhaseOf(log: seq<Entry>, f: Frame)
    requires FrameOk(log, f)
    ensures PhaseOk(log, AttemptPath(f), f.phase) && IsAttemptPath(AttemptPath(f))
  {
    hide Opened, Find, PathOk, PolicyOk, PolicyIn, ContextOpen, CallsFresh, LaterFresh, Fresh, PhaseOk;
    AttemptPathOk(f);
  }

  lemma {:induction false} BodyMeans(log: seq<Entry>, a: Path, phase: Phase)
    requires PhaseOk(log, a, phase) && phase.Body?
    ensures !Has(log, Result, a)
  {
    hide Find, Fresh;
  }

  lemma {:induction false} FailsInto(log: seq<Entry>, e: Entry, f: Frame, g: Frame)
    requires FrameOk(log, f) && f.phase.Body? && NewRecord(log, e) && e.path == AttemptPath(f)
    requires e.record.kind == Result && e.record.errorKind != NoError
             && g == f.(phase := Failed(e.record.retryable), budgets := g.budgets)
    ensures FrameOk(log + [e], g)
  {
    hide Opened, Find, PathOk, PolicyOk, PolicyIn, ContextOpen, LaterFresh, Fresh, DeclaredAs, NewRecord;
    PhaseOf(log, f);
    OwnFinds(log, e, AttemptPath(f));
    NextPhase(log, e, f, g);
  }

  lemma {:induction false} SelectKeeps(w: Writer, rec: Record, clock: Time)
    requires Inv(w)
    ensures Inv(SelectMove(w, rec, clock))
  {
    hide Inv, FrameOk, Opened, Find, PathOk, WellNext, TryNext, SelectsWell, PhaseOk;
    if w.stack != [] && Top(w).phase.Failed? && SelectionOk(Top(w), rec) {
      var f := Top(w);
      var e := MakeEntry(rec, Catch, AttemptPath(f), clock);
      RootIsDeclared(w);
      PhaseOf(w.log, f);
      assert !Has(w.log, Catch, AttemptPath(f)) by { FailedMeans(w.log, AttemptPath(f), f.phase); }
      SelectionFits(w.log, f, e.record);
      ControlIsNext(w.log, f, e);
      var w' := SelectMove(w, rec, clock);
      SelectsInto(w.log, e, f, Top(w'));
      TopGoesOn(w, e, Top(w'));
    }
  }

  lemma {:induction false} FailedMeans(log: seq<Entry>, a: Path, phase: Phase)
    requires PhaseOk(log, a, phase) && phase.Failed?
    ensures !Has(log, Catch, a)
  {
    hide Find, Fresh;
  }

  lemma {:induction false} SelectionFits(log: seq<Entry>, f: Frame, rec: Record)
    requires FrameOk(log, f) && f.phase.Failed? && SelectionOk(f, rec)
    ensures IsAttemptPath(AttemptPath(f)) && SelectsWell(log, rec, AttemptPath(f))
  {
    hide Opened, Find, PathOk, PolicyIn, ContextOpen, LaterFresh, Fresh, CallsFresh;
    AttemptPathOk(f);
  }

  lemma {:induction false} SelectsInto(log: seq<Entry>, e: Entry, f: Frame, g: Frame)
    requires FrameOk(log, f) && f.phase.Failed? && NewRecord(log, e) && e.path == AttemptPath(f)
             && e.record.kind == Catch && SelectionOk(f, e.record)
    requires g == f.(phase := if e.record.errorKind != NoError then Deciding(true, Propagate, f.phase.retryable)
                              else if e.record.rule != "" then Handling(e.record.rule)
                              else Deciding(true, Continue, f.phase.retryable), calls := [])
    ensures FrameOk(log + [e], g)
  {
    hide Opened, Find, PathOk, PolicyIn, ContextOpen, LaterFresh, Fresh, DeclaredAs, NewRecord, PhaseOk, PlainRules;
    PhaseOf(log, f);
    assert e.record.rule != "" ==> SegmentOk(Handler(e.record.rule)) by { RulePlain(f.policy, e.record.rule); }
    SelectedPhase(log, e, AttemptPath(f), f.phase, g);
    NextPhase(log, e, f, g);
  }

  lemma {:induction false} RulePlain(p: Policy, rule: string)
    requires PolicyOk(p) && (rule == "" || rule in p.rules)
    ensures rule != "" ==> SegmentOk(Handler(rule))
  {
  }

  lemma {:induction false} SelectedPhase(log: seq<Entry>, e: Entry, a: Path, phase: Phase, g: Frame)
    requires PhaseOk(log, a, phase) && phase.Failed? && e.path == a && e.record.kind == Catch
             && a == AttemptPath(g) && g.calls == []
    requires e.record.rule != "" ==> SegmentOk(Handler(e.record.rule))
    requires g.phase == if e.record.errorKind != NoError then Deciding(true, Propagate, phase.retryable)
                        else if e.record.rule != "" then Handling(e.record.rule)
                        else Deciding(true, Continue, phase.retryable)
    requires e.record.errorKind != NoError ==> e.record.rule == ""
    ensures PhaseOk(log + [e], a, g.phase) && CallsFresh(log + [e], g)
  {
    hide Find, Fresh, SegmentOk, AttemptPath;
    OwnFinds(log, e, a);
  }

  lemma {:induction false} HandleKeeps(w: Writer, rec: Record, clock: Time)
    requires Inv(w)
    ensures Inv(HandleMove(w, rec, clock))
  {
    hide FrameOk, Opened, Find, PathOk, WellNext, TryNext, PhaseOk, WellRecorded, Retried, Inside;
    if w.stack != [] && Top(w).phase.Handling? && HandledRecordOk(rec) {
      var f := Top(w);
      var e := MakeEntry(rec, Handled, AttemptPath(f), clock);
      RootIsDeclared(w);
      PhaseOf(w.log, f);
      HandlingMeans(w.log, AttemptPath(f), f.phase, e.record);
      ControlIsNext(w.log, f, e);
      var g := f.(phase := Deciding(rec.errorKind != NoError, rec.disposition, rec.retryable));
      HandlesInto(w.log, e, f, g);
      TopGoesOn(w, e, g);
    }
  }

  lemma {:induction false} HandlingMeans(log: seq<Entry>, a: Path, phase: Phase, rec: Record)
    requires PhaseOk(log, a, phase) && phase.Handling? && HandledRecordOk(rec)
    ensures !Has(log, Handled, a) && HandlesWell(log, rec, a)
  {
    hide Find;
  }

  lemma {:induction false} HandlesInto(log: seq<Entry>, e: Entry, f: Frame, g: Frame)
    requires WellRecorded(log) && FrameOk(log, f) && f.phase.Handling? && NewRecord(log, e) && e.path == AttemptPath(f)
    requires e.record.kind == Handled && HandledRecordOk(e.record)
    requires g == f.(phase := Deciding(e.record.errorKind != NoError, e.record.disposition, e.record.retryable))
    ensures FrameOk(log + [e], g)
  {
    hide WellRecorded, Opened, Find, PathOk, PolicyIn, ContextOpen, LaterFresh, Fresh, DeclaredAs, NewRecord,
         PolicyOk, PhaseOk;
    PhaseOf(log, f);
    HandledPhase(log, e, AttemptPath(f), f.phase);
    NextPhase(log, e, f, g);
  }

  lemma {:induction false} HandledPhase(log: seq<Entry>, e: Entry, a: Path, phase: Phase)
    requires WellRecorded(log) && PhaseOk(log, a, phase) && phase.Handling? && e.path == a
             && e.record.kind == Handled && HandledRecordOk(e.record)
    ensures PhaseOk(log + [e], a, Deciding(e.record.errorKind != NoError, e.record.disposition, e.record.retryable))
  {
    hide WellRecorded, Find, Fresh;
    OwnFinds(log, e, a);
    ControlOrder(log, a);
  }

  lemma {:induction false} DecideKeeps(w: Writer, allowed: bool, backoff: nat, clock: Time)
    requires Inv(w)
    ensures Inv(DecideMove(w, allowed, backoff, clock))
  {
    hide Inv, FrameOk, Find, WellNext, TryNext, Retries, AttemptPath, Print, NewRecord;
    if w.stack != [] && Top(w).phase.Deciding? && clock > 0 {
      var f := Top(w);
      var retry := Retries(f, allowed, clock);
      var rec := Blank(Decision, "").(retry := retry, disposition := f.phase.disposition,
                                      wakeAt := if retry then clock + backoff else ZERO_TIME);
      var e := MakeEntry(rec, Decision, AttemptPath(f), clock).(budgets := f.budgets);
      DecisionIsNext(w, e, allowed);
      if retry {
        var g := NextAttempt(f);
        RetryInto(w.log, e, f, g, allowed);
        TopGoesOn(w, e, g);
      } else {
        TopEnds(w, e);
      }
    }
  }

  lemma {:induction false} DecisionIsNext(w: Writer, e: Entry, allowed: bool)
    requires Inv(w) && w.stack != [] && Top(w).phase.Deciding? && e.clock > 0 && e.path == AttemptPath(Top(w))
             && e.budgets == Top(w).budgets
    requires e.record.kind == Decision && e.record.version == PATTERN_VERSION && e.record.id == Print(e.path)
    requires e.record.disposition == Top(w).phase.disposition && e.record.retry == Retries(Top(w), allowed, e.clock)
    requires e.record.retry ==> e.record.wakeAt >= e.clock
    ensures FrameOk(w.log, Top(w)) && NewRecord(w.log, e) && WellNext(w.log, e) && TryNext(w.log, e)
            && Top(w).boundary <= e.path
  {
    hide Inv, FrameOk, Opened, Find, PathOk, WellNext, TryNext, PhaseOk, Retries, RetryAllowed, DecidesWell,
         AttemptPath, Print;
    RootIsDeclared(w);
    PhaseOf(w.log, Top(w));
    DecisionFits(w.log, Top(w), e, allowed);
    ControlIsNext(w.log, Top(w), e);
  }

  lemma {:induction false} DecisionFits(log: seq<Entry>, f: Frame, e: Entry, allowed: bool)
    requires FrameOk(log, f) && f.phase.Deciding? && e.clock > 0 && e.path == AttemptPath(f)
             && IsAttemptPath(e.path) && e.budgets == f.budgets
    requires e.record.disposition == f.phase.disposition && e.record.retry == Retries(f, allowed, e.clock)
    requires e.record.retry ==> e.record.wakeAt >= e.clock
    ensures !Has(log, Decision, e.path) && DecidesWell(log, e.record, e.path)
    ensures e.record.retry ==> RetryAllowed(log, e)
  {
    hide Opened, Find, PathOk, PolicyOk, ContextOpen, LaterFresh, Fresh, CallsFresh, Limit, Print, PolicyIn;
    ParentOf(f);
    var a := AttemptPath(f);
    assert PolicyAt(log, f.boundary) == f.policy;
  }

  lemma {:induction false} RetryInto(log: seq<Entry>, e: Entry, f: Frame, g: Frame, allowed: bool)
    requires FrameOk(log, f) && f.phase.Deciding? && Retries(f, allowed, e.clock) && NewRecord(log, e)
    requires e.path == AttemptPath(f) && e.record.kind == Decision && e.record.retry
    requires g == f.(attempt := f.attempt + 1, phase := Starting, calls := [], total := g.total)
    ensures FrameOk(log + [e], g)
  {
    hide Opened, Find, PathOk, ContextOpen, Fresh, Print, PolicyIn, NewRecord, DeclaredAs, PhaseOk, LaterFresh,
         PlainRules;
    OwnRecord(log, e, f);
    SameDeclaration(log + [e], f, g);
    SameLater(log + [e], f, g);
    FindSnoc(log, e, Decision, AttemptPath(f));
    assert g.boundary + [Try(g.attempt - 1)] == AttemptPath(f);
    NextIsFresh(log + [e], f, g);
    FindFresh(log + [e], AttemptPath(g), Attempt);
  }

  lemma {:induction false} NextIsFresh(log: seq<Entry>, f: Frame, g: Frame)
    requires LaterFresh(log, f) && g.boundary == f.boundary && g.attempt == f.attempt + 1
    ensures PhaseOk(log, AttemptPath(g), Starting) && Fresh(log, AttemptPath(g))
  {
    hide Fresh;
  }

  // ---- opening a boundary ----------------------------------------------------------------------------

  /** A frame that counts one more visit. */
  function Counting(f: Frame, c: CallSite): Frame { f.(calls := f.calls + [c]) }

  lemma {:induction false} CountingKeeps(log: seq<Entry>, f: Frame, c: CallSite)
    requires FrameOk(log, f)
    ensures FrameOk(log, Counting(f, c))
  {
    hide Opened, Find, PathOk, PolicyOk, PolicyIn, ContextOpen, Fresh, PhaseOk, DeclaredAs;
    var g := Counting(f, c);
    SameDeclaration(log, f, g);
    SameLater(log, f, g);
    assert Context(g) == Context(f);
    assert forall v: Segment :: v.Visit? ==>
             multiset(g.calls)[CallSite(v.kind, v.site)] >= multiset(f.calls)[CallSite(v.kind, v.site)];
  }

  lemma {:induction false} ContextPathOk(log: seq<Entry>, f: Frame, v: Segment)
    requires IsAttemptPath(AttemptPath(f)) && PhaseOk(log, AttemptPath(f), f.phase) && SegmentOk(v)
    ensures PathOk(Context(f) + [v])
  {
    hide Find, Fresh;
  }

  lemma {:induction false} HandlingHas(log: seq<Entry>, a: Path, phase: Phase)
    requires PhaseOk(log, a, phase) && phase.Handling?
    ensures Has(log, Catch, a) && Find(log, Catch, a).value.rule == phase.rule
  {
    hide Find;
  }

  /** The place of a visit not made before. */
  lemma {:induction false} NewVisit(log: seq<Entry>, f: Frame, kind: string, site: string)
    requires FrameOk(log, f) && TakesCalls(f) && IsBoundaryKind(kind) && site != ""
             && (|f.boundary| == 1 ==> f.recorded)
    ensures var p := Context(f) + [Visit(kind, site, multiset(f.calls)[CallSite(kind, site)] + 1)];
            IsBoundaryPath(p) && |p| > 1 && ContextOpen(log, p) && Fresh(log, p)
  {
    hide Opened, Find, PolicyOk, PolicyIn, Fresh, DeclaredAs, PathOk, PhaseOk;
    var v := Visit(kind, site, multiset(f.calls)[CallSite(kind, site)] + 1);
    var c, a := Context(f), AttemptPath(f);
    var p := c + [v];
    AttemptPathOk(f);
    ContextPathOk(log, f, v);
    if f.phase.Handling? { HandlingHas(log, a, f.phase); }
    OpenedMeans(log, f.boundary, f.attempt);
    assert p[..|p| - 1] == c;
    if f.phase.Handling? { assert c[..|c| - 1] == a; }
  }

  lemma {:induction false} Declares(log: seq<Entry>, e: Entry, p: Path, call: map<string, Json>, policy: Policy)
    requires log != [] && IsBoundaryPath(p) && Fresh(log, p) && PolicyOk(policy) && e.path == p
    requires e.record.version == PATTERN_VERSION && e.record.id == Print(p)
    requires var v := p[|p| - 1];
             if v.kind == "task" then e.record.kind == Task && e.record.descriptor == TaskDescriptor(v.site, call,
                 policy)
             else e.record.kind == Scope && e.record.descriptor == ScopeDescriptor(policy)
    ensures PolicyIn(e.record) == Some(policy) && NewRecord(log, e) && WellNext(log, e)
  {
    hide Opened, Find, PolicyOf, TaskOf, TaskDescriptor, ScopeDescriptor, Print;
    assert SegmentOk(p[|p| - 1]);
    DescriptorRoundTrip(p[|p| - 1].site, call, policy);
    FindFresh(log, p, Scope);
    FindFresh(log, p, Task);
  }

  /** A boundary that has just opened. */
  lemma {:induction false} OpensFresh(log: seq<Entry>, g: Frame)
    requires IsBoundaryPath(g.boundary) && PolicyOk(g.policy) && ContextOpen(log, g.boundary) && DeclaredAs(log, g)
    requires g.attempt == 1 && g.phase.Starting? && forall s: Segment :: Fresh(log, g.boundary + [s])
    ensures FrameOk(log, g)
  {
    hide Opened, Find, PathOk, PolicyOk, PolicyIn, Fresh, ContextOpen, DeclaredAs;
    FindFresh(log, AttemptPath(g), Attempt);
  }

  lemma {:induction false} FreshSegments(log: seq<Entry>, p: Path)
    requires Fresh(log, p)
    ensures forall s: Segment :: Fresh(log, p + [s])
  {
    hide Fresh;
    forall s: Segment ensures Fresh(log, p + [s]) { FreshBelow(log, p, p + [s]); }
  }

  lemma {:induction false} OpensDeclared(log: seq<Entry>, e: Entry, g: Frame)
    requires IsBoundaryPath(g.boundary) && PolicyOk(g.policy) && ContextOpen(log, g.boundary) && Fresh(log, g.boundary)
    requires g.attempt == 1 && g.phase.Starting? && g.recorded && NewRecord(log, e) && e.path == g.boundary
    requires e.record.kind == if g.boundary[|g.boundary| - 1].kind == "task" then Task else Scope
    requires PolicyIn(e.record) == Some(g.policy)
    ensures FrameOk(log + [e], g)
  {
    hide Opened, Find, PathOk, PolicyOk, PolicyIn, Fresh, ContextOpen, NewRecord;
    ContextStaysOpen(log, e, g.boundary);
    FindSnoc(log, e, e.record.kind, g.boundary);
    FreshSegments(log, g.boundary);
    forall s: Segment ensures Fresh(log + [e], g.boundary + [s]) { FreshSnoc(log, e, g.boundary + [s]); }
    OpensFresh(log + [e], g);
  }

  lemma {:induction false} OpensSilently(log: seq<Entry>, g: Frame)
    requires IsBoundaryPath(g.boundary) && |g.boundary| > 1 && ContextOpen(log, g.boundary) && Fresh(log, g.boundary)
    requires g.attempt == 1 && g.phase.Starting? && !g.recorded && g.policy == PLAIN
    ensures FrameOk(log, g)
  {
    hide Opened, Find, PathOk, PolicyIn, Fresh, ContextOpen;
    FindFresh(log, g.boundary, Scope);
    FindFresh(log, g.boundary, Task);
    FreshSegments(log, g.boundary);
    assert PolicyOk(PLAIN);
    OpensFresh(log, g);
  }

  /** A frame opens on top of the others. */
  lemma {:induction false} PushKeeps(w: Writer, g: Frame)
    requires Inv(w) && w.stack != [] && Inside(Top(w), g) && FrameOk(w.log, g)
    ensures Inv(w.(begun := true, stack := w.stack + [g]))
  {
    hide FrameOk, Inside, WellRecorded, Retried;
    var w' := w.(begun := true, stack := w.stack + [g]);
    forall i | 0 <= i < |w'.stack| - 1 ensures Inside(w'.stack[i], w'.stack[i + 1]) {
      if i < |w.stack| - 1 { assert Inside(w.stack[i], w.stack[i + 1]); }
    }
  }

  lemma {:induction false} OpenKeeps(w: Writer, kind: string, site: string, call: map<string, Json>,
                                     current: Policy, recorded: Policy, declared: bool, rec: Record, total: Time,
                                         clock: Time)
    requires Inv(w)
    ensures Inv(OpenMove(w, kind, site, call, current, recorded, declared, rec, total, clock))
  {
    hide Inv, FrameOk, Opened, Find, PathOk, PolicyOk, WellNext, TaskDescriptor, ScopeDescriptor, Print;
    if OpensWell(w, kind, site, current, recorded, declared) {
      if w.stack == [] {
        OpenJobKeeps(w, call, recorded, rec, total, clock);
        assert declared && WithRecordedLifecycle(current, recorded) == recorded
               && VisitPath(w, kind, site) == [Visit("scope", "$job", 1)];
        var g := Frame([Visit("scope", "$job", 1)], recorded, true, total, 1, Starting, [], map[]);
        assert w.stack + [g] == [g];
      } else {
        var f, c := Top(w), CallSite(kind, site);
        RootIsDeclared(w);
        NewVisit(w.log, f, kind, site);
        var p := VisitPath(w, kind, site);
        var d := if kind == "task" then TaskDescriptor(site, call, recorded) else ScopeDescriptor(recorded);
        var e := MakeEntry(rec.(descriptor := d), if kind == "task" then Task else Scope, p, clock);
        if declared {
          OpenDeclaredKeeps(w, call, recorded, e, Frame(p, recorded, true, total, 1, Starting, [], map[]), c);
        } else {
          OpenPlainKeeps(w, Frame(p, PLAIN, false, total, 1, Starting, [], map[]), c);
        }
      }
    }
  }

  lemma {:induction false} CountedInside(f: Frame, g: Frame, c: CallSite)
    requires TakesCalls(f) && g.boundary == Context(f) + [Visit(c.kind, c.site, multiset(f.calls)[c] + 1)]
    ensures Inside(Counting(f, c), g) && multiset(f.calls + [c])[c] == multiset(f.calls)[c] + 1
  {
    assert multiset(f.calls + [c]) == multiset(f.calls) + multiset{c};
    assert Context(Counting(f, c)) == Context(f);
  }

  lemma {:induction false} OpenPlainKeeps(w: Writer, g: Frame, c: CallSite)
    requires Inv(w) && w.stack != [] && TakesCalls(Top(w))
    requires g.boundary == Context(Top(w)) + [Visit(c.kind, c.site, multiset(Top(w).calls)[c] + 1)]
    requires IsBoundaryPath(g.boundary) && |g.boundary| > 1 && ContextOpen(w.log, g.boundary)
             && Fresh(w.log, g.boundary)
    requires g.attempt == 1 && g.phase.Starting? && !g.recorded && g.policy == PLAIN
    ensures var w2 := Becomes(w, Counting(Top(w), c)); Inv(w2.(begun := true, stack := w2.stack + [g]))
  {
    hide Inv, FrameOk, Opened, Find, PathOk, PolicyOk, Inside, ContextOpen, Fresh;
    RootIsDeclared(w);
    CountingKeeps(w.log, Top(w), c);
    SilentStep(w, Counting(Top(w), c));
    OpensSilently(w.log, g);
    CountedInside(Top(w), g, c);
    PushKeeps(Becomes(w, Counting(Top(w), c)), g);
  }

  lemma {:induction false} OpenDeclaredKeeps(w: Writer, call: map<string, Json>, policy: Policy, e: Entry, g: Frame,
                                             c: CallSite)
    requires Inv(w) && w.stack != [] && TakesCalls(Top(w)) && PolicyOk(policy) && w.log != []
    requires g.boundary == Context(Top(w)) + [Visit(c.kind, c.site, multiset(Top(w).calls)[c] + 1)]
    requires IsBoundaryPath(g.boundary) && ContextOpen(w.log, g.boundary) && Fresh(w.log, g.boundary)
    requires g.attempt == 1 && g.phase.Starting? && g.recorded && g.policy == policy
    requires e.path == g.boundary && e.record.version == PATTERN_VERSION && e.record.id == Print(e.path)
    requires if c.kind == "task"
             then e.record.kind == Task && e.record.descriptor == TaskDescriptor(c.site, call, policy)
             else e.record.kind == Scope && e.record.descriptor == ScopeDescriptor(policy)
    ensures var w2 := Becomes(w.(log := w.log + [e]), Counting(Top(w), c));
            Inv(w2.(begun := true, stack := w2.stack + [g]))
  {
    hide Inv, FrameOk, Opened, Find, PathOk, PolicyOk, Inside, ContextOpen, Fresh, WellNext, ClearOf,
         TaskDescriptor, ScopeDescriptor, Print, PolicyIn, NewRecord;
    var f := Counting(Top(w), c);
    RootIsDeclared(w);
    CountingKeeps(w.log, Top(w), c);
    Declares(w.log, e, g.boundary, call, policy);
    CountedInside(Top(w), g, c);
    BelowIsClear(e, f, g);
    FrameStays(w.log, e, f);
    AboveVisit(Top(w), g);
    TopGoesOn(w, e, f);
    OpensDeclared(w.log, e, g);
    PushKeeps(Becomes(w.(log := w.log + [e]), f), g);
  }

  lemma {:induction false} AboveVisit(f: Frame, g: Frame)
    requires exists v :: g.boundary == Context(f) + [v]
    ensures f.boundary <= g.boundary
  {
  }

  lemma {:induction false} OpenJobKeeps(w: Writer, call: map<string, Json>, policy: Policy, rec: Record,
                                        total: Time, clock: Time)
    requires Inv(w) && !w.begun && w.log != [] && PolicyOk(policy)
    ensures var p := [Visit("scope", "$job", 1)];
            var e := MakeEntry(rec.(descriptor := ScopeDescriptor(policy)), Scope, p, clock);
            Inv(Writer(w.log + [e], true, [Frame(p, policy, true, total, 1, Starting, [], map[])], w.budgets))
  {
    hide FrameOk, Opened, Find, PolicyOk, WellNext, ScopeDescriptor, Print, PolicyIn, NewRecord, WellRecorded, Retried;
    var p := [Visit("scope", "$job", 1)];
    var e := MakeEntry(rec.(descriptor := ScopeDescriptor(policy)), Scope, p, clock);
    var g := Frame(p, policy, true, total, 1, Starting, [], map[]);
    assert p[..|p| - 1] == [];
    Declares(w.log, e, p, call, policy);
    ShapeSnoc(w.log, e);
    OpensDeclared(w.log, e, g);
  }

  // ---- other records, and every run --------------------------------------------------------------------

  lemma {:induction false} OtherKeeps(w: Writer, e: Entry)
    requires Inv(w) && e.path == [] && e.record.version == PATTERN_VERSION && !HasPath(e.record.kind)
    requires e.record.kind == Header <==> w.log == []
    ensures Inv(w.(log := w.log + [e]))
  {
    hide FrameOk, Opened, Find, WellRecorded, Retried, Inside, ClearOf;
    assert WellNext(w.log, e) && TryNext(w.log, e);
    ShapeSnoc(w.log, e);
    forall i | 0 <= i < |w.stack| ensures FrameOk(w.log + [e], w.stack[i]) {
      assert w.stack[i].boundary != [] by { SomewhereOk(w.log, w.stack[i]); }
      NothingIsClear(e, w.stack[i]);
      FrameStays(w.log, e, w.stack[i]);
    }
  }

  lemma {:induction false} ContinueKeeps(w: Writer, kind: string, site: string, now: Time, kept: bool)
    requires Inv(w)
    ensures Inv(ContinueMove(w, kind, site, now, kept))
  {
    hide FrameOk, WellRecorded, Retried, Inside, FreshBudgets, Print, VisitPath;
    if MayOpen(w, kind, site) && kept {
      OtherKeeps(w, ContinuationEntry(w, kind, site, now));
    }
  }

  lemma {:induction false} SomewhereOk(log: seq<Entry>, f: Frame)
    requires FrameOk(log, f)
    ensures f.boundary != []
  {
    hide Opened, Find, PathOk, PolicyOk, PolicyIn, Fresh, ContextOpen, PhaseOk;
  }

  lemma {:induction false} DoKeeps(w: Writer, m: Move)
    requires Inv(w)
    ensures Inv(Do(w, m))
  {
    hide OpenMove, StartMove, FinishMove, SelectMove, HandleMove, DecideMove, FrameOk, WellRecorded, Retried, Inside;
    match m
    case Other(rec) =>
      if w.log == [] {
        var e := Entry(Blank(Header, "").(versions := rec.versions), [], 0, map[]);
        OtherKeeps(w, e);
        assert w.log + [e] == [e];
      } else if !HasPath(rec.kind) && rec.kind !in {Header, Continuation} {
        OtherKeeps(w, Entry(rec.(version := PATTERN_VERSION), [], 0, map[]));
      }
    case Continues(kind, site, now, kept) =>
      ContinueKeeps(w, kind, site, now, kept);
    case Open(kind, site, call, current, recorded, declared, rec, total, clock) =>
      OpenKeeps(w, kind, site, call, current, recorded, declared, rec, total, clock);
    case Start(rec, clock) => StartKeeps(w, rec, clock);
    case Return => if w.stack != [] { CutStack(w, |w.stack| - 1); }
    case Finish(rec, clock) => FinishKeeps(w, rec, clock);
    case Select(rec, clock) => SelectKeeps(w, rec, clock);
    case Handle(rec, clock) => HandleKeeps(w, rec, clock);
    case Decide(allowed, backoff, clock) => DecideKeeps(w, allowed, backoff, clock);
    case Unwind(depth) => if depth < |w.stack| { CutStack(w, depth); }
  }

  lemma {:induction false} RunsKeep(moves: seq<Move>)
    ensures Inv(DoAll(moves))
  {
    hide Inv, Do;
    if moves == [] {
      NewRunOk();
    } else {
      RunsKeep(moves[..|moves| - 1]);
      DoKeeps(DoAll(moves[..|moves| - 1]), moves[|moves| - 1]);
    }
  }

  lemma {:induction false} NewRunOk()
    ensures Inv(NEW_RUN)
  {
  }
}

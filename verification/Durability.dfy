/** What every action keeps: the compact log is one legal run of the
    orchestration, and every executor stands somewhere on it. */
module Durability {
  import opened Text
  import opened Records
  import opened History
  import opened Executors

  // ---- lists of records -------------------------------------------------------------

  lemma {:induction false} ExpandAllConcat(a: seq<Chapter>, b: seq<Chapter>)
    ensures ExpandAll(a + b) == ExpandAll(a) + ExpandAll(b)
  {
    hide Expand;
    if b == [] {
      assert a + b == a;
    } else {
      var n := |b| - 1;
      ExpandAllConcat(a, b[..n]);
      assert (a + b)[..|a + b| - 1] == a + b[..n];
    }
  }

  lemma {:induction false} VisibleConcat(a: seq<Record>, b: seq<Record>)
    ensures Visible(a + b) == Visible(a) + Visible(b)
  {
    if b == [] {
      assert a + b == a;
    } else {
      var n := |b| - 1;
      VisibleConcat(a, b[..n]);
      assert (a + b)[..|a + b| - 1] == a + b[..n];
    }
  }

  lemma {:induction false} VisibleLogConcat(a: seq<Chapter>, b: seq<Chapter>)
    ensures VisibleLog(a + b) == VisibleLog(a) + VisibleLog(b)
  {
    ExpandAllConcat(a, b);
    VisibleConcat(ExpandAll(a), ExpandAll(b));
  }

  lemma {:induction false} VisibleLogSnoc(a: seq<Chapter>, c: Chapter)
    ensures VisibleLog(a + [c]) == VisibleLog(a) + Visible(Expand(c))
    ensures ExpandAll(a + [c]) == ExpandAll(a) + Expand(c)
  {
    assert (a + [c])[..|a|] == a;
    VisibleConcat(ExpandAll(a), Expand(c));
  }

  ghost predicate AllVisible(rs: seq<Record>) { forall r :: r in rs ==> !EngineOnly(r.kind) }

  lemma {:induction false} VisibleIsIdentity(rs: seq<Record>)
    requires AllVisible(rs)
    ensures Visible(rs) == rs
  {
    if rs != [] {
      var n := |rs| - 1;
      assert rs == rs[..n] + [rs[n]];
      assert forall r :: r in rs[..n] ==> r in rs;
      VisibleIsIdentity(rs[..n]);
    }
  }

  lemma {:induction false} ClearAllConcat(a: seq<Record>, b: seq<Record>)
    ensures ClearAll(a + b) == ClearAll(a) + ClearAll(b)
  {
  }

  /** Skipping moves over engine records only, and stops at one the orchestration sees. */
  lemma {:induction false} SkipSeesNothing(events: seq<Record>, cursor: nat)
    requires cursor <= |events|
    ensures Visible(events[..Skip(events, cursor)]) == Visible(events[..cursor])
    decreases |events| - cursor
  {
    if cursor < |events| && Skipped(events[cursor].kind) {
      SkipSeesNothing(events, cursor + 1);
      assert events[..cursor + 1][..cursor] == events[..cursor];
    }
  }

  lemma {:induction false} VisibleStep(events: seq<Record>, i: nat)
    requires i < |events|
    ensures Visible(events[..i + 1]) == Visible(events[..i]) + if EngineOnly(events[i].kind) then [] else [events[i]]
  {
    assert events[..i + 1][..i] == events[..i];
  }

  lemma {:induction false} VisiblePrefix(events: seq<Record>, i: nat)
    requires i <= |events|
    ensures |Visible(events[..i])| <= |Visible(events)|
    ensures Visible(events)[..|Visible(events[..i])|] == Visible(events[..i])
  {
    VisibleConcat(events[..i], events[i..]);
    assert events == events[..i] + events[i..];
  }

  // ---- legal histories ----------------------------------------------------------------------

  lemma {:induction false} LegalPrefix(o: Orchestration, g: seq<Record>, n: nat)
    requires Legal(o, g) && n <= |g|
    ensures Legal(o, g[..n])
  {
    forall i | 0 <= i < n ensures Justified(o, g[..n][..i], g[..n][i]) {
      assert g[..n][..i] == g[..i];
    }
  }

  lemma {:induction false} LegalSnoc(o: Orchestration, g: seq<Record>, r: Record)
    requires Legal(o, g) && Justified(o, g, r)
    ensures Legal(o, g + [r])
  {
    var h := g + [r];
    forall i | 0 <= i < |h| ensures Justified(o, h[..i], h[i]) {
      if i < |g| { assert h[..i] == g[..i]; } else { assert h[..i] == g; }
    }
  }

  /** Clock readings and activation names do not matter to legality. */
  lemma {:induction false} LegalClear(o: Orchestration, g: seq<Record>, h: seq<Record>)
    requires Deterministic(o) && Legal(o, g) && ClearAll(g) == ClearAll(h)
    ensures Legal(o, h)
  {
    assert |g| == |ClearAll(g)| == |h|;
    forall i | 0 <= i < |h| ensures Justified(o, h[..i], h[i]) {
      assert Justified(o, g[..i], g[i]);
      assert ClearAll(g)[i] == Clear(g[i]) && ClearAll(h)[i] == Clear(h[i]);
      assert ClearAll(g[..i]) == ClearAll(g)[..i] == ClearAll(h)[..i] == ClearAll(h[..i]);
    }
  }

  // ---- invariants ----------------------------------------------------------------------------

  ghost predicate HeaderFirst(events: seq<Record>) {
    forall i :: 0 <= i < |events| ==> (events[i].kind == Header <==> i == 0)
  }

  ghost predicate AllAcceptable(rs: seq<Record>) { forall r :: r in rs ==> Acceptable(r) }

  /** A record that replay gets past: it is asked for where it stands, or is the
      timeout of an attempt around what is asked for; and where a restart target is
      asked for, it is that restart's continuation. */
  ghost predicate Follows(o: Orchestration, restarts: set<string>, g: seq<Record>, r: Record) {
    o(g).Ask? ==>
      && (forall id :: id in restarts && Key(Continuation, id) in o(g).options ==> KeyOf(r) == Key(Continuation, id))
      && (KeyOf(r) in o(g).options || (TimedOut(r) && Cuts(o(g), r.id)))
  }

  /** A log that replay gets through. */
  ghost predicate Replays(o: Orchestration, restarts: set<string>, log: seq<Record>) {
    forall i :: 0 <= i < |log| ==> Follows(o, restarts, log[..i], log[i])
  }

  ghost predicate StoreOk(o: Orchestration, origin: seq<Chapter>, store: seq<Chapter>) {
    && |origin| <= |store| && store[..|origin|] == origin
    && HeaderFirst(ExpandAll(store)) && AllAcceptable(ExpandAll(store))
    && Legal(o, VisibleLog(store))
    && LastRestart(store) == LastRestart(origin) && RestartIds(store) == RestartIds(origin)
  }

  /** The orchestration reaches a restart target at the end of the history the
      restart retained. */
  ghost predicate ReachesTarget(o: Orchestration, origin: seq<Chapter>, target: string) {
    o(VisibleLog(origin)) == Ask({Key(Continuation, target)})
  }

  /** `applyRestart` is sequential: a restart target is the only thing asked for. */
  ghost predicate AsksAlone(o: Orchestration, restarts: set<string>) {
    forall g, id :: id in restarts && o(g).Ask? && Key(Continuation, id) in o(g).options ==>
          o(g).options == {Key(Continuation, id)}
  }

  /** A log the job may start from: its start and no more, or what a restart
      retained. */
  ghost predicate OriginOk(o: Orchestration, origin: seq<Chapter>) {
    && |origin| > 0 && (forall i :: 0 <= i < |origin| ==> (origin[i].JobStart? <==> i == 0))
    && StoreOk(o, origin, origin)
    && (LastRestart(origin).Some? ==> ReachesTarget(o, origin, LastRestart(origin).value))
    && AsksAlone(o, RestartIds(origin))
  }

  /** Everything an executor has been handed, as it stands in the log. */
  ghost function Handed(store: seq<Chapter>, e: Executor): seq<Record>
    requires e.run.cursor <= |e.run.events| && e.loaded <= e.run.ordinal <= |store|
  {
    Visible(e.run.events[..e.run.cursor]) + VisibleLog(store[e.loaded..e.run.ordinal]) + e.run.pending
  }

  /** The executor knows the committed record of every slot it has passed. */
  ghost predicate Holds(origin: seq<Chapter>, store: seq<Chapter>, e: Executor) {
    && |origin| <= e.loaded <= e.run.ordinal <= |store|
    && e.held == Slots(store[..e.run.ordinal])
    && e.run.events == ExpandAll(store[..e.loaded])
    && ExpandAll(store[..e.run.ordinal]) != []
    && (e.run.events != [] ==> 0 < e.run.cursor) && e.run.cursor <= |e.run.events|
  }

  /** What it handed to the orchestration is what the log holds. */
  ghost predicate Tracks(store: seq<Chapter>, e: Executor)
    requires e.run.cursor <= |e.run.events| && e.loaded <= e.run.ordinal <= |store|
  {
    && ClearAll(e.got) == ClearAll(Handed(store, e))
    && (!e.adopted ==> e.got == Handed(store, e))
    && AllVisible(e.run.pending) && AllAcceptable(e.run.pending)
    && (PeekAt(e.run).Some? ==> e.run.ordinal == e.loaded && e.run.pending == [] && !e.adopted && !e.run.live)
  }

  ghost predicate Sound(o: Orchestration, origin: seq<Chapter>, store: seq<Chapter>, e: Executor) {
    && !e.run.inspecting
    && Legal(o, e.got)
    && (e.run.fatal in {Some(NonDeterministic), Some(RestartMissed)} ==>
          !Replays(o, RestartIds(origin), VisibleLog(store)))
    && e.run.restart == LastRestart(origin) && e.run.restarts == RestartIds(origin)
    && (RestartPending(e.run) ==> |e.got| <= |VisibleLog(origin)| && !e.run.live)
  }

  ghost predicate ExecutorOk(o: Orchestration, origin: seq<Chapter>, store: seq<Chapter>, e: Executor) {
    Holds(origin, store, e) && Tracks(store, e) && Sound(o, origin, store, e)
  }

  ghost predicate Inv(o: Orchestration, s: System) {
    && OriginOk(o, s.origin)
    && StoreOk(o, s.origin, s.store)
    && forall x :: x in s.executors ==> ExecutorOk(o, s.origin, s.store, s.executors[x])
  }

  // ---- the log only grows -------------------------------------------------------------------------

  ghost predicate Extends(store: seq<Chapter>, store': seq<Chapter>) {
    |store| <= |store'| && store'[..|store|] == store
  }

  lemma {:induction false} GrowKeepsStuck(o: Orchestration, restarts: set<string>, store: seq<Chapter>,
                                          store': seq<Chapter>)
    requires Extends(store, store') && !Replays(o, restarts, VisibleLog(store))
    ensures !Replays(o, restarts, VisibleLog(store'))
  {
    hide Follows, VisibleLog;
    VisibleLogConcat(store, store'[|store|..]);
    assert store' == store + store'[|store|..];
    var log, log' := VisibleLog(store), VisibleLog(store');
    var i :| 0 <= i < |log| && !Follows(o, restarts, log[..i], log[i]);
    assert log'[..i] == log[..i] && log'[i] == log[i];
  }

  lemma {:induction false} GrowKeepsExecutor(o: Orchestration, origin: seq<Chapter>, store: seq<Chapter>,
                                             store': seq<Chapter>, e: Executor)
    requires Extends(store, store') && ExecutorOk(o, origin, store, e)
    ensures ExecutorOk(o, origin, store', e)
  {
    hide ExpandAll, Visible, VisibleLog, Legal, LastRestart, RestartIds, Skip;
    assert store'[..e.run.ordinal] == store[..e.run.ordinal];
    assert store'[..e.loaded] == store[..e.loaded];
    assert store'[e.loaded..e.run.ordinal] == store[e.loaded..e.run.ordinal];
    assert Handed(store', e) == Handed(store, e);
    if e.run.fatal in {Some(NonDeterministic), Some(RestartMissed)} {
      GrowKeepsStuck(o, RestartIds(origin), store, store');
    }
  }

  /** A new chapter keeps the log legal when its visible records continue it. */
  lemma {:induction false} GrowKeepsStore(o: Orchestration, origin: seq<Chapter>, store: seq<Chapter>, c: Chapter)
    requires StoreOk(o, origin, store) && Legal(o, VisibleLog(store) + Visible(Expand(c)))
    requires !(c.Execution? && c.record.kind == Restart) && AllAcceptable(Expand(c))
    requires if ExpandAll(store) == [] then |Expand(c)| == 1 && Expand(c)[0].kind == Header
             else forall r :: r in Expand(c) ==> r.kind != Header
    ensures StoreOk(o, origin, store + [c])
  {
    hide ExpandAll, Expand, Visible, VisibleLog, Legal, Acceptable, LastRestart, RestartIds;
    VisibleLogSnoc(store, c);
    assert (store + [c])[..|origin|] == store[..|origin|];
    RestartsSnoc(store, c);
    HeaderStays(ExpandAll(store), Expand(c));
  }

  lemma {:induction false} RestartsSnoc(store: seq<Chapter>, c: Chapter)
    requires !(c.Execution? && c.record.kind == Restart)
    ensures LastRestart(store + [c]) == LastRestart(store) && RestartIds(store + [c]) == RestartIds(store)
  {
    assert (store + [c])[..|store|] == store;
  }

  lemma {:induction false} HeaderStays(before: seq<Record>, added: seq<Record>)
    requires HeaderFirst(before) && AllAcceptable(before) && AllAcceptable(added)
    requires if before == [] then |added| == 1 && added[0].kind == Header
             else forall r :: r in added ==> r.kind != Header
    ensures HeaderFirst(before + added) && AllAcceptable(before + added)
  {
    hide Acceptable;
    forall i | 0 <= i < |before + added| ensures (before + added)[i].kind == Header <==> i == 0 {
      if i < |before| {
        assert (before + added)[i] == before[i];
      } else {
        assert (before + added)[i] == added[i - |before|];
        assert added[i - |before|] in added;
      }
    }
  }

  // ---- at the frontier ----------------------------------------------------------------------------

  /** Past the recorded events, the executor has handed out the whole log up to
      its ordinal, and then what it keeps pending. */
  lemma {:induction false} FrontierHanded(origin: seq<Chapter>, store: seq<Chapter>, e: Executor)
    requires Holds(origin, store, e) && PeekAt(e.run).None?
    ensures Handed(store, e) == VisibleLog(store[..e.run.ordinal]) + e.run.pending
  {
    hide Slots;
    SkipSeesNothing(e.run.events, e.run.cursor);
    assert e.run.events[..|e.run.events|] == e.run.events;
    assert store[..e.run.ordinal] == store[..e.loaded] + store[e.loaded..e.run.ordinal];
    VisibleLogConcat(store[..e.loaded], store[e.loaded..e.run.ordinal]);
  }

  /** The visible records of a chapter that is not a restart. */
  lemma {:induction false} ExpandVisible(r: Record, prefix: seq<Record>)
    requires r.kind != Restart && AllVisible(prefix)
    ensures Expand(Execution(r, prefix)) == prefix + [r]
    ensures Visible(Expand(Execution(r, prefix))) == prefix + if EngineOnly(r.kind) then [] else [r]
  {
    VisibleIsIdentity(prefix);
    VisibleConcat(prefix, [r]);
    assert [r][..0] == [];
  }

  lemma {:induction false} SamePrefixVisible(a: seq<Record>, b: seq<Record>)
    requires SamePrefix(a, b) && AllVisible(a)
    ensures AllVisible(b) && ClearAll(a) == ClearAll(b)
  {
    assert |ClearAll(a)| == |a| && |ClearAll(b)| == |b|;
    forall r | r in b ensures !EngineOnly(r.kind) {
      var i :| 0 <= i < |b| && b[i] == r;
      assert ClearAll(a)[i] == Clear(a[i]) && ClearAll(b)[i] == Clear(b[i]);
      assert a[i] in a;
    }
  }

  /** What an executor may append: an engine record, or a continuation of what
      it has handed out. */
  ghost predicate MayAppend(o: Orchestration, e: Executor, rec: Record) {
    && rec.kind != Restart && rec.kind != Header
    && (!EngineOnly(rec.kind) ==> Justified(o, e.got, rec) && !RestartPending(e.run))
  }

  lemma {:induction false} MineIsJustified(o: Orchestration, e: Executor, rec: Record, now: Time)
    requires MayAppend(o, e, rec)
    ensures MayAppend(o, e, Stamp(e.run, rec, now))
  {
  }

  /** A chapter that lands keeps the log legal. */
  lemma {:induction false} LandingKeepsStore(o: Orchestration, origin: seq<Chapter>, store: seq<Chapter>,
                                             e: Executor, mine: Record)
    requires Deterministic(o) && StoreOk(o, origin, store) && ExecutorOk(o, origin, store, e) && PeekAt(e.run).None?
    requires MayAppend(o, e, mine) && Acceptable(mine) && e.run.ordinal == |store|
    ensures StoreOk(o, origin, store + [Execution(mine, if Attaches(mine.kind) then e.run.pending else [])])
  {
    hide ExpandAll, Visible, LastRestart, RestartIds, Skip, Slots;
    var prefix := if Attaches(mine.kind) then e.run.pending else [];
    var c := Execution(mine, prefix);
    FrontierHanded(origin, store, e);
    assert store[..|store|] == store;
    ExpandVisible(mine, prefix);
    var log := VisibleLog(store);
    if EngineOnly(mine.kind) {
      LegalClear(o, e.got, log + e.run.pending);
      if prefix == [] { assert log + prefix + [] == log; } else { assert log + (prefix + []) == log + e.run.pending; }
    } else {
      LegalSnoc(o, e.got, mine);
      ClearAllConcat(e.got, [mine]);
      ClearAllConcat(log + e.run.pending, [mine]);
      LegalClear(o, e.got + [mine], log + e.run.pending + [mine]);
      assert log + (prefix + [mine]) == log + e.run.pending + [mine];
    }
    GrowKeepsStore(o, origin, store, c);
  }

  /** Committing moves the ordinal and, for events, empties `pending`. */
  lemma {:induction false} CommitKeeps(run: Run, r: Record)
    ensures var run' := Commit(run, r);
            && run'.ordinal == run.ordinal + 1 && run'.pending == (if Attaches(r.kind) then [] else run.pending)
            && run'.events == run.events && run'.cursor == run.cursor && run'.live == run.live
               && run'.fatal == run.fatal
            && run'.restart == run.restart && run'.restarts == run.restarts
               && run'.restartApplied == run.restartApplied && run'.inspecting == run.inspecting
            && run'.suspended == run.suspended && run'.activation == run.activation && run'.activated == run.activated
            && run'.finished == run.finished && run'.versions == run.versions
  {
  }

  /** The records a slot adds to what the orchestration has been handed. */
  function Shown(r: Record): seq<Record> { if EngineOnly(r.kind) then [] else [r] }

  function Sent(run: Run, k: Kind): seq<Record> { if Attaches(k) then run.pending else [] }

  /** The executor after it has moved past a slot. */
  ghost function Past(e: Executor, slot: Chapter): Executor
    requires slot.Execution?
  {
    Executor(Commit(e.run, slot.record), e.got + Shown(slot.record), e.held + [Some(slot.record)], e.loaded,
             e.adopted || slot.prefix != Sent(e.run, slot.record.kind))
  }

  /** An executor whose slot holds its event, or one it may adopt. */
  ghost predicate Passable(origin: seq<Chapter>, store: seq<Chapter>, e: Executor) {
    && Holds(origin, store, e) && Tracks(store, e) && PeekAt(e.run).None?
    && e.run.ordinal < |store| && store[e.run.ordinal].Execution?
    && var slot := store[e.run.ordinal];
       && slot.record.kind != Restart && slot.record.kind != Header
       && SamePrefix(Sent(e.run, slot.record.kind), slot.prefix)
  }

  lemma {:induction false} PassingHolds(origin: seq<Chapter>, store: seq<Chapter>, e: Executor)
    requires Passable(origin, store, e)
    ensures Holds(origin, store, Past(e, store[e.run.ordinal]))
    ensures PeekAt(Past(e, store[e.run.ordinal]).run).None?
  {
    hide ExpandAll, Visible, VisibleLog, Skip, Tracks, Commit, ClearAll;
    var n := e.run.ordinal;
    CommitKeeps(e.run, store[n].record);
    assert store[..n + 1] == store[..n] + [store[n]];
    VisibleLogSnoc(store[..n], store[n]);
    assert Slots(store[..n + 1]) == Slots(store[..n]) + [Some(store[n].record)];
  }

  lemma {:induction false} PassingLog(origin: seq<Chapter>, store: seq<Chapter>, e: Executor)
    requires Passable(origin, store, e)
    ensures var slot := store[e.run.ordinal];
            && AllVisible(slot.prefix) && ClearAll(slot.prefix) == ClearAll(Sent(e.run, slot.record.kind))
            && VisibleLog(store[..e.run.ordinal + 1])
               == VisibleLog(store[..e.run.ordinal]) + slot.prefix + Shown(slot.record)
  {
    hide ExpandAll, Visible, VisibleLog, Skip, Commit, Holds, Clear, ClearAll;
    var n := e.run.ordinal;
    var slot := store[n];
    SamePrefixVisible(Sent(e.run, slot.record.kind), slot.prefix);
    ExpandVisible(slot.record, slot.prefix);
    assert store[..n + 1] == store[..n] + [slot];
    VisibleLogSnoc(store[..n], slot);
  }

  lemma {:induction false} PassingTracks(origin: seq<Chapter>, store: seq<Chapter>, e: Executor)
    requires Passable(origin, store, e)
    ensures var e' := Past(e, store[e.run.ordinal]);
            && Holds(origin, store, e') && PeekAt(e'.run).None? && Tracks(store, e')
  {
    hide ExpandAll, Visible, VisibleLog, Skip, Commit, Clear, ClearAll, Handed;
    PassingHolds(origin, store, e);
    PassingLog(origin, store, e);
    var n := e.run.ordinal;
    var slot, e' := store[n], Past(e, store[n]);
    CommitKeeps(e.run, slot.record);
    FrontierHanded(origin, store, e);
    FrontierHanded(origin, store, e');
    var log, shown := VisibleLog(store[..n]), Shown(slot.record);
    if Attaches(slot.record.kind) {
      assert Handed(store, e') == log + slot.prefix + shown;
      ClearAllConcat(log, slot.prefix);
      ClearAllConcat(log, e.run.pending);
      ClearAllConcat(log + slot.prefix, shown);
      ClearAllConcat(e.got, shown);
    } else {
      assert slot.prefix == [];
      assert Handed(store, e') == Handed(store, e);
      assert e'.got == e.got;
    }
  }

  // ---- one append -----------------------------------------------------------------------------------

  /** What an append can do: land its own chapter or nothing; and either pass the
      slot with the record committed there, or leave the executor where it was,
      perhaps dead. */
  lemma {:induction false} AppendEffect(run: Run, store: seq<Chapter>, rec: Record, now: Time, net: Net)
    ensures var s, mine := Append(run, store, rec, now, net), Stamp(run, rec, now);
            && (s.store == store
                || (Acceptable(mine) && run.ordinal == |store|
                    && s.store == store + [Execution(mine, Sent(run, rec.kind))]))
            && (s.response.Got? ==>
                  && run.ordinal < |s.store| && s.store[run.ordinal].Execution?
                  && var slot := s.store[run.ordinal];
                     && SamePrefix(Sent(run, rec.kind), slot.prefix)
                     && slot.record.kind == rec.kind && slot.record.id == rec.id
                     && s == Step(Commit(run, slot.record), s.store, Got(slot.record), true, [slot.record],
                                  slot.prefix != Sent(run, rec.kind)))
            && (s.response.Refused? ==>
                  s.passed == [] && !s.adopted && (s.run == run || s.run == run.(fatal := Some(AppendFailed))))
  {
    hide Acceptable, Commit, ClearAll;
  }

  lemma {:induction false} AppendFailedKeeps(o: Orchestration, origin: seq<Chapter>, store: seq<Chapter>, e: Executor)
    requires ExecutorOk(o, origin, store, e)
    ensures ExecutorOk(o, origin, store, e.(run := e.run.(fatal := Some(AppendFailed))))
  {
    hide ExpandAll, Visible, VisibleLog, Skip, Legal, ClearAll, Slots, LastRestart, RestartIds, Replays;
    var e' := e.(run := e.run.(fatal := Some(AppendFailed)));
    assert Handed(store, e') == Handed(store, e);
  }

  /** A history that the log continues is legal because the log is. */
  lemma {:induction false} LegalFromLog(o: Orchestration, origin: seq<Chapter>, store: seq<Chapter>, e: Executor)
    requires Deterministic(o) && StoreOk(o, origin, store)
    requires Holds(origin, store, e) && Tracks(store, e) && PeekAt(e.run).None? && e.run.pending == []
    ensures Legal(o, e.got)
  {
    hide ExpandAll, Visible, VisibleLog, Skip, Legal, ClearAll, Slots, LastRestart, RestartIds, Clear;
    var n := e.run.ordinal;
    FrontierHanded(origin, store, e);
    assert store == store[..n] + store[n..];
    VisibleLogConcat(store[..n], store[n..]);
    var log := VisibleLog(store[..n]);
    assert VisibleLog(store)[..|log|] == log;
    LegalPrefix(o, VisibleLog(store), |log|);
    assert log + [] == log;
    LegalClear(o, log, e.got);
  }

  lemma {:induction false} PassingKeeps(o: Orchestration, origin: seq<Chapter>, store: seq<Chapter>, e: Executor)
    requires Deterministic(o) && StoreOk(o, origin, store) && ExecutorOk(o, origin, store, e)
             && Passable(origin, store, e)
    requires !EngineOnly(store[e.run.ordinal].record.kind) ==> !RestartPending(e.run)
    ensures ExecutorOk(o, origin, store, Past(e, store[e.run.ordinal]))
            && PeekAt(Past(e, store[e.run.ordinal]).run).None?
  {
    hide ExpandAll, Visible, VisibleLog, Skip, Legal, ClearAll, Slots, LastRestart, RestartIds, Clear, Commit,
         Handed, Replays, StoreOk;
    var slot, e' := store[e.run.ordinal], Past(e, store[e.run.ordinal]);
    PassingTracks(origin, store, e);
    CommitKeeps(e.run, slot.record);
    if EngineOnly(slot.record.kind) {
      assert e'.got == e.got;
    } else {
      LegalFromLog(o, origin, store, e');
    }
  }

  /** Fields that an append leaves alone. */
  ghost predicate SamePlace(run: Run, run': Run) {
    && run'.events == run.events && run'.cursor == run.cursor && run'.live == run.live
    && run'.restart == run.restart && run'.restarts == run.restarts && run'.restartApplied == run.restartApplied
       && run'.inspecting == run.inspecting
    && run'.suspended == run.suspended && run'.finished == run.finished
  }

  lemma {:induction false} AppendKeeps(o: Orchestration, origin: seq<Chapter>, store: seq<Chapter>, e: Executor,
                                       rec: Record, now: Time, net: Net)
    requires Deterministic(o) && StoreOk(o, origin, store) && ExecutorOk(o, origin, store, e) && PeekAt(e.run).None?
    requires MayAppend(o, e, rec)
    ensures var s := Append(e.run, store, rec, now, net);
            var e' := After(e, s, !EngineOnly(rec.kind));
            && Extends(store, s.store) && StoreOk(o, origin, s.store) && ExecutorOk(o, origin, s.store, e')
            && SamePlace(e.run, e'.run) && (s.response.Got? ==> e'.run.fatal == e.run.fatal)
  {
    hide ExpandAll, Visible, VisibleLog, Skip, Legal, ClearAll, Slots, LastRestart, RestartIds, Clear, Handed,
         Replays, StoreOk, Append, Commit,
         ExecutorOk, Justified;
    var s := Append(e.run, store, rec, now, net);
    var mine := Stamp(e.run, rec, now);
    AppendEffect(e.run, store, rec, now, net);
    MineIsJustified(o, e, rec, now);
    if s.store != store {
      LandingKeepsStore(o, origin, store, e, mine);
    }
    assert Extends(store, s.store);
    GrowKeepsExecutor(o, origin, store, s.store, e);
    var e' := After(e, s, !EngineOnly(rec.kind));
    if s.response.Got? {
      var slot := s.store[e.run.ordinal];
      CommitKeeps(e.run, slot.record);
      assert Passable(origin, s.store, e) by { OkMeans(o, origin, s.store, e); }
      PassingKeeps(o, origin, s.store, e);
      assert e'.held == e.held + [Some(slot.record)];
      assert e'.got == e.got + Shown(slot.record);
      assert e' == Past(e, slot);
    } else {
      assert e'.held == e.held;
      if s.run != e.run { AppendFailedKeeps(o, origin, s.store, e); }
      assert e' == e || e' == e.(run := e.run.(fatal := Some(AppendFailed)));
    }
  }

  lemma {:induction false} OkMeans(o: Orchestration, origin: seq<Chapter>, store: seq<Chapter>, e: Executor)
    requires ExecutorOk(o, origin, store, e)
    ensures Holds(origin, store, e) && Tracks(store, e) && Sound(o, origin, store, e)
  {
  }

  // ---- small changes to an executor ------------------------------------------------------------------

  lemma {:induction false} ActivatedKeeps(o: Orchestration, origin: seq<Chapter>, store: seq<Chapter>, e: Executor)
    requires ExecutorOk(o, origin, store, e)
    ensures ExecutorOk(o, origin, store, e.(run := e.run.(activated := true)))
    ensures ExecutorOk(o, origin, store, e.(run := e.run.(suspended := true)))
  {
    hide ExpandAll, Visible, VisibleLog, Skip, Legal, ClearAll, Slots, LastRestart, RestartIds, Replays;
    var e' := e.(run := e.run.(activated := true));
    var e'' := e.(run := e.run.(suspended := true));
    assert Handed(store, e') == Handed(store, e) == Handed(store, e'');
  }

  lemma {:induction false} SkipIsStable(events: seq<Record>, cursor: nat)
    requires cursor <= |events|
    ensures Skip(events, Skip(events, cursor)) == Skip(events, cursor)
  {
  }

  lemma {:induction false} SkipKeeps(o: Orchestration, origin: seq<Chapter>, store: seq<Chapter>, e: Executor)
    requires ExecutorOk(o, origin, store, e)
    ensures var e' := e.(run := e.run.(cursor := Skip(e.run.events, e.run.cursor)));
            ExecutorOk(o, origin, store, e') && PeekAt(e'.run) == PeekAt(e.run)
  {
    hide ExpandAll, Visible, VisibleLog, Legal, ClearAll, Slots, LastRestart, RestartIds, Replays, Skip;
    var e' := e.(run := e.run.(cursor := Skip(e.run.events, e.run.cursor)));
    SkipSeesNothing(e.run.events, e.run.cursor);
    SkipIsStable(e.run.events, e.run.cursor);
    assert Handed(store, e') == Handed(store, e);
  }

  lemma {:induction false} LiveKeeps(o: Orchestration, origin: seq<Chapter>, store: seq<Chapter>, e: Executor)
    requires ExecutorOk(o, origin, store, e) && PeekAt(e.run).None? && !RestartPending(e.run)
    ensures ExecutorOk(o, origin, store, e.(run := e.run.(live := true)))
  {
    hide ExpandAll, Visible, VisibleLog, Skip, Legal, ClearAll, Slots, LastRestart, RestartIds, Replays;
    var e' := e.(run := e.run.(live := true));
    assert Handed(store, e') == Handed(store, e);
  }

  lemma {:induction false} DeferKeeps(o: Orchestration, origin: seq<Chapter>, store: seq<Chapter>, e: Executor,
                                      rec: Record, anchor: Time)
    requires ExecutorOk(o, origin, store, e) && PeekAt(e.run).None? && !RestartPending(e.run)
    requires !EngineOnly(rec.kind) && Acceptable(rec) && Justified(o, e.got, rec)
    ensures ExecutorOk(o, origin, store,
                       e.(run := e.run.(pending := e.run.pending + [rec], anchor := anchor), got := e.got + [rec]))
  {
    hide ExpandAll, Visible, VisibleLog, Skip, Legal, Slots, LastRestart, RestartIds, Replays, Justified, ClearAll;
    var e' := e.(run := e.run.(pending := e.run.pending + [rec], anchor := anchor), got := e.got + [rec]);
    assert Handed(store, e') == Handed(store, e) + [rec];
    ClearAllConcat(e.got, [rec]);
    ClearAllConcat(Handed(store, e), [rec]);
    LegalSnoc(o, e.got, rec);
  }

  // ---- consuming history --------------------------------------------------------------------------------

  /** While it replays, an executor has been handed exactly the log so far, and
      what it peeks at is the next record of the log. */
  lemma {:induction false} ReplayPosition(o: Orchestration, origin: seq<Chapter>, store: seq<Chapter>, e: Executor)
    requires StoreOk(o, origin, store) && ExecutorOk(o, origin, store, e) && PeekAt(e.run).Some?
    ensures var log := VisibleLog(store);
            && |e.got| < |log| && e.got == log[..|e.got|] && log[|e.got|] == PeekAt(e.run).value
            && e.got == Visible(e.run.events[..Skip(e.run.events, e.run.cursor)])
            && !EngineOnly(PeekAt(e.run).value.kind)
  {
    hide ExpandAll, Legal, LastRestart, RestartIds, Replays, ClearAll, Visible, Skip;
    var ev, i := e.run.events, Skip(e.run.events, e.run.cursor);
    SkipSeesNothing(ev, e.run.cursor);
    assert store[e.loaded..e.run.ordinal] == [];
    EmptyLog();
    assert e.got == Visible(ev[..i]) + [] + [];
    assert store == store[..e.loaded] + store[e.loaded..];
    ExpandAllConcat(store[..e.loaded], store[e.loaded..]);
    var all := ExpandAll(store);
    assert all[..|ev|] == ev && all[i] == ev[i] && all[..i] == ev[..i];
    VisibleStep(all, i);
    assert all[..i + 1][..i] == ev[..i];
    VisiblePrefix(all, i + 1);
    var log := Visible(all);
    assert log[..|e.got| + 1] == e.got + [ev[i]];
    assert log[..|e.got| + 1][|e.got|] == ev[i];
    assert log[..|e.got|] == log[..|e.got| + 1][..|e.got|] == e.got;
  }

  lemma {:induction false} EmptyLog()
    ensures VisibleLog([]) == []
  {
  }

  lemma {:induction false} ConsumeFields(run: Run, r: Record)
    requires run.cursor < |run.events|
    ensures var run' := Consume(run, r);
            && run'.cursor == run.cursor + 1 && run'.events == run.events && run'.pending == run.pending
               && run'.ordinal == run.ordinal
            && run'.live == run.live && run'.fatal == run.fatal && run'.restart == run.restart
               && run'.restarts == run.restarts && run'.restartApplied == run.restartApplied
            && run'.inspecting == run.inspecting && run'.suspended == run.suspended
  {
  }

  lemma {:induction false} ConsumeKeeps(o: Orchestration, origin: seq<Chapter>, store: seq<Chapter>, e: Executor)
    requires Deterministic(o) && StoreOk(o, origin, store) && ExecutorOk(o, origin, store, e)
    requires PeekAt(e.run).Some? && e.run.cursor == Skip(e.run.events, e.run.cursor)
    requires RestartPending(e.run) ==> |e.got| < |VisibleLog(origin)|
    ensures var next := PeekAt(e.run).value;
            ExecutorOk(o, origin, store, e.(run := Consume(e.run, next), got := e.got + [next]))
  {
    hide ExpandAll, Legal, LastRestart, RestartIds, Replays, ClearAll, Visible, Skip, Slots, Consume, VisibleLog;
    var next, i := PeekAt(e.run).value, e.run.cursor;
    var e' := e.(run := Consume(e.run, next), got := e.got + [next]);
    ReplayPosition(o, origin, store, e);
    ConsumeFields(e.run, next);
    var log := VisibleLog(store);
    assert e'.got == log[..|e.got| + 1];
    LegalPrefix(o, log, |e.got| + 1);
    VisibleStep(e.run.events, i);
    assert store[e.loaded..e.run.ordinal] == [];
    EmptyLog();
    assert Handed(store, e') == Visible(e.run.events[..i + 1]) + [] + [] == e'.got;
  }
}

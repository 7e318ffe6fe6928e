/** The engine's mutable run state, as its methods update it under the lock, each
    held to the step it stands for in `History`. */
module ExecutionRuns {
  import opened Text
  import opened JsonText
  import opened Records
  import H = History

  /** The store the engine appends to. */
  class ChapterStore {
    var chapters: seq<H.Chapter>

    /** The log is append-only: whatever is put where, earlier chapters stay, at
        most the new one is added, and only as the next one. An acknowledged put is
        in its slot; an unacknowledged one may or may not be. */
    method PutChapter(ordinal: nat, chapter: H.Chapter, delivery: H.Delivery) returns (ok: bool)
      modifies this
      ensures old(chapters) <= chapters <= old(chapters) + [chapter]
      ensures chapters != old(chapters) ==> ordinal + 1 == |chapters|
      ensures ok ==> ordinal + 1 == |chapters| && chapters[ordinal] == chapter && chapters != old(chapters)
      ensures ordinal < old(|chapters|) ==> !ok && chapters == old(chapters)
      ensures delivery == H.Dropped ==> chapters == old(chapters)
      ensures delivery != H.Dropped && ordinal == old(|chapters|) ==>
                chapters != old(chapters) && (ok <==> delivery == H.Delivered)
    {
      ok := false;
      if ordinal == |chapters| && delivery != H.Dropped {
        chapters := chapters + [chapter];
        ok := delivery == H.Delivered;
      }
    }

    method GetChapter(ordinal: nat, readable: bool) returns (slot: Option<H.Chapter>)
      ensures slot == if readable && ordinal < |chapters| then Some(chapters[ordinal]) else None
    {
      slot := if readable && ordinal < |chapters| then Some(chapters[ordinal]) else None;
    }
  }

  /** Blank out the fields in which competing executors may differ. */
  method Normalize(records: seq<Record>) returns (cleared: seq<Record>)
    ensures cleared == ClearAll(records)
  {
    cleared := records;
    for i := 0 to |records|
      invariant |cleared| == |records|
      invariant forall k :: 0 <= k < i ==> cleared[k] == Clear(records[k])
      invariant forall k :: i <= k < |records| ==> cleared[k] == records[k]
    {
      var r := cleared[i];
      r := r.(at := ZERO_TIME);
      r := r.(deadline := ZERO_TIME);
      r := r.(totalDeadline := ZERO_TIME);
      r := r.(activation := "");
      cleared := cleared[i := r];
    }
  }

  method SameExecutionPrefix(a: seq<Record>, b: seq<Record>) returns (same: bool)
    ensures same == H.SamePrefix(a, b)
  {
    if a == b { return true; }
    assert ClearAll(a) == ClearAll(b) ==> |a| == |b| by { assert |ClearAll(a)| == |a| && |ClearAll(b)| == |b|; }
    if |a| != |b| { return false; }
    var left := Normalize(a);
    var right := Normalize(b);
    same := left == right;
  }

  /** Whether a committed slot holds the event the executor was appending. */
  method SameEvent(slot: H.Chapter, mine: Record, prefix: seq<Record>) returns (same: bool)
    ensures same == H.Adoptable(slot, mine, prefix) && (same ==> slot.Execution?)
  {
    hide Acceptable, H.SamePrefix;
    if !slot.Execution? { return false; }
    var winner := slot.record;
    if !Acceptable(winner) || (mine.kind != Result && winner != mine) || winner.kind != mine.kind
       || winner.id != mine.id
       || winner.version != mine.version || winner.descriptor != mine.descriptor
    {
      return false;
    }
    same := SameExecutionPrefix(prefix, slot.prefix);
  }

  /** Chapters as a job's log has them: its start, then the engine's. */
  predicate StartsJob(chapters: seq<H.Chapter>) {
    forall i :: 0 <= i < |chapters| ==> (chapters[i].JobStart? <==> i == 0)
  }

  lemma {:induction false} Reaches(run: H.Run, kind: Kind, id: string)
    requires run.cursor <= |run.events|
    ensures var i, r := H.Skip(run.events, run.cursor), H.ReachRestart(run, kind, id);
            if kind != Continuation
               || id !in run.restarts then r.fatal == run.fatal && r.restartApplied == run.restartApplied
            else if i < |run.events| && (run.events[i].kind != kind || run.events[i].id != id)
            then r.fatal == (if run.fatal.None? then Some(H.RestartMissed)
                             else run.fatal) && r.restartApplied == run.restartApplied
            else r.fatal == run.fatal && r.restartApplied == (run.restartApplied || run.restart == Some(id))
  {
    hide H.Skip;
  }

  class ExecutionRun {
    const store: ChapterStore
    const activation: string
    const versions: Versions
    const inspecting: bool
    var events: seq<Record>
    var cursor: nat
    var pending: seq<Record>
    var ordinal: nat
    var activated: bool
    var live: bool
    var fatal: Option<H.Fault>
    var suspended: bool
    var anchor: Time
    var timeoutError: Option<Json>
    var restarts: set<string>
    var restart: Option<string>
    var final: Option<H.Chapter>
    var restartApplied: bool

    /** The abstract state. */
    function State(): H.Run
      reads this
    {
      H.Run(events, cursor, pending, ordinal, activation, versions, activated, live, fatal, suspended, anchor,
            timeoutError,
            inspecting, final.Some?, restarts, restart, restartApplied)
    }

    constructor (store: ChapterStore, activation: string, versions: Versions, inspecting: bool)
      ensures this.store == store
      ensures State() == H.Run([], 0, [], |store.chapters|, activation, versions, false, false, None, false,
                               ZERO_TIME, None,
                               inspecting, false, {}, None, false)
      ensures final.None?
    {
      this.store, this.activation, this.versions, this.inspecting := store, activation, versions, inspecting;
      events, cursor, pending, ordinal := [], 0, [], |store.chapters|;
      activated, live, fatal, suspended := false, false, None, false;
      anchor, timeoutError, final, restarts, restart, restartApplied := ZERO_TIME, None, None, {}, None, false;
    }

    // ---- loading ----------------------------------------------------------------------

    /** Append records to the events one by one, as long as they decode. */
    method AppendEvents(records: seq<Record>) returns (ok: bool)
      modifies this`events
      ensures ok == forall r :: r in records ==> Acceptable(r)
      ensures ok ==> events == old(events) + records
    {
      for i := 0 to |records|
        invariant events == old(events) + records[..i]
        invariant forall r :: r in records[..i] ==> Acceptable(r)
      {
        assert records[i] in records;
        if !Acceptable(records[i]) { return false; }
        events := events + [records[i]];
        assert records[..i + 1] == records[..i] + [records[i]];
      }
      assert records[..|records|] == records;
      return true;
    }

    ghost predicate LoadedTo(chapters: seq<H.Chapter>)
      reads this
    {
      && events == H.ExpandAll(chapters)
      && restart == H.LastRestart(chapters) && restarts == H.RestartIds(chapters)
      && final == H.FinalOutcome(chapters)
      && forall r :: r in events ==> Acceptable(r)
    }

    method LoadChapter(ghost before: seq<H.Chapter>, c: H.Chapter) returns (ok: bool)
      requires LoadedTo(before) && !c.JobStart?
      modifies this`events, this`restart, this`restarts, this`final
      ensures ok == forall r :: r in H.Expand(c) ==> Acceptable(r)
      ensures ok ==> LoadedTo(before + [c])
    {
      hide Acceptable, H.ExpandAll, H.LastRestart, H.RestartIds, H.FinalOutcome;
      LoadSnoc(before, c);
      match c
      case Execution(record, prefix) =>
        var records := if record.kind == Restart && record.descriptor.Retained? then record.descriptor.records
                       else prefix;
        assert record in records + [record];
        if !Acceptable(record) { return false; }
        ok := AppendEvents(records);
        if !ok { return; }
        events := events + [record];
        if record.kind == Restart {
          restart := Some(record.id);
          restarts := restarts + {record.id};
        }
      case JobOutcome(prefix, _) =>
        ok := AppendEvents(prefix);
        if !ok { return; }
        final := Some(c);
    }

    /** All of a job's chapters, in order. */
    method LoadHistory() returns (ok: bool)
      requires StartsJob(store.chapters) && events == [] && restart.None? && restarts == {} && final.None?
      modifies this`events, this`restart, this`restarts, this`final
      ensures ok == forall r :: r in H.ExpandAll(store.chapters) ==> Acceptable(r)
      ensures ok ==> LoadedTo(store.chapters)
    {
      hide Acceptable, H.ExpandAll, H.LastRestart, H.RestartIds, H.FinalOutcome, H.Expand;
      var chapters := store.chapters;
      LoadNothing(chapters);
      if chapters == [] { return true; }
      for i := 1 to |chapters|
        invariant LoadedTo(chapters[..i])
      {
        assert chapters[..i + 1] == chapters[..i] + [chapters[i]];
        ok := LoadChapter(chapters[..i], chapters[i]);
        if !ok {
          BadChapter(chapters, i);
          return;
        }
      }
      assert chapters[..|chapters|] == chapters;
      return true;
    }

    // ---- events ------------------------------------------------------------------------

    /** `peekLocked`. */
    method PeekLocked() returns (next: Option<Record>)
      requires cursor <= |events|
      modifies this`cursor
      ensures State() == old(State()).(cursor := H.Skip(events, old(cursor)))
      ensures next == if cursor < |events| then Some(events[cursor]) else None
    {
      while cursor < |events| && Skipped(events[cursor].kind)
        invariant cursor <= |events|
        invariant H.Skip(events, cursor) == H.Skip(events, old(cursor))
      {
        cursor := cursor + 1;
      }
      next := if cursor < |events| then Some(events[cursor]) else None;
    }

    /** The clock and the known timeout after a record, consumed or committed. */
    method Note(r: Record)
      modifies this`anchor, this`timeoutError
      ensures State() == H.Observe(old(State()), r)
    {
      if r.kind == Result || r.kind == JoinResult {
        anchor := r.at;
        timeoutError := if r.errorKind == Timeout then Some(r.error) else None;
      }
      if r.retry || r.kind == Sleep { anchor := r.wakeAt; }
    }

    /** `controlLocked`: the first fault stays. */
    method ControlLocked(fault: H.Fault)
      modifies this`fatal
      ensures State() == old(State()).(fatal := if old(fatal).None? then Some(fault) else old(fatal))
    {
      if fatal.None? { fatal := Some(fault); }
    }

    /** The whole effect of a call is a step of `History`. */
    twostate predicate Stepped(s: H.Step, response: H.Response, built: bool)
      reads this, store
    {
      State() == s.run && store.chapters == s.store && response == s.response && built == s.built
    }

    /** `appendLocked`. */
    method AppendLocked(rec: Record, now: Time, net: H.Net) returns (response: H.Response)
      requires fatal.None?
      modifies this, store
      ensures Stepped(H.Append(old(State()), old(store.chapters), rec, now, net), response, true)
      ensures activated == old(activated) && (response.Got? ==> fatal.None?)
    {
      hide Acceptable, H.Adoptable, H.Commit, H.Put;
      var mine := rec.(version := PATTERN_VERSION, activation := activation);
      if mine.at == ZERO_TIME { mine := mine.(at := now); }
      if !Acceptable(mine) { return H.Refused(H.Malformed); }
      var attach := rec.kind != Activation && rec.kind != Header;
      var prefix := if attach then pending else [];
      var winner := Settle(mine, prefix, net);
      if winner.None? {
        ControlLocked(H.AppendFailed);
        return H.Refused(H.Fatal);
      }
      CommitLocked(winner.value);
      response := H.Got(winner.value);
    }

    /** Put a chapter and, if that is uncertain or too late, see who has the slot. */
    method Settle(mine: Record, prefix: seq<Record>, net: H.Net) returns (winner: Option<Record>)
      modifies store
      ensures store.chapters == H.Put(old(store.chapters), ordinal, H.Execution(mine, prefix), net.delivery)
      ensures winner == if H.Lands(old(store.chapters), ordinal, net.delivery)
              && net.delivery == H.Delivered then Some(mine)
                        else if net.readable && ordinal < |store.chapters| && H.Adoptable(store.chapters[ordinal],
                            mine, prefix)
                        then Some(store.chapters[ordinal].record)
                        else None
    {
      hide Acceptable, H.Adoptable;
      var ok := store.PutChapter(ordinal, H.Execution(mine, prefix), net.delivery);
      if ok { return Some(mine); }
      var got := store.GetChapter(ordinal, net.readable);
      if got.None? { return None; }
      var same := SameEvent(got.value, mine, prefix);
      winner := if same then Some(got.value.record) else None;
    }

    method CommitLocked(r: Record)
      modifies this
      ensures State() == H.Commit(old(State()), r)
      ensures fatal == old(fatal) && activated == old(activated)
    {
      ordinal := ordinal + 1;
      if r.kind != Activation && r.kind != Header { pending := []; }
      Note(r);
    }

    /** `activateLocked`. */
    method ActivateLocked(now: Time, net: H.Net) returns (response: H.Response)
      requires fatal.None?
      modifies this, store
      ensures var s := H.Activate(old(State()), old(store.chapters), now, net);
              Stepped(s, response, s.built) && s.built == !old(activated)
      ensures old(activated) ==> State() == old(State()) && store.chapters == old(store.chapters) && response.Refused?
      ensures !old(activated) ==> (response.Got? <==> activated)
      ensures activated ==> fatal.None?
    {
      hide H.Append;
      if activated { return H.Refused(H.CacheMiss); }
      response := AppendLocked(Blank(Activation, "").(versions := Some(versions)), now, net);
      if response.Got? { activated := true; }
    }

    /** `liveLocked`: arm the timers at the live edge. */
    method LiveLocked(expired: bool) returns (refusal: Option<H.Refusal>)
      requires fatal.None? && !suspended
      modifies this`live
      ensures refusal == (if !H.RestartPending(old(State())) && inspecting then Some(H.CacheMiss)
                          else if live && expired then Some(H.Interrupted) else None)
      ensures State() == if H.RestartPending(old(State())) || inspecting then old(State())
                         else old(State()).(live := true)
    {
      if restart.None? || restartApplied {
        if inspecting { return Some(H.CacheMiss); }
        live := true;
      }
      refusal := if live && expired then Some(H.Interrupted) else None;
    }

    method Defers(rec: Record, asked: bool) returns (deferred: bool)
      ensures deferred == H.Deferred(State(), rec, asked)
    {
      deferred := asked;
      if rec.kind in {Scope, Task, Attempt, Catch, Handled, Continuation} { deferred := true; }
      else if rec.kind == Decision { deferred := !rec.retry; }
      if deferred && rec.kind == Result && rec.errorKind == Timeout { deferred := timeoutError == Some(rec.error); }
    }

    /** A built record: deferred, or the next durable boundary. */
    method EnterLocked(rec: Record, asked: bool, env: H.Env) returns (response: H.Response)
      requires fatal.None?
      modifies this, store
      ensures Stepped(H.Enter(old(State()), old(store.chapters), rec, asked, env), response, true)
    {
      hide H.Append, H.Activate, H.Deferred;
      var deferred := Defers(rec, asked);
      if deferred {
        if rec.kind == Continuation { anchor := rec.at; }
        pending := pending + [rec];
        return H.Got(rec);
      }
      var a := ActivateLocked(env.now, env.activationNet);
      if a.Refused? && !activated { return a; }
      response := AppendLocked(rec, env.now, env.net);
    }

    /** `recordEvent`. */
    method RecordEvent(kind: Kind, id: string, build: Record, deferred: bool,
                       env: H.Env) returns (response: H.Response, built: bool)
      requires cursor <= |events|
      modifies this, store
      ensures Stepped(H.RecordEvent(old(State()), old(store.chapters), kind, id, build, deferred, env), response, built)
    {
      hide H.Frontier, H.Consume, StartsWith;
      built := false;
      if suspended { return H.Refused(H.Suspended), false; }
      if fatal.Some? { return H.Refused(H.Fatal), false; }
      if env.cancelled { return H.Refused(H.Interrupted), false; }
      var next := PeekLocked();
      if next.Some? {
        response := ConsumeLocked(kind, id, next.value);
      } else {
        response, built := FrontierLocked(kind, id, build, deferred, env);
      }
    }

    /** The recorded event, if it is the one asked for. */
    method ConsumeLocked(kind: Kind, id: string, next: Record) returns (response: H.Response)
      requires cursor < |events| && events[cursor] == next && fatal.None?
      modifies this
      ensures State() == if next.kind == kind && next.id == id then H.Consume(old(State()), next)
                         else if next.kind == Result && next.errorKind == Timeout && Below(id, next.id)
                              then old(State())
                         else old(State()).(fatal := Some(H.NonDeterministic))
      ensures response == if next.kind == kind && next.id == id then H.Got(next)
                          else if next.kind == Result && next.errorKind == Timeout && Below(id, next.id)
                               then H.Refused(H.Boundary)
                          else H.Refused(H.Fatal)
    {
      if next.kind != kind || next.id != id {
        if next.kind == Result && next.id != id && next.errorKind == Timeout && Below(id, next.id) {
          return H.Refused(H.Boundary);
        }
        ControlLocked(H.NonDeterministic);
        return H.Refused(H.Fatal);
      }
      cursor := cursor + 1;
      if next.kind == Continuation { anchor := next.at; }
      Note(next);
      response := H.Got(next);
    }

    method FrontierLocked(kind: Kind, id: string, build: Record, deferred: bool,
                          env: H.Env) returns (response: H.Response, built: bool)
      requires fatal.None? && !suspended
      modifies this, store
      ensures Stepped(H.Frontier(old(State()), old(store.chapters), kind, id, build, deferred, env), response, built)
    {
      hide H.Enter, H.Deferred;
      built := false;
      ghost var run := State();
      if restart.Some? && !restartApplied && kind != Continuation {
        ControlLocked(H.NonDeterministic);
        return H.Refused(H.Fatal), false;
      }
      if inspecting && final.None? && kind in {Scope, Task, Attempt} {
        return H.Got(build.(kind := kind, id := id, version := PATTERN_VERSION, at := ZERO_TIME)), true;
      }
      var refusal := LiveLocked(env.expired);
      if refusal.Some? { return H.Refused(refusal.value), false; }
      var rec := build.(kind := kind, id := id, version := PATTERN_VERSION);
      if rec.at == ZERO_TIME { rec := rec.(at := env.now); }
      assert State() == if H.RestartPending(run) then run else run.(live := true);
      response := EnterLocked(rec, deferred, env);
      built := true;
    }

    /** `applyRestart`, as far as the log is concerned. */
    method ReachRestart(kind: Kind, id: string)
      requires cursor <= |events|
      modifies `cursor, `fatal, `restartApplied
      ensures var run := H.ReachRestart(old(State()), kind, id);
              fatal == run.fatal && restartApplied == run.restartApplied
      ensures cursor == old(cursor) || cursor == H.Skip(old(events), old(cursor))
    {
      hide H.Skip, H.ReachRestart;
      Reaches(State(), kind, id);
      if kind != Continuation || id !in restarts { return; }
      var next := PeekLocked();
      if next.Some? && (next.value.kind != kind || next.value.id != id) {
        ControlLocked(H.RestartMissed);
      } else if restart == Some(id) {
        restartApplied := true;
      }
    }

    /** `runExecution` up to the orchestration's first call. */
    method Begin(now: Time, net: H.Net) returns (response: H.Response)
      requires StartsJob(store.chapters) && ordinal == |store.chapters|
      requires State() == H.Run([], 0, [], ordinal, activation, versions, false, false, None, false, ZERO_TIME,
                                None, inspecting, false, {}, None, false)
      modifies this, store
      ensures var s := H.Begin(old(store.chapters), activation, versions, inspecting, now, net);
              && response == s.response && store.chapters == s.store
              && (response.Got? ==> State() == s.run)
    {
      hide H.Append, H.ExpandAll, H.LastRestart, H.RestartIds, H.FinalOutcome, Acceptable;
      ghost var spec := H.Load(store.chapters, activation, versions, inspecting);
      var ok := LoadHistory();
      if !ok { return H.Refused(H.Malformed); }
      assert State() == spec;
      if final.Some? && final.value.oversized { return H.Refused(H.Ended); }
      if events == [] {
        if inspecting { return H.Refused(H.CacheMiss); }
        response := AppendLocked(Blank(Header, "").(versions := Some(versions)), now, net);
        if response.Got? { anchor := response.record.at; }
      } else if events[0].kind != Header {
        response := H.Refused(H.Malformed);
      } else {
        cursor := 1;
        anchor := events[0].at;
        response := H.Got(events[0]);
      }
    }
  }

  lemma {:induction false} LoadNothing(chapters: seq<H.Chapter>)
    requires StartsJob(chapters)
    ensures var none := if chapters == [] then [] else chapters[..1];
            H.ExpandAll(none) == [] && H.LastRestart(none) == None && H.RestartIds(none) == {}
                && H.FinalOutcome(none) == None
  {
    if chapters != [] {
      LoadSnoc([], H.JobStart);
      assert chapters[..1] == [] + [H.JobStart];
    }
  }

  lemma {:induction false} LoadSnoc(before: seq<H.Chapter>, c: H.Chapter)
    ensures H.ExpandAll(before + [c]) == H.ExpandAll(before) + H.Expand(c)
    ensures H.LastRestart(before + [c]) == if c.Execution? && c.record.kind == Restart then Some(c.record.id)
                                           else H.LastRestart(before)
    ensures H.RestartIds(before + [c]) == H.RestartIds(before) + if c.Execution?
            && c.record.kind == Restart then {c.record.id} else {}
    ensures H.FinalOutcome(before + [c]) == if c.JobOutcome? then Some(c) else H.FinalOutcome(before)
  {
    hide H.Expand;
    var r := before + [c];
    assert r[..|before|] == before && r[|before|] == c;
  }

  /** One bad record anywhere makes the whole history unreadable. */
  lemma {:induction false} BadChapter(chapters: seq<H.Chapter>, i: nat)
    requires i < |chapters| && exists r :: r in H.Expand(chapters[i]) && !Acceptable(r)
    ensures exists r :: r in H.ExpandAll(chapters) && !Acceptable(r)
    decreases |chapters| - i
  {
    hide Acceptable, H.Expand;
    var r :| r in H.Expand(chapters[i]) && !Acceptable(r);
    ExpandHas(chapters, i, r);
  }

  lemma {:induction false} ExpandHas(chapters: seq<H.Chapter>, i: nat, r: Record)
    requires i < |chapters| && r in H.Expand(chapters[i])
    ensures r in H.ExpandAll(chapters)
  {
    hide H.Expand;
    if i < |chapters| - 1 { ExpandHas(chapters[..|chapters| - 1], i, r); }
  }
}

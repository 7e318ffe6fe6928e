/** One executor over the durable log: consume the exact next recorded event, or
    build a new one and commit it before moving on. */
module History {
  import opened Text
  import opened JsonText
  import opened Records

  // ---- chapters -----------------------------------------------------------------

  /** One slot of the log. Deferred records ride in front of the record, or of
      the job's final outcome, that made them durable. An outcome may itself say
      that a payload was too large to record. */
  datatype Chapter = JobStart | Execution(record: Record, prefix: seq<Record>) | JobOutcome(prefix: seq<Record>,
      oversized: bool)

  /** The logical records of one chapter, in order. A restart brings the records
      it retained from the run it replaces. */
  function Expand(c: Chapter): seq<Record> {
    match c
    case JobStart => []
    case Execution(r, prefix) =>
      (if r.kind == Restart && r.descriptor.Retained? then r.descriptor.records else prefix) + [r]
    case JobOutcome(prefix, _) => prefix
  }

  function ExpandAll(cs: seq<Chapter>): seq<Record> {
    if cs == [] then [] else ExpandAll(cs[..|cs| - 1]) + Expand(cs[|cs| - 1])
  }

  /** The part of a record list that orchestrations see. */
  function Visible(rs: seq<Record>): seq<Record> {
    if rs == [] then []
    else
      var last := rs[|rs| - 1];
      Visible(rs[..|rs| - 1]) + (if EngineOnly(last.kind) then [] else [last])
  }

  // ---- the append-only store ------------------------------------------------------

  /** What the network does to one append. */
  datatype Delivery = Delivered | AckLost | Dropped

  /** An append and, should it fail, whether the slot can be read. */
  datatype Net = Net(delivery: Delivery, readable: bool)

  /** A put lands only in the slot right after the last one. */
  predicate Lands(store: seq<Chapter>, ordinal: nat, d: Delivery) { ordinal == |store| && d != Dropped }

  function Put(store: seq<Chapter>, ordinal: nat, c: Chapter, d: Delivery): seq<Chapter> {
    if Lands(store, ordinal, d) then store + [c] else store
  }

  // ---- executor state -----------------------------------------------------------------

  datatype Fault = NonDeterministic | RestartMissed | AppendFailed

  /** The fields of `executionRun` that the log protocol reads and writes. */
  datatype Run = Run(
    events: seq<Record>,
    cursor: nat,
    pending: seq<Record>,
    ordinal: nat,
    activation: string,
    versions: Versions,
    activated: bool,
    live: bool,
    fatal: Option<Fault>,
    suspended: bool,
    anchor: Time,
    timeoutError: Option<Json>,
    inspecting: bool,
    finished: bool,
    restarts: set<string>,
    restart: Option<string>,
    restartApplied: bool)

  datatype Refusal = Suspended | Fatal | Interrupted | Boundary | CacheMiss | Malformed | Ended

  datatype Response = Got(record: Record) | Refused(why: Refusal)

  /** What one call left behind: the two states, the answer, whether the builder
      was evaluated, the records the executor takes to be in the slots it passed,
      and whether it adopted a prefix other than its own. */
  datatype Step = Step(run: Run, store: seq<Chapter>, response: Response, built: bool, passed: seq<Record>,
                       adopted: bool)

  function Quiet(run: Run, store: seq<Chapter>, response: Response, built: bool): Step {
    Step(run, store, response, built, [], false)
  }

  /** The next position `peekLocked` settles on. */
  function Skip(events: seq<Record>, cursor: nat): (i: nat)
    requires cursor <= |events|
    ensures cursor <= i <= |events|
    ensures forall k :: cursor <= k < i ==> Skipped(events[k].kind)
    ensures i < |events| ==> !Skipped(events[i].kind)
    decreases |events| - cursor
  {
    if cursor < |events| && Skipped(events[cursor].kind) then Skip(events, cursor + 1) else cursor
  }

  /** The logical clock after a record. */
  function AnchorAfter(anchor: Time, r: Record): Time {
    if r.retry || r.kind == Sleep then r.wakeAt
    else if r.kind in {Result, JoinResult} then r.at
    else anchor
  }

  /** The timeout that later propagation may repeat. */
  function TimeoutAfter(known: Option<Json>, r: Record): Option<Json> {
    if r.kind !in {Result, JoinResult} then known
    else if r.errorKind == Timeout then Some(r.error)
    else None
  }

  function Observe(run: Run, r: Record): Run {
    run.(anchor := AnchorAfter(run.anchor, r), timeoutError := TimeoutAfter(run.timeoutError, r))
  }

  function Consume(run: Run, r: Record): Run
    requires run.cursor < |run.events|
  {
    var anchor := if r.kind == Continuation then r.at else run.anchor;
    Observe(run.(cursor := run.cursor + 1, anchor := anchor), r)
  }

  // ---- appending -----------------------------------------------------------------------

  /** Competing executors may have sampled different clocks for one prefix. */
  predicate SamePrefix(a: seq<Record>, b: seq<Record>) { a == b || ClearAll(a) == ClearAll(b) }

  predicate Attaches(k: Kind) { k != Activation && k != Header }

  /** `rec` as it goes to the store. */
  function Stamp(run: Run, rec: Record, now: Time): Record {
    rec.(version := PATTERN_VERSION, activation := run.activation, at := if rec.at == ZERO_TIME then now else rec.at)
  }

  /** The committed slot holds the same event of the same path. A result may be
      another party's answer; every other record must be exactly ours. */
  predicate Adoptable(slot: Chapter, rec: Record, prefix: seq<Record>) {
    && slot.Execution?
    && Acceptable(slot.record)
    && (rec.kind == Result || slot.record == rec)
    && slot.record.kind == rec.kind && slot.record.id == rec.id && slot.record.version == rec.version
    && slot.record.descriptor == rec.descriptor
    && SamePrefix(prefix, slot.prefix)
  }

  /** `appendLocked`. */
  function Append(run: Run, store: seq<Chapter>, rec: Record, now: Time, net: Net): Step {
    var mine := Stamp(run, rec, now);
    if !Acceptable(mine) then Quiet(run, store, Refused(Malformed), true)
    else
      var prefix := if Attaches(rec.kind) then run.pending else [];
      var store' := Put(store, run.ordinal, Execution(mine, prefix), net.delivery);
      if Lands(store, run.ordinal, net.delivery) && net.delivery == Delivered
      then Step(Commit(run, mine), store', Got(mine), true, [mine], false)
      else if net.readable && run.ordinal < |store'| && Adoptable(store'[run.ordinal], mine, prefix)
      then
        var slot := store'[run.ordinal];
        Step(Commit(run, slot.record), store', Got(slot.record), true, [slot.record], slot.prefix != prefix)
      else Quiet(run.(fatal := Some(AppendFailed)), store', Refused(Fatal), true)
  }

  function Commit(run: Run, r: Record): Run {
    var run1 := run.(ordinal := run.ordinal + 1, pending := if Attaches(r.kind) then [] else run.pending);
    Observe(run1, r)
  }

  /** `activateLocked`: the first append of an activation names it. */
  function Activate(run: Run, store: seq<Chapter>, now: Time, net: Net): Step {
    if run.activated then Quiet(run, store, Refused(CacheMiss), false)
    else
      var a := Append(run, store, Blank(Activation, "").(versions := Some(run.versions)), now, net);
      if a.response.Got? then a.(run := a.run.(activated := true)) else a
  }

  /** Activate if needed, then append. */
  function ActivateThenAppend(run: Run, store: seq<Chapter>, rec: Record, env: Env): Step {
    var a := Activate(run, store, env.now, env.activationNet);
    if !run.activated && a.response.Refused? then a
    else
      var b := Append(a.run, a.store, rec, env.now, env.net);
      b.(passed := a.passed + b.passed, adopted := a.adopted || b.adopted)
  }

  // ---- recordEvent ------------------------------------------------------------------------

  /** What one call meets: the clock, a cancelled context (before and after the
      live edge arms its timers), and the two appends it may make. */
  datatype Env = Env(now: Time, cancelled: bool, expired: bool, activationNet: Net, net: Net)

  predicate RestartPending(run: Run) { run.restart.Some? && !run.restartApplied }

  /** Declarations and control records wait for the next durable boundary. A
      timeout that only repeats a durable one waits too. */
  predicate Deferred(run: Run, rec: Record, asked: bool) {
    match rec.kind
    case Scope => true
    case Task => true
    case Attempt => true
    case Catch => true
    case Handled => true
    case Continuation => true
    case Decision => !rec.retry
    case Result => asked && (rec.errorKind == Timeout ==> run.timeoutError == Some(rec.error))
    case _ => asked
  }

  /** Keep a built record for the next durable boundary, or make it one. */
  function Enter(run: Run, store: seq<Chapter>, rec: Record, deferred: bool, env: Env): Step {
    if Deferred(run, rec, deferred)
    then
      var anchor := if rec.kind == Continuation then rec.at else run.anchor;
      Quiet(run.(pending := run.pending + [rec], anchor := anchor), store, Got(rec), true)
    else ActivateThenAppend(run, store, rec, env)
  }

  /** The tail of `recordEvent`, past the recorded history. */
  function Frontier(run: Run, store: seq<Chapter>, kind: Kind, id: string, build: Record, deferred: bool,
                    env: Env): Step {
    if RestartPending(run) && kind != Continuation
    then Quiet(run.(fatal := Some(NonDeterministic)), store, Refused(Fatal), false)
    else if run.inspecting && !run.finished && kind in {Scope, Task, Attempt}
    then Quiet(run, store, Got(build.(kind := kind, id := id, version := PATTERN_VERSION, at := ZERO_TIME)), true)
    else if !RestartPending(run) && run.inspecting then Quiet(run, store, Refused(CacheMiss), false)
    else
      var run1 := if RestartPending(run) then run else run.(live := true);
      if run1.live && env.expired then Quiet(run1, store, Refused(Interrupted), false)
      else
        var rec := build.(kind := kind, id := id, version := PATTERN_VERSION,
                          at := if build.at == ZERO_TIME then env.now else build.at);
        Enter(run1, store, rec, deferred, env)
  }

  /** `recordEvent`. */
  function RecordEvent(run: Run, store: seq<Chapter>, kind: Kind, id: string, build: Record, deferred: bool,
                       env: Env): Step
    requires run.cursor <= |run.events|
  {
    if run.suspended then Quiet(run, store, Refused(Suspended), false)
    else if run.fatal.Some? then Quiet(run, store, Refused(Fatal), false)
    else if env.cancelled then Quiet(run, store, Refused(Interrupted), false)
    else
      var run1 := run.(cursor := Skip(run.events, run.cursor));
      if run1.cursor < |run1.events| then
        var next := run1.events[run1.cursor];
        if next.kind == kind && next.id == id then Quiet(Consume(run1, next), store, Got(next), false)
        else if next.kind == Result && next.errorKind == Timeout && Below(id, next.id)
        then Quiet(run1, store, Refused(Boundary), false)
        else Quiet(run1.(fatal := Some(NonDeterministic)), store, Refused(Fatal), false)
      else Frontier(run1, store, kind, id, build, deferred, env)
  }

  /** `applyRestart`, at the target of any restart the log has: history must end
      here or go on with that restart's continuation. Only the newest restart
      waits to be applied. */
  function ReachRestart(run: Run, kind: Kind, id: string): (r: Run)
    requires run.cursor <= |run.events|
    ensures r.events == run.events && r.cursor == run.cursor && r.timeoutError == run.timeoutError
  {
    var i := Skip(run.events, run.cursor);
    if kind != Continuation || id !in run.restarts then run
    else if i < |run.events| && (run.events[i].kind != kind || run.events[i].id != id)
    then run.(fatal := if run.fatal.None? then Some(RestartMissed) else run.fatal)
    else run.(restartApplied := run.restartApplied || run.restart == Some(id))
  }

  // ---- loading ------------------------------------------------------------------------------

  /** The last restart mark in a list of chapters. */
  function LastRestart(cs: seq<Chapter>): Option<string> {
    if cs == [] then None
    else
      var c := cs[|cs| - 1];
      if c.Execution? && c.record.kind == Restart then Some(c.record.id) else LastRestart(cs[..|cs| - 1])
  }

  /** The targets of all restart marks. */
  function RestartIds(cs: seq<Chapter>): set<string> {
    if cs == [] then {}
    else
      var c := cs[|cs| - 1];
      RestartIds(cs[..|cs| - 1]) + if c.Execution? && c.record.kind == Restart then {c.record.id} else {}
  }

  /** The outcome the job ended with, if it has: the last one. */
  function FinalOutcome(cs: seq<Chapter>): (c: Option<Chapter>)
    ensures c.Some? ==> c.value.JobOutcome?
  {
    if cs == [] then None
    else if cs[|cs| - 1].JobOutcome? then Some(cs[|cs| - 1])
    else FinalOutcome(cs[..|cs| - 1])
  }

  /** The job ended because a payload was too large: there is nothing to replay. */
  predicate EndedOversized(cs: seq<Chapter>) { FinalOutcome(cs).Some? && FinalOutcome(cs).value.oversized }

  function Load(store: seq<Chapter>, activation: string, versions: Versions, inspecting: bool): Run {
    Run(ExpandAll(store), 0, [], |store|, activation, versions, false, false, None, false, ZERO_TIME, None, inspecting,
        FinalOutcome(store).Some?, RestartIds(store), LastRestart(store), false)
  }

  /** `runExecution` up to the first call: every record must decode, an empty history gets its header, a
      recorded one must start with it. */
  function Begin(store: seq<Chapter>, activation: string, versions: Versions, inspecting: bool, now: Time,
                 net: Net): Step {
    var run := Load(store, activation, versions, inspecting);
    if exists r :: r in run.events && !Acceptable(r) then Quiet(run, store, Refused(Malformed), false)
    else if EndedOversized(store) then Quiet(run, store, Refused(Ended), false)
    else if run.events == [] then
      if inspecting then Quiet(run, store, Refused(CacheMiss), false)
      else
        var a := Append(run, store, Blank(Header, "").(versions := Some(versions)), now, net);
        if a.response.Got? then a.(run := a.run.(anchor := a.response.record.at)) else a
    else if run.events[0].kind != Header then Quiet(run, store, Refused(Malformed), false)
    else Quiet(run.(cursor := 1, anchor := run.events[0].at), store, Got(run.events[0]), false)
  }
}

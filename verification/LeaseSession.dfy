/** Renewal and terminal mutations of one runner's lease, in atomic steps under
    the session lock. */
module LeaseSessions {
  import opened Text
  import opened Records

  datatype Lease = Lease(id: string, job: JobKey, worker: string, expiry: Time)

  /** What the backend answers. */
  datatype Answer = Accepted | LeaseLost | OtherError

  /** What a renewal call brings back. */
  datatype Renewal = Renewed(next: Option<Lease>) | RenewalFailed

  datatype Mutation = CompleteJob | RescheduleJob | SubmitNew | SubmitRestart

  predicate Terminal(m: Mutation) { m in {CompleteJob, RescheduleJob} }

  /** A call that reached the backend. */
  datatype BackendCall = RenewCall(lease: Lease) | MutationCall(lease: Lease, mutation: Mutation, answer: Answer)

  // ---- renewing ---------------------------------------------------------------------------

  datatype RenewOutcome = RenewOutcome(called: bool, result: Option<Lease>)

  /** The lease the backend gave back is the same one, held by a named worker, and
      still runs. */
  predicate Continues(lease: Lease, next: Lease, now: Time) {
    && next.id == lease.id && next.job == lease.job && next.worker != ""
    && (lease.worker != "" ==> next.worker == lease.worker)
    && next.expiry > now
  }

  /** `renewLease`: asked at `now`, answered at `later`, unless the call ran out of
      time. */
  function RenewLease(lease: Lease, now: Time, answer: Renewal, timedOut: bool, later: Time): RenewOutcome {
    if lease.expiry != ZERO_TIME && lease.expiry <= now then RenewOutcome(false, None)
    else if answer.RenewalFailed? || timedOut || answer.next.None? || !Continues(lease, answer.next.value, later)
         then RenewOutcome(true, None)
    else RenewOutcome(true, answer.next)
  }

  // ---- the session ---------------------------------------------------------------------------

  /** `lost` when the run context is cancelled, `stopped` when the heartbeat's is. */
  datatype Session = Session(current: Lease, released: bool, lost: bool, stopped: bool, calls: seq<BackendCall>)

  predicate Closed(s: Session) { s.released || s.lost }

  datatype Op =
    | CheckExpiry(now: Time)
    | Beat(now: Time, renewal: Renewal, timedOut: bool, later: Time, stopping: bool)
    | Mutate(mutation: Mutation, answer: Answer)
    | StopHeartbeat
    | CancelRun

  /** A heartbeat. A failure counts as a loss unless the heartbeat was being
      stopped while the call was out. */
  function BeatStep(s: Session, now: Time, answer: Renewal, timedOut: bool, later: Time, stopping: bool): Session {
    if s.released || s.stopped || s.lost then s
    else
      var r := RenewLease(s.current, now, answer, timedOut, later);
      var calls := if r.called then s.calls + [RenewCall(s.current)] else s.calls;
      match r.result
      case Some(next) => s.(current := next, calls := calls, stopped := stopping)
      case None => s.(lost := !stopping, calls := calls, stopped := stopping)
  }

  function MutateStep(s: Session, m: Mutation, answer: Answer): Session {
    if Closed(s) then s
    else
      var s1 := s.(calls := s.calls + [MutationCall(s.current, m, answer)]);
      match answer
      case Accepted => if Terminal(m) then s1.(released := true, stopped := true) else s1
      case LeaseLost => s1.(lost := true)
      case OtherError => s1
  }

  function Step(s: Session, op: Op): Session {
    match op
    case CheckExpiry(now) => if !s.released && s.current.expiry <= now then s.(lost := true) else s
    case Beat(now, answer, timedOut, later, stopping) => BeatStep(s, now, answer, timedOut, later, stopping)
    case Mutate(m, answer) => MutateStep(s, m, answer)
    case StopHeartbeat => s.(stopped := true)
    case CancelRun => s.(lost := true, stopped := true)
  }

  function Run(s: Session, ops: seq<Op>): Session
    decreases |ops|
  {
    if ops == [] then s else Run(Step(s, ops[0]), ops[1..])
  }

  /** `startLeaseSession`. */
  function StartSession(lease: Lease, now: Time, answer: Renewal, timedOut: bool, later: Time): Option<Session> {
    var r := RenewLease(lease, now, answer, timedOut, later);
    match r.result
    case None => None
    case Some(next) => Some(Session(next, false, false, false, [RenewCall(lease)]))
  }

  // ---- safety over every interleaving -----------------------------------------------------------

  function TerminalSuccesses(calls: seq<BackendCall>): nat {
    if calls == [] then 0
    else
      var c := calls[|calls| - 1];
      TerminalSuccesses(calls[..|calls| - 1]) + if c.MutationCall? && Terminal(c.mutation)
          && c.answer == Accepted then 1 else 0
  }

  /** A session with a history of calls. */
  predicate SessionOk(origin: Lease, s: Session) {
    && origin.worker != "" && SameHolder(origin, s.current)
    && (forall i :: 0 <= i < |s.calls| && s.calls[i].MutationCall? ==> SameHolder(origin, s.calls[i].lease))
    && TerminalSuccesses(s.calls) == if s.released then 1 else 0
  }

  predicate SameHolder(a: Lease, b: Lease) { a.id == b.id && a.job == b.job && a.worker == b.worker }

  lemma {:induction false} CallCounts(calls: seq<BackendCall>, c: BackendCall)
    ensures TerminalSuccesses(calls + [c]) == TerminalSuccesses(calls) + if c.MutationCall? && Terminal(c.mutation)
            && c.answer == Accepted then 1 else 0
  {
    assert (calls + [c])[..|calls|] == calls;
  }

  lemma {:induction false} StepKeeps(origin: Lease, s: Session, op: Op)
    requires SessionOk(origin, s)
    ensures SessionOk(origin, Step(s, op))
  {
    hide TerminalSuccesses;
    match op
    case Beat(now, answer, timedOut, later, stopping) => CallCounts(s.calls, RenewCall(s.current));
    case Mutate(m, answer) => CallCounts(s.calls, MutationCall(s.current, m, answer));
    case _ =>
  }

  /** Whatever heartbeats, mutations and cancellations interleave, the session
      keeps acting for one lease, one job and one worker, and at most one
      completion or reschedule succeeds. */
  lemma {:induction false} HolderNeverChanges(origin: Lease, s: Session, ops: seq<Op>)
    requires SessionOk(origin, s)
    ensures SessionOk(origin, Run(s, ops)) && SameHolder(s.current, Run(s, ops).current)
            && TerminalSuccesses(Run(s, ops).calls) <= 1
    decreases |ops|
  {
    hide TerminalSuccesses, Step;
    if ops != [] {
      StepKeeps(origin, s, ops[0]);
      HolderNeverChanges(origin, Step(s, ops[0]), ops[1..]);
    }
  }

  lemma {:induction false} StartsWell(lease: Lease, now: Time, answer: Renewal, timedOut: bool, later: Time)
    ensures var s := StartSession(lease, now, answer, timedOut, later);
            s.Some? ==> SessionOk(s.value.current,
                                  s.value) && s.value.current.id == lease.id && s.value.current.job == lease.job
                        && (lease.worker != "" ==> s.value.current.worker == lease.worker)
  {
    assert [RenewCall(lease)][..0] == [];
  }

  /** After a release or a detected loss nothing reaches the backend again, and the
      session stays closed. */
  lemma {:induction false} ClosedForever(s: Session, ops: seq<Op>)
    requires Closed(s)
    ensures Closed(Run(s, ops)) && Run(s, ops).calls == s.calls && Run(s, ops).current == s.current
            && Run(s, ops).released == s.released
    decreases |ops|
  {
    if ops != [] { ClosedForever(Step(s, ops[0]), ops[1..]); }
  }

  lemma {:induction false} RunConcat(s: Session, a: seq<Op>, b: seq<Op>)
    ensures Run(s, a + b) == Run(Run(s, a), b)
    decreases |a|
  {
    hide Step;
    if a == [] {
      assert a + b == b;
    } else {
      assert (a + b)[1..] == a[1..] + b;
      RunConcat(Step(s, a[0]), a[1..], b);
    }
  }

  /** A terminal mutation that succeeds is the last call of its session: whatever
      comes after it, in any order. */
  lemma {:induction false} ReleaseIsLast(s: Session, before: seq<Op>, m: Mutation, after: seq<Op>)
    requires Terminal(m) && !Closed(Run(s, before))
    ensures var end := Run(s, before + [Mutate(m, Accepted)] + after);
            end.released && end.calls == Run(s, before).calls + [MutationCall(Run(s, before).current, m, Accepted)]
  {
    var mid := Run(s, before);
    var op := Mutate(m, Accepted);
    RunConcat(s, before + [op], after);
    RunConcat(s, before, [op]);
    assert [op][1..] == [];
    ClosedForever(Step(mid, op), after);
  }

  // ---- the session object ---------------------------------------------------------------------------

  class LeaseSession {
    var current: Lease
    var released: bool
    var lost: bool
    var stopped: bool
    var calls: seq<BackendCall>

    function State(): Session
      reads this
    {
      Session(current, released, lost, stopped, calls)
    }

    constructor (next: Lease, opening: BackendCall)
      ensures State() == Session(next, false, false, false, [opening])
    {
      current, released, lost, stopped, calls := next, false, false, false, [opening];
    }

    /** One beat of `loop`, the timer having fired. */
    method Beat(now: Time, answer: Renewal, timedOut: bool, later: Time, stopping: bool) returns (goOn: bool)
      modifies this
      ensures State() == BeatStep(old(State()), now, answer, timedOut, later, stopping)
      ensures goOn ==> !Closed(State()) && current.expiry > later
    {
      if released || stopped || lost { return false; }
      var r := RenewLease(current, now, answer, timedOut, later);
      if r.called { calls := calls + [RenewCall(current)]; }
      stopped := stopping;
      if r.result.None? {
        if !stopping { lost := true; }
        return false;
      }
      current := r.result.value;
      goOn := true;
    }

    /** `check`. */
    method Check() returns (ok: bool)
      ensures ok == !Closed(State())
    {
      ok := !lost && !released;
    }

    /** `Complete`, `Reschedule`, `SubmitJob` and `SubmitRestartJob`. */
    method Mutate(m: Mutation, answer: Answer) returns (ok: bool)
      modifies this
      ensures State() == MutateStep(old(State()), m, answer)
      ensures ok <==> !Closed(old(State())) && answer == Accepted
    {
      var open := Check();
      if !open { return false; }
      calls := calls + [MutationCall(current, m, answer)];
      if answer == LeaseLost { lost := true; }
      if answer != Accepted { return false; }
      if Terminal(m) { released, stopped := true, true; }
      ok := true;
    }
  }
}

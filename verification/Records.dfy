/** Execution history records, the unit the engine writes and reads back. */
module Records {
  import opened Text
  import opened JsonText

  /** Go's zero time, which stands for "no time" and "no limit". */
  type Time = int
  const ZERO_TIME: Time := 0

  const PATTERN_VERSION := 4

  datatype Kind =
    | Header | Activation | Restart | Checkpoint | DependencyBinding
    | Scope | Task | Attempt | Result | Catch | Handled | Decision | End
    | Wait | Dispatch | Sleep | Join | JoinResult | Admission | Continuation

  datatype ErrorKind = NoError | AppError | SystemError | Timeout

  datatype Disposition = NoDisposition | HandledOk | Continue | Propagate

  datatype Versions = Versions(pattern: int, jobdb: string, consumers: map<string, string>)

  datatype ArtifactKey = ArtifactKey(job: string, ordinal: int, name: string, size: int)

  datatype Artifact = Artifact(name: string, key: Option<ArtifactKey>)

  datatype Snapshot = Snapshot(data: Json, artifacts: seq<Artifact>)

  datatype JobKey = JobKey(tenant: string, job: string)

  /** A descriptor is JSON; the one a restart carries is a list of records. */
  datatype Descriptor = NoDescriptor | Tree(value: Json) | Retained(records: seq<Record>)

  datatype Record = Record(
    version: int,
    kind: Kind,
    id: string,
    activation: string,
    versions: Option<Versions>,
    at: Time,
    descriptor: Descriptor,
    attempt: int,
    deadline: Time,
    totalDeadline: Time,
    input: Option<Snapshot>,
    output: Option<Snapshot>,
    errorKind: ErrorKind,
    error: Json,
    rule: string,
    disposition: Disposition,
    retryable: Option<bool>,
    retry: bool,
    wakeAt: Time,
    source: Option<JobKey>,
    payload: Option<Json>,
    alternateAt: Option<Time>,
    taskType: string)

  /** A record with nothing filled in but its kind and identity. */
  function Blank(kind: Kind, id: string): Record {
    Record(PATTERN_VERSION, kind, id, "", None, ZERO_TIME, NoDescriptor, 0, ZERO_TIME, ZERO_TIME, None, None,
           NoError, Null, "", NoDisposition, None, false, ZERO_TIME, None, None, None, "")
  }

  predicate SnapshotOk(s: Option<Snapshot>) {
    s.Some? ==>
      && (forall a :: a in s.value.artifacts ==>
            a.name != "" && a.key.Some? && a.key.value.job != "" && a.key.value.name != "" && a.key.value.size >= 0)
      && (forall i, j :: 0 <= i < j < |s.value.artifacts| ==> s.value.artifacts[i].name != s.value.artifacts[j].name)
  }

  predicate Blankspace(s: string) { forall i :: 0 <= i < |s| ==> s[i] in " \t\r\n" }

  /** What `DecodeExecutionRecord` demands of every stored record, beyond its
      being JSON of the right shape. */
  predicate Acceptable(r: Record) {
    && r.version == PATTERN_VERSION
    && (if r.kind in {Header, Activation}
        then r.versions.Some? && r.versions.value.pattern == r.version && r.versions.value.jobdb != ""
        else r.id != "")
    && (r.versions.Some? ==> forall k :: k in r.versions.value.consumers ==>
          !Blankspace(k) && !Blankspace(r.versions.value.consumers[k]))
    && (r.kind == DependencyBinding ==> r.payload.Some?)
    && (r.kind == Dispatch ==> r.taskType != "")
    && (r.kind in {Scope, Task} ==> !r.descriptor.NoDescriptor?)
    && (r.kind == Attempt ==> r.attempt >= 1)
    && (r.kind in {JoinResult, Admission, Result, Handled, End} ==> r.output.Some? || r.errorKind != NoError)
    && (r.kind == Wait ==> r.input.Some? && !r.descriptor.NoDescriptor?)
    && (r.kind == Restart ==> r.source.Some? && r.source.value.tenant != "" && r.source.value.job != "")
    && (r.kind == Continuation ==> r.payload.Some?)
    && SnapshotOk(r.input) && SnapshotOk(r.output)
  }

  /** Kinds that replay skips wherever they stand. */
  predicate Skipped(k: Kind) { k in {Activation, Restart, Checkpoint, DependencyBinding} }

  /** Kinds the engine writes for itself and never hands to the orchestration. */
  predicate EngineOnly(k: Kind) { Skipped(k) || k == Header }

  /** The fields in which two executors of one path may differ. */
  function Clear(r: Record): Record {
    r.(at := ZERO_TIME, deadline := ZERO_TIME, totalDeadline := ZERO_TIME, activation := "")
  }

  function ClearAll(rs: seq<Record>): (cs: seq<Record>)
    ensures |cs| == |rs| && forall i :: 0 <= i < |rs| ==> cs[i] == Clear(rs[i])
  {
    seq(|rs|, i requires 0 <= i < |rs| => Clear(rs[i]))
  }

  predicate StartsWith(s: string, prefix: string) { |prefix| <= |s| && s[..|prefix|] == prefix }

  /** Identities strictly below an attempt. */
  predicate Below(id: string, ancestor: string) { StartsWith(id, ancestor + "/") }
}

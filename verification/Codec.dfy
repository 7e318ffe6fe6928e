/** Execution records in storage: JSON trees, records with the records a restart
    retained, and the reconstruction prefix of a chapter. */
module Codec {
  import opened Text
  import opened JsonText
  import opened Records

  // ---- JSON trees -------------------------------------------------------------------------

  datatype Value =
    | NullValue
    | BoolValue(flag: bool)
    | StringValue(chars: string)
    | NumberValue(text: string)
    | ArrayValue(items: seq<Value>)
    | ObjectValue(fields: map<string, Value>)

  /** `valueToExecution`. */
  function ToValue(v: Json): Value
    decreases v, 1, 0
  {
    match v
    case Null => NullValue
    case Bool(b) => BoolValue(b)
    case Str(s) => StringValue(s)
    case Number(t) => NumberValue(t)
    case Array(_) => ArrayValue(ItemValues(v, |v.items|))
    case Object(_) => ObjectValue(map k | k in v.fields :: ToValue(v.fields[k]))
  }

  function ItemValues(v: Json, n: nat): (r: seq<Value>)
    requires v.Array? && n <= |v.items|
    ensures |r| == n
    decreases v, 0, n
  {
    if n == 0 then [] else ItemValues(v, n - 1) + [ToValue(v.items[n - 1])]
  }

  /** `executionToValue`. */
  function FromValue(p: Value): Json
    decreases p, 1, 0
  {
    match p
    case NullValue => Null
    case BoolValue(b) => Bool(b)
    case StringValue(s) => Str(s)
    case NumberValue(t) => Number(t)
    case ArrayValue(_) => Array(ItemJsons(p, |p.items|))
    case ObjectValue(_) => Object(map k | k in p.fields :: FromValue(p.fields[k]))
  }

  function ItemJsons(p: Value, n: nat): (r: seq<Json>)
    requires p.ArrayValue? && n <= |p.items|
    ensures |r| == n
    decreases p, 0, n
  {
    if n == 0 then [] else ItemJsons(p, n - 1) + [FromValue(p.items[n - 1])]
  }

  lemma {:induction false} ItemValueAt(v: Json, n: nat, i: nat)
    requires v.Array? && i < n <= |v.items|
    ensures ItemValues(v, n)[i] == ToValue(v.items[i])
  {
    if i < n - 1 { ItemValueAt(v, n - 1, i); }
  }

  lemma {:induction false} ItemJsonAt(p: Value, n: nat, i: nat)
    requires p.ArrayValue? && i < n <= |p.items|
    ensures ItemJsons(p, n)[i] == FromValue(p.items[i])
  {
    if i < n - 1 { ItemJsonAt(p, n - 1, i); }
  }

  /** Every JSON tree survives storage exactly, number text and all. */
  lemma {:induction false} TreeRoundTrip(v: Json)
    ensures FromValue(ToValue(v)) == v
    decreases v
  {
    match v
    case Array(items) =>
      var p, n := ToValue(v), |items|;
      forall i | 0 <= i < n ensures ItemJsons(p, n)[i] == items[i] {
        ItemJsonAt(p, n, i);
        ItemValueAt(v, n, i);
        TreeRoundTrip(items[i]);
      }
      assert ItemJsons(p, n) == items;
    case Object(fields) =>
      forall k | k in fields ensures FromValue(ToValue(fields[k])) == fields[k] { TreeRoundTrip(fields[k]); }
      assert FromValue(ToValue(v)).fields == fields;
    case _ =>
  }

  /** And nothing else is ever stored: every stored value is the image of one tree. */
  lemma {:induction false} ValueRoundTrip(p: Value)
    ensures ToValue(FromValue(p)) == p
    decreases p
  {
    match p
    case ArrayValue(items) =>
      var v, n := FromValue(p), |items|;
      forall i | 0 <= i < n ensures ItemValues(v, n)[i] == items[i] {
        ItemValueAt(v, n, i);
        ItemJsonAt(p, n, i);
        ValueRoundTrip(items[i]);
      }
      assert ItemValues(v, n) == items;
    case ObjectValue(fields) =>
      forall k | k in fields ensures ToValue(FromValue(fields[k])) == fields[k] { ValueRoundTrip(fields[k]); }
      assert ToValue(FromValue(p)).fields == fields;
    case _ =>
  }

  // ---- records --------------------------------------------------------------------------------

  datatype StoredError = StoredError(kind: ErrorKind, data: Json)

  /** A stored record. Absent times are zero times; a descriptor is a tree or, for
      a restart, records. */
  datatype Stored = Stored(
    version: int, kind: Kind, id: string, activation: string, versions: Option<Versions>,
    at: Option<Time>, attempt: int, deadline: Option<Time>, totalDeadline: Option<Time>,
    input: Option<Snapshot>, output: Option<Snapshot>, rule: string, disposition: Disposition,
    retryable: Option<bool>, retry: bool, wakeAt: Option<Time>, source: Option<JobKey>,
    alternateAt: Option<Time>, taskType: string,
    descriptor: Option<Value>, retained: seq<Stored>,
    lifecycle: Option<Value>, application: Option<Json>, error: Option<StoredError>)

  function StoreTime(t: Time): Option<Time> { if t == ZERO_TIME then None else Some(t) }

  function LoadTime(t: Option<Time>): Time { if t.None? then ZERO_TIME else t.value }

  predicate LifecycleKind(k: Kind) { k in {Continuation, DependencyBinding} }

  /** A record as its own fields describe it: only a restart retains records, and
      a restart's descriptor is nothing else. */
  predicate Shaped(r: Record)
    decreases r
  {
    && (r.descriptor.Retained? ==> r.kind == Restart) && (r.kind == Restart ==> !r.descriptor.Tree?)
    && (r.descriptor.Retained? ==> forall i :: 0 <= i < |r.descriptor.records| ==> Shaped(r.descriptor.records[i]))
  }

  /** A record's own fields in storage. */
  function Shelve(r: Record, retained: seq<Stored>): Stored {
    Stored(r.version, r.kind, r.id, r.activation, r.versions, StoreTime(r.at), Wrap32(r.attempt),
           StoreTime(r.deadline), StoreTime(r.totalDeadline), r.input, r.output, r.rule, r.disposition,
           r.retryable, r.retry, StoreTime(r.wakeAt), r.source,
           if r.alternateAt.Some? then StoreTime(r.alternateAt.value) else None, r.taskType,
           if r.descriptor.Tree? then Some(ToValue(r.descriptor.value)) else None, retained,
           if LifecycleKind(r.kind) && r.payload.Some? then Some(ToValue(r.payload.value)) else None,
           if LifecycleKind(r.kind) then None else r.payload,
           if r.errorKind == NoError then None else Some(StoredError(r.errorKind, r.error)))
  }

  /** `ExecutionToProto`. */
  function ToStored(r: Record): Outcome<Stored>
    decreases r, 1, 0
  {
    if !Acceptable(r) then Err("invalid execution record")
    else
      match RetainedToStored(r, if r.descriptor.Retained? then |r.descriptor.records| else 0)
      case Err(e) => Err(e)
      case Ok(retained) => Ok(Shelve(r, retained))
  }

  function RetainedToStored(r: Record, n: nat): (s: Outcome<seq<Stored>>)
    requires if r.descriptor.Retained? then n <= |r.descriptor.records| else n == 0
    ensures s.Ok? ==> |s.value| == n
    decreases r, 0, n
  {
    if n == 0 then Ok([])
    else
      match RetainedToStored(r, n - 1)
      case Err(e) => Err(e)
      case Ok(before) =>
        match ToStored(r.descriptor.records[n - 1])
        case Err(e) => Err(e)
        case Ok(s) => Ok(before + [s])
  }

  /** A stored record's own fields. */
  function Unshelve(p: Stored, records: seq<Record>): Record {
    Record(p.version, p.kind, p.id, p.activation, p.versions, LoadTime(p.at),
           if p.kind == Restart then (if records == [] then NoDescriptor else Retained(records))
           else if p.descriptor.Some? then Tree(FromValue(p.descriptor.value)) else NoDescriptor,
           p.attempt, LoadTime(p.deadline), LoadTime(p.totalDeadline), p.input, p.output,
           if p.error.Some? then p.error.value.kind else NoError, if p.error.Some? then p.error.value.data else Null,
           p.rule, p.disposition, p.retryable, p.retry, LoadTime(p.wakeAt), p.source,
           if p.lifecycle.Some? then Some(FromValue(p.lifecycle.value)) else p.application, p.alternateAt, p.taskType)
  }

  /** `executionFromProto`. */
  function FromStored(p: Stored): Outcome<Record>
    decreases p, 1, 0
  {
    match RetainedFromStored(p, |p.retained|)
    case Err(e) => Err(e)
    case Ok(records) => if Acceptable(Unshelve(p, records)) then Ok(Unshelve(p, records))
                        else Err("invalid execution record")
  }

  function RetainedFromStored(p: Stored, n: nat): (s: Outcome<seq<Record>>)
    requires n <= |p.retained|
    ensures s.Ok? ==> |s.value| == n
    decreases p, 0, n
  {
    if n == 0 then Ok([])
    else
      match RetainedFromStored(p, n - 1)
      case Err(e) => Err(e)
      case Ok(before) =>
        match FromStored(p.retained[n - 1])
        case Err(e) => Err(e)
        case Ok(r) => Ok(before + [r])
  }

  /** The storage identity: what the hash is taken of. */
  function Identity(r: Record): Outcome<Stored> { ToStored(r) }

  // ---- what storage keeps ---------------------------------------------------------------------------

  /** The record that comes back: an empty list of retained records, a zero
      alternate time and data without an error are gone, and the attempt number
      is cut to 32 bits. */
  function Returned(r: Record): Record
    decreases r, 1, 0
  {
    r.(attempt := Wrap32(r.attempt),
       descriptor := if !r.descriptor.Retained? then r.descriptor
                     else if r.descriptor.records == [] then NoDescriptor
                     else Retained(ReturnedAll(r, |r.descriptor.records|)),
       alternateAt := if r.alternateAt == Some(ZERO_TIME) then None else r.alternateAt,
       error := if r.errorKind == NoError then Null else r.error)
  }

  function ReturnedAll(r: Record, n: nat): (s: seq<Record>)
    requires r.descriptor.Retained? && n <= |r.descriptor.records|
    ensures |s| == n
    decreases r, 0, n
  {
    if n == 0 then [] else ReturnedAll(r, n - 1) + [Returned(r.descriptor.records[n - 1])]
  }

  /** Every attempt number survives the cut to 32 bits as a positive one. */
  predicate AttemptsFit(r: Record)
    decreases r
  {
    && (r.kind == Attempt ==> Wrap32(r.attempt) >= 1)
    && (r.descriptor.Retained? ==> forall i :: 0 <= i < |r.descriptor.records| ==> AttemptsFit(r.descriptor.records[i]))
  }

  lemma {:induction false} ReturnedAt(r: Record, n: nat, i: nat)
    requires r.descriptor.Retained? && i < n <= |r.descriptor.records|
    ensures ReturnedAll(r, n)[i] == Returned(r.descriptor.records[i])
  {
    if i < n - 1 { ReturnedAt(r, n - 1, i); }
  }

  /** A record that comes back keeps its shape, and is acceptable exactly when its
      attempt number is still positive. */
  lemma {:induction false} ReturnedAcceptable(r: Record)
    requires Acceptable(r) && (r.kind == Restart ==> !r.descriptor.Tree?)
             && (r.descriptor.Retained? ==> r.kind == Restart)
    ensures Acceptable(Returned(r)) <==> (r.kind == Attempt ==> Wrap32(r.attempt) >= 1)
  {
    hide Wrap32, SnapshotOk, Blankspace;
  }

  lemma {:induction false} UnshelveShelve(r: Record, retained: seq<Stored>, records: seq<Record>)
    requires Shaped(r)
    requires r.descriptor.Retained? ==> records == ReturnedAll(r, |r.descriptor.records|)
    requires !r.descriptor.Retained? ==> records == []
    ensures Unshelve(Shelve(r, retained), records) == Returned(r)
  {
    hide Wrap32, ToValue, FromValue;
    if r.descriptor.Tree? { TreeRoundTrip(r.descriptor.value); }
    if r.payload.Some? { TreeRoundTrip(r.payload.value); }
  }

  /** What storage gives back: the record as `Returned` says, if and only if every
      attempt number in it, and in the records it retains, survives 32 bits. */
  lemma {:induction false} StorageReturns(r: Record)
    requires Shaped(r) && ToStored(r).Ok?
    ensures AttemptsFit(r) ==> FromStored(ToStored(r).value) == Ok(Returned(r))
    ensures !AttemptsFit(r) ==> FromStored(ToStored(r).value).Err?
    decreases r, 1, 0
  {
    hide Acceptable, Unshelve, Wrap32, Returned;
    var p := ToStored(r).value;
    ReturnedAcceptable(r);
    if r.descriptor.Retained? {
      var n := |r.descriptor.records|;
      RetainedReturns(r, p, n);
      if RetainedFromStored(p, n).Ok? { UnshelveShelve(r, p.retained, ReturnedAll(r, n)); }
    } else {
      UnshelveShelve(r, p.retained, []);
    }
  }

  lemma {:induction false} RetainedReturns(r: Record, p: Stored, n: nat)
    requires Shaped(r) && ToStored(r) == Ok(p) && r.descriptor.Retained? && n <= |r.descriptor.records| == |p.retained|
    ensures (forall i :: 0 <= i < n ==> AttemptsFit(r.descriptor.records[i])) ==>
              RetainedFromStored(p, n) == Ok(ReturnedAll(r, n))
    ensures !(forall i :: 0 <= i < n ==> AttemptsFit(r.descriptor.records[i])) ==> RetainedFromStored(p, n).Err?
    decreases r, 0, n
  {
    hide Acceptable, Returned, FromStored, AttemptsFit;
    if n > 0 {
      RetainedReturns(r, p, n - 1);
      RetainedStored(r, p, n - 1);
      StorageReturns(r.descriptor.records[n - 1]);
    }
  }

  lemma {:induction false} RetainedStored(r: Record, p: Stored, i: nat)
    requires ToStored(r) == Ok(p) && r.descriptor.Retained? && i < |r.descriptor.records|
    ensures |p.retained| == |r.descriptor.records| && ToStored(r.descriptor.records[i]) == Ok(p.retained[i])
  {
    hide Acceptable;
    StoredAt(r, |r.descriptor.records|, i);
  }

  lemma {:induction false} StoredAt(r: Record, n: nat, i: nat)
    requires r.descriptor.Retained? && i < n <= |r.descriptor.records| && RetainedToStored(r, n).Ok?
    ensures ToStored(r.descriptor.records[i]) == Ok(RetainedToStored(r, n).value[i])
    decreases n
  {
    hide ToStored;
    if i < n - 1 { StoredAt(r, n - 1, i); }
  }

  /** Storing what came back stores the same thing: the identity of a record is
      stable across storage. */
  lemma {:induction false} IdentitySurvives(r: Record)
    requires Shaped(r) && ToStored(r).Ok? && AttemptsFit(r)
    ensures FromStored(ToStored(r).value).Ok? && Identity(FromStored(ToStored(r).value).value) == Identity(r)
  {
    hide FromStored, ToStored, Returned, Shaped, AttemptsFit;
    StorageReturns(r);
    ReturnedIsStable(r);
  }

  lemma {:induction false} ReturnedIsStable(r: Record)
    requires Shaped(r) && ToStored(r).Ok? && AttemptsFit(r)
    ensures ToStored(Returned(r)) == ToStored(r)
    decreases r
  {
    hide Acceptable;
    ReturnedAcceptable(r);
    var q := Returned(r);
    if r.descriptor.Retained? {
      var n := |r.descriptor.records|;
      if n > 0 { RetainedStable(r, q, n); }
      ShelveStable(r, RetainedToStored(r, n).value);
    } else {
      ShelveStable(r, []);
    }
  }

  lemma {:induction false} ShelveStable(r: Record, retained: seq<Stored>)
    ensures Shelve(Returned(r), retained) == Shelve(r, retained)
  {
    hide ToValue, ReturnedAll;
  }

  lemma {:induction false} RetainedStable(r: Record, q: Record, n: nat)
    requires Shaped(r) && ToStored(r).Ok? && AttemptsFit(r) && r.descriptor.Retained? && 0 < n <= |r.descriptor.records|
    requires q.descriptor == Retained(ReturnedAll(r, |r.descriptor.records|))
    ensures RetainedToStored(q, n) == RetainedToStored(r, n)
    decreases r, n
  {
    hide Acceptable, ToStored, Returned;
    ReturnedAt(r, |r.descriptor.records|, n - 1);
    RetainedStoredOk(r, n - 1);
    ReturnedIsStable(r.descriptor.records[n - 1]);
    if n > 1 { RetainedStable(r, q, n - 1); }
  }

  lemma {:induction false} RetainedStoredOk(r: Record, i: nat)
    requires ToStored(r).Ok? && r.descriptor.Retained? && i < |r.descriptor.records|
    ensures ToStored(r.descriptor.records[i]).Ok?
  {
    hide ToStored;
    RetainedStored(r, ToStored(r).value, i);
  }

  /** Records that lose nothing in storage. */
  predicate Plain(r: Record)
    decreases r
  {
    && -MAX_INT32 - 1 <= r.attempt <= MAX_INT32 && r.alternateAt != Some(ZERO_TIME)
       && (r.errorKind == NoError ==> r.error == Null)
    && (r.descriptor.Retained? ==> r.descriptor.records != [] && forall i :: 0 <= i < |r.descriptor.records| ==>
          Plain(r.descriptor.records[i]))
  }

  /** A record comes back unchanged if and only if it is plain. */
  lemma {:induction false} PlainRecordsReturn(r: Record)
    ensures Returned(r) == r <==> Plain(r)
    decreases r
  {
    hide Wrap32;
    if r.descriptor.Retained? && r.descriptor.records != [] {
      var n := |r.descriptor.records|;
      forall i | 0 <= i < n ensures ReturnedAll(r, n)[i] == r.descriptor.records[i] <==>
            Plain(r.descriptor.records[i]) {
        ReturnedAt(r, n, i);
        PlainRecordsReturn(r.descriptor.records[i]);
      }
      assert ReturnedAll(r, n) == r.descriptor.records <==> forall i :: 0 <= i < n ==>
               ReturnedAll(r, n)[i] == r.descriptor.records[i];
    }
  }

  // ---- the reconstruction prefix of a chapter ---------------------------------------------------------

  function StoreAll(rs: seq<Record>): (s: Outcome<seq<Stored>>)
    ensures s.Ok? ==> |s.value| == |rs|
  {
    if rs == [] then Ok([])
    else
      match StoreAll(rs[..|rs| - 1])
      case Err(e) => Err(e)
      case Ok(before) =>
        match ToStored(rs[|rs| - 1])
        case Err(e) => Err(e)
        case Ok(s) => Ok(before + [s])
  }

  function LoadAll(ps: seq<Stored>): (r: Outcome<seq<Record>>)
    ensures r.Ok? ==> |r.value| == |ps|
  {
    if ps == [] then Ok([])
    else
      match LoadAll(ps[..|ps| - 1])
      case Err(e) => Err(e)
      case Ok(before) =>
        match FromStored(ps[|ps| - 1])
        case Err(e) => Err(e)
        case Ok(r) => Ok(before + [r])
  }

  predicate Storable(rs: seq<Record>) { forall r :: r in rs ==> Shaped(r) && ToStored(r).Ok? && AttemptsFit(r) }

  /** A prefix comes back with every record's identity, in order. */
  lemma {:induction false} PrefixSurvives(rs: seq<Record>)
    requires Storable(rs)
    ensures StoreAll(rs).Ok? && LoadAll(StoreAll(rs).value).Ok?
    ensures forall i :: 0 <= i < |rs| ==>
              LoadAll(StoreAll(rs).value).value[i] == Returned(rs[i]) && Identity(Returned(rs[i])) == Identity(rs[i])
  {
    hide ToStored, FromStored, Returned, Shaped, AttemptsFit;
    if rs != [] {
      var n := |rs| - 1;
      assert rs[n] in rs;
      PrefixSurvives(rs[..n]);
      StorageReturns(rs[n]);
      ReturnedIsStable(rs[n]);
      var ps := StoreAll(rs).value;
      assert ps[..n] == StoreAll(rs[..n]).value;
    }
  }

  /** Chapter metadata: a prefix of records under the engine's own key, and
      whatever else there is. */
  class ChapterMeta {
    var fields: map<string, Json>
    var prefix: Option<seq<Record>>

    constructor (fields: map<string, Json>, prefix: Option<seq<Record>>)
      ensures this.fields == fields && this.prefix == prefix
    {
      this.fields, this.prefix := fields, prefix;
    }

    /** `extractReconstruction`: the prefix leaves the metadata, as stored records. */
    method Extract() returns (stored: Outcome<seq<Stored>>)
      modifies this
      ensures fields == old(fields)
      ensures old(prefix).None? ==> stored == Ok([]) && prefix.None?
      ensures old(prefix).Some? ==> stored == StoreAll(old(prefix).value)
      ensures prefix == if stored.Ok? then None else old(prefix)
    {
      hide ToStored;
      if prefix.None? { return Ok([]); }
      var out := [];
      for i := 0 to |prefix.value|
        invariant prefix == old(prefix)
        invariant StoreAll(prefix.value[..i]) == Ok(out)
      {
        assert prefix.value[..i + 1][..i] == prefix.value[..i];
        var s := ToStored(prefix.value[i]);
        if s.Err? {
          StoreStops(prefix.value, i + 1);
          return Err(s.reason);
        }
        out := out + [s.value];
      }
      assert prefix.value[..|prefix.value|] == prefix.value;
      prefix := None;
      stored := Ok(out);
    }

    /** `restoreReconstruction`. */
    method Restore(stored: seq<Stored>) returns (ok: bool)
      modifies this
      ensures fields == old(fields) && ok == LoadAll(stored).Ok?
      ensures prefix == if ok && stored != [] then Some(LoadAll(stored).value) else old(prefix)
    {
      hide FromStored;
      if stored == [] { return true; }
      var out := [];
      for i := 0 to |stored|
        invariant LoadAll(stored[..i]) == Ok(out)
      {
        assert stored[..i + 1][..i] == stored[..i];
        var r := FromStored(stored[i]);
        if r.Err? {
          LoadStops(stored, i + 1);
          return false;
        }
        out := out + [r.value];
      }
      assert stored[..|stored|] == stored;
      prefix := Some(out);
      ok := true;
    }
  }

  lemma {:induction false} StoreStops(rs: seq<Record>, n: nat)
    requires n <= |rs| && StoreAll(rs[..n]).Err?
    ensures StoreAll(rs) == StoreAll(rs[..n])
    decreases |rs|
  {
    hide ToStored;
    if n == |rs| {
      assert rs[..n] == rs;
    } else {
      assert rs[..|rs| - 1][..n] == rs[..n];
      StoreStops(rs[..|rs| - 1], n);
    }
  }

  lemma {:induction false} LoadStops(ps: seq<Stored>, n: nat)
    requires n <= |ps| && LoadAll(ps[..n]).Err?
    ensures LoadAll(ps) == LoadAll(ps[..n])
    decreases |ps|
  {
    hide FromStored;
    if n == |ps| {
      assert ps[..n] == ps;
    } else {
      assert ps[..|ps| - 1][..n] == ps[..n];
      LoadStops(ps[..|ps| - 1], n);
    }
  }

  /** A chapter's prefix goes to storage and comes back: the metadata around it is
      untouched, and so is the identity of every record. */
  method StoreAndLoad(meta: ChapterMeta) returns (ok: bool)
    requires meta.prefix.Some? && Storable(meta.prefix.value)
    modifies meta
    ensures ok && meta.fields == old(meta.fields)
    ensures if old(meta.prefix.value) == [] then meta.prefix == None
            else meta.prefix.Some? && |meta.prefix.value| == |old(meta.prefix.value)|
                 && forall i :: 0 <= i < |meta.prefix.value| ==>
                      Identity(meta.prefix.value[i]) == Identity(old(meta.prefix.value)[i])
  {
    hide ToStored, FromStored, Returned, Shaped, AttemptsFit;
    PrefixSurvives(meta.prefix.value);
    var stored := meta.Extract();
    ok := meta.Restore(stored.value);
  }
}

/** Client payload updates: JSON merge patch (section 2 of RFC 7396) under a
    size limit, a nesting limit and optimistic revisions. */
module ClientPayload {
  import opened Text
  import opened JsonText

  const MAX_BYTES := 65536
  const MAX_DEPTH := 128
  const MAX_REVISION := 0x7FFF_FFFF_FFFF_FFFF

  // ---- merge patch ----------------------------------------------------------------

  /** What merging means, member by member: a null deletes, any other member is
      merged into the old one, members the patch does not name stay. */
  function Merge(target: Json, patch: Json): Json
    decreases patch
  {
    if !patch.Object? then patch
    else
      var prior := if target.Object? then target.fields else map[];
      Object(map k | k in prior.Keys + patch.fields.Keys && (k in patch.fields ==> !patch.fields[k].Null?) ::
        if k in patch.fields then Merge(Get(prior, k), patch.fields[k]) else prior[k])
  }

  /** Reading a Go map: nil, which is null, when the key is missing. */
  function Get(m: map<string, Json>, k: string): Json {
    if k in m then m[k] else Null
  }

  /** `merge`: it walks the patch in whatever order the map yields, changing the
      target as it goes. */
  method MergeInPlace(target: Json, patch: Json) returns (out: Json)
    ensures out == Merge(target, patch)
    decreases patch
  {
    if !patch.Object? { return patch; }
    var dst: map<string, Json> := if target.Object? then target.fields else map[];
    ghost var prior := dst;
    var left := patch.fields.Keys;
    while left != {}
      invariant left <= patch.fields.Keys
      invariant forall k :: k in left || k !in patch.fields ==>
                  (k in dst <==> k in prior) && Get(dst, k) == Get(prior, k)
      invariant forall k :: k in patch.fields && k !in left ==>
                  (k in dst <==> !patch.fields[k].Null?)
                      && (k in dst ==> dst[k] == Merge(Get(prior, k), patch.fields[k]))
      decreases left
    {
      var k :| k in left;
      if patch.fields[k].Null? {
        dst := dst - {k};
      } else {
        var merged := MergeInPlace(Get(dst, k), patch.fields[k]);
        dst := dst[k := merged];
      }
      left := left - {k};
    }
    out := Object(dst);
    assert Merge(target, patch).fields == dst;
  }

  /** Applying the same patch again changes nothing. */
  lemma {:induction false} MergeIdempotent(target: Json, patch: Json)
    ensures Merge(Merge(target, patch), patch) == Merge(target, patch)
    decreases patch
  {
    if patch.Object? {
      var once := Merge(target, patch);
      forall k | k in patch.fields && !patch.fields[k].Null?
        ensures k in once.fields && Merge(once.fields[k], patch.fields[k]) == once.fields[k]
      {
        var prior := if target.Object? then target.fields else map[];
        MergeIdempotent(Get(prior, k), patch.fields[k]);
      }
      assert Merge(once, patch).fields == once.fields;
    }
  }

  // ---- the effect of a patch at every path -----------------------------------------------

  /** The value at the end of a path of object members. */
  function Lookup(v: Json, path: seq<string>): Option<Json>
    decreases |path|
  {
    if path == [] then Some(v)
    else if v.Object? && path[0] in v.fields then Lookup(v.fields[path[0]], path[1..])
    else None
  }

  /** The first point along `path` where the patch stops being an object that
      names the next member. */
  datatype Effect = Keeps | Deletes | Replaces(value: Json, rest: seq<string>) | Opens

  function EffectAt(patch: Json, path: seq<string>): Effect
    decreases |path|
  {
    if !patch.Object? then Replaces(patch, path)
    else if path == [] then Opens
    else if path[0] !in patch.fields then Keeps
    else if patch.fields[path[0]].Null? then Deletes
    else EffectAt(patch.fields[path[0]], path[1..])
  }

  /** Every path of the result: unnamed paths keep their value, nulls delete,
      other leaves of the patch replace, and a path at which the patch is itself
      an object holds the merge of the two. */
  lemma {:induction false} MergeAtEveryPath(target: Json, patch: Json, path: seq<string>)
    ensures match EffectAt(patch, path)
      case Keeps => Lookup(Merge(target, patch), path) == Lookup(target, path)
      case Deletes => Lookup(Merge(target, patch), path) == None
      case Replaces(v, rest) => Lookup(Merge(target, patch), path) == Lookup(v, rest)
      case Opens => Lookup(patch, path).Some? && Lookup(Merge(target, patch), path)
                    == Some(Merge(if Lookup(target, path).Some? then Lookup(target, path).value else Null,
                                  Lookup(patch, path).value))
    decreases |path|
  {
    if patch.Object? && path != [] && path[0] in patch.fields && !patch.fields[path[0]].Null? {
      var prior := if target.Object? then target.fields else map[];
      MergeAtEveryPath(Get(prior, path[0]), patch.fields[path[0]], path[1..]);
      LookupNull(path[1..]);
    }
  }

  lemma {:induction false} LookupNull(path: seq<string>)
    ensures Lookup(Null, path) == if path == [] then Some(Null) else None
  {
  }

  /** No member along the objects of `v` is null. */
  predicate Clean(v: Json) {
    v.Object? ==> forall k :: k in v.fields ==> !v.fields[k].Null? && Clean(v.fields[k])
  }

  /** A deletion marker never becomes state. */
  lemma {:induction false} MergeStaysClean(target: Json, patch: Json)
    requires Clean(target)
    ensures Clean(Merge(target, patch)) && (Merge(target, patch).Null? <==> patch.Null?)
    decreases patch
  {
    if patch.Object? {
      var prior := if target.Object? then target.fields else map[];
      forall k | k in patch.fields && !patch.fields[k].Null?
        ensures Clean(Merge(Get(prior, k), patch.fields[k])) && !Merge(Get(prior, k), patch.fields[k]).Null?
      {
        MergeStaysClean(Get(prior, k), patch.fields[k]);
      }
    }
  }

  // ---- limits -------------------------------------------------------------------------------

  /** The nesting `readValue` accepts from a given depth on. */
  predicate NestingOk(v: Json, depth: nat)
    decreases v
  {
    match v
    case Array(items) => depth < MAX_DEPTH && forall i :: 0 <= i < |items| ==> NestingOk(items[i], depth + 1)
    case Object(f) => depth < MAX_DEPTH && forall k :: k in f ==> NestingOk(f[k], depth + 1)
    case _ => true
  }

  /** Merging nests no deeper than target or patch do. */
  lemma {:induction false} MergeNesting(target: Json, patch: Json, depth: nat)
    requires NestingOk(target, depth) && NestingOk(patch, depth)
    ensures NestingOk(Merge(target, patch), depth)
    decreases patch
  {
    if patch.Object? {
      var prior := if target.Object? then target.fields else map[];
      forall k | k in patch.fields && !patch.fields[k].Null?
        ensures NestingOk(Merge(Get(prior, k), patch.fields[k]), depth + 1)
      {
        MergeNesting(Get(prior, k), patch.fields[k], depth + 1);
      }
    }
  }

  /** A raw message: its length and, when it is one valid JSON value, that value. */
  datatype Raw = Raw(size: nat, value: Option<Json>)

  function Parse(raw: Raw): Outcome<Json> {
    if raw.size > MAX_BYTES then Err("client payload exceeds size limit")
    else if raw.value.None? || !NestingOk(raw.value.value, 0) then Err("invalid client payload")
    else Ok(raw.value.value)
  }

  datatype Mode = Patch | Reset | OtherMode

  datatype Update = Update(mode: Mode, value: Option<Raw>, expected: Option<int>)

  function ValidateUpdate(u: Update, initial: bool): Option<string> {
    if initial && u.expected.Some? then Some("submit cannot specify expected revision")
    else if !initial && (u.expected.None? || u.expected.value < 0) then Some("expected revision is required")
    else if u.mode.OtherMode? then Some("mode must be patch or reset")
    else if u.mode.Patch? && u.value.None? then Some("patch value required")
    else if u.value.Some? && Parse(u.value.value).Err? then Some(Parse(u.value.value).reason)
    else None
  }

  /** `json.Marshal`: some text for the value; only its length is left open. */
  ghost predicate Marshals(marshal: Json -> Raw) {
    forall v :: marshal(v).value == Some(v)
  }

  function ApplyValue(marshal: Json -> Raw, current: Option<Raw>, u: Update): Outcome<Option<Raw>> {
    if u.mode.Reset? then Ok(u.value)
    else if u.value.None? then Err("invalid client payload")
    else
      match Parse(u.value.value)
      case Err(e) => Err(e)
      case Ok(patch) =>
        var target := if current.None? then Ok(Null) else Parse(current.value);
        match target
        case Err(e) => Err(e)
        case Ok(t) =>
          var out := marshal(Merge(t, patch));
          match Parse(out)
          case Err(e) => Err(e)
          case Ok(_) => Ok(Some(out))
  }

  datatype State = State(value: Option<Raw>, revision: int)

  function Apply(marshal: Json -> Raw, s: State, update: Option<Update>): Outcome<State> {
    match update
    case None => Ok(s)
    case Some(u) =>
      if ValidateUpdate(u, false).Some? then Err(ValidateUpdate(u, false).value)
      else if s.revision != u.expected.value then Err("workflow state conflict")
      else if s.revision == MAX_REVISION then Err("revision exhausted")
      else
        match ApplyValue(marshal, s.value, u)
        case Err(e) => Err(e)
        case Ok(v) => Ok(State(v, s.revision + 1))
  }

  /** Stored state: nothing, or a message that parses. */
  predicate Stored(s: State) {
    0 <= s.revision <= MAX_REVISION && (s.value.Some? ==> Parse(s.value.value).Ok?)
  }

  /** What a patch holds on to: the value it is merged into. */
  function Payload(s: State): Json {
    if s.value.Some? && s.value.value.value.Some? then s.value.value.value.value else Null
  }

  /** A valid patch at the right revision can fail for one reason only, the size
      of the merged text: the nesting check of the re-parse never fires. */
  lemma {:induction false} PatchFailsOnlyOnSize(marshal: Json -> Raw, s: State, u: Update)
    requires Marshals(marshal) && Stored(s) && u.mode.Patch? && ValidateUpdate(u, false).None?
    requires u.expected == Some(s.revision) && s.revision < MAX_REVISION
    ensures var merged := Merge(Payload(s), u.value.value.value.value);
            if marshal(merged).size <= MAX_BYTES
            then Apply(marshal, s, Some(u)) == Ok(State(Some(marshal(merged)), s.revision + 1))
            else Apply(marshal, s, Some(u)) == Err("client payload exceeds size limit")
  {
    var patch := u.value.value.value.value;
    var merged := Merge(Payload(s), patch);
    MergeNesting(Payload(s), patch, 0);
    assert marshal(merged).value == Some(merged);
  }

  /** Every update that is accepted leaves state that can be read back. */
  lemma {:induction false} ApplyKeepsStored(marshal: Json -> Raw, s: State, update: Option<Update>)
    requires Stored(s)
    ensures Apply(marshal, s, update).Ok? ==> Stored(Apply(marshal, s, update).value)
  {
  }

  // ---- any sequence of writers ------------------------------------------------------------

  /** Calls in order; a rejected call leaves the state alone. */
  function Serve(marshal: Json -> Raw, s: State, calls: seq<Update>): State
    decreases |calls|
  {
    if calls == [] then s
    else
      match Apply(marshal, s, Some(calls[0]))
      case Ok(t) => Serve(marshal, t, calls[1..])
      case Err(_) => Serve(marshal, s, calls[1..])
  }

  /** The calls that took effect. */
  function Accepted(marshal: Json -> Raw, s: State, calls: seq<Update>): seq<Update>
    decreases |calls|
  {
    if calls == [] then []
    else
      match Apply(marshal, s, Some(calls[0]))
      case Ok(t) => [calls[0]] + Accepted(marshal, t, calls[1..])
      case Err(_) => Accepted(marshal, s, calls[1..])
  }

  /** No lost updates: whatever the writers send, the accepted calls expected
      exactly the revisions s, s+1, s+2, ... in that order, and those calls alone,
      each applied to what the one before it wrote, give the same state, with none
      of them rejected. */
  lemma {:induction false} AcceptedInRevisionOrder(marshal: Json -> Raw, s: State, calls: seq<Update>)
    requires Stored(s)
    ensures Stored(Serve(marshal, s, calls))
    ensures Serve(marshal, s, calls).revision == s.revision + |Accepted(marshal, s, calls)|
    ensures forall i :: 0 <= i < |Accepted(marshal, s, calls)| ==>
              Accepted(marshal, s, calls)[i].expected == Some(s.revision + i)
    ensures Serve(marshal, s, Accepted(marshal, s, calls)) == Serve(marshal, s, calls)
    ensures Accepted(marshal, s, Accepted(marshal, s, calls)) == Accepted(marshal, s, calls)
    decreases |calls|
  {
    if calls != [] {
      match Apply(marshal, s, Some(calls[0]))
      case Err(_) => AcceptedInRevisionOrder(marshal, s, calls[1..]);
      case Ok(t) =>
        ApplyKeepsStored(marshal, s, Some(calls[0]));
        AcceptedInRevisionOrder(marshal, t, calls[1..]);
        var accepted := Accepted(marshal, s, calls);
        assert accepted[0] == calls[0] && accepted[1..] == Accepted(marshal, t, calls[1..]);
    }
  }
}

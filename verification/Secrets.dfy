/** The per-attempt secret cache: values and known omissions by name, replaced only
    as a whole and only by a call that succeeds. */
module Secrets {
  import opened Text
  import opened Records

  datatype Secret = Secret(value: string, expiresAt: Option<Time>)

  predicate Expired(s: Secret, now: Time) { s.expiresAt.Some? && s.expiresAt.value <= now }

  /** None is a known omission. */
  type Cache = map<string, Option<Secret>>

  type Found = map<string, Secret>

  /** What the provider answers to the set of names it is asked for. */
  type Provider = set<string> -> Outcome<Found>

  /** What else a call meets: a cancelled context, and the clock when fetched
      entries and when results are checked. */
  datatype Moment = Moment(cancelled: bool, fetchedAt: Time, returnedAt: Time)

  predicate ValidNames(names: seq<string>) {
    && names != [] && (forall i :: 0 <= i < |names| ==> names[i] != "")
    && (forall i, j :: 0 <= i < j < |names| ==> names[i] != names[j])
  }

  function NameSet(names: seq<string>): set<string> { set n | n in names }

  function Missing(c: Cache, names: seq<string>, again: bool): set<string> { set n | n in names && (again || n !in c) }

  /** An ordinary read that misses refreshes everything available along with what
      it misses; a fresh one asks for its own names only. */
  function Lookup(c: Cache, names: seq<string>, again: bool): set<string> {
    Missing(c, names, again) + if again then {} else set n | n in c && c[n].Some?
  }

  function Entry(found: Found, n: string): Option<Secret> { if n in found then Some(found[n]) else None }

  function Refreshed(c: Cache, asked: set<string>, found: Found): Cache {
    map n | n in c.Keys + asked :: if n in asked then Entry(found, n) else c[n]
  }

  datatype Resolved = Resolved(cache: Cache, result: Outcome<Found>)

  function Failed(c: Cache, why: string): Resolved { Resolved(c, Err(why)) }

  predicate AnyExpired(c: Cache, names: set<string>, now: Time) {
    exists n :: n in names && n in c && c[n].Some? && Expired(c[n].value, now)
  }

  function Answer(c: Cache, names: seq<string>): Found {
    map n | n in names && n in c && c[n].Some? :: c[n].value
  }

  /** The cache a call would publish. */
  function NextCache(c: Cache, names: seq<string>, again: bool, ask: Provider, fetchedAt: Time): Outcome<Cache> {
    if Missing(c, names, again) == {} then Ok(c)
    else
      var asked := Lookup(c, names, again);
      match ask(asked)
      case Err(e) => Err(e)
      case Ok(found) =>
        var next := Refreshed(c, asked, found);
        if AnyExpired(next, asked, fetchedAt) then Err("secrets unavailable") else Ok(next)
  }

  /** `resolveSecrets`. */
  function Resolve(c: Cache, names: seq<string>, again: bool, ask: Provider, m: Moment): Resolved {
    if !ValidNames(names) then Failed(c, "invalid secret request")
    else
      match NextCache(c, names, again, ask, m.fetchedAt)
      case Err(e) => Failed(c, e)
      case Ok(next) =>
        if m.cancelled || AnyExpired(next, NameSet(names), m.returnedAt) then Failed(c, "secrets unavailable")
        else Resolved(next, Ok(Answer(next, names)))
  }

  // ---- one call -----------------------------------------------------------------------------

  /** A call either fails and changes nothing, or publishes a cache that knows every
      requested name, and returns that cache cut down to the request, with nothing
      expired. */
  lemma {:induction false} AllOrNothing(c: Cache, names: seq<string>, again: bool, ask: Provider, m: Moment)
    ensures var r := Resolve(c, names, again, ask, m);
            && (r.result.Err? ==> r.cache == c)
            && (r.result.Ok? ==>
                  && ValidNames(names) && (forall n :: n in names ==> n in r.cache) && c.Keys <= r.cache.Keys
                  && (forall n :: n in r.result.value <==> n in names && r.cache[n].Some?)
                  && (forall n :: n in r.result.value ==>
                        r.cache[n] == Some(r.result.value[n]) && !Expired(r.result.value[n], m.returnedAt)))
  {
    var r := Resolve(c, names, again, ask, m);
    if r.result.Ok? {
      var all := NameSet(names);
      forall n | n in names ensures n in r.cache { assert n !in c ==> n in Missing(c, names, again); }
      forall n | n in r.result.value ensures !Expired(r.result.value[n], m.returnedAt) { assert n in all; }
    }
  }

  /** An ordinary read that had to ask keeps every known omission, and takes every
      available entry, old or new, from the one answer it got. */
  lemma {:induction false} ExpandingReadIsCoherent(c: Cache, names: seq<string>, ask: Provider, m: Moment)
    requires Resolve(c, names, false, ask, m).result.Ok? && exists n :: n in names && n !in c
    ensures var r, asked := Resolve(c, names, false, ask, m), Lookup(c, names, false);
            && ask(asked).Ok?
            && (forall n :: n in c && c[n].None? ==> n in r.cache && r.cache[n].None?)
            && (forall n :: n in r.cache && r.cache[n].Some? ==> n in asked && Entry(ask(asked).value, n) == r.cache[n])
            && (forall n :: n in asked ==> n in r.cache && r.cache[n] == Entry(ask(asked).value, n))
            && r.cache.Keys == c.Keys + NameSet(names)
  {
    hide AnyExpired;
    var n :| n in names && n !in c;
    assert n in Missing(c, names, false);
  }

  /** A read of known names changes nothing, and no provider has a say in it: the
      whole result is the same whoever would have been asked. */
  lemma {:induction false} KnownNamesAreServedFromCache(c: Cache, names: seq<string>, ask: Provider,
                                                        other: Provider, m: Moment)
    requires forall n :: n in names ==> n in c
    ensures Resolve(c, names, false, ask, m).cache == c
    ensures Resolve(c, names, false, ask, m) == Resolve(c, names, false, other, m)
  {
    assert Missing(c, names, false) == {};
  }

  /** A fresh read changes the requested names only, omissions included. */
  lemma {:induction false} FreshReadIsLocal(c: Cache, names: seq<string>, ask: Provider, m: Moment)
    requires Resolve(c, names, true, ask, m).result.Ok?
    ensures var r, asked := Resolve(c, names, true, ask, m), NameSet(names);
            && ask(asked).Ok?
            && (forall n :: n !in names ==> (n in r.cache <==> n in c) && (n in c ==> r.cache[n] == c[n]))
            && (forall n :: n in names ==> n in r.cache && r.cache[n] == Entry(ask(asked).value, n))
  {
    hide AnyExpired;
    assert Missing(c, names, true) == NameSet(names);
    assert Lookup(c, names, true) == NameSet(names);
    assert names[0] in Missing(c, names, true);
  }

  // ---- every sequence of calls ------------------------------------------------------------------

  datatype Call = Call(names: seq<string>, again: bool, ask: Provider, moment: Moment)

  function CallAll(c: Cache, calls: seq<Call>): Cache
    decreases |calls|
  {
    if calls == [] then c
    else CallAll(Resolve(c, calls[0].names, calls[0].again, calls[0].ask, calls[0].moment).cache, calls[1..])
  }

  /** Names once known stay known; an omission once known stays one until a fresh
      read asks for that very name. */
  lemma {:induction false} OmissionsStay(c: Cache, calls: seq<Call>, n: string)
    requires n in c
    ensures n in CallAll(c, calls)
    ensures c[n].None? && (forall i :: 0 <= i < |calls| && calls[i].again ==> n !in calls[i].names) ==>
              CallAll(c, calls)[n].None?
    decreases |calls|
  {
    hide Resolve;
    if calls != [] {
      var k := calls[0];
      var c1 := Resolve(c, k.names, k.again, k.ask, k.moment).cache;
      OneCallKeeps(c, k, n);
      OmissionsStay(c1, calls[1..], n);
      assert forall i :: 0 <= i < |calls| - 1 ==> calls[1..][i] == calls[i + 1];
    }
  }

  lemma {:induction false} OneCallKeeps(c: Cache, k: Call, n: string)
    requires n in c
    ensures var c1 := Resolve(c, k.names, k.again, k.ask, k.moment).cache;
            n in c1 && (c[n].None? && !(k.again && n in k.names) ==> c1[n].None?)
  {
    hide AnyExpired;
  }

  /** Every available entry was in an answer to a request that named it. */
  ghost predicate Traced(c: Cache, calls: seq<Call>) {
    forall n :: n in c && c[n].Some? ==> exists i, asked :: Answered(calls, i, asked, n, c[n].value)
  }

  ghost predicate Answered(calls: seq<Call>, i: int, asked: set<string>, n: string, s: Secret) {
    && 0 <= i < |calls| && n in asked && calls[i].ask(asked).Ok?
    && n in calls[i].ask(asked).value && calls[i].ask(asked).value[n] == s
  }

  lemma {:induction false} EntriesAreTraced(calls: seq<Call>)
    ensures Traced(CacheAfter(calls), calls)
  {
    hide Resolve;
    if calls != [] {
      var m := |calls| - 1;
      EntriesAreTraced(calls[..m]);
      var c, c1 := CacheAfter(calls[..m]), CacheAfter(calls);
      forall n | n in c1 && c1[n].Some? ensures exists i, asked :: Answered(calls, i, asked, n, c1[n].value) {
        NewEntry(c, calls[m], n);
        if n in c && c[n] == c1[n] {
          var i, asked :| Answered(calls[..m], i, asked, n, c[n].value);
          assert Answered(calls, i, asked, n, c1[n].value);
        } else {
          assert Answered(calls, m, Lookup(c, calls[m].names, calls[m].again), n, c1[n].value);
        }
      }
    }
  }

  /** The cache of an attempt after its calls, starting empty. */
  function CacheAfter(calls: seq<Call>): Cache {
    if calls == [] then map[]
    else
      var k := calls[|calls| - 1];
      Resolve(CacheAfter(calls[..|calls| - 1]), k.names, k.again, k.ask, k.moment).cache
  }

  lemma {:induction false} NewEntry(c: Cache, k: Call, n: string)
    ensures var c1, asked := Resolve(c, k.names, k.again, k.ask, k.moment).cache, Lookup(c, k.names, k.again);
            n in c1 && c1[n].Some? && !(n in c && c[n] == c1[n]) ==>
              n in asked && k.ask(asked).Ok? && n in k.ask(asked).value && k.ask(asked).value[n] == c1[n].value
  {
    hide AnyExpired;
  }

  // ---- the cache object ---------------------------------------------------------------------------

  class AttemptCache {
    var value: Cache

    constructor ()
      ensures value == map[]
    {
      value := map[];
    }

    /** The names of a request that must be asked for. */
    method CheckNames(names: seq<string>, again: bool) returns (ok: bool, missing: set<string>)
      ensures ok == ValidNames(names)
      ensures ok ==> missing == Missing(value, names, again)
    {
      var seen: set<string> := {};
      missing := {};
      if names == [] { return false, missing; }
      for i := 0 to |names|
        invariant seen == set k | 0 <= k < i :: names[k]
        invariant missing == set k | 0 <= k < i && (again || names[k] !in value) :: names[k]
        invariant forall k :: 0 <= k < i ==> names[k] != ""
        invariant forall j, k :: 0 <= j < k < i ==> names[j] != names[k]
      {
        if names[i] == "" || names[i] in seen { return false, missing; }
        seen := seen + {names[i]};
        if again || names[i] !in value { missing := missing + {names[i]}; }
      }
      ok := true;
    }

    /** The next cache from one answer. */
    method TakeAnswer(asked: set<string>, found: Found, now: Time) returns (next: Outcome<Cache>)
      ensures var n := Refreshed(value, asked, found);
              next == if AnyExpired(n, asked, now) then Err("secrets unavailable") else Ok(n)
    {
      ghost var spec := Refreshed(value, asked, found);
      var building := value;
      var todo := asked;
      while todo != {}
        invariant todo <= asked
        invariant building.Keys == value.Keys + (asked - todo)
        invariant forall n :: n in building ==> building[n] == if n in asked - todo then Entry(found, n) else value[n]
        invariant forall n :: n in asked - todo && n in found ==> !Expired(found[n], now)
      {
        var n :| n in todo;
        todo := todo - {n};
        if n in found {
          if Expired(found[n], now) {
            assert spec[n] == Some(found[n]);
            return Err("secrets unavailable");
          }
          building := building[n := Some(found[n])];
        } else {
          building := building[n := None];
        }
      }
      assert building == spec;
      next := Ok(building);
    }

    /** The request's share of a cache. */
    method CollectResult(c: Cache, names: seq<string>, now: Time) returns (result: Outcome<Found>)
      ensures result == if AnyExpired(c, NameSet(names), now) then Err("secrets unavailable") else Ok(Answer(c, names))
    {
      var found: Found := map[];
      for i := 0 to |names|
        invariant found == map n | n in names[..i] && n in c && c[n].Some? :: c[n].value
        invariant forall k :: 0 <= k < i && names[k] in c && c[names[k]].Some? ==> !Expired(c[names[k]].value, now)
      {
        assert names[..i + 1] == names[..i] + [names[i]];
        if names[i] in c && c[names[i]].Some? {
          if Expired(c[names[i]].value, now) {
            assert names[i] in NameSet(names);
            return Err("secrets unavailable");
          }
          found := found[names[i] := c[names[i]].value];
        }
      }
      assert names[..|names|] == names;
      result := Ok(found);
    }

    /** `resolveSecrets`, under the attempt's gate. */
    method ResolveSecrets(names: seq<string>, again: bool, ask: Provider, m: Moment) returns (result: Outcome<Found>)
      modifies this
      ensures Resolved(value, result) == Resolve(old(value), names, again, ask, m)
    {
      hide ValidNames, AnyExpired, Refreshed, Answer;
      var ok, missing := CheckNames(names, again);
      if !ok { return Err("invalid secret request"); }
      var next := value;
      if missing != {} {
        var asked := missing + if again then {} else set n | n in value && value[n].Some?;
        var fetched := ask(asked);
        if fetched.Err? { return Err(fetched.reason); }
        var taken := TakeAnswer(asked, fetched.value, m.fetchedAt);
        if taken.Err? { return Err(taken.reason); }
        next := taken.value;
      }
      if m.cancelled { return Err("secrets unavailable"); }
      result := CollectResult(next, names, m.returnedAt);
      if result.Ok? { value := next; }
    }
  }
}

/** The canonical text that payload digests are taken of. */
module Canonical {
  import opened Text
  import opened JsonText
  import D = Decimal

  // ---- keys in byte order ------------------------------------------------------

  /** `sort.Strings` order: by code point, which is UTF-8 byte order. */
  predicate Less(a: string, b: string) {
    b != [] && (a == [] || a[0] < b[0] || (a[0] == b[0] && Less(a[1..], b[1..])))
  }

  lemma {:induction false} LessTotal(a: string, b: string)
    ensures Less(a, b) || Less(b, a) || a == b
  {
    if a != [] && b != [] && a[0] == b[0] {
      LessTotal(a[1..], b[1..]);
      assert a == [a[0]] + a[1..] && b == [b[0]] + b[1..];
    }
  }

  lemma {:induction false} LessTransitive(a: string, b: string, c: string)
    requires Less(a, b) && Less(b, c)
    ensures Less(a, c)
  {
    if a != [] && a[0] == b[0] == c[0] { LessTransitive(a[1..], b[1..], c[1..]); }
  }

  lemma {:induction false} LessIrreflexive(a: string)
    ensures !Less(a, a)
  {
    if a != [] { LessIrreflexive(a[1..]); }
  }

  ghost predicate Ascending(keys: seq<string>) {
    forall i, j :: 0 <= i < j < |keys| ==> Less(keys[i], keys[j])
  }

  ghost predicate Enumerates(keys: seq<string>, s: set<string>) {
    Ascending(keys) && (forall k :: k in keys <==> k in s)
  }

  ghost predicate Least(k: string, s: set<string>) {
    k in s && forall j :: j in s && j != k ==> Less(k, j)
  }

  lemma {:induction false} LeastExists(s: set<string>)
    requires s != {}
    ensures exists k :: Least(k, s)
  {
    hide Less;
    var x :| x in s;
    var rest := s - {x};
    assert forall j :: j in s ==> j in rest || j == x;
    if rest == {} {
      assert Least(x, s);
    } else {
      LeastExists(rest);
      var y :| Least(y, rest);
      LessTotal(x, y);
      if Less(x, y) {
        forall j | j in s && j != x ensures Less(x, j) {
          if j != y { LessTransitive(x, y, j); }
        }
        assert Least(x, s);
      } else {
        assert Least(y, s);
      }
    }
  }

  /** The keys of an object, smallest first. */
  ghost function SortedKeys(s: set<string>): (keys: seq<string>)
    ensures Enumerates(keys, s)
  {
    if s == {} then []
    else
      LeastExists(s);
      var k :| Least(k, s);
      var rest := SortedKeys(s - {k});
      assert forall j :: j in [k] + rest <==> j == k || j in rest;
      [k] + rest
  }

  /** A set has one ascending enumeration. */
  lemma {:induction false} EnumerationUnique(a: seq<string>, b: seq<string>, s: set<string>)
    requires Enumerates(a, s) && Enumerates(b, s)
    ensures a == b
  {
    hide Less;
    assert (a != [] ==> a[0] in s) && (b != [] ==> b[0] in s);
    if a != [] && b != [] {
      HeadIsLeast(a, s);
      HeadIsLeast(b, s);
      LessTotal(a[0], b[0]);
      if Less(a[0], b[0]) && Less(b[0], a[0]) {
        LessTransitive(a[0], b[0], a[0]);
        LessIrreflexive(a[0]);
      }
      TailEnumerates(a, s);
      TailEnumerates(b, s);
      EnumerationUnique(a[1..], b[1..], s - {a[0]});
      assert a == [a[0]] + a[1..] && b == [b[0]] + b[1..];
    }
  }

  lemma {:induction false} HeadIsLeast(a: seq<string>, s: set<string>)
    requires a != [] && Enumerates(a, s)
    ensures Least(a[0], s)
  {
    hide Less;
    assert a[0] in s;
  }

  lemma {:induction false} TailEnumerates(a: seq<string>, s: set<string>)
    requires a != [] && Enumerates(a, s)
    ensures Enumerates(a[1..], s - {a[0]})
  {
    hide Less;
    LessIrreflexive(a[0]);
    assert forall k :: k in a ==> k == a[0] || k in a[1..];
  }

  // ---- canonical text ------------------------------------------------------------

  ghost function Canonical(v: Json): string
    decreases v, 1, 0
  {
    match v
    case Null => "null"
    case Bool(b) => if b then "true" else "false"
    case Str(s) => Quote(s)
    case Number(text) => D.NormalNumber(text)
    case Array(_) => "[" + ItemsFrom(v, 0)
    case Object(f) => "{" + MembersFrom(v, SortedKeys(f.Keys), 0)
  }

  /** Items `i` and later of an array, and its closing bracket. */
  ghost function ItemsFrom(v: Json, i: nat): string
    requires v.Array? && i <= |v.items|
    decreases v, 0, |v.items| - i
  {
    if i == |v.items| then "]"
    else (if i > 0 then "," else "") + (Canonical(v.items[i]) + ItemsFrom(v, i + 1))
  }

  /** Members `i` and later of an object, and its closing brace. */
  ghost function MembersFrom(v: Json, keys: seq<string>, i: nat): string
    requires v.Object? && i <= |keys| && forall k :: k in keys ==> k in v.fields
    decreases v, 0, |keys| - i
  {
    if i == |keys| then "}"
    else
      (if i > 0 then "," else "")
      + (Quote(keys[i]) + (":" + (Canonical(v.fields[keys[i]]) + MembersFrom(v, keys, i + 1))))
  }

  // ---- what the text must not distinguish -------------------------------------------

  ghost predicate IsNumber(text: string) {
    exists l :: D.Valid(l) && D.Render(l) == text
  }

  /** Two number texts that denote the same rational. */
  ghost predicate SameNumber(s: string, t: string) {
    exists a, b :: D.Valid(a) && D.Valid(b) && D.Render(a) == s && D.Render(b) == t && D.Value(a) == D.Value(b)
  }

  /** Numbers in the value are JSON numbers, as the decoder guarantees. */
  ghost predicate WellFormed(v: Json) {
    match v
    case Number(text) => IsNumber(text)
    case Array(items) => forall i :: 0 <= i < |items| ==> WellFormed(items[i])
    case Object(f) => forall k :: k in f ==> WellFormed(f[k])
    case _ => true
  }

  /** Equal up to the spelling of numbers (and, as objects are maps, up to the
      order of members). */
  ghost predicate Same(v: Json, w: Json)
    decreases v
  {
    match (v, w)
    case (Number(s), Number(t)) => SameNumber(s, t)
    case (Array(a), Array(b)) => |a| == |b| && forall i :: 0 <= i < |a| ==> Same(a[i], b[i])
    case (Object(f), Object(g)) => f.Keys == g.Keys && forall k :: k in f && k in g ==> Same(f[k], g[k])
    case _ => v == w
  }

  lemma {:induction false} NumberTextDecides(s: string, t: string)
    requires IsNumber(s) && IsNumber(t)
    ensures D.NormalNumber(s) == D.NormalNumber(t) <==> SameNumber(s, t)
  {
    hide D.NormalNumber, D.Value, D.Valid, D.Render;
    if SameNumber(s, t) {
      var a, b :| D.Valid(a) && D.Valid(b) && D.Render(a) == s && D.Render(b) == t && D.Value(a) == D.Value(b);
      D.NormalNumberComplete(a, b);
    } else {
      var a :| D.Valid(a) && D.Render(a) == s;
      var b :| D.Valid(b) && D.Render(b) == t;
      D.NormalNumberComplete(a, b);
    }
  }

  // ---- unique readability --------------------------------------------------------------

  predicate NumberChar(c: char) { IsDigit(c) || c == '-' || c == 'e' }

  lemma {:induction false} NumberShape(text: string)
    requires IsNumber(text)
    ensures D.NormalNumber(text) != []
    ensures IsDigit(D.NormalNumber(text)[0]) || D.NormalNumber(text)[0] == '-'
    ensures forall i :: 0 <= i < |D.NormalNumber(text)| ==> NumberChar(D.NormalNumber(text)[i])
  {
    hide D.NormalNumber, D.Value, D.Valid, D.Render, D.Scaled, ParseNat;
    var l :| D.Valid(l) && D.Render(l) == text;
    D.NormalNumberMeans(l);
    if D.Value(l) != 0.0 {
      var s, k :| D.Bare(s) && D.NormalNumber(text) == D.Normal(l.negative, s, k)
        && D.Value(l) == D.Scaled(l.negative, ParseNat(s), k);
      PrintIntShape(k);
    }
  }

  /** The first character of a canonical text tells the kind of the value. */
  lemma {:induction false} FirstChar(v: Json)
    requires WellFormed(v)
    ensures Canonical(v) != []
    ensures var c := Canonical(v)[0];
            && (v.Null? <==> c == 'n') && (v.Str? <==> c == '"')
            && (v.Bool? <==> c in "tf") && (v.Bool? ==> (v.flag <==> c == 't'))
            && (v.Array? <==> c == '[') && (v.Object? <==> c == '{')
            && (v.Number? <==> IsDigit(c) || c == '-')
            && c !in ",]}"
  {
    hide ItemsFrom, MembersFrom, SortedKeys, D.NormalNumber, Escaped;
    if v.Number? { NumberShape(v.text); }
  }

  /** Text that may follow a value inside another. */
  predicate Stops(s: string) { s == [] || !NumberChar(s[0]) }

  lemma {:induction false} NumbersEnd(x: string, s: string, y: string, t: string)
    requires forall i :: 0 <= i < |x| ==> NumberChar(x[i])
    requires forall i :: 0 <= i < |y| ==> NumberChar(y[i])
    requires Stops(s) && Stops(t) && x + s == y + t
    ensures x == y && s == t
  {
    assert forall i :: 0 <= i < |x| ==> (x + s)[i] == x[i];
    assert forall i :: 0 <= i < |y| ==> (y + t)[i] == y[i];
    assert s != [] ==> (x + s)[|x|] == s[0];
    assert t != [] ==> (y + t)[|y|] == t[0];
    assert |x| == |y|;
    D.SplitEqual(x, s, y, t);
  }

  /** How the rest of an array continues. */
  lemma {:induction false} ItemsUnfold(v: Json, i: nat, s: string)
    requires v.Array? && i <= |v.items|
    ensures var t := ItemsFrom(v, i) + s;
            if i == |v.items| then t != [] && t[0] == ']' && t[1..] == s
            else
              var u := Canonical(v.items[i]) + (ItemsFrom(v, i + 1) + s);
              if i == 0 then t == u else t != [] && t[0] == ',' && t[1..] == u
    ensures i > 0 ==> Stops(ItemsFrom(v, i) + s)
  {
    hide Canonical;
  }

  /** How the rest of an object continues. */
  lemma {:induction false} MembersUnfold(v: Json, keys: seq<string>, i: nat, s: string)
    requires v.Object? && i <= |keys| && forall k :: k in keys ==> k in v.fields
    ensures var t := MembersFrom(v, keys, i) + s;
            if i == |keys| then t != [] && t[0] == '}' && t[1..] == s
            else
              var u := Quote(keys[i]) + (":" + (Canonical(v.fields[keys[i]]) + (MembersFrom(v, keys, i + 1) + s)));
              u[0] == '"' && if i == 0 then t == u else t != [] && t[0] == ',' && t[1..] == u
    ensures i > 0 ==> Stops(MembersFrom(v, keys, i) + s)
  {
    hide Canonical, Escaped;
  }

  /** Two texts that begin with canonical values begin with the same value, up
      to number spelling, and continue alike. */
  lemma {:induction false} Readable(v: Json, s: string, w: Json, t: string)
    requires WellFormed(v) && WellFormed(w) && Stops(s) && Stops(t)
    requires Canonical(v) + s == Canonical(w) + t
    ensures Same(v, w) && s == t
    decreases v, 2, 0
  {
    hide D.NormalNumber, SortedKeys, Escaped, SameNumber, ItemsFrom, MembersFrom;
    FirstChar(v);
    FirstChar(w);
    assert Canonical(v)[0] == (Canonical(v) + s)[0] == (Canonical(w) + t)[0] == Canonical(w)[0];
    match v
    case Null => D.SplitEqual(Canonical(v), s, Canonical(w), t);
    case Bool(_) => D.SplitEqual(Canonical(v), s, Canonical(w), t);
    case Str(a) => QuoteReadable(a, s, w.chars, t);
    case Number(text) =>
      NumberShape(text);
      NumberShape(w.text);
      NumbersEnd(Canonical(v), s, Canonical(w), t);
      NumberTextDecides(text, w.text);
    case Array(_) => ArrayReadable(v, s, w, t);
    case Object(_) => ObjectReadable(v, s, w, t);
  }

  lemma {:induction false} ArrayReadable(v: Json, s: string, w: Json, t: string)
    requires WellFormed(v) && WellFormed(w) && v.Array? && w.Array? && Stops(s) && Stops(t)
    requires Canonical(v) + s == Canonical(w) + t
    ensures Same(v, w) && s == t
    decreases v, 1, 0
  {
    hide ItemsFrom, WellFormed, Stops;
    assert (Canonical(v) + s)[1..] == ItemsFrom(v, 0) + s;
    assert (Canonical(w) + t)[1..] == ItemsFrom(w, 0) + t;
    ItemsReadable(v, s, w, t, 0);
  }

  lemma {:induction false} ObjectReadable(v: Json, s: string, w: Json, t: string)
    requires WellFormed(v) && WellFormed(w) && v.Object? && w.Object? && Stops(s) && Stops(t)
    requires Canonical(v) + s == Canonical(w) + t
    ensures Same(v, w) && s == t
    decreases v, 1, 0
  {
    hide MembersFrom, SortedKeys, WellFormed, Stops;
    var ks, js := SortedKeys(v.fields.Keys), SortedKeys(w.fields.Keys);
    assert (Canonical(v) + s)[1..] == MembersFrom(v, ks, 0) + s;
    assert (Canonical(w) + t)[1..] == MembersFrom(w, js, 0) + t;
    MembersReadable(v, ks, s, w, js, t, 0);
    SameKeys(v.fields.Keys, ks, w.fields.Keys);
  }

  lemma {:induction false} SameKeys(a: set<string>, keys: seq<string>, b: set<string>)
    requires (forall k :: k in keys <==> k in a) && (forall k :: k in keys <==> k in b)
    ensures a == b
  {
  }

  lemma {:induction false} ItemsReadable(v: Json, s: string, w: Json, t: string, i: nat)
    requires WellFormed(v) && WellFormed(w) && v.Array? && w.Array? && i <= |v.items| && i <= |w.items|
    requires Stops(s) && Stops(t) && ItemsFrom(v, i) + s == ItemsFrom(w, i) + t
    ensures |v.items| == |w.items| && s == t
    ensures forall j :: i <= j < |v.items| ==> Same(v.items[j], w.items[j])
    decreases v, 0, |v.items| - i
  {
    hide Canonical, Same, ItemsFrom;
    ItemsUnfold(v, i, s);
    ItemsUnfold(w, i, t);
    if i < |v.items| { FirstChar(v.items[i]); ItemsUnfold(v, i + 1, s); }
    if i < |w.items| { FirstChar(w.items[i]); ItemsUnfold(w, i + 1, t); }
    assert i < |v.items| <==> i < |w.items|;
    if i < |v.items| {
      Readable(v.items[i], ItemsFrom(v, i + 1) + s, w.items[i], ItemsFrom(w, i + 1) + t);
      ItemsReadable(v, s, w, t, i + 1);
    }
  }

  lemma {:induction false} MembersReadable(v: Json, ks: seq<string>, s: string, w: Json, js: seq<string>, t: string,
                                           i: nat)
    requires WellFormed(v) && WellFormed(w) && v.Object? && w.Object? && i <= |ks| && i <= |js|
    requires (forall k :: k in ks ==> k in v.fields) && (forall k :: k in js ==> k in w.fields)
    requires ks[..i] == js[..i]
    requires Stops(s) && Stops(t) && MembersFrom(v, ks, i) + s == MembersFrom(w, js, i) + t
    ensures ks == js && s == t
    ensures forall j :: i <= j < |ks| ==> Same(v.fields[ks[j]], w.fields[ks[j]])
    decreases v, 0, |ks| - i
  {
    hide Canonical, Same, Escaped, Quote, MembersFrom;
    MembersUnfold(v, ks, i, s);
    MembersUnfold(w, js, i, t);
    assert i < |ks| <==> i < |js|;
    if i == |ks| {
      assert ks == ks[..i] && js == js[..i];
    } else {
      var restV, restW := MembersFrom(v, ks, i + 1) + s, MembersFrom(w, js, i + 1) + t;
      var textV, textW := Canonical(v.fields[ks[i]]) + restV, Canonical(w.fields[js[i]]) + restW;
      QuoteReadable(ks[i], ":" + textV, js[i], ":" + textW);
      assert (":" + textV)[1..] == textV && (":" + textW)[1..] == textW;
      MembersUnfold(v, ks, i + 1, s);
      MembersUnfold(w, js, i + 1, t);
      Readable(v.fields[ks[i]], restV, w.fields[js[i]], restW);
      assert ks[..i + 1] == ks[..i] + [ks[i]] && js[..i + 1] == js[..i] + [js[i]];
      MembersReadable(v, ks, s, w, js, t, i + 1);
    }
  }

  // ---- and conversely -----------------------------------------------------------------------

  lemma {:induction false} SameText(v: Json, w: Json)
    requires WellFormed(v) && WellFormed(w) && Same(v, w)
    ensures Canonical(v) == Canonical(w)
    decreases v, 1, 0
  {
    hide D.NormalNumber, SortedKeys, Escaped, SameNumber;
    match v
    case Number(s) => NumberTextDecides(s, w.text);
    case Array(_) => SameItems(v, w, 0);
    case Object(f) => SameMembers(v, w, SortedKeys(f.Keys), 0);
    case _ =>
  }

  lemma {:induction false} SameItems(v: Json, w: Json, i: nat)
    requires v.Array? && w.Array? && WellFormed(v) && WellFormed(w) && Same(v, w) && i <= |v.items|
    ensures ItemsFrom(v, i) == ItemsFrom(w, i)
    decreases v, 0, |v.items| - i
  {
    if i < |v.items| {
      SameText(v.items[i], w.items[i]);
      SameItems(v, w, i + 1);
    }
  }

  lemma {:induction false} SameMembers(v: Json, w: Json, keys: seq<string>, i: nat)
    requires v.Object? && w.Object? && WellFormed(v) && WellFormed(w) && Same(v, w) && i <= |keys|
    requires forall k :: k in keys ==> k in v.fields && k in w.fields
    ensures MembersFrom(v, keys, i) == MembersFrom(w, keys, i)
    decreases v, 0, |keys| - i
  {
    if i < |keys| {
      SameText(v.fields[keys[i]], w.fields[keys[i]]);
      SameMembers(v, w, keys, i + 1);
    }
  }

  /** Canonical text is faithful: it identifies a payload up to member order and
      the spelling of numbers, and identifies nothing more. */
  lemma {:induction false} CanonicalFaithful(v: Json, w: Json)
    requires WellFormed(v) && WellFormed(w)
    ensures Canonical(v) == Canonical(w) <==> Same(v, w)
  {
    if Canonical(v) == Canonical(w) {
      assert Canonical(v) + "" == Canonical(w) + "";
      Readable(v, "", w, "");
    }
    if Same(v, w) { SameText(v, w); }
  }

  /** What the digest hashes; an absent payload hashes the word `absent`. */
  ghost function DigestInput(payload: Option<Json>): string {
    if payload.None? then "absent" else Canonical(payload.value)
  }

  /** Absence is not null, nor any other payload. */
  lemma {:induction false} DigestFaithful(a: Option<Json>, b: Option<Json>)
    requires (a.Some? ==> WellFormed(a.value)) && (b.Some? ==> WellFormed(b.value))
    ensures DigestInput(a) == DigestInput(b) <==> a.Some? == b.Some? && (a.Some? ==> Same(a.value, b.value))
  {
    hide Canonical, Same;
    if a.Some? { FirstChar(a.value); }
    if b.Some? { FirstChar(b.value); }
    if a.Some? && b.Some? { CanonicalFaithful(a.value, b.value); }
  }

  // ---- the writer -------------------------------------------------------------------------------

  function Insert(k: string, keys: seq<string>): seq<string> {
    if keys == [] || Less(k, keys[0]) then [k] + keys else [keys[0]] + Insert(k, keys[1..])
  }

  lemma {:induction false} InsertEnumerates(k: string, keys: seq<string>, s: set<string>)
    requires Enumerates(keys, s) && k !in s
    ensures Enumerates(Insert(k, keys), s + {k})
  {
    hide Less;
    if keys == [] || Less(k, keys[0]) {
      forall j | 0 <= j < |keys| ensures Less(k, keys[j]) {
        if j > 0 { LessTransitive(k, keys[0], keys[j]); }
      }
      var r := [k] + keys;
      assert forall j :: j in r <==> j == k || j in keys;
    } else {
      TailEnumerates(keys, s);
      HeadIsLeast(keys, s);
      LessTotal(k, keys[0]);
      InsertEnumerates(k, keys[1..], s - {keys[0]});
      var rest := Insert(k, keys[1..]);
      var r := [keys[0]] + rest;
      assert forall j :: j in rest ==> j == k || (j in s && j != keys[0]);
      assert forall j :: j in r <==> j == keys[0] || j in rest;
    }
  }

  /** `sort.Strings`, for distinct strings given in any order. */
  method SortStrings(keys: seq<string>) returns (sorted: seq<string>)
    requires forall i, j :: 0 <= i < j < |keys| ==> keys[i] != keys[j]
    ensures Enumerates(sorted, set k | k in keys)
  {
    sorted := [];
    ghost var done: set<string> := {};
    for i := 0 to |keys|
      invariant done == set k | k in keys[..i]
      invariant Enumerates(sorted, done)
    {
      assert keys[..i + 1] == keys[..i] + [keys[i]];
      InsertEnumerates(keys[i], sorted, done);
      sorted := Insert(keys[i], sorted);
      done := done + {keys[i]};
    }
    assert keys[..|keys|] == keys;
  }

  /** Ranging over the map: every key once, in no particular order. */
  method CollectKeys(fields: map<string, Json>) returns (keys: seq<string>)
    ensures forall i, j :: 0 <= i < j < |keys| ==> keys[i] != keys[j]
    ensures forall k :: k in keys <==> k in fields
  {
    keys := [];
    var left := fields.Keys;
    while left != {}
      invariant left <= fields.Keys
      invariant forall i, j :: 0 <= i < j < |keys| ==> keys[i] != keys[j]
      invariant forall k :: k in keys <==> k in fields && k !in left
      decreases left
    {
      var k :| k in left;
      keys := keys + [k];
      left := left - {k};
    }
  }

  /** `canonical`: the order in which a map yields its keys makes no difference
      to the text written. */
  method WriteCanonical(v: Json) returns (b: string)
    ensures b == Canonical(v)
    decreases v, 1
  {
    match v
    case Null => b := "null";
    case Bool(flag) => b := if flag then "true" else "false";
    case Str(s) => b := Quote(s);
    case Number(text) => b := D.NormalNumber(text);
    case Array(_) =>
      var text := WriteItems(v);
      b := "[" + text;
    case Object(fields) =>
      var keys := CollectKeys(fields);
      assert (set k | k in keys) == fields.Keys;
      keys := SortStrings(keys);
      EnumerationUnique(keys, SortedKeys(fields.Keys), fields.Keys);
      var text := WriteMembers(v, keys);
      b := "{" + text;
  }

  lemma {:induction false} ItemsAppend(v: Json, i: nat, b: string)
    requires v.Array? && i < |v.items|
    ensures b + (if i > 0 then "," else "") + Canonical(v.items[i]) + ItemsFrom(v, i + 1) == b + ItemsFrom(v, i)
  {
    hide Canonical;
    var comma, text, rest := if i > 0 then "," else "", Canonical(v.items[i]), ItemsFrom(v, i + 1);
    assert b + comma + text + rest == b + (comma + (text + rest));
  }

  lemma {:induction false} MembersAppend(v: Json, keys: seq<string>, i: nat, b: string)
    requires v.Object? && i < |keys| && forall k :: k in keys ==> k in v.fields
    ensures b + (if i > 0 then "," else "") + (Quote(keys[i]) + ":" + Canonical(v.fields[keys[i]])) + MembersFrom(v,
        keys, i + 1)
         == b + MembersFrom(v, keys, i)
  {
    hide Canonical, Quote;
    var comma, k, text, rest := if i > 0 then "," else "", Quote(keys[i]), Canonical(v.fields[keys[i]]),
        MembersFrom(v, keys, i + 1);
    assert b + comma + (k + ":" + text) + rest == b + (comma + (k + (":" + (text + rest))));
  }

  method WriteItems(v: Json) returns (b: string)
    requires v.Array?
    ensures b == ItemsFrom(v, 0)
    decreases v, 0
  {
    hide Canonical;
    b := "";
    for i := 0 to |v.items|
      invariant b + ItemsFrom(v, i) == ItemsFrom(v, 0)
    {
      var text := WriteCanonical(v.items[i]);
      var comma := if i > 0 then "," else "";
      ItemsAppend(v, i, b);
      b := b + comma + text;
    }
    b := b + "]";
  }

  method WriteMembers(v: Json, keys: seq<string>) returns (b: string)
    requires v.Object? && forall k :: k in keys ==> k in v.fields
    ensures b == MembersFrom(v, keys, 0)
    decreases v, 0
  {
    hide Canonical, Quote;
    b := "";
    for i := 0 to |keys|
      invariant b + MembersFrom(v, keys, i) == MembersFrom(v, keys, 0)
    {
      var text := WriteCanonical(v.fields[keys[i]]);
      var comma := if i > 0 then "," else "";
      var member := Quote(keys[i]) + ":" + text;
      MembersAppend(v, keys, i, b);
      b := b + comma + member;
    }
    b := b + "}";
  }
}

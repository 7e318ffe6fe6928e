/** Identities: how the engine prints the path of a boundary or an attempt, and
    how the catch-history reader takes it apart again. */
module Identity {
  import opened Text
  import opened JsonText
  import opened Records

  const MAX_INT := 0x7fff_ffff_ffff_ffff

  predicate IsBoundaryKind(kind: string) { kind in {"scope", "task"} }

  // ---- the printer --------------------------------------------------------------------

  /** `occurrence`: the n-th visit of a call site inside a context. */
  function BoundaryId(parent: string, kind: string, site: string, n: nat): string {
    parent + "/" + kind + ":" + Quote(site) + "#" + PrintNat(n)
  }

  function AttemptId(boundary: string, n: nat): string { boundary + "/attempt:" + PrintNat(n) }

  function HandlerId(attempt: string, rule: string): string { attempt + "/catch:" + rule }

  // ---- the parsers ---------------------------------------------------------------------

  /** Where a JSON string body ends, the way a regular expression sees it. */
  function ScanBody(t: string): (n: Option<nat>)
    ensures n.Some? ==> n.value < |t| && t[n.value] == '"'
  {
    if t == [] then None
    else if t[0] == '"' then Some(0)
    else
      var step := if t[0] == '\\' then 2 else 1;
      if step == 2 && (|t| < 2 || t[1] == '\n') then None
      else
        match ScanBody(t[step..])
        case None => None
        case Some(k) => Some(step + k)
  }

  predicate CountText(s: string) { s != [] && Digits(s) && s[0] != '0' }

  /** A boundary suffix that takes up all of `t`: its kind, its quoted site and
      the length of what stands before the site. */
  datatype Suffix = Suffix(kind: string, quoted: string, count: string)

  function MatchKind(t: string, kind: string): Option<Suffix> {
    var lead := "/" + kind + ":\"";
    if !StartsWith(t, lead) then None
    else
      match ScanBody(t[|lead|..])
      case None => None
      case Some(k) =>
        var rest := t[|lead| + k + 1..];
        if rest != [] && rest[0] == '#' && CountText(rest[1..])
        then Some(Suffix(kind, t[|lead| - 1..|lead| + k + 1], rest[1..]))
        else None
  }

  function MatchHere(t: string): Option<Suffix> {
    if MatchKind(t, "scope").Some? then MatchKind(t, "scope") else MatchKind(t, "task")
  }

  datatype Match = Match(start: nat, suffix: Suffix)

  /** The leftmost match. */
  function FindSuffix(id: string, from: nat): (m: Option<Match>)
    requires from <= |id|
    ensures m.Some? ==> from <= m.value.start <= |id| && MatchHere(id[m.value.start..]) == Some(m.value.suffix)
    decreases |id| - from
  {
    if MatchHere(id[from..]).Some? then Some(Match(from, MatchHere(id[from..]).value))
    else if from == |id| then None
    else FindSuffix(id, from + 1)
  }

  datatype Parts = Parts(parent: string, kind: string, site: string)

  /** `catchBoundaryParts`. */
  function BoundaryParts(id: string): Outcome<Parts> {
    match FindSuffix(id, 0)
    case None => Err("invalid boundary identity")
    case Some(m) =>
      match Unquote(m.suffix.quoted)
      case None => Err("invalid site")
      case Some(site) => if site == "" then Err("empty boundary site")
                         else Ok(Parts(id[..m.start], m.suffix.kind, site))
  }

  /** `strings.LastIndex`. */
  function LastIndex(s: string, sub: string): (i: int)
    ensures i < 0 || (i <= |s| && StartsWith(s[i..], sub))
    ensures forall k :: 0 <= k <= |s| && k > i ==> !StartsWith(s[k..], sub)
  {
    LastIndexFrom(s, sub, |s|)
  }

  function LastIndexFrom(s: string, sub: string, n: nat): (i: int)
    requires n <= |s|
    ensures i < 0 || (i <= n && StartsWith(s[i..], sub))
    ensures forall k :: 0 <= k <= n && k > i ==> !StartsWith(s[k..], sub)
  {
    if StartsWith(s[n..], sub) then n else if n == 0 then -1 else LastIndexFrom(s, sub, n - 1)
  }

  /** `strconv.Atoi`. */
  function Atoi(s: string): Option<int> {
    var digits := if s != [] && s[0] in "+-" then s[1..] else s;
    if digits == [] || !Digits(digits) then None
    else
      var n := if s[0] == '-' then 0 - ParseNat(digits) else ParseNat(digits);
      if -MAX_INT - 1 <= n <= MAX_INT then Some(n) else None
  }

  datatype Split = Split(boundary: string, number: int)

  /** `catchSplitAttempt`. */
  function SplitAttempt(id: string): Outcome<Split> {
    var pos := LastIndex(id, "/attempt:");
    if pos < 0 then Err("missing attempt identity")
    else
      var text := id[pos + 9..];
      match Atoi(text)
      case None => Err("invalid attempt identity")
      case Some(n) => if n < 1 || PrintInt(n) != text then Err("invalid attempt identity") else Ok(Split(id[..pos], n))
  }

  // ---- attempt suffixes -------------------------------------------------------------------

  /** The parser accepts exactly what the printer writes, and takes it apart the
      same way. */
  lemma {:induction false} SplitsExactlyAttempts(id: string, boundary: string, n: int)
    ensures SplitAttempt(id) == Ok(Split(boundary, n)) <==> 1 <= n <= MAX_INT && id == AttemptId(boundary, n)
  {
    hide SplitAttempt, AttemptId;
    if 1 <= n <= MAX_INT { SplitsPrinted(boundary, n); }
    if SplitAttempt(id) == Ok(Split(boundary, n)) { SplitShape(id); }
  }

  lemma {:induction false} AtoiPrinted(n: nat)
    requires 1 <= n <= MAX_INT
    ensures Atoi(PrintNat(n)) == Some(n) && PrintInt(n) == PrintNat(n) && Digits(PrintNat(n))
  {
    hide ParseNat, PrintNat;
    PrintNatIsPlain(n);
  }

  lemma {:induction false} SplitsPrinted(boundary: string, n: nat)
    requires 1 <= n <= MAX_INT
    ensures SplitAttempt(AttemptId(boundary, n)) == Ok(Split(boundary, n))
  {
    hide LastIndex, Atoi, PrintNat, PrintInt;
    AtoiPrinted(n);
    var id, text := AttemptId(boundary, n), PrintNat(n);
    LastMark(boundary, text);
    assert id[|boundary| + 9..] == text && id[..|boundary|] == boundary;
  }

  lemma {:induction false} LastMark(boundary: string, text: string)
    requires Digits(text)
    ensures LastIndex(boundary + "/attempt:" + text, "/attempt:") == |boundary|
  {
    hide LastIndex, StartsWith, Digits;
    var id := boundary + "/attempt:" + text;
    assert StartsWith(id[|boundary|..], "/attempt:") by { StartsHere(id, |boundary|, "/attempt:", text); }
    forall k | |boundary| < k <= |id| ensures !StartsWith(id[k..], "/attempt:") { LateMark(boundary, text, k); }
  }

  lemma {:induction false} StartsHere(id: string, k: nat, mark: string, rest: string)
    requires k <= |id| && id[k..] == mark + rest
    ensures StartsWith(id[k..], mark)
  {
    assert (mark + rest)[..|mark|] == mark;
  }

  lemma {:induction false} Differs(s: string, prefix: string, j: nat)
    requires j < |prefix| && (j < |s| ==> s[j] != prefix[j])
    ensures !StartsWith(s, prefix)
  {
    assert |prefix| <= |s| ==> s[..|prefix|][j] == s[j];
  }

  /** No attempt mark starts inside the last one or among the digits after it. */
  lemma {:induction false} LateMark(boundary: string, text: string, k: nat)
    requires Digits(text) && |boundary| < k <= |boundary| + 9 + |text|
    ensures !StartsWith((boundary + "/attempt:" + text)[k..], "/attempt:")
  {
    var id, mark := boundary + "/attempt:" + text, "/attempt:";
    assert k < |boundary| + 9 ==> id[k] == mark[k - |boundary|] && mark[k - |boundary|] != '/';
    assert |boundary| + 9 <= k < |id| ==> id[k] == text[k - |boundary| - 9] && IsDigit(text[k - |boundary| - 9]);
    assert k < |id| ==> id[k] != '/';
    Differs(id[k..], mark, 0);
  }

  lemma {:induction false} SplitShape(id: string)
    requires SplitAttempt(id).Ok?
    ensures var s := SplitAttempt(id).value; 1 <= s.number <= MAX_INT && id == AttemptId(s.boundary, s.number)
  {
    hide LastIndex, ParseNat, PrintNat;
    var pos := LastIndex(id, "/attempt:");
    assert id[pos..][..9] == "/attempt:";
    assert id == id[..pos] + "/attempt:" + id[pos + 9..];
  }

  // ---- boundary suffixes --------------------------------------------------------------------

  lemma {:induction false} ScanOverEscape(c: char, rest: string)
    requires ScanBody(rest).Some?
    ensures ScanBody(Escape(c) + rest) == Some(|Escape(c)| + ScanBody(rest).value)
  {
    hide HexDigit;
    var e, t := Escape(c), Escape(c) + rest;
    if |e| == 1 {
      assert t[1..] == rest;
    } else {
      assert t[0] == '\\' && t[1] == e[1] && e[1] != '\n';
      if |e| == 2 {
        assert t[2..] == rest;
      } else {
        ScanHex([e[2], e[3], e[4], e[5]], rest);
        assert t[2..] == [e[2], e[3], e[4], e[5]] + rest;
      }
    }
  }

  lemma {:induction false} ScanHex(hex: string, rest: string)
    requires ScanBody(rest).Some? && forall i :: 0 <= i < |hex| ==> hex[i] !in "\"\\"
    ensures ScanBody(hex + rest) == Some(|hex| + ScanBody(rest).value)
  {
    if hex == [] {
      assert hex + rest == rest;
    } else {
      ScanHex(hex[1..], rest);
      assert (hex + rest)[1..] == hex[1..] + rest;
    }
  }

  /** A quoted string is scanned to its closing quote. */
  lemma {:induction false} ScanEscaped(s: string, rest: string)
    ensures ScanBody(Escaped(s) + "\"" + rest) == Some(|Escaped(s)|)
  {
    hide Escape;
    if s == [] {
      assert Escaped(s) + "\"" + rest == "\"" + rest;
    } else {
      ScanEscaped(s[1..], rest);
      ScanOverEscape(s[0], Escaped(s[1..]) + "\"" + rest);
      assert Escaped(s) + "\"" + rest == Escape(s[0]) + (Escaped(s[1..]) + "\"" + rest);
    }
  }

  /** A scan does not run over a quote that no backslash precedes. */
  lemma {:induction false} ScanStopsAt(t: string, q: nat)
    requires q < |t| && t[q] == '"' && (q > 0 ==> t[q - 1] != '\\') && ScanBody(t).Some?
    ensures ScanBody(t).value <= q
    decreases |t|
  {
    if q > 0 && t[0] != '"' {
      var step := if t[0] == '\\' then 2 else 1;
      assert q >= step;
      ScanStopsAt(t[step..], q - step);
    }
  }

  lemma {:induction false} MatchesOwnKind(kind: string, site: string, n: nat)
    requires n >= 1
    ensures MatchKind(BoundaryId("", kind, site, n), kind) == Some(Suffix(kind, Quote(site), PrintNat(n)))
  {
    hide ScanBody, Escaped, PrintNat;
    PrintNatIsPlain(n);
    ScanEscaped(site, "#" + PrintNat(n));
    Laid("/" + kind + ":", Escaped(site), "#" + PrintNat(n), BoundaryId("", kind, site, n));
  }

  /** Where the parts of a printed boundary lie. */
  lemma {:induction false} Laid(lead: string, body: string, tail: string, t: string)
    requires t == lead + ("\"" + body + "\"") + tail && tail != []
    ensures var q := |lead| + 1;
            && |t| == q + |body| + 1 + |tail| && t[..q] == lead + "\"" && t[q..] == body + "\"" + tail
            && t[q + |body| + 1..] == tail && t[q - 1..q + |body| + 1] == "\"" + body + "\""
  {
  }

  lemma {:induction false} PrintedMatches(kind: string, site: string, n: nat)
    requires IsBoundaryKind(kind) && n >= 1
    ensures MatchHere(BoundaryId("", kind, site, n)) == Some(Suffix(kind, Quote(site), PrintNat(n)))
  {
    hide MatchKind, Quote, PrintNat;
    MatchesOwnKind(kind, site, n);
    if kind == "task" { OtherKind(BoundaryId("", kind, site, n)); }
  }

  lemma {:induction false} OtherKind(t: string)
    requires |t| > 1 && t[1] != 's'
    ensures MatchKind(t, "scope").None?
  {
    Differs(t, "/scope:\"", 1);
  }

  /** Every match ends with the last quote of the text. */
  lemma {:induction false} MatchEnds(t: string, kind: string)
    requires MatchKind(t, kind).Some?
    ensures var lead := "/" + kind + ":\"";
            && |lead| <= |t| && ScanBody(t[|lead|..]).Some?
            && var q := |lead| + ScanBody(t[|lead|..]).value;
               q < |t| && t[q] == '"' && forall i :: q < i < |t| ==> t[i] != '"'
  {
    hide ScanBody;
    var lead := "/" + kind + ":\"";
    var q := |lead| + ScanBody(t[|lead|..]).value;
    var rest := t[q + 1..];
    assert forall i :: q < i < |t| ==> t[i] == rest[i - q - 1];
    assert forall i :: 1 <= i < |rest| ==> rest[i] == rest[1..][i - 1];
  }

  /** No match starts before the printed suffix. */
  lemma {:induction false} NoEarlierMatch(parent: string, kind: string, site: string, n: nat, i: nat)
    requires IsBoundaryKind(kind) && n >= 1 && i < |parent|
    ensures MatchHere(BoundaryId(parent, kind, site, n)[i..]).None?
  {
    EarlierFails(parent, kind, site, n, i, "scope");
    EarlierFails(parent, kind, site, n, i, "task");
  }

  /** Where the printed suffix has its marks. */
  lemma {:induction false} Layout(parent: string, kind: string, site: string, n: nat)
    requires IsBoundaryKind(kind)
    ensures var id, base := BoundaryId(parent, kind, site, n), |parent|;
            var open := base + |kind| + 2;
            && open + 1 + |Escaped(site)| < |id|
            && id[base] == '/' && id[open - 1] == ':' && id[open] == '"' && id[open + 1 + |Escaped(site)|] == '"'
            && forall j :: base <= j < open ==> id[j] != '"'
  {
    hide Escaped, PrintNat;
    var id, base := BoundaryId(parent, kind, site, n), |parent|;
    var lead := "/" + kind + ":";
    assert id == parent + (lead + ("\"" + Escaped(site) + "\"" + "#" + PrintNat(n)));
    assert forall j :: 0 <= j < |lead| ==> id[base + j] == lead[j];
    assert forall j :: base <= j < base + |lead| ==> id[j] == lead[j - base];
  }

  lemma {:induction false} MatchLead(t: string, kind: string)
    requires MatchKind(t, kind).Some? && kind != ""
    ensures |t| > |kind| + 2 && t[1] == kind[0] && t[|kind| + 2] == '"'
  {
    hide ScanBody;
    var lead := "/" + kind + ":\"";
    assert forall j :: 0 <= j < |lead| ==> t[j] == t[..|lead|][j] == lead[j];
  }

  lemma {:induction false} ClosesBefore(t: string, lead: nat, open: nat)
    requires lead <= open < |t| && t[open] == '"' && (open > lead ==> t[open - 1] != '\\') && ScanBody(t[lead..]).Some?
    ensures lead + ScanBody(t[lead..]).value <= open
  {
    hide ScanBody;
    ScanStopsAt(t[lead..], open - lead);
  }

  lemma {:induction false} EarlierFails(parent: string, kind: string, site: string, n: nat, i: nat, guess: string)
    requires IsBoundaryKind(kind) && IsBoundaryKind(guess) && n >= 1 && i < |parent|
    ensures MatchKind(BoundaryId(parent, kind, site, n)[i..], guess).None?
  {
    hide ScanBody, Escaped, PrintNat, BoundaryId, MatchKind;
    var id := BoundaryId(parent, kind, site, n);
    Layout(parent, kind, site, n);
    var t := id[i..];
    // The printed site's quotes, as positions in t.
    var open := |parent| + |kind| + 2 - i;
    var close := open + 1 + |Escaped(site)|;
    assert t[open] == '"' && t[close] == '"' && t[open - 1] == ':' && t[|parent| - i] == '/';
    assert forall j :: |parent| - i <= j < open ==> t[j] == id[i + j] && t[j] != '"';
    if MatchKind(t, guess).Some? {
      MatchEnds(t, guess);
      MatchLead(t, guess);
      if |guess| + 3 <= open { ClosesBefore(t, |guess| + 3, open); }
    }
  }

  lemma {:induction false} FindsFirst(id: string, from: nat, start: nat)
    requires from <= start <= |id| && MatchHere(id[start..]).Some?
    requires forall i :: from <= i < start ==> MatchHere(id[i..]).None?
    ensures FindSuffix(id, from) == Some(Match(start, MatchHere(id[start..]).value))
    decreases start - from
  {
    hide MatchHere;
    if from < start { FindsFirst(id, from + 1, start); }
  }

  lemma {:induction false} FindsPrinted(parent: string, kind: string, site: string, n: nat)
    requires IsBoundaryKind(kind) && n >= 1
    ensures FindSuffix(BoundaryId(parent, kind, site, n),
                       0) == Some(Match(|parent|, Suffix(kind, Quote(site), PrintNat(n))))
  {
    hide MatchHere, PrintNat, Quote;
    var id := BoundaryId(parent, kind, site, n);
    assert id[|parent|..] == BoundaryId("", kind, site, n);
    PrintedMatches(kind, site, n);
    forall i | 0 <= i < |parent| ensures MatchHere(id[i..]).None? { NoEarlierMatch(parent, kind, site, n, i); }
    FindsFirst(id, 0, |parent|);
  }

  /** Whatever stands before it, and whatever its site contains (quotes, slashes,
      text that looks like an identity), a printed boundary is read back. */
  lemma {:induction false} BoundaryRoundTrip(parent: string, kind: string, site: string, n: nat)
    requires IsBoundaryKind(kind) && site != "" && n >= 1
    ensures BoundaryParts(BoundaryId(parent, kind, site, n)) == Ok(Parts(parent, kind, site))
  {
    hide FindSuffix, PrintNat, Unquote, Quote;
    FindsPrinted(parent, kind, site, n);
    UnquoteQuote(site);
    assert BoundaryId(parent, kind, site, n)[..|parent|] == parent;
  }

  /** Distinct visits have distinct identities. */
  lemma {:induction false} BoundaryIdInjective(p1: string, k1: string, s1: string, n1: nat, p2: string, k2: string,
                                               s2: string, n2: nat)
    requires IsBoundaryKind(k1) && IsBoundaryKind(k2) && n1 >= 1 && n2 >= 1
    requires BoundaryId(p1, k1, s1, n1) == BoundaryId(p2, k2, s2, n2)
    ensures p1 == p2 && k1 == k2 && s1 == s2 && n1 == n2
  {
    hide FindSuffix, PrintNat, Unquote, Quote;
    FindsPrinted(p1, k1, s1, n1);
    FindsPrinted(p2, k2, s2, n2);
    UnquoteQuote(s1);
    UnquoteQuote(s2);
    PrintNatIsPlain(n1);
    PrintNatIsPlain(n2);
    var id := BoundaryId(p1, k1, s1, n1);
    assert id[..|p1|] == p1 && id[..|p2|] == p2;
  }

  lemma {:induction false} MatchShape(t: string, kind: string)
    requires MatchKind(t, kind).Some?
    ensures var m := MatchKind(t, kind).value;
            m.kind == kind && CountText(m.count) && t == "/" + kind + ":" + m.quoted + "#" + m.count
  {
    hide ScanBody, CountText;
    var m, lead := MatchKind(t, kind).value, "/" + kind + ":\"";
    var k := ScanBody(t[|lead|..]).value;
    assert t[..|lead|] == lead;
    assert t[..|lead| - 1] == "/" + kind + ":";
    assert t[|lead| + k + 1..] == "#" + m.count;
    assert t == t[..|lead| - 1] + m.quoted + t[|lead| + k + 1..];
  }

  /** What the parser accepts has the printed shape. */
  lemma {:induction false} BoundaryPartsShape(id: string)
    requires BoundaryParts(id).Ok?
    ensures var p := BoundaryParts(id).value;
            && IsBoundaryKind(p.kind) && p.site != ""
            && exists quoted, count ::
                 id == p.parent + "/" + p.kind + ":" + quoted + "#" + count && Unquote(quoted) == Some(p.site)
                     && CountText(count)
  {
    hide Unquote, MatchHere, CountText, FindSuffix;
    var m := FindSuffix(id, 0).value;
    HereShape(id[m.start..]);
    Rejoin(id, m.start, m.suffix);
  }

  lemma {:induction false} HereShape(t: string)
    requires MatchHere(t).Some?
    ensures var m := MatchHere(t).value;
            IsBoundaryKind(m.kind) && CountText(m.count) && t == "/" + m.kind + ":" + m.quoted + "#" + m.count
  {
    hide MatchKind, CountText;
    if MatchKind(t, "scope").Some? { MatchShape(t, "scope"); } else { MatchShape(t, "task"); }
  }

  lemma {:induction false} Rejoin(id: string, start: nat, f: Suffix)
    requires start <= |id| && id[start..] == "/" + f.kind + ":" + f.quoted + "#" + f.count
    ensures id == id[..start] + "/" + f.kind + ":" + f.quoted + "#" + f.count
  {
    assert id == id[..start] + id[start..];
  }

  // ---- visits of one context ---------------------------------------------------------------------

  datatype CallSite = CallSite(kind: string, site: string)

  /** The identities of a context's calls, in order: each call site counts its own
      visits. */
  function VisitIds(context: string, calls: seq<CallSite>): seq<string> {
    if calls == [] then []
    else
      var c := calls[|calls| - 1];
      VisitIds(context, calls[..|calls| - 1]) + [BoundaryId(context, c.kind, c.site, multiset(calls)[c])]
  }

  lemma {:induction false} VisitIdAt(context: string, calls: seq<CallSite>, i: nat)
    requires i < |calls|
    ensures |VisitIds(context, calls)| == |calls|
    ensures VisitIds(context, calls)[i] == BoundaryId(context, calls[i].kind, calls[i].site,
                                                      multiset(calls[..i + 1])[calls[i]])
    decreases |calls|
  {
    hide BoundaryId;
    var n := |calls| - 1;
    if i < n {
      VisitIdAt(context, calls[..n], i);
      assert calls[..n][..i + 1] == calls[..i + 1];
    } else {
      if n > 0 { VisitIdAt(context, calls[..n], 0); }
      assert calls[..n + 1] == calls;
    }
  }

  lemma {:induction false} LaterVisitCountsMore(calls: seq<CallSite>, i: nat, j: nat)
    requires i < j < |calls| && calls[i] == calls[j]
    ensures 1 <= multiset(calls[..i + 1])[calls[i]] < multiset(calls[..j + 1])[calls[j]]
  {
    assert calls[..i + 1] == calls[..i] + [calls[i]];
    assert calls[..j + 1] == calls[..i + 1] + calls[i + 1..j] + [calls[j]];
  }

  /** Scopes, tasks, sleeps and joins: kinds without a colon. */
  predicate IsCallKind(kind: string) { ':' !in kind }

  lemma {:induction false} ColonEnds(a: string, s: string, b: string, t: string)
    requires IsCallKind(a) && IsCallKind(b) && a + ":" + s == b + ":" + t
    ensures a == b && s == t
  {
    var u, v := a + ":" + s, b + ":" + t;
    assert u[|a|] == ':' && v[|b|] == ':';
    assert forall i :: 0 <= i < |a| ==> u[i] == a[i];
    assert forall i :: 0 <= i < |b| ==> v[i] == b[i];
    assert |a| == |b|;
    assert a == u[..|a|] && b == v[..|b|] && s == u[|a| + 1..] && t == v[|b| + 1..];
  }

  /** Within one context, kind, site and count can be read off an identity. */
  lemma {:induction false} VisitReadable(context: string, a: CallSite, n: nat, b: CallSite, m: nat)
    requires IsCallKind(a.kind) && IsCallKind(b.kind)
             && BoundaryId(context, a.kind, a.site, n) == BoundaryId(context, b.kind, b.site, m)
    ensures a == b && n == m
  {
    hide Quote, PrintNat;
    var x, y := Quote(a.site) + ("#" + PrintNat(n)), Quote(b.site) + ("#" + PrintNat(m));
    var id, lead := BoundaryId(context, a.kind, a.site, n), context + "/";
    assert id == lead + (a.kind + ":" + x) && id == lead + (b.kind + ":" + y);
    assert id[|lead|..] == a.kind + ":" + x && id[|lead|..] == b.kind + ":" + y;
    ColonEnds(a.kind, x, b.kind, y);
    QuoteReadable(a.site, "#" + PrintNat(n), b.site, "#" + PrintNat(m));
    assert ("#" + PrintNat(n))[1..] == PrintNat(n) && ("#" + PrintNat(m))[1..] == PrintNat(m);
    PrintNatIsPlain(n);
    PrintNatIsPlain(m);
  }

  /** No two calls of one context share an identity. */
  lemma {:induction false} VisitsAreDistinct(context: string, calls: seq<CallSite>, i: nat, j: nat)
    requires forall c :: c in calls ==> IsCallKind(c.kind)
    requires i < j < |calls|
    ensures |VisitIds(context, calls)| == |calls| && VisitIds(context, calls)[i] != VisitIds(context, calls)[j]
  {
    hide BoundaryId, VisitIds;
    VisitIdAt(context, calls, i);
    VisitIdAt(context, calls, j);
    var a, b := calls[i], calls[j];
    var n, m := multiset(calls[..i + 1])[a], multiset(calls[..j + 1])[b];
    assert a in calls[..i + 1] by { assert calls[..i + 1][i] == a; }
    assert b in calls[..j + 1] by { assert calls[..j + 1][j] == b; }
    assert a in calls && b in calls;
    if BoundaryId(context, a.kind, a.site, n) == BoundaryId(context, b.kind, b.site, m) {
      VisitReadable(context, a, n, b, m);
      LaterVisitCountsMore(calls, i, j);
    }
  }

  function CountKey(c: CallSite): string { c.kind + ":" + c.site }

  lemma {:induction false} CountKeyInjective(a: CallSite, b: CallSite)
    requires IsCallKind(a.kind) && IsCallKind(b.kind) && CountKey(a) == CountKey(b)
    ensures a == b
  {
    ColonEnds(a.kind, a.site, b.kind, b.site);
  }

  /** The call counters of one context. */
  class CallCounters {
    const context: string
    var counts: map<string, nat>
    ghost var calls: seq<CallSite>

    ghost predicate Valid()
      reads this
    {
      && (forall c :: c in calls ==> IsCallKind(c.kind))
      && (forall c: CallSite :: IsCallKind(c.kind) ==>
            multiset(calls)[c] == if CountKey(c) in counts then counts[CountKey(c)] else 0)
    }

    constructor (context: string)
      ensures Valid() && this.context == context && calls == []
    {
      this.context, counts, calls := context, map[], [];
    }

    /** `occurrence`. */
    method Occurrence(kind: string, site: string) returns (id: Outcome<string>)
      requires Valid() && IsCallKind(kind)
      modifies this
      ensures Valid()
      ensures site == "" ==> id.Err? && calls == old(calls)
      ensures site != "" ==>
                id.Ok? && calls == old(calls) + [CallSite(kind, site)]
                    && VisitIds(context, calls) == VisitIds(context, old(calls)) + [id.value]
    {
      hide BoundaryId;
      if site == "" { return Err("call site is required"); }
      var key := kind + ":" + site;
      var n := (if key in counts then counts[key] else 0) + 1;
      counts := counts[key := n];
      ghost var c := CallSite(kind, site);
      calls := calls + [c];
      assert calls[..|calls| - 1] == old(calls);
      assert multiset(calls) == multiset(old(calls)) + multiset{c};
      forall d: CallSite | IsCallKind(d.kind)
        ensures multiset(calls)[d] == if CountKey(d) in counts then counts[CountKey(d)] else 0
      {
        if d != c && CountKey(d) == key { CountKeyInjective(c, d); }
      }
      id := Ok(BoundaryId(context, kind, site, n));
    }
  }
}

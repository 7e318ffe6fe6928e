/** Structured identities: the path of a boundary, attempt or handler through the
    run, and its printed form. */
module Paths {
  import opened Text
  import opened JsonText
  import opened Identity

  datatype Segment = Visit(kind: string, site: string, n: nat) | Try(number: nat) | Handler(rule: string)

  type Path = seq<Segment>

  function PrintSegment(s: Segment): string {
    match s
    case Visit(kind, site, n) => "/" + kind + ":" + Quote(site) + "#" + PrintNat(n)
    case Try(n) => "/attempt:" + PrintNat(n)
    case Handler(rule) => "/catch:" + rule
  }

  /** What the engine prints: real kinds and sites, counts from one, rules without
      a slash. */
  predicate SegmentOk(s: Segment) {
    match s
    case Visit(kind, site, n) => IsBoundaryKind(kind) && site != "" && n >= 1
    case Try(n) => 1 <= n <= MAX_INT
    case Handler(rule) => rule != "" && '/' !in rule
  }

  predicate PathOk(p: Path) { forall i :: 0 <= i < |p| ==> SegmentOk(p[i]) }

  function Print(p: Path): string {
    if p == [] then "" else Print(p[..|p| - 1]) + PrintSegment(p[|p| - 1])
  }

  predicate IsBoundaryPath(p: Path) { PathOk(p) && |p| >= 1 && p[|p| - 1].Visit? }

  predicate IsAttemptPath(p: Path) { PathOk(p) && |p| >= 2 && p[|p| - 1].Try? && p[|p| - 2].Visit? }

  // ---- reading a segment off the front --------------------------------------------------

  /** Text that may follow a segment. */
  predicate SegmentEnds(s: string) { s == [] || s[0] == '/' }

  lemma {:induction false} DigitsEnd(x: string, s: string, y: string, t: string)
    requires Digits(x) && Digits(y) && SegmentEnds(s) && SegmentEnds(t) && x + s == y + t
    ensures x == y && s == t
  {
    RunsEnd(x, s, y, t);
  }

  lemma {:induction false} RunsEnd(x: string, s: string, y: string, t: string)
    requires '/' !in x && '/' !in y && SegmentEnds(s) && SegmentEnds(t) && x + s == y + t
    ensures x == y && s == t
  {
    assert forall i :: 0 <= i < |x| ==> (x + s)[i] == x[i];
    assert forall i :: 0 <= i < |y| ==> (y + t)[i] == y[i];
    assert s != [] ==> (x + s)[|x|] == '/';
    assert t != [] ==> (y + t)[|y|] == '/';
    assert |x| == |y|;
    assert x == (x + s)[..|x|] && s == (x + s)[|x|..];
    assert y == (y + t)[..|y|] && t == (y + t)[|y|..];
  }

  /** What follows the first two characters of a printed segment. */
  lemma {:induction false} Second(a: Segment, s: string)
    requires SegmentOk(a)
    ensures |PrintSegment(a) + s| >= 2
    ensures (PrintSegment(a) + s)[1] == match a { case Visit(k, _, _) => k[0] case Try(_) => 'a' case Handler(_) =>
                                                   'c' }
  {
    hide Quote, PrintNat;
  }

  lemma {:induction false} CutLead(lead: string, u: string, v: string)
    requires lead + u == lead + v
    ensures u == v
  {
    assert (lead + u)[|lead|..] == u && (lead + v)[|lead|..] == v;
  }

  lemma {:induction false} VisitText(a: Segment, s: string)
    requires a.Visit?
    ensures PrintSegment(a) + s == ("/" + a.kind + ":") + (Quote(a.site) + ("#" + (PrintNat(a.n) + s)))
  {
    hide Quote, PrintNat;
  }

  lemma {:induction false} VisitReadable(a: Segment, s: string, b: Segment, t: string)
    requires a.Visit? && b.Visit? && SegmentOk(a) && SegmentOk(b) && a.kind == b.kind && SegmentEnds(s)
             && SegmentEnds(t)
    requires PrintSegment(a) + s == PrintSegment(b) + t
    ensures a == b && s == t
  {
    hide Quote, PrintNat, PrintSegment;
    VisitText(a, s);
    VisitText(b, t);
    var da, db := PrintNat(a.n), PrintNat(b.n);
    CutLead("/" + a.kind + ":", Quote(a.site) + ("#" + (da + s)), Quote(b.site) + ("#" + (db + t)));
    QuoteReadable(a.site, "#" + (da + s), b.site, "#" + (db + t));
    CutLead("#", da + s, db + t);
    PrintNatIsPlain(a.n);
    PrintNatIsPlain(b.n);
    DigitsEnd(da, s, db, t);
  }

  lemma {:induction false} TryReadable(n: nat, s: string, m: nat, t: string)
    requires SegmentEnds(s) && SegmentEnds(t) && PrintSegment(Try(n)) + s == PrintSegment(Try(m)) + t
    ensures n == m && s == t
  {
    hide PrintNat;
    assert PrintSegment(Try(n)) + s == "/attempt:" + (PrintNat(n) + s);
    assert PrintSegment(Try(m)) + t == "/attempt:" + (PrintNat(m) + t);
    CutLead("/attempt:", PrintNat(n) + s, PrintNat(m) + t);
    PrintNatIsPlain(n);
    PrintNatIsPlain(m);
    DigitsEnd(PrintNat(n), s, PrintNat(m), t);
  }

  lemma {:induction false} HandlerReadable(r: string, s: string, q: string, t: string)
    requires '/' !in r && '/' !in q && SegmentEnds(s) && SegmentEnds(t)
             && PrintSegment(Handler(r)) + s == PrintSegment(Handler(q)) + t
    ensures r == q && s == t
  {
    assert PrintSegment(Handler(r)) + s == "/catch:" + (r + s);
    assert PrintSegment(Handler(q)) + t == "/catch:" + (q + t);
    CutLead("/catch:", r + s, q + t);
    RunsEnd(r, s, q, t);
  }

  /** Two texts that begin with printed segments begin with the same one. */
  lemma {:induction false} SegmentReadable(a: Segment, s: string, b: Segment, t: string)
    requires SegmentOk(a) && SegmentOk(b) && SegmentEnds(s) && SegmentEnds(t)
    requires PrintSegment(a) + s == PrintSegment(b) + t
    ensures a == b && s == t
  {
    hide PrintSegment, SegmentEnds;
    Second(a, s);
    Second(b, t);
    match a
    case Visit(k, _, _) => VisitReadable(a, s, b, t);
    case Try(n) => TryReadable(n, s, b.number, t);
    case Handler(r) => HandlerReadable(r, s, b.rule, t);
  }

  // ---- whole paths -------------------------------------------------------------------------

  /** Printing, from the front. */
  function PrintFrom(p: Path): string {
    if p == [] then "" else PrintSegment(p[0]) + PrintFrom(p[1..])
  }

  lemma {:induction false} PrintFromSnoc(p: Path, s: Segment)
    ensures PrintFrom(p + [s]) == PrintFrom(p) + PrintSegment(s)
  {
    hide PrintSegment;
    if p == [] {
      assert p + [s] == [s] && [s][1..] == [];
    } else {
      PrintFromSnoc(p[1..], s);
      assert (p + [s])[1..] == p[1..] + [s];
    }
  }

  lemma {:induction false} PrintBothWays(p: Path)
    ensures Print(p) == PrintFrom(p)
  {
    hide PrintSegment;
    if p != [] {
      var n := |p| - 1;
      PrintBothWays(p[..n]);
      PrintFromSnoc(p[..n], p[n]);
      assert p == p[..n] + [p[n]];
    }
  }

  lemma {:induction false} PrintEnds(p: Path)
    ensures SegmentEnds(PrintFrom(p)) && (PrintFrom(p) == "" <==> p == [])
  {
  }

  lemma {:induction false} PrintFromInjective(p: Path, q: Path)
    requires PathOk(p) && PathOk(q) && PrintFrom(p) == PrintFrom(q)
    ensures p == q
  {
    hide PrintSegment;
    PrintEnds(p);
    PrintEnds(q);
    if p != [] {
      PrintEnds(p[1..]);
      PrintEnds(q[1..]);
      SegmentReadable(p[0], PrintFrom(p[1..]), q[0], PrintFrom(q[1..]));
      PrintFromInjective(p[1..], q[1..]);
      assert p == [p[0]] + p[1..] && q == [q[0]] + q[1..];
    }
  }

  /** Different places in a run never print alike. */
  lemma {:induction false} PrintInjective(p: Path, q: Path)
    requires PathOk(p) && PathOk(q) && Print(p) == Print(q)
    ensures p == q
  {
    PrintBothWays(p);
    PrintBothWays(q);
    PrintFromInjective(p, q);
  }

  // ---- what the reader makes of printed paths ---------------------------------------------------

  lemma {:induction false} PrintSnoc(p: Path, s: Segment)
    ensures Print(p + [s]) == Print(p) + PrintSegment(s)
  {
    hide PrintSegment;
    assert (p + [s])[..|p|] == p;
  }

  lemma {:induction false} PrintedBoundary(p: Path)
    requires IsBoundaryPath(p)
    ensures var v := p[|p| - 1]; BoundaryParts(Print(p)) == Ok(Parts(Print(p[..|p| - 1]), v.kind, v.site))
  {
    hide Quote, PrintNat, BoundaryParts;
    var up, v := p[..|p| - 1], p[|p| - 1];
    assert Print(p) == BoundaryId(Print(up), v.kind, v.site, v.n);
    BoundaryRoundTrip(Print(up), v.kind, v.site, v.n);
  }

  lemma {:induction false} PrintedAttempt(p: Path)
    requires IsAttemptPath(p)
    ensures SplitAttempt(Print(p)) == Ok(Split(Print(p[..|p| - 1]), p[|p| - 1].number))
  {
    hide PrintNat, SplitAttempt;
    var b, n := p[..|p| - 1], p[|p| - 1].number;
    assert Print(p) == AttemptId(Print(b), n);
    SplitsExactlyAttempts(Print(p), Print(b), n);
  }
}

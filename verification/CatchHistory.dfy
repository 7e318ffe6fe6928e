/** The catch-history reader: from the logical records of a job to one row of
    facts per failed attempt, or a refusal of an inconsistent history. */
module CatchHistory {
  import opened Text
  import opened JsonText
  import opened Records
  import opened Identity
  import opened Policies

  // ---- first pass: declarations, selections and duplicates -----------------------------

  datatype Index = Index(header: bool, declarations: map<string, Policy>, selections: map<string, string>,
                         seen: set<(Kind, string)>)

  const NOTHING := Index(false, map[], map[], {})

  predicate IsControl(k: Kind) { k in {Attempt, Result, Catch, Handled, Decision} }

  function KindText(k: Kind): string { if k == Scope then "scope" else "task" }

  predicate RulesOk(rules: seq<string>) {
    && (forall i :: 0 <= i < |rules| ==> rules[i] != "")
    && (forall i, j :: 0 <= i < j < |rules| ==> rules[i] != rules[j])
  }

  /** The policy a declaration records. */
  function DeclaredPolicy(rec: Record): Outcome<Policy> {
    match BoundaryParts(rec.id)
    case Err(e) => Err(e)
    case Ok(parts) =>
      if parts.kind != KindText(rec.kind) then Err("boundary kind mismatch")
      else if rec.kind == Task then
        match TaskOf(rec.descriptor)
        case None => Err("invalid task policy")
        case Some(t) => if t.site != parts.site then Err("task site mismatch") else Ok(t.policy)
      else
        match PolicyOf(rec.descriptor)
        case None => Err("invalid scope policy")
        case Some(p) => Ok(p)
  }

  function IndexStep(x: Index, rec: Record): Outcome<Index> {
    if rec.version != PATTERN_VERSION then Err("unsupported execution version")
    else if !x.header && rec.kind != Header then Err("execution header missing")
    else if rec.kind == Header then
      if x.header then Err("duplicate execution header") else Ok(x.(header := true))
    else if rec.kind in {Scope, Task} then
      if rec.id in x.declarations then Err("duplicate boundary")
      else
        match DeclaredPolicy(rec)
        case Err(e) => Err(e)
        case Ok(p) => if RulesOk(p.rules) then Ok(x.(declarations := x.declarations[rec.id := p]))
                      else Err("invalid rule declaration")
    else if IsControl(rec.kind) then
      if (rec.kind, rec.id) in x.seen then Err("duplicate record")
      else
        match SplitAttempt(rec.id)
        case Err(e) => Err(e)
        case Ok(s) =>
          if rec.kind == Attempt && s.number != rec.attempt then Err("attempt number mismatch")
          else
            Ok(x.(seen := x.seen + {(rec.kind, rec.id)},
                  selections := if rec.kind == Catch then x.selections[rec.id := rec.rule] else x.selections))
    else Ok(x)
  }

  function IndexOf(entries: seq<Record>): Outcome<Index> {
    if entries == [] then Ok(NOTHING)
    else
      match IndexOf(entries[..|entries| - 1])
      case Err(e) => Err(e)
      case Ok(x) => IndexStep(x, entries[|entries| - 1])
  }

  // ---- ancestry ------------------------------------------------------------------------------

  function RulesAt(x: Index, aid: string): seq<string> {
    match SplitAttempt(aid)
    case Err(_) => []
    case Ok(s) => if s.boundary in x.declarations then x.declarations[s.boundary].rules else []
  }

  /** The rules whose handlers an attempt may own: the selected one, or, before
      any selection is known, every declared one. */
  function RulesOwned(x: Index, aid: string): set<string> {
    if aid in x.selections then (if x.selections[aid] == "" then {} else {x.selections[aid]})
    else if (Attempt, aid) in x.seen || (Result, aid) in x.seen then set r | r in RulesAt(x, aid)
    else {}
  }

  /** An attempt that may own the handler context `context`. */
  predicate Owns(x: Index, aid: string, context: string) {
    && StartsWith(context, aid + "/catch:")
    && context[|aid| + 7..] in RulesOwned(x, aid)
  }

  /** Attempts named by the records. */
  function Attempts(x: Index): set<string> {
    (set k | k in x.seen :: k.1) + x.selections.Keys
  }

  datatype Owner = NoOwner | OneOwner(attempt: string) | Ambiguous

  /** The only element of a set, if there is one. */
  function Single(owners: set<string>): (o: Owner)
    ensures o.OneOwner? ==> owners == {o.attempt}
    ensures o.NoOwner? <==> owners == {}
  {
    if owners == {} then NoOwner
    else if exists a, b :: a in owners && b in owners && a != b then Ambiguous
    else
      var a :| a in owners;
      OneOwner(a)
  }

  /** Who owns a handler context. */
  function OwnerOf(x: Index, context: string): (o: Owner)
    ensures o.OneOwner? ==> |o.attempt| < |context|
  {
    var owners := set a | a in Attempts(x) && Owns(x, a, context);
    var o := Single(owners);
    assert o.OneOwner? ==> o.attempt in owners;
    o
  }

  datatype Ref = Ref(boundary: string, attempt: string, number: int, kind: string, site: string, parent: string,
                     jobAttempt: string)

  lemma {:induction false} PartsShrink(id: string)
    requires SplitAttempt(id).Ok? && BoundaryParts(SplitAttempt(id).value.boundary).Ok?
    ensures |BoundaryParts(SplitAttempt(id).value.boundary).value.parent| < |id|
  {
    hide MatchHere, Unquote, Atoi, PrintInt, LastIndex;
  }

  /** `catchReference`. */
  function Reference(x: Index, id: string): Outcome<Ref>
    decreases |id|
  {
    match SplitAttempt(id)
    case Err(e) => Err(e)
    case Ok(s) =>
      match BoundaryParts(s.boundary)
      case Err(e) => Err(e)
      case Ok(p) =>
        if p.parent == "" then
          if p.kind != "scope" || p.site != "$job" then Err("missing whole-job ancestry")
          else if (Attempt, id) !in x.seen then Err("missing recorded whole-job attempt")
          else Ok(Ref(s.boundary, id, s.number, p.kind, p.site, "", id))
        else
          PartsShrink(id);
          var owner := OwnerOf(x, p.parent);
          if owner.Ambiguous? then Err("ambiguous handler ancestry")
          else
            match Reference(x, if owner.OneOwner? then owner.attempt else p.parent)
            case Err(e) => Err(e)
            case Ok(a) => Ok(Ref(s.boundary, id, s.number, p.kind, p.site, a.boundary, a.jobAttempt))
  }

  // ---- second pass: evidence -------------------------------------------------------------------

  datatype Evidence = Evidence(ref: Ref, result: Option<Record>, selection: Option<Record>, handled: Option<Record>,
                               decision: Option<Record>)

  datatype Ledger = Ledger(evidence: map<string, Evidence>, order: seq<string>)

  predicate IsEvidence(k: Kind) { k in {Result, Catch, Handled, Decision} }

  /** Why a record may not join the evidence for its attempt. */
  function Conflict(x: Index, e: Evidence, rec: Record): Option<string> {
    if rec.kind == Result then
      if e.selection.Some? || e.handled.Some? || e.decision.Some? then Some("result follows control") else None
    else if rec.kind == Catch then
      if e.handled.Some? || e.decision.Some? then Some("selection follows handling")
      else if e.ref.boundary in x.declarations && rec.rule != "" && rec.rule !in x.declarations[e.ref.boundary].rules
      then Some("selected undeclared rule")
      else None
    else if rec.kind == Handled then
      if e.decision.Some? then Some("handled follows decision")
      else if rec.disposition == NoDisposition then Some("handled disposition missing")
      else if e.selection.Some? && (e.selection.value.rule == "" || e.selection.value.errorKind != NoError)
      then Some("handled without selected rule")
      else None
    else
      if rec.disposition == NoDisposition then Some("decision disposition missing")
      else if e.handled.Some? && e.handled.value.errorKind == NoError && rec.retry
           then Some("retry after successful handling")
      else if e.selection.Some? && e.selection.value.errorKind != NoError && rec.disposition != Propagate
      then Some("predicate failure disposition mismatch")
      else if e.selection.Some? && e.selection.value.rule != "" && e.handled.None?
           then Some("decision before selected handling")
      else if e.handled.Some? && rec.disposition != e.handled.value.disposition then Some("conflicting disposition")
      else if rec.retry && (rec.disposition == Propagate || rec.wakeAt == ZERO_TIME) then Some("invalid retry decision")
      else None
  }

  function Enter(e: Evidence, rec: Record): Evidence {
    match rec.kind
    case Result => e.(result := Some(rec))
    case Catch => e.(selection := Some(rec))
    case Handled => e.(handled := Some(rec))
    case _ => e.(decision := Some(rec))
  }

  function LedgerStep(x: Index, l: Ledger, rec: Record): Outcome<Ledger> {
    if !IsEvidence(rec.kind) then Ok(l)
    else if rec.kind != Result && (Attempt, rec.id) !in x.seen && (Result, rec.id) !in x.seen then Err("orphan record")
    else
      var known := rec.id in l.evidence;
      var found := if known then Ok(l.evidence[rec.id].ref) else Reference(x, rec.id);
      match found
      case Err(e) => Err(e)
      case Ok(ref) =>
        var e := if known then l.evidence[rec.id] else Evidence(ref, None, None, None, None);
        match Conflict(x, e, rec)
        case Some(why) => Err(why)
        case None => Ok(Ledger(l.evidence[rec.id := Enter(e, rec)], if known then l.order else l.order + [rec.id]))
  }

  function LedgerOf(x: Index, entries: seq<Record>): Outcome<Ledger> {
    if entries == [] then Ok(Ledger(map[], []))
    else
      match LedgerOf(x, entries[..|entries| - 1])
      case Err(e) => Err(e)
      case Ok(l) => LedgerStep(x, l, entries[|entries| - 1])
  }

  // ---- third pass: rows ----------------------------------------------------------------------------

  datatype Selection = Selected | Unmatched | PredicateError | UnknownSelection
  datatype Handling = AcceptedHandling | PendingHandling | NotApplicable | UnknownHandling
  datatype Failure = Failure(kind: ErrorKind, data: Json)
  datatype Accepted = Accepted(disposition: Disposition, output: Option<Snapshot>, failure: Option<Failure>)
  datatype Decided = Decided(retry: bool, wakeAt: Option<Time>)

  datatype Row = Row(ref: Ref, original: Option<Failure>, selection: Selection, rule: string,
                     predicateError: Option<Failure>,
                     handling: Handling, accepted: Option<Accepted>, retry: Option<Decided>)

  function FailureOf(rec: Record): Option<Failure> {
    if rec.errorKind == NoError then None else Some(Failure(rec.errorKind, rec.error))
  }

  function SelectionOf(e: Evidence): Selection {
    if e.selection.None? then UnknownSelection
    else if e.selection.value.errorKind != NoError then PredicateError
    else if e.selection.value.rule != "" then Selected
    else Unmatched
  }

  /** A declaration can prove that there was nothing to catch or retry. */
  predicate FastPath(x: Index, boundary: string) {
    boundary in x.declarations && x.declarations[boundary].rules == [] && x.declarations[boundary].maximumAttempts == 1
  }

  function HandlingOf(x: Index, e: Evidence): Handling {
    if e.handled.Some? then AcceptedHandling
    else
      match SelectionOf(e)
      case Selected => PendingHandling
      case UnknownSelection => if FastPath(x, e.ref.boundary) then NotApplicable else UnknownHandling
      case _ => NotApplicable
  }

  function RowOf(x: Index, e: Evidence): Row {
    var sel := SelectionOf(e);
    Row(e.ref,
        if e.result.Some? then FailureOf(e.result.value) else None,
        sel,
        if sel == Selected then e.selection.value.rule else "",
        if sel == PredicateError then FailureOf(e.selection.value) else None,
        HandlingOf(x, e),
        if e.handled.None? then None
        else Some(Accepted(e.handled.value.disposition, e.handled.value.output, FailureOf(e.handled.value))),
        if e.decision.None? then None
        else
          var d := e.decision.value;
          Some(Decided(d.retry, if d.retry && d.wakeAt != ZERO_TIME then Some(d.wakeAt) else None)))
  }

  predicate Succeeded(e: Evidence) { e.result.Some? && e.result.value.errorKind == NoError }

  /** Facts that contradict each other once all evidence is in. */
  function Contradiction(e: Evidence): Option<string> {
    if Succeeded(e) then
      if e.selection.Some? || e.handled.Some?
         || e.decision.Some? then Some("failure control for successful attempt") else None
    else if e.selection.Some? && e.selection.value.errorKind != NoError && e.selection.value.rule != ""
    then Some("predicate error also selected rule")
    else None
  }

  function RowsOf(x: Index, l: Ledger, order: seq<string>): Outcome<seq<Row>> {
    if order == [] then Ok([])
    else
      match RowsOf(x, l, order[..|order| - 1])
      case Err(e) => Err(e)
      case Ok(rows) =>
        var id := order[|order| - 1];
        if id !in l.evidence then Err("no evidence")
        else
          match Contradiction(l.evidence[id])
          case Some(why) => Err(why)
          case None => Ok(if Succeeded(l.evidence[id]) then rows else rows + [RowOf(x, l.evidence[id])])
  }

  /** `projectCatchHistory`. */
  function Project(entries: seq<Record>): Outcome<seq<Row>> {
    match IndexOf(entries)
    case Err(e) => Err(e)
    case Ok(x) =>
      match LedgerOf(x, entries)
      case Err(e) => Err(e)
      case Ok(l) => RowsOf(x, l, l.order)
  }
}

/** Boundary policies, and the descriptors that record them. */
module Policies {
  import opened Text
  import opened JsonText
  import opened Records

  /** `others` holds the retry settings besides the attempt limit. */
  datatype Policy = Policy(totalTimeout: int, attemptTimeout: int, maximumAttempts: int, others: map<string, Json>,
                           rules: seq<string>, restart: bool)

  // ---- writing -----------------------------------------------------------------------

  function Strings(ss: seq<string>): seq<Json> {
    if ss == [] then [] else [Str(ss[0])] + Strings(ss[1..])
  }

  /** `json.Marshal` of a policy; empty rules and a false restart are left out. */
  function PolicyJson(p: Policy): Json {
    var base := map["total_timeout" := Number(PrintInt(p.totalTimeout)),
                    "attempt_timeout" := Number(PrintInt(p.attemptTimeout)),
                    "retry" := Object(p.others["MaximumAttempts" := Number(PrintInt(p.maximumAttempts))])];
    var ruled := if p.rules == [] then base else base["rules" := Array(Strings(p.rules))];
    Object(if p.restart then ruled["restart" := Bool(true)] else ruled)
  }

  function ScopeDescriptor(p: Policy): Descriptor { Tree(PolicyJson(p)) }

  /** A task's descriptor records its call, too. */
  function TaskDescriptor(site: string, call: map<string, Json>, p: Policy): Descriptor {
    Tree(Object(map["call" := Object(call["site" := Str(site)]), "policy" := PolicyJson(p)]))
  }

  // ---- reading -----------------------------------------------------------------------

  /** A missing or null member leaves the zero value. */
  function Member(fields: map<string, Json>, name: string): Json {
    if name in fields then fields[name] else Null
  }

  function ReadInt(v: Json): Option<int> {
    match v
    case Null => Some(0)
    case Number(text) => if PrintInt(ParseInt(text)) == text then Some(ParseInt(text)) else None
    case _ => None
  }

  function ReadString(v: Json): Option<string> {
    match v
    case Null => Some("")
    case Str(s) => Some(s)
    case _ => None
  }

  function ReadBool(v: Json): Option<bool> {
    match v
    case Null => Some(false)
    case Bool(b) => Some(b)
    case _ => None
  }

  function ReadStrings(vs: seq<Json>): Option<seq<string>> {
    if vs == [] then Some([])
    else
      match (ReadString(vs[0]), ReadStrings(vs[1..]))
      case (Some(s), Some(ss)) => Some([s] + ss)
      case _ => None
  }

  function ReadList(v: Json): Option<seq<string>> {
    match v
    case Null => Some([])
    case Array(items) => ReadStrings(items)
    case _ => None
  }

  function ReadObject(v: Json): Option<map<string, Json>> {
    match v
    case Null => Some(map[])
    case Object(fields) => Some(fields)
    case _ => None
  }

  function ReadPolicy(v: Json): Option<Policy> {
    match ReadObject(v)
    case None => None
    case Some(f) =>
      match ReadObject(Member(f, "retry"))
      case None => None
      case Some(retry) =>
        match (ReadInt(Member(f, "total_timeout")), ReadInt(Member(f, "attempt_timeout")),
               ReadInt(Member(retry, "MaximumAttempts")),
               ReadList(Member(f, "rules")), ReadBool(Member(f, "restart")))
        case (Some(total), Some(attempt), Some(maximum), Some(rules), Some(restart)) =>
          Some(Policy(total, attempt, maximum, retry - {"MaximumAttempts"}, rules, restart))
        case _ => None
  }

  function PolicyOf(d: Descriptor): Option<Policy> {
    if d.Tree? then ReadPolicy(d.value) else None
  }

  datatype TaskPolicy = TaskPolicy(site: string, policy: Policy)

  function TaskOf(d: Descriptor): Option<TaskPolicy> {
    if !d.Tree? then None
    else
      match ReadObject(d.value)
      case None => None
      case Some(f) =>
        match ReadObject(Member(f, "call"))
        case None => None
        case Some(call) =>
          match (ReadString(Member(call, "site")), ReadPolicy(Member(f, "policy")))
          case (Some(site), Some(p)) => Some(TaskPolicy(site, p))
          case _ => None
  }

  // ---- reading undoes writing ------------------------------------------------------------

  lemma {:induction false} ReadPrintedInt(i: int)
    ensures ReadInt(Number(PrintInt(i))) == Some(i)
  {
    PrintIntShape(i);
  }

  lemma {:induction false} ReadWrittenStrings(ss: seq<string>)
    ensures ReadStrings(Strings(ss)) == Some(ss)
  {
    if ss != [] {
      ReadWrittenStrings(ss[1..]);
      assert Strings(ss)[1..] == Strings(ss[1..]);
      assert [ss[0]] + ss[1..] == ss;
    }
  }

  lemma {:induction false} PolicyRoundTrip(p: Policy)
    requires "MaximumAttempts" !in p.others
    ensures ReadPolicy(PolicyJson(p)) == Some(p)
  {
    hide PrintInt, ParseInt, ReadStrings, Strings, ReadInt;
    ReadPrintedInt(p.totalTimeout);
    ReadPrintedInt(p.attemptTimeout);
    ReadPrintedInt(p.maximumAttempts);
    ReadWrittenStrings(p.rules);
    var retry := p.others["MaximumAttempts" := Number(PrintInt(p.maximumAttempts))];
    assert retry - {"MaximumAttempts"} == p.others;
  }

  /** What a boundary declared is what a reader of its record finds. */
  lemma {:induction false} DescriptorRoundTrip(site: string, call: map<string, Json>, p: Policy)
    requires "MaximumAttempts" !in p.others
    ensures PolicyOf(ScopeDescriptor(p)) == Some(p)
    ensures TaskOf(TaskDescriptor(site, call, p)) == Some(TaskPolicy(site, p))
  {
    hide ReadPolicy, PolicyJson;
    PolicyRoundTrip(p);
  }
}

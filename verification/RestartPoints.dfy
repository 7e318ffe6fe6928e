/** Where a restart cuts a job's history: before the first record of its target,
    so that what is kept is exactly the history the target was reached by. */
module RestartPoints {
  import opened Text
  import opened Records
  import opened History
  import opened Executors
  import opened Durability

  predicate Declares(r: Record, target: string) { r.kind in {Scope, Task} && r.id == target }

  predicate Belongs(r: Record, target: string) { r.kind in {Continuation, Scope, Task} && r.id == target }

  /** The records the resolver walks through in one chapter, before its own. */
  function Listed(c: Chapter): seq<Record> {
    if !c.Execution? then []
    else if c.record.kind == Restart && c.record.descriptor.Retained? then c.record.descriptor.records
    else c.prefix
  }

  /** The first record of the target, or the end of the list. */
  function FirstOf(rs: seq<Record>, target: string): (i: nat)
    ensures i <= |rs| && (i < |rs| ==> Belongs(rs[i], target))
    ensures forall k :: 0 <= k < i ==> !Belongs(rs[k], target)
  {
    if rs == [] || Belongs(rs[0], target) then 0 else 1 + FirstOf(rs[1..], target)
  }

  /** How many times the target is declared. */
  function Declarations(rs: seq<Record>, target: string): nat {
    if rs == [] then 0 else Declarations(rs[..|rs| - 1], target) + if Declares(rs[|rs| - 1], target) then 1 else 0
  }

  function AllDeclarations(cs: seq<Chapter>, target: string): nat {
    if cs == [] then 0 else AllDeclarations(cs[..|cs| - 1], target) + Declarations(Listed(cs[|cs| - 1]), target)
  }

  /** The chapter a restart replaces, and what it retains of it. */
  datatype Cut = NoCut | Cut(chapter: nat, retained: seq<Record>)

  predicate CutHere(c: Chapter, target: string) {
    FirstOf(Listed(c), target) < |Listed(c)| || (c.Execution? && c.record.kind == Continuation && c.record.id == target)
  }

  /** The first chapter with a record of the target. */
  function CutIn(cs: seq<Chapter>, target: string): (cut: Cut)
    ensures cut.NoCut? ==> forall i :: 0 <= i < |cs| ==> !CutHere(cs[i], target)
    ensures cut.Cut? ==>
              && cut.chapter < |cs| && CutHere(cs[cut.chapter], target)
              && cut.retained == Listed(cs[cut.chapter])[..FirstOf(Listed(cs[cut.chapter]), target)]
              && forall i :: 0 <= i < cut.chapter ==> !CutHere(cs[i], target)
  {
    if cs == [] then NoCut
    else if CutHere(cs[0], target) then Cut(0, Listed(cs[0])[..FirstOf(Listed(cs[0]), target)])
    else
      var rest := CutIn(cs[1..], target);
      if rest.NoCut? then NoCut else Cut(rest.chapter + 1, rest.retained)
  }

  function RestartMark(target: string, retained: seq<Record>, source: JobKey): Record {
    Blank(Restart, target).(source := Some(source), descriptor := Retained(retained))
  }

  /** `ResolveExecutionRestart`: the log of the restarted job, unless the target
      is not declared exactly once or the history has no header. */
  function RestartAt(store: seq<Chapter>, target: string, source: JobKey): Option<seq<Chapter>> {
    var cut := CutIn(store, target);
    if target == "" || !(exists i :: 0 <= i < |store| && store[i].Execution? && store[i].record.kind == Header)
       || AllDeclarations(store, target) != 1 || cut.NoCut?
    then None
    else Some(store[..cut.chapter] + [Execution(RestartMark(target, cut.retained, source), [])])
  }

  // ---- what is kept -----------------------------------------------------------------------------------

  /** Records of scopes and tasks ride in the prefixes of other records. */
  ghost predicate InPrefixes(store: seq<Chapter>, target: string) {
    forall i :: 0 <= i < |store| ==>
      match store[i]
      case JobStart => true
      case Execution(r, _) => !Declares(r, target)
      case JobOutcome(prefix, _) => forall r :: r in prefix ==> !Belongs(r, target)
  }

  lemma {:induction false} FirstVisible(rs: seq<Record>, target: string)
    requires FirstOf(rs, target) < |rs|
    ensures var i := FirstOf(rs, target);
            Visible(rs[..i]) + [rs[i]] <= Visible(rs)
  {
    hide FirstOf;
    var i := FirstOf(rs, target);
    assert rs == rs[..i + 1] + rs[i + 1..] && rs[..i + 1][..i] == rs[..i];
    VisibleConcat(rs[..i + 1], rs[i + 1..]);
  }

  /** The kept part of the cut chapter, and the record of the target after it. */
  lemma {:induction false} CutChapter(c: Chapter, target: string)
    requires CutHere(c, target)
    ensures var kept := Listed(c)[..FirstOf(Listed(c), target)];
            && kept < Expand(c) && Belongs(Expand(c)[|kept|], target)
            && Visible(kept) <= Visible(Expand(c)) && |Visible(kept)| < |Visible(Expand(c))|
            && Belongs(Visible(Expand(c))[|Visible(kept)|], target)
  {
    hide FirstOf, Visible;
    var rs, i := Listed(c), FirstOf(Listed(c), target);
    assert Expand(c) == rs + [c.record];
    VisibleConcat(rs, [c.record]);
    if i < |rs| {
      FirstVisible(rs, target);
    } else {
      assert rs[..i] == rs;
      OneVisible(c.record);
    }
  }

  lemma {:induction false} OneVisible(r: Record)
    requires !EngineOnly(r.kind)
    ensures Visible([r]) == [r]
  {
    assert [r][..0] == [];
  }

  lemma {:induction false} VisibleMembers(rs: seq<Record>, r: Record)
    requires r in Visible(rs)
    ensures r in rs
  {
    if rs != [] {
      var n := |rs| - 1;
      if r in Visible(rs[..n]) { VisibleMembers(rs[..n], r); }
    }
  }

  lemma {:induction false} NoneBefore(cs: seq<Chapter>, target: string)
    requires InPrefixes(cs, target) && forall i :: 0 <= i < |cs| ==> !CutHere(cs[i], target)
    ensures forall r :: r in VisibleLog(cs) ==> !Belongs(r, target)
  {
    hide Belongs, Visible, VisibleLog, FirstOf;
    if cs == [] {
      EmptyLog();
    } else {
      var n := |cs| - 1;
      NoneBefore(cs[..n], target);
      assert cs == cs[..n] + [cs[n]];
      VisibleLogSnoc(cs[..n], cs[n]);
      forall r | r in Visible(Expand(cs[n])) ensures !Belongs(r, target) {
        VisibleMembers(Expand(cs[n]), r);
        NotHere(cs[n], target, r);
      }
    }
  }

  lemma {:induction false} NotHere(c: Chapter, target: string, r: Record)
    requires InPrefixes([c], target) && !CutHere(c, target) && r in Expand(c)
    ensures !Belongs(r, target)
  {
    assert [c][0] == c;
    if c.Execution? {
      assert Expand(c) == Listed(c) + [c.record];
    }
  }

  /** A restart keeps exactly the history before its target: the records of the
      new log are those of the old one up to the first that belongs to the target. */
  lemma {:induction false} RestartKeepsHistoryBeforeTarget(store: seq<Chapter>, target: string, source: JobKey)
    requires RestartAt(store, target, source).Some?
    ensures var log, kept := VisibleLog(store), VisibleLog(RestartAt(store, target, source).value);
            && kept < log && Belongs(log[|kept|], target)
            && (InPrefixes(store, target) ==> forall r :: r in kept ==> !Belongs(r, target))
  {
    hide Belongs, Visible, VisibleLog, FirstOf, CutIn, Listed, InPrefixes, Expand, CutHere;
    var cut := CutIn(store, target);
    var n, c := cut.chapter, store[cut.chapter];
    CutChapter(c, target);
    LogsAroundCut(store, n, cut.retained, target, source);
    var before, kept, whole := VisibleLog(store[..n]), Visible(cut.retained), Visible(Expand(c));
    assert VisibleLog(store)[|before + kept|] == whole[|kept|];
    if InPrefixes(store, target) {
      KeptAreOthers(store, n, target);
    }
  }

  lemma {:induction false} LogsAroundCut(store: seq<Chapter>, n: nat, retained: seq<Record>, target: string,
                                         source: JobKey)
    requires n < |store|
    ensures VisibleLog(store[..n] + [Execution(RestartMark(target, retained, source),
                                               [])]) == VisibleLog(store[..n]) + Visible(retained)
    ensures VisibleLog(store) == VisibleLog(store[..n]) + Visible(Expand(store[n])) + VisibleLog(store[n + 1..])
  {
    hide Visible, VisibleLog, Expand;
    var mark, c := RestartMark(target, retained, source), store[n];
    VisibleLogSnoc(store[..n], Execution(mark, []));
    MarkExpands(mark, retained);
    assert store == store[..n] + [c] + store[n + 1..];
    VisibleLogConcat(store[..n] + [c], store[n + 1..]);
    VisibleLogSnoc(store[..n], c);
  }

  lemma {:induction false} MarkExpands(mark: Record, retained: seq<Record>)
    requires mark.kind == Restart && mark.descriptor == Retained(retained)
    ensures Expand(Execution(mark, [])) == retained + [mark] && Visible(retained + [mark]) == Visible(retained)
  {
    assert (retained + [mark])[..|retained|] == retained;
  }

  lemma {:induction false} KeptAreOthers(store: seq<Chapter>, n: nat, target: string)
    requires InPrefixes(store, target) && n < |store| && CutHere(store[n], target)
    requires forall i :: 0 <= i < n ==> !CutHere(store[i], target)
    ensures forall r ::
              r in VisibleLog(store[..n]) + Visible(Listed(store[n])[..FirstOf(Listed(store[n]), target)]) ==>
                    !Belongs(r, target)
  {
    hide Belongs, Visible, VisibleLog, CutHere;
    assert InPrefixes(store[..n], target);
    NoneBefore(store[..n], target);
    var kept := Listed(store[n])[..FirstOf(Listed(store[n]), target)];
    forall r | r in Visible(kept) ensures !Belongs(r, target) { VisibleMembers(kept, r); }
  }

  /** The restarted job's log is again a legal run of the orchestration. */
  lemma {:induction false} RestartedLogIsLegal(o: Orchestration, origin: seq<Chapter>, store: seq<Chapter>,
                                               target: string, source: JobKey)
    requires StoreOk(o, origin, store) && RestartAt(store, target, source).Some? && source.tenant != ""
             && source.job != ""
    ensures var made := RestartAt(store, target, source).value;
            && StoreOk(o, made, made) && LastRestart(made) == Some(target)
               && RestartIds(made) == RestartIds(store[..|made| - 1]) + {target}
  {
    hide Belongs, Visible, VisibleLog, FirstOf, CutIn, Listed, Legal, HeaderFirst, AllAcceptable, CutHere,
         Acceptable, ExpandAll, RestartMark, Expand;
    var made, cut := RestartAt(store, target, source).value, CutIn(store, target);
    var n, mark := cut.chapter, RestartMark(target, cut.retained, source);
    RestartKeepsHistoryBeforeTarget(store, target, source);
    assert VisibleLog(made) == VisibleLog(store)[..|VisibleLog(made)|];
    LegalPrefix(o, VisibleLog(store), |VisibleLog(made)|);
    MarkFits(target, cut.retained, source);
    RecordsAroundCut(store, n, cut.retained, target, source);
    KeepsHeader(ExpandAll(store), ExpandAll(store[..n]) + cut.retained, mark, target);
    assert made[..n] == store[..n] && made[..|made|] == made;
  }

  lemma {:induction false} RecordsAroundCut(store: seq<Chapter>, n: nat, retained: seq<Record>, target: string,
                                            source: JobKey)
    requires n < |store| && CutHere(store[n], target)
             && retained == Listed(store[n])[..FirstOf(Listed(store[n]), target)]
    ensures var kept, mark := ExpandAll(store[..n]) + retained, RestartMark(target, retained, source);
            && ExpandAll(store[..n] + [Execution(mark, [])]) == kept + [mark]
            && kept < ExpandAll(store) && Belongs(ExpandAll(store)[|kept|], target)
  {
    hide Belongs, Visible, VisibleLog, FirstOf, Listed, CutHere, ExpandAll, Expand;
    var mark, c := RestartMark(target, retained, source), store[n];
    CutChapter(c, target);
    VisibleLogSnoc(store[..n], Execution(mark, []));
    MarkExpands(mark, retained);
    assert store == store[..n] + [c] + store[n + 1..];
    ExpandAllConcat(store[..n] + [c], store[n + 1..]);
    VisibleLogSnoc(store[..n], c);
    var kept, all := ExpandAll(store[..n]) + retained, ExpandAll(store);
    assert all[|kept|] == Expand(c)[|retained|];
  }

  lemma {:induction false} MarkFits(target: string, retained: seq<Record>, source: JobKey)
    requires target != "" && source.tenant != "" && source.job != ""
    ensures var mark := RestartMark(target, retained, source);
            Acceptable(mark) && mark.kind == Restart && mark.id == target && mark.descriptor == Retained(retained)
  {
  }

  lemma {:induction false} KeepsHeader(all: seq<Record>, kept: seq<Record>, mark: Record, target: string)
    requires HeaderFirst(all) && AllAcceptable(all) && kept < all && Belongs(all[|kept|], target)
             && mark.kind == Restart && Acceptable(mark)
    ensures HeaderFirst(kept + [mark]) && AllAcceptable(kept + [mark])
  {
    hide Acceptable;
    assert all[0].kind == Header;
    forall i | 0 <= i < |kept| ensures kept[i] == all[i] && kept[i] in all {}
  }
}

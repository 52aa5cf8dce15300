/** The statements the builder writes for the statements of a body: it drops what
    cannot run and keeps what the rest means (export/bodybuild.go). */
module DeadCode {
  import opened Wrappers
  import opened Conditions
  import opened Statements

  // ----- What cannot fall through -----

  function LastNonEmpty(list: seq<Stmt>): (r: Option<Stmt>)
    ensures r.Some? ==> r.value in list
  {
    if list == [] then None
    else if list[|list| - 1].Empty? then LastNonEmpty(list[..|list| - 1])
    else Some(list[|list| - 1])
  }

  predicate Terminates(st: Stmt)
    decreases st, 0
  {
    match st
    case Goto(_) => true
    case Return(_) => true
    case Panic(_) => true
    case If(_, cond, thn, els) =>
      (Sign(cond) < 0 || (thn.Written? && EndsDead(thn.list))) && (Sign(cond) > 0 || (els.Written? && EndsDead(els.list)))
    case Block(list) => EndsDead(list)
    case _ => false
  }

  predicate EndsDead(list: seq<Stmt>)
    decreases list, 1
  {
    var last := LastNonEmpty(list);
    last.Some? && Terminates(last.value)
  }

  predicate HasLabel(list: seq<Stmt>) { exists i :: 0 <= i < |list| && list[i].Labeled? }

  // ----- Switches on a constant -----

  predicate HasFallthrough(list: seq<Stmt>) { LastNonEmpty(list).Some? && Unlabeled(LastNonEmpty(list).value).Fallthrough? }

  function Unlabeled(st: Stmt): Stmt { if st.Labeled? then Unlabeled(st.stmt) else st }

  predicate IsKnown(cases: seq<Case>) { forall c <- cases :: c.Known? }

  /** The clauses a switch on a constant is rewritten to, or None when a case or a
      fallthrough defeats it. */
  function Fold(clauses: seq<Clause>, tag: nat): Option<seq<Clause>> {
    var i := FoldTarget(clauses, tag, 0);
    if i.None? then None
    else if i.value == |clauses| then Some([])
    else if HasFallthrough(clauses[i.value].body) then None
    else Some([Clause(true, [], clauses[i.value].body)])
  }

  /** The first clause with a case equal to the tag, and the default when there is
      none; None when a case before it is not a constant. */
  function FoldTarget(clauses: seq<Clause>, tag: nat, i: nat): (r: Option<nat>)
    requires i <= |clauses|
    ensures r.Some? ==> r.value <= |clauses|
    decreases |clauses| - i
  {
    if i == |clauses| then Some(Default(clauses, 0))
    else if Matches(clauses[i].cases, tag).None? then None
    else if Matches(clauses[i].cases, tag).value then Some(i)
    else FoldTarget(clauses, tag, i + 1)
  }

  function Matches(cases: seq<Case>, tag: nat): Option<bool> {
    if cases == [] then Some(false)
    else if cases[0].Computed? then None
    else if cases[0].value == tag then Some(true)
    else Matches(cases[1..], tag)
  }

  function TagValue(tag: Tag): Option<nat> {
    if tag.NoTag? then Some(TRUE) else if tag.value.Known? then Some(tag.value.value) else None
  }

  // ----- What is written -----

  function Simples(ids: seq<nat>): seq<Stmt> { seq(|ids|, i requires 0 <= i < |ids| => Simple(ids[i])) }

  function Built(st: Stmt): seq<Stmt>
    decreases st, 0
  {
    match st
    case Empty => []
    case Declares(ids) => Simples(ids)
    case Labeled(name, inner) => [Mark(name)] + Built(inner)
    case Block(list) => [Block(BuiltList(list))]
    case If(init, cond, thn, els) =>
      [If(BuiltList(init), Rewritten(cond),
          if Sign(cond) >= 0 && thn.Written? then Written(BuiltList(thn.list)) else Unwritten,
          if Sign(cond) <= 0 && els.Written? then Written(BuiltList(els.list)) else Unwritten)]
    case For(init, test, post, list) =>
      if test.Some? && Sign(test.value) < 0 then [For(BuiltList(init), Some(Rewritten(test.value)), [], [])]
      else
        [For(BuiltList(init), if test.Some? then Some(Rewritten(test.value)) else None, BuiltList(post), BuiltList(list))]
    case Range(id, list) => [Range(id, BuiltList(list))]
    case Switch(init, tag, clauses) =>
      [if TagValue(tag).Some? && Fold(clauses, TagValue(tag).value).Some? then
         Switch(BuiltList(init), NoTag, Folded(clauses, TagValue(tag).value))
       else Switch(BuiltList(init), tag, BuiltClauses(clauses))]
    case Choose(id, clauses) => [Choose(id, BuiltClauses(clauses))]
    case _ => [st]
  }

  /** The clause that is left, built. */
  function Folded(clauses: seq<Clause>, tag: nat): seq<Clause>
    requires Fold(clauses, tag).Some?
    decreases clauses, 0
  {
    var i := FoldTarget(clauses, tag, 0).value;
    if i == |clauses| then [] else [Clause(true, [], BuiltList(clauses[i].body))]
  }

  function BuiltClauses(clauses: seq<Clause>): (r: seq<Clause>)
    ensures |r| == |clauses|
    ensures forall i :: 0 <= i < |clauses| ==>
      r[i] == Clause(clauses[i].isDefault, clauses[i].cases, BuiltList(clauses[i].body))
    decreases clauses, 0
  {
    if clauses == [] then []
    else [Clause(clauses[0].isDefault, clauses[0].cases, BuiltList(clauses[0].body))] + BuiltClauses(clauses[1..])
  }

  /** What follows a statement that cannot fall through is dropped, unless a label
      stands in what follows. */
  function BuiltList(list: seq<Stmt>): seq<Stmt>
    decreases list, 1
  {
    if list == [] then []
    else Built(list[0]) + if Terminates(list[0]) && !HasLabel(list[1..]) then [] else BuiltList(list[1..])
  }

  // ----- What the checker accepts -----

  /** No break, continue or fallthrough in the statement ends it this way. */
  predicate Avoids(st: Stmt, r: End)
    decreases st, 0
  {
    match st
    case Break(at) => r != Breaks(at)
    case Continue(at) => r != Continues(at)
    case Fallthrough => r != Falls
    case Labeled(_, inner) => Avoids(inner, r)
    case Block(list) => AllAvoid(list, r)
    case If(init, _, thn, els) =>
      AllAvoid(init, r) && (thn.Written? ==> AllAvoid(thn.list, r)) && (els.Written? ==> AllAvoid(els.list, r))
    case For(init, _, post, list) => AllAvoid(init, r) && AllAvoid(post, r) && AllAvoid(list, r)
    case Range(_, list) => AllAvoid(list, r)
    case Switch(init, _, clauses) => AllAvoid(init, r) && (r != Falls ==> ClausesAvoid(clauses, r))
    case Choose(_, clauses) => ClausesAvoid(clauses, r)
    case _ => true
  }

  predicate AllAvoid(list: seq<Stmt>, r: End)
    decreases list, 1
  {
    forall i :: 0 <= i < |list| ==> Avoids(list[i], r)
  }

  predicate ClausesAvoid(clauses: seq<Clause>, r: End)
    decreases clauses, 1
  {
    forall i :: 0 <= i < |clauses| ==> AllAvoid(clauses[i].body, r)
  }

  predicate Names(st: Stmt, name: LabelName) { st.Labeled? && (st.name == name || Names(st.stmt, name)) }

  /** No break and no continue of the statement is to this label. */
  predicate Ignores(st: Stmt, lab: Option<LabelName>) { lab.Some? ==> Avoids(st, Breaks(lab)) && Avoids(st, Continues(lab)) }

  predicate AllIgnore(list: seq<Stmt>, lab: Option<LabelName>) { forall i :: 0 <= i < |list| ==> Ignores(list[i], lab) }

  /** A statement of the source that the checker accepts: a fallthrough ends its
      clause, and a label is broken from and continued to inside its statement only. */
  ghost predicate Checked(st: Stmt)
    decreases st, 0
  {
    match st
    case Mark(_) => false
    case Labeled(_, inner) => Checked(inner)
    case Block(list) => CheckedList(list)
    case If(init, cond, thn, els) =>
      Parsed(cond) && CheckedList(init) && thn.Written? && CheckedList(thn.list) && els.Written? && CheckedList(els.list)
    case For(init, test, post, list) =>
      (test.Some? ==> Parsed(test.value)) && CheckedList(init) && CheckedList(post) && CheckedList(list)
    case Range(_, list) => CheckedList(list)
    case Switch(init, _, clauses) =>
      CheckedList(init) && CheckedClauses(clauses)
      && forall i :: 0 <= i < |clauses| && !HasFallthrough(clauses[i].body) ==> AllAvoid(clauses[i].body, Falls)
    case Choose(_, clauses) => CheckedClauses(clauses)
    case _ => true
  }

  ghost predicate CheckedList(list: seq<Stmt>)
    decreases list, 1
  {
    && (forall i :: 0 <= i < |list| ==> Checked(list[i]))
    && (forall i, j, name :: 0 <= i < |list| && 0 <= j < |list| && i != j && Names(list[i], name) ==> Ignores(list[j], Some(name)))
  }

  ghost predicate CheckedClauses(clauses: seq<Clause>)
    decreases clauses, 1
  {
    forall i :: 0 <= i < |clauses| ==> CheckedList(clauses[i].body)
  }

  // ----- The loops -----

  method LastNonEmptyStmt(list: seq<Stmt>) returns (r: Option<Stmt>)
    ensures r == LastNonEmpty(list)
  {
    var i := |list|;
    assert list[..i] == list;
    while i > 0
      invariant i <= |list| && LastNonEmpty(list) == LastNonEmpty(list[..i])
    {
      i := i - 1;
      assert list[..i + 1][..i] == list[..i];
      if !list[i].Empty? { return Some(list[i]); }
    }
    r := None;
  }

  /** A list of statements: a statement after one that cannot fall through is
      dropped, but nothing in front of the last label is. */
  method BuildStmts(list: seq<Stmt>) returns (out: seq<Stmt>)
    ensures out == BuiltList(list)
  {
    var lastLabel := -1;
    for i := 0 to |list|
      invariant -1 <= lastLabel < i && (lastLabel >= 0 ==> list[lastLabel].Labeled?)
      invariant forall j :: lastLabel < j < i ==> !list[j].Labeled?
    {
      if list[i].Labeled? { lastLabel := i; }
    }
    out := [];
    var dead := false;
    assert list[0..] == list;
    for i := 0 to |list|
      invariant if dead && i > lastLabel then out == BuiltList(list) else out + BuiltList(list[i..]) == BuiltList(list)
    {
      if dead && i > lastLabel { continue; }
      assert list[i..][1..] == list[i + 1..];
      assert HasLabel(list[i + 1..]) <==> i < lastLabel by {
        if i < lastLabel { assert list[i + 1..][lastLabel - i - 1].Labeled?; }
      }
      out := out + Built(list[i]);
      dead := Terminates(list[i]);
    }
  }

  predicate OneDefault(clauses: seq<Clause>) {
    forall i, j :: 0 <= i < j < |clauses| ==> !clauses[i].isDefault || !clauses[j].isDefault
  }

  /** A switch on a constant is rewritten to the clause it always takes, unless a
      case or a fallthrough defeats it. */
  method FoldSwitch(clauses: seq<Clause>, tag: nat) returns (r: Option<seq<Clause>>)
    requires OneDefault(clauses)
    ensures r == Fold(clauses, tag)
  {
    var target: Option<nat> := None;
    var found := false;
    var i := 0;
    while i < |clauses| && !found
      invariant i <= |clauses| && (target.Some? ==> target.value < |clauses|)
      invariant found ==> FoldTarget(clauses, tag, 0) == target && target.Some?
      invariant !found ==> FoldTarget(clauses, tag, 0) == FoldTarget(clauses, tag, i)
      invariant !found ==> target == if Default(clauses[..i], 0) == i then None else Some(Default(clauses[..i], 0))
    {
      DefaultNext(clauses, i, 0);
      if clauses[i].isDefault { target := Some(i); }
      var cases := clauses[i].cases;
      var j := 0;
      while j < |cases| && !found
        invariant j <= |cases| && (!found ==> Matches(cases, tag) == Matches(cases[j..], tag))
        invariant found ==> Matches(cases, tag) == Some(true) && target == Some(i)
        invariant !found ==> target == if Default(clauses[..i + 1], 0) == i + 1 then None else Some(Default(clauses[..i + 1], 0))
      {
        if cases[j].Computed? { return None; }
        if cases[j].value == tag { target, found := Some(i), true; }
        j := j + 1;
      }
      i := i + 1;
    }
    assert clauses[..|clauses|] == clauses;
    if target.None? { return Some([]); }
    if HasFallthrough(clauses[target.value].body) { return None; }
    r := Some([Clause(true, [], clauses[target.value].body)]);
  }

  lemma {:induction false} DefaultNext(clauses: seq<Clause>, i: nat, k: nat)
    requires k <= i < |clauses| && OneDefault(clauses)
    ensures var d := Default(clauses[..i], k);
            Default(clauses[..i + 1], k) == if d < i then d else if clauses[i].isDefault then i else i + 1
    ensures Default(clauses[..i], k) < i ==> clauses[Default(clauses[..i], k)].isDefault
    decreases i - k
  {
    if k < i && !clauses[k].isDefault { DefaultNext(clauses, i, k + 1); }
  }
}

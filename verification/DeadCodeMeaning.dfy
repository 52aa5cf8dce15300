/** A body that the builder writes means what its source means. */
module DeadCodeMeaning {
  import opened Wrappers
  import opened Conditions
  import opened Statements
  import opened DeadCode
  import opened DeadCodeSound

  // ----- Sizes -----

  ghost function Size(st: Stmt): nat
    decreases st, 0
  {
    match st
    case Labeled(_, inner) => 1 + Size(inner)
    case Block(list) => 2 + SizeList(list)
    case If(init, _, thn, els) =>
      2 + SizeList(init) + (if thn.Written? then SizeList(thn.list) else 0) + (if els.Written? then SizeList(els.list) else 0)
    case For(init, _, post, list) => 2 + SizeList(init) + SizeList(post) + SizeList(list)
    case Range(_, list) => 2 + SizeList(list)
    case Switch(init, _, clauses) => 2 + SizeList(init) + SizeClauses(clauses)
    case Choose(_, clauses) => 2 + SizeClauses(clauses)
    case _ => 1
  }

  ghost function SizeList(list: seq<Stmt>): nat
    decreases list, 1
  {
    if list == [] then 0 else Size(list[0]) + SizeList(list[1..])
  }

  ghost function SizeClauses(clauses: seq<Clause>): nat
    decreases clauses, 1
  {
    if clauses == [] then 0 else SizeList(clauses[0].body) + SizeClauses(clauses[1..])
  }

  lemma {:induction false} SizeOfClause(clauses: seq<Clause>, i: nat)
    requires i < |clauses|
    ensures SizeList(clauses[i].body) <= SizeClauses(clauses)
  {
    if i > 0 { SizeOfClause(clauses[1..], i - 1); }
  }

  // ----- Labels of a built list -----

  lemma {:induction false} SimplesHaveNoTarget(ids: seq<nat>, rest: seq<Stmt>, to: LabelName)
    ensures Target(Simples(ids) + rest, to) == Target(rest, to)
  {
    if ids == [] {
      assert Simples(ids) + rest == rest;
    } else {
      assert (Simples(ids) + rest)[1..] == Simples(ids[1..]) + rest;
      SimplesHaveNoTarget(ids[1..], rest, to);
    }
  }

  lemma {:induction false} TargetInBuilt(st: Stmt, rest: seq<Stmt>, to: LabelName)
    requires Checked(st)
    ensures Target(Built(st) + rest, to) ==
            if At(st, to).Some? then Some(Built(At(st, to).value) + rest) else Target(rest, to)
  {
    match st
    case Empty => assert Built(st) + rest == rest;
    case Declares(ids) => SimplesHaveNoTarget(ids, rest, to);
    case Labeled(name, inner) =>
      assert Built(st) + rest == [Mark(name)] + (Built(inner) + rest);
      if name != to {
        TargetInBuilt(inner, rest, to);
      }
    case _ => assert (Built(st) + rest)[1..] == rest;
  }

  lemma {:induction false} NoLabelNoTarget(list: seq<Stmt>, to: LabelName)
    requires !HasLabel(list) && forall i :: 0 <= i < |list| ==> Checked(list[i])
    ensures Target(list, to).None?
  {
    if list != [] { NoLabelNoTarget(list[1..], to); }
  }

  /** A jump goes to the same place in the built list. */
  lemma {:induction false} TargetBuilt(list: seq<Stmt>, to: LabelName)
    requires CheckedList(list)
    ensures Target(BuiltList(list), to) ==
            if Target(list, to).Some? then Some(BuiltList(Target(list, to).value)) else None
  {
    if list != [] {
      var st, tail := list[0], list[1..];
      var dead := Terminates(st) && !HasLabel(tail);
      TargetInBuilt(st, if dead then [] else BuiltList(tail), to);
      if At(st, to).Some? {
        AtChecked(st, to);
        var target := [At(st, to).value] + tail;
        assert target[0] == At(st, to).value && target[1..] == tail;
      } else {
        if dead { NoLabelNoTarget(tail, to); }
        TargetBuilt(tail, to);
      }
    }
  }

  lemma {:induction false} AtIgnores(st: Stmt, to: LabelName, lab: Option<LabelName>)
    requires At(st, to).Some? && Ignores(st, lab)
    ensures Ignores(At(st, to).value, lab)
  {
    if st.Labeled? && st.name != to { AtIgnores(st.stmt, to, lab); }
  }

  lemma {:induction false} AtNames(st: Stmt, to: LabelName, name: LabelName)
    requires At(st, to).Some? && Names(At(st, to).value, name)
    ensures Names(st, name)
  {
    if st.Labeled? && st.name != to { AtNames(st.stmt, to, name); }
  }

  lemma {:induction false} TargetChecked(list: seq<Stmt>, to: LabelName)
    requires CheckedList(list) && Target(list, to).Some?
    ensures CheckedList(Target(list, to).value)
  {
    if At(list[0], to).Some? {
      AtChecked(list[0], to);
      var target := Target(list, to).value;
      forall i, j, name | 0 <= i < |target| && 0 <= j < |target| && i != j && Names(target[i], name)
        ensures Ignores(target[j], Some(name)) {
        if i == 0 { AtNames(list[0], to, name); }
        assert Names(list[i], name) && Ignores(list[j], Some(name));
        if j == 0 { AtIgnores(list[0], to, Some(name)); }
      }
    } else {
      TargetChecked(list[1..], to);
    }
  }

  // ----- Running what is built -----

  lemma {:induction false} SimplesRun(m: Machine, ids: seq<nat>, rest: seq<Stmt>, lab: Option<LabelName>, list: seq<Stmt>, s: State, fuel: nat)
    requires ids != []
    ensures RunList(m, Simples(ids) + rest, lab, list, s, fuel) ==
            var (r, s1) := ActAll(m, ids, s); if r == Normal then RunList(m, rest, None, list, s1, fuel) else (r, s1)
  {
    var all := Simples(ids) + rest;
    assert all[0] == Simple(ids[0]) && all[1..] == Simples(ids[1..]) + rest;
    var (r, s1) := Run(m, all[0], lab, s, fuel);
    if |ids| == 1 {
      assert Simples(ids[1..]) + rest == rest;
      assert ActAll(m, ids[1..], s1) == (Normal, s1);
    } else if r == Normal {
      SimplesRun(m, ids[1..], rest, None, list, s1, fuel);
    }
  }

  lemma ListIgnoresLabel(m: Machine, rest: seq<Stmt>, lab: Option<LabelName>, list: seq<Stmt>, s: State, fuel: nat)
    requires AllIgnore(rest, lab) && (rest != [] ==> !rest[0].Mark?)
    ensures RunList(m, rest, lab, list, s, fuel) == RunList(m, rest, None, list, s, fuel)
  {
    if rest != [] { LabelIgnored(m, rest[0], lab, s, fuel); }
  }

  /** Any part of a list that the checker accepts does what it did, under a label
      that concerns its first statement at most. */
  lemma {:induction false} BuiltListRuns(m: Machine, rest: seq<Stmt>, lab: Option<LabelName>, list: seq<Stmt>, s: State, fuel: nat)
    requires CheckedList(rest) && CheckedList(list) && (rest != [] ==> AllIgnore(rest[1..], lab))
    ensures RunList(m, BuiltList(rest), lab, BuiltList(list), s, fuel) == RunList(m, rest, lab, list, s, fuel)
    decreases fuel, SizeList(rest), 2
  {
    if rest != [] {
      assert rest == [rest[0]] + rest[1..];
      var keep := !(Terminates(rest[0]) && !HasLabel(rest[1..]));
      BuiltStep(m, rest[0], lab, rest[1..], keep, list, s, fuel);
    }
  }

  lemma {:induction false} BuiltStep(m: Machine, st: Stmt, lab: Option<LabelName>, tail: seq<Stmt>, keep: bool, list: seq<Stmt>, s: State, fuel: nat)
    requires CheckedList([st] + tail) && CheckedList(list) && AllIgnore(tail, lab) && (keep || Terminates(st))
    ensures RunList(m, Built(st) + if keep then BuiltList(tail) else [], lab, BuiltList(list), s, fuel)
            == RunList(m, [st] + tail, lab, list, s, fuel)
    decreases fuel, Size(st) + SizeList(tail), 1
  {
    var whole := [st] + tail;
    assert whole[0] == st && whole[1..] == tail && Checked(st);
    CheckedTail(whole);
    if st.Labeled? {
      CheckedInner(st, tail);
      BuiltStep(m, st.stmt, Some(st.name), tail, true, list, s, fuel);
      MarkStep(m, st, lab, tail, BuiltList(tail), list, BuiltList(list), s, fuel);
    } else if Built(st) == [] {
      assert Built(st) + BuiltList(tail) == BuiltList(tail);
      BuiltListRuns(m, tail, lab, list, s, fuel);
      ListIgnoresLabel(m, tail, lab, list, s, fuel);
    } else if st.Declares? {
      SimplesRun(m, st.ids, BuiltList(tail), lab, BuiltList(list), s, fuel);
      ActsEnd(m, st.ids, s);
      BuiltListRuns(m, tail, None, list, ActAll(m, st.ids, s).1, fuel);
    } else {
      BuiltRuns(m, st, lab, s, fuel);
      BuiltAfter(m, st, lab, tail, keep, list, s, fuel);
      var after := if keep then BuiltList(tail) else [];
      assert (Built(st) + after)[0] == Built(st)[0] && (Built(st) + after)[1..] == after;
    }
  }

  /** A mark in front of a statement labels it. */
  lemma MarkStep(m: Machine, st: Stmt, lab: Option<LabelName>, tail: seq<Stmt>, built: seq<Stmt>, list: seq<Stmt>, builtList: seq<Stmt>, s: State, fuel: nat)
    requires st.Labeled? && !st.stmt.Mark?
    ensures RunList(m, Built(st) + built, lab, builtList, s, fuel)
            == RunList(m, Built(st.stmt) + built, Some(st.name), builtList, s, fuel)
    ensures RunList(m, [st] + tail, lab, list, s, fuel) == RunList(m, [st.stmt] + tail, Some(st.name), list, s, fuel)
  {
    assert (Built(st) + built)[1..] == Built(st.stmt) + built;
    assert ([st] + tail)[1..] == tail && ([st.stmt] + tail)[1..] == tail;
  }

  /** What follows a statement that is built as one statement. */
  lemma {:induction false} BuiltAfter(m: Machine, st: Stmt, lab: Option<LabelName>, tail: seq<Stmt>, keep: bool, list: seq<Stmt>, s: State, fuel: nat)
    requires Checked(st) && CheckedList(tail) && CheckedList(list) && (keep || Terminates(st))
    ensures var (e, s1) := Run(m, st, lab, s, fuel);
            && (e == Normal ==> keep && RunList(m, BuiltList(tail), None, BuiltList(list), s1, fuel) == RunList(m, tail, None, list, s1, fuel))
            && (e.Jumps? ==> Target(BuiltList(list), e.to).Some? == Target(list, e.to).Some?)
            && (e.Jumps? && Target(list, e.to).Some? && fuel > 0 ==>
                  RunList(m, Target(BuiltList(list), e.to).value, None, BuiltList(list), s1, fuel - 1)
                  == RunList(m, Target(list, e.to).value, None, list, s1, fuel - 1))
    decreases fuel, Size(st) + SizeList(tail), 0
  {
    var (e, s1) := Run(m, st, lab, s, fuel);
    if e == Normal {
      if !keep { TerminatesIsRight(m, st, lab, s, fuel); }
      BuiltListRuns(m, tail, None, list, s1, fuel);
    } else if e.Jumps? {
      TargetBuilt(list, e.to);
      if Target(list, e.to).Some? && fuel > 0 {
        TargetChecked(list, e.to);
        BuiltListRuns(m, Target(list, e.to).value, None, list, s1, fuel - 1);
      }
    }
  }

  lemma CheckedTail(list: seq<Stmt>)
    requires CheckedList(list) && list != []
    ensures CheckedList(list[1..])
  {
    var tail := list[1..];
    forall i, j, name | 0 <= i < |tail| && 0 <= j < |tail| && i != j && Names(tail[i], name) ensures Ignores(tail[j], Some(name)) {
      assert Names(list[i + 1], name) && Ignores(list[j + 1], Some(name));
    }
  }

  lemma CheckedInner(st: Stmt, tail: seq<Stmt>)
    requires st.Labeled? && CheckedList([st] + tail)
    ensures CheckedList([st.stmt] + tail) && AllIgnore(tail, Some(st.name))
  {
    var list, inner := [st] + tail, [st.stmt] + tail;
    assert Checked(list[0]);
    forall i | 0 <= i < |inner| ensures Checked(inner[i]) { assert Checked(list[i]); }
    forall i, j, name | 0 <= i < |inner| && 0 <= j < |inner| && i != j && Names(inner[i], name) ensures Ignores(inner[j], Some(name)) {
      assert Names(list[i], name) && Ignores(list[j], Some(name));
    }
    forall i | 0 <= i < |tail| ensures Ignores(tail[i], Some(st.name)) {
      assert Names(list[0], st.name) && Ignores(list[i + 1], Some(st.name));
    }
  }

  /** One statement that is built as one statement. */
  lemma {:induction false} BuiltRuns(m: Machine, st: Stmt, lab: Option<LabelName>, s: State, fuel: nat)
    requires Checked(st) && !st.Empty? && !st.Declares? && !st.Labeled?
    ensures |Built(st)| == 1 && !Built(st)[0].Mark? && Run(m, Built(st)[0], lab, s, fuel) == Run(m, st, lab, s, fuel)
    decreases fuel, Size(st), 0
  {
    match st
    case Block(list) => BuiltListRuns(m, list, None, list, s, fuel);
    case If(_, _, _, _) => BuiltIfRuns(m, st, s, fuel);
    case For(init, _, _, _) =>
      BuiltListRuns(m, init, None, init, s, fuel);
      BuiltLoopRuns(m, st, lab, RunList(m, init, None, init, s, fuel).1, fuel);
    case Range(_, _) => BuiltLoopRuns(m, st, lab, s, fuel);
    case Switch(_, _, _) => BuiltSwitchRuns(m, st, lab, s, fuel);
    case Choose(id, clauses) =>
      var (i, s1) := m.choose(id, s);
      if i.Some? { BuiltClausesRun(m, st, Built(st)[0], i.value, lab, s1, fuel); }
    case _ =>
  }

  /** The arm that is not written is the one that never runs. */
  lemma {:induction false} BuiltIfRuns(m: Machine, st: Stmt, s: State, fuel: nat)
    requires st.If? && Checked(st)
    ensures Run(m, Built(st)[0], None, s, fuel) == Run(m, st, None, s, fuel)
    decreases fuel, Size(st) - 1
  {
    BuiltListRuns(m, st.init, None, st.init, s, fuel);
    var s1 := RunList(m, st.init, None, st.init, s, fuel).1;
    ParsedIsUndecided(st.cond);
    EvalIsRight(m, st.cond, s1);
    var s2 := Eval(m, st.cond, s1).1;
    BuiltListRuns(m, st.thn.list, None, st.thn.list, s2, fuel);
    BuiltListRuns(m, st.els.list, None, st.els.list, s2, fuel);
  }

  lemma {:induction false} BuiltLoopRuns(m: Machine, st: Stmt, lab: Option<LabelName>, s: State, fuel: nat)
    requires (st.For? || st.Range?) && Checked(st)
    ensures Loop(m, Built(st)[0], lab, s, fuel) == Loop(m, st, lab, s, fuel)
    decreases fuel, Size(st) - 1
  {
    var b := Built(st)[0];
    if st.For? && st.test.Some? {
      ParsedIsUndecided(st.test.value);
      EvalIsRight(m, st.test.value, s);
    }
    var (v, s1) := Test(m, st, s);
    assert Test(m, b, s) == (v, s1);
    if v == Some(true) {
      BuiltListRuns(m, st.list, None, st.list, s1, fuel);
      var (r, s2) := RunList(m, st.list, None, st.list, s1, fuel);
      if st.For? { BuiltListRuns(m, st.post, None, st.post, s2, fuel); }
      var s3 := if st.For? then RunList(m, st.post, None, st.post, s2, fuel).1 else s2;
      if fuel > 0 { BuiltLoopRuns(m, st, lab, s3, fuel - 1); }
    }
  }

  lemma {:induction false} BuiltClausesRun(m: Machine, st: Stmt, b: Stmt, i: nat, lab: Option<LabelName>, s: State, fuel: nat)
    requires (st.Switch? && b.Switch?) || (st.Choose? && b.Choose?)
    requires CheckedClauses(st.clauses) && b.clauses == BuiltClauses(st.clauses)
    ensures RunClauses(m, b, i, lab, s, fuel) == RunClauses(m, st, i, lab, s, fuel)
    decreases fuel, Size(st) - 1, 0, |st.clauses| - i
  {
    if i < |st.clauses| {
      SizeOfClause(st.clauses, i);
      var body := st.clauses[i].body;
      BuiltListRuns(m, body, None, body, s, fuel);
      BuiltClausesRun(m, st, b, i + 1, lab, RunList(m, body, None, body, s, fuel).1, fuel);
    }
  }

  // ----- Switches -----

  lemma {:induction false} MatchesIsSearch(m: Machine, cases: seq<Case>, tag: nat, s: State)
    requires Matches(cases, tag).Some?
    ensures Search(m, cases, tag, s) == (Matches(cases, tag), s)
  {
    if cases != [] && cases[0].value != tag { MatchesIsSearch(m, cases[1..], tag, s); }
  }

  /** The clause that is kept is the one the switch would take. */
  lemma {:induction false} FoldTargetIsSelected(m: Machine, clauses: seq<Clause>, tag: nat, s: State, i: nat)
    requires i <= |clauses| && FoldTarget(clauses, tag, i).Some?
    ensures Select(m, clauses, tag, s, i) == (FoldTarget(clauses, tag, i), s)
    decreases |clauses| - i
  {
    if i < |clauses| {
      MatchesIsSearch(m, clauses[i].cases, tag, s);
      if !Matches(clauses[i].cases, tag).value { FoldTargetIsSelected(m, clauses, tag, s, i + 1); }
    }
  }

  /** The cases and the default of the built clauses are the source's. */
  lemma {:induction false} SelectBuilt(m: Machine, clauses: seq<Clause>, tag: nat, s: State, i: nat)
    requires i <= |clauses|
    ensures Select(m, BuiltClauses(clauses), tag, s, i) == Select(m, clauses, tag, s, i)
    decreases |clauses| - i
  {
    if i == |clauses| {
      DefaultBuilt(clauses, 0);
    } else {
      var (found, s1) := Search(m, clauses[i].cases, tag, s);
      SelectBuilt(m, clauses, tag, s1, i + 1);
    }
  }

  lemma {:induction false} DefaultBuilt(clauses: seq<Clause>, i: nat)
    requires i <= |clauses|
    ensures Default(BuiltClauses(clauses), i) == Default(clauses, i)
    decreases |clauses| - i
  {
    if i < |clauses| { DefaultBuilt(clauses, i + 1); }
  }

  lemma {:induction false} BuiltSwitchRuns(m: Machine, st: Stmt, lab: Option<LabelName>, s: State, fuel: nat)
    requires st.Switch? && Checked(st)
    ensures Run(m, Built(st)[0], lab, s, fuel) == Run(m, st, lab, s, fuel)
    decreases fuel, Size(st) - 1, 1
  {
    BuiltListRuns(m, st.init, None, st.init, s, fuel);
    var s1 := RunList(m, st.init, None, st.init, s, fuel).1;
    var tag := TagValue(st.tag);
    if tag.Some? && Fold(st.clauses, tag.value).Some? {
      FoldedRuns(m, st, lab, s1, fuel);
    } else {
      var (v, s2) := if st.tag.NoTag? then (Some(TRUE), s1) else EvalCase(m, st.tag.value, s1);
      if v.Some? {
        SelectBuilt(m, st.clauses, v.value, s2, 0);
        var (i, s3) := Select(m, st.clauses, v.value, s2, 0);
        if i.Some? { BuiltClausesRun(m, st, Built(st)[0], i.value, lab, s3, fuel); }
      }
    }
  }

  lemma {:induction false} FoldedRuns(m: Machine, st: Stmt, lab: Option<LabelName>, s: State, fuel: nat)
    requires st.Switch? && Checked(st) && TagValue(st.tag).Some? && Fold(st.clauses, TagValue(st.tag).value).Some?
    ensures var tag := TagValue(st.tag).value;
            var i := FoldTarget(st.clauses, tag, 0).value;
            && Select(m, st.clauses, tag, s, 0) == (Some(i), s)
            && Select(m, Built(st)[0].clauses, TRUE, s, 0) == (Some(0), s)
            && RunClauses(m, Built(st)[0], 0, lab, s, fuel) == RunClauses(m, st, i, lab, s, fuel)
    decreases fuel, Size(st) - 1, 0
  {
    var tag := TagValue(st.tag).value;
    FoldTargetIsSelected(m, st.clauses, tag, s, 0);
    var i := FoldTarget(st.clauses, tag, 0).value;
    var b := Built(st)[0];
    if i < |st.clauses| {
      assert b.clauses == [Clause(true, [], BuiltList(st.clauses[i].body))];
      assert Select(m, b.clauses, TRUE, s, 1) == (Some(0), s);
      var body := st.clauses[i].body;
      SizeOfClause(st.clauses, i);
      BuiltListRuns(m, body, None, body, s, fuel);
      AvoidedList(m, body, None, body, s, fuel, Falls);
    }
  }

  /** A body that the builder writes for a list of statements that the checker
      accepts ends as its source does and has the same effects, whatever the
      statements do and however long it runs. */
  lemma BuiltMeansSource(m: Machine, list: seq<Stmt>, s: State, fuel: nat)
    requires CheckedList(list)
    ensures RunList(m, BuiltList(list), None, BuiltList(list), s, fuel) == RunList(m, list, None, list, s, fuel)
  {
    BuiltListRuns(m, list, None, list, s, fuel);
  }
}

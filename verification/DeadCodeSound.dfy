/** The statements the builder writes do what the source's do. */
module DeadCodeSound {
  import opened Wrappers
  import opened Conditions
  import opened Statements
  import opened DeadCode

  // ----- How a statement can end -----

  /** An end that only a break, a continue or a fallthrough has. */
  predicate Named(r: End) { r.Falls? || (r.Breaks? && r.at.Some?) || (r.Continues? && r.at.Some?) }

  lemma {:induction false} TargetAvoids(list: seq<Stmt>, to: LabelName, r: End)
    requires AllAvoid(list, r) && Target(list, to).Some?
    ensures AllAvoid(Target(list, to).value, r)
  {
    if At(list[0], to).Some? {
      AtAvoids(list[0], to, r);
    } else {
      TargetAvoids(list[1..], to, r);
    }
  }

  lemma {:induction false} AtAvoids(st: Stmt, to: LabelName, r: End)
    requires Avoids(st, r) && At(st, to).Some?
    ensures Avoids(At(st, to).value, r)
  {
    if st.Labeled? && st.name != to { AtAvoids(st.stmt, to, r); }
  }

  lemma {:induction false} Avoided(m: Machine, st: Stmt, lab: Option<LabelName>, s: State, fuel: nat, r: End)
    requires Avoids(st, r) && Named(r)
    ensures Run(m, st, lab, s, fuel).0 != r
    decreases fuel, st, 3
  {
    match st
    case Declares(ids) => ActsEnd(m, ids, s);
    case Labeled(name, inner) => Avoided(m, inner, Some(name), s, fuel, r);
    case Block(list) => AvoidedList(m, list, None, list, s, fuel, r);
    case If(init, cond, thn, els) =>
      AvoidedList(m, init, None, init, s, fuel, r);
      var s2 := Eval(m, cond, RunList(m, init, None, init, s, fuel).1).1;
      if thn.Written? { AvoidedList(m, thn.list, None, thn.list, s2, fuel, r); }
      if els.Written? { AvoidedList(m, els.list, None, els.list, s2, fuel, r); }
    case For(init, test, post, list) =>
      AvoidedList(m, init, None, init, s, fuel, r);
      AvoidedLoop(m, st, lab, RunList(m, init, None, init, s, fuel).1, fuel, r);
    case Range(id, list) => AvoidedLoop(m, st, lab, s, fuel, r);
    case Switch(init, tag, clauses) =>
      AvoidedList(m, init, None, init, s, fuel, r);
      var s1 := RunList(m, init, None, init, s, fuel).1;
      var (v, s2) := if tag.NoTag? then (Some(TRUE), s1) else EvalCase(m, tag.value, s1);
      if v.Some? {
        var (i, s3) := Select(m, clauses, v.value, s2, 0);
        if i.Some? { AvoidedClauses(m, st, i.value, lab, s3, fuel, r); }
      }
    case Choose(id, clauses) =>
      var (i, s1) := m.choose(id, s);
      if i.Some? { AvoidedClauses(m, st, i.value, lab, s1, fuel, r); }
    case _ =>
  }

  lemma {:induction false} ActsEnd(m: Machine, ids: seq<nat>, s: State)
    ensures ActAll(m, ids, s).0.Normal? || ActAll(m, ids, s).0.Panics?
  {
    if ids != [] { ActsEnd(m, ids[1..], Act(m, ids[0], Normal, s).1); }
  }

  lemma {:induction false} AvoidedList(m: Machine, rest: seq<Stmt>, lab: Option<LabelName>, list: seq<Stmt>, s: State, fuel: nat, r: End)
    requires AllAvoid(rest, r) && AllAvoid(list, r) && Named(r)
    ensures RunList(m, rest, lab, list, s, fuel).0 != r
    decreases fuel, rest, 0
  {
    if rest == [] {
    } else if rest[0].Mark? {
      AvoidedList(m, rest[1..], Some(rest[0].name), list, s, fuel, r);
    } else {
      Avoided(m, rest[0], lab, s, fuel, r);
      var (e, s1) := Run(m, rest[0], lab, s, fuel);
      if e == Normal {
        AvoidedList(m, rest[1..], None, list, s1, fuel, r);
      } else if e.Jumps? && Target(list, e.to).Some? && fuel > 0 {
        TargetAvoids(list, e.to, r);
        AvoidedList(m, Target(list, e.to).value, None, list, s1, fuel - 1, r);
      }
    }
  }

  lemma {:induction false} AvoidedLoop(m: Machine, st: Stmt, lab: Option<LabelName>, s: State, fuel: nat, r: End)
    requires (st.For? || st.Range?) && AllAvoid(st.list, r) && (st.For? ==> AllAvoid(st.post, r)) && Named(r)
    ensures Loop(m, st, lab, s, fuel).0 != r
    decreases fuel, st, 2
  {
    var s1 := Test(m, st, s).1;
    AvoidedList(m, st.list, None, st.list, s1, fuel, r);
    var s2 := RunList(m, st.list, None, st.list, s1, fuel).1;
    if st.For? { AvoidedList(m, st.post, None, st.post, s2, fuel, r); }
    var s3 := if st.For? then RunList(m, st.post, None, st.post, s2, fuel).1 else s2;
    if fuel > 0 { AvoidedLoop(m, st, lab, s3, fuel - 1, r); }
  }

  lemma {:induction false} AvoidedClauses(m: Machine, st: Stmt, i: nat, lab: Option<LabelName>, s: State, fuel: nat, r: End)
    requires (st.Switch? || st.Choose?) && Named(r)
    requires ClausesAvoid(st.clauses, r) || (st.Switch? && r == Falls)
    ensures RunClauses(m, st, i, lab, s, fuel).0 != r
    decreases fuel, st, 2, |st.clauses| - i
  {
    if i < |st.clauses| {
      var body := st.clauses[i].body;
      if ClausesAvoid(st.clauses, r) { AvoidedList(m, body, None, body, s, fuel, r); }
      AvoidedClauses(m, st, i + 1, lab, RunList(m, body, None, body, s, fuel).1, fuel, r);
    }
  }

  /** A label that the statement neither breaks from nor continues to makes no
      difference to it. */
  lemma LabelIgnored(m: Machine, st: Stmt, lab: Option<LabelName>, s: State, fuel: nat)
    requires Ignores(st, lab)
    ensures Run(m, st, lab, s, fuel) == Run(m, st, None, s, fuel)
  {
    if lab.Some? {
      match st
      case For(init, _, _, _) => LoopIgnores(m, st, lab, RunList(m, init, None, init, s, fuel).1, fuel);
      case Range(_, _) => LoopIgnores(m, st, lab, s, fuel);
      case Switch(init, tag, clauses) =>
        var s1 := RunList(m, init, None, init, s, fuel).1;
        var (v, s2) := if tag.NoTag? then (Some(TRUE), s1) else EvalCase(m, tag.value, s1);
        if v.Some? {
          var (i, s3) := Select(m, clauses, v.value, s2, 0);
          if i.Some? { ClausesIgnore(m, st, i.value, lab, s3, fuel); }
        }
      case Choose(id, clauses) =>
        var (i, s1) := m.choose(id, s);
        if i.Some? { ClausesIgnore(m, st, i.value, lab, s1, fuel); }
      case _ =>
    }
  }

  lemma {:induction false} LoopIgnores(m: Machine, st: Stmt, lab: Option<LabelName>, s: State, fuel: nat)
    requires (st.For? || st.Range?) && lab.Some? && Ignores(st, lab)
    ensures Loop(m, st, lab, s, fuel) == Loop(m, st, None, s, fuel)
    decreases fuel
  {
    var s1 := Test(m, st, s).1;
    AvoidedList(m, st.list, None, st.list, s1, fuel, Breaks(lab));
    AvoidedList(m, st.list, None, st.list, s1, fuel, Continues(lab));
    var s2 := RunList(m, st.list, None, st.list, s1, fuel).1;
    var s3 := if st.For? then RunList(m, st.post, None, st.post, s2, fuel).1 else s2;
    if fuel > 0 { LoopIgnores(m, st, lab, s3, fuel - 1); }
  }

  lemma {:induction false} ClausesIgnore(m: Machine, st: Stmt, i: nat, lab: Option<LabelName>, s: State, fuel: nat)
    requires (st.Switch? || st.Choose?) && lab.Some? && Ignores(st, lab)
    ensures RunClauses(m, st, i, lab, s, fuel) == RunClauses(m, st, i, None, s, fuel)
    decreases |st.clauses| - i
  {
    if i < |st.clauses| {
      var body := st.clauses[i].body;
      assert ClausesAvoid(st.clauses, Breaks(lab));
      AvoidedList(m, body, None, body, s, fuel, Breaks(lab));
      ClausesIgnore(m, st, i + 1, lab, RunList(m, body, None, body, s, fuel).1, fuel);
    }
  }

  // ----- What cannot fall through -----

  /** A statement that `Terminates` never ends normally. */
  lemma {:induction false} TerminatesIsRight(m: Machine, st: Stmt, lab: Option<LabelName>, s: State, fuel: nat)
    requires Checked(st) && Terminates(st)
    ensures Run(m, st, lab, s, fuel).0 != Normal
    decreases fuel, st, 3
  {
    match st
    case Block(list) => EndsDeadIsRight(m, list, None, list, s, fuel);
    case If(init, cond, thn, els) =>
      var s1 := RunList(m, init, None, init, s, fuel).1;
      ParsedIsUndecided(cond);
      EvalIsRight(m, cond, s1);
      var s2 := Eval(m, cond, s1).1;
      if EndsDead(thn.list) { EndsDeadIsRight(m, thn.list, None, thn.list, s2, fuel); }
      if EndsDead(els.list) { EndsDeadIsRight(m, els.list, None, els.list, s2, fuel); }
    case _ =>
  }

  lemma {:induction false} LastOfRest(list: seq<Stmt>)
    requires |list| > 1 && EndsDead(list)
    ensures EndsDead(list[1..]) || (list[0] == LastNonEmpty(list).value && LastNonEmpty(list[1..]).None?)
  {
    if list[|list| - 1].Empty? {
      var front := list[..|list| - 1];
      assert list[1..][..|list| - 2] == front[1..];
      if |front| > 1 {
        LastOfRest(front);
      } else {
        assert front == [list[0]] && LastNonEmpty(front[1..]).None?;
        assert front[..0] == [];
      }
    }
  }

  lemma {:induction false} EndsDeadIsRight(m: Machine, rest: seq<Stmt>, lab: Option<LabelName>, list: seq<Stmt>, s: State, fuel: nat)
    requires CheckedList(list) && EndsDead(list) && (forall i :: 0 <= i < |rest| ==> Checked(rest[i])) && EndsDead(rest)
    ensures RunList(m, rest, lab, list, s, fuel).0 != Normal
    decreases fuel, rest, 0
  {
    var (e, s1) := Run(m, rest[0], lab, s, fuel);
    if e == Normal {
      if |rest| == 1 {
        assert rest[..0] == [];
        TerminatesIsRight(m, rest[0], lab, s, fuel);
      } else {
        LastOfRest(rest);
        if EndsDead(rest[1..]) {
          EndsDeadIsRight(m, rest[1..], None, list, s1, fuel);
        } else {
          TerminatesIsRight(m, rest[0], lab, s, fuel);
        }
      }
    } else if e.Jumps? && Target(list, e.to).Some? && fuel > 0 {
      TargetEndsDead(list, e.to);
      EndsDeadIsRight(m, Target(list, e.to).value, None, list, s1, fuel - 1);
    }
  }

  lemma {:induction false} LastOfCons(st: Stmt, list: seq<Stmt>)
    requires LastNonEmpty(list).Some?
    ensures LastNonEmpty([st] + list) == LastNonEmpty(list)
  {
    var all := [st] + list;
    assert all[|all| - 1] == list[|list| - 1];
    if list[|list| - 1].Empty? {
      assert all[..|all| - 1] == [st] + list[..|list| - 1];
      LastOfCons(st, list[..|list| - 1]);
    }
  }

  lemma {:induction false} NothingButEmpty(list: seq<Stmt>)
    requires LastNonEmpty(list).None?
    ensures forall i :: 0 <= i < |list| ==> list[i].Empty?
  {
    if list != [] { NothingButEmpty(list[..|list| - 1]); }
  }

  lemma {:induction false} EmptyHasNoTarget(list: seq<Stmt>, to: LabelName)
    requires forall i :: 0 <= i < |list| ==> list[i].Empty?
    ensures Target(list, to).None?
  {
    if list != [] { EmptyHasNoTarget(list[1..], to); }
  }

  lemma {:induction false} AtChecked(st: Stmt, to: LabelName)
    requires Checked(st) && At(st, to).Some?
    ensures Checked(At(st, to).value) && At(st, to).value.Labeled? && At(st, to).value.name == to
  {
    if st.name != to { AtChecked(st.stmt, to); }
  }

  lemma {:induction false} TargetEndsDead(list: seq<Stmt>, to: LabelName)
    requires (forall i :: 0 <= i < |list| ==> Checked(list[i])) && EndsDead(list) && Target(list, to).Some?
    ensures EndsDead(Target(list, to).value)
    ensures forall i :: 0 <= i < |Target(list, to).value| ==> Checked(Target(list, to).value[i])
  {
    assert |list| == 1 ==> list[..0] == [] && list[1..] == [];
    if |list| > 1 { LastOfRest(list); }
    if At(list[0], to).Some? {
      AtChecked(list[0], to);
      LastOfCons(At(list[0], to).value, list[1..]);
    } else {
      if LastNonEmpty(list[1..]).None? {
        NothingButEmpty(list[1..]);
        EmptyHasNoTarget(list[1..], to);
      }
      TargetEndsDead(list[1..], to);
    }
  }
}

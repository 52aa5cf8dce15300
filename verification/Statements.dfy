/** Statements and what they do: the source's, and the ones the builder writes. */
module Statements {
  import opened Wrappers
  import opened Conditions

  type LabelName = string

  /** Labeled is a statement of the source, and Mark is what the builder
      writes for it in front of the statement. */
  datatype Stmt =
    | Empty
    | Simple(id: nat)
    | Declares(ids: seq<nat>)
    | Return(id: nat)
    | Panic(id: nat)
    | Goto(to: LabelName)
    | Break(at: Option<LabelName>)
    | Continue(at: Option<LabelName>)
    | Fallthrough
    | Labeled(name: LabelName, stmt: Stmt)
    | Mark(name: LabelName)
    | Block(list: seq<Stmt>)
    | If(init: seq<Stmt>, cond: Cond, thn: Arm, els: Arm)
    | For(init: seq<Stmt>, test: Option<Cond>, post: seq<Stmt>, list: seq<Stmt>)
    | Range(id: nat, list: seq<Stmt>)
    | Switch(init: seq<Stmt>, tag: Tag, clauses: seq<Clause>)
    | Choose(id: nat, clauses: seq<Clause>)

  /** An arm the builder proved dead is not written. */
  datatype Arm = Unwritten | Written(list: seq<Stmt>)

  datatype Tag = NoTag | Tag(value: Case)

  /** A value of the checker's, or one that is computed. */
  datatype Case = Known(value: nat) | Computed(id: nat)

  datatype Clause = Clause(isDefault: bool, cases: seq<Case>, body: seq<Stmt>)

  /** How a statement ends. Missing is an arm that was not written and should
      have run. */
  datatype End =
    | Normal | Breaks(at: Option<LabelName>) | Continues(at: Option<LabelName>) | Jumps(to: LabelName) | Falls
    | Returns | Panics | Missing | Unfinished

  /** The value of `true`, which a switch without a tag is on. */
  const TRUE: nat := 1

  function EvalCase(m: Machine, c: Case, s: State): (Option<nat>, State) {
    match c
    case Known(v) => (Some(v), s)
    case Computed(id) => m.value(id, s)
  }

  // ----- The clause a switch takes -----

  /** Whether one of the cases equals the tag, evaluating them in order as far as the
      first that does; None when one of those evaluated panics. */
  function Search(m: Machine, cases: seq<Case>, tag: nat, s: State): (Option<bool>, State) {
    if cases == [] then (Some(false), s)
    else
      var (v, s1) := EvalCase(m, cases[0], s);
      if v.None? then (None, s1)
      else if v.value == tag then (Some(true), s1)
      else Search(m, cases[1..], tag, s1)
  }

  /** The index of the clause that runs: the first that matches, or the default,
      or one past the last. */
  function Select(m: Machine, clauses: seq<Clause>, tag: nat, s: State, i: nat): (Option<nat>, State)
    requires i <= |clauses|
    decreases |clauses| - i
  {
    if i == |clauses| then (Some(Default(clauses, 0)), s)
    else
      var (found, s1) := Search(m, clauses[i].cases, tag, s);
      if found.None? then (None, s1)
      else if found.value then (Some(i), s1)
      else Select(m, clauses, tag, s1, i + 1)
  }

  function Default(clauses: seq<Clause>, i: nat): (r: nat)
    requires i <= |clauses|
    ensures i <= r <= |clauses|
    decreases |clauses| - i
  {
    if i == |clauses| then i else if clauses[i].isDefault then i else Default(clauses, i + 1)
  }

  // ----- Lists and labels -----

  /** The rest of a list from the statement with a label on. */
  function Target(list: seq<Stmt>, to: LabelName): Option<seq<Stmt>> {
    if list == [] then None
    else if At(list[0], to).Some? then Some([At(list[0], to).value] + list[1..])
    else Target(list[1..], to)
  }

  /** The part of a statement that a label stands in front of. */
  function At(st: Stmt, to: LabelName): Option<Stmt> {
    if st.Mark? && st.name == to then Some(st)
    else if st.Labeled? then (if st.name == to then Some(st) else At(st.stmt, to))
    else None
  }

  // ----- Running -----

  function Caught(r: End, lab: Option<LabelName>): bool {
    r == Breaks(None) || (lab.Some? && r == Breaks(lab))
  }

  function Resumed(r: End, lab: Option<LabelName>): bool {
    r == Normal || r == Continues(None) || (lab.Some? && r == Continues(lab))
  }

  function Run(m: Machine, st: Stmt, lab: Option<LabelName>, s: State, fuel: nat): (End, State)
    decreases fuel, st, 3
  {
    match st
    case Empty => (Normal, s)
    case Mark(_) => (Normal, s)
    case Simple(id) => Act(m, id, Normal, s)
    case Declares(ids) => ActAll(m, ids, s)
    case Return(id) => Act(m, id, Returns, s)
    case Panic(id) => Act(m, id, Panics, s)
    case Goto(to) => (Jumps(to), s)
    case Break(at) => (Breaks(at), s)
    case Continue(at) => (Continues(at), s)
    case Fallthrough => (Falls, s)
    case Labeled(name, inner) => Run(m, inner, Some(name), s, fuel)
    case Block(list) => RunList(m, list, None, list, s, fuel)
    case If(init, cond, thn, els) =>
      var (r, s1) := RunList(m, init, None, init, s, fuel);
      if r != Normal then (r, s1)
      else
        var (v, s2) := Eval(m, cond, s1);
        if v.None? then (Panics, s2)
        else
          var arm := if v.value then thn else els;
          if arm.Unwritten? then (Missing, s2) else RunList(m, arm.list, None, arm.list, s2, fuel)
    case For(init, test, post, list) =>
      var (r, s1) := RunList(m, init, None, init, s, fuel);
      if r != Normal then (r, s1) else Loop(m, st, lab, s1, fuel)
    case Range(id, list) => Loop(m, st, lab, s, fuel)
    case Switch(init, tag, clauses) =>
      var (r, s1) := RunList(m, init, None, init, s, fuel);
      if r != Normal then (r, s1)
      else
        var (v, s2) := if tag.NoTag? then (Some(TRUE), s1) else EvalCase(m, tag.value, s1);
        if v.None? then (Panics, s2)
        else
          var (i, s3) := Select(m, clauses, v.value, s2, 0);
          if i.None? then (Panics, s3) else RunClauses(m, st, i.value, lab, s3, fuel)
    case Choose(id, clauses) =>
      var (i, s1) := m.choose(id, s);
      if i.None? then (Panics, s1) else RunClauses(m, st, i.value, lab, s1, fuel)
  }

  function Act(m: Machine, id: nat, end: End, s: State): (End, State) {
    var (ok, s1) := m.act(id, s);
    (if ok then end else Panics, s1)
  }

  function ActAll(m: Machine, ids: seq<nat>, s: State): (End, State) {
    if ids == [] then (Normal, s)
    else
      var (r, s1) := Act(m, ids[0], Normal, s);
      if r == Normal then ActAll(m, ids[1..], s1) else (r, s1)
  }

  /** The rest of a list, whose first statement has a label on. A jump to a label
      of the list goes on from there. */
  function RunList(m: Machine, rest: seq<Stmt>, lab: Option<LabelName>, list: seq<Stmt>, s: State, fuel: nat): (End, State)
    decreases fuel, rest, 0
  {
    if rest == [] then (Normal, s)
    else if rest[0].Mark? then RunList(m, rest[1..], Some(rest[0].name), list, s, fuel)
    else
      var (r, s1) := Run(m, rest[0], lab, s, fuel);
      if r == Normal then RunList(m, rest[1..], None, list, s1, fuel)
      else if r.Jumps? && Target(list, r.to).Some? then
        if fuel == 0 then (Unfinished, s1) else RunList(m, Target(list, r.to).value, None, list, s1, fuel - 1)
      else (r, s1)
  }

  function Test(m: Machine, st: Stmt, s: State): (Option<bool>, State)
    requires st.For? || st.Range?
  {
    if st.Range? then m.test(st.id, s) else if st.test.None? then (Some(true), s) else Eval(m, st.test.value, s)
  }

  function Loop(m: Machine, st: Stmt, lab: Option<LabelName>, s: State, fuel: nat): (End, State)
    requires st.For? || st.Range?
    decreases fuel, st, 2
  {
    var (v, s1) := Test(m, st, s);
    if v.None? then (Panics, s1)
    else if !v.value then (Normal, s1)
    else
      var (r, s2) := RunList(m, st.list, None, st.list, s1, fuel);
      if Caught(r, lab) then (Normal, s2)
      else if !Resumed(r, lab) then (r, s2)
      else
        var (r', s3) := if st.For? then RunList(m, st.post, None, st.post, s2, fuel) else (Normal, s2);
        if r' != Normal then (r', s3)
        else if fuel == 0 then (Unfinished, s3)
        else Loop(m, st, lab, s3, fuel - 1)
  }

  /** The body of a clause, and the bodies it falls through to. */
  function RunClauses(m: Machine, st: Stmt, i: nat, lab: Option<LabelName>, s: State, fuel: nat): (End, State)
    requires st.Switch? || st.Choose?
    decreases fuel, st, 2, |st.clauses| - i
  {
    if i >= |st.clauses| then (Normal, s)
    else
      var body := st.clauses[i].body;
      var (r, s1) := RunList(m, body, None, body, s, fuel);
      if Caught(r, lab) then (Normal, s1)
      else if r == Falls && st.Switch? then RunClauses(m, st, i + 1, lab, s1, fuel)
      else (r, s1)
  }
}

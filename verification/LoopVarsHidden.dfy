/** An instance that nothing points to stays so while its address is not taken. */
module LoopVarsHidden {
  import opened Wrappers
  import opened LoopVars

  predicate Mentions(v: Value, a: Addr) { v == Ptr(a) || (v.Closure? && exists y <- v.env :: v.env[y] == a) }

  /** The instance is held by no value and by no variable but `x`. */
  ghost predicate Hidden(st: State, x: Name, a: Addr) {
    && a < |st.heap|
    && (forall i :: 0 <= i < |st.heap| ==> !Mentions(st.heap[i], a))
    && (forall y <- st.env :: st.env[y] == a ==> y == x)
  }

  /** Whether the variable has that instance. */
  predicate Has(st: State, x: Name, a: Addr) { x in st.env && st.env[x] == a }

  lemma {:induction false} EvalHidden(ops: Ops, e: Expr, st: State, x: Name, a: Addr)
    requires Hidden(st, x, a) && (Has(st, x, a) ==> HidesExpr(e, x))
    ensures var v := Eval(ops, e, st.env, st.heap); v.Some? ==> !Mentions(v.value, a)
  {
    match e
    case Load(p) => EvalHidden(ops, p, st, x, a);
    case Arith(_, y, z) =>
      EvalHidden(ops, y, st, x, a);
      EvalHidden(ops, z, st, x, a);
    case Same(y, z) =>
      EvalHidden(ops, y, st, x, a);
      EvalHidden(ops, z, st, x, a);
    case _ =>
  }

  /** What a step keeps of a hidden instance. */
  ghost predicate Keeps(st: State, st': State, x: Name, a: Addr) {
    Hidden(st', x, a) && (Has(st, x, a) <==> Has(st', x, a))
  }

  lemma {:induction false} RunHidden(ops: Ops, s: Stmt, st: State, fuel: nat, x: Name, a: Addr)
    requires Hidden(st, x, a) && (Has(st, x, a) ==> HidesStmt(s, x))
    ensures Keeps(st, Run(ops, s, st, fuel).1, x, a)
    decreases fuel, s, 2
  {
    match s
    case Set(_, e) => EvalHidden(ops, e, st, x, a);
    case Store(p, e) => EvalHidden(ops, e, st, x, a);
    case Local(_, e) => EvalHidden(ops, e, st, x, a);
    case Invoke(g) =>
      EvalHidden(ops, g, st, x, a);
      var v := Eval(ops, g, st.env, st.heap);
      if v.Some? && v.value.Closure? && fuel > 0 {
        RunListHidden(ops, v.value.body, st.(env := v.value.env), fuel - 1, x, a);
      }
    case If(c, thn, els) =>
      var v := Eval(ops, c, st.env, st.heap);
      if v.Some? && v.value.Int? { RunListHidden(ops, if v.value.n != 0 then thn else els, st, fuel, x, a); }
    case For(_, init, _, _, _) =>
      RunListHidden(ops, init, st, fuel, x, a);
      var (r, st1) := RunList(ops, init, st, fuel);
      if r == Normal { RoundsHidden(ops, s, st1, fuel, x, a); }
    case _ =>
  }

  lemma {:induction false} RunListHidden(ops: Ops, list: seq<Stmt>, st: State, fuel: nat, x: Name, a: Addr)
    requires Hidden(st, x, a) && (Has(st, x, a) ==> Hides(list, x))
    ensures Keeps(st, RunList(ops, list, st, fuel).1, x, a)
    decreases fuel, list, 0
  {
    if list != [] {
      RunHidden(ops, list[0], st, fuel, x, a);
      var (r, st1) := Run(ops, list[0], st, fuel);
      if r == Normal { RunListHidden(ops, list[1..], st1, fuel, x, a); }
    }
  }

  lemma {:induction false} RoundsHidden(ops: Ops, s: Stmt, st: State, fuel: nat, x: Name, a: Addr)
    requires s.For? && Hidden(st, x, a) && (Has(st, x, a) ==> HidesStmt(s, x))
    ensures Keeps(st, Rounds(ops, s, st, fuel).1, x, a)
    decreases fuel, s, 1
  {
    var v := Eval(ops, s.cond, st.env, st.heap);
    if v.Some? && v.value.Int? && v.value.n != 0 {
      RunListHidden(ops, s.body, st, fuel, x, a);
      var (r, st1) := RunList(ops, s.body, st, fuel);
      if r == Normal || r == Continues {
        RenewHidden(s.vars, st1, x, a);
        var st2 := Renew(s.vars, st1);
        if st2.Some? {
          RunListHidden(ops, s.post, st2.value, fuel, x, a);
          var (r', st3) := RunList(ops, s.post, st2.value, fuel);
          if r' == Normal && fuel > 0 { RoundsHidden(ops, s, st3, fuel - 1, x, a); }
        }
      }
    }
  }

  lemma {:induction false} RenewHidden(xs: seq<Name>, st: State, x: Name, a: Addr)
    requires Hidden(st, x, a) && (Has(st, x, a) ==> x !in xs)
    ensures Renew(xs, st).Some? ==> Keeps(st, Renew(xs, st).value, x, a)
  {
    if xs != [] && Holds(xs[0], st) { RenewHidden(xs[1..], NewInstance(xs[0], st), x, a); }
  }

  // ----- No run makes up an instance -----

  /** Every instance that a value or a variable has was made. */
  ghost predicate Bounded(st: State) {
    && (forall i: nat, a: Addr :: i < |st.heap| && Mentions(st.heap[i], a) ==> a < |st.heap|)
    && (forall y <- st.env :: st.env[y] < |st.heap|)
  }

  lemma {:induction false} EvalBounded(ops: Ops, e: Expr, st: State, a: Addr)
    requires Bounded(st) && Eval(ops, e, st.env, st.heap).Some? && Mentions(Eval(ops, e, st.env, st.heap).value, a)
    ensures a < |st.heap|
  {
    match e
    case Load(p) => assert Mentions(Eval(ops, e, st.env, st.heap).value, a);
    case _ =>
  }

  lemma Adds(st: State, st': State, v: Value)
    requires Bounded(st) && st'.env == st.env && |st.heap| <= |st'.heap| && (forall a: Addr :: Mentions(v, a) ==> a < |st.heap|)
    requires forall i :: 0 <= i < |st'.heap| ==> st'.heap[i] == v || (i < |st.heap| && st'.heap[i] == st.heap[i])
    ensures Bounded(st')
  {
  }

  lemma {:induction false} RunBounded(ops: Ops, s: Stmt, st: State, fuel: nat)
    requires Bounded(st)
    ensures Bounded(Run(ops, s, st, fuel).1) && |st.heap| <= |Run(ops, s, st, fuel).1.heap|
    decreases fuel, s, 2
  {
    match s
    case Invoke(g) =>
      var v := Eval(ops, g, st.env, st.heap);
      if v.Some? && v.value.Closure? && fuel > 0 {
        forall y <- v.value.env ensures v.value.env[y] < |st.heap| { EvalBounded(ops, g, st, v.value.env[y]); }
        RunListBounded(ops, v.value.body, st.(env := v.value.env), fuel - 1);
      }
    case If(c, thn, els) =>
      var v := Eval(ops, c, st.env, st.heap);
      if v.Some? && v.value.Int? { RunListBounded(ops, if v.value.n != 0 then thn else els, st, fuel); }
    case For(_, init, _, _, _) =>
      RunListBounded(ops, init, st, fuel);
      var (r, st1) := RunList(ops, init, st, fuel);
      if r == Normal { RoundsBounded(ops, s, st1, fuel); }
    case Break =>
    case Continue =>
    case Return =>
    case _ => SimpleBounded(ops, s, st, fuel);
  }

  lemma SimpleBounded(ops: Ops, s: Stmt, st: State, fuel: nat)
    requires Bounded(st) && (s.Set? || s.Store? || s.Local? || s.Emit?)
    ensures Bounded(Run(ops, s, st, fuel).1) && |st.heap| <= |Run(ops, s, st, fuel).1.heap|
  {
    var v := Eval(ops, s.e, st.env, st.heap);
    if v.Some? {
      forall a: Addr | Mentions(v.value, a) ensures a < |st.heap| { EvalBounded(ops, s.e, st, a); }
      Adds(st, Run(ops, s, st, fuel).1.(env := st.env), v.value);
    }
  }

  lemma {:induction false} RunListBounded(ops: Ops, list: seq<Stmt>, st: State, fuel: nat)
    requires Bounded(st)
    ensures Bounded(RunList(ops, list, st, fuel).1) && |st.heap| <= |RunList(ops, list, st, fuel).1.heap|
    decreases fuel, list, 0
  {
    if list != [] {
      RunBounded(ops, list[0], st, fuel);
      var (r, st1) := Run(ops, list[0], st, fuel);
      if r == Normal { RunListBounded(ops, list[1..], st1, fuel); }
    }
  }

  lemma {:induction false} RoundsBounded(ops: Ops, s: Stmt, st: State, fuel: nat)
    requires s.For? && Bounded(st)
    ensures Bounded(Rounds(ops, s, st, fuel).1) && |st.heap| <= |Rounds(ops, s, st, fuel).1.heap|
    decreases fuel, s, 1
  {
    var v := Eval(ops, s.cond, st.env, st.heap);
    if v.Some? && v.value.Int? && v.value.n != 0 {
      RunListBounded(ops, s.body, st, fuel);
      var (r, st1) := RunList(ops, s.body, st, fuel);
      if r == Normal || r == Continues {
        RenewBounded(s.vars, st1);
        var st2 := Renew(s.vars, st1);
        if st2.Some? {
          RunListBounded(ops, s.post, st2.value, fuel);
          var (r', st3) := RunList(ops, s.post, st2.value, fuel);
          if r' == Normal && fuel > 0 { RoundsBounded(ops, s, st3, fuel - 1); }
        }
      }
    }
  }

  lemma NewBounded(x: Name, st: State)
    requires Bounded(st) && Holds(x, st)
    ensures Bounded(NewInstance(x, st)) && Hidden(NewInstance(x, st), x, |st.heap|)
  {
    var st' := NewInstance(x, st);
    forall i: nat, a: Addr | i < |st'.heap| && Mentions(st'.heap[i], a) ensures a < |st.heap| {
      if i == |st.heap| { assert Mentions(st.heap[st.env[x]], a); } else { assert Mentions(st.heap[i], a); }
    }
  }

  lemma {:induction false} RenewBounded(xs: seq<Name>, st: State)
    requires Bounded(st)
    ensures Renew(xs, st).Some? ==> Bounded(Renew(xs, st).value) && |st.heap| <= |Renew(xs, st).value.heap|
  {
    if xs != [] && Holds(xs[0], st) {
      NewBounded(xs[0], st);
      RenewBounded(xs[1..], NewInstance(xs[0], st));
    }
  }

  // ----- A variable that is not declared again keeps its instance -----

  ghost predicate SameInstance(st: State, st': State, x: Name) { (x in st.env <==> x in st'.env) && (x in st.env ==> st'.env[x] == st.env[x]) }

  lemma {:induction false} RunKeeps(ops: Ops, s: Stmt, st: State, fuel: nat, x: Name)
    requires !DeclaresIn(s, x)
    ensures SameInstance(st, Run(ops, s, st, fuel).1, x)
    decreases fuel, s, 2
  {
    match s
    case If(c, thn, els) =>
      var v := Eval(ops, c, st.env, st.heap);
      if v.Some? && v.value.Int? { RunListKeeps(ops, if v.value.n != 0 then thn else els, st, fuel, x); }
    case For(_, init, _, _, _) =>
      RunListKeeps(ops, init, st, fuel, x);
      var (r, st1) := RunList(ops, init, st, fuel);
      if r == Normal { RoundsKeeps(ops, s, st1, fuel, x); }
    case _ =>
  }

  lemma {:induction false} RunListKeeps(ops: Ops, list: seq<Stmt>, st: State, fuel: nat, x: Name)
    requires !Declares(list, x)
    ensures SameInstance(st, RunList(ops, list, st, fuel).1, x)
    decreases fuel, list, 0
  {
    if list != [] {
      RunKeeps(ops, list[0], st, fuel, x);
      var (r, st1) := Run(ops, list[0], st, fuel);
      if r == Normal { RunListKeeps(ops, list[1..], st1, fuel, x); }
    }
  }

  lemma {:induction false} RoundsKeeps(ops: Ops, s: Stmt, st: State, fuel: nat, x: Name)
    requires s.For? && !DeclaresIn(s, x)
    ensures SameInstance(st, Rounds(ops, s, st, fuel).1, x)
    decreases fuel, s, 1
  {
    var v := Eval(ops, s.cond, st.env, st.heap);
    if v.Some? && v.value.Int? && v.value.n != 0 {
      RunListKeeps(ops, s.body, st, fuel, x);
      var (r, st1) := RunList(ops, s.body, st, fuel);
      if r == Normal || r == Continues {
        RenewKeeps(s.vars, st1, x);
        var st2 := Renew(s.vars, st1);
        if st2.Some? {
          RunListKeeps(ops, s.post, st2.value, fuel, x);
          var (r', st3) := RunList(ops, s.post, st2.value, fuel);
          if r' == Normal && fuel > 0 { RoundsKeeps(ops, s, st3, fuel - 1, x); }
        }
      }
    }
  }

  lemma {:induction false} RenewKeeps(xs: seq<Name>, st: State, x: Name)
    requires x !in xs
    ensures Renew(xs, st).Some? ==> SameInstance(st, Renew(xs, st).value, x)
  {
    if xs != [] && Holds(xs[0], st) { RenewKeeps(xs[1..], NewInstance(xs[0], st), x); }
  }
}

/** Why the header may not take the address of a loop variable: wherever the post
    statement stores it in another variable, some loop tells the two forms apart. */
module LoopVarsCounter {
  import opened Wrappers
  import opened LoopVars
  import opened LoopVarsHidden

  const OPS: Ops := (op, a, b) => if op == 0 then (if a < b then 1 else 0) else a + b

  function BodyOf(x: Name, p: Name): seq<Stmt> { [Set(x, Arith(1, Get(x), Lit(1))), Emit(Load(Get(p)))] }

  function CondOf(x: Name): Expr { Arith(0, Get(x), Lit(2)) }

  /** `for x := 0; x < 2; p = &x { x++; println(*p) }` */
  function Points(x: Name, p: Name): Stmt { For([x], [Local(x, Lit(0))], CondOf(x), [Set(p, AddrOf(x))], BodyOf(x, p)) }

  /** A frame in which `p` points to 7. */
  function Before(p: Name): State { State(map[p := 1], [Int(7), Ptr(0)], []) }

  lemma One(a: Stmt, st: State, fuel: nat)
    ensures RunList(OPS, [a], st, fuel) == Run(OPS, a, st, fuel)
  {
    var list: seq<Stmt> := [a];
    var p := Run(OPS, a, st, fuel);
    if p.0 == Normal { assert RunList(OPS, list[1..], p.1, fuel) == (Normal, p.1); }
  }

  lemma Two(a: Stmt, b: Stmt, st: State, fuel: nat)
    requires Run(OPS, a, st, fuel).0 == Normal
    ensures RunList(OPS, [a, b], st, fuel) == Run(OPS, b, Run(OPS, a, st, fuel).1, fuel)
  {
    assert [a, b][1..] == [b];
    One(b, Run(OPS, a, st, fuel).1, fuel);
  }

  /** A state where `y` is at `a`, and `p` at `b` points to `d`. */
  predicate Stands(st: State, y: Name, p: Name, a: Addr, b: Addr, d: Addr) {
    && y in st.env && p in st.env && st.env[y] == a && st.env[p] == b && a != b
    && a < |st.heap| && b < |st.heap| && d < |st.heap| && st.heap[a].Int? && st.heap[b] == Ptr(d)
  }

  /** One run of the body. */
  lemma BodyRuns(x: Name, p: Name, st: State, a: Addr, b: Addr, d: Addr, fuel: nat)
    requires x != p && Stands(st, x, p, a, b, d) && st.heap[a := Int(st.heap[a].n + 1)][d].Int?
    ensures var heap := st.heap[a := Int(st.heap[a].n + 1)];
            RunList(OPS, BodyOf(x, p), st, fuel) == (Normal, State(st.env, heap, st.out + [heap[d].n]))
  {
    var e := Arith(1, Get(x), Lit(1));
    var heap := st.heap[a := Int(st.heap[a].n + 1)];
    assert Eval(OPS, Get(x), st.env, st.heap) == Some(st.heap[a]) && Eval(OPS, Lit(1), st.env, st.heap) == Some(Int(1));
    assert Eval(OPS, e, st.env, st.heap) == Some(Int(st.heap[a].n + 1));
    var st1 := State(st.env, heap, st.out);
    assert Run(OPS, Set(x, e), st, fuel) == (Normal, st1);
    assert Eval(OPS, Get(p), st1.env, st1.heap) == Some(Ptr(d));
    assert Eval(OPS, Load(Get(p)), st1.env, st1.heap) == Some(heap[d]);
    assert Run(OPS, Emit(Load(Get(p))), st1, fuel) == (Normal, State(st.env, heap, st.out + [heap[d].n]));
    Two(Set(x, e), Emit(Load(Get(p))), st, fuel);
  }

  lemma CondHolds(y: Name, st: State, a: Addr, n: int)
    requires y in st.env && st.env[y] == a < |st.heap| && st.heap[a] == Int(n)
    ensures Eval(OPS, CondOf(y), st.env, st.heap) == Some(Int(if n < 2 then 1 else 0))
  {
    assert Eval(OPS, Get(y), st.env, st.heap) == Some(Int(n)) && Eval(OPS, Lit(2), st.env, st.heap) == Some(Int(2));
  }

  // ----- The language -----

  /** One round: the body, the new instance and the post statement. */
  function AfterRound(x: Name, st: State, a: Addr, b: Addr, d: Addr): State
    requires a < |st.heap| && d < |st.heap| && b < |st.heap| && st.heap[a].Int? && st.heap[a := Int(st.heap[a].n + 1)][d].Int?
  {
    var heap := st.heap[a := Int(st.heap[a].n + 1)];
    State(st.env[x := |heap|], (heap + [heap[a]])[b := Ptr(|heap|)], st.out + [heap[d].n])
  }

  lemma Round(x: Name, p: Name, st: State, a: Addr, b: Addr, d: Addr, fuel: nat)
    requires x != p && Stands(st, x, p, a, b, d) && st.heap[a := Int(st.heap[a].n + 1)][d].Int? && st.heap[a].n < 2 && fuel > 0
    ensures Rounds(OPS, Points(x, p), st, fuel) == Rounds(OPS, Points(x, p), AfterRound(x, st, a, b, d), fuel - 1)
  {
    CondHolds(x, st, a, st.heap[a].n);
    BodyRuns(x, p, st, a, b, d, fuel);
    var s1 := RunList(OPS, BodyOf(x, p), st, fuel).1;
    assert Renew([x], s1) == Some(NewInstance(x, s1)) by { assert [x][1..] == []; }
    var s2 := NewInstance(x, s1);
    One(Set(p, AddrOf(x)), s2, fuel);
    assert RunList(OPS, [Set(p, AddrOf(x))], s2, fuel) == (Normal, AfterRound(x, st, a, b, d));
  }

  /** The second round sees its own instance through `p`. */
  lemma PerRoundSees(x: Name, p: Name)
    requires x != p
    ensures Run(OPS, Points(x, p), Before(p), 2).1.out == [7, 2]
  {
    One(Local(x, Lit(0)), Before(p), 2);
    var s0 := State(Before(p).env[x := 2], Before(p).heap + [Int(0)], []);
    assert RunList(OPS, [Local(x, Lit(0))], Before(p), 2) == (Normal, s0);
    Round(x, p, s0, 2, 1, 0, 2);
    var s1 := AfterRound(x, s0, 2, 1, 0);
    assert s1.heap[3] == Int(1) && s1.heap[1] == Ptr(3) && s1.out == [7];
    Round(x, p, s1, 3, 1, 3, 1);
    var s2 := AfterRound(x, s1, 3, 1, 3);
    assert s2.heap[4] == Int(2) && s2.out == [7, 2];
    CondHolds(x, s2, 4, 2);
    assert Rounds(OPS, Points(x, p), s2, 0) == (Normal, s2);
  }

  // ----- With a carrier -----

  function Carried(x: Name, p: Name): Stmt
    requires x.User?
  {
    var c := Carrier(x.id);
    For([], [Local(c, Lit(0))], CondOf(c), [Set(c, Get(x)), Set(p, AddrOf(c))], [Local(x, Get(c))] + BodyOf(x, p))
  }

  lemma CarriedText(x: Name, p: Name)
    requires x.User? && p.User? && x != p
    ensures LowerStmt(Points(x, p), {x}) == Carried(x, p)
  {
    var c := Carrier(x.id);
    var body := BodyOf(x, p);
    LowerOne(Local(x, Lit(0)), {x});
    LowerOne(Set(p, AddrOf(x)), {x});
    LowerTwo(body[0], body[1], {x});
    assert Taken([x], {x}) == [x] by { assert [x][..0] == []; }
    var plain := For([], [Local(x, Lit(0))], CondOf(x), [Set(p, AddrOf(x))], body);
    assert LowerExpr(CondOf(x), {x}) == CondOf(x);
    assert LowerStmt(body[0], {x}) == body[0] by { assert LowerExpr(Arith(1, Get(x), Lit(1)), {x}) == Arith(1, Get(x), Lit(1)); }
    assert LowerStmt(body[1], {x}) == body[1] by { assert LowerExpr(Load(Get(p)), {x}) == Load(Get(p)); }
    assert Lower(body, {x}) == body;
    assert LowerStmt(Points(x, p), {x}) == WithCarriers(plain, [x]);
    assert [x][..0] == [] && WithCarriers(plain, [x]) == WithCarrier(plain, x);
    ReplaceOne(Local(x, Lit(0)), x, c);
    ReplaceOne(Set(p, AddrOf(x)), x, c);
    assert ReplaceExpr(CondOf(x), x, c) == CondOf(c);
    assert [Set(c, Get(x))] + [Set(p, AddrOf(c))] == [Set(c, Get(x)), Set(p, AddrOf(c))];
  }

  lemma LowerOne(a: Stmt, taken: set<Name>)
    ensures Lower([a], taken) == [LowerStmt(a, taken)]
  {
    assert [a][1..] == [];
  }

  lemma LowerTwo(a: Stmt, b: Stmt, taken: set<Name>)
    ensures Lower([a, b], taken) == [LowerStmt(a, taken), LowerStmt(b, taken)]
  {
    assert [a, b][1..] == [b];
    LowerOne(b, taken);
  }

  lemma ReplaceOne(a: Stmt, from: Name, to: Name)
    ensures Replace([a], from, to) == [ReplaceStmt(a, from, to)]
  {
    assert [a][1..] == [];
  }

  /** One round with the carrier at `i`. */
  function AfterCarried(x: Name, st: State, i: Addr, b: Addr, d: Addr): State
    requires i < |st.heap| && d < |st.heap| && b < |st.heap| && st.heap[i].Int? && st.heap[d].Int?
  {
    var n := st.heap[i].n + 1;
    State(st.env[x := |st.heap|], (st.heap + [Int(n)])[i := Int(n)][b := Ptr(i)], st.out + [st.heap[d].n])
  }

  lemma CarriedRound(x: Name, p: Name, st: State, i: Addr, b: Addr, d: Addr, fuel: nat)
    requires x.User? && p.User? && x != p && Stands(st, Carrier(x.id), p, i, b, d) && st.heap[d].Int? && st.heap[i].n < 2 && fuel > 0
    ensures Rounds(OPS, Carried(x, p), st, fuel) == Rounds(OPS, Carried(x, p), AfterCarried(x, st, i, b, d), fuel - 1)
  {
    var c, n, a := Carrier(x.id), st.heap[i].n, |st.heap|;
    CondHolds(c, st, i, n);
    var s0 := State(st.env[x := a], st.heap + [Int(n)], st.out);
    assert Eval(OPS, Get(c), st.env, st.heap) == Some(Int(n));
    assert ([Local(x, Get(c))] + BodyOf(x, p))[1..] == BodyOf(x, p) && Run(OPS, Local(x, Get(c)), st, fuel) == (Normal, s0);
    BodyRuns(x, p, s0, a, b, d, fuel);
    var s1 := RunList(OPS, BodyOf(x, p), s0, fuel).1;
    assert s1.heap[a] == Int(n + 1);
    var s2 := State(s1.env, s1.heap[i := Int(n + 1)], s1.out);
    assert Run(OPS, Set(c, Get(x)), s1, fuel) == (Normal, s2);
    Two(Set(c, Get(x)), Set(p, AddrOf(c)), s1, fuel);
    assert Run(OPS, Set(p, AddrOf(c)), s2, fuel) == (Normal, State(s2.env, s2.heap[b := Ptr(i)], s2.out));
    assert s2.heap[b := Ptr(i)] == AfterCarried(x, st, i, b, d).heap;
  }

  /** The second round sees the carrier through `p`, which still holds what the first
      round left. */
  lemma CarriedSees(x: Name, p: Name)
    requires x.User? && p.User? && x != p
    ensures Run(OPS, Carried(x, p), Before(p), 2).1.out == [7, 1]
  {
    var c := Carrier(x.id);
    One(Local(c, Lit(0)), Before(p), 2);
    var s0 := State(Before(p).env[c := 2], Before(p).heap + [Int(0)], []);
    assert RunList(OPS, [Local(c, Lit(0))], Before(p), 2) == (Normal, s0);
    CarriedRound(x, p, s0, 2, 1, 0, 2);
    var s1 := AfterCarried(x, s0, 2, 1, 0);
    assert s1.heap[2] == Int(1) && s1.heap[1] == Ptr(2) && s1.out == [7];
    CarriedRound(x, p, s1, 2, 1, 2, 1);
    var s2 := AfterCarried(x, s1, 2, 1, 2);
    assert s2.heap[2] == Int(2) && s2.out == [7, 1];
    CondHolds(c, s2, 2, 2);
    assert Rounds(OPS, Carried(x, p), s2, 0) == (Normal, s2);
  }

  /** For any two variables: with `p = &x` as its post statement, some loop over `x`
      does not do with a carrier what the language says. */
  lemma AddressInHeader(x: Name, p: Name)
    requires x.User? && p.User? && x != p
    ensures exists t: Stmt, st: State, fuel: nat ::
              && t.For? && t.vars == [x] && t.post == [Set(p, AddrOf(x))]
              && Run(OPS, t, st, fuel).1.out != Run(OPS, LowerStmt(t, {x}), st, fuel).1.out
  {
    PerRoundSees(x, p);
    CarriedSees(x, p);
    CarriedText(x, p);
    var t := Points(x, p);
    assert t.For? && Run(OPS, t, Before(p), 2).1.out != Run(OPS, LowerStmt(t, {x}), Before(p), 2).1.out;
  }
}

/** Loops whose variables are new in each iteration, and their form with carriers
    (ir/build.go). */
module LoopVars {
  import opened Wrappers

  type Addr = nat

  /** A variable of the source, or the carrier the builder adds for it. */
  datatype Name = User(id: nat) | Carrier(id: nat)

  /** Func is a function literal, which captures variables by reference. */
  datatype Expr =
    | Lit(n: int) | Get(x: Name) | AddrOf(x: Name) | Load(e: Expr)
    | Arith(op: nat, a: Expr, b: Expr) | Same(a: Expr, b: Expr) | Func(caps: set<Name>, body: seq<Stmt>)

  /** Local declares a new instance of a variable, and Invoke calls a closure. The
      `vars` of a loop are the variables that each iteration has its own instances
      of; the builder's loops have none. */
  datatype Stmt =
    | Set(x: Name, e: Expr) | Store(p: Expr, e: Expr) | Local(x: Name, e: Expr)
    | Emit(e: Expr) | Invoke(f: Expr) | If(c: Expr, thn: seq<Stmt>, els: seq<Stmt>)
    | For(vars: seq<Name>, init: seq<Stmt>, cond: Expr, post: seq<Stmt>, body: seq<Stmt>)
    | Break | Continue | Return

  /** The instance each variable of a frame has. */
  type Env = map<Name, Addr>

  datatype Value = Int(n: int) | Ptr(at: Addr) | Closure(caps: set<Name>, body: seq<Stmt>, env: Env)

  /** The instances that were made, with what they hold, and what was emitted. */
  datatype State = State(env: Env, heap: seq<Value>, out: seq<int>)

  datatype End = Normal | Breaks | Continues | Returns | Panics | Unfinished

  /** The arithmetic and comparison operators. */
  type Ops = (nat, int, int) -> int

  // ----- Running -----

  function Captured(env: Env, caps: set<Name>): Env { map x | x in env && x in caps :: env[x] }

  function Eval(ops: Ops, e: Expr, env: Env, heap: seq<Value>): Option<Value> {
    match e
    case Lit(n) => Some(Int(n))
    case Get(x) => if x in env && env[x] < |heap| then Some(heap[env[x]]) else None
    case AddrOf(x) => if x in env then Some(Ptr(env[x])) else None
    case Load(p) =>
      var v :- Eval(ops, p, env, heap);
      if v.Ptr? && v.at < |heap| then Some(heap[v.at]) else None
    case Arith(op, a, b) =>
      var v :- Eval(ops, a, env, heap);
      var w :- Eval(ops, b, env, heap);
      if v.Int? && w.Int? then Some(Int(ops(op, v.n, w.n))) else None
    case Same(a, b) =>
      var v :- Eval(ops, a, env, heap);
      var w :- Eval(ops, b, env, heap);
      if (v.Int? && w.Int?) || (v.Ptr? && w.Ptr?) then Some(Int(if v == w then 1 else 0)) else None
    case Func(caps, body) => Some(Closure(caps, body, Captured(env, caps)))
  }

  /** How a call ends when its body ends so. */
  function Returned(r: End): End { if r.Normal? || r.Returns? then Normal else if r.Unfinished? then r else Panics }

  function Run(ops: Ops, s: Stmt, st: State, fuel: nat): (End, State)
    decreases fuel, s, 2
  {
    match s
    case Set(x, e) =>
      var v := Eval(ops, e, st.env, st.heap);
      if v.None? || x !in st.env || st.env[x] >= |st.heap| then (Panics, st)
      else (Normal, st.(heap := st.heap[st.env[x] := v.value]))
    case Store(p, e) =>
      var at, v := Eval(ops, p, st.env, st.heap), Eval(ops, e, st.env, st.heap);
      if at.None? || v.None? || !at.value.Ptr? || at.value.at >= |st.heap| then (Panics, st)
      else (Normal, st.(heap := st.heap[at.value.at := v.value]))
    case Local(x, e) =>
      var v := Eval(ops, e, st.env, st.heap);
      if v.None? then (Panics, st) else (Normal, st.(env := st.env[x := |st.heap|], heap := st.heap + [v.value]))
    case Emit(e) =>
      var v := Eval(ops, e, st.env, st.heap);
      if v.None? || !v.value.Int? then (Panics, st) else (Normal, st.(out := st.out + [v.value.n]))
    case Invoke(f) =>
      var v := Eval(ops, f, st.env, st.heap);
      if v.None? || !v.value.Closure? then (Panics, st)
      else if fuel == 0 then (Unfinished, st)
      else Call(ops, v.value, st, fuel - 1)
    case If(c, thn, els) =>
      var v := Eval(ops, c, st.env, st.heap);
      if v.None? || !v.value.Int? then (Panics, st) else RunList(ops, if v.value.n != 0 then thn else els, st, fuel)
    case For(_, init, _, _, _) =>
      var (r, st1) := RunList(ops, init, st, fuel);
      if r != Normal then (r, st1) else Rounds(ops, s, st1, fuel)
    case Break => (Breaks, st)
    case Continue => (Continues, st)
    case Return => (Returns, st)
  }

  /** A closure runs with the instances it captured. */
  function Call(ops: Ops, v: Value, st: State, fuel: nat): (End, State)
    requires v.Closure?
    decreases fuel
  {
    var (r, st1) := RunList(ops, v.body, st.(env := v.env), fuel);
    (Returned(r), st1.(env := st.env))
  }

  function RunList(ops: Ops, list: seq<Stmt>, st: State, fuel: nat): (End, State)
    decreases fuel, list, 0
  {
    if list == [] then (Normal, st)
    else
      var (r, st1) := Run(ops, list[0], st, fuel);
      if r == Normal then RunList(ops, list[1..], st1, fuel) else (r, st1)
  }

  predicate Holds(x: Name, st: State) { x in st.env && st.env[x] < |st.heap| }

  /** A new instance of a variable, with what the last one holds. */
  function NewInstance(x: Name, st: State): State
    requires Holds(x, st)
  {
    st.(env := st.env[x := |st.heap|], heap := st.heap + [st.heap[st.env[x]]])
  }

  function Renew(xs: seq<Name>, st: State): Option<State> {
    if xs == [] then Some(st) else if !Holds(xs[0], st) then None else Renew(xs[1..], NewInstance(xs[0], st))
  }

  /** The rounds of a loop. The next round's instances of its variables are made in
      front of the post statement. */
  function Rounds(ops: Ops, s: Stmt, st: State, fuel: nat): (End, State)
    requires s.For?
    decreases fuel, s, 1
  {
    var v := Eval(ops, s.cond, st.env, st.heap);
    if v.None? || !v.value.Int? then (Panics, st)
    else if v.value.n == 0 then (Normal, st)
    else
      var (r, st1) := RunList(ops, s.body, st, fuel);
      if r == Breaks then (Normal, st1)
      else if r != Normal && r != Continues then (r, st1)
      else
        var st2 := Renew(s.vars, st1);
        if st2.None? then (Panics, st1)
        else
          var (r', st3) := RunList(ops, s.post, st2.value, fuel);
          if r' != Normal then (r', st3)
          else if fuel == 0 then (Unfinished, st3)
          else Rounds(ops, s, st3, fuel - 1)
  }

  // ----- The rewrite -----

  /** replaceObj: it does not look into a closure. */
  function ReplaceExpr(e: Expr, from: Name, to: Name): Expr {
    match e
    case Get(x) => if x == from then Get(to) else e
    case AddrOf(x) => if x == from then AddrOf(to) else e
    case Load(p) => Load(ReplaceExpr(p, from, to))
    case Arith(op, a, b) => Arith(op, ReplaceExpr(a, from, to), ReplaceExpr(b, from, to))
    case Same(a, b) => Same(ReplaceExpr(a, from, to), ReplaceExpr(b, from, to))
    case _ => e
  }

  function ReplaceName(x: Name, from: Name, to: Name): Name { if x == from then to else x }

  function ReplaceStmt(s: Stmt, from: Name, to: Name): Stmt
    decreases s, 0
  {
    match s
    case Set(x, e) => Set(ReplaceName(x, from, to), ReplaceExpr(e, from, to))
    case Store(p, e) => Store(ReplaceExpr(p, from, to), ReplaceExpr(e, from, to))
    case Local(x, e) => Local(ReplaceName(x, from, to), ReplaceExpr(e, from, to))
    case Emit(e) => Emit(ReplaceExpr(e, from, to))
    case Invoke(f) => Invoke(ReplaceExpr(f, from, to))
    case If(c, thn, els) => If(ReplaceExpr(c, from, to), Replace(thn, from, to), Replace(els, from, to))
    case For(vars, init, cond, post, body) =>
      For(vars, Replace(init, from, to), ReplaceExpr(cond, from, to), Replace(post, from, to), Replace(body, from, to))
    case _ => s
  }

  function Replace(list: seq<Stmt>, from: Name, to: Name): seq<Stmt>
    decreases list, 1
  {
    if list == [] then [] else [ReplaceStmt(list[0], from, to)] + Replace(list[1..], from, to)
  }

  /** perIteration for one variable whose address is taken: a carrier in the header,
      the variable declared from it where the body begins, and the copy back first
      in the post list. */
  function WithCarrier(s: Stmt, x: Name): Stmt
    requires s.For? && x.User?
  {
    var c := Carrier(x.id);
    For(s.vars, Replace(s.init, x, c), ReplaceExpr(s.cond, x, c),
        [Set(c, Get(x))] + Replace(s.post, x, c), [Local(x, Get(c))] + s.body)
  }

  function WithCarriers(s: Stmt, xs: seq<Name>): (r: Stmt)
    requires s.For? && forall x <- xs :: x.User?
    ensures r.For?
  {
    if xs == [] then s else WithCarrier(WithCarriers(s, xs[..|xs| - 1]), xs[|xs| - 1])
  }

  /** The variables of a loop that need carriers, one after the other. */
  method PerIteration(s: Stmt, decls: seq<Name>, taken: set<Name>) returns (r: Stmt)
    requires s.For? && forall x <- decls :: x.User?
    ensures r == WithCarriers(s, Taken(decls, taken))
  {
    r := s;
    for i := 0 to |decls|
      invariant r == WithCarriers(s, Taken(decls[..i], taken))
    {
      assert decls[..i + 1][..i] == decls[..i];
      if decls[i] !in taken {
        assert Taken(decls[..i], taken) + [] == Taken(decls[..i], taken);
        continue;
      }
      r := WithCarrier(r, decls[i]);
      var xs := Taken(decls[..i], taken);
      assert (xs + [decls[i]])[..|xs|] == xs;
    }
    assert decls[..|decls|] == decls;
  }

  function Taken(decls: seq<Name>, taken: set<Name>): (r: seq<Name>)
    ensures forall x :: x in r <==> x in decls && x in taken
  {
    if decls == [] then []
    else
      var last := decls[|decls| - 1];
      assert decls == decls[..|decls| - 1] + [last];
      Taken(decls[..|decls| - 1], taken) + if last in taken then [last] else []
  }

  /** The builder's text: every loop, inner ones and those of closures too, has
      carriers for its variables whose address is taken. */
  function LowerExpr(e: Expr, taken: set<Name>): Expr
    decreases e, 0
  {
    match e
    case Load(p) => Load(LowerExpr(p, taken))
    case Arith(op, a, b) => Arith(op, LowerExpr(a, taken), LowerExpr(b, taken))
    case Same(a, b) => Same(LowerExpr(a, taken), LowerExpr(b, taken))
    case Func(caps, body) => Func(caps, Lower(body, taken))
    case _ => e
  }

  function LowerStmt(s: Stmt, taken: set<Name>): Stmt
    decreases s, 0
  {
    match s
    case Set(x, e) => Set(x, LowerExpr(e, taken))
    case Store(p, e) => Store(LowerExpr(p, taken), LowerExpr(e, taken))
    case Local(x, e) => Local(x, LowerExpr(e, taken))
    case Emit(e) => Emit(LowerExpr(e, taken))
    case Invoke(f) => Invoke(LowerExpr(f, taken))
    case If(c, thn, els) => If(LowerExpr(c, taken), Lower(thn, taken), Lower(els, taken))
    case For(vars, init, cond, post, body) =>
      var plain := For([], Lower(init, taken), LowerExpr(cond, taken), Lower(post, taken), Lower(body, taken));
      var xs := Taken(vars, taken);
      if forall x <- xs :: x.User? then WithCarriers(plain, xs) else plain
    case _ => s
  }

  function Lower(list: seq<Stmt>, taken: set<Name>): seq<Stmt>
    decreases list, 1
  {
    if list == [] then [] else [LowerStmt(list[0], taken)] + Lower(list[1..], taken)
  }

  // ----- What a text may do with a name -----

  /** The text neither takes the address of the variable, nor captures it, nor
      declares it. */
  predicate HidesExpr(e: Expr, x: Name) {
    match e
    case AddrOf(y) => y != x
    case Load(p) => HidesExpr(p, x)
    case Arith(_, a, b) => HidesExpr(a, x) && HidesExpr(b, x)
    case Same(a, b) => HidesExpr(a, x) && HidesExpr(b, x)
    case Func(caps, _) => x !in caps
    case _ => true
  }

  predicate HidesStmt(s: Stmt, x: Name)
    decreases s, 0
  {
    match s
    case Set(_, e) => HidesExpr(e, x)
    case Store(p, e) => HidesExpr(p, x) && HidesExpr(e, x)
    case Local(y, e) => y != x && HidesExpr(e, x)
    case Emit(e) => HidesExpr(e, x)
    case Invoke(f) => HidesExpr(f, x)
    case If(c, thn, els) => HidesExpr(c, x) && Hides(thn, x) && Hides(els, x)
    case For(vars, init, cond, post, body) =>
      x !in vars && Hides(init, x) && HidesExpr(cond, x) && Hides(post, x) && Hides(body, x)
    case _ => true
  }

  predicate Hides(list: seq<Stmt>, x: Name)
    decreases list, 1
  {
    list == [] || (HidesStmt(list[0], x) && Hides(list[1..], x))
  }

  /** The text declares the variable, itself or in a loop's header. */
  predicate DeclaresIn(s: Stmt, x: Name)
    decreases s, 0
  {
    match s
    case Local(y, _) => y == x
    case If(_, thn, els) => Declares(thn, x) || Declares(els, x)
    case For(vars, init, _, post, body) => x in vars || Declares(init, x) || Declares(post, x) || Declares(body, x)
    case _ => false
  }

  predicate Declares(list: seq<Stmt>, x: Name)
    decreases list, 1
  {
    list != [] && (DeclaresIn(list[0], x) || Declares(list[1..], x))
  }

  /** What the list declares at its own level. */
  function Decls(list: seq<Stmt>): set<Name> {
    if list == [] then {} else Binds(list[0]) + Decls(list[1..])
  }

  function Binds(s: Stmt): set<Name> { if s.Local? then {s.x} else {} }

  /** What may stand in a loop's header. */
  predicate Simple(list: seq<Stmt>) {
    forall i :: 0 <= i < |list| ==> list[i].Set? || list[i].Store? || list[i].Local? || list[i].Emit? || list[i].Invoke?
  }

  /** The init statement declares the variable once and exposes it nowhere. */
  predicate DeclaredBy(init: seq<Stmt>, x: Name) {
    init != [] && init[0].Local? && HidesExpr(init[0].e, x)
    && if init[0].x == x then Hides(init[1..], x) else DeclaredBy(init[1..], x)
  }

  predicate Distinct(xs: seq<Name>) { forall i, j :: 0 <= i < j < |xs| ==> xs[i] != xs[j] }

  // ----- Texts of the source -----

  /** Of the source: every name is a variable in scope, a function literal captures
      what it names, and each loop is `Convertible`. */
  predicate WellExpr(e: Expr, live: set<Name>, taken: set<Name>)
    decreases e, 0
  {
    match e
    case Get(x) => x in live
    case AddrOf(x) => x in live
    case Load(p) => WellExpr(p, live, taken)
    case Arith(_, a, b) => WellExpr(a, live, taken) && WellExpr(b, live, taken)
    case Same(a, b) => WellExpr(a, live, taken) && WellExpr(b, live, taken)
    case Func(caps, body) => caps <= live && Well(body, caps, taken)
    case _ => true
  }

  predicate WellStmt(s: Stmt, live: set<Name>, taken: set<Name>)
    decreases s, 0
  {
    match s
    case Set(x, e) => x in live && WellExpr(e, live, taken)
    case Store(p, e) => WellExpr(p, live, taken) && WellExpr(e, live, taken)
    case Local(x, e) => x.User? && WellExpr(e, live, taken)
    case Emit(e) => WellExpr(e, live, taken)
    case Invoke(f) => WellExpr(f, live, taken)
    case If(c, thn, els) => WellExpr(c, live, taken) && Well(thn, live, taken) && Well(els, live, taken)
    case For(_, init, cond, post, body) =>
      var inner := live + Decls(init);
      && Convertible(s, live, taken)
      && Well(init, live, taken) && WellExpr(cond, inner, taken) && Well(post, inner, taken) && Well(body, inner, taken)
    case _ => true
  }

  predicate Well(list: seq<Stmt>, live: set<Name>, taken: set<Name>)
    decreases list, 1
  {
    list == [] || (WellStmt(list[0], live, taken) && Well(list[1..], live + Binds(list[0]), taken))
  }

  /** What the rewrite needs of a loop: its header exposes none of its variables, its
      body declares none of them, and exposes only those whose address is taken. */
  predicate Convertible(s: Stmt, live: set<Name>, taken: set<Name>)
    requires s.For?
  {
    && Distinct(s.vars) && Simple(s.init) && Simple(s.post)
    && forall x <- s.vars :: Loops(s, x, live, taken)
  }

  predicate Loops(s: Stmt, x: Name, live: set<Name>, taken: set<Name>)
    requires s.For?
  {
    && x.User? && x !in live && DeclaredBy(s.init, x) && HidesExpr(s.cond, x) && Hides(s.post, x)
    && !Declares(s.body, x) && (x !in taken ==> Hides(s.body, x))
  }

  lemma {:induction false} OutOfScope(e: Expr, live: set<Name>, taken: set<Name>, x: Name)
    requires WellExpr(e, live, taken) && x !in live
    ensures HidesExpr(e, x)
  {
    match e
    case Load(p) => OutOfScope(p, live, taken, x);
    case Arith(_, a, b) =>
      OutOfScope(a, live, taken, x);
      OutOfScope(b, live, taken, x);
    case Same(a, b) =>
      OutOfScope(a, live, taken, x);
      OutOfScope(b, live, taken, x);
    case _ =>
  }

  /** `for x := init; cond; x = next { body }` is a text of the source whenever its
      parts are, the header exposes x nowhere and the body does not declare it
      again: the body may take its address, capture it and leave as it likes. */
  lemma UsualLoop(x: Name, init: Expr, cond: Expr, next: Expr, body: seq<Stmt>, live: set<Name>, taken: set<Name>)
    requires x.User? && x !in live && WellExpr(init, live, taken)
    requires WellExpr(cond, live + {x}, taken) && WellExpr(next, live + {x}, taken) && Well(body, live + {x}, taken)
    requires HidesExpr(cond, x) && HidesExpr(next, x) && !Declares(body, x) && (x in taken || Hides(body, x))
    ensures Well([For([x], [Local(x, init)], cond, [Set(x, next)], body)], live, taken)
  {
    var first, post := [Local(x, init)], [Set(x, next)];
    var s := For([x], first, cond, post, body);
    OutOfScope(init, live, taken, x);
    assert first[1..] == [] && post[1..] == [] && [s][1..] == [];
    assert Decls(first) == {x} && live + Decls(first) == live + {x};
    assert DeclaredBy(first, x) && Hides(post, x) && Loops(s, x, live, taken);
    assert Convertible(s, live, taken);
    assert Well(first, live, taken) && Well(post, live + {x}, taken);
    assert WellStmt(s, live, taken);
  }

  // ----- What is left of the loops and of the names -----

  /** No loop has variables of its own for each iteration, not in a closure either. */
  predicate PlainExpr(e: Expr)
    decreases e, 0
  {
    match e
    case Load(p) => PlainExpr(p)
    case Arith(_, a, b) => PlainExpr(a) && PlainExpr(b)
    case Same(a, b) => PlainExpr(a) && PlainExpr(b)
    case Func(_, body) => Plain(body)
    case Lit(_) => true
    case Get(_) => true
    case AddrOf(_) => true
  }

  predicate PlainStmt(s: Stmt)
    decreases s, 0
  {
    match s
    case Set(_, e) => PlainExpr(e)
    case Store(p, e) => PlainExpr(p) && PlainExpr(e)
    case Local(_, e) => PlainExpr(e)
    case Emit(e) => PlainExpr(e)
    case Invoke(f) => PlainExpr(f)
    case If(c, thn, els) => PlainExpr(c) && Plain(thn) && Plain(els)
    case For(vars, init, cond, post, body) => vars == [] && Plain(init) && PlainExpr(cond) && Plain(post) && Plain(body)
    case Break => true
    case Continue => true
    case Return => true
  }

  predicate Plain(list: seq<Stmt>)
    decreases list, 1
  {
    forall i :: 0 <= i < |list| ==> PlainStmt(list[i])
  }

  lemma {:induction false} ReplaceExprPlain(e: Expr, from: Name, to: Name)
    requires PlainExpr(e)
    ensures PlainExpr(ReplaceExpr(e, from, to))
  {
    match e
    case Load(p) => ReplaceExprPlain(p, from, to);
    case Arith(_, a, b) =>
      ReplaceExprPlain(a, from, to);
      ReplaceExprPlain(b, from, to);
    case Same(a, b) =>
      ReplaceExprPlain(a, from, to);
      ReplaceExprPlain(b, from, to);
    case _ =>
  }

  lemma {:induction false} ReplaceStmtPlain(s: Stmt, from: Name, to: Name)
    requires PlainStmt(s)
    ensures PlainStmt(ReplaceStmt(s, from, to))
    decreases s, 0
  {
    match s
    case Set(_, e) => ReplaceExprPlain(e, from, to);
    case Store(p, e) =>
      ReplaceExprPlain(p, from, to);
      ReplaceExprPlain(e, from, to);
    case Local(_, e) => ReplaceExprPlain(e, from, to);
    case Emit(e) => ReplaceExprPlain(e, from, to);
    case Invoke(f) => ReplaceExprPlain(f, from, to);
    case If(c, thn, els) =>
      ReplaceExprPlain(c, from, to);
      ReplacePlain(thn, from, to);
      ReplacePlain(els, from, to);
    case For(_, init, cond, post, body) =>
      ReplacePlain(init, from, to);
      ReplaceExprPlain(cond, from, to);
      ReplacePlain(post, from, to);
      ReplacePlain(body, from, to);
    case _ =>
  }

  lemma {:induction false} ReplacePlain(list: seq<Stmt>, from: Name, to: Name)
    requires Plain(list)
    ensures Plain(Replace(list, from, to))
    decreases list, 1
  {
    if list != [] {
      ReplaceStmtPlain(list[0], from, to);
      ReplacePlain(list[1..], from, to);
    }
  }

  lemma PlainBoth(xs: seq<Stmt>, ys: seq<Stmt>)
    requires Plain(xs) && Plain(ys)
    ensures Plain(xs + ys)
  {
  }

  lemma {:induction false} CarriersPlain(s: Stmt, xs: seq<Name>)
    requires s.For? && PlainStmt(s) && forall x <- xs :: x.User?
    ensures PlainStmt(WithCarriers(s, xs))
    decreases |xs|
  {
    if xs != [] {
      var x, r := xs[|xs| - 1], WithCarriers(s, xs[..|xs| - 1]);
      CarriersPlain(s, xs[..|xs| - 1]);
      var c := Carrier(x.id);
      ReplacePlain(r.init, x, c);
      ReplaceExprPlain(r.cond, x, c);
      ReplacePlain(r.post, x, c);
      PlainBoth([Set(c, Get(x))], Replace(r.post, x, c));
      PlainBoth([Local(x, Get(c))], r.body);
    }
  }

  lemma {:induction false} LowerExprPlain(e: Expr, taken: set<Name>)
    ensures PlainExpr(LowerExpr(e, taken))
    decreases e, 0
  {
    match e
    case Load(p) => LowerExprPlain(p, taken);
    case Arith(_, a, b) =>
      LowerExprPlain(a, taken);
      LowerExprPlain(b, taken);
    case Same(a, b) =>
      LowerExprPlain(a, taken);
      LowerExprPlain(b, taken);
    case Func(_, body) => LowerIsPlain(body, taken);
    case _ =>
  }

  lemma {:induction false} LowerStmtPlain(s: Stmt, taken: set<Name>)
    ensures PlainStmt(LowerStmt(s, taken))
    decreases s, 0
  {
    match s
    case Set(_, e) => LowerExprPlain(e, taken);
    case Store(p, e) =>
      LowerExprPlain(p, taken);
      LowerExprPlain(e, taken);
    case Local(_, e) => LowerExprPlain(e, taken);
    case Emit(e) => LowerExprPlain(e, taken);
    case Invoke(f) => LowerExprPlain(f, taken);
    case If(c, thn, els) =>
      LowerExprPlain(c, taken);
      LowerIsPlain(thn, taken);
      LowerIsPlain(els, taken);
    case For(vars, init, cond, post, body) =>
      LowerIsPlain(init, taken);
      LowerExprPlain(cond, taken);
      LowerIsPlain(post, taken);
      LowerIsPlain(body, taken);
      var plain := For([], Lower(init, taken), LowerExpr(cond, taken), Lower(post, taken), Lower(body, taken));
      var xs := Taken(vars, taken);
      if forall x <- xs :: x.User? { CarriersPlain(plain, xs); }
    case _ =>
  }

  /** In the builder's text no loop makes instances of its own: all are made by
      declarations and kept by carriers. */
  lemma {:induction false} LowerIsPlain(list: seq<Stmt>, taken: set<Name>)
    ensures Plain(Lower(list, taken))
    decreases list, 1
  {
    if list != [] {
      LowerStmtPlain(list[0], taken);
      LowerIsPlain(list[1..], taken);
    }
  }

  /** The text names the variable, outside of its closures. */
  predicate NamedInExpr(e: Expr, x: Name) {
    match e
    case Get(y) => y == x
    case AddrOf(y) => y == x
    case Load(p) => NamedInExpr(p, x)
    case Arith(_, a, b) => NamedInExpr(a, x) || NamedInExpr(b, x)
    case Same(a, b) => NamedInExpr(a, x) || NamedInExpr(b, x)
    case Func(_, _) => false
    case Lit(_) => false
  }

  predicate NamedInStmt(s: Stmt, x: Name)
    decreases s, 0
  {
    match s
    case Set(y, e) => y == x || NamedInExpr(e, x)
    case Store(p, e) => NamedInExpr(p, x) || NamedInExpr(e, x)
    case Local(y, e) => y == x || NamedInExpr(e, x)
    case Emit(e) => NamedInExpr(e, x)
    case Invoke(f) => NamedInExpr(f, x)
    case If(c, thn, els) => NamedInExpr(c, x) || NamedIn(thn, x) || NamedIn(els, x)
    case For(_, init, cond, post, body) => NamedIn(init, x) || NamedInExpr(cond, x) || NamedIn(post, x) || NamedIn(body, x)
    case Break => false
    case Continue => false
    case Return => false
  }

  predicate NamedIn(list: seq<Stmt>, x: Name)
    decreases list, 1
  {
    exists i :: 0 <= i < |list| && NamedInStmt(list[i], x)
  }

  lemma NamedRest(list: seq<Stmt>, x: Name)
    requires list != []
    ensures NamedIn(list, x) <==> NamedInStmt(list[0], x) || NamedIn(list[1..], x)
  {
    if i :| 0 < i < |list| && NamedInStmt(list[i], x) { assert list[1..][i - 1] == list[i]; }
    if i :| 0 <= i < |list| - 1 && NamedInStmt(list[1..][i], x) { assert list[i + 1] == list[1..][i]; }
  }

  lemma {:induction false} ReplacedExpr(e: Expr, from: Name, to: Name)
    requires from != to && !NamedInExpr(e, to)
    ensures !NamedInExpr(ReplaceExpr(e, from, to), from) && ReplaceExpr(ReplaceExpr(e, from, to), to, from) == e
  {
    match e
    case Load(p) => ReplacedExpr(p, from, to);
    case Arith(_, a, b) =>
      ReplacedExpr(a, from, to);
      ReplacedExpr(b, from, to);
    case Same(a, b) =>
      ReplacedExpr(a, from, to);
      ReplacedExpr(b, from, to);
    case _ =>
  }

  lemma {:induction false} ReplacedStmt(s: Stmt, from: Name, to: Name)
    requires from != to && !NamedInStmt(s, to)
    ensures !NamedInStmt(ReplaceStmt(s, from, to), from) && ReplaceStmt(ReplaceStmt(s, from, to), to, from) == s
    decreases s, 0
  {
    match s
    case Set(_, e) => ReplacedExpr(e, from, to);
    case Store(p, e) =>
      ReplacedExpr(p, from, to);
      ReplacedExpr(e, from, to);
    case Local(_, e) => ReplacedExpr(e, from, to);
    case Emit(e) => ReplacedExpr(e, from, to);
    case Invoke(f) => ReplacedExpr(f, from, to);
    case If(c, thn, els) =>
      ReplacedExpr(c, from, to);
      Replaced(thn, from, to);
      Replaced(els, from, to);
    case For(_, init, cond, post, body) =>
      Replaced(init, from, to);
      ReplacedExpr(cond, from, to);
      Replaced(post, from, to);
      Replaced(body, from, to);
    case _ =>
  }

  /** Where the new name is not used, every use of the old one outside of closures
      is replaced, and replacing back gives the text again. */
  lemma {:induction false} Replaced(list: seq<Stmt>, from: Name, to: Name)
    requires from != to && !NamedIn(list, to)
    ensures !NamedIn(Replace(list, from, to), from) && Replace(Replace(list, from, to), to, from) == list
    decreases list, 1
  {
    if list != [] {
      NamedRest(list, to);
      ReplacedStmt(list[0], from, to);
      Replaced(list[1..], from, to);
      var r := Replace(list, from, to);
      assert r[1..] == Replace(list[1..], from, to);
      NamedRest(r, from);
    }
  }
}

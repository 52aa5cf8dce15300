/** Two runs whose instances lie at different addresses: one of the source's text,
    one of the builder's. */
module LoopVarsAlike {
  import opened Wrappers
  import opened LoopVars
  import opened LoopVarsHidden

  /** For the instances of the source's run, the instance of the builder's. */
  type Inj = map<Addr, Addr>

  /** The variables in scope, and those whose carriers stand for them. */
  datatype View = View(live: set<Name>, ren: set<Name>) {
    function Of(y: Name): Name { Renamed(y, ren) }

    function Plus(names: set<Name>): View { View(live + names, ren) }

    /** No variable in scope is a carrier. */
    predicate Users() { forall y <- live :: y.User? }
  }

  // ----- The text of a header -----

  function Renamed(x: Name, xs: set<Name>): Name { if x in xs && x.User? then Carrier(x.id) else x }

  function RenameExpr(e: Expr, xs: set<Name>): Expr {
    match e
    case Get(x) => Get(Renamed(x, xs))
    case AddrOf(x) => AddrOf(Renamed(x, xs))
    case Load(p) => Load(RenameExpr(p, xs))
    case Arith(op, a, b) => Arith(op, RenameExpr(a, xs), RenameExpr(b, xs))
    case Same(a, b) => Same(RenameExpr(a, xs), RenameExpr(b, xs))
    case _ => e
  }

  function RenameStmt(s: Stmt, xs: set<Name>): Stmt
    decreases s, 0
  {
    match s
    case Set(x, e) => Set(Renamed(x, xs), RenameExpr(e, xs))
    case Store(p, e) => Store(RenameExpr(p, xs), RenameExpr(e, xs))
    case Local(x, e) => Local(Renamed(x, xs), RenameExpr(e, xs))
    case Emit(e) => Emit(RenameExpr(e, xs))
    case Invoke(f) => Invoke(RenameExpr(f, xs))
    case If(c, thn, els) => If(RenameExpr(c, xs), Rename(thn, xs), Rename(els, xs))
    case For(vars, init, cond, post, body) =>
      For(vars, Rename(init, xs), RenameExpr(cond, xs), Rename(post, xs), Rename(body, xs))
    case _ => s
  }

  function Rename(list: seq<Stmt>, xs: set<Name>): seq<Stmt>
    decreases list, 1
  {
    if list == [] then [] else [RenameStmt(list[0], xs)] + Rename(list[1..], xs)
  }

  /** What the builder writes for a text of the source under a view. */
  function TextOf(list: seq<Stmt>, w: View, taken: set<Name>): seq<Stmt> { Rename(Lower(list, taken), w.ren) }

  function StmtOf(s: Stmt, w: View, taken: set<Name>): Stmt { RenameStmt(LowerStmt(s, taken), w.ren) }

  function ExprOf(e: Expr, w: View, taken: set<Name>): Expr { RenameExpr(LowerExpr(e, taken), w.ren) }

  lemma {:induction false} RenameNoneExpr(e: Expr)
    ensures RenameExpr(e, {}) == e
  {
    match e
    case Load(p) => RenameNoneExpr(p);
    case Arith(_, a, b) =>
      RenameNoneExpr(a);
      RenameNoneExpr(b);
    case Same(a, b) =>
      RenameNoneExpr(a);
      RenameNoneExpr(b);
    case _ =>
  }

  lemma {:induction false} RenameNoneStmt(s: Stmt)
    ensures RenameStmt(s, {}) == s
    decreases s, 0
  {
    match s
    case Set(_, e) => RenameNoneExpr(e);
    case Store(p, e) =>
      RenameNoneExpr(p);
      RenameNoneExpr(e);
    case Local(_, e) => RenameNoneExpr(e);
    case Emit(e) => RenameNoneExpr(e);
    case Invoke(f) => RenameNoneExpr(f);
    case If(c, thn, els) =>
      RenameNoneExpr(c);
      RenameNone(thn);
      RenameNone(els);
    case For(_, init, cond, post, body) =>
      RenameNone(init);
      RenameNoneExpr(cond);
      RenameNone(post);
      RenameNone(body);
    case _ =>
  }

  lemma {:induction false} RenameNone(list: seq<Stmt>)
    ensures Rename(list, {}) == list
    decreases list, 1
  {
    if list != [] {
      RenameNoneStmt(list[0]);
      RenameNone(list[1..]);
    }
  }

  /** Replacing one more variable renames one more. */
  lemma {:induction false} RenameMoreExpr(e: Expr, xs: set<Name>, x: Name)
    requires x.User? && x !in xs
    ensures ReplaceExpr(RenameExpr(e, xs), x, Carrier(x.id)) == RenameExpr(e, xs + {x})
  {
    match e
    case Load(p) => RenameMoreExpr(p, xs, x);
    case Arith(_, a, b) =>
      RenameMoreExpr(a, xs, x);
      RenameMoreExpr(b, xs, x);
    case Same(a, b) =>
      RenameMoreExpr(a, xs, x);
      RenameMoreExpr(b, xs, x);
    case _ =>
  }

  lemma {:induction false} RenameMoreStmt(s: Stmt, xs: set<Name>, x: Name)
    requires x.User? && x !in xs
    ensures ReplaceStmt(RenameStmt(s, xs), x, Carrier(x.id)) == RenameStmt(s, xs + {x})
    decreases s, 0
  {
    match s
    case Set(_, e) => RenameMoreExpr(e, xs, x);
    case Store(p, e) =>
      RenameMoreExpr(p, xs, x);
      RenameMoreExpr(e, xs, x);
    case Local(_, e) => RenameMoreExpr(e, xs, x);
    case Emit(e) => RenameMoreExpr(e, xs, x);
    case Invoke(f) => RenameMoreExpr(f, xs, x);
    case If(c, thn, els) =>
      RenameMoreExpr(c, xs, x);
      RenameMore(thn, xs, x);
      RenameMore(els, xs, x);
    case For(_, init, cond, post, body) =>
      RenameMore(init, xs, x);
      RenameMoreExpr(cond, xs, x);
      RenameMore(post, xs, x);
      RenameMore(body, xs, x);
    case _ =>
  }

  lemma {:induction false} RenameMore(list: seq<Stmt>, xs: set<Name>, x: Name)
    requires x.User? && x !in xs
    ensures Replace(Rename(list, xs), x, Carrier(x.id)) == Rename(list, xs + {x})
    decreases list, 1
  {
    if list != [] {
      RenameMoreStmt(list[0], xs, x);
      RenameMore(list[1..], xs, x);
      assert Rename(list, xs)[1..] == Rename(list[1..], xs);
    }
  }

  function Elems(xs: seq<Name>): set<Name> { set x | x in xs }

  /** The copies back and the declarations for a list of variables, the last first. */
  function Copies(xs: seq<Name>): seq<Stmt>
    requires forall x <- xs :: x.User?
  {
    if xs == [] then [] else [Set(Carrier(xs[|xs| - 1].id), Get(xs[|xs| - 1]))] + Copies(xs[..|xs| - 1])
  }

  function Opens(xs: seq<Name>): seq<Stmt>
    requires forall x <- xs :: x.User?
  {
    if xs == [] then [] else [Local(xs[|xs| - 1], Get(Carrier(xs[|xs| - 1].id)))] + Opens(xs[..|xs| - 1])
  }

  lemma {:induction false} CopiesStay(xs: seq<Name>, x: Name)
    requires (forall y <- xs :: y.User?) && x.User? && x !in xs
    ensures Replace(Copies(xs), x, Carrier(x.id)) == Copies(xs)
  {
    if xs != [] {
      CopiesStay(xs[..|xs| - 1], x);
      assert Copies(xs)[1..] == Copies(xs[..|xs| - 1]);
    }
  }

  lemma {:induction false} ReplaceBoth(first: seq<Stmt>, second: seq<Stmt>, from: Name, to: Name)
    ensures Replace(first + second, from, to) == Replace(first, from, to) + Replace(second, from, to)
  {
    if first == [] {
      assert first + second == second;
    } else {
      assert (first + second)[1..] == first[1..] + second;
      ReplaceBoth(first[1..], second, from, to);
    }
  }

  /** The form with carriers at a glance. */
  lemma {:induction false} CarriersText(s: Stmt, xs: seq<Name>)
    requires s.For? && Distinct(xs) && forall x <- xs :: x.User?
    ensures WithCarriers(s, xs) ==
            For(s.vars, Rename(s.init, Elems(xs)), RenameExpr(s.cond, Elems(xs)),
                Copies(xs) + Rename(s.post, Elems(xs)), Opens(xs) + s.body)
  {
    if xs == [] {
      RenameNone(s.init);
      RenameNoneExpr(s.cond);
      RenameNone(s.post);
      assert Elems(xs) == {} && [] + s.post == s.post && [] + s.body == s.body;
    } else {
      var front, x := xs[..|xs| - 1], xs[|xs| - 1];
      assert xs == front + [x];
      assert Elems(xs) == Elems(front) + {x} && x !in Elems(front);
      CarriersText(s, front);
      CarrierText(s, front, x, Elems(front));
      assert [Set(Carrier(x.id), Get(x))] + Copies(front) == Copies(xs) && [Local(x, Get(Carrier(x.id)))] + Opens(front) == Opens(xs);
    }
  }

  lemma CarrierText(s: Stmt, front: seq<Name>, x: Name, F: set<Name>)
    requires s.For? && (forall y <- front :: y.User?) && x.User? && x !in front && x !in F
    ensures WithCarrier(For(s.vars, Rename(s.init, F), RenameExpr(s.cond, F), Copies(front) + Rename(s.post, F), Opens(front) + s.body), x)
            == For(s.vars, Rename(s.init, F + {x}), RenameExpr(s.cond, F + {x}),
                   [Set(Carrier(x.id), Get(x))] + Copies(front) + Rename(s.post, F + {x}),
                   [Local(x, Get(Carrier(x.id)))] + Opens(front) + s.body)
  {
    RenameMore(s.init, F, x);
    RenameMoreExpr(s.cond, F, x);
    RenameMore(s.post, F, x);
    CopiesStay(front, x);
    ReplaceBoth(Copies(front), Rename(s.post, F), x, Carrier(x.id));
    Assoc([Set(Carrier(x.id), Get(x))], Copies(front), Rename(s.post, F + {x}));
    Assoc([Local(x, Get(Carrier(x.id)))], Opens(front), s.body);
  }

  lemma Assoc(a: seq<Stmt>, b: seq<Stmt>, c: seq<Stmt>)
    ensures a + b + c == a + (b + c)
  {
  }

  // ----- Alike -----

  ghost predicate SameValue(taken: set<Name>, f: Inj, v: Value, w: Value) {
    match v
    case Int(_) => w == v
    case Ptr(a) => w.Ptr? && a in f && f[a] == w.at
    case Closure(caps, body, env) =>
      && w.Closure? && w.caps == caps && w.body == Lower(body, taken) && Well(body, caps, taken) && (forall y <- caps :: y.User?)
      && SameEnv(f, View(caps, {}), env, w.env)
  }

  ghost predicate SameHeap(taken: set<Name>, f: Inj, hs: seq<Value>, hb: seq<Value>) {
    && (forall a <- f :: a < |hs| && f[a] < |hb|)
    && (forall a <- f {:trigger hs[a]} :: SameValue(taken, f, hs[a], hb[f[a]]))
    && (forall a, a' {:trigger f[a], f[a']} :: a in f && a' in f && f[a] == f[a'] ==> a == a')
  }

  ghost predicate SameEnv(f: Inj, w: View, es: Env, eb: Env) {
    forall y <- w.live {:trigger SameName(f, w, es, eb, y)} :: SameName(f, w, es, eb, y)
  }

  ghost predicate SameName(f: Inj, w: View, es: Env, eb: Env, y: Name) {
    (y in es <==> w.Of(y) in eb) && (y in es ==> es[y] in f && f[es[y]] == eb[w.Of(y)])
  }

  ghost predicate Alike(taken: set<Name>, f: Inj, w: View, s: State, b: State) {
    SameHeap(taken, f, s.heap, b.heap) && SameEnv(f, w, s.env, b.env) && s.out == b.out
  }

  /** The instances that a step adds are new, and the others of the second run that
      it does not know keep what they hold. */
  ghost predicate Grows(f: Inj, f': Inj, s: State, s': State, b: State, b': State) {
    && |s.heap| <= |s'.heap| && |b.heap| <= |b'.heap|
    && (forall a <- f :: a in f' && f'[a] == f[a])
    && (forall a <- f' :: a !in f ==> a >= |s.heap| && f'[a] >= |b.heap|)
    && (forall i :: 0 <= i < |b.heap| && (forall a <- f :: f[a] != i) ==> b'.heap[i] == b.heap[i])
  }

  // ----- Evaluation -----

  /** No literal of the text captures one of the variables. */
  predicate Uncaptured(e: Expr, xs: set<Name>) {
    match e
    case Load(p) => Uncaptured(p, xs)
    case Arith(_, a, b) => Uncaptured(a, xs) && Uncaptured(b, xs)
    case Same(a, b) => Uncaptured(a, xs) && Uncaptured(b, xs)
    case Func(caps, _) => caps !! xs
    case _ => true
  }

  /** A list that a header may hold under a view that renames. */
  predicate UncapturedStmt(s: Stmt, xs: set<Name>) {
    match s
    case Set(_, e) => Uncaptured(e, xs)
    case Store(p, e) => Uncaptured(p, xs) && Uncaptured(e, xs)
    case Local(_, e) => Uncaptured(e, xs)
    case Emit(e) => Uncaptured(e, xs)
    case Invoke(g) => Uncaptured(g, xs)
    case _ => xs == {}
  }

  predicate UncapturedList(list: seq<Stmt>, xs: set<Name>) {
    forall i :: 0 <= i < |list| ==> UncapturedStmt(list[i], xs)
  }

  lemma {:induction false} UncapturedNone(e: Expr)
    ensures Uncaptured(e, {})
  {
    match e
    case Load(p) => UncapturedNone(p);
    case Arith(_, a, b) =>
      UncapturedNone(a);
      UncapturedNone(b);
    case Same(a, b) =>
      UncapturedNone(a);
      UncapturedNone(b);
    case _ =>
  }

  lemma UncapturedNoneStmt(s: Stmt)
    ensures UncapturedStmt(s, {})
  {
    match s
    case Set(_, e) => UncapturedNone(e);
    case Store(p, e) =>
      UncapturedNone(p);
      UncapturedNone(e);
    case Local(_, e) => UncapturedNone(e);
    case Emit(e) => UncapturedNone(e);
    case Invoke(g) => UncapturedNone(g);
    case _ =>
  }

  ghost predicate SameResult(taken: set<Name>, f: Inj, v: Option<Value>, w: Option<Value>) {
    v.Some? == w.Some? && (v.Some? ==> SameValue(taken, f, v.value, w.value))
  }

  lemma SameFunc(taken: set<Name>, w: View, caps: set<Name>, body: seq<Stmt>, f: Inj, s: State, b: State)
    requires Alike(taken, f, w, s, b) && w.Users() && caps <= w.live && caps !! w.ren && Well(body, caps, taken)
    ensures SameValue(taken, f, Closure(caps, body, Captured(s.env, caps)), Closure(caps, Lower(body, taken), Captured(b.env, caps)))
  {
    var es, eb := Captured(s.env, caps), Captured(b.env, caps);
    forall y <- caps ensures SameName(f, View(caps, {}), es, eb, y) { assert SameName(f, w, s.env, b.env, y); }
  }

  lemma SameLoad(taken: set<Name>, f: Inj, w: View, s: State, b: State, v: Option<Value>, v': Option<Value>)
    requires Alike(taken, f, w, s, b) && SameResult(taken, f, v, v')
    ensures v.Some? && v.value.Ptr? ==>
              v'.Some? && v'.value.Ptr? && v.value.at < |s.heap| && v'.value.at < |b.heap|
              && SameValue(taken, f, s.heap[v.value.at], b.heap[v'.value.at])
    ensures v.Some? && !v.value.Ptr? ==> !v'.value.Ptr?
  {
  }

  lemma {:induction false} SameEval(ops: Ops, taken: set<Name>, w: View, e: Expr, f: Inj, s: State, b: State)
    requires Alike(taken, f, w, s, b) && w.Users() && WellExpr(e, w.live, taken) && Uncaptured(e, w.ren)
    ensures SameResult(taken, f, Eval(ops, e, s.env, s.heap), Eval(ops, ExprOf(e, w, taken), b.env, b.heap))
    decreases e, 1
  {
    match e
    case Lit(_) =>
    case Get(x) => assert SameName(f, w, s.env, b.env, x);
    case AddrOf(x) => assert SameName(f, w, s.env, b.env, x);
    case Load(p) =>
      SameEval(ops, taken, w, p, f, s, b);
      SameLoad(taken, f, w, s, b, Eval(ops, p, s.env, s.heap), Eval(ops, ExprOf(p, w, taken), b.env, b.heap));
    case Arith(_, _, _) => SameArith(ops, taken, w, e, f, s, b);
    case Same(_, _) => SameArith(ops, taken, w, e, f, s, b);
    case Func(caps, body) => SameFunc(taken, w, caps, body, f, s, b);
  }

  lemma {:induction false} SameArith(ops: Ops, taken: set<Name>, w: View, e: Expr, f: Inj, s: State, b: State)
    requires Alike(taken, f, w, s, b) && w.Users() && WellExpr(e, w.live, taken) && Uncaptured(e, w.ren) && (e.Arith? || e.Same?)
    ensures SameResult(taken, f, Eval(ops, e, s.env, s.heap), Eval(ops, ExprOf(e, w, taken), b.env, b.heap))
    decreases e, 0
  {
    SameEval(ops, taken, w, e.a, f, s, b);
    SameEval(ops, taken, w, e.b, f, s, b);
  }

  // ----- Steps -----

  /** Both runs end alike, with the same output and the same things at the instances
      that correspond. */
  ghost predicate Ran(taken: set<Name>, f: Inj, f': Inj, w: View, s: State, b: State, p: (End, State), q: (End, State)) {
    p.0 == q.0 && Grows(f, f', s, p.1, b, q.1) && Alike(taken, f', w, p.1, q.1)
  }

  lemma GrowsBoth(f: Inj, f1: Inj, f2: Inj, s: State, s1: State, s2: State, b: State, b1: State, b2: State)
    requires Grows(f, f1, s, s1, b, b1) && Grows(f1, f2, s1, s2, b1, b2)
    ensures Grows(f, f2, s, s2, b, b2)
  {
    forall i | 0 <= i < |b.heap| && (forall a <- f :: f[a] != i) ensures b2.heap[i] == b.heap[i] {
      forall a <- f1 ensures f1[a] != i {
        if a in f { assert f[a] != i; }
      }
    }
  }

  lemma SameEnvLater(f: Inj, f': Inj, w: View, es: Env, eb: Env)
    requires SameEnv(f, w, es, eb) && forall a <- f :: a in f' && f'[a] == f[a]
    ensures SameEnv(f', w, es, eb)
  {
    forall y <- w.live ensures SameName(f', w, es, eb, y) { assert SameName(f, w, es, eb, y); }
  }

  lemma SameValueLater(taken: set<Name>, f: Inj, f': Inj, v: Value, v': Value)
    requires SameValue(taken, f, v, v') && forall a <- f :: a in f' && f'[a] == f[a]
    ensures SameValue(taken, f', v, v')
  {
    if v.Closure? { SameEnvLater(f, f', View(v.caps, {}), v.env, v'.env); }
  }

  /** What is known in a scope is known in a smaller one. */
  lemma SmallerScope(taken: set<Name>, f: Inj, w: View, w': View, s: State, b: State)
    requires Alike(taken, f, w, s, b) && w'.live <= w.live && (forall y <- w'.live :: w.Of(y) == w'.Of(y))
    ensures Alike(taken, f, w', s, b)
  {
    forall y <- w'.live ensures SameName(f, w', s.env, b.env, y) { assert SameName(f, w, s.env, b.env, y); }
  }

  lemma SameWrite(taken: set<Name>, f: Inj, w: View, s: State, b: State, a: Addr, v: Value, v': Value)
    requires Alike(taken, f, w, s, b) && a in f && SameValue(taken, f, v, v')
    ensures a < |s.heap| && f[a] < |b.heap|
    ensures var s', b' := s.(heap := s.heap[a := v]), b.(heap := b.heap[f[a] := v']);
            Alike(taken, f, w, s', b') && Grows(f, f, s, s', b, b')
  {
  }

  /** A new instance of a variable in both. */
  lemma SameLocal(taken: set<Name>, f: Inj, w: View, s: State, b: State, x: Name, v: Value, v': Value)
    requires Alike(taken, f, w, s, b) && w.Users() && x.User? && SameValue(taken, f, v, v')
    ensures var f' := f[|s.heap| := |b.heap|];
            var s' := s.(env := s.env[x := |s.heap|], heap := s.heap + [v]);
            var b' := b.(env := b.env[w.Of(x) := |b.heap|], heap := b.heap + [v']);
            Alike(taken, f', w.Plus({x}), s', b') && Grows(f, f', s, s', b, b')
  {
    var f' := f[|s.heap| := |b.heap|];
    var es', eb' := s.env[x := |s.heap|], b.env[w.Of(x) := |b.heap|];
    var hs', hb' := s.heap + [v], b.heap + [v'];
    SameValueLater(taken, f, f', v, v');
    forall a <- f' ensures SameValue(taken, f', hs'[a], hb'[f'[a]]) {
      if a != |s.heap| { SameValueLater(taken, f, f', s.heap[a], b.heap[f[a]]); }
    }
    forall y <- w.Plus({x}).live ensures SameName(f', w.Plus({x}), es', eb', y) {
      if y != x { assert SameName(f, w, s.env, b.env, y); }
    }
  }
}

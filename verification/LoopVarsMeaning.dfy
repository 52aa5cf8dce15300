/** The builder's text, where loops have carriers, does what the source's does, where
    each round has its own instances of the loop's variables. */
module LoopVarsMeaning {
  import opened Wrappers
  import opened LoopVars
  import opened LoopVarsHidden
  import opened LoopVarsAlike
  import opened LoopVarsRounds

  // ----- Texts -----

  lemma {:induction false} TakenDistinct(decls: seq<Name>, taken: set<Name>)
    requires Distinct(decls)
    ensures Distinct(Taken(decls, taken)) && Elems(Taken(decls, taken)) == Elems(decls) * taken
  {
    if decls != [] {
      var front := decls[..|decls| - 1];
      assert decls == front + [decls[|decls| - 1]];
      assert forall x <- front :: x in decls && x != decls[|decls| - 1];
      TakenDistinct(front, taken);
    }
  }

  lemma {:induction false} HiddenIsUncaptured(e: Expr, xs: set<Name>)
    requires forall x <- xs :: HidesExpr(e, x)
    ensures Uncaptured(e, xs)
  {
    match e
    case Load(p) => HiddenIsUncaptured(p, xs);
    case Arith(_, a, b) =>
      HiddenIsUncaptured(a, xs);
      HiddenIsUncaptured(b, xs);
    case Same(a, b) =>
      HiddenIsUncaptured(a, xs);
      HiddenIsUncaptured(b, xs);
    case _ =>
  }

  /** The expressions of a simple statement hide the variable. */
  predicate Quiet(s: Stmt, x: Name) {
    match s
    case Set(_, e) => HidesExpr(e, x)
    case Store(p, e) => HidesExpr(p, x) && HidesExpr(e, x)
    case Local(_, e) => HidesExpr(e, x)
    case Emit(e) => HidesExpr(e, x)
    case Invoke(g) => HidesExpr(g, x)
    case _ => false
  }

  lemma QuietIsUncaptured(s: Stmt, xs: set<Name>)
    requires (s.Set? || s.Store? || s.Local? || s.Emit? || s.Invoke?) && forall x <- xs :: Quiet(s, x)
    ensures UncapturedStmt(s, xs)
  {
    match s
    case Set(_, e) => HiddenIsUncaptured(e, xs);
    case Store(p, e) =>
      HiddenIsUncaptured(p, xs);
      HiddenIsUncaptured(e, xs);
    case Local(_, e) => HiddenIsUncaptured(e, xs);
    case Emit(e) => HiddenIsUncaptured(e, xs);
    case Invoke(g) => HiddenIsUncaptured(g, xs);
    case _ =>
  }

  lemma {:induction false} HidesIsQuiet(list: seq<Stmt>, x: Name, i: nat)
    requires Hides(list, x) && Simple(list) && i < |list|
    ensures Quiet(list[i], x)
  {
    if i > 0 { HidesIsQuiet(list[1..], x, i - 1); }
  }

  lemma {:induction false} DeclaredIsQuiet(init: seq<Stmt>, x: Name, i: nat)
    requires DeclaredBy(init, x) && Simple(init) && i < |init|
    ensures Quiet(init[i], x)
  {
    if i > 0 {
      if init[0].x == x { HidesIsQuiet(init[1..], x, i - 1); } else { DeclaredIsQuiet(init[1..], x, i - 1); }
    }
  }

  lemma {:induction false} DeclaredInInit(init: seq<Stmt>, x: Name)
    requires DeclaredBy(init, x)
    ensures x in Decls(init)
  {
    if init[0].x != x { DeclaredInInit(init[1..], x); }
  }

  /** A loop's header under the view of its carriers. */
  lemma HeaderText(t: Stmt, xs: set<Name>, live: set<Name>, taken: set<Name>)
    requires t.For? && Convertible(t, live, taken) && forall x <- xs :: x in t.vars
    ensures UncapturedList(t.init, xs) && Uncaptured(t.cond, xs) && UncapturedList(t.post, xs)
    ensures forall x <- t.vars :: x in Decls(t.init)
  {
    HiddenIsUncaptured(t.cond, xs);
    forall i | 0 <= i < |t.init| ensures UncapturedStmt(t.init[i], xs) {
      forall x <- xs ensures Quiet(t.init[i], x) { DeclaredIsQuiet(t.init, x, i); }
      QuietIsUncaptured(t.init[i], xs);
    }
    forall i | 0 <= i < |t.post| ensures UncapturedStmt(t.post[i], xs) {
      forall x <- xs ensures Quiet(t.post[i], x) { HidesIsQuiet(t.post, x, i); }
      QuietIsUncaptured(t.post[i], xs);
    }
    forall x <- t.vars ensures x in Decls(t.init) { DeclaredInInit(t.init, x); }
  }

  lemma {:induction false} ReplaceDeclares(list: seq<Stmt>, from: Name, to: Name, c: Name)
    requires c != to && !Declares(list, c)
    ensures !Declares(Replace(list, from, to), c)
    decreases list, 1
  {
    if list != [] {
      ReplaceDeclaresIn(list[0], from, to, c);
      ReplaceDeclares(list[1..], from, to, c);
      assert Replace(list, from, to)[1..] == Replace(list[1..], from, to);
    }
  }

  lemma {:induction false} ReplaceDeclaresIn(s: Stmt, from: Name, to: Name, c: Name)
    requires c != to && !DeclaresIn(s, c)
    ensures !DeclaresIn(ReplaceStmt(s, from, to), c)
    decreases s, 0
  {
    match s
    case If(_, thn, els) =>
      ReplaceDeclares(thn, from, to, c);
      ReplaceDeclares(els, from, to, c);
    case For(_, init, _, post, body) =>
      ReplaceDeclares(init, from, to, c);
      ReplaceDeclares(post, from, to, c);
      ReplaceDeclares(body, from, to, c);
    case _ =>
  }

  lemma {:induction false} CarriersDeclare(s: Stmt, xs: seq<Name>, c: Name)
    requires s.For? && AllUser(xs) && c.Carrier? && User(c.id) !in xs && !DeclaresIn(s, c)
    ensures !DeclaresIn(WithCarriers(s, xs), c)
  {
    if xs != [] {
      var front, x := xs[..|xs| - 1], xs[|xs| - 1];
      assert x in xs && forall y <- front :: y in xs;
      assert x.User? && x != User(c.id) && Carrier(x.id) != c;
      CarriersDeclare(s, front, c);
      var s1 := WithCarriers(s, front);
      assert c !in s1.vars && !Declares(s1.init, c) && !Declares(s1.post, c) && !Declares(s1.body, c);
      ReplaceDeclares(s1.init, x, Carrier(x.id), c);
      ReplaceDeclares(s1.post, x, Carrier(x.id), c);
      var s2 := WithCarrier(s1, x);
      assert s2.post[1..] == Replace(s1.post, x, Carrier(x.id)) && s2.body[1..] == s1.body;
      assert s2.post[0] == Set(Carrier(x.id), Get(x)) && s2.body[0] == Local(x, Get(Carrier(x.id)));
      assert !Declares(s2.post, c);
      assert !DeclaresIn(s2.body[0], c) && !Declares(s2.body[1..], c);
      assert !Declares(s2.body, c);
    }
  }

  /** Inner loops have carriers of their own. */
  lemma {:induction false} LowerDeclares(list: seq<Stmt>, live: set<Name>, taken: set<Name>, x: Name)
    requires Well(list, live, taken) && x.User? && !Declares(list, x)
    ensures !Declares(Lower(list, taken), Carrier(x.id))
    decreases list, 1
  {
    if list != [] {
      LowerDeclaresIn(list[0], live, taken, x);
      LowerDeclares(list[1..], live + Binds(list[0]), taken, x);
      assert Lower(list, taken)[1..] == Lower(list[1..], taken);
    }
  }

  lemma {:induction false} LowerDeclaresIn(s: Stmt, live: set<Name>, taken: set<Name>, x: Name)
    requires WellStmt(s, live, taken) && x.User? && !DeclaresIn(s, x)
    ensures !DeclaresIn(LowerStmt(s, taken), Carrier(x.id))
    decreases s, 0
  {
    match s
    case If(_, thn, els) =>
      LowerDeclares(thn, live, taken, x);
      LowerDeclares(els, live, taken, x);
    case For(vars, init, cond, post, body) =>
      LowerDeclares(init, live, taken, x);
      LowerDeclares(post, live + Decls(init), taken, x);
      LowerDeclares(body, live + Decls(init), taken, x);
      var plain := For([], Lower(init, taken), LowerExpr(cond, taken), Lower(post, taken), Lower(body, taken));
      CarriersDeclare(plain, Taken(vars, taken), Carrier(x.id));
    case _ =>
  }

  // ----- Entering a loop -----

  /** The init statement makes the variable's instance, and nothing holds it. */
  lemma {:induction false} InitStarts(ops: Ops, init: seq<Stmt>, st: State, fuel: nat, x: Name)
    requires DeclaredBy(init, x) && Bounded(st) && RunList(ops, init, st, fuel).0 == Normal
    ensures var s := RunList(ops, init, st, fuel).1; x in s.env && s.env[x] >= |st.heap| && Hidden(s, x, s.env[x])
    decreases init
  {
    var (r, s1) := Run(ops, init[0], st, fuel);
    RunBounded(ops, init[0], st, fuel);
    if init[0].x == x {
      var v := Eval(ops, init[0].e, st.env, st.heap).value;
      if Mentions(v, |st.heap|) { EvalBounded(ops, init[0].e, st, |st.heap|); }
      RunListHidden(ops, init[1..], s1, fuel, x, |st.heap|);
    } else {
      InitStarts(ops, init[1..], s1, fuel, x);
    }
  }

  // ----- The states of a loop -----

  function InnerLive(w: View, t: Stmt): set<Name>
    requires t.For?
  {
    w.live + Decls(t.init)
  }

  function Carriers(t: Stmt, taken: set<Name>): seq<Name>
    requires t.For?
  {
    Taken(t.vars, taken)
  }

  /** A loop that is entered in `s0` and `b0`, about to decide its condition or to run
      its post statement. */
  ghost predicate InHeader(taken: set<Name>, w: View, t: Stmt, f0: Inj, s0: State, b0: State, f: Inj, s: State, b: State)
    requires t.For?
  {
    && Entered(w, t, taken, f0, s0, b0) && Grows(f0, f, s0, s, b0, b)
    && Alike(taken, f, View(InnerLive(w, t), Elems(Carriers(t, taken))), s, b)
    && Bounded(s) && HiddenAll(t.vars, |s0.heap|, s)
  }

  ghost predicate Entered(w: View, t: Stmt, taken: set<Name>, f0: Inj, s0: State, b0: State)
    requires t.For?
  {
    w.ren == {} && w.Users() && WellStmt(t, w.live, taken) && (forall a <- f0 :: a < |s0.heap| && f0[a] < |b0.heap|)
  }

  /** After the body. */
  ghost predicate AfterBody(taken: set<Name>, w: View, t: Stmt, f0: Inj, s0: State, b0: State, f: Inj, s: State, b: State)
    requires t.For?
  {
    && Entered(w, t, taken, f0, s0, b0) && Grows(f0, f, s0, s, b0, b)
    && Alike(taken, f, View(InnerLive(w, t), {}), s, b) && Bounded(s)
    && Carried(Carriers(t, taken), b) && Apart(Carriers(t, taken), f, b)
    && (forall x <- Carriers(t, taken) :: Spot(CarrierOf(x), b) >= |b0.heap|)
    && (forall x <- t.vars :: x in s.env && s.env[x] >= |s0.heap| && (x !in taken ==> Hidden(s, x, s.env[x])))
  }

  lemma InnerUsers(w: View, t: Stmt, taken: set<Name>)
    requires t.For? && w.Users() && WellStmt(t, w.live, taken)
    ensures View(InnerLive(w, t), {}).Users() && AllUser(Carriers(t, taken))
    ensures forall x <- t.vars :: x in InnerLive(w, t) && x !in w.live
  {
    HeaderText(t, {}, w.live, taken);
    DeclsAreUsers(t.init, w.live, taken);
  }

  lemma {:induction false} DeclsAreUsers(list: seq<Stmt>, live: set<Name>, taken: set<Name>)
    requires Well(list, live, taken)
    ensures forall x <- Decls(list) :: x.User?
  {
    if list != [] { DeclsAreUsers(list[1..], live + Binds(list[0]), taken); }
  }

  /** The body begins. */
  lemma BodyBegins(taken: set<Name>, w: View, t: Stmt, f0: Inj, s0: State, b0: State, f: Inj, s: State, b: State) returns (f1: Inj)
    requires t.For? && InHeader(taken, w, t, f0, s0, b0, f, s, b)
    ensures var xs := Carriers(t, taken);
            && Carried(xs, b) && Alike(taken, f1, View(InnerLive(w, t), {}), s, Opened(xs, b))
            && OpenedWell(xs, f, f1, |s0.heap|, b, Opened(xs, b)) && Grows(f0, f1, s0, s, b0, Opened(xs, b))
            && (forall x <- xs :: Spot(CarrierOf(x), b) >= |b0.heap|)
            && (forall x <- xs, y <- xs :: x != y ==> Spot(CarrierOf(x), b) != Spot(CarrierOf(y), b))
  {
    var xs := Carriers(t, taken);
    InnerUsers(w, t, taken);
    TakenDistinct(t.vars, taken);
    f1 := OpenAll(taken, xs, f, InnerLive(w, t), |s0.heap|, s, b);
    var b1 := Opened(xs, b);
    forall a <- f0 ensures a in f1 && f1[a] == f0[a] { assert f[a] == f0[a]; }
    forall a <- f1 | a !in f0 ensures a >= |s0.heap| && f1[a] >= |b0.heap| { assert a in f; }
    forall i | 0 <= i < |b0.heap| && (forall a <- f0 :: f0[a] != i) ensures b1.heap[i] == b0.heap[i] { assert b.heap[i] == b0.heap[i]; }
    forall x <- xs ensures Spot(CarrierOf(x), b) >= |b0.heap| { assert s.env[x] !in f0; }
    forall x <- xs, y <- xs | x != y ensures Spot(CarrierOf(x), b) != Spot(CarrierOf(y), b) {
      assert f[s.env[x]] == Spot(CarrierOf(x), b) && f[s.env[y]] == Spot(CarrierOf(y), b);
      assert s.env[x] != s.env[y];
    }
  }

  /** What a body that ran leaves. */
  lemma BodyEnds(ops: Ops, taken: set<Name>, w: View, t: Stmt, f0: Inj, s0: State, b0: State, f: Inj, s: State, b: State,
      f1: Inj, f2: Inj, fuel: nat)
    requires t.For? && InHeader(taken, w, t, f0, s0, b0, f, s, b)
    requires var xs := Carriers(t, taken);
             && Carried(xs, b) && OpenedWell(xs, f, f1, |s0.heap|, b, Opened(xs, b)) && Grows(f0, f1, s0, s, b0, Opened(xs, b))
             && (forall x <- xs :: Spot(CarrierOf(x), b) >= |b0.heap|)
             && (forall x <- xs, y <- xs :: x != y ==> Spot(CarrierOf(x), b) != Spot(CarrierOf(y), b))
    requires Ran(taken, f1, f2, View(InnerLive(w, t), {}), s, Opened(Carriers(t, taken), b),
                 RunList(ops, t.body, s, fuel), RunList(ops, Lower(t.body, taken), Opened(Carriers(t, taken), b), fuel))
    ensures AfterBody(taken, w, t, f0, s0, b0, f2, RunList(ops, t.body, s, fuel).1,
                      RunList(ops, Lower(t.body, taken), Opened(Carriers(t, taken), b), fuel).1)
  {
    var xs := Carriers(t, taken);
    var b1 := Opened(xs, b);
    var s2, b2 := RunList(ops, t.body, s, fuel).1, RunList(ops, Lower(t.body, taken), b1, fuel).1;
    GrowsBoth(f0, f1, f2, s0, s, s2, b0, b1, b2);
    RunListBounded(ops, t.body, s, fuel);
    forall x <- xs ensures x.User? && Holds(CarrierOf(x), b2) && Spot(CarrierOf(x), b2) == Spot(CarrierOf(x), b) {
      assert Loops(t, x, w.live, taken);
      LowerDeclares(t.body, InnerLive(w, t), taken, x);
      RunListKeeps(ops, Lower(t.body, taken), b1, fuel, CarrierOf(x));
      assert SameInstance(b, b1, CarrierOf(x));
      assert Holds(CarrierOf(x), b);
    }
    forall x <- xs, a <- f2 ensures f2[a] != Spot(CarrierOf(x), b2) {
      assert Holds(CarrierOf(x), b);
      if a in f1 { assert f1[a] != Spot(CarrierOf(x), b); }
    }
    forall x <- t.vars ensures x in s2.env && s2.env[x] >= |s0.heap| && (x !in taken ==> Hidden(s2, x, s2.env[x])) {
      assert Loops(t, x, w.live, taken);
      RunListKeeps(ops, t.body, s, fuel, x);
      if x !in taken { RunListHidden(ops, t.body, s, fuel, x, s.env[x]); }
    }
  }

  /** The copies back and the next round's instances. */
  lemma NextBegins(taken: set<Name>, w: View, t: Stmt, f0: Inj, s0: State, b0: State, f: Inj, s: State, b: State) returns (f': Inj)
    requires t.For? && AfterBody(taken, w, t, f0, s0, b0, f, s, b)
    ensures Renew(t.vars, s).Some? && Paired(Carriers(t, taken), b)
    ensures InHeader(taken, w, t, f0, s0, b0, f', Renew(t.vars, s).value, Copied(Carriers(t, taken), b))
  {
    var xs, live := Carriers(t, taken), InnerLive(w, t);
    InnerUsers(w, t, taken);
    TakenDistinct(t.vars, taken);
    forall x <- t.vars ensures x in b.env && x in s.env && s.env[x] in f && b.env[x] == f[s.env[x]] < |b.heap| {
      assert SameName(f, View(live, {}), s.env, b.env, x);
    }
    forall x <- xs ensures Holds(x, b) { assert x in t.vars; }
    forall x <- xs, y <- xs ensures Spot(x, b) != Spot(CarrierOf(y), b) { assert x in t.vars; }
    CopyAll(taken, xs, f, View(live, {}), s, b);
    StillGrows(xs, f0, f, s0, s, b0, b);
    CopiesAreReady(taken, w, t, f0, s0, b0, f, s, b);
    assert Elems(t.vars) <= live by { assert forall x <- t.vars :: x in live; }
    assert Rests(f0, f, |s0.heap|, |b0.heap|);
    f' := RenewAll(taken, t.vars, f0, f, live, {}, |s0.heap|, |b0.heap|, s, Copied(xs, b));
    assert {} + Elems(t.vars) * taken == Elems(xs);
    assert Grows(f0, f', s0, Renew(t.vars, s).value, b0, Copied(xs, b));
  }

  lemma CopiesAreReady(taken: set<Name>, w: View, t: Stmt, f0: Inj, s0: State, b0: State, f: Inj, s: State, b: State)
    requires t.For? && AfterBody(taken, w, t, f0, s0, b0, f, s, b) && Paired(Carriers(t, taken), b)
    requires forall x <- t.vars :: x in b.env && x in s.env && s.env[x] in f && b.env[x] == f[s.env[x]] < |b.heap|
    requires var xs, b' := Carriers(t, taken), Copied(Carriers(t, taken), b);
             && b'.env == b.env && |b'.heap| == |b.heap|
             && (forall x <- xs :: b'.heap[Spot(CarrierOf(x), b)] == b.heap[Spot(x, b)])
             && (forall i :: 0 <= i < |b.heap| && (forall x <- xs :: Spot(CarrierOf(x), b) != i) ==> b'.heap[i] == b.heap[i])
    ensures Renewable(taken, t.vars, f, |s0.heap|, |b0.heap|, s, Copied(Carriers(t, taken), b))
  {
    var xs, b' := Carriers(t, taken), Copied(Carriers(t, taken), b);
    forall x <- t.vars ensures x.User? { assert Loops(t, x, w.live, taken); }
    forall x <- t.vars | x in taken ensures Reserved(x, f, |b0.heap|, b') {
      assert x in xs && Loops(t, x, w.live, taken) && Holds(CarrierOf(x), b);
      assert forall y <- xs :: Spot(CarrierOf(y), b) != Spot(x, b);
      assert b'.heap[Spot(x, b)] == b.heap[Spot(x, b)];
    }
    forall x <- t.vars, y <- t.vars | x in taken && y in taken && x != y ensures Spot(CarrierOf(x), b') != Spot(CarrierOf(y), b') {
      assert x in xs && y in xs;
    }
  }

  lemma StillGrows(xs: seq<Name>, f0: Inj, f: Inj, s0: State, s: State, b0: State, b: State)
    requires Grows(f0, f, s0, s, b0, b) && Paired(xs, b) && forall x <- xs :: Spot(CarrierOf(x), b) >= |b0.heap|
    requires |Copied(xs, b).heap| == |b.heap|
    requires forall i :: 0 <= i < |b.heap| && (forall x <- xs :: Spot(CarrierOf(x), b) != i) ==> Copied(xs, b).heap[i] == b.heap[i]
    ensures Grows(f0, f, s0, s, b0, Copied(xs, b))
  {
    forall i | 0 <= i < |b0.heap| && (forall a <- f0 :: f0[a] != i) ensures Copied(xs, b).heap[i] == b0.heap[i] {
      assert b.heap[i] == b0.heap[i];
      assert forall x <- xs :: Spot(CarrierOf(x), b) != i;
    }
  }

  // ----- Both texts run alike -----

  lemma {:induction false} LoweredRuns(ops: Ops, taken: set<Name>, w: View, t: Stmt, f: Inj, s: State, b: State, fuel: nat) returns (f': Inj)
    requires Alike(taken, f, w, s, b) && Bounded(s) && w.Users() && WellStmt(t, w.live, taken) && UncapturedStmt(t, w.ren)
    ensures Ran(taken, f, f', w, s, b, Run(ops, t, s, fuel), Run(ops, StmtOf(t, w, taken), b, fuel))
    ensures Run(ops, t, s, fuel).0 == Normal ==>
              Alike(taken, f', w.Plus(Binds(t)), Run(ops, t, s, fuel).1, Run(ops, StmtOf(t, w, taken), b, fuel).1)
    decreases fuel, t, 3
  {
    f' := f;
    if !t.Local? { assert w.Plus(Binds(t)) == w; }
    match t
    case Invoke(_) => f' := LoweredInvoke(ops, taken, w, t, f, s, b, fuel);
    case If(_, _, _) => f' := LoweredIf(ops, taken, w, t, f, s, b, fuel);
    case For(_, _, _, _, _) => f' := LoweredFor(ops, taken, w, t, f, s, b, fuel);
    case Break =>
    case Continue =>
    case Return =>
    case _ => f' := LoweredSimple(ops, taken, w, t, f, s, b, fuel);
  }

  lemma {:induction false} LoweredInvoke(ops: Ops, taken: set<Name>, w: View, t: Stmt, f: Inj, s: State, b: State, fuel: nat) returns (f': Inj)
    requires t.Invoke?
    requires Alike(taken, f, w, s, b) && Bounded(s) && w.Users() && WellStmt(t, w.live, taken) && UncapturedStmt(t, w.ren)
    ensures Ran(taken, f, f', w, s, b, Run(ops, t, s, fuel), Run(ops, StmtOf(t, w, taken), b, fuel))
    decreases fuel, t, 2
  {
    f' := f;
    SameEval(ops, taken, w, t.f, f, s, b);
    var v, v' := Eval(ops, t.f, s.env, s.heap), Eval(ops, ExprOf(t.f, w, taken), b.env, b.heap);
    if v.Some? && v.value.Closure? && fuel > 0 {
      forall y <- v.value.env ensures v.value.env[y] < |s.heap| { EvalBounded(ops, t.f, s, v.value.env[y]); }
      f' := LoweredCall(ops, taken, w, v.value, v'.value, f, s, b, fuel - 1);
    }
  }

  lemma {:induction false} LoweredIf(ops: Ops, taken: set<Name>, w: View, t: Stmt, f: Inj, s: State, b: State, fuel: nat) returns (f': Inj)
    requires t.If? && w.ren == {} && Alike(taken, f, w, s, b) && Bounded(s) && w.Users() && WellStmt(t, w.live, taken)
    ensures Ran(taken, f, f', w, s, b, Run(ops, t, s, fuel), Run(ops, StmtOf(t, w, taken), b, fuel))
    decreases fuel, t, 2
  {
    f' := f;
    UncapturedNone(t.c);
    SameEval(ops, taken, w, t.c, f, s, b);
    var v := Eval(ops, t.c, s.env, s.heap);
    if v.Some? && v.value.Int? {
      var list := if v.value.n != 0 then t.thn else t.els;
      forall i | 0 <= i < |list| ensures UncapturedStmt(list[i], {}) { UncapturedNoneStmt(list[i]); }
      f' := LoweredRunsList(ops, taken, w, list, f, s, b, fuel);
    }
  }

  lemma LoweredSimple(ops: Ops, taken: set<Name>, w: View, t: Stmt, f: Inj, s: State, b: State, fuel: nat) returns (f': Inj)
    requires Alike(taken, f, w, s, b) && w.Users() && WellStmt(t, w.live, taken) && UncapturedStmt(t, w.ren)
    requires t.Set? || t.Store? || t.Local? || t.Emit?
    ensures Ran(taken, f, f', w, s, b, Run(ops, t, s, fuel), Run(ops, StmtOf(t, w, taken), b, fuel))
    ensures Run(ops, t, s, fuel).0 == Normal ==>
              Alike(taken, f', w.Plus(Binds(t)), Run(ops, t, s, fuel).1, Run(ops, StmtOf(t, w, taken), b, fuel).1)
  {
    f' := f;
    if t.Set? || t.Store? {
      assert w.Plus(Binds(t)) == w;
      LoweredAssign(ops, taken, w, t, f, s, b, fuel);
      return;
    }
    SameEval(ops, taken, w, t.e, f, s, b);
    var v, v' := Eval(ops, t.e, s.env, s.heap), Eval(ops, ExprOf(t.e, w, taken), b.env, b.heap);
    if t.Emit? {
      assert w.Plus(Binds(t)) == w;
    } else if v.Some? {
      SameLocal(taken, f, w, s, b, t.x, v.value, v'.value);
      f' := f[|s.heap| := |b.heap|];
      SmallerScope(taken, f', w.Plus({t.x}), w, Run(ops, t, s, fuel).1, Run(ops, StmtOf(t, w, taken), b, fuel).1);
    }
  }

  lemma LoweredAssign(ops: Ops, taken: set<Name>, w: View, t: Stmt, f: Inj, s: State, b: State, fuel: nat)
    requires Alike(taken, f, w, s, b) && w.Users() && WellStmt(t, w.live, taken) && UncapturedStmt(t, w.ren) && (t.Set? || t.Store?)
    ensures Ran(taken, f, f, w, s, b, Run(ops, t, s, fuel), Run(ops, StmtOf(t, w, taken), b, fuel))
  {
    SameEval(ops, taken, w, t.e, f, s, b);
    var v, v' := Eval(ops, t.e, s.env, s.heap), Eval(ops, ExprOf(t.e, w, taken), b.env, b.heap);
    match t
    case Set(x, _) =>
      assert SameName(f, w, s.env, b.env, x);
      if v.Some? && x in s.env { SameWrite(taken, f, w, s, b, s.env[x], v.value, v'.value); }
    case Store(p, _) =>
      SameEval(ops, taken, w, p, f, s, b);
      var at := Eval(ops, p, s.env, s.heap);
      if at.Some? && v.Some? && at.value.Ptr? { SameWrite(taken, f, w, s, b, at.value.at, v.value, v'.value); }
  }

  /** A closure runs with the instances it captured, and its text is the builder's. */
  lemma {:induction false} LoweredCall(ops: Ops, taken: set<Name>, w: View, v: Value, v': Value, f: Inj, s: State, b: State, fuel: nat)
    returns (f': Inj)
    requires Alike(taken, f, w, s, b) && SameValue(taken, f, v, v') && v.Closure? && Bounded(s.(env := v.env))
    ensures Ran(taken, f, f', w, s, b, Call(ops, v, s, fuel), Call(ops, v', b, fuel))
    decreases fuel
  {
    var inside := View(v.caps, {});
    forall i | 0 <= i < |v.body| ensures UncapturedStmt(v.body[i], {}) { UncapturedNoneStmt(v.body[i]); }
    RenameNone(Lower(v.body, taken));
    f' := LoweredRunsList(ops, taken, inside, v.body, f, s.(env := v.env), b.(env := v'.env), fuel);
    SameEnvLater(f, f', w, s.env, b.env);
  }

  lemma {:induction false} LoweredRunsList(ops: Ops, taken: set<Name>, w: View, list: seq<Stmt>, f: Inj, s: State, b: State, fuel: nat)
    returns (f': Inj)
    requires Alike(taken, f, w, s, b) && Bounded(s) && w.Users() && Well(list, w.live, taken) && UncapturedList(list, w.ren)
    ensures Ran(taken, f, f', w, s, b, RunList(ops, list, s, fuel), RunList(ops, TextOf(list, w, taken), b, fuel))
    ensures RunList(ops, list, s, fuel).0 == Normal ==>
              Alike(taken, f', w.Plus(Decls(list)), RunList(ops, list, s, fuel).1, RunList(ops, TextOf(list, w, taken), b, fuel).1)
    decreases fuel, list, 0
  {
    f' := f;
    if list == [] {
      assert w.Plus(Decls(list)) == w;
    } else {
      var t, tail, w1 := list[0], list[1..], w.Plus(Binds(list[0]));
      f' := LoweredRuns(ops, taken, w, t, f, s, b, fuel);
      RunBounded(ops, t, s, fuel);
      var (r, s1) := Run(ops, t, s, fuel);
      var b1 := Run(ops, StmtOf(t, w, taken), b, fuel).1;
      TextFirst(list, w, taken);
      if r == Normal {
        var f1 := f';
        f' := LoweredRunsList(ops, taken, w1, tail, f1, s1, b1, fuel);
        var p, q := RunList(ops, tail, s1, fuel), RunList(ops, TextOf(tail, w, taken), b1, fuel);
        GrowsBoth(f, f1, f', s, s1, p.1, b, b1, q.1);
        SmallerScope(taken, f', w1, w, p.1, q.1);
        assert w1.Plus(Decls(tail)) == w.Plus(Decls(list));
      }
    }
  }

  lemma TextFirst(list: seq<Stmt>, w: View, taken: set<Name>)
    requires list != []
    ensures TextOf(list, w, taken) == [StmtOf(list[0], w, taken)] + TextOf(list[1..], w, taken)
    ensures TextOf(list, w, taken)[1..] == TextOf(list[1..], w, taken)
  {
    assert Lower(list, taken)[1..] == Lower(list[1..], taken);
  }

  // ----- Loops -----

  /** The builder's loop. */
  function LoopOf(t: Stmt, taken: set<Name>): Stmt
    requires t.For? && AllUser(Carriers(t, taken))
  {
    var xs := Carriers(t, taken);
    For([], Rename(Lower(t.init, taken), Elems(xs)), RenameExpr(LowerExpr(t.cond, taken), Elems(xs)),
        Copies(xs) + Rename(Lower(t.post, taken), Elems(xs)), Opens(xs) + Lower(t.body, taken))
  }

  lemma LoopText(t: Stmt, live: set<Name>, taken: set<Name>)
    requires t.For? && Convertible(t, live, taken)
    ensures AllUser(Carriers(t, taken)) && RenameStmt(LowerStmt(t, taken), {}) == LoopOf(t, taken)
  {
    var xs := Carriers(t, taken);
    TakenDistinct(t.vars, taken);
    assert forall x <- xs :: x in t.vars && Loops(t, x, live, taken);
    var plain := For([], Lower(t.init, taken), LowerExpr(t.cond, taken), Lower(t.post, taken), Lower(t.body, taken));
    CarriersText(plain, xs);
    RenameNoneStmt(LowerStmt(t, taken));
  }

  lemma {:induction false} LoweredFor(ops: Ops, taken: set<Name>, w: View, t: Stmt, f: Inj, s: State, b: State, fuel: nat) returns (f': Inj)
    requires t.For? && w.ren == {} && Alike(taken, f, w, s, b) && Bounded(s) && w.Users() && WellStmt(t, w.live, taken)
    ensures Ran(taken, f, f', w, s, b, Run(ops, t, s, fuel), Run(ops, StmtOf(t, w, taken), b, fuel))
    decreases fuel, t, 2
  {
    LoopText(t, w.live, taken);
    var xs, t' := Carriers(t, taken), LoopOf(t, taken);
    var h := View(w.live, Elems(xs));
    HeaderText(t, Elems(xs), w.live, taken);
    InnerUsers(w, t, taken);
    forall y <- w.live ensures h.Of(y) == w.Of(y) { }
    SmallerScope(taken, f, w, h, s, b);
    f' := LoweredRunsList(ops, taken, h, t.init, f, s, b, fuel);
    var p, q := RunList(ops, t.init, s, fuel), RunList(ops, t'.init, b, fuel);
    SmallerScope(taken, f', h, w, p.1, q.1);
    if p.0 == Normal {
      RunListBounded(ops, t.init, s, fuel);
      forall x <- t.vars ensures x in p.1.env && p.1.env[x] >= |s.heap| && Hidden(p.1, x, p.1.env[x]) {
        assert Loops(t, x, w.live, taken);
        InitStarts(ops, t.init, s, fuel, x);
      }
      assert InHeader(taken, w, t, f, s, b, f', p.1, q.1);
      f' := LoweredRounds(ops, taken, w, t, f, s, b, f', p.1, q.1, fuel);
    }
  }

  /** What follows the body, in either loop. */
  function AfterRound(ops: Ops, s: Stmt, st: State, fuel: nat): (End, State)
    requires s.For?
  {
    var st2 := Renew(s.vars, st);
    if st2.None? then (Panics, st)
    else
      var (r', st3) := RunList(ops, s.post, st2.value, fuel);
      if r' != Normal then (r', st3)
      else if fuel == 0 then (Unfinished, st3)
      else Rounds(ops, s, st3, fuel - 1)
  }

  lemma RoundRuns(ops: Ops, s: Stmt, st: State, fuel: nat)
    requires s.For? && Eval(ops, s.cond, st.env, st.heap).Some?
    requires var v := Eval(ops, s.cond, st.env, st.heap).value; v.Int? && v.n != 0
    ensures var p := RunList(ops, s.body, st, fuel);
            Rounds(ops, s, st, fuel) ==
            if p.0 == Breaks then (Normal, p.1)
            else if p.0 != Normal && p.0 != Continues then p
            else AfterRound(ops, s, p.1, fuel)
  {
  }

  /** The rounds, whatever the loop has done before. */
  lemma {:induction false} LoweredRounds(ops: Ops, taken: set<Name>, w: View, t: Stmt, f0: Inj, s0: State, b0: State,
      f: Inj, s: State, b: State, fuel: nat) returns (f': Inj)
    requires t.For? && InHeader(taken, w, t, f0, s0, b0, f, s, b)
    ensures AllUser(Carriers(t, taken))
    ensures Ran(taken, f0, f', w, s0, b0, Rounds(ops, t, s, fuel), Rounds(ops, LoopOf(t, taken), b, fuel))
    decreases fuel, t, 1
  {
    InnerUsers(w, t, taken);
    var xs, t', live := Carriers(t, taken), LoopOf(t, taken), InnerLive(w, t);
    var h, inner := View(live, Elems(xs)), View(live, {});
    HeaderText(t, Elems(xs), w.live, taken);
    SameEval(ops, taken, h, t.cond, f, s, b);
    f' := f;
    SmallerScope(taken, f, h, w, s, b);
    var v := Eval(ops, t.cond, s.env, s.heap);
    if v.Some? && v.value.Int? && v.value.n != 0 {
      f' := LoweredBody(ops, taken, w, t, f0, s0, b0, f, s, b, fuel);
      var p, q := RunList(ops, t.body, s, fuel), RunList(ops, t'.body, b, fuel);
      SmallerScope(taken, f', inner, w, p.1, q.1);
      RoundRuns(ops, t, s, fuel);
      RoundRuns(ops, t', b, fuel);
      if p.0 == Normal || p.0 == Continues {
        f' := LoweredNext(ops, taken, w, t, f0, s0, b0, f', p.1, q.1, fuel);
      }
    }
  }

  lemma {:induction false} LoweredBody(ops: Ops, taken: set<Name>, w: View, t: Stmt, f0: Inj, s0: State, b0: State,
      f: Inj, s: State, b: State, fuel: nat) returns (f2: Inj)
    requires t.For? && InHeader(taken, w, t, f0, s0, b0, f, s, b)
    ensures AllUser(Carriers(t, taken))
    ensures var p, q := RunList(ops, t.body, s, fuel), RunList(ops, LoopOf(t, taken).body, b, fuel);
            p.0 == q.0 && AfterBody(taken, w, t, f0, s0, b0, f2, p.1, q.1)
    decreases fuel, t, 0
  {
    InnerUsers(w, t, taken);
    var xs, inner := Carriers(t, taken), View(InnerLive(w, t), {});
    var f1 := BodyBegins(taken, w, t, f0, s0, b0, f, s, b);
    OpensRun(ops, xs, Lower(t.body, taken), b, fuel);
    forall i | 0 <= i < |t.body| ensures UncapturedStmt(t.body[i], {}) { UncapturedNoneStmt(t.body[i]); }
    RenameNone(Lower(t.body, taken));
    f2 := LoweredRunsList(ops, taken, inner, t.body, f1, s, Opened(xs, b), fuel);
    BodyEnds(ops, taken, w, t, f0, s0, b0, f, s, b, f1, f2, fuel);
  }

  lemma {:induction false} LoweredNext(ops: Ops, taken: set<Name>, w: View, t: Stmt, f0: Inj, s0: State, b0: State,
      f: Inj, s: State, b: State, fuel: nat) returns (f': Inj)
    requires t.For? && AfterBody(taken, w, t, f0, s0, b0, f, s, b)
    ensures AllUser(Carriers(t, taken))
    ensures Ran(taken, f0, f', w, s0, b0, AfterRound(ops, t, s, fuel), AfterRound(ops, LoopOf(t, taken), b, fuel))
    decreases fuel, t, 0
  {
    InnerUsers(w, t, taken);
    var xs, t', live := Carriers(t, taken), LoopOf(t, taken), InnerLive(w, t);
    var h := View(live, Elems(xs));
    var f3 := NextBegins(taken, w, t, f0, s0, b0, f, s, b);
    var s3, b3 := Renew(t.vars, s).value, Copied(xs, b);
    var post' := Rename(Lower(t.post, taken), Elems(xs));
    CopiesRun(ops, xs, post', b, fuel);
    HeaderText(t, Elems(xs), w.live, taken);
    f' := LoweredRunsList(ops, taken, h, t.post, f3, s3, b3, fuel);
    var p, q := RunList(ops, t.post, s3, fuel), RunList(ops, post', b3, fuel);
    GrowsBoth(f0, f3, f', s0, s3, p.1, b0, b3, q.1);
    SmallerScope(taken, f', h, w, p.1, q.1);
    assert Renew(t'.vars, b) == Some(b);
    if p.0 == Normal && fuel > 0 {
      RunListBounded(ops, t.post, s3, fuel);
      forall x <- t.vars ensures x in p.1.env && p.1.env[x] >= |s0.heap| && Hidden(p.1, x, p.1.env[x]) {
        assert Loops(t, x, w.live, taken);
        RunListHidden(ops, t.post, s3, fuel, x, s3.env[x]);
      }
      assert InHeader(taken, w, t, f0, s0, b0, f', p.1, q.1);
      f' := LoweredRounds(ops, taken, w, t, f0, s0, b0, f', p.1, q.1, fuel - 1);
    }
  }

  // ----- Bodies -----

  /** Any text of the source, in any two states that agree: the builder's text ends as
      the source does and emits the same, and the memories and the variables in scope
      agree again, the closures and the pointers that are left behind among them. So
      whatever runs next agrees too. */
  lemma LoweredMeans(ops: Ops, taken: set<Name>, live: set<Name>, list: seq<Stmt>, f: Inj, s: State, b: State, fuel: nat) returns (f': Inj)
    requires (forall y <- live :: y.User?) && Well(list, live, taken) && Bounded(s) && Alike(taken, f, View(live, {}), s, b)
    ensures var p, q := RunList(ops, list, s, fuel), RunList(ops, Lower(list, taken), b, fuel);
            && p.0 == q.0 && p.1.out == q.1.out && Bounded(p.1) && Grows(f, f', s, p.1, b, q.1)
            && Alike(taken, f', View(if p.0 == Normal then live + Decls(list) else live, {}), p.1, q.1)
  {
    forall i | 0 <= i < |list| ensures UncapturedStmt(list[i], {}) { UncapturedNoneStmt(list[i]); }
    RenameNone(Lower(list, taken));
    RunListBounded(ops, list, s, fuel);
    f' := LoweredRunsList(ops, taken, View(live, {}), list, f, s, b, fuel);
  }

  /** A whole body, begun in one empty state. */
  lemma CarriersMeanPerRound(ops: Ops, taken: set<Name>, list: seq<Stmt>, fuel: nat)
    requires Well(list, {}, taken)
    ensures var p, q := RunList(ops, list, State(map[], [], []), fuel), RunList(ops, Lower(list, taken), State(map[], [], []), fuel);
            p.0 == q.0 && p.1.out == q.1.out
  {
    var st := State(map[], [], []);
    assert Alike(taken, map[], View({}, {}), st, st);
    var f := LoweredMeans(ops, taken, {}, list, map[], st, st, fuel);
  }
}

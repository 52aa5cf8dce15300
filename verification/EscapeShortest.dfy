/** The walk finds, for each variable and each result, the ways from the
    parameter with the fewest loads, and refuses exactly when a way leaves. So a
    note names a result exactly when a way without a load leads to it. */
module EscapeShortest {
  import opened IR
  import opened Leaks
  import opened Wrappers
  import opened EscapeWalk
  import opened EscapeConstraints
  import opened EscapeRun
  import opened EscapeWays
  import opened EscapePaths
  import opened EscapeLocal
  import opened EscapeSplits
  import opened EscapeAnalysis

  // ----- Ways through a body -----

  ghost predicate PassesIn(fn: Func, n: Node, v: Object, t: Target, l: nat) {
    n.Node? && Evaluated(fn.body, n) && Passes(fn.results, n, v, t, l)
  }

  /** Some statement of the body passes what one variable holds to another. */
  ghost function Between(fn: Func): Edges<Object> { (v: Object, o: Object, l: nat) => exists n :: PassesIn(fn, n, v, Var(o), l) }

  /** Some statement of the body returns what a variable holds as a result that
      a note can name. */
  ghost function Out(fn: Func): Exits<Object> {
    (v: Object, i: nat, l: nat) => i < NAMED_RESULTS && exists n :: PassesIn(fn, n, v, Res(i), l)
  }

  /** What the parameter holds gets to the variable, after `k` loads. */
  ghost predicate Gets(fn: Func, param: Object, o: Object, k: nat) { Reaches(Between(fn), param, o, k) }

  /** A return statement hands it to result i, after `k` loads. */
  ghost predicate IsReturned(fn: Func, param: Object, i: nat, k: nat) { GetsOut(Between(fn), Out(fn), param, i, k) }

  /** It leaves where no note can follow it, or the body is not one that the
      builder makes. */
  ghost predicate EscapesAt(fn: Func, param: Object, n: Node) {
    && n.Node? && Evaluated(fn.body, n)
    && (Broken(n) || exists v, k :: Gets(fn, param, v, k) && Leaves(fn.results, n, v))
  }

  ghost predicate Escapes(fn: Func, param: Object) { exists n :: EscapesAt(fn, param, n) }

  // ----- A solution is below every way -----

  lemma NodesAreLocal(fn: Func, param: Object, T: Taints, R: Depths, i: nat, n: Node)
    requires Fits(T) && Solution(fn, param, T, R) && Evaluated(fn.body, n)
    ensures n.Node? && Local(fn.results, T, At(R, i), n)
  {
    assert SolvesAll(fn.results, T, At(R, i), fn.body);
    SolvesEverywhere(fn.results, T, At(R, i), fn.body);
  }

  lemma SolutionIsClosed(fn: Func, param: Object, T: Taints, R: Depths)
    requires Fits(T) && Solution(fn, param, T, R)
    ensures Closed(Between(fn), param, T)
  {
    var E := Between(fn);
    forall v, w, l {:trigger E(v, w, l)} | v in T && E(v, w, l) ensures w in T && T[w] <= Sat(T[v] + l) {
      var n :| PassesIn(fn, n, v, Var(w), l);
      NodesAreLocal(fn, param, T, R, 0, n);
      assert Reflects(T, At(R, 0), Var(w), Sat(T[v] + l));
    }
  }

  lemma SolutionReturns(fn: Func, param: Object, T: Taints, R: Depths, v: Object, i: nat, l: nat)
    requires Fits(T) && Solution(fn, param, T, R) && v in T && Out(fn)(v, i, l)
    ensures i in R && R[i] <= Sat(T[v] + l)
  {
    var n :| PassesIn(fn, n, v, Res(i), l);
    NodesAreLocal(fn, param, T, R, i, n);
    assert Reflects(T, At(R, i), Res(i), Sat(T[v] + l));
  }

  lemma SolutionKeeps(fn: Func, param: Object, T: Taints, R: Depths)
    requires Fits(T) && Solution(fn, param, T, R)
    ensures !Escapes(fn, param)
  {
    SolutionIsClosed(fn, param, T, R);
    forall n: Node | n.Node? && Evaluated(fn.body, n) ensures !EscapesAt(fn, param, n) {
      NodesAreLocal(fn, param, T, R, 0, n);
      forall v, k | Gets(fn, param, v, k) ensures !Leaves(fn.results, n, v) {
        ReachesIsAbove(Between(fn), param, T, v, k);
      }
    }
  }

  // ----- Names -----

  /** The variables that the body names, and the parameter. */
  function Variables(fn: Func, param: Object): set<Object> { ObjectsAll(fn.body) + {param} }

  lemma {:induction false} PartOfNames(d: Node, o: Object)
    requires PartOf(d, o) && o.Object?
    ensures o in Objects(d)
  {
    if !IsUse(d) { PartOfNames(d.x, o); }
  }

  lemma PassesNames(rs: seq<Object>, n: Node, v: Object, o: Object, k: nat)
    requires n.Node? && Passes(rs, n, v, Var(o), k)
    ensures o in Objects(n)
  {
    if n.op.OAssign? {
      var d :| IsDestination(n, d) && Gives(d, o);
      PartOfNames(d, o);
      if d in n.args { ObjectsOf(n.args, d); }
    } else if n.op.ORange? {
      var d :| d in n.args && Gives(d, o);
      PartOfNames(d, o);
      ObjectsOf(n.args, d);
    } else {
      var c :| c in n.body && Binds(c, o);
      ObjectsOf(n.body, c);
    }
  }

  lemma {:induction false} WordPartNames(n: Node, q: Node)
    requires WordPart(n, q)
    ensures Objects(q) <= Objects(n)
  {
    if q in n.init { ObjectsOf(n.init, q); }
    else if n.op.OUnary? || n.op.OBinary? {
      if WordPart(n.x, q) { WordPartNames(n.x, q); } else { WordPartNames(n.y, q); }
    }
  }

  lemma {:induction false} BehindNames(n: Node, base: Node)
    requires Behind(n, base)
    ensures Objects(base) <= Objects(n)
  {
    if !n.op.ODeref? && !(n.op.OIndex? && base == n.x) { BehindNames(n.x, base); }
  }

  lemma {:induction false} IndexNames(n: Node, q: Node)
    requires IndexIn(n, q)
    ensures Objects(q) <= Objects(n)
  {
    if !(n.op.OIndex? && q == n.y) { IndexNames(n.x, q); }
  }

  lemma PartNames(n: Node, q: Node)
    requires n.Node? && Part(n, q)
    ensures Objects(q) <= Objects(n)
  {
    if q in n.init { ObjectsOf(n.init, q); }
    else if q in n.args { ObjectsOf(n.args, q); }
    else if q in n.body { ObjectsOf(n.body, q); }
    else if q in n.post { ObjectsOf(n.post, q); }
    else if q in n.els { ObjectsOf(n.els, q); }
    else if q == n.x || q == n.y { }
    else if n.op.OAddr? { BehindNames(n.x, q); }
    else if n.op.OConvert? { WordPartNames(n.x, q); }
    else if n.op.OTypeSwitch? {
      var c :| c in n.body && ClausePart(c, q);
      ObjectsOf(n.body, c);
      if q in c.init { ObjectsOf(c.init, q); } else if q in c.args { ObjectsOf(c.args, q); } else { ObjectsOf(c.body, q); }
    } else { OtherPartNames(n, q); }
  }

  lemma OtherPartNames(n: Node, q: Node)
    requires n.Node? && (n.op.OCompositeLit? || n.op.OAssign? || n.op.ORange?) && Part(n, q)
    requires q !in n.init && q !in n.args && q !in n.body && q != n.x && q != n.y
    ensures Objects(q) <= Objects(n)
  {
    if n.op.OCompositeLit? {
      var a :| a in n.args && ElementPart(a, q);
      ObjectsOf(n.args, a);
      if Keyed(a) && q in a.init { ObjectsOf(a.init, q); }
    } else if n.op.OAssign? {
      var d :| IsDestination(n, d) && DestinationPart(d, q);
      if d in n.args { ObjectsOf(n.args, d); }
      IndexNames(d, q);
    } else {
      var d :| d in n.args && d.Node? && (q in d.init || DestinationPart(d, q));
      ObjectsOf(n.args, d);
      if q in d.init { ObjectsOf(d.init, q); } else { IndexNames(d, q); }
    }
  }

  lemma {:induction false} TrailNames(trail: seq<Node>)
    requires Descends(trail)
    ensures Objects(trail[|trail| - 1]) <= Objects(trail[0])
  {
    if |trail| > 1 {
      var rest := trail[1..];
      forall i | 0 <= i < |rest| - 1 ensures Part(rest[i], rest[i + 1]) { assert Part(trail[i + 1], trail[i + 2]); }
      TrailNames(rest);
      assert Part(trail[0], trail[1]);
      PartNames(trail[0], trail[1]);
    }
  }

  lemma EvaluatedNames(ns: seq<Node>, m: Node)
    requires Evaluated(ns, m)
    ensures Objects(m) <= ObjectsAll(ns)
  {
    var trail :| Descends(trail) && trail[0] in ns && trail[|trail| - 1] == m;
    TrailNames(trail);
    ObjectsOf(ns, trail[0]);
  }

  lemma EdgesAreNamed(fn: Func, param: Object)
    ensures var E := Between(fn); forall v, w, l {:trigger E(v, w, l)} :: E(v, w, l) ==> w in Variables(fn, param)
  {
    var E := Between(fn);
    forall v, w, l {:trigger E(v, w, l)} | E(v, w, l) ensures w in Variables(fn, param) {
      var n :| PassesIn(fn, n, v, Var(w), l);
      EvaluatedNames(fn.body, n);
      PassesNames(fn.results, n, v, w, l);
    }
  }

  // ----- The fewest loads are a solution -----

  /** The fewest loads of any way to each variable, and to each result. */
  ghost function Depth(fn: Func, param: Object): Taints { Shortest(Between(fn), param, Variables(fn, param)) }

  ghost function DepthOut(fn: Func, param: Object): Depths { ShortestOut(Between(fn), Out(fn), param, NAMED_RESULTS) }

  /** No byte stands for a result further on. */
  lemma EscapesBeyond(fn: Func, param: Object, n: Node, v: Object, j: nat, i: nat, l: nat)
    requires Gets(fn, param, v, j) && PassesIn(fn, n, v, Res(i), l) && i >= NAMED_RESULTS
    ensures Escapes(fn, param)
  {
    assert Bears(n.args[i], v);
    assert Leaves(fn.results, n, v);
    assert EscapesAt(fn, param, n);
  }

  lemma DepthReflects(fn: Func, param: Object, i: nat, n: Node, v: Object, t: Target, l: nat)
    requires !Escapes(fn, param) && v in Depth(fn, param) && PassesIn(fn, n, v, t, l)
    ensures Reflects(Depth(fn, param), At(DepthOut(fn, param), i), t, Sat(Depth(fn, param)[v] + l))
  {
    var E, X, U := Between(fn), Out(fn), Variables(fn, param);
    match t
    case Var(o) =>
      EdgesAreNamed(fn, param);
      ShortestIsClosed(E, param, U);
      assert E(v, o, l);
    case Res(r) =>
      if r >= NAMED_RESULTS {
        var j := ShortestIsReached(E, param, U, v);
        EscapesBeyond(fn, param, n, v, j, r, l);
      }
      assert X(v, r, l);
      ShortestOutIsClosed(E, X, param, U, NAMED_RESULTS, v, r, l);
  }

  lemma DepthIsLocal(fn: Func, param: Object, i: nat, n: Node)
    requires !Escapes(fn, param) && Evaluated(fn.body, n)
    ensures n.Node? && Local(fn.results, Depth(fn, param), At(DepthOut(fn, param), i), n)
  {
    var T, R := Depth(fn, param), DepthOut(fn, param);
    assert n.Node? && !EscapesAt(fn, param, n);
    forall v | v in T ensures !Leaves(fn.results, n, v) {
      var k := ShortestIsReached(Between(fn), param, Variables(fn, param), v);
      assert Gets(fn, param, v, k);
    }
    forall v, t, l | v in T && Passes(fn.results, n, v, t, l) ensures Reflects(T, At(R, i), t, Sat(T[v] + l)) {
      DepthReflects(fn, param, i, n, v, t, l);
    }
  }

  /** When nothing escapes, the fewest loads of any way solve the constraints. */
  lemma DepthSolves(fn: Func, param: Object)
    requires !Escapes(fn, param)
    ensures Fits(Depth(fn, param)) && Solution(fn, param, Depth(fn, param), DepthOut(fn, param))
  {
    var T, R := Depth(fn, param), DepthOut(fn, param);
    EdgesAreNamed(fn, param);
    ShortestIsClosed(Between(fn), param, Variables(fn, param));
    forall i: nat ensures SolvesAll(fn.results, T, At(R, i), fn.body) {
      forall n | Evaluated(fn.body, n) ensures n.Node? && Local(fn.results, T, At(R, i), n) {
        DepthIsLocal(fn, param, i, n);
      }
      SolvesEverywhere(fn.results, T, At(R, i), fn.body);
    }
  }

  // ----- What the walk finds -----

  lemma {:induction false} IterateReached(fn: Func, s: State, round: nat, T: Taints, R: Depths)
    requires forall i: nat :: SolvesAll(fn.results, T, At(R, i), fn.body)
    requires !s.leaked && ClaimsMore(T, R, s.tainted, s.results) && Reached(s, T, 0)
    ensures var r := Iterate(fn, s, round); r.Settled? ==> Reached(r.state, T, 0)
    decreases MAX_ROUNDS + 1 - round
  {
    if round <= MAX_ROUNDS {
      RoundBelow(fn, s, T, R);
      RoundSettlesOne(fn, s, T, R, 0);
      if Round(fn, s).changed { IterateReached(fn, Round(fn, s), round + 1, T, R); }
    }
  }

  lemma SettledFits(fn: Func, param: Object)
    ensures var r := Iterate(fn, Start(param), 0); r.Settled? ==> Fits(r.state.tainted)
  {
    var r := Iterate(fn, Start(param), 0);
    LeastSolution(fn, param);
    if r.Settled? { IterateReached(fn, Start(param), 0, r.state.tainted, r.state.results); }
  }

  lemma GetsIsAbove(fn: Func, param: Object, T: Taints, R: Depths, o: Object)
    requires Fits(T) && Solution(fn, param, T, R) && o in Depth(fn, param)
    ensures o in T && T[o] <= Depth(fn, param)[o]
  {
    SolutionIsClosed(fn, param, T, R);
    var k := ShortestIsReached(Between(fn), param, Variables(fn, param), o);
    ReachesIsAbove(Between(fn), param, T, o, k);
  }

  lemma ReturnedIsAbove(fn: Func, param: Object, T: Taints, R: Depths, i: nat)
    requires Fits(T) && Solution(fn, param, T, R) && i in DepthOut(fn, param)
    ensures i in R && R[i] <= DepthOut(fn, param)[i]
  {
    var k := ShortestOutIsReached(Between(fn), Out(fn), param, NAMED_RESULTS, i);
    IsReturnedIsAbove(fn, param, T, R, i, k);
  }

  lemma AllReturn(fn: Func, param: Object, T: Taints, R: Depths, i: nat)
    requires Fits(T) && Solution(fn, param, T, R)
    ensures ClosedOut(Out(fn), T, R, i)
  {
    var X := Out(fn);
    forall v, l {:trigger X(v, i, l)} | v in T && X(v, i, l) ensures i in R && R[i] <= Sat(T[v] + l) {
      SolutionReturns(fn, param, T, R, v, i, l);
    }
  }

  lemma IsReturnedIsAbove(fn: Func, param: Object, T: Taints, R: Depths, i: nat, k: nat)
    requires Fits(T) && Solution(fn, param, T, R) && IsReturned(fn, param, i, k)
    ensures i in R && R[i] <= Sat(k)
  {
    SolutionIsClosed(fn, param, T, R);
    AllReturn(fn, param, T, R, i);
    OutIsAbove(Between(fn), Out(fn), param, T, R, i, k);
  }

  lemma SolutionClaimsMore(fn: Func, param: Object, T: Taints, R: Depths)
    requires Fits(T) && Solution(fn, param, T, R)
    ensures ClaimsMore(T, R, Depth(fn, param), DepthOut(fn, param))
  {
    forall o | o in Depth(fn, param) ensures o in T && T[o] <= Depth(fn, param)[o] { GetsIsAbove(fn, param, T, R, o); }
    forall i | i in DepthOut(fn, param) ensures i in R && R[i] <= DepthOut(fn, param)[i] {
      ReturnedIsAbove(fn, param, T, R, i);
    }
  }

  lemma SolvedIsShortest(fn: Func, param: Object, T: Taints, R: Depths)
    requires Fits(T) && Solution(fn, param, T, R)
    requires forall T', R' :: Solution(fn, param, T', R') ==> ClaimsMore(T', R', T, R)
    ensures !Escapes(fn, param) && T == Depth(fn, param) && R == DepthOut(fn, param)
  {
    SolutionKeeps(fn, param, T, R);
    DepthSolves(fn, param);
    SolutionClaimsMore(fn, param, T, R);
    assert ClaimsMore(Depth(fn, param), DepthOut(fn, param), T, R);
    SameMaps(Depth(fn, param), T);
    SameMaps(DepthOut(fn, param), R);
  }

  /** The walk settles exactly when nothing escapes, and then with the fewest
      loads of any way to each variable and each result. In a body that names
      no more variables than there are rounds it does one or the other. */
  lemma WalkFindsShortest(fn: Func, param: Object)
    ensures var r := Iterate(fn, Start(param), 0);
            && (r.Settled? ==> !Escapes(fn, param) && r.state.tainted == Depth(fn, param) && r.state.results == DepthOut(fn, param))
            && (r.Leaked? ==> Escapes(fn, param))
            && (r.OutOfRounds? && !Escapes(fn, param) ==> |Variables(fn, param)| > MAX_ROUNDS + 1)
  {
    var r := Iterate(fn, Start(param), 0);
    LeastSolution(fn, param);
    if r.Settled? {
      SettledFits(fn, param);
      SolvedIsShortest(fn, param, r.state.tainted, r.state.results);
    } else if !Escapes(fn, param) {
      DepthSolves(fn, param);
      assert Depth(fn, param).Keys <= Variables(fn, param);
      NoMore(Depth(fn, param).Keys, Variables(fn, param));
    }
  }

  /** The depth that the walk settles with is the least number of loads on any
      way, as far as a byte counts. */
  lemma DepthIsLeast(fn: Func, param: Object, o: Object)
    ensures o in Depth(fn, param) <==> exists k :: Gets(fn, param, o, k)
    ensures o in Depth(fn, param) ==>
              (exists k :: Gets(fn, param, o, k) && Depth(fn, param)[o] == Sat(k))
    ensures forall k :: Gets(fn, param, o, k) ==> o in Depth(fn, param) && Depth(fn, param)[o] <= Sat(k)
  {
    var E, U := Between(fn), Variables(fn, param);
    EdgesAreNamed(fn, param);
    forall k | Gets(fn, param, o, k) ensures o in Depth(fn, param) && Depth(fn, param)[o] <= Sat(k) {
      ReachedIsNamed(E, param, U, o, k);
      ShortestHas(E, param, U, o, k);
    }
    if o in Depth(fn, param) { var k := ShortestIsReached(E, param, U, o); assert Gets(fn, param, o, k); }
  }

  lemma ReachedIsNamed(E: Edges<Object>, param: Object, U: set<Object>, o: Object, k: nat)
    requires param in U && (forall v, w, l {:trigger E(v, w, l)} :: E(v, w, l) ==> w in U) && Reaches(E, param, o, k)
    ensures o in U
  {
    var hops: seq<Hop<Object>> :| Way(E, param, hops, o, k);
    if hops != [] {
      var last: Hop<Object> := hops[|hops| - 1];
      assert E(EndOf(param, hops[..|hops| - 1]), o, last.loads);
    }
  }

  lemma DepthOutIsLeast(fn: Func, param: Object, i: nat)
    ensures i in DepthOut(fn, param) <==> i < NAMED_RESULTS && exists k :: IsReturned(fn, param, i, k)
    ensures i in DepthOut(fn, param) ==>
              (exists k :: IsReturned(fn, param, i, k) && DepthOut(fn, param)[i] == Sat(k))
    ensures i < NAMED_RESULTS ==>
              forall k :: IsReturned(fn, param, i, k) ==> i in DepthOut(fn, param) && DepthOut(fn, param)[i] <= Sat(k)
  {
    var E, X := Between(fn), Out(fn);
    forall k | IsReturned(fn, param, i, k) && i < NAMED_RESULTS
      ensures i in DepthOut(fn, param) && DepthOut(fn, param)[i] <= Sat(k) {
      ShortestOutHas(E, X, param, NAMED_RESULTS, i, k);
    }
    if i in DepthOut(fn, param) {
      var k := ShortestOutIsReached(E, X, param, NAMED_RESULTS, i);
      assert IsReturned(fn, param, i, k);
    }
  }

  // ----- The note -----

  /** The object is declared as result i, and no earlier one. */
  predicate DeclaredAt(rs: seq<Object>, o: Object, i: nat) { i < |rs| && rs[i] == o && forall j :: 0 <= j < i ==> rs[j] != o }

  predicate NamedResult(rs: seq<Object>, o: Object, i: nat) { o.Object? && o.cls == ClassResult && DeclaredAt(rs, o, i) }

  /** What the parameter holds is returned as result i after `k` loads, or gets
      to the variable of that name. */
  ghost predicate Arrives(fn: Func, param: Object, i: nat, k: nat) {
    || IsReturned(fn, param, i, k)
    || (i < NAMED_RESULTS && exists o: Object :: NamedResult(fn.results, o, i) && Gets(fn, param, o, k))
  }

  /** A note can say where the variable's value goes. */
  predicate Traceable(rs: seq<Object>, o: Object) {
    o.Object? ==>
      && !o.escapes && o.cls != ClassGlobal
      && (o.cls == ClassResult ==> exists i :: 0 <= i < NAMED_RESULTS && DeclaredAt(rs, o, i))
  }

  /** The parameter has a note that is not the empty one. */
  ghost predicate Provable(fn: Func, param: Object) {
    && param.Object? && param.typ.Type? && !param.escapes
    && !Escapes(fn, param)
    && (forall o, k :: Gets(fn, param, o, k) ==> Traceable(fn.results, o))
    && (forall i, k :: Arrives(fn, param, i, k) ==> Arrives(fn, param, i, 0))
  }

  lemma DeclaredOnce(rs: seq<Object>, o: Object, i: nat, k: nat)
    requires DeclaredAt(rs, o, i) && DeclaredAt(rs, o, k)
    ensures i == k
  {
  }

  lemma {:induction false} IndexFromIs(rs: seq<Object>, o: Object, i: nat)
    requires i <= |rs| && forall j :: 0 <= j < i ==> rs[j] != o
    ensures IndexFrom(rs, o, i).Some? ==> DeclaredAt(rs, o, IndexFrom(rs, o, i).value) && IndexFrom(rs, o, i).value < NAMED_RESULTS
    ensures forall k: nat :: DeclaredAt(rs, o, k) && k < NAMED_RESULTS ==> IndexFrom(rs, o, i) == Some(k)
    decreases |rs| - i
  {
    if i < |rs| && rs[i] != o {
      IndexFromIs(rs, o, i + 1);
    } else if i < |rs| {
      forall k: nat | DeclaredAt(rs, o, k) ensures k == i { DeclaredOnce(rs, o, i, k); }
    }
  }

  lemma IndexIs(rs: seq<Object>, o: Object)
    ensures ResultIndex(rs, o).Some? ==> DeclaredAt(rs, o, ResultIndex(rs, o).value) && ResultIndex(rs, o).value < NAMED_RESULTS
    ensures forall k: nat :: DeclaredAt(rs, o, k) && k < NAMED_RESULTS ==> ResultIndex(rs, o) == Some(k)
  {
    IndexFromIs(rs, o, 0);
  }

  lemma TraceableIs(rs: seq<Object>, o: Object)
    ensures Traceable(rs, o) <==> !OutlivesFrame(o) && (o.Object? && o.cls.ClassResult? ==> ResultIndex(rs, o).Some?)
  {
    IndexIs(rs, o);
  }

  lemma DescribableIs(fn: Func, param: Object)
    ensures Describable(fn.results, Depth(fn, param)) <==> forall o, k :: Gets(fn, param, o, k) ==> Traceable(fn.results, o)
  {
    var rs, T := fn.results, Depth(fn, param);
    forall o ensures o in T <==> exists k :: Gets(fn, param, o, k) { DepthIsLeast(fn, param, o); }
    forall o ensures Traceable(rs, o) <==> !OutlivesFrame(o) && (o.Object? && o.cls.ClassResult? ==> ResultIndex(rs, o).Some?) {
      TraceableIs(rs, o);
    }
    if Describable(rs, T) {
      forall o, k | Gets(fn, param, o, k) ensures Traceable(rs, o) { assert o in T; }
    }
  }

  /** The state that the walk settles in. */
  ghost function Found(fn: Func, param: Object): State { State(Depth(fn, param), DepthOut(fn, param), false, false) }

  lemma NamedInIs(fn: Func, param: Object, i: nat)
    ensures i in NamedIn(fn.results, Depth(fn, param))
            <==> i < NAMED_RESULTS && i < |fn.results| && NamedResult(fn.results, fn.results[i], i)
                 && fn.results[i] in Depth(fn, param)
  {
    if i < |fn.results| { IndexIs(fn.results, fn.results[i]); }
  }

  lemma NamedArrives(fn: Func, param: Object, i: nat, k: nat)
    requires Arrives(fn, param, i, k) && !IsReturned(fn, param, i, k)
    ensures i < |fn.results| && i in NamedIn(fn.results, Depth(fn, param)) && Gets(fn, param, fn.results[i], k)
    ensures fn.results[i] in Depth(fn, param) && Depth(fn, param)[fn.results[i]] <= Sat(k)
  {
    NamedInIs(fn, param, i);
    DepthIsLeast(fn, param, fn.results[i]);
  }

  lemma ReturnedIsNamed(fn: Func, param: Object, i: nat, k: nat)
    requires IsReturned(fn, param, i, k)
    ensures i < NAMED_RESULTS
  {
  }

  /** A way without a load, or with the given number of them. */
  lemma ArrivesIsDelivered(fn: Func, param: Object, i: nat, k: nat)
    requires Arrives(fn, param, i, k)
    ensures var d := Delivered(fn.results, Found(fn, param)); i in d && (k == 0 ==> d[i] == 0)
  {
    if IsReturned(fn, param, i, k) {
      ReturnedIsNamed(fn, param, i, k);
      DepthOutIsLeast(fn, param, i);
    } else {
      NamedArrives(fn, param, i, k);
    }
  }

  lemma DeliveredArrives(fn: Func, param: Object, i: nat) returns (k: nat)
    requires i in Delivered(fn.results, Found(fn, param))
    ensures Arrives(fn, param, i, k) && Sat(k) == Delivered(fn.results, Found(fn, param))[i]
  {
    var T, R := Depth(fn, param), DepthOut(fn, param);
    var d := Delivered(fn.results, Found(fn, param));
    if i in R && d[i] == R[i] {
      DepthOutIsLeast(fn, param, i);
      k :| IsReturned(fn, param, i, k) && R[i] == Sat(k);
    } else {
      NamedInIs(fn, param, i);
      var o := fn.results[i];
      DepthIsLeast(fn, param, o);
      k :| Gets(fn, param, o, k) && T[o] == Sat(k);
      assert NamedResult(fn.results, o, i) && Gets(fn, param, o, k);
    }
  }

  lemma DirectWhereZero(fn: Func, param: Object, i: nat, k: nat)
    requires Arrives(fn, param, i, k)
    requires i in Delivered(fn.results, Found(fn, param)) ==> Delivered(fn.results, Found(fn, param))[i] == 0
    ensures Arrives(fn, param, i, 0)
  {
    ArrivesIsDelivered(fn, param, i, k);
    var j := DeliveredArrives(fn, param, i);
  }

  lemma ZeroWhereDirect(fn: Func, param: Object, i: nat)
    requires i in Delivered(fn.results, Found(fn, param))
    requires forall k :: Arrives(fn, param, i, k) ==> Arrives(fn, param, i, 0)
    ensures Delivered(fn.results, Found(fn, param))[i] == 0
  {
    var k := DeliveredArrives(fn, param, i);
    ArrivesIsDelivered(fn, param, i, 0);
  }

  lemma ShallowIs(fn: Func, param: Object)
    ensures (forall i <- Delivered(fn.results, Found(fn, param)) :: Delivered(fn.results, Found(fn, param))[i] == 0)
            <==> forall i, k :: Arrives(fn, param, i, k) ==> Arrives(fn, param, i, 0)
  {
    var d := Delivered(fn.results, Found(fn, param));
    if forall i <- d :: d[i] == 0 {
      forall i, k | Arrives(fn, param, i, k) ensures Arrives(fn, param, i, 0) { DirectWhereZero(fn, param, i, k); }
    } else {
      var i :| i in d && d[i] != 0;
      if forall k :: Arrives(fn, param, i, k) ==> Arrives(fn, param, i, 0) { ZeroWhereDirect(fn, param, i); }
    }
  }

  lemma ConcludeIs(fn: Func, param: Object)
    ensures Conclude(fn.results, Found(fn, param)).Some?
            <==> (forall o, k :: Gets(fn, param, o, k) ==> Traceable(fn.results, o))
                 && (forall i, k :: Arrives(fn, param, i, k) ==> Arrives(fn, param, i, 0))
  {
    DescribableIs(fn, param);
    ShallowIs(fn, param);
    ConcludeSome(fn.results, Found(fn, param));
  }

  lemma ConcludeSome(rs: seq<Object>, s: State)
    ensures Conclude(rs, s).Some? <==> Describable(rs, s.tainted) && forall i <- Delivered(rs, s) :: Delivered(rs, s)[i] == 0
  {
  }

  lemma ConcludeReads(rs: seq<Object>, s: State, t: State)
    requires s.tainted == t.tainted && s.results == t.results
    ensures Conclude(rs, s) == Conclude(rs, t) && Delivered(rs, s) == Delivered(rs, t)
  {
  }

  /** A parameter gets a note exactly when nothing it holds escapes, no variable
      that a note cannot name gets any, and each result that gets some gets it on
      a way without a load. The body must not name more variables than there are
      rounds. */
  lemma NoteIsExact(fn: Func, param: Object)
    ensures Analyse(fn, param).Some? ==> Provable(fn, param)
    ensures Provable(fn, param) && |Variables(fn, param)| <= MAX_ROUNDS + 1 ==> Analyse(fn, param).Some?
  {
    var r := Iterate(fn, Start(param), 0);
    WalkFindsShortest(fn, param);
    ConcludeIs(fn, param);
    if r.Settled? { ConcludeReads(fn.results, r.state, Found(fn, param)); }
  }

  /** And the note names a result exactly when a way without a load leads there. */
  lemma NoteNamesShortest(fn: Func, param: Object, i: nat)
    requires Analyse(fn, param).Some?
    ensures ResultClaim(Analyse(fn, param).value, i) == if Arrives(fn, param, i, 0) then 0 else -1
  {
    var s := Iterate(fn, Start(param), 0).state;
    WalkFindsShortest(fn, param);
    ConcludeReads(fn.results, s, Found(fn, param));
    NoteNames(fn, param, i);
    ConcludeIs(fn, param);
    if i in Delivered(fn.results, s) { var k := DeliveredArrives(fn, param, i); }
    if Arrives(fn, param, i, 0) { ArrivesIsDelivered(fn, param, i, 0); }
  }
}

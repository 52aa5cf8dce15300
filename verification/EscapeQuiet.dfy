/** A visit of the taint walk that leaks nothing and changes nothing is a
    solution of the flow constraints. */
module EscapeQuiet {
  import opened IR
  import opened EscapeWalk
  import opened Leaks
  import opened EscapeConstraints

  /** What no visit ever takes back: the taint of an object `o` and the depth
      of a result `i`, which only get shallower, the leak and the change. A
      visit that reports no change tainted nothing. */
  ghost predicate Grows(o: Object, i: nat, s: State, t: State) {
    && (o in s.tainted ==> o in t.tainted && t.tainted[o] <= s.tainted[o])
    && (i in s.results ==> i in t.results && t.results[i] <= s.results[i])
    && (i in t.results ==> i in s.results || i < NUM_RESULTS)
    && (s.leaked ==> t.leaked)
    && (s.changed ==> t.changed)
    && (!t.changed ==> t.tainted == s.tainted)
  }

  /** The visit ended without a leak and without a change, and `b` holds what
      it recorded. */
  ghost predicate Quiet(t: State, b: Bound) {
    && !t.changed && !t.leaked
    && (b.result in t.results ==> b.depth.Some? && b.depth.value <= t.results[b.result])
  }

  lemma {:induction false} WalkAllSolves(rs: seq<Object>, ns: seq<Node>, s: State, b: Bound, o: Object)
    ensures var t := WalkAll(rs, ns, s);
            Grows(o, b.result, s, t) && (Quiet(t, b) ==> SolvesAll(rs, s.tainted, b, ns))
    decreases ns, 0
  {
    if ns != [] {
      WalkSolves(rs, ns[0], s, b, o);
      WalkAllSolves(rs, ns[1..], Walk(rs, ns[0], s).0, b, o);
    }
  }

  lemma {:induction false} WalkSolves(rs: seq<Object>, n: Node, s: State, b: Bound, o: Object)
    ensures var (t, f) := Walk(rs, n, s);
            Grows(o, b.result, s, t) && (Quiet(t, b) ==> Solves(rs, s.tainted, b, n) && f == FlowAt(s.tainted, n))
    decreases n, 3
  {
    if n.Node? {
      WalkAllSolves(rs, n.init, s, b, o);
      VisitSolves(rs, n, WalkAll(rs, n.init, s), b, o);
    }
  }

  ghost predicate VisitQuiet(rs: seq<Object>, n: Node, s: State, b: Bound, o: Object)
    requires n.Node?
  {
    var (t, f) := Visit(rs, n, s);
    Grows(o, b.result, s, t) && (Quiet(t, b) ==> SolvesNode(rs, s.tainted, b, n) && f == ValueAt(s.tainted, n))
  }

  lemma {:induction false} VisitSolves(rs: seq<Object>, n: Node, s: State, b: Bound, o: Object)
    requires n.Node?
    ensures VisitQuiet(rs, n, s, b, o)
    decreases n, 2
  {
    var op := n.op;
    if op.OField? || op.ODeref? || op.OLen? || op.OCap? || op.ONilCheck? || op.OTypeAssert? { ReadSolves(rs, n, s, b, o); }
    else if op.OIndex? { IndexSolves(rs, n, s, b, o); }
    else if op.OSlice? { SliceSolves(rs, n, s, b, o); }
    else if op.OAddr? { AddrSolves(rs, n, s, b, o); }
    else if op.OUnary? || op.OBinary? || op.OCompare? { ArithmeticSolves(rs, n, s, b, o); }
    else if op.OConvert? { ConvertSolves(rs, n, s, b, o); }
    else if op.OCompositeLit? { LiteralSolves(rs, n, s, b, o); }
    else if op.OCall? { CallSolves(rs, n, s, b, o); }
    else if op.OAssign? { AssignSolves(rs, n, s, b, o); }
    else if op.OReturn? { ReturnSolves(rs, n, s, b, o); }
    else if op.OIf? { IfSolves(rs, n, s, b, o); }
    else if op.OFor? { ForSolves(rs, n, s, b, o); }
    else if op.OSwitch? { SwitchSolves(rs, n, s, b, o); }
    else if op.ORange? { RangeSolves(rs, n, s, b, o); }
    else if op.OTypeSwitch? { TypeSwitchSolves(rs, n, s, b, o); }
    else if op.OBlock? || op.OLabel? { BlockSolves(rs, n, s, b, o); }
    else if op.OCase? { CaseSolves(rs, n, s, b, o); }
  }

  lemma {:induction false} ReadSolves(rs: seq<Object>, n: Node, s: State, b: Bound, o: Object)
    requires n.Node? && (n.op.OField? || n.op.ODeref? || n.op.OLen? || n.op.OCap? || n.op.ONilCheck? || n.op.OTypeAssert?)
    ensures VisitQuiet(rs, n, s, b, o)
    decreases n, 1
  {
    WalkSolves(rs, n.x, s, b, o);
  }

  lemma {:induction false} IndexSolves(rs: seq<Object>, n: Node, s: State, b: Bound, o: Object)
    requires n.Node? && (n.op.OIndex?)
    ensures VisitQuiet(rs, n, s, b, o)
    decreases n, 1
  {
    WalkSolves(rs, n.y, s, b, o);
    var s1 := Walk(rs, n.y, s).0;
    WalkAllSolves(rs, n.args, s1, b, o);
    WalkSolves(rs, n.x, WalkAll(rs, n.args, s1), b, o);
  }

  lemma {:induction false} SliceSolves(rs: seq<Object>, n: Node, s: State, b: Bound, o: Object)
    requires n.Node? && (n.op.OSlice?)
    ensures VisitQuiet(rs, n, s, b, o)
    decreases n, 1
  {
    WalkAllSolves(rs, n.args, s, b, o);
    WalkSolves(rs, n.x, WalkAll(rs, n.args, s), b, o);
  }

  lemma {:induction false} AddrSolves(rs: seq<Object>, n: Node, s: State, b: Bound, o: Object)
    requires n.Node?
    ensures var (t, f) := WalkAddr(rs, n, s);
            Grows(o, b.result, s, t) && (Quiet(t, b) ==> SolvesAddr(rs, s.tainted, b, n) && f == AddrAt(s.tainted, n))
    decreases n, 1
  {
    WalkSolves(rs, n.x, s, b, o);
    var p := Addressed(n.x);
    if p.Through? { WalkSolves(rs, p.base, Walk(rs, n.x, s).0, b, o); }
  }

  lemma {:induction false} ArithmeticSolves(rs: seq<Object>, n: Node, s: State, b: Bound, o: Object)
    requires n.Node? && (n.op.OUnary? || n.op.OBinary? || n.op.OCompare?)
    ensures VisitQuiet(rs, n, s, b, o)
    decreases n, 1
  {
    WalkSolves(rs, n.x, s, b, o);
    WalkSolves(rs, n.y, Walk(rs, n.x, s).0, b, o);
  }

  lemma {:induction false} ConvertSolves(rs: seq<Object>, n: Node, s: State, b: Bound, o: Object)
    requires n.Node?
    ensures var (t, f) := WalkConvert(rs, n, s);
            Grows(o, b.result, s, t) && (Quiet(t, b) ==> SolvesConvert(rs, s.tainted, b, n) && f == ConvertAt(s.tainted, n))
    decreases n, 1
  {
    WalkSolves(rs, n.x, s, b, o);
    UnsafeWordSolves(rs, n.x, s, b, o);
  }

  lemma {:induction false} LiteralSolves(rs: seq<Object>, n: Node, s: State, b: Bound, o: Object)
    requires n.Node? && (n.op.OCompositeLit?)
    ensures VisitQuiet(rs, n, s, b, o)
    decreases n, 1
  {
    WalkElemsSolves(rs, n.args, NoRef, s, b, o);
  }

  lemma {:induction false} CallSolves(rs: seq<Object>, n: Node, s: State, b: Bound, o: Object)
    requires n.Node? && (n.op.OCall?)
    ensures VisitQuiet(rs, n, s, b, o)
    decreases n, 1
  {
    WalkSolves(rs, n.x, s, b, o);
    var (s1, f) := Walk(rs, n.x, s);
    WalkLeakingSolves(rs, n.args, s1.LeakIf(f.Derived?), b, o);
  }

  lemma {:induction false} AssignSolves(rs: seq<Object>, n: Node, s: State, b: Bound, o: Object)
    requires n.Node?
    ensures var t := WalkAssign(rs, n, s);
            Grows(o, b.result, s, t) && (Quiet(t, b) ==> SolvesAssign(rs, s.tainted, b, n))
    decreases n, 1
  {
    WalkSolves(rs, n.y, s, b, o);
    var (s1, f) := Walk(rs, n.y, s);
    if n.x.Node? { StoreSolves(rs, n.x, f, s1, b, o); }
    StoreAllSolves(rs, n.args, f, if n.x.NoNode? then s1 else Store(rs, n.x, f, s1), b, o);
  }

  lemma {:induction false} ReturnSolves(rs: seq<Object>, n: Node, s: State, b: Bound, o: Object)
    requires n.Node? && (n.op.OReturn?)
    ensures VisitQuiet(rs, n, s, b, o)
    decreases n, 1
  {
    if |n.args| == |rs| { WalkResultsSolves(rs, n.args, 0, s, b, o); }
    else { WalkLeakingSolves(rs, n.args, s, b, o); }
  }

  lemma {:induction false} IfSolves(rs: seq<Object>, n: Node, s: State, b: Bound, o: Object)
    requires n.Node? && n.op.OIf?
    ensures VisitQuiet(rs, n, s, b, o)
    decreases n, 1
  {
    WalkSolves(rs, n.x, s, b, o);
    var s1 := Walk(rs, n.x, s).0;
    WalkAllSolves(rs, n.body, s1, b, o);
    WalkAllSolves(rs, n.els, WalkAll(rs, n.body, s1), b, o);
  }

  lemma {:induction false} ForSolves(rs: seq<Object>, n: Node, s: State, b: Bound, o: Object)
    requires n.Node? && n.op.OFor?
    ensures VisitQuiet(rs, n, s, b, o)
    decreases n, 1
  {
    WalkSolves(rs, n.x, s, b, o);
    var s1 := Walk(rs, n.x, s).0;
    WalkAllSolves(rs, n.body, s1, b, o);
    WalkAllSolves(rs, n.post, WalkAll(rs, n.body, s1), b, o);
  }

  lemma {:induction false} SwitchSolves(rs: seq<Object>, n: Node, s: State, b: Bound, o: Object)
    requires n.Node? && n.op.OSwitch?
    ensures VisitQuiet(rs, n, s, b, o)
    decreases n, 1
  {
    WalkSolves(rs, n.x, s, b, o);
    var s1 := Walk(rs, n.x, s).0;
    WalkAllSolves(rs, n.body, s1, b, o);
  }

  lemma {:induction false} BlockSolves(rs: seq<Object>, n: Node, s: State, b: Bound, o: Object)
    requires n.Node? && (n.op.OBlock? || n.op.OLabel?)
    ensures VisitQuiet(rs, n, s, b, o)
    decreases n, 1
  {
    WalkAllSolves(rs, n.body, s, b, o);
  }

  lemma {:induction false} CaseSolves(rs: seq<Object>, n: Node, s: State, b: Bound, o: Object)
    requires n.Node? && n.op.OCase?
    ensures VisitQuiet(rs, n, s, b, o)
    decreases n, 1
  {
    WalkAllSolves(rs, n.args, s, b, o);
    WalkAllSolves(rs, n.body, WalkAll(rs, n.args, s), b, o);
  }

  lemma {:induction false} RangeSolves(rs: seq<Object>, n: Node, s: State, b: Bound, o: Object)
    requires n.Node?
    ensures var t := WalkRange(rs, n, s);
            Grows(o, b.result, s, t) && (Quiet(t, b) ==> SolvesRange(rs, s.tainted, b, n))
    decreases n, 1
  {
    WalkSolves(rs, n.x, s, b, o);
    if Rangeable(n.x) {
      var (s1, f) := Walk(rs, n.x, s);
      RangeStoresSolves(rs, n.args, f.Shift(1), s1, b, o);
      WalkAllSolves(rs, n.body, RangeStores(rs, n.args, f.Shift(1), s1), b, o);
    }
  }

  lemma {:induction false} TypeSwitchSolves(rs: seq<Object>, n: Node, s: State, b: Bound, o: Object)
    requires n.Node? && (n.op.OTypeSwitch?)
    ensures VisitQuiet(rs, n, s, b, o)
    decreases n, 1
  {
    WalkSolves(rs, n.x, s, b, o);
    var (s1, f) := Walk(rs, n.x, s);
    WalkClausesSolves(rs, n.body, f, s1, b, o);
  }

  lemma {:induction false} UnsafeWordSolves(rs: seq<Object>, n: Node, s: State, b: Bound, o: Object)
    ensures var (t, f) := UnsafeWord(rs, n, s);
            Grows(o, b.result, s, t) && (Quiet(t, b) ==> SolvesWord(rs, s.tainted, b, n) && f == WordAt(s.tainted, n))
    decreases n, 5
  {
    if n.Node? {
      WalkAllSolves(rs, n.init, s, b, o);
      VisitWordSolves(rs, n, WalkAll(rs, n.init, s), b, o);
    }
  }

  lemma {:induction false} VisitWordSolves(rs: seq<Object>, n: Node, s: State, b: Bound, o: Object)
    requires n.Node?
    ensures var (t, f) := VisitWord(rs, n, s);
            Grows(o, b.result, s, t) && (Quiet(t, b) ==> SolvesVisit(rs, s.tainted, b, n) && f == WordAt(s.tainted, n))
    decreases n, 4
  {
    match n.op
    case OConvert => WalkSolves(rs, n.x, s, b, o);
    case OUnary | OBinary =>
      UnsafeWordSolves(rs, n.x, s, b, o);
      UnsafeWordSolves(rs, n.y, UnsafeWord(rs, n.x, s).0, b, o);
    case _ => WalkSolves(rs, n, s, b, o);
  }

  lemma {:induction false} WalkElemsSolves(rs: seq<Object>, elems: seq<Node>, f: Flow, s: State, b: Bound, o: Object)
    ensures var (t, g) := WalkElems(rs, elems, f, s);
            Grows(o, b.result, s, t) && (Quiet(t, b) ==> SolvesElems(rs, s.tainted, b, elems) && g == ElemsAt(s.tainted, elems, f))
    decreases elems, 2
  {
    if elems != [] {
      var a := elems[0];
      if Keyed(a) {
        WalkAllSolves(rs, a.init, s, b, o);
        var s1 := WalkAll(rs, a.init, s);
        WalkSolves(rs, a.x, s1, b, o);
        WalkSolves(rs, a.y, Walk(rs, a.x, s1).0, b, o);
      } else {
        WalkSolves(rs, a, s, b, o);
      }
      var (s2, g) := VisitElem(rs, a, s);
      WalkElemsSolves(rs, elems[1..], f.Join(g), s2, b, o);
    }
  }

  lemma {:induction false} WalkLeakingSolves(rs: seq<Object>, ns: seq<Node>, s: State, b: Bound, o: Object)
    ensures var t := WalkLeaking(rs, ns, s);
            Grows(o, b.result, s, t) && (Quiet(t, b) ==> SolvesClean(rs, s.tainted, b, ns))
    decreases ns, 2
  {
    if ns != [] {
      WalkSolves(rs, ns[0], s, b, o);
      var (s1, f) := Walk(rs, ns[0], s);
      WalkLeakingSolves(rs, ns[1..], s1.LeakIf(f.Derived?), b, o);
    }
  }

  lemma {:induction false} WalkResultsSolves(rs: seq<Object>, args: seq<Node>, i: nat, s: State, b: Bound, o: Object)
    requires i + |args| <= |rs|
    ensures var t := WalkResults(rs, args, i, s);
            Grows(o, b.result, s, t) && (Quiet(t, b) ==> SolvesResults(rs, s.tainted, b, args, i))
    decreases args, 2
  {
    if args != [] {
      WalkSolves(rs, args[0], s, b, o);
      var (s1, f) := Walk(rs, args[0], s);
      WalkResultsSolves(rs, args[1..], i + 1, RecordResult(i, ReturnedFlow(rs, i, f), s1), b, o);
    }
  }

  lemma {:induction false} RangeStoresSolves(rs: seq<Object>, dsts: seq<Node>, f: Flow, s: State, b: Bound, o: Object)
    ensures var t := RangeStores(rs, dsts, f, s);
            Grows(o, b.result, s, t) && (Quiet(t, b) ==> AcceptsRange(rs, s.tainted, b, dsts, f))
    decreases dsts, 2
  {
    if dsts != [] {
      var d := dsts[0];
      if d.Node? {
        WalkAllSolves(rs, d.init, s, b, o);
        StoreSolves(rs, d, f, WalkAll(rs, d.init, s), b, o);
      }
      RangeStoresSolves(rs, dsts[1..], f, RangeStore(rs, d, f, s), b, o);
    }
  }

  lemma {:induction false} WalkClausesSolves(rs: seq<Object>, clauses: seq<Node>, f: Flow, s: State, b: Bound, o: Object)
    ensures var t := WalkClauses(rs, clauses, f, s);
            Grows(o, b.result, s, t) && (Quiet(t, b) ==> SolvesClauses(rs, s.tainted, b, clauses, f))
    decreases clauses, 2
  {
    if clauses != [] {
      VisitClauseSolves(rs, clauses[0], f, s, b, o);
      WalkClausesSolves(rs, clauses[1..], f, VisitClause(rs, clauses[0], f, s), b, o);
    }
  }

  lemma {:induction false} VisitClauseSolves(rs: seq<Object>, c: Node, f: Flow, s: State, b: Bound, o: Object)
    ensures var t := VisitClause(rs, c, f, s);
            Grows(o, b.result, s, t) && (Quiet(t, b) ==> SolvesClause(rs, s.tainted, b, c, f))
    decreases c, 5
  {
    if c.Node? && c.op.OCase? {
      WalkAllSolves(rs, c.init, s, b, o);
      var s1 := WalkAll(rs, c.init, s);
      WalkAllSolves(rs, c.args, s1, b, o);
      WalkAllSolves(rs, c.body, Bind(c.obj, f, WalkAll(rs, c.args, s1)), b, o);
    }
  }

  lemma {:induction false} StoreAllSolves(rs: seq<Object>, dsts: seq<Node>, f: Flow, s: State, b: Bound, o: Object)
    ensures var t := StoreAll(rs, dsts, f, s);
            Grows(o, b.result, s, t) && (Quiet(t, b) ==> AcceptsAll(rs, s.tainted, b, dsts, f))
    decreases dsts, 2
  {
    if dsts != [] {
      StoreSolves(rs, dsts[0], f, s, b, o);
      StoreAllSolves(rs, dsts[1..], f, Store(rs, dsts[0], f, s), b, o);
    }
  }

  lemma {:induction false} StoreSolves(rs: seq<Object>, dst: Node, f: Flow, s: State, b: Bound, o: Object)
    ensures var t := Store(rs, dst, f, s);
            Grows(o, b.result, s, t) && (Quiet(t, b) ==> Accepts(rs, s.tainted, b, dst, f))
    decreases dst, 4
  {
    if dst.Node? { StoreIntoSolves(rs, dst, f.Carries(dst.typ), s, b, o); }
  }

  lemma {:induction false} StoreIntoSolves(rs: seq<Object>, dst: Node, src: Flow, s: State, b: Bound, o: Object)
    requires dst.Node?
    ensures var t := StoreInto(rs, dst, src, s);
            Grows(o, b.result, s, t) && (Quiet(t, b) ==> AcceptsInto(rs, s.tainted, b, dst, src))
    decreases dst, 3
  {
    StoreIndexesSolves(rs, dst, s, b, o);
    var (root, direct) := Destination(dst);
    if direct {
      StoreRootSolves(root, src, StoreIndexes(rs, dst, s), b, o);
    }
  }

  lemma StoreRootSolves(root: Object, src: Flow, s: State, b: Bound, o: Object)
    ensures var t := StoreRoot(root, src, s);
            Grows(o, b.result, s, t) && (Quiet(t, b) ==> AcceptsRoot(s.tainted, root, src))
  {
  }

  lemma {:induction false} StoreIndexesSolves(rs: seq<Object>, dst: Node, s: State, b: Bound, o: Object)
    ensures var t := StoreIndexes(rs, dst, s);
            Grows(o, b.result, s, t) && (Quiet(t, b) ==> SolvesIndexes(rs, s.tainted, b, dst))
    decreases dst, 2
  {
    if dst.Node? {
      match dst.op
      case OField => StoreIndexesSolves(rs, dst.x, s, b, o);
      case OIndex =>
        WalkSolves(rs, dst.y, s, b, o);
        StoreIndexesSolves(rs, dst.x, Walk(rs, dst.y, s).0, b, o);
      case _ =>
    }
  }
}

/** A visit of the taint walk that starts below a solution of the flow
    constraints stays below it, and does not leak. */
module EscapeLeast {
  import opened IR
  import opened EscapeWalk
  import opened EscapeConstraints

  /** The state claims no more than the solution `T`, `b` does. */
  ghost predicate Under(s: State, T: Taints, b: Bound) {
    && !s.leaked
    && (forall o {:trigger o in s.tainted} :: o in s.tainted ==> o in T && T[o] <= s.tainted[o])
    && (b.result in s.results ==> b.depth.Some? && b.depth.value <= s.results[b.result])
  }

  /** A state at the solution stays there, with nothing to report. */
  ghost predicate Still(s: State, t: State, T: Taints) {
    s.tainted == T && !s.changed ==> t.tainted == T && !t.changed
  }

  /** `g` is at least as strong a flow as `f`. */
  predicate Weaker(f: Flow, g: Flow) { f.Derived? ==> g.Derived? && g.derefs <= f.derefs }

  lemma {:induction false} NamesMore(n: Node, A: set<Object>, B: set<Object>)
    requires A <= B && Names(n, A)
    ensures Names(n, B)
    decreases n, 1
  {
    if n.obj.Object? && n.obj in A {
    } else if Names(n.x, A) { NamesMore(n.x, A, B); }
    else if Names(n.y, A) { NamesMore(n.y, A, B); }
    else if NamesAny(n.args, A) { NamesAnyMore(n.args, A, B); }
    else if NamesAny(n.init, A) { NamesAnyMore(n.init, A, B); }
    else if NamesAny(n.body, A) { NamesAnyMore(n.body, A, B); }
    else if NamesAny(n.post, A) { NamesAnyMore(n.post, A, B); }
    else { NamesAnyMore(n.els, A, B); }
  }

  lemma {:induction false} NamesAnyMore(ns: seq<Node>, A: set<Object>, B: set<Object>)
    requires A <= B && NamesAny(ns, A)
    ensures NamesAny(ns, B)
    decreases ns, 0
  {
    if Names(ns[0], A) { NamesMore(ns[0], A, B); } else { NamesAnyMore(ns[1..], A, B); }
  }

  /** What a solution does not name, a state below it does not mention. */
  lemma Unmentioned(n: Node, s: State, T: Taints, b: Bound)
    requires Under(s, T, b) && Avoids(T, n)
    ensures !s.Mentions(n)
  {
    if s.Mentions(n) { NamesMore(n, s.tainted.Keys, T.Keys); }
  }

  lemma {:induction false} WalkAllBelow(rs: seq<Object>, ns: seq<Node>, s: State, T: Taints, b: Bound)
    requires Under(s, T, b) && SolvesAll(rs, T, b, ns)
    ensures Under(WalkAll(rs, ns, s), T, b) && Still(s, WalkAll(rs, ns, s), T)
    decreases ns, 0
  {
    if ns != [] {
      WalkBelow(rs, ns[0], s, T, b);
      WalkAllBelow(rs, ns[1..], Walk(rs, ns[0], s).0, T, b);
    }
  }

  lemma {:induction false} WalkBelow(rs: seq<Object>, n: Node, s: State, T: Taints, b: Bound)
    requires Under(s, T, b) && Solves(rs, T, b, n)
    ensures Under(Walk(rs, n, s).0, T, b) && Still(s, Walk(rs, n, s).0, T) && Weaker(Walk(rs, n, s).1, FlowAt(T, n))
    decreases n, 3
  {
    if n.Node? {
      WalkAllBelow(rs, n.init, s, T, b);
      VisitBelow(rs, n, WalkAll(rs, n.init, s), T, b);
    }
  }

  lemma {:induction false} VisitBelow(rs: seq<Object>, n: Node, s: State, T: Taints, b: Bound)
    requires n.Node?
    requires Under(s, T, b) && SolvesNode(rs, T, b, n)
    ensures Under(Visit(rs, n, s).0, T, b) && Still(s, Visit(rs, n, s).0, T) && Weaker(Visit(rs, n, s).1, ValueAt(T, n))
    decreases n, 2
  {
    var op := n.op;
    if op.OField? || op.ODeref? || op.OLen? || op.OCap? || op.ONilCheck? || op.OTypeAssert? { ReadBelow(rs, n, s, T, b); }
    else if op.OIndex? { IndexBelow(rs, n, s, T, b); }
    else if op.OSlice? { SliceBelow(rs, n, s, T, b); }
    else if op.OAddr? { AddrBelow(rs, n, s, T, b); }
    else if op.OUnary? || op.OBinary? || op.OCompare? { ArithmeticBelow(rs, n, s, T, b); }
    else if op.OConvert? { ConvertBelow(rs, n, s, T, b); }
    else if op.OCompositeLit? { LiteralBelow(rs, n, s, T, b); }
    else if op.OCall? { CallBelow(rs, n, s, T, b); }
    else if op.OAssign? { AssignBelow(rs, n, s, T, b); }
    else if op.OReturn? { ReturnBelow(rs, n, s, T, b); }
    else if op.OIf? { IfBelow(rs, n, s, T, b); }
    else if op.OFor? { ForBelow(rs, n, s, T, b); }
    else if op.OSwitch? { SwitchBelow(rs, n, s, T, b); }
    else if op.ORange? { RangeBelow(rs, n, s, T, b); }
    else if op.OTypeSwitch? { TypeSwitchBelow(rs, n, s, T, b); }
    else if op.OBlock? || op.OLabel? { BlockBelow(rs, n, s, T, b); }
    else if op.OCase? { CaseBelow(rs, n, s, T, b); }
    else if op.OOther? { Unmentioned(n, s, T, b); }
  }

  lemma {:induction false} ReadBelow(rs: seq<Object>, n: Node, s: State, T: Taints, b: Bound)
    requires n.Node? && (n.op.OField? || n.op.ODeref? || n.op.OLen? || n.op.OCap? || n.op.ONilCheck? || n.op.OTypeAssert?)
    requires Under(s, T, b) && SolvesNode(rs, T, b, n)
    ensures Under(Visit(rs, n, s).0, T, b) && Still(s, Visit(rs, n, s).0, T) && Weaker(Visit(rs, n, s).1, ValueAt(T, n))
    decreases n, 1
  {
    WalkBelow(rs, n.x, s, T, b);
  }

  lemma {:induction false} IndexBelow(rs: seq<Object>, n: Node, s: State, T: Taints, b: Bound)
    requires n.Node? && (n.op.OIndex?)
    requires Under(s, T, b) && SolvesNode(rs, T, b, n)
    ensures Under(Visit(rs, n, s).0, T, b) && Still(s, Visit(rs, n, s).0, T) && Weaker(Visit(rs, n, s).1, ValueAt(T, n))
    decreases n, 1
  {
    WalkBelow(rs, n.y, s, T, b);
    var s1 := Walk(rs, n.y, s).0;
    WalkAllBelow(rs, n.args, s1, T, b);
    WalkBelow(rs, n.x, WalkAll(rs, n.args, s1), T, b);
  }

  lemma {:induction false} SliceBelow(rs: seq<Object>, n: Node, s: State, T: Taints, b: Bound)
    requires n.Node? && (n.op.OSlice?)
    requires Under(s, T, b) && SolvesNode(rs, T, b, n)
    ensures Under(Visit(rs, n, s).0, T, b) && Still(s, Visit(rs, n, s).0, T) && Weaker(Visit(rs, n, s).1, ValueAt(T, n))
    decreases n, 1
  {
    WalkAllBelow(rs, n.args, s, T, b);
    WalkBelow(rs, n.x, WalkAll(rs, n.args, s), T, b);
  }

  lemma {:induction false} AddrBelow(rs: seq<Object>, n: Node, s: State, T: Taints, b: Bound)
    requires n.Node?
    requires Under(s, T, b) && SolvesAddr(rs, T, b, n)
    ensures Under(WalkAddr(rs, n, s).0, T, b) && Still(s, WalkAddr(rs, n, s).0, T) && Weaker(WalkAddr(rs, n, s).1, AddrAt(T, n))
    decreases n, 1
  {
    WalkBelow(rs, n.x, s, T, b);
    var p := Addressed(n.x);
    if p.Through? { WalkBelow(rs, p.base, Walk(rs, n.x, s).0, T, b); }
    else { Unmentioned(n.x, Walk(rs, n.x, s).0, T, b); }
  }

  lemma {:induction false} ArithmeticBelow(rs: seq<Object>, n: Node, s: State, T: Taints, b: Bound)
    requires n.Node? && (n.op.OUnary? || n.op.OBinary? || n.op.OCompare?)
    requires Under(s, T, b) && SolvesNode(rs, T, b, n)
    ensures Under(Visit(rs, n, s).0, T, b) && Still(s, Visit(rs, n, s).0, T) && Weaker(Visit(rs, n, s).1, ValueAt(T, n))
    decreases n, 1
  {
    WalkBelow(rs, n.x, s, T, b);
    WalkBelow(rs, n.y, Walk(rs, n.x, s).0, T, b);
  }

  lemma {:induction false} ConvertBelow(rs: seq<Object>, n: Node, s: State, T: Taints, b: Bound)
    requires n.Node?
    requires Under(s, T, b) && SolvesConvert(rs, T, b, n)
    ensures Under(WalkConvert(rs, n, s).0, T, b) && Still(s, WalkConvert(rs, n, s).0, T) && Weaker(WalkConvert(rs, n, s).1, ConvertAt(T, n))
    decreases n, 1
  {
    if n.typ.NoType? { Unmentioned(n.x, s, T, b); }
    else if !n.typ.kind.Interface? && n.typ.pointers && Typed(n.x) && !n.x.typ.pointers {
      UnsafeWordBelow(rs, n.x, s, T, b);
    } else { WalkBelow(rs, n.x, s, T, b); }
  }

  lemma {:induction false} LiteralBelow(rs: seq<Object>, n: Node, s: State, T: Taints, b: Bound)
    requires n.Node? && (n.op.OCompositeLit?)
    requires Under(s, T, b) && SolvesNode(rs, T, b, n)
    ensures Under(Visit(rs, n, s).0, T, b) && Still(s, Visit(rs, n, s).0, T) && Weaker(Visit(rs, n, s).1, ValueAt(T, n))
    decreases n, 1
  {
    WalkElemsBelow(rs, n.args, NoRef, NoRef, s, T, b);
    var (s1, f) := WalkElems(rs, n.args, NoRef, s);
    var g := ElemsAt(T, n.args, NoRef);
    assert Weaker(f, g) && Visit(rs, n, s) == WalkCompositeLit(rs, n, s);
    if n.typ.Is(Struct) || n.typ.Is(Array) {
      assert Visit(rs, n, s) == (s1, f.Carries(n.typ)) && ValueAt(T, n) == g.Carries(n.typ);
    } else { Unmentioned(n, s1, T, b); }
  }

  lemma {:induction false} CallBelow(rs: seq<Object>, n: Node, s: State, T: Taints, b: Bound)
    requires n.Node? && (n.op.OCall?)
    requires Under(s, T, b) && SolvesNode(rs, T, b, n)
    ensures Under(Visit(rs, n, s).0, T, b) && Still(s, Visit(rs, n, s).0, T) && Weaker(Visit(rs, n, s).1, ValueAt(T, n))
    decreases n, 1
  {
    WalkBelow(rs, n.x, s, T, b);
    var (s1, f) := Walk(rs, n.x, s);
    WalkLeakingBelow(rs, n.args, s1.LeakIf(f.Derived?), T, b);
  }

  lemma {:induction false} AssignBelow(rs: seq<Object>, n: Node, s: State, T: Taints, b: Bound)
    requires n.Node?
    requires Under(s, T, b) && SolvesAssign(rs, T, b, n)
    ensures Under(WalkAssign(rs, n, s), T, b) && Still(s, WalkAssign(rs, n, s), T)
    decreases n, 1
  {
    WalkBelow(rs, n.y, s, T, b);
    var (s1, f) := Walk(rs, n.y, s);
    var g := FlowAt(T, n.y);
    if n.x.Node? { StoreBelow(rs, n.x, f, g, s1, T, b); }
    StoreAllBelow(rs, n.args, f, g, if n.x.NoNode? then s1 else Store(rs, n.x, f, s1), T, b);
  }

  lemma {:induction false} ReturnBelow(rs: seq<Object>, n: Node, s: State, T: Taints, b: Bound)
    requires n.Node? && (n.op.OReturn?)
    requires Under(s, T, b) && SolvesNode(rs, T, b, n)
    ensures Under(Visit(rs, n, s).0, T, b) && Still(s, Visit(rs, n, s).0, T) && Weaker(Visit(rs, n, s).1, ValueAt(T, n))
    decreases n, 1
  {
    if |n.args| == |rs| { WalkResultsBelow(rs, n.args, 0, s, T, b); }
    else { WalkLeakingBelow(rs, n.args, s, T, b); }
  }

  lemma {:induction false} IfBelow(rs: seq<Object>, n: Node, s: State, T: Taints, b: Bound)
    requires n.Node? && n.op.OIf?
    requires Under(s, T, b) && SolvesNode(rs, T, b, n)
    ensures Under(Visit(rs, n, s).0, T, b) && Still(s, Visit(rs, n, s).0, T) && Weaker(Visit(rs, n, s).1, ValueAt(T, n))
    decreases n, 1
  {
    WalkBelow(rs, n.x, s, T, b);
    var s1 := Walk(rs, n.x, s).0;
    WalkAllBelow(rs, n.body, s1, T, b);
    WalkAllBelow(rs, n.els, WalkAll(rs, n.body, s1), T, b);
  }

  lemma {:induction false} ForBelow(rs: seq<Object>, n: Node, s: State, T: Taints, b: Bound)
    requires n.Node? && n.op.OFor?
    requires Under(s, T, b) && SolvesNode(rs, T, b, n)
    ensures Under(Visit(rs, n, s).0, T, b) && Still(s, Visit(rs, n, s).0, T) && Weaker(Visit(rs, n, s).1, ValueAt(T, n))
    decreases n, 1
  {
    WalkBelow(rs, n.x, s, T, b);
    var s1 := Walk(rs, n.x, s).0;
    WalkAllBelow(rs, n.body, s1, T, b);
    WalkAllBelow(rs, n.post, WalkAll(rs, n.body, s1), T, b);
  }

  lemma {:induction false} SwitchBelow(rs: seq<Object>, n: Node, s: State, T: Taints, b: Bound)
    requires n.Node? && n.op.OSwitch?
    requires Under(s, T, b) && SolvesNode(rs, T, b, n)
    ensures Under(Visit(rs, n, s).0, T, b) && Still(s, Visit(rs, n, s).0, T) && Weaker(Visit(rs, n, s).1, ValueAt(T, n))
    decreases n, 1
  {
    WalkBelow(rs, n.x, s, T, b);
    var s1 := Walk(rs, n.x, s).0;
    WalkAllBelow(rs, n.body, s1, T, b);
  }

  lemma {:induction false} BlockBelow(rs: seq<Object>, n: Node, s: State, T: Taints, b: Bound)
    requires n.Node? && (n.op.OBlock? || n.op.OLabel?)
    requires Under(s, T, b) && SolvesNode(rs, T, b, n)
    ensures Under(Visit(rs, n, s).0, T, b) && Still(s, Visit(rs, n, s).0, T) && Weaker(Visit(rs, n, s).1, ValueAt(T, n))
    decreases n, 1
  {
    WalkAllBelow(rs, n.body, s, T, b);
  }

  lemma {:induction false} CaseBelow(rs: seq<Object>, n: Node, s: State, T: Taints, b: Bound)
    requires n.Node? && n.op.OCase?
    requires Under(s, T, b) && SolvesNode(rs, T, b, n)
    ensures Under(Visit(rs, n, s).0, T, b) && Still(s, Visit(rs, n, s).0, T) && Weaker(Visit(rs, n, s).1, ValueAt(T, n))
    decreases n, 1
  {
    WalkAllBelow(rs, n.args, s, T, b);
    WalkAllBelow(rs, n.body, WalkAll(rs, n.args, s), T, b);
  }

  lemma {:induction false} RangeBelow(rs: seq<Object>, n: Node, s: State, T: Taints, b: Bound)
    requires n.Node?
    requires Under(s, T, b) && SolvesRange(rs, T, b, n)
    ensures Under(WalkRange(rs, n, s), T, b) && Still(s, WalkRange(rs, n, s), T)
    decreases n, 1
  {
    WalkBelow(rs, n.x, s, T, b);
    var (s1, f) := Walk(rs, n.x, s);
    if Rangeable(n.x) {
      RangeStoresBelow(rs, n.args, f.Shift(1), FlowAt(T, n.x).Shift(1), s1, T, b);
      WalkAllBelow(rs, n.body, RangeStores(rs, n.args, f.Shift(1), s1), T, b);
    } else { Unmentioned(n, s1, T, b); }
  }

  lemma {:induction false} TypeSwitchBelow(rs: seq<Object>, n: Node, s: State, T: Taints, b: Bound)
    requires n.Node? && (n.op.OTypeSwitch?)
    requires Under(s, T, b) && SolvesNode(rs, T, b, n)
    ensures Under(Visit(rs, n, s).0, T, b) && Still(s, Visit(rs, n, s).0, T) && Weaker(Visit(rs, n, s).1, ValueAt(T, n))
    decreases n, 1
  {
    WalkBelow(rs, n.x, s, T, b);
    var (s1, f) := Walk(rs, n.x, s);
    WalkClausesBelow(rs, n.body, f, FlowAt(T, n.x), s1, T, b);
  }

  lemma {:induction false} UnsafeWordBelow(rs: seq<Object>, n: Node, s: State, T: Taints, b: Bound)
    requires Under(s, T, b) && SolvesWord(rs, T, b, n)
    ensures Under(UnsafeWord(rs, n, s).0, T, b) && Still(s, UnsafeWord(rs, n, s).0, T) && Weaker(UnsafeWord(rs, n, s).1, WordAt(T, n))
    decreases n, 5
  {
    if n.Node? {
      WalkAllBelow(rs, n.init, s, T, b);
      VisitWordBelow(rs, n, WalkAll(rs, n.init, s), T, b);
    }
  }

  lemma {:induction false} VisitWordBelow(rs: seq<Object>, n: Node, s: State, T: Taints, b: Bound)
    requires n.Node?
    requires Under(s, T, b) && SolvesVisit(rs, T, b, n)
    ensures Under(VisitWord(rs, n, s).0, T, b) && Still(s, VisitWord(rs, n, s).0, T) && Weaker(VisitWord(rs, n, s).1, WordAt(T, n))
    decreases n, 4
  {
    match n.op
    case OConvert => WalkBelow(rs, n.x, s, T, b);
    case OUnary | OBinary =>
      UnsafeWordBelow(rs, n.x, s, T, b);
      UnsafeWordBelow(rs, n.y, UnsafeWord(rs, n.x, s).0, T, b);
    case _ => WalkBelow(rs, n, s, T, b);
  }

  lemma {:induction false} WalkElemsBelow(rs: seq<Object>, elems: seq<Node>, f: Flow, f': Flow, s: State, T: Taints, b: Bound)
    requires Under(s, T, b) && SolvesElems(rs, T, b, elems) && Weaker(f, f')
    ensures Under(WalkElems(rs, elems, f, s).0, T, b) && Still(s, WalkElems(rs, elems, f, s).0, T) && Weaker(WalkElems(rs, elems, f, s).1, ElemsAt(T, elems, f'))
    decreases elems, 2
  {
    if elems != [] {
      var a := elems[0];
      if Keyed(a) {
        WalkAllBelow(rs, a.init, s, T, b);
        var s1 := WalkAll(rs, a.init, s);
        WalkBelow(rs, a.x, s1, T, b);
        WalkBelow(rs, a.y, Walk(rs, a.x, s1).0, T, b);
      } else {
        WalkBelow(rs, a, s, T, b);
      }
      var (s2, g) := VisitElem(rs, a, s);
      WalkElemsBelow(rs, elems[1..], f.Join(g), f'.Join(FlowAt(T, if Keyed(a) then a.y else a)), s2, T, b);
    }
  }

  lemma {:induction false} WalkLeakingBelow(rs: seq<Object>, ns: seq<Node>, s: State, T: Taints, b: Bound)
    requires Under(s, T, b) && SolvesClean(rs, T, b, ns)
    ensures Under(WalkLeaking(rs, ns, s), T, b) && Still(s, WalkLeaking(rs, ns, s), T)
    decreases ns, 2
  {
    if ns != [] {
      WalkBelow(rs, ns[0], s, T, b);
      var (s1, f) := Walk(rs, ns[0], s);
      WalkLeakingBelow(rs, ns[1..], s1.LeakIf(f.Derived?), T, b);
    }
  }

  lemma {:induction false} WalkResultsBelow(rs: seq<Object>, args: seq<Node>, i: nat, s: State, T: Taints, b: Bound)
    requires i + |args| <= |rs|
    requires Under(s, T, b) && SolvesResults(rs, T, b, args, i)
    ensures Under(WalkResults(rs, args, i, s), T, b) && Still(s, WalkResults(rs, args, i, s), T)
    decreases args, 2
  {
    if args != [] {
      WalkBelow(rs, args[0], s, T, b);
      var (s1, f) := Walk(rs, args[0], s);
      WalkResultsBelow(rs, args[1..], i + 1, RecordResult(i, ReturnedFlow(rs, i, f), s1), T, b);
    }
  }

  lemma {:induction false} RangeStoresBelow(rs: seq<Object>, dsts: seq<Node>, f: Flow, g: Flow, s: State, T: Taints, b: Bound)
    requires Under(s, T, b) && AcceptsRange(rs, T, b, dsts, g) && Weaker(f, g)
    ensures Under(RangeStores(rs, dsts, f, s), T, b) && Still(s, RangeStores(rs, dsts, f, s), T)
    decreases dsts, 2
  {
    if dsts != [] {
      var d := dsts[0];
      if d.Node? {
        WalkAllBelow(rs, d.init, s, T, b);
        StoreBelow(rs, d, f, g, WalkAll(rs, d.init, s), T, b);
      }
      RangeStoresBelow(rs, dsts[1..], f, g, RangeStore(rs, d, f, s), T, b);
    }
  }

  lemma {:induction false} WalkClausesBelow(rs: seq<Object>, clauses: seq<Node>, f: Flow, g: Flow, s: State, T: Taints, b: Bound)
    requires Under(s, T, b) && SolvesClauses(rs, T, b, clauses, g) && Weaker(f, g)
    ensures Under(WalkClauses(rs, clauses, f, s), T, b) && Still(s, WalkClauses(rs, clauses, f, s), T)
    decreases clauses, 2
  {
    if clauses != [] {
      VisitClauseBelow(rs, clauses[0], f, g, s, T, b);
      WalkClausesBelow(rs, clauses[1..], f, g, VisitClause(rs, clauses[0], f, s), T, b);
    }
  }

  lemma {:induction false} VisitClauseBelow(rs: seq<Object>, c: Node, f: Flow, g: Flow, s: State, T: Taints, b: Bound)
    requires Under(s, T, b) && SolvesClause(rs, T, b, c, g) && Weaker(f, g)
    ensures Under(VisitClause(rs, c, f, s), T, b) && Still(s, VisitClause(rs, c, f, s), T)
    decreases c, 5
  {
    if c.Node? && c.op.OCase? {
      WalkAllBelow(rs, c.init, s, T, b);
      var s1 := WalkAll(rs, c.init, s);
      WalkAllBelow(rs, c.args, s1, T, b);
      WalkAllBelow(rs, c.body, Bind(c.obj, f, WalkAll(rs, c.args, s1)), T, b);
    } else if c.Node? { Unmentioned(c, s, T, b); }
  }

  lemma {:induction false} StoreAllBelow(rs: seq<Object>, dsts: seq<Node>, f: Flow, g: Flow, s: State, T: Taints, b: Bound)
    requires Under(s, T, b) && AcceptsAll(rs, T, b, dsts, g) && Weaker(f, g)
    ensures Under(StoreAll(rs, dsts, f, s), T, b) && Still(s, StoreAll(rs, dsts, f, s), T)
    decreases dsts, 2
  {
    if dsts != [] {
      StoreBelow(rs, dsts[0], f, g, s, T, b);
      StoreAllBelow(rs, dsts[1..], f, g, Store(rs, dsts[0], f, s), T, b);
    }
  }

  lemma {:induction false} StoreBelow(rs: seq<Object>, dst: Node, f: Flow, g: Flow, s: State, T: Taints, b: Bound)
    requires Under(s, T, b) && Accepts(rs, T, b, dst, g) && Weaker(f, g)
    ensures Under(Store(rs, dst, f, s), T, b) && Still(s, Store(rs, dst, f, s), T)
    decreases dst, 4
  {
    StoreIntoBelow(rs, dst, f.Carries(dst.typ), g.Carries(dst.typ), s, T, b);
  }

  lemma {:induction false} StoreIntoBelow(rs: seq<Object>, dst: Node, src: Flow, want: Flow, s: State, T: Taints, b: Bound)
    requires dst.Node?
    requires Under(s, T, b) && AcceptsInto(rs, T, b, dst, want) && Weaker(src, want)
    ensures Under(StoreInto(rs, dst, src, s), T, b) && Still(s, StoreInto(rs, dst, src, s), T)
    decreases dst, 3
  {
    var (root, direct) := Destination(dst);
    if direct {
      StoreIndexesBelow(rs, dst, s, T, b);
      StoreRootBelow(root, src, want, StoreIndexes(rs, dst, s), T, b);
    } else { Unmentioned(dst, s, T, b); }
  }

  lemma StoreRootBelow(root: Object, src: Flow, want: Flow, s: State, T: Taints, b: Bound)
    requires Under(s, T, b) && AcceptsRoot(T, root, want) && Weaker(src, want)
    ensures Under(StoreRoot(root, src, s), T, b) && Still(s, StoreRoot(root, src, s), T)
  {
  }

  lemma {:induction false} StoreIndexesBelow(rs: seq<Object>, dst: Node, s: State, T: Taints, b: Bound)
    requires Under(s, T, b) && SolvesIndexes(rs, T, b, dst)
    ensures Under(StoreIndexes(rs, dst, s), T, b) && Still(s, StoreIndexes(rs, dst, s), T)
    decreases dst, 2
  {
    if dst.Node? {
      match dst.op
      case OField => StoreIndexesBelow(rs, dst.x, s, T, b);
      case OIndex =>
        WalkBelow(rs, dst.y, s, T, b);
        StoreIndexesBelow(rs, dst.x, Walk(rs, dst.y, s).0, T, b);
      case _ =>
    }
  }
}

/** How many rounds the fixed point takes.

    `base` solves the flow constraints, and the state is below it. The depths
    of `base` up to `level` are reached, but for some variables at `level`
    itself: `up` is `base` with those raised by one, or dropped at the last
    level. A visit after which none of them is as shallow as `level` shows that
    `up` solves the constraints as well, for no flow that shallow reaches them.
    So in a round either one more variable reaches the depth it ends with, or
    the depth the others can end with rises. */
module EscapeRounds {
  import opened IR
  import opened EscapeWalk
  import opened EscapeConstraints
  import Least = EscapeLeast

  datatype Raise = Raise(base: Taints, up: Taints, level: nat)
  {
    /** `up` raises some of `base` at or above `level`. */
    ghost predicate Valid() {
      && level <= MAX_DEREFS
      && (forall o {:trigger o in up} :: o in up ==>
            o in base && base[o] <= up[o] && (level == MAX_DEREFS ==> up[o] <= level))
      && (forall o {:trigger o in base} :: o in base ==>
            Kept(o) || (if level < MAX_DEREFS then o in up && up[o] == level + 1 else o !in up))
    }

    predicate Kept(o: Object) { o in base && o in up && up[o] == base[o] }
  }

  /** The state has every depth of `up` as far as `level`. */
  ghost predicate Near(s: State, k: Raise) {
    && k.Valid()
    && (forall o {:trigger o in s.tainted} :: o in s.tainted ==> s.tainted[o] <= MAX_DEREFS)
    && (forall o {:trigger o in k.up} :: o in k.up && k.up[o] <= k.level ==> o in s.tainted && s.tainted[o] <= k.up[o])
  }

  /** No raised variable is as shallow as `level`. */
  ghost predicate Low(s: State, k: Raise) {
    forall o {:trigger o in s.tainted} :: o in s.tainted && o in k.base && !k.Kept(o) ==> s.tainted[o] > k.level
  }

  ghost predicate Step(s: State, t: State, k: Raise) { Near(t, k) && (Low(t, k) ==> Low(s, k)) }

  /** The walk's flow `f`, where `u` and `g` are the flows under `up` and `base`. */
  predicate Closer(f: Flow, u: Flow, g: Flow, level: nat) {
    && (f.Derived? ==> f.derefs <= MAX_DEREFS)
    && (u.Derived? ==> g.Derived? && g.derefs <= u.derefs && (level == MAX_DEREFS ==> u.derefs <= level))
    && (u.Derived? && u.derefs <= level ==> f.Derived? && f.derefs <= u.derefs)
  }

  predicate IsStatement(op: Op) {
    || op.OAssign? || op.OReturn? || op.OIf? || op.OFor? || op.OSwitch? || op.ORange? || op.OTypeSwitch?
    || op.OBlock? || op.OLabel? || op.OCase? || op.OOther?
  }

  lemma Unnamed(n: Node, k: Raise)
    requires k.Valid() && Avoids(k.base, n)
    ensures Avoids(k.up, n)
  {
    if Names(n, k.up.Keys) { Least.NamesMore(n, k.up.Keys, k.base.Keys); }
  }

  lemma {:induction false} WalkAllLifts(rs: seq<Object>, ns: seq<Node>, s: State, k: Raise, b: Bound)
    requires Near(s, k) && SolvesAll(rs, k.base, b, ns)
    ensures Step(s, WalkAll(rs, ns, s), k)
    ensures Low(WalkAll(rs, ns, s), k) ==> SolvesAll(rs, k.up, b, ns)
    decreases ns, 0
  {
    if ns != [] {
      WalkLifts(rs, ns[0], s, k, b);
      WalkAllLifts(rs, ns[1..], Walk(rs, ns[0], s).0, k, b);
    }
  }

  lemma {:induction false} WalkLifts(rs: seq<Object>, n: Node, s: State, k: Raise, b: Bound)
    requires Near(s, k) && Solves(rs, k.base, b, n)
    ensures Step(s, Walk(rs, n, s).0, k)
    ensures Low(Walk(rs, n, s).0, k) ==> Solves(rs, k.up, b, n)
    ensures Closer(Walk(rs, n, s).1, FlowAt(k.up, n), FlowAt(k.base, n), k.level)
    decreases n, 4
  {
    if n.Node? {
      WalkAllLifts(rs, n.init, s, k, b);
      VisitLifts(rs, n, WalkAll(rs, n.init, s), k, b);
    }
  }

  lemma {:induction false} VisitLifts(rs: seq<Object>, n: Node, s: State, k: Raise, b: Bound)
    requires n.Node?
    requires Near(s, k) && SolvesNode(rs, k.base, b, n)
    ensures Step(s, Visit(rs, n, s).0, k)
    ensures Low(Visit(rs, n, s).0, k) ==> SolvesNode(rs, k.up, b, n)
    ensures Closer(Visit(rs, n, s).1, ValueAt(k.up, n), ValueAt(k.base, n), k.level)
    decreases n, 3
  {
    var op := n.op;
    if op.OField? || op.ODeref? || op.OLen? || op.OCap? || op.ONilCheck? || op.OTypeAssert? { ReadLifts(rs, n, s, k, b); }
    else if op.OIndex? { IndexLifts(rs, n, s, k, b); }
    else if op.OSlice? { SliceLifts(rs, n, s, k, b); }
    else if op.OAddr? { AddrLifts(rs, n, s, k, b); }
    else if op.OUnary? || op.OBinary? || op.OCompare? { ArithmeticLifts(rs, n, s, k, b); }
    else if op.OConvert? { ConvertLifts(rs, n, s, k, b); }
    else if op.OCompositeLit? { LiteralLifts(rs, n, s, k, b); }
    else if op.OCall? { CallLifts(rs, n, s, k, b); }
    else if IsStatement(op) { StatementLifts(rs, n, s, k, b); }
  }

  lemma {:induction false} StatementLifts(rs: seq<Object>, n: Node, s: State, k: Raise, b: Bound)
    requires n.Node? && IsStatement(n.op)
    requires Near(s, k) && SolvesNode(rs, k.base, b, n)
    ensures Step(s, Visit(rs, n, s).0, k)
    ensures Low(Visit(rs, n, s).0, k) ==> SolvesNode(rs, k.up, b, n)
    ensures Closer(Visit(rs, n, s).1, ValueAt(k.up, n), ValueAt(k.base, n), k.level)
    decreases n, 2
  {
    var op := n.op;
    if op.OAssign? { AssignLifts(rs, n, s, k, b); }
    else if op.OReturn? { ReturnLifts(rs, n, s, k, b); }
    else if op.OIf? { IfLifts(rs, n, s, k, b); }
    else if op.OFor? { ForLifts(rs, n, s, k, b); }
    else if op.OSwitch? { SwitchLifts(rs, n, s, k, b); }
    else if op.ORange? { RangeLifts(rs, n, s, k, b); }
    else if op.OTypeSwitch? { TypeSwitchLifts(rs, n, s, k, b); }
    else if op.OBlock? || op.OLabel? { BlockLifts(rs, n, s, k, b); }
    else if op.OCase? { CaseLifts(rs, n, s, k, b); }
    else if op.OOther? { Unnamed(n, k); }
  }

  lemma {:induction false} ReadLifts(rs: seq<Object>, n: Node, s: State, k: Raise, b: Bound)
    requires n.Node? && (n.op.OField? || n.op.ODeref? || n.op.OLen? || n.op.OCap? || n.op.ONilCheck? || n.op.OTypeAssert?)
    requires Near(s, k) && SolvesNode(rs, k.base, b, n)
    ensures Step(s, Visit(rs, n, s).0, k)
    ensures Low(Visit(rs, n, s).0, k) ==> SolvesNode(rs, k.up, b, n)
    ensures Closer(Visit(rs, n, s).1, ValueAt(k.up, n), ValueAt(k.base, n), k.level)
    decreases n, 1
  {
    WalkLifts(rs, n.x, s, k, b);
  }

  lemma {:induction false} IndexLifts(rs: seq<Object>, n: Node, s: State, k: Raise, b: Bound)
    requires n.Node? && (n.op.OIndex?)
    requires Near(s, k) && SolvesNode(rs, k.base, b, n)
    ensures Step(s, Visit(rs, n, s).0, k)
    ensures Low(Visit(rs, n, s).0, k) ==> SolvesNode(rs, k.up, b, n)
    ensures Closer(Visit(rs, n, s).1, ValueAt(k.up, n), ValueAt(k.base, n), k.level)
    decreases n, 1
  {
    WalkLifts(rs, n.y, s, k, b);
    var s1 := Walk(rs, n.y, s).0;
    WalkAllLifts(rs, n.args, s1, k, b);
    WalkLifts(rs, n.x, WalkAll(rs, n.args, s1), k, b);
  }

  lemma {:induction false} SliceLifts(rs: seq<Object>, n: Node, s: State, k: Raise, b: Bound)
    requires n.Node? && (n.op.OSlice?)
    requires Near(s, k) && SolvesNode(rs, k.base, b, n)
    ensures Step(s, Visit(rs, n, s).0, k)
    ensures Low(Visit(rs, n, s).0, k) ==> SolvesNode(rs, k.up, b, n)
    ensures Closer(Visit(rs, n, s).1, ValueAt(k.up, n), ValueAt(k.base, n), k.level)
    decreases n, 1
  {
    WalkAllLifts(rs, n.args, s, k, b);
    WalkLifts(rs, n.x, WalkAll(rs, n.args, s), k, b);
  }

  lemma {:induction false} AddrLifts(rs: seq<Object>, n: Node, s: State, k: Raise, b: Bound)
    requires n.Node?
    requires Near(s, k) && SolvesAddr(rs, k.base, b, n)
    ensures Step(s, WalkAddr(rs, n, s).0, k)
    ensures Low(WalkAddr(rs, n, s).0, k) ==> SolvesAddr(rs, k.up, b, n)
    ensures Closer(WalkAddr(rs, n, s).1, AddrAt(k.up, n), AddrAt(k.base, n), k.level)
    decreases n, 1
  {
    WalkLifts(rs, n.x, s, k, b);
    var p := Addressed(n.x);
    if p.Through? { WalkLifts(rs, p.base, Walk(rs, n.x, s).0, k, b); }
    else { Unnamed(n.x, k); }
  }

  lemma {:induction false} ArithmeticLifts(rs: seq<Object>, n: Node, s: State, k: Raise, b: Bound)
    requires n.Node? && (n.op.OUnary? || n.op.OBinary? || n.op.OCompare?)
    requires Near(s, k) && SolvesNode(rs, k.base, b, n)
    ensures Step(s, Visit(rs, n, s).0, k)
    ensures Low(Visit(rs, n, s).0, k) ==> SolvesNode(rs, k.up, b, n)
    ensures Closer(Visit(rs, n, s).1, ValueAt(k.up, n), ValueAt(k.base, n), k.level)
    decreases n, 1
  {
    WalkLifts(rs, n.x, s, k, b);
    WalkLifts(rs, n.y, Walk(rs, n.x, s).0, k, b);
  }

  lemma {:induction false} ConvertLifts(rs: seq<Object>, n: Node, s: State, k: Raise, b: Bound)
    requires n.Node?
    requires Near(s, k) && SolvesConvert(rs, k.base, b, n)
    ensures Step(s, WalkConvert(rs, n, s).0, k)
    ensures Low(WalkConvert(rs, n, s).0, k) ==> SolvesConvert(rs, k.up, b, n)
    ensures Closer(WalkConvert(rs, n, s).1, ConvertAt(k.up, n), ConvertAt(k.base, n), k.level)
    decreases n, 1
  {
    if n.typ.NoType? { Unnamed(n.x, k); }
    else if n.typ.kind.Interface? || !n.typ.pointers { WalkLifts(rs, n.x, s, k, b); }
    else { PointerLifts(rs, n, s, k, b); }
  }

  lemma {:induction false} PointerLifts(rs: seq<Object>, n: Node, s: State, k: Raise, b: Bound)
    requires n.Node? && n.typ.Type? && n.typ.pointers && !n.typ.kind.Interface?
    requires Near(s, k) && SolvesConvert(rs, k.base, b, n)
    ensures Step(s, WalkConvert(rs, n, s).0, k)
    ensures Low(WalkConvert(rs, n, s).0, k) ==> SolvesConvert(rs, k.up, b, n)
    ensures Closer(WalkConvert(rs, n, s).1, ConvertAt(k.up, n), ConvertAt(k.base, n), k.level)
    decreases n, 0
  {
    if Typed(n.x) && !n.x.typ.pointers { UnsafeWordLifts(rs, n.x, s, k, b); } else { WalkLifts(rs, n.x, s, k, b); }
  }

  lemma {:induction false} LiteralLifts(rs: seq<Object>, n: Node, s: State, k: Raise, b: Bound)
    requires n.Node? && (n.op.OCompositeLit?)
    requires Near(s, k) && SolvesNode(rs, k.base, b, n)
    ensures Step(s, Visit(rs, n, s).0, k)
    ensures Low(Visit(rs, n, s).0, k) ==> SolvesNode(rs, k.up, b, n)
    ensures Closer(Visit(rs, n, s).1, ValueAt(k.up, n), ValueAt(k.base, n), k.level)
    decreases n, 1
  {
    WalkElemsLifts(rs, n.args, NoRef, NoRef, NoRef, s, k, b);
    assert Visit(rs, n, s) == WalkCompositeLit(rs, n, s);
    if !n.typ.Is(Struct) && !n.typ.Is(Array) { Unnamed(n, k); }
  }

  lemma {:induction false} CallLifts(rs: seq<Object>, n: Node, s: State, k: Raise, b: Bound)
    requires n.Node? && (n.op.OCall?)
    requires Near(s, k) && SolvesNode(rs, k.base, b, n)
    ensures Step(s, Visit(rs, n, s).0, k)
    ensures Low(Visit(rs, n, s).0, k) ==> SolvesNode(rs, k.up, b, n)
    ensures Closer(Visit(rs, n, s).1, ValueAt(k.up, n), ValueAt(k.base, n), k.level)
    decreases n, 1
  {
    WalkLifts(rs, n.x, s, k, b);
    var (s1, f) := Walk(rs, n.x, s);
    WalkLeakingLifts(rs, n.args, s1.LeakIf(f.Derived?), k, b);
  }

  lemma {:induction false} AssignLifts(rs: seq<Object>, n: Node, s: State, k: Raise, b: Bound)
    requires n.Node?
    requires Near(s, k) && SolvesAssign(rs, k.base, b, n)
    ensures Step(s, WalkAssign(rs, n, s), k)
    ensures Low(WalkAssign(rs, n, s), k) ==> SolvesAssign(rs, k.up, b, n)
    decreases n, 1
  {
    WalkLifts(rs, n.y, s, k, b);
    var (s1, f) := Walk(rs, n.y, s);
    var u, g := FlowAt(k.up, n.y), FlowAt(k.base, n.y);
    if n.x.Node? { StoreLifts(rs, n.x, f, u, g, s1, k, b); }
    StoreAllLifts(rs, n.args, f, u, g, if n.x.NoNode? then s1 else Store(rs, n.x, f, s1), k, b);
  }

  lemma {:induction false} ReturnLifts(rs: seq<Object>, n: Node, s: State, k: Raise, b: Bound)
    requires n.Node? && (n.op.OReturn?)
    requires Near(s, k) && SolvesNode(rs, k.base, b, n)
    ensures Step(s, Visit(rs, n, s).0, k)
    ensures Low(Visit(rs, n, s).0, k) ==> SolvesNode(rs, k.up, b, n)
    ensures Closer(Visit(rs, n, s).1, ValueAt(k.up, n), ValueAt(k.base, n), k.level)
    decreases n, 1
  {
    assert Visit(rs, n, s) == (WalkReturn(rs, n, s), NoRef) && ValueAt(k.up, n) == NoRef;
    if |n.args| == |rs| { WalkResultsLifts(rs, n.args, 0, s, k, b); }
    else { WalkLeakingLifts(rs, n.args, s, k, b); }
  }

  lemma {:induction false} IfLifts(rs: seq<Object>, n: Node, s: State, k: Raise, b: Bound)
    requires n.Node? && n.op.OIf?
    requires Near(s, k) && SolvesNode(rs, k.base, b, n)
    ensures Step(s, Visit(rs, n, s).0, k)
    ensures Low(Visit(rs, n, s).0, k) ==> SolvesNode(rs, k.up, b, n)
    ensures Closer(Visit(rs, n, s).1, ValueAt(k.up, n), ValueAt(k.base, n), k.level)
    decreases n, 1
  {
    WalkLifts(rs, n.x, s, k, b);
    var s1 := Walk(rs, n.x, s).0;
    WalkAllLifts(rs, n.body, s1, k, b);
    WalkAllLifts(rs, n.els, WalkAll(rs, n.body, s1), k, b);
  }

  lemma {:induction false} ForLifts(rs: seq<Object>, n: Node, s: State, k: Raise, b: Bound)
    requires n.Node? && n.op.OFor?
    requires Near(s, k) && SolvesNode(rs, k.base, b, n)
    ensures Step(s, Visit(rs, n, s).0, k)
    ensures Low(Visit(rs, n, s).0, k) ==> SolvesNode(rs, k.up, b, n)
    ensures Closer(Visit(rs, n, s).1, ValueAt(k.up, n), ValueAt(k.base, n), k.level)
    decreases n, 1
  {
    WalkLifts(rs, n.x, s, k, b);
    var s1 := Walk(rs, n.x, s).0;
    WalkAllLifts(rs, n.body, s1, k, b);
    WalkAllLifts(rs, n.post, WalkAll(rs, n.body, s1), k, b);
  }

  lemma {:induction false} SwitchLifts(rs: seq<Object>, n: Node, s: State, k: Raise, b: Bound)
    requires n.Node? && n.op.OSwitch?
    requires Near(s, k) && SolvesNode(rs, k.base, b, n)
    ensures Step(s, Visit(rs, n, s).0, k)
    ensures Low(Visit(rs, n, s).0, k) ==> SolvesNode(rs, k.up, b, n)
    ensures Closer(Visit(rs, n, s).1, ValueAt(k.up, n), ValueAt(k.base, n), k.level)
    decreases n, 1
  {
    WalkLifts(rs, n.x, s, k, b);
    var s1 := Walk(rs, n.x, s).0;
    WalkAllLifts(rs, n.body, s1, k, b);
  }

  lemma {:induction false} BlockLifts(rs: seq<Object>, n: Node, s: State, k: Raise, b: Bound)
    requires n.Node? && (n.op.OBlock? || n.op.OLabel?)
    requires Near(s, k) && SolvesNode(rs, k.base, b, n)
    ensures Step(s, Visit(rs, n, s).0, k)
    ensures Low(Visit(rs, n, s).0, k) ==> SolvesNode(rs, k.up, b, n)
    ensures Closer(Visit(rs, n, s).1, ValueAt(k.up, n), ValueAt(k.base, n), k.level)
    decreases n, 1
  {
    WalkAllLifts(rs, n.body, s, k, b);
  }

  lemma {:induction false} CaseLifts(rs: seq<Object>, n: Node, s: State, k: Raise, b: Bound)
    requires n.Node? && n.op.OCase?
    requires Near(s, k) && SolvesNode(rs, k.base, b, n)
    ensures Step(s, Visit(rs, n, s).0, k)
    ensures Low(Visit(rs, n, s).0, k) ==> SolvesNode(rs, k.up, b, n)
    ensures Closer(Visit(rs, n, s).1, ValueAt(k.up, n), ValueAt(k.base, n), k.level)
    decreases n, 1
  {
    WalkAllLifts(rs, n.args, s, k, b);
    WalkAllLifts(rs, n.body, WalkAll(rs, n.args, s), k, b);
  }

  lemma {:induction false} RangeLifts(rs: seq<Object>, n: Node, s: State, k: Raise, b: Bound)
    requires n.Node?
    requires Near(s, k) && SolvesRange(rs, k.base, b, n)
    ensures Step(s, WalkRange(rs, n, s), k)
    ensures Low(WalkRange(rs, n, s), k) ==> SolvesRange(rs, k.up, b, n)
    decreases n, 1
  {
    WalkLifts(rs, n.x, s, k, b);
    var (s1, f) := Walk(rs, n.x, s);
    if Rangeable(n.x) {
      RangeStoresLifts(rs, n.args, f.Shift(1), FlowAt(k.up, n.x).Shift(1), FlowAt(k.base, n.x).Shift(1), s1, k, b);
      WalkAllLifts(rs, n.body, RangeStores(rs, n.args, f.Shift(1), s1), k, b);
    } else { Unnamed(n, k); }
  }

  lemma {:induction false} TypeSwitchLifts(rs: seq<Object>, n: Node, s: State, k: Raise, b: Bound)
    requires n.Node? && (n.op.OTypeSwitch?)
    requires Near(s, k) && SolvesNode(rs, k.base, b, n)
    ensures Step(s, Visit(rs, n, s).0, k)
    ensures Low(Visit(rs, n, s).0, k) ==> SolvesNode(rs, k.up, b, n)
    ensures Closer(Visit(rs, n, s).1, ValueAt(k.up, n), ValueAt(k.base, n), k.level)
    decreases n, 1
  {
    WalkLifts(rs, n.x, s, k, b);
    var (s1, f) := Walk(rs, n.x, s);
    WalkClausesLifts(rs, n.body, f, FlowAt(k.up, n.x), FlowAt(k.base, n.x), s1, k, b);
  }

  lemma {:induction false} UnsafeWordLifts(rs: seq<Object>, n: Node, s: State, k: Raise, b: Bound)
    requires Near(s, k) && SolvesWord(rs, k.base, b, n)
    ensures Step(s, UnsafeWord(rs, n, s).0, k)
    ensures Low(UnsafeWord(rs, n, s).0, k) ==> SolvesWord(rs, k.up, b, n)
    ensures Closer(UnsafeWord(rs, n, s).1, WordAt(k.up, n), WordAt(k.base, n), k.level)
    decreases n, 6
  {
    if n.Node? {
      WalkAllLifts(rs, n.init, s, k, b);
      VisitWordLifts(rs, n, WalkAll(rs, n.init, s), k, b);
    }
  }

  lemma {:induction false} VisitWordLifts(rs: seq<Object>, n: Node, s: State, k: Raise, b: Bound)
    requires n.Node?
    requires Near(s, k) && SolvesVisit(rs, k.base, b, n)
    ensures Step(s, VisitWord(rs, n, s).0, k)
    ensures Low(VisitWord(rs, n, s).0, k) ==> SolvesVisit(rs, k.up, b, n)
    ensures Closer(VisitWord(rs, n, s).1, WordAt(k.up, n), WordAt(k.base, n), k.level)
    decreases n, 5
  {
    if n.op.OConvert? { WalkLifts(rs, n.x, s, k, b); }
    else if n.op.OUnary? || n.op.OBinary? { WordPairLifts(rs, n, s, k, b); }
    else { WalkLifts(rs, n, s, k, b); }
  }

  lemma {:induction false} WordPairLifts(rs: seq<Object>, n: Node, s: State, k: Raise, b: Bound)
    requires n.Node? && (n.op.OUnary? || n.op.OBinary?)
    requires Near(s, k) && SolvesVisit(rs, k.base, b, n)
    ensures Step(s, VisitWord(rs, n, s).0, k)
    ensures Low(VisitWord(rs, n, s).0, k) ==> SolvesVisit(rs, k.up, b, n)
    ensures Closer(VisitWord(rs, n, s).1, WordAt(k.up, n), WordAt(k.base, n), k.level)
    decreases n, 4
  {
    UnsafeWordLifts(rs, n.x, s, k, b);
    UnsafeWordLifts(rs, n.y, UnsafeWord(rs, n.x, s).0, k, b);
  }

  lemma {:induction false} WalkElemsLifts(rs: seq<Object>, elems: seq<Node>, f: Flow, u: Flow, g: Flow, s: State, k: Raise, b: Bound)
    requires Near(s, k) && SolvesElems(rs, k.base, b, elems) && Closer(f, u, g, k.level)
    ensures Step(s, WalkElems(rs, elems, f, s).0, k)
    ensures Low(WalkElems(rs, elems, f, s).0, k) ==> SolvesElems(rs, k.up, b, elems)
    ensures Closer(WalkElems(rs, elems, f, s).1, ElemsAt(k.up, elems, u), ElemsAt(k.base, elems, g), k.level)
    decreases elems, 2
  {
    if elems != [] {
      var a := elems[0];
      ElemLifts(rs, a, s, k, b);
      var (s2, v) := VisitElem(rs, a, s);
      var e := Stored(a);
      WalkElemsLifts(rs, elems[1..], f.Join(v), u.Join(FlowAt(k.up, e)), g.Join(FlowAt(k.base, e)), s2, k, b);
    }
  }

  /** The part of a literal's element that is stored. */
  function Stored(a: Node): Node {
    if Keyed(a) then a.y else a
  }

  lemma {:induction false} ElemLifts(rs: seq<Object>, a: Node, s: State, k: Raise, b: Bound)
    requires Near(s, k) && SolvesElem(rs, k.base, b, a)
    ensures Step(s, VisitElem(rs, a, s).0, k)
    ensures Low(VisitElem(rs, a, s).0, k) ==> SolvesElem(rs, k.up, b, a)
    ensures Closer(VisitElem(rs, a, s).1, FlowAt(k.up, Stored(a)), FlowAt(k.base, Stored(a)), k.level)
    decreases a, 5
  {
    if Keyed(a) {
      WalkAllLifts(rs, a.init, s, k, b);
      var s1 := WalkAll(rs, a.init, s);
      WalkLifts(rs, a.x, s1, k, b);
      WalkLifts(rs, a.y, Walk(rs, a.x, s1).0, k, b);
    } else {
      WalkLifts(rs, a, s, k, b);
    }
  }

  lemma {:induction false} WalkLeakingLifts(rs: seq<Object>, ns: seq<Node>, s: State, k: Raise, b: Bound)
    requires Near(s, k) && SolvesClean(rs, k.base, b, ns)
    ensures Step(s, WalkLeaking(rs, ns, s), k)
    ensures Low(WalkLeaking(rs, ns, s), k) ==> SolvesClean(rs, k.up, b, ns)
    decreases ns, 2
  {
    if ns != [] {
      WalkLifts(rs, ns[0], s, k, b);
      var (s1, f) := Walk(rs, ns[0], s);
      WalkLeakingLifts(rs, ns[1..], s1.LeakIf(f.Derived?), k, b);
    }
  }

  lemma {:induction false} WalkResultsLifts(rs: seq<Object>, args: seq<Node>, i: nat, s: State, k: Raise, b: Bound)
    requires i + |args| <= |rs|
    requires Near(s, k) && SolvesResults(rs, k.base, b, args, i)
    ensures Step(s, WalkResults(rs, args, i, s), k)
    ensures Low(WalkResults(rs, args, i, s), k) ==> SolvesResults(rs, k.up, b, args, i)
    decreases args, 2
  {
    if args != [] {
      WalkLifts(rs, args[0], s, k, b);
      var (s1, f) := Walk(rs, args[0], s);
      WalkResultsLifts(rs, args[1..], i + 1, RecordResult(i, ReturnedFlow(rs, i, f), s1), k, b);
    }
  }

  lemma {:induction false} RangeStoresLifts(rs: seq<Object>, dsts: seq<Node>, f: Flow, u: Flow, g: Flow, s: State, k: Raise, b: Bound)
    requires Near(s, k) && AcceptsRange(rs, k.base, b, dsts, g) && Closer(f, u, g, k.level)
    ensures Step(s, RangeStores(rs, dsts, f, s), k)
    ensures Low(RangeStores(rs, dsts, f, s), k) ==> AcceptsRange(rs, k.up, b, dsts, u)
    decreases dsts, 2
  {
    if dsts != [] {
      var d := dsts[0];
      if d.Node? {
        WalkAllLifts(rs, d.init, s, k, b);
        StoreLifts(rs, d, f, u, g, WalkAll(rs, d.init, s), k, b);
      }
      RangeStoresLifts(rs, dsts[1..], f, u, g, RangeStore(rs, d, f, s), k, b);
    }
  }

  lemma {:induction false} WalkClausesLifts(rs: seq<Object>, clauses: seq<Node>, f: Flow, u: Flow, g: Flow, s: State, k: Raise, b: Bound)
    requires Near(s, k) && SolvesClauses(rs, k.base, b, clauses, g) && Closer(f, u, g, k.level)
    ensures Step(s, WalkClauses(rs, clauses, f, s), k)
    ensures Low(WalkClauses(rs, clauses, f, s), k) ==> SolvesClauses(rs, k.up, b, clauses, u)
    decreases clauses, 2
  {
    if clauses != [] {
      VisitClauseLifts(rs, clauses[0], f, u, g, s, k, b);
      WalkClausesLifts(rs, clauses[1..], f, u, g, VisitClause(rs, clauses[0], f, s), k, b);
    }
  }

  lemma {:induction false} VisitClauseLifts(rs: seq<Object>, c: Node, f: Flow, u: Flow, g: Flow, s: State, k: Raise, b: Bound)
    requires Near(s, k) && SolvesClause(rs, k.base, b, c, g) && Closer(f, u, g, k.level)
    ensures Step(s, VisitClause(rs, c, f, s), k)
    ensures Low(VisitClause(rs, c, f, s), k) ==> SolvesClause(rs, k.up, b, c, u)
    decreases c, 5
  {
    if c.Node? && c.op.OCase? {
      WalkAllLifts(rs, c.init, s, k, b);
      var s1 := WalkAll(rs, c.init, s);
      WalkAllLifts(rs, c.args, s1, k, b);
      var s2 := WalkAll(rs, c.args, s1);
      BindLifts(c.obj, f, u, g, s2, k);
      WalkAllLifts(rs, c.body, Bind(c.obj, f, s2), k, b);
    } else if c.Node? { Unnamed(c, k); }
  }

  lemma {:induction false} StoreAllLifts(rs: seq<Object>, dsts: seq<Node>, f: Flow, u: Flow, g: Flow, s: State, k: Raise, b: Bound)
    requires Near(s, k) && AcceptsAll(rs, k.base, b, dsts, g) && Closer(f, u, g, k.level)
    ensures Step(s, StoreAll(rs, dsts, f, s), k)
    ensures Low(StoreAll(rs, dsts, f, s), k) ==> AcceptsAll(rs, k.up, b, dsts, u)
    decreases dsts, 2
  {
    if dsts != [] {
      StoreLifts(rs, dsts[0], f, u, g, s, k, b);
      StoreAllLifts(rs, dsts[1..], f, u, g, Store(rs, dsts[0], f, s), k, b);
    }
  }

  lemma {:induction false} StoreLifts(rs: seq<Object>, dst: Node, f: Flow, u: Flow, g: Flow, s: State, k: Raise, b: Bound)
    requires Near(s, k) && Accepts(rs, k.base, b, dst, g) && Closer(f, u, g, k.level)
    ensures Step(s, Store(rs, dst, f, s), k)
    ensures Low(Store(rs, dst, f, s), k) ==> Accepts(rs, k.up, b, dst, u)
    decreases dst, 4
  {
    StoreIntoLifts(rs, dst, f.Carries(dst.typ), u.Carries(dst.typ), g.Carries(dst.typ), s, k, b);
  }

  lemma {:induction false} StoreIntoLifts(rs: seq<Object>, dst: Node, src: Flow, up: Flow, want: Flow, s: State, k: Raise, b: Bound)
    requires dst.Node?
    requires Near(s, k) && AcceptsInto(rs, k.base, b, dst, want) && Closer(src, up, want, k.level)
    ensures Step(s, StoreInto(rs, dst, src, s), k)
    ensures Low(StoreInto(rs, dst, src, s), k) ==> AcceptsInto(rs, k.up, b, dst, up)
    decreases dst, 3
  {
    var (root, direct) := Destination(dst);
    if direct {
      StoreIndexesLifts(rs, dst, s, k, b);
      StoreRootLifts(root, src, up, want, StoreIndexes(rs, dst, s), k, b);
    } else { Unnamed(dst, k); }
  }

  /** A variable takes a flow. One that ends no shallower than `level` was not
      given one that shallow. */
  lemma TaintLifts(o: Object, f: Flow, u: Flow, g: Flow, s: State, k: Raise)
    requires Near(s, k) && o.Object? && Holds(k.base, o, g) && Closer(f, u, g, k.level)
    ensures var t := if f.Derived? then s.Taint(o, f.derefs) else s;
            Step(s, t, k) && (Low(t, k) ==> Holds(k.up, o, u))
  {
    var t := if f.Derived? then s.Taint(o, f.derefs) else s;
    if Low(t, k) {
      assert o in t.tainted && o in k.base && !k.Kept(o) ==> t.tainted[o] > k.level;
      forall p | p in s.tainted && p in k.base && !k.Kept(p) ensures s.tainted[p] > k.level {
        assert p in t.tainted && t.tainted[p] <= s.tainted[p];
      }
    }
  }

  lemma BindLifts(o: Object, f: Flow, u: Flow, g: Flow, s: State, k: Raise)
    requires Near(s, k) && Closer(f, u, g, k.level)
    requires o.Object? ==> Holds(k.base, o, BoundFlow(o, g))
    ensures var t := Bind(o, f, s);
            Step(s, t, k) && (Low(t, k) ==> o.NoObject? || Holds(k.up, o, BoundFlow(o, u)))
  {
    if o.Object? { TaintLifts(o, BoundFlow(o, f), BoundFlow(o, u), BoundFlow(o, g), s, k); }
  }

  lemma StoreRootLifts(root: Object, src: Flow, up: Flow, want: Flow, s: State, k: Raise, b: Bound)
    requires Near(s, k) && AcceptsRoot(k.base, root, want) && Closer(src, up, want, k.level)
    ensures Step(s, StoreRoot(root, src, s), k)
    ensures Low(StoreRoot(root, src, s), k) ==> AcceptsRoot(k.up, root, up)
  {
    if root.Object? && !root.cls.ClassGlobal? { TaintLifts(root, src, up, want, s, k); }
  }

  lemma {:induction false} StoreIndexesLifts(rs: seq<Object>, dst: Node, s: State, k: Raise, b: Bound)
    requires Near(s, k) && SolvesIndexes(rs, k.base, b, dst)
    ensures Step(s, StoreIndexes(rs, dst, s), k)
    ensures Low(StoreIndexes(rs, dst, s), k) ==> SolvesIndexes(rs, k.up, b, dst)
    decreases dst, 2
  {
    if dst.Node? {
      match dst.op
      case OField => StoreIndexesLifts(rs, dst.x, s, k, b);
      case OIndex =>
        WalkLifts(rs, dst.y, s, k, b);
        StoreIndexesLifts(rs, dst.x, Walk(rs, dst.y, s).0, k, b);
      case _ =>
    }
  }
}

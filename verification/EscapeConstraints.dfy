/** What the taint walk computes, said without the walk.

    `Solves(rs, T, b, n)` is the system of flow constraints a tree puts on a
    taint map `T` and a result map `R`: no position leaks, every assignment's
    flow is in `T` and every returned flow is in `R`. `FlowAt` is what a value
    carries under a fixed `T`. The order of the statements plays no part.

    The lemmas below say that a visit which changes nothing is a solution
    (`WalkSolves`) and that a visit from below a solution stays below it
    (`WalkBelow`). Together they make the answer of `analyse` the least
    solution, and a refusal the absence of one. */
module EscapeConstraints {
  import opened IR
  import opened EscapeWalk
  import opened Leaks
  import opened Wrappers

  type Taints = map<Object, nat>

  /** The depth recorded for one result. The constraints are stated for one
      result at a time. */
  datatype Bound = Bound(result: nat, depth: Option<nat>)

  // ----- The constraints -----

  predicate Avoids(T: Taints, n: Node) { !Names(n, T.Keys) }

  function FlowAt(T: Taints, n: Node): Flow
    decreases n, 2
  {
    if n.NoNode? then NoRef else ValueAt(T, n)
  }

  function ValueAt(T: Taints, n: Node): Flow
    requires n.Node?
    decreases n, 1
  {
    if n.op.OLocal? || n.op.OGlobal? then if n.obj.Object? && n.obj in T then Derived(T[n.obj]) else NoRef
    else if n.op.OField? || n.op.OLen? || n.op.OCap? || n.op.ONilCheck? then FlowAt(T, n.x).Carries(n.typ)
    else if n.op.ODeref? then FlowAt(T, n.x).Shift(1).Carries(n.typ)
    else if n.op.OIndex? then FlowAt(T, n.x).Shift(IndexDerefs(n.x)).Carries(n.typ)
    else if n.op.OSlice? then FlowAt(T, n.x).Shift(SliceDerefs(n.x)).Carries(n.typ)
    else if n.op.OTypeAssert? then FlowAt(T, n.x).Shift(IfaceDerefs(n.typ)).Carries(n.typ)
    else if n.op.OAddr? then AddrAt(T, n)
    else if n.op.OUnary? || n.op.OBinary? || n.op.OCompare? then FlowAt(T, n.x).Join(FlowAt(T, n.y)).Carries(n.typ)
    else if n.op.OConvert? then ConvertAt(T, n)
    else if n.op.OCompositeLit? then
      if n.typ.Is(Struct) || n.typ.Is(Array) then ElemsAt(T, n.args, NoRef).Carries(n.typ) else NoRef
    else NoRef
  }

  function AddrAt(T: Taints, n: Node): Flow
    requires n.Node?
    decreases n, 0
  {
    var p := Addressed(n.x);
    if p.Through? then FlowAt(T, p.base).Shift(p.derefs - 1).Carries(n.typ) else NoRef
  }

  function ConvertAt(T: Taints, n: Node): Flow
    requires n.Node?
    decreases n, 0
  {
    if n.typ.NoType? || n.typ.kind.Interface? || !n.typ.pointers then NoRef
    else if Typed(n.x) && !n.x.typ.pointers then WordAt(T, n.x).Carries(n.typ)
    else if Copies(n) then NoRef
    else FlowAt(T, n.x).Shift(ConvertDerefs(n)).Carries(n.typ)
  }

  function WordAt(T: Taints, n: Node): Flow
    decreases n, 3
  {
    if n.NoNode? then NoRef
    else if n.op.OConvert? then if Typed(n.x) && n.x.typ.pointers then FlowAt(T, n.x) else NoRef
    else if n.op.OUnary? || n.op.OBinary? then WordAt(T, n.x).Join(WordAt(T, n.y))
    else NoRef
  }

  function ElemsAt(T: Taints, elems: seq<Node>, f: Flow): Flow
    decreases elems, 0
  {
    if elems == [] then f
    else ElemsAt(T, elems[1..], f.Join(FlowAt(T, if Keyed(elems[0]) then elems[0].y else elems[0])))
  }

  /** `f` is recorded for result `i`, if it is a flow at all. */
  predicate Recorded(b: Bound, i: nat, f: Flow) {
    f.Derived? ==> i < NUM_RESULTS && (i == b.result ==> b.depth.Some? && b.depth.value <= f.derefs)
  }

  /** `f` is in the taint of `o`, if it is a flow at all. */
  predicate Holds(T: Taints, o: Object, f: Flow) {
    f.Derived? ==> o in T && T[o] <= f.derefs
  }

  predicate SolvesAll(rs: seq<Object>, T: Taints, b: Bound, ns: seq<Node>)
    decreases ns, 0
  {
    ns == [] || (Solves(rs, T, b, ns[0]) && SolvesAll(rs, T, b, ns[1..]))
  }

  predicate Solves(rs: seq<Object>, T: Taints, b: Bound, n: Node)
    decreases n, 3
  {
    n.NoNode? || (SolvesAll(rs, T, b, n.init) && SolvesNode(rs, T, b, n))
  }

  predicate SolvesNode(rs: seq<Object>, T: Taints, b: Bound, n: Node)
    requires n.Node?
    decreases n, 2
  {
    if n.op.OConst? || n.op.OLocal? || n.op.OGlobal? || n.op.ODeclare? || n.op.OGoto? || n.op.OBreak? || n.op.OContinue? then true
    else if n.op.OField? || n.op.ODeref? || n.op.OLen? || n.op.OCap? || n.op.ONilCheck? || n.op.OTypeAssert? then Solves(rs, T, b, n.x)
    else if n.op.OIndex? then Solves(rs, T, b, n.y) && SolvesAll(rs, T, b, n.args) && Solves(rs, T, b, n.x)
    else if n.op.OSlice? then SolvesAll(rs, T, b, n.args) && Solves(rs, T, b, n.x)
    else if n.op.OAddr? then SolvesAddr(rs, T, b, n)
    else if n.op.OUnary? || n.op.OBinary? || n.op.OCompare? then Solves(rs, T, b, n.x) && Solves(rs, T, b, n.y)
    else if n.op.OConvert? then SolvesConvert(rs, T, b, n)
    else if n.op.OCompositeLit? then
      && SolvesElems(rs, T, b, n.args)
      && (n.typ.Is(Struct) || n.typ.Is(Array) || (ElemsAt(T, n.args, NoRef).NoRef? && Avoids(T, n)))
    else if n.op.OCall? then
      Solves(rs, T, b, n.x) && FlowAt(T, n.x).NoRef? && SolvesClean(rs, T, b, n.args)
    else if n.op.OAssign? then SolvesAssign(rs, T, b, n)
    else if n.op.OReturn? then
      if |n.args| == |rs| then SolvesResults(rs, T, b, n.args, 0) else SolvesClean(rs, T, b, n.args)
    else if n.op.OBlock? || n.op.OLabel? then SolvesAll(rs, T, b, n.body)
    else if n.op.OIf? then Solves(rs, T, b, n.x) && SolvesAll(rs, T, b, n.body) && SolvesAll(rs, T, b, n.els)
    else if n.op.OFor? then Solves(rs, T, b, n.x) && SolvesAll(rs, T, b, n.body) && SolvesAll(rs, T, b, n.post)
    else if n.op.ORange? then SolvesRange(rs, T, b, n)
    else if n.op.OSwitch? then Solves(rs, T, b, n.x) && SolvesAll(rs, T, b, n.body)
    else if n.op.OTypeSwitch? then Solves(rs, T, b, n.x) && SolvesClauses(rs, T, b, n.body, FlowAt(T, n.x))
    else if n.op.OCase? then SolvesAll(rs, T, b, n.args) && SolvesAll(rs, T, b, n.body)
    else Avoids(T, n)
  }

  predicate SolvesAddr(rs: seq<Object>, T: Taints, b: Bound, n: Node)
    requires n.Node?
    decreases n, 1
  {
    && Solves(rs, T, b, n.x)
    && var p := Addressed(n.x);
       if p.Through? then Solves(rs, T, b, p.base) else Avoids(T, n.x)
  }

  predicate SolvesRange(rs: seq<Object>, T: Taints, b: Bound, n: Node)
    requires n.Node?
    decreases n, 1
  {
    && Solves(rs, T, b, n.x)
    && if !Rangeable(n.x) then Avoids(T, n)
       else AcceptsRange(rs, T, b, n.args, FlowAt(T, n.x).Shift(1)) && SolvesAll(rs, T, b, n.body)
  }

  predicate SolvesAssign(rs: seq<Object>, T: Taints, b: Bound, n: Node)
    requires n.Node?
    decreases n, 1
  {
    && Solves(rs, T, b, n.y)
    && var src := FlowAt(T, n.y);
       if n.x.NoNode? && n.args == [] then src.NoRef?
       else (n.x.NoNode? || Accepts(rs, T, b, n.x, src)) && AcceptsAll(rs, T, b, n.args, src)
  }

  predicate SolvesConvert(rs: seq<Object>, T: Taints, b: Bound, n: Node)
    requires n.Node?
    decreases n, 1
  {
    if n.typ.NoType? then Avoids(T, n.x)
    else if n.typ.kind.Interface? then Solves(rs, T, b, n.x) && FlowAt(T, n.x).NoRef?
    else if n.typ.pointers && Typed(n.x) && !n.x.typ.pointers then SolvesWord(rs, T, b, n.x)
    else Solves(rs, T, b, n.x)
  }

  predicate SolvesWord(rs: seq<Object>, T: Taints, b: Bound, n: Node)
    decreases n, 5
  {
    n.NoNode? || (SolvesAll(rs, T, b, n.init) && SolvesVisit(rs, T, b, n))
  }

  predicate SolvesVisit(rs: seq<Object>, T: Taints, b: Bound, n: Node)
    requires n.Node?
    decreases n, 4
  {
    if n.op.OConvert? then Solves(rs, T, b, n.x)
    else if n.op.OUnary? || n.op.OBinary? then SolvesWord(rs, T, b, n.x) && SolvesWord(rs, T, b, n.y)
    else Solves(rs, T, b, n)
  }

  predicate SolvesElems(rs: seq<Object>, T: Taints, b: Bound, elems: seq<Node>)
    decreases elems, 2
  {
    elems == [] || (SolvesElem(rs, T, b, elems[0]) && SolvesElems(rs, T, b, elems[1..]))
  }

  predicate SolvesElem(rs: seq<Object>, T: Taints, b: Bound, a: Node)
    decreases a, 4
  {
    if Keyed(a) then SolvesAll(rs, T, b, a.init) && Solves(rs, T, b, a.x) && Solves(rs, T, b, a.y)
    else Solves(rs, T, b, a)
  }

  /** Every value is visited and none carries a reference. */
  predicate SolvesClean(rs: seq<Object>, T: Taints, b: Bound, ns: seq<Node>)
    decreases ns, 2
  {
    ns == [] || (Solves(rs, T, b, ns[0]) && FlowAt(T, ns[0]).NoRef? && SolvesClean(rs, T, b, ns[1..]))
  }

  predicate SolvesResults(rs: seq<Object>, T: Taints, b: Bound, args: seq<Node>, i: nat)
    requires i + |args| <= |rs|
    decreases args, 2
  {
    args == [] || (
      && Solves(rs, T, b, args[0])
      && Recorded(b, i, ReturnedFlow(rs, i, FlowAt(T, args[0])))
      && SolvesResults(rs, T, b, args[1..], i + 1))
  }

  predicate AcceptsRange(rs: seq<Object>, T: Taints, b: Bound, dsts: seq<Node>, f: Flow)
    decreases dsts, 2
  {
    dsts == [] || (AcceptsRangeOne(rs, T, b, dsts[0], f) && AcceptsRange(rs, T, b, dsts[1..], f))
  }

  predicate AcceptsRangeOne(rs: seq<Object>, T: Taints, b: Bound, d: Node, f: Flow)
    decreases d, 5
  {
    d.NoNode? || (SolvesAll(rs, T, b, d.init) && Accepts(rs, T, b, d, f))
  }

  predicate SolvesClauses(rs: seq<Object>, T: Taints, b: Bound, clauses: seq<Node>, f: Flow)
    decreases clauses, 2
  {
    clauses == [] || (SolvesClause(rs, T, b, clauses[0], f) && SolvesClauses(rs, T, b, clauses[1..], f))
  }

  predicate SolvesClause(rs: seq<Object>, T: Taints, b: Bound, c: Node, f: Flow)
    decreases c, 5
  {
    if c.NoNode? then true
    else if !c.op.OCase? then Avoids(T, c)
    else && SolvesAll(rs, T, b, c.init) && SolvesAll(rs, T, b, c.args)
         && (c.obj.NoObject? || Holds(T, c.obj, BoundFlow(c.obj, f)))
         && SolvesAll(rs, T, b, c.body)
  }

  predicate AcceptsAll(rs: seq<Object>, T: Taints, b: Bound, dsts: seq<Node>, f: Flow)
    decreases dsts, 2
  {
    dsts == [] || (Accepts(rs, T, b, dsts[0], f) && AcceptsAll(rs, T, b, dsts[1..], f))
  }

  predicate Accepts(rs: seq<Object>, T: Taints, b: Bound, dst: Node, f: Flow)
    decreases dst, 4
  {
    dst.Node? && AcceptsInto(rs, T, b, dst, f.Carries(dst.typ))
  }

  /** A destination takes a value: either it stays inside one variable, which
      then holds the flow, or nothing of the parameter is involved. */
  predicate AcceptsInto(rs: seq<Object>, T: Taints, b: Bound, dst: Node, src: Flow)
    requires dst.Node?
    decreases dst, 3
  {
    var (root, direct) := Destination(dst);
    if !direct then src.NoRef? && Avoids(T, dst)
    else SolvesIndexes(rs, T, b, dst) && AcceptsRoot(T, root, src)
  }

  predicate AcceptsRoot(T: Taints, root: Object, src: Flow) {
    root.Object? && (if root.cls.ClassGlobal? then src.NoRef? else Holds(T, root, src))
  }

  predicate SolvesIndexes(rs: seq<Object>, T: Taints, b: Bound, dst: Node)
    decreases dst, 2
  {
    if dst.NoNode? then true
    else if dst.op.OField? then SolvesIndexes(rs, T, b, dst.x)
    else if dst.op.OIndex? then Solves(rs, T, b, dst.y) && SolvesIndexes(rs, T, b, dst.x)
    else true
  }
}

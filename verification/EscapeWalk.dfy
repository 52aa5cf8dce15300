/** The taint walk of escape/escape.go as functions.

    `Walk` is prover.node: from the prover's state it gives the state after the
    visit and what the node's value carries. The class in EscapeProver.dfy is
    proved to compute these functions. */
module EscapeWalk {
  import opened IR
  import opened Leaks

  // The saturated dereference count and the bound on the rounds.
  const MAX_DEREFS: nat := 0xff
  const MAX_ROUNDS: nat := 1000

  /** What the walk knows about one value: nothing of the parameter reaches it,
      or the parameter is `derefs` indirections away. */
  datatype Flow = NoRef | Derived(derefs: nat)
  {
    function Shift(k: int): Flow {
      if NoRef? then this
      else if derefs + k > MAX_DEREFS then Derived(MAX_DEREFS)
      else if derefs + k < 0 then Derived(0)
      else Derived(derefs + k)
    }

    function Join(g: Flow): Flow {
      if NoRef? then g
      else if g.NoRef? then this
      else if g.derefs < derefs then g
      else this
    }

    function Carries(t: Type): Flow {
      if t.MayHold() then this else NoRef
    }
  }

  datatype State = State(tainted: map<Object, nat>, results: map<nat, nat>, leaked: bool, changed: bool)
  {
    function Leak(): State { this.(leaked := true) }

    function LeakIf(c: bool): State { if c then Leak() else this }

    function Taint(o: Object, derefs: nat): State {
      if o.NoObject? then Leak()
      else if o in tainted && tainted[o] <= derefs then this
      else this.(tainted := tainted[o := derefs], changed := true)
    }

    function Result(i: nat, derefs: nat): State {
      if i >= NUM_RESULTS then Leak()
      else if i in results && results[i] <= derefs then this
      else this.(results := results[i := derefs])
    }

    predicate Mentions(n: Node) { Names(n, tainted.Keys) }
  }

  // ----- Where an address or a destination points -----

  /** What `addressed` answers: the variable whose own storage is named, the
      value the storage is reached through, or a shape it does not place. */
  datatype Place = Root(obj: Object) | Through(base: Node, derefs: nat) | Unplaced

  function Addressed(n: Node): (p: Place)
    ensures p.Through? ==> p.base < n && p.derefs == 1
  {
    if n.NoNode? then Unplaced
    else if n.op.OLocal? || n.op.OGlobal? then if n.obj.NoObject? then Unplaced else Root(n.obj)
      else if n.op.OField? then Addressed(n.x)
      else if n.op.ODeref? then Through(n.x, 1)
      else if n.op.OIndex? then
        if n.x.NoNode? || n.x.typ.NoType? then Unplaced
        else if n.x.typ.kind.Array? then Addressed(n.x)
        else if n.x.typ.kind.Slice? then Through(n.x, 1)
        else Unplaced
      else Unplaced
  }

  /** An array operand keeps the destination inside one variable's storage. */
  predicate InArray(x: Node) { x.Node? && x.typ.Is(Array) }

  /** The variable a destination names and whether every step stays inside it. */
  function Destination(n: Node): (Object, bool)
  {
    if n.NoNode? then (NoObject, false)
    else if n.op.OLocal? || n.op.OGlobal? then (n.obj, true)
      else if n.op.OField? then Destination(n.x)
      else if n.op.OIndex? then if InArray(n.x) then Destination(n.x) else (NoObject, false)
      else (NoObject, false)
  }

  // ----- Dereference counts -----

  function IndexDerefs(x: Node): nat { if InArray(x) then 0 else 1 }

  function SliceDerefs(x: Node): nat {
    if x.Node? && (x.typ.Is(Slice) || x.typ.Is(Str)) then 0 else 1
  }

  function IfaceDerefs(t: Type): nat {
    if t.Type? && (t.kind.Ptr? || t.kind.UnsafePtr? || t.kind.Map? || t.kind.Chan? || t.kind.FuncKind?)
    then 0 else 1
  }

  /** The operand has a type, so a question about both halves can be asked. */
  predicate Typed(n: Node) { n.Node? && n.typ.Type? }

  predicate Copies(n: Node)
    requires n.Node?
  {
    Typed(n) && Typed(n.x)
    && ((n.x.typ.kind.Str? && n.typ.kind.Slice?) || (n.x.typ.kind.Slice? && n.typ.kind.Str?))
  }

  function ConvertDerefs(n: Node): nat
    requires n.Node?
  {
    if Typed(n) && Typed(n.x) && n.x.typ.kind.Slice? && n.typ.kind.Array? then 1 else 0
  }

  predicate Rangeable(x: Node) {
    if !Typed(x) then false
    else match x.typ.kind
      case Slice | Str | Map | Chan | Array => true
      case Ptr => x.typ.elemArray
      case _ => !x.typ.pointers
  }

  // ----- The walk -----

  function WalkAll(rs: seq<Object>, ns: seq<Node>, s: State): State
    decreases ns, 0
  {
    if ns == [] then s else WalkAll(rs, ns[1..], Walk(rs, ns[0], s).0)
  }

  function Walk(rs: seq<Object>, n: Node, s0: State): (State, Flow)
    decreases n, 3
  {
    if n.NoNode? then (s0, NoRef) else Visit(rs, n, WalkAll(rs, n.init, s0))
  }

  /** The visit of one node after its own Init list. */
  function Visit(rs: seq<Object>, n: Node, s: State): (State, Flow)
    requires n.Node?
    decreases n, 2
  {
    if n.op.OConst? then (s, NoRef)
    else if n.op.OLocal? || n.op.OGlobal? then
      (s, if n.obj.Object? && n.obj in s.tainted then Derived(s.tainted[n.obj]) else NoRef)
    else if n.op.OField? then
      var (s1, f) := Walk(rs, n.x, s);
      (s1, f.Carries(n.typ))
    else if n.op.ODeref? then
      var (s1, f) := Walk(rs, n.x, s);
      (s1, f.Shift(1).Carries(n.typ))
    else if n.op.OIndex? then
      var (s1, f) := Walk(rs, n.x, WalkAll(rs, n.args, Walk(rs, n.y, s).0));
      (s1, f.Shift(IndexDerefs(n.x)).Carries(n.typ))
    else if n.op.OSlice? then
      var (s1, f) := Walk(rs, n.x, WalkAll(rs, n.args, s));
      (s1, f.Shift(SliceDerefs(n.x)).Carries(n.typ))
    else if n.op.OLen? || n.op.OCap? || n.op.ONilCheck? then
      var (s1, f) := Walk(rs, n.x, s);
      (s1, f.Carries(n.typ))
    else if n.op.OTypeAssert? then
      var (s1, f) := Walk(rs, n.x, s);
      (s1, f.Shift(IfaceDerefs(n.typ)).Carries(n.typ))
    else if n.op.OAddr? then WalkAddr(rs, n, s)
    else if n.op.OUnary? || n.op.OBinary? || n.op.OCompare? then
      var (s1, f) := Walk(rs, n.x, s);
      var (s2, g) := Walk(rs, n.y, s1);
      (s2, f.Join(g).Carries(n.typ))
    else if n.op.OConvert? then WalkConvert(rs, n, s)
    else if n.op.OCompositeLit? then WalkCompositeLit(rs, n, s)
    else if n.op.OCall? then
      var (s1, f) := Walk(rs, n.x, s);
      (WalkLeaking(rs, n.args, s1.LeakIf(f.Derived?)), NoRef)
    else if n.op.OAssign? then (WalkAssign(rs, n, s), NoRef)
    else if n.op.OReturn? then (WalkReturn(rs, n, s), NoRef)
    else if n.op.ODeclare? then (s, NoRef)
    else if n.op.OBlock? || n.op.OLabel? then (WalkAll(rs, n.body, s), NoRef)
    else if n.op.OIf? then (WalkAll(rs, n.els, WalkAll(rs, n.body, Walk(rs, n.x, s).0)), NoRef)
    else if n.op.OFor? then (WalkAll(rs, n.post, WalkAll(rs, n.body, Walk(rs, n.x, s).0)), NoRef)
    else if n.op.ORange? then (WalkRange(rs, n, s), NoRef)
    else if n.op.OSwitch? then (WalkAll(rs, n.body, Walk(rs, n.x, s).0), NoRef)
    else if n.op.OTypeSwitch? then
      var (s1, f) := Walk(rs, n.x, s);
      (WalkClauses(rs, n.body, f, s1), NoRef)
    else if n.op.OCase? then (WalkAll(rs, n.body, WalkAll(rs, n.args, s)), NoRef)
    else if n.op.OGoto? || n.op.OBreak? || n.op.OContinue? then (s, NoRef)
    else (s.LeakIf(s.Mentions(n)), NoRef)
  }

  function WalkAddr(rs: seq<Object>, n: Node, s: State): (State, Flow)
    requires n.Node?
    decreases n, 1
  {
    var s1 := Walk(rs, n.x, s).0;
    match Addressed(n.x)
    case Through(base, derefs) =>
      var (s2, f) := Walk(rs, base, s1);
      (s2, f.Shift(derefs - 1).Carries(n.typ))
    case _ => (s1.LeakIf(s1.Mentions(n.x)), NoRef)
  }

  function WalkConvert(rs: seq<Object>, n: Node, s: State): (State, Flow)
    requires n.Node?
    decreases n, 1
  {
    if n.typ.NoType? then (s.LeakIf(s.Mentions(n.x)), NoRef)
    else if n.typ.kind.Interface? then
      var (s1, f) := Walk(rs, n.x, s);
      (s1.LeakIf(f.Derived?), NoRef)
    else if !n.typ.pointers then (Walk(rs, n.x, s).0, NoRef)
    else if Typed(n.x) && !n.x.typ.pointers then
      var (s1, f) := UnsafeWord(rs, n.x, s);
      (s1, f.Carries(n.typ))
    else if Copies(n) then (Walk(rs, n.x, s).0, NoRef)
    else
      var (s1, f) := Walk(rs, n.x, s);
      (s1, f.Shift(ConvertDerefs(n)).Carries(n.typ))
  }

  /** The walk back through a word to the pointer it was converted from. */
  function UnsafeWord(rs: seq<Object>, n: Node, s0: State): (State, Flow)
    decreases n, 5
  {
    if n.NoNode? then (s0, NoRef) else VisitWord(rs, n, WalkAll(rs, n.init, s0))
  }

  function VisitWord(rs: seq<Object>, n: Node, s: State): (State, Flow)
    requires n.Node?
    decreases n, 4
  {
    if n.op.OConvert? then
      var (s1, f) := Walk(rs, n.x, s);
      (s1, if Typed(n.x) && n.x.typ.pointers then f else NoRef)
    else if n.op.OUnary? || n.op.OBinary? then
      var (s1, f) := UnsafeWord(rs, n.x, s);
      var (s2, g) := UnsafeWord(rs, n.y, s1);
      (s2, f.Join(g))
    else (Walk(rs, n, s).0, NoRef)
  }

  function WalkCompositeLit(rs: seq<Object>, n: Node, s: State): (State, Flow)
    requires n.Node?
    decreases n, 1
  {
    var (s1, f) := WalkElems(rs, n.args, NoRef, s);
    if n.typ.Is(Struct) || n.typ.Is(Array) then (s1, f.Carries(n.typ))
    else (s1.LeakIf(f.Derived? || s1.Mentions(n)), NoRef)
  }

  /** The elements of a literal. A keyed one is an OAssign whose left half is
      the key. */
  function WalkElems(rs: seq<Object>, elems: seq<Node>, f: Flow, s: State): (State, Flow)
    decreases elems, 2
  {
    if elems == [] then (s, f) else
    var (s1, g) := VisitElem(rs, elems[0], s);
    WalkElems(rs, elems[1..], f.Join(g), s1)
  }

  predicate Keyed(a: Node) { a.Node? && a.op.OAssign? }

  function VisitElem(rs: seq<Object>, a: Node, s: State): (State, Flow)
    decreases a, 4
  {
    if Keyed(a) then Walk(rs, a.y, Walk(rs, a.x, WalkAll(rs, a.init, s)).0) else Walk(rs, a, s)
  }

  /** Positions from which the caller may assume nothing: a derived value there
      is a leak. */
  function WalkLeaking(rs: seq<Object>, ns: seq<Node>, s: State): State
    decreases ns, 2
  {
    if ns == [] then s else
    var (s1, f) := Walk(rs, ns[0], s);
    WalkLeaking(rs, ns[1..], s1.LeakIf(f.Derived?))
  }

  function WalkAssign(rs: seq<Object>, n: Node, s: State): State
    requires n.Node?
    decreases n, 1
  {
    var (s1, src) := Walk(rs, n.y, s);
    if n.x.NoNode? && n.args == [] then s1.LeakIf(src.Derived?)
    else StoreAll(rs, n.args, src, if n.x.NoNode? then s1 else Store(rs, n.x, src, s1))
  }

  function WalkReturn(rs: seq<Object>, n: Node, s: State): State
    requires n.Node?
    decreases n, 1
  {
    if |n.args| == |rs| then WalkResults(rs, n.args, 0, s) else WalkLeaking(rs, n.args, s)
  }

  /** What one returned value adds to the state, clipped to the result's type. */
  function ReturnedFlow(rs: seq<Object>, i: nat, f: Flow): Flow
    requires i < |rs|
  {
    if rs[i].NoObject? then f else f.Carries(rs[i].typ)
  }

  function RecordResult(i: nat, f: Flow, s: State): State {
    if f.Derived? then s.Result(i, f.derefs) else s
  }

  function WalkResults(rs: seq<Object>, args: seq<Node>, i: nat, s: State): State
    requires i + |args| <= |rs|
    decreases args, 2
  {
    if args == [] then s else
    var (s1, f) := Walk(rs, args[0], s);
    WalkResults(rs, args[1..], i + 1, RecordResult(i, ReturnedFlow(rs, i, f), s1))
  }

  function WalkRange(rs: seq<Object>, n: Node, s: State): State
    requires n.Node?
    decreases n, 1
  {
    var (s1, f) := Walk(rs, n.x, s);
    if !Rangeable(n.x) then s1.LeakIf(s1.Mentions(n))
    else WalkAll(rs, n.body, RangeStores(rs, n.args, f.Shift(1), s1))
  }

  function RangeStores(rs: seq<Object>, dsts: seq<Node>, src: Flow, s: State): State
    decreases dsts, 2
  {
    if dsts == [] then s else RangeStores(rs, dsts[1..], src, RangeStore(rs, dsts[0], src, s))
  }

  function RangeStore(rs: seq<Object>, d: Node, src: Flow, s: State): State
    decreases d, 5
  {
    if d.NoNode? then s else Store(rs, d, src, WalkAll(rs, d.init, s))
  }

  function WalkClauses(rs: seq<Object>, clauses: seq<Node>, f: Flow, s: State): State
    decreases clauses, 2
  {
    if clauses == [] then s else WalkClauses(rs, clauses[1..], f, VisitClause(rs, clauses[0], f, s))
  }

  function VisitClause(rs: seq<Object>, c: Node, f: Flow, s: State): State
    decreases c, 5
  {
    if c.NoNode? then s
    else if !c.op.OCase? then s.LeakIf(s.Mentions(c))
    else WalkAll(rs, c.body, Bind(c.obj, f, WalkAll(rs, c.args, WalkAll(rs, c.init, s))))
  }

  /** The variable a clause of a type switch declares. */
  function Bind(o: Object, f: Flow, s: State): State {
    if o.Object? && BoundFlow(o, f).Derived? then s.Taint(o, BoundFlow(o, f).derefs) else s
  }

  /** What the variable of a clause holds: the dynamic value, read out. */
  function BoundFlow(o: Object, f: Flow): Flow
    requires o.Object?
  {
    f.Shift(IfaceDerefs(o.typ)).Carries(o.typ)
  }

  function StoreAll(rs: seq<Object>, dsts: seq<Node>, src: Flow, s: State): State
    decreases dsts, 2
  {
    if dsts == [] then s else StoreAll(rs, dsts[1..], src, Store(rs, dsts[0], src, s))
  }

  function Store(rs: seq<Object>, dst: Node, src0: Flow, s: State): State
    decreases dst, 4
  {
    if dst.NoNode? then s.Leak() else StoreInto(rs, dst, src0.Carries(dst.typ), s)
  }

  function StoreInto(rs: seq<Object>, dst: Node, src: Flow, s: State): State
    requires dst.Node?
    decreases dst, 3
  {
    var (root, direct) := Destination(dst);
    if !direct then s.LeakIf(src.Derived? || s.Mentions(dst))
    else StoreRoot(root, src, StoreIndexes(rs, dst, s))
  }

  function StoreRoot(root: Object, src: Flow, s: State): State {
    if root.NoObject? then s.Leak()
    else if root.cls.ClassGlobal? then s.LeakIf(src.Derived?)
    else if src.Derived? then s.Taint(root, src.derefs)
    else s
  }

  /** The index expressions on the way to a destination, which are read. */
  function StoreIndexes(rs: seq<Object>, dst: Node, s: State): State
    decreases dst, 2
  {
    if dst.NoNode? then s
    else if dst.op.OField? then StoreIndexes(rs, dst.x, s)
      else if dst.op.OIndex? then StoreIndexes(rs, dst.x, Walk(rs, dst.y, s).0)
      else s
  }

  // ----- The rounds -----

  /** One round of analyse: the whole body, with `changed` cleared. */
  function Round(fn: Func, s: State): State {
    WalkAll(fn.results, fn.body, s.(changed := false))
  }

  /** How the fixed point loop ends: with a state no round changes, at a leak,
      or at the bound on the rounds. */
  datatype Outcome = Settled(state: State) | Leaked | OutOfRounds

  function Iterate(fn: Func, s: State, round: nat): Outcome
    decreases MAX_ROUNDS + 1 - round
  {
    if round > MAX_ROUNDS then OutOfRounds else
    var t := Round(fn, s);
    if t.leaked then Leaked
    else if !t.changed then Settled(t)
    else Iterate(fn, t, round + 1)
  }

  function Start(param: Object): State { State(map[param := 0], map[], false, false) }

  predicate OutlivesFrame(o: Object) { o.Object? && (o.escapes || o.cls.ClassGlobal?) }
}

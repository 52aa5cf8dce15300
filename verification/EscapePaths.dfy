/** The ways by which a value leaves a parameter, one at a time.

    A way leads from a variable through the operands of one expression to a
    variable or a result, and counts the loads on it: where a value is inside
    the operand's own storage nothing is loaded, and where the operand only
    refers to it one load is. The module knows the node tree and nothing of
    the walk over it. EscapeShortest says that the walk finds the ways with
    the fewest loads. */
module EscapePaths {
  import opened IR
  import opened EscapeRun

  // The results that a note has a byte for.
  const NAMED_RESULTS: nat := 5

  // ----- Types -----

  /** A value of an unknown type may hold a reference. */
  predicate CanHold(t: Type) { t.Type? ==> t.pointers }

  predicate OfKind(n: Node, k: Kind) { n.Node? && n.typ.Type? && n.typ.kind == k }

  /** An interface holds such a value itself, and every other one elsewhere. */
  predicate PointerShaped(t: Type) {
    t.Type? && t.kind in {Ptr, UnsafePtr, Map, Chan, FuncKind}
  }

  /** A word the collector does not trace. */
  predicate IsWord(n: Node) { n.Node? && n.typ.Type? && !n.typ.pointers }

  // ----- Storage -----

  /** A use of a variable. */
  predicate IsUse(n: Node) { n.Node? && (n.op == OLocal || n.op == OGlobal) }

  /** The node is a variable, a field of one, or an element of one that is an
      array, at any depth. */
  predicate InVariable(n: Node) {
    n.Node? && (IsUse(n) || (n.op == OField && InVariable(n.x)) || (n.op == OIndex && OfKind(n.x, Array) && InVariable(n.x)))
  }

  /** Which variable that is, if the node names one. */
  predicate PartOf(n: Node, o: Object) {
    && n.Node?
    && (|| (IsUse(n) && n.obj == o)
        || (n.op == OField && PartOf(n.x, o))
        || (n.op == OIndex && OfKind(n.x, Array) && PartOf(n.x, o)))
  }

  /** The index expressions on the way down to the variable. */
  predicate IndexIn(n: Node, q: Node) {
    n.Node? && ((n.op == OField && IndexIn(n.x, q)) || (n.op == OIndex && (q == n.y || IndexIn(n.x, q))))
  }

  /** The node lies in what the value of `base` refers to. */
  predicate Behind(n: Node, base: Node) {
    && n.Node?
    && (|| (n.op == ODeref && base == n.x)
        || (n.op == OField && Behind(n.x, base))
        || (n.op == OIndex && OfKind(n.x, Array) && Behind(n.x, base))
        || (n.op == OIndex && OfKind(n.x, Slice) && base == n.x))
  }

  ghost predicate BehindSome(n: Node) { exists base :: Behind(n, base) }

  // ----- Ways through one expression -----

  /** The value of the node is what the variable holds, after `k` loads. */
  predicate Brings(n: Node, v: Object, k: nat)
    decreases n, 1
  {
    n.Node? && if IsUse(n) then v.Object? && n.obj == v && k == 0 else CanHold(n.typ) && BringsUp(n, v, k)
  }

  predicate AfterLoad(n: Node, v: Object, k: nat)
    decreases n, 2
  {
    k > 0 && Brings(n, v, k - 1)
  }

  predicate BringsUp(n: Node, v: Object, k: nat)
    requires n.Node?
    decreases n, 0
  {
    match n.op
    case OField => Brings(n.x, v, k)
    case OLen => Brings(n.x, v, k)
    case OCap => Brings(n.x, v, k)
    case ONilCheck => Brings(n.x, v, k)
    case ODeref => AfterLoad(n.x, v, k)
    case OIndex => if OfKind(n.x, Array) then Brings(n.x, v, k) else AfterLoad(n.x, v, k)
    case OSlice => if OfKind(n.x, Slice) || OfKind(n.x, Str) then Brings(n.x, v, k) else AfterLoad(n.x, v, k)
    case OTypeAssert => if PointerShaped(n.typ) then Brings(n.x, v, k) else AfterLoad(n.x, v, k)
    case OAddr => RefersTo(n.x, v, k)
    case OUnary => Brings(n.x, v, k) || Brings(n.y, v, k)
    case OBinary => Brings(n.x, v, k) || Brings(n.y, v, k)
    case OCompare => Brings(n.x, v, k) || Brings(n.y, v, k)
    case OConvert =>
      if n.typ.NoType? || n.typ.kind == Interface then false
      else if IsWord(n.x) then WordBrings(n.x, v, k)
      else if (OfKind(n.x, Slice) && n.typ.kind == Str) || (OfKind(n.x, Str) && n.typ.kind == Slice) then false
      else if OfKind(n.x, Slice) && n.typ.kind == Array then AfterLoad(n.x, v, k)
      else Brings(n.x, v, k)
    case OCompositeLit =>
      (OfKind(n, Struct) || OfKind(n, Array)) && exists i :: 0 <= i < |n.args| && ElementBrings(n.args[i], v, k)
    case _ => false
  }

  /** A keyed element is an assignment whose left half is the key. */
  predicate ElementBrings(a: Node, v: Object, k: nat)
    decreases a, 2
  {
    if a.Node? && a.op == OAssign then Brings(a.y, v, k) else Brings(a, v, k)
  }

  /** The pointer that the storage of the node lies behind. */
  predicate RefersTo(n: Node, v: Object, k: nat)
    decreases n, 2
  {
    n.Node? &&
    match n.op
    case ODeref => Brings(n.x, v, k)
    case OField => RefersTo(n.x, v, k)
    case OIndex => if OfKind(n.x, Array) then RefersTo(n.x, v, k) else OfKind(n.x, Slice) && Brings(n.x, v, k)
    case _ => false
  }

  /** The pointer that a word was converted from in the same expression. */
  predicate WordBrings(n: Node, v: Object, k: nat)
    decreases n, 2
  {
    n.Node? &&
    match n.op
    case OConvert => n.x.Node? && n.x.typ.Type? && n.x.typ.pointers && Brings(n.x, v, k)
    case OUnary => WordBrings(n.x, v, k) || WordBrings(n.y, v, k)
    case OBinary => WordBrings(n.x, v, k) || WordBrings(n.y, v, k)
    case _ => false
  }

  ghost predicate Bears(n: Node, v: Object) { exists k :: Brings(n, v, k) }

  // ----- Ways through one statement -----

  datatype Target = Var(o: Object) | Res(i: nat)

  /** Ranging over such a value keeps nothing of it: its elements can be placed,
      or it holds no reference. */
  predicate Ranged(x: Node) {
    || OfKind(x, Slice) || OfKind(x, Str) || OfKind(x, Map) || OfKind(x, Chan) || OfKind(x, Array)
    || (OfKind(x, Ptr) && x.typ.elemArray)
    || (IsWord(x) && !OfKind(x, Ptr))
  }

  predicate IsDestination(n: Node, d: Node)
    requires n.Node?
  {
    d in n.args || (d.Node? && d == n.x)
  }

  /** What is stored there is in a variable of the frame. */
  predicate Gives(d: Node, o: Object) {
    CanHoldAt(d) && PartOf(d, o) && o.Object? && o.cls != ClassGlobal
  }

  predicate CanHoldAt(d: Node) { d.Node? && CanHold(d.typ) }

  predicate Binds(c: Node, o: Object) { c.Node? && c.op == OCase && o.Object? && c.obj == o && CanHold(o.typ) }

  ghost predicate Passes(rs: seq<Object>, n: Node, v: Object, t: Target, k: nat)
    requires n.Node?
  {
    match t
    case Res(i) =>
      && n.op == OReturn && |n.args| == |rs| && i < |rs|
      && (rs[i].Object? ==> CanHold(rs[i].typ)) && Brings(n.args[i], v, k)
    case Var(o) =>
      || (n.op == OAssign && Brings(n.y, v, k) && exists d :: IsDestination(n, d) && Gives(d, o))
      || (n.op == ORange && Ranged(n.x) && AfterLoad(n.x, v, k) && exists d :: d in n.args && Gives(d, o))
      || (n.op == OTypeSwitch && o.Object? && (if PointerShaped(o.typ) then Brings(n.x, v, k) else AfterLoad(n.x, v, k))
          && exists c :: c in n.body && Binds(c, o))
  }

  // ----- Ways out -----

  /** A value that bears `v`, or a path that names it, leaves at a destination. */
  ghost predicate LeavesAt(d: Node, x: Node, v: Object) {
    && d.Node?
    && if InVariable(d) then CanHoldAt(d) && Bears(x, v) && exists o :: PartOf(d, o) && o.Object? && o.cls == ClassGlobal
       else (CanHoldAt(d) && Bears(x, v)) || v in Objects(d)
  }

  /** What `v` holds leaves where no note can follow it. */
  ghost predicate Leaves(rs: seq<Object>, n: Node, v: Object)
    requires n.Node?
  {
    match n.op
    case OAddr => !BehindSome(n.x) && v in Objects(n.x)
    case OConvert => if n.typ.NoType? then v in Objects(n.x) else n.typ.kind == Interface && Bears(n.x, v)
    case OCompositeLit => !OfKind(n, Struct) && !OfKind(n, Array) && v in Objects(n)
    case OCall => Bears(n.x, v) || exists a :: a in n.args && Bears(a, v)
    case OAssign =>
      || ((forall d :: !IsDestination(n, d)) && Bears(n.y, v))
      || exists d :: IsDestination(n, d) && LeavesAt(d, n.y, v)
    case OReturn =>
      if |n.args| == |rs| then
        exists i :: NAMED_RESULTS <= i < |rs| && (rs[i].Object? ==> CanHold(rs[i].typ)) && Bears(n.args[i], v)
      else exists a :: a in n.args && Bears(a, v)
    case ORange =>
      if Ranged(n.x) then exists d :: d in n.args && LeavesAt(d, n.x, v) else v in Objects(n)
    case OTypeSwitch => exists c :: c in n.body && c.Node? && c.op != OCase && v in Objects(c)
    case OOther(_) => v in Objects(n)
    case _ => false
  }

  /** A destination that is missing, or names no variable. */
  ghost predicate Broken(n: Node)
    requires n.Node?
  {
    || (n.op == OAssign && exists d :: IsDestination(n, d) && (d.NoNode? || PartOf(d, NoObject)))
    || (n.op == ORange && Ranged(n.x) && exists d :: d in n.args && PartOf(d, NoObject))
  }

  // ----- What is evaluated -----

  predicate WordPart(n: Node, q: Node)
    decreases n
  {
    n.Node? &&
    match n.op
    case OConvert => q in n.init || q == n.x
    case OUnary => q in n.init || WordPart(n.x, q) || WordPart(n.y, q)
    case OBinary => q in n.init || WordPart(n.x, q) || WordPart(n.y, q)
    case _ => q == n
  }

  predicate ElementPart(a: Node, q: Node) {
    if a.Node? && a.op == OAssign then q in a.init || q == a.x || q == a.y else q == a
  }

  predicate DestinationPart(d: Node, q: Node) { InVariable(d) && IndexIn(d, q) }

  predicate ClausePart(c: Node, q: Node) { c.Node? && c.op == OCase && (q in c.init || q in c.args || q in c.body) }

  /** Evaluating `n` evaluates `q`. */
  ghost predicate Part(n: Node, q: Node)
    requires n.Node?
  {
    q in n.init ||
    match n.op
    case OField => q == n.x
    case ODeref => q == n.x
    case OLen => q == n.x
    case OCap => q == n.x
    case ONilCheck => q == n.x
    case OTypeAssert => q == n.x
    case OIndex => q == n.x || q == n.y || q in n.args
    case OSlice => q == n.x || q in n.args
    case OAddr => q == n.x || Behind(n.x, q)
    case OUnary => q == n.x || q == n.y
    case OBinary => q == n.x || q == n.y
    case OCompare => q == n.x || q == n.y
    case OConvert =>
      n.typ.Type? && if n.typ.kind != Interface && n.typ.pointers && IsWord(n.x) then WordPart(n.x, q) else q == n.x
    case OCompositeLit => exists a :: a in n.args && ElementPart(a, q)
    case OCall => q == n.x || q in n.args
    case OAssign => q == n.y || exists d :: IsDestination(n, d) && DestinationPart(d, q)
    case OReturn => q in n.args
    case OBlock => q in n.body
    case OLabel => q in n.body
    case OIf => q == n.x || q in n.body || q in n.els
    case OFor => q == n.x || q in n.body || q in n.post
    case OSwitch => q == n.x || q in n.body
    case ORange =>
      q == n.x || (Ranged(n.x) && (q in n.body || exists d :: d in n.args && d.Node? && (q in d.init || DestinationPart(d, q))))
    case OTypeSwitch => q == n.x || exists c :: c in n.body && ClausePart(c, q)
    case OCase => q in n.args || q in n.body
    case _ => false
  }

  /** One node after the other, each evaluated by the one before it. */
  ghost predicate Descends(trail: seq<Node>) {
    && trail != [] && (forall i :: 0 <= i < |trail| ==> trail[i].Node?)
    && forall i :: 0 <= i < |trail| - 1 ==> Part(trail[i], trail[i + 1])
  }

  /** A statement list evaluates the node, at any depth. */
  ghost predicate Evaluated(ns: seq<Node>, m: Node) {
    exists trail :: Descends(trail) && trail[0] in ns && trail[|trail| - 1] == m
  }
}

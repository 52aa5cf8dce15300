/** The flow constraints of a tree, said by the ways through each node it
    evaluates: a taint map solves them exactly when every way is reflected in it
    and nothing tainted leaves. */
module EscapeLocal {
  import opened IR
  import opened Leaks
  import opened Wrappers
  import opened EscapeWalk
  import opened EscapeConstraints
  import opened EscapeRun
  import opened EscapePaths
  import opened EscapeWays
  import Least = EscapeLeast

  /** Every depth fits its byte. */
  ghost predicate Fits(T: Taints) { forall o {:trigger o in T} :: o in T ==> T[o] <= LARGEST }

  // ----- Names -----

  lemma {:induction false} NamedIs(n: Node, objs: set<Object>)
    ensures Names(n, objs) <==> exists v :: v in objs && v in Objects(n)
    decreases n, 1
  {
    if n.Node? {
      NamedIs(n.x, objs);
      NamedIs(n.y, objs);
      NamedAnyIs(n.args, objs);
      NamedAnyIs(n.init, objs);
      NamedAnyIs(n.body, objs);
      NamedAnyIs(n.post, objs);
      NamedAnyIs(n.els, objs);
    }
  }

  lemma {:induction false} NamedAnyIs(ns: seq<Node>, objs: set<Object>)
    ensures NamesAny(ns, objs) <==> exists v :: v in objs && v in ObjectsAll(ns)
    decreases ns, 0
  {
    if ns != [] {
      NamedIs(ns[0], objs);
      NamedAnyIs(ns[1..], objs);
    }
  }

  lemma AvoidsIs(T: Taints, n: Node)
    ensures Avoids(T, n) <==> forall v :: v in T ==> v !in Objects(n)
  {
    NamedIs(n, T.Keys);
  }

  lemma {:induction false} ObjectsOf(ns: seq<Node>, n: Node)
    requires n in ns
    ensures Objects(n) <= ObjectsAll(ns)
  {
    if n != ns[0] { ObjectsOf(ns[1..], n); }
  }

  // ----- Storage -----

  lemma {:induction false} DestinationIs(d: Node)
    ensures Destination(d).1 <==> InVariable(d)
    ensures forall o {:trigger PartOf(d, o)} :: PartOf(d, o) <==> InVariable(d) && o == Destination(d).0
  {
    if d.Node? && (d.op.OField? || d.op.OIndex?) { DestinationIs(d.x); }
  }

  lemma {:induction false} AddressedIs(n: Node)
    ensures forall base {:trigger Behind(n, base)} :: Behind(n, base) <==> Addressed(n).Through? && base == Addressed(n).base
  {
    if n.Node? && (n.op.OField? || n.op.OIndex?) { AddressedIs(n.x); }
  }

  lemma BehindIs(n: Node)
    ensures BehindSome(n) <==> Addressed(n).Through?
  {
    AddressedIs(n);
    if Addressed(n).Through? { assert Behind(n, Addressed(n).base); }
  }

  lemma RangedIs(x: Node)
    ensures Ranged(x) <==> Rangeable(x)
  {
  }

  // ----- Flows -----

  /** The flow is there, and no deeper than the way. */
  predicate AtMost(f: Flow, d: nat) { f.Derived? && f.derefs <= d }

  lemma {:induction false} BringsFlow(T: Taints, n: Node, v: Object, k: nat)
    requires Fits(T) && v in T && Brings(n, v, k)
    ensures AtMost(FlowAt(T, n), Sat(T[v] + k))
    decreases n, 3
  {
    if !IsUse(n) { BringsFlowUp(T, n, v, k); }
  }

  lemma {:induction false} BringsFlowUp(T: Taints, n: Node, v: Object, k: nat)
    requires n.Node? && !IsUse(n) && CanHold(n.typ) && Fits(T) && v in T && BringsUp(n, v, k)
    ensures AtMost(ValueAt(T, n), Sat(T[v] + k))
    decreases n, 2
  {
    if n.op.OAddr? { RefersFlow(T, n.x, v, k); }
    else if n.op.OConvert? { ConvertFlow(T, n, v, k); }
    else if IsStep(n.op) { StepFlow(T, n, v, k); }
    else if n.op.OCompositeLit? {
      var i :| 0 <= i < |n.args| && ElementBrings(n.args[i], v, k);
      ElementFlow(T, n.args, NoRef, i, v, k);
    } else { EitherFlow(T, n, v, k); }
  }

  /** The operations that pass their one operand on. */
  predicate IsStep(op: Op) {
    op.OField? || op.OLen? || op.OCap? || op.ONilCheck? || op.ODeref? || op.OIndex? || op.OSlice? || op.OTypeAssert?
  }

  lemma {:induction false} StepFlow(T: Taints, n: Node, v: Object, k: nat)
    requires n.Node? && IsStep(n.op) && CanHold(n.typ) && Fits(T) && v in T && BringsUp(n, v, k)
    ensures AtMost(ValueAt(T, n), Sat(T[v] + k))
    decreases n, 0
  {
    BringsFlow(T, n.x, v, if Loadless(n) then k else k - 1);
  }

  predicate Loadless(n: Node)
    requires n.Node?
  {
    || n.op.OField? || n.op.OLen? || n.op.OCap? || n.op.ONilCheck?
    || (n.op.OIndex? && OfKind(n.x, Array)) || (n.op.OSlice? && (OfKind(n.x, Slice) || OfKind(n.x, Str)))
    || (n.op.OTypeAssert? && PointerShaped(n.typ))
  }

  lemma {:induction false} EitherFlow(T: Taints, n: Node, v: Object, k: nat)
    requires n.Node? && CanHold(n.typ) && Fits(T) && v in T && (n.op.OUnary? || n.op.OBinary? || n.op.OCompare?)
    requires Brings(n.x, v, k) || Brings(n.y, v, k)
    ensures AtMost(ValueAt(T, n), Sat(T[v] + k))
    decreases n, 0
  {
    if Brings(n.x, v, k) { BringsFlow(T, n.x, v, k); } else { BringsFlow(T, n.y, v, k); }
  }

  lemma {:induction false} ConvertFlow(T: Taints, n: Node, v: Object, k: nat)
    requires n.Node? && n.op.OConvert? && CanHold(n.typ) && Fits(T) && v in T && BringsUp(n, v, k)
    ensures AtMost(ValueAt(T, n), Sat(T[v] + k))
    decreases n, 0
  {
    if IsWord(n.x) { WordFlow(T, n.x, v, k); }
    else if OfKind(n.x, Slice) && n.typ.kind == Array { BringsFlow(T, n.x, v, k - 1); }
    else { BringsFlow(T, n.x, v, k); }
  }

  lemma {:induction false} ElementFlow(T: Taints, elems: seq<Node>, f: Flow, i: nat, v: Object, k: nat)
    requires Fits(T) && v in T && i < |elems| && ElementBrings(elems[i], v, k)
    ensures AtMost(ElemsAt(T, elems, f), Sat(T[v] + k))
    decreases elems, i
  {
    var a := elems[0];
    var e := if Keyed(a) then a.y else a;
    if i == 0 {
      BringsFlow(T, e, v, k);
      MoreElements(T, elems[1..], f.Join(FlowAt(T, e)), Sat(T[v] + k));
    } else {
      ElementFlow(T, elems[1..], f.Join(FlowAt(T, e)), i - 1, v, k);
    }
  }

  lemma {:induction false} MoreElements(T: Taints, elems: seq<Node>, f: Flow, d: nat)
    requires AtMost(f, d)
    ensures AtMost(ElemsAt(T, elems, f), d)
  {
    if elems != [] {
      MoreElements(T, elems[1..], f.Join(FlowAt(T, if Keyed(elems[0]) then elems[0].y else elems[0])), d);
    }
  }

  lemma {:induction false} RefersFlow(T: Taints, n: Node, v: Object, k: nat)
    requires Fits(T) && v in T && RefersTo(n, v, k)
    ensures var p := Addressed(n); p.Through? && AtMost(FlowAt(T, p.base), Sat(T[v] + k))
    decreases n, 2
  {
    if n.op == ODeref || (n.op == OIndex && !OfKind(n.x, Array)) { BringsFlow(T, n.x, v, k); }
    else { RefersFlow(T, n.x, v, k); }
  }

  lemma {:induction false} WordFlow(T: Taints, n: Node, v: Object, k: nat)
    requires Fits(T) && v in T && WordBrings(n, v, k)
    ensures AtMost(WordAt(T, n), Sat(T[v] + k))
    decreases n, 2
  {
    if n.op == OConvert { BringsFlow(T, n.x, v, k); }
    else if WordBrings(n.x, v, k) { WordFlow(T, n.x, v, k); }
    else { WordFlow(T, n.y, v, k); }
  }

  /** A flow comes from a variable on a way no deeper. */
  ghost predicate Comes(T: Taints, v: Object, k: nat, f: Flow) { v in T && f.Derived? && Sat(T[v] + k) <= f.derefs }

  lemma {:induction false} FlowBrings(T: Taints, n: Node) returns (v: Object, k: nat)
    requires Fits(T) && FlowAt(T, n).Derived?
    ensures Comes(T, v, k, FlowAt(T, n)) && Brings(n, v, k)
    decreases n, 3
  {
    if IsUse(n) { v, k := n.obj, 0; } else { v, k := FlowBringsUp(T, n); }
  }

  lemma {:induction false} FlowBringsUp(T: Taints, n: Node) returns (v: Object, k: nat)
    requires n.Node? && !IsUse(n) && Fits(T) && ValueAt(T, n).Derived?
    ensures CanHold(n.typ) && Comes(T, v, k, ValueAt(T, n)) && BringsUp(n, v, k)
    decreases n, 2
  {
    if n.op.OAddr? { v, k := FlowRefers(T, n.x); }
    else if n.op.OConvert? { v, k := FlowConvert(T, n); }
    else if IsStep(n.op) { v, k := FlowStep(T, n); }
    else if n.op.OCompositeLit? {
      var i;
      i, v, k := FlowElement(T, n.args, NoRef);
    } else { v, k := FlowEither(T, n); }
  }

  lemma {:induction false} FlowStep(T: Taints, n: Node) returns (v: Object, k: nat)
    requires n.Node? && IsStep(n.op) && Fits(T) && ValueAt(T, n).Derived?
    ensures CanHold(n.typ) && Comes(T, v, k, ValueAt(T, n)) && BringsUp(n, v, k)
    decreases n, 0
  {
    v, k := FlowBrings(T, n.x);
    if !Loadless(n) { k := k + 1; }
  }

  lemma {:induction false} FlowEither(T: Taints, n: Node) returns (v: Object, k: nat)
    requires n.Node? && (n.op.OUnary? || n.op.OBinary? || n.op.OCompare?) && Fits(T) && ValueAt(T, n).Derived?
    ensures CanHold(n.typ) && Comes(T, v, k, ValueAt(T, n)) && BringsUp(n, v, k)
    decreases n, 0
  {
    var f := FlowAt(T, n.x);
    if f.Derived? && f.Join(FlowAt(T, n.y)) == f { v, k := FlowBrings(T, n.x); } else { v, k := FlowBrings(T, n.y); }
  }

  lemma {:induction false} FlowConvert(T: Taints, n: Node) returns (v: Object, k: nat)
    requires n.Node? && n.op.OConvert? && Fits(T) && ValueAt(T, n).Derived?
    ensures CanHold(n.typ) && Comes(T, v, k, ValueAt(T, n)) && BringsUp(n, v, k)
    decreases n, 0
  {
    if IsWord(n.x) { v, k := FlowWord(T, n.x); }
    else {
      v, k := FlowBrings(T, n.x);
      if OfKind(n.x, Slice) && n.typ.kind == Array { k := k + 1; }
    }
  }

  lemma {:induction false} FlowElement(T: Taints, elems: seq<Node>, f: Flow) returns (i: nat, v: Object, k: nat)
    requires Fits(T) && ElemsAt(T, elems, f).Derived? && ElemsAt(T, elems, f) != f
    ensures i < |elems| && ElementBrings(elems[i], v, k) && Comes(T, v, k, ElemsAt(T, elems, f))
    decreases elems, 0
  {
    var a := elems[0];
    var e := if Keyed(a) then a.y else a;
    var g := f.Join(FlowAt(T, e));
    if ElemsAt(T, elems[1..], g) == g {
      v, k := FlowBrings(T, e);
      i := 0;
    } else {
      i, v, k := FlowElement(T, elems[1..], g);
      i := i + 1;
    }
  }

  lemma {:induction false} FlowRefers(T: Taints, n: Node) returns (v: Object, k: nat)
    requires Fits(T) && Addressed(n).Through? && FlowAt(T, Addressed(n).base).Derived?
    ensures Comes(T, v, k, FlowAt(T, Addressed(n).base)) && RefersTo(n, v, k)
    decreases n, 2
  {
    if n.op == ODeref || (n.op == OIndex && !OfKind(n.x, Array)) { v, k := FlowBrings(T, n.x); }
    else { v, k := FlowRefers(T, n.x); }
  }

  lemma {:induction false} FlowWord(T: Taints, n: Node) returns (v: Object, k: nat)
    requires Fits(T) && WordAt(T, n).Derived?
    ensures Comes(T, v, k, WordAt(T, n)) && WordBrings(n, v, k)
    decreases n, 3
  {
    if n.op == OConvert { v, k := FlowBrings(T, n.x); }
    else {
      var f := WordAt(T, n.x);
      if f.Derived? && f.Join(WordAt(T, n.y)) == f { v, k := FlowWord(T, n.x); } else { v, k := FlowWord(T, n.y); }
    }
  }

  /** A node carries nothing of the tainted variables. */
  lemma NoFlowIs(T: Taints, n: Node)
    requires Fits(T)
    ensures FlowAt(T, n).NoRef? <==> forall v :: v in T ==> !Bears(n, v)
  {
    if FlowAt(T, n).Derived? {
      var v, k := FlowBrings(T, n);
      assert Bears(n, v);
    }
    forall v | v in T && Bears(n, v) ensures FlowAt(T, n).Derived? {
      var k :| Brings(n, v, k);
      BringsFlow(T, n, v, k);
    }
  }

  // ----- What one node asks of a taint map -----

  /** The target has the depth, or less. */
  predicate Reflects(T: Taints, b: Bound, t: Target, d: nat) {
    match t
    case Var(o) => o in T && T[o] <= d
    case Res(i) => i == b.result ==> b.depth.Some? && b.depth.value <= d
  }

  ghost predicate Reflected(rs: seq<Object>, T: Taints, b: Bound, n: Node)
    requires n.Node?
  {
    forall v, t, k {:trigger Passes(rs, n, v, t, k)} :: v in T && Passes(rs, n, v, t, k) ==> Reflects(T, b, t, Sat(T[v] + k))
  }

  /** Nothing leaves at the node, and each way through it is in `T` and `b`. */
  ghost predicate Local(rs: seq<Object>, T: Taints, b: Bound, n: Node)
    requires n.Node?
  {
    && !Broken(n)
    && (forall v {:trigger Leaves(rs, n, v)} :: v in T ==> !Leaves(rs, n, v))
    && Reflected(rs, T, b, n)
  }

  ghost predicate PartsSolve(rs: seq<Object>, T: Taints, b: Bound, n: Node)
    requires n.Node?
  {
    forall q {:trigger Part(n, q)} :: Part(n, q) ==> Solves(rs, T, b, q)
  }

  ghost predicate Splits(rs: seq<Object>, T: Taints, b: Bound, n: Node)
    requires n.Node?
  {
    Solves(rs, T, b, n) <==> PartsSolve(rs, T, b, n) && Local(rs, T, b, n)
  }

  lemma ReflectsDeeper(T: Taints, b: Bound, t: Target, d: nat, e: nat)
    requires Reflects(T, b, t, d) && d <= e
    ensures Reflects(T, b, t, e)
  {
  }

  ghost predicate FlowIn(T: Taints, b: Bound, t: Target, f: Flow) { f.Derived? ==> Reflects(T, b, t, f.derefs) }

  ghost predicate WaysIn(T: Taints, b: Bound, t: Target, n: Node) {
    forall v, k {:trigger Brings(n, v, k)} :: v in T && Brings(n, v, k) ==> Reflects(T, b, t, Sat(T[v] + k))
  }

  ghost predicate LoadsIn(T: Taints, b: Bound, t: Target, n: Node) {
    forall v, k {:trigger AfterLoad(n, v, k)} :: v in T && AfterLoad(n, v, k) ==> Reflects(T, b, t, Sat(T[v] + k))
  }

  /** What a flow to a target asks, by the ways it stands for. */
  lemma FlowReflected(T: Taints, b: Bound, n: Node, t: Target)
    requires Fits(T)
    ensures FlowIn(T, b, t, FlowAt(T, n)) <==> WaysIn(T, b, t, n)
  {
    if FlowIn(T, b, t, FlowAt(T, n)) {
      forall v, k | v in T && Brings(n, v, k) ensures Reflects(T, b, t, Sat(T[v] + k)) {
        BringsFlow(T, n, v, k);
        ReflectsDeeper(T, b, t, FlowAt(T, n).derefs, Sat(T[v] + k));
      }
    } else {
      var v, k := FlowBrings(T, n);
      if Reflects(T, b, t, Sat(T[v] + k)) { ReflectsDeeper(T, b, t, Sat(T[v] + k), FlowAt(T, n).derefs); }
      assert Brings(n, v, k);
    }
  }

  lemma LoadReflected(T: Taints, b: Bound, n: Node, t: Target)
    requires Fits(T)
    ensures FlowIn(T, b, t, FlowAt(T, n).Shift(1)) <==> LoadsIn(T, b, t, n)
  {
    var f := FlowAt(T, n).Shift(1);
    if FlowIn(T, b, t, f) {
      forall v, k | v in T && AfterLoad(n, v, k) ensures Reflects(T, b, t, Sat(T[v] + k)) {
        BringsFlow(T, n, v, k - 1);
        ReflectsDeeper(T, b, t, f.derefs, Sat(T[v] + k));
      }
    } else {
      var v, k := FlowBrings(T, n);
      if Reflects(T, b, t, Sat(T[v] + (k + 1))) { ReflectsDeeper(T, b, t, Sat(T[v] + (k + 1)), f.derefs); }
      assert AfterLoad(n, v, k + 1);
    }
  }

  // ----- Lists -----

  lemma HeadAndTail(ns: seq<Node>)
    requires ns != []
    ensures ns[0] in ns
    ensures forall q :: q in ns ==> q == ns[0] || q in ns[1..]
    ensures forall q :: q in ns[1..] ==> q in ns
  {
  }

  lemma {:induction false} AllSolve(rs: seq<Object>, T: Taints, b: Bound, ns: seq<Node>)
    ensures SolvesAll(rs, T, b, ns) <==> forall q :: q in ns ==> Solves(rs, T, b, q)
  {
    if ns != [] {
      AllSolve(rs, T, b, ns[1..]);
      HeadAndTail(ns);
    }
  }

  lemma {:induction false} CleanSolve(rs: seq<Object>, T: Taints, b: Bound, ns: seq<Node>)
    ensures SolvesClean(rs, T, b, ns) <==> forall q :: q in ns ==> Solves(rs, T, b, q) && FlowAt(T, q).NoRef?
  {
    if ns != [] {
      CleanSolve(rs, T, b, ns[1..]);
      HeadAndTail(ns);
    }
  }

  lemma {:induction false} ElemsSolve(rs: seq<Object>, T: Taints, b: Bound, ns: seq<Node>)
    ensures SolvesElems(rs, T, b, ns) <==> forall a :: a in ns ==> SolvesElem(rs, T, b, a)
  {
    if ns != [] {
      ElemsSolve(rs, T, b, ns[1..]);
      HeadAndTail(ns);
    }
  }

  lemma {:induction false} ClausesSolve(rs: seq<Object>, T: Taints, b: Bound, ns: seq<Node>, f: Flow)
    ensures SolvesClauses(rs, T, b, ns, f) <==> forall c :: c in ns ==> SolvesClause(rs, T, b, c, f)
  {
    if ns != [] {
      ClausesSolve(rs, T, b, ns[1..], f);
      HeadAndTail(ns);
    }
  }

  lemma {:induction false} RangeSolve(rs: seq<Object>, T: Taints, b: Bound, ns: seq<Node>, f: Flow)
    ensures AcceptsRange(rs, T, b, ns, f) <==> forall d :: d in ns ==> AcceptsRangeOne(rs, T, b, d, f)
  {
    if ns != [] {
      RangeSolve(rs, T, b, ns[1..], f);
      HeadAndTail(ns);
    }
  }

  lemma {:induction false} AllAccept(rs: seq<Object>, T: Taints, b: Bound, ns: seq<Node>, f: Flow)
    ensures AcceptsAll(rs, T, b, ns, f) <==> forall d :: d in ns ==> Accepts(rs, T, b, d, f)
  {
    if ns != [] {
      AllAccept(rs, T, b, ns[1..], f);
      HeadAndTail(ns);
    }
  }

  /** One result of a return. */
  predicate ResultSolves(rs: seq<Object>, T: Taints, b: Bound, args: seq<Node>, i: nat, j: nat)
    requires j < |args| && i + j < |rs|
  {
    Solves(rs, T, b, args[j]) && Recorded(b, i + j, ReturnedFlow(rs, i + j, FlowAt(T, args[j])))
  }

  ghost predicate AllResultsSolve(rs: seq<Object>, T: Taints, b: Bound, args: seq<Node>, i: nat)
    requires i + |args| <= |rs|
  {
    forall j :: 0 <= j < |args| ==> ResultSolves(rs, T, b, args, i, j)
  }

  lemma {:induction false} ResultsSolve(rs: seq<Object>, T: Taints, b: Bound, args: seq<Node>, i: nat)
    requires i + |args| <= |rs|
    ensures SolvesResults(rs, T, b, args, i) <==> AllResultsSolve(rs, T, b, args, i)
    decreases args
  {
    if args != [] {
      var rest, next := args[1..], i + 1;
      ResultsSolve(rs, T, b, rest, next);
      if SolvesResults(rs, T, b, args, i) {
        forall j | 0 <= j < |args| ensures ResultSolves(rs, T, b, args, i, j) {
          if j > 0 { assert ResultSolves(rs, T, b, rest, next, j - 1); }
        }
      }
      if AllResultsSolve(rs, T, b, args, i) {
        assert ResultSolves(rs, T, b, args, i, 0);
        forall j | 0 <= j < |rest| ensures ResultSolves(rs, T, b, rest, next, j) {
          assert ResultSolves(rs, T, b, args, i, j + 1);
        }
      }
    }
  }

  ghost predicate WordPartsSolve(rs: seq<Object>, T: Taints, b: Bound, n: Node) {
    forall q {:trigger WordPart(n, q)} :: WordPart(n, q) ==> Solves(rs, T, b, q)
  }

  lemma {:induction false} WordSolves(rs: seq<Object>, T: Taints, b: Bound, n: Node)
    ensures SolvesWord(rs, T, b, n) <==> WordPartsSolve(rs, T, b, n)
  {
    if n.Node? {
      AllSolve(rs, T, b, n.init);
      if n.op.OUnary? || n.op.OBinary? {
        WordSolves(rs, T, b, n.x);
        WordSolves(rs, T, b, n.y);
      }
      if SolvesWord(rs, T, b, n) {
        assert SolvesVisit(rs, T, b, n);
        if n.op.OUnary? || n.op.OBinary? {
          assert SolvesWord(rs, T, b, n.x) && SolvesWord(rs, T, b, n.y);
        }
        assert WordPartsSolve(rs, T, b, n);
      }
      if WordPartsSolve(rs, T, b, n) {
        forall q | q in n.init && (n.op.OConvert? || n.op.OUnary? || n.op.OBinary?) ensures Solves(rs, T, b, q) {
          assert WordPart(n, q);
        }
        if n.op.OConvert? {
          assert WordPart(n, n.x);
        } else if n.op.OUnary? || n.op.OBinary? {
          forall q | WordPart(n.x, q) || WordPart(n.y, q) ensures Solves(rs, T, b, q) { assert WordPart(n, q); }
        } else {
          assert WordPart(n, n);
          assert Solves(rs, T, b, n);
        }
      }
    }
  }

  ghost predicate IndexesIn(rs: seq<Object>, T: Taints, b: Bound, d: Node) {
    forall q {:trigger IndexIn(d, q)} :: IndexIn(d, q) ==> Solves(rs, T, b, q)
  }

  lemma {:induction false} IndexesSolve(rs: seq<Object>, T: Taints, b: Bound, d: Node)
    ensures SolvesIndexes(rs, T, b, d) <==> IndexesIn(rs, T, b, d)
  {
    if d.Node? && (d.op.OField? || d.op.OIndex?) {
      IndexesSolve(rs, T, b, d.x);
      if SolvesIndexes(rs, T, b, d) {
        forall q | IndexIn(d, q) ensures Solves(rs, T, b, q) {
          if !(d.op.OIndex? && q == d.y) { assert IndexIn(d.x, q); }
        }
      }
      if IndexesIn(rs, T, b, d) {
        forall q | IndexIn(d.x, q) ensures Solves(rs, T, b, q) { assert IndexIn(d, q); }
        if d.op.OIndex? { assert IndexIn(d, d.y); }
      }
    }
  }

  lemma ElementSolves(rs: seq<Object>, T: Taints, b: Bound, a: Node)
    ensures SolvesElem(rs, T, b, a) <==> forall q :: ElementPart(a, q) ==> Solves(rs, T, b, q)
  {
    if Keyed(a) {
      AllSolve(rs, T, b, a.init);
      assert ElementPart(a, a.x) && ElementPart(a, a.y);
    } else {
      assert ElementPart(a, a);
    }
  }
}

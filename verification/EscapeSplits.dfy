/** A tree solves the flow constraints exactly when each node that it evaluates
    does so by itself. */
module EscapeSplits {
  import opened IR
  import opened Leaks
  import opened Wrappers
  import opened EscapeWalk
  import opened EscapeConstraints
  import opened EscapeRun
  import opened EscapePaths
  import opened EscapeWays
  import opened EscapeLocal

  // ----- One node -----

  /** Operations through which nothing passes to a variable and nothing leaves. */
  predicate IsPlain(op: Op) {
    || op.OConst? || op.OLocal? || op.OGlobal? || op.OField? || op.OIndex? || op.ODeref? || op.OUnary? || op.OBinary?
    || op.OCompare? || op.OIf? || op.OFor? || op.OSwitch? || op.OBlock? || op.OGoto? || op.OLabel? || op.OBreak?
    || op.OContinue? || op.OTypeAssert? || op.OLen? || op.OCap? || op.OSlice? || op.ODeclare? || op.ONilCheck? || op.OCase?
  }

  lemma PlainSplits(rs: seq<Object>, T: Taints, b: Bound, n: Node)
    requires n.Node? && IsPlain(n.op)
    ensures Splits(rs, T, b, n)
  {
    PlainIsLocal(rs, T, b, n);
    PlainParts(rs, T, b, n);
  }

  lemma PlainIsLocal(rs: seq<Object>, T: Taints, b: Bound, n: Node)
    requires n.Node? && IsPlain(n.op)
    ensures Local(rs, T, b, n)
  {
  }

  predicate IsBlock(op: Op) { op.OIf? || op.OFor? || op.OSwitch? || op.OBlock? || op.OLabel? || op.OCase? }

  lemma PlainParts(rs: seq<Object>, T: Taints, b: Bound, n: Node)
    requires n.Node? && IsPlain(n.op)
    ensures Solves(rs, T, b, n) <==> PartsSolve(rs, T, b, n)
  {
    if n.op.OIf? || n.op.OFor? { BranchParts(rs, T, b, n); }
    else if IsBlock(n.op) { BlockParts(rs, T, b, n); } else { ValueParts(rs, T, b, n); }
  }

  lemma BranchParts(rs: seq<Object>, T: Taints, b: Bound, n: Node)
    requires n.Node? && (n.op.OIf? || n.op.OFor?)
    ensures Solves(rs, T, b, n) <==> PartsSolve(rs, T, b, n)
  {
    var last := if n.op.OIf? then n.els else n.post;
    AllSolve(rs, T, b, n.init);
    AllSolve(rs, T, b, n.body);
    AllSolve(rs, T, b, last);
    assert Solves(rs, T, b, n)
        <==> SolvesAll(rs, T, b, n.init) && Solves(rs, T, b, n.x) && SolvesAll(rs, T, b, n.body) && SolvesAll(rs, T, b, last);
    if PartsSolve(rs, T, b, n) {
      forall q | q in n.init || q in n.body || q in last || q == n.x ensures Solves(rs, T, b, q) { assert Part(n, q); }
    }
  }

  lemma BlockParts(rs: seq<Object>, T: Taints, b: Bound, n: Node)
    requires n.Node? && IsBlock(n.op) && !n.op.OIf? && !n.op.OFor?
    ensures Solves(rs, T, b, n) <==> PartsSolve(rs, T, b, n)
  {
    AllSolve(rs, T, b, n.init);
    AllSolve(rs, T, b, n.args);
    AllSolve(rs, T, b, n.body);
    if PartsSolve(rs, T, b, n) {
      forall q | q in n.init || q in n.body ensures Solves(rs, T, b, q) { assert Part(n, q); }
      forall q | q in n.args && n.op.OCase? ensures Solves(rs, T, b, q) { assert Part(n, q); }
      assert Part(n, n.x) ==> Solves(rs, T, b, n.x);
    }
  }

  lemma ValueParts(rs: seq<Object>, T: Taints, b: Bound, n: Node)
    requires n.Node? && IsPlain(n.op) && !IsBlock(n.op)
    ensures Solves(rs, T, b, n) <==> PartsSolve(rs, T, b, n)
  {
    AllSolve(rs, T, b, n.init);
    AllSolve(rs, T, b, n.args);
    if PartsSolve(rs, T, b, n) {
      forall q | q in n.init ensures Solves(rs, T, b, q) { assert Part(n, q); }
      forall q | q in n.args && (n.op.OIndex? || n.op.OSlice?) ensures Solves(rs, T, b, q) { assert Part(n, q); }
      assert Part(n, n.x) ==> Solves(rs, T, b, n.x);
      assert Part(n, n.y) ==> Solves(rs, T, b, n.y);
    }
  }

  lemma AddrSplits(rs: seq<Object>, T: Taints, b: Bound, n: Node)
    requires n.Node? && n.op.OAddr? && Fits(T)
    ensures Splits(rs, T, b, n)
  {
    AllSolve(rs, T, b, n.init);
    AddressedIs(n.x);
    BehindIs(n.x);
    AvoidsIs(T, n.x);
    assert Solves(rs, T, b, n) <==> SolvesAll(rs, T, b, n.init) && SolvesAddr(rs, T, b, n);
    assert Local(rs, T, b, n) <==> (BehindSome(n.x) || Avoids(T, n.x)) by {
      if Local(rs, T, b, n) { assert forall v :: v in T ==> !Leaves(rs, n, v); }
    }
    if PartsSolve(rs, T, b, n) {
      forall q | q in n.init ensures Solves(rs, T, b, q) { assert Part(n, q); }
      assert Part(n, n.x);
      if Addressed(n.x).Through? { assert Part(n, Addressed(n.x).base); }
    }
  }

  lemma ConvertSplits(rs: seq<Object>, T: Taints, b: Bound, n: Node)
    requires n.Node? && n.op.OConvert? && Fits(T)
    ensures Splits(rs, T, b, n)
  {
    AllSolve(rs, T, b, n.init);
    WordSolves(rs, T, b, n.x);
    AvoidsIs(T, n.x);
    NoFlowIs(T, n.x);
    assert Solves(rs, T, b, n) <==> SolvesAll(rs, T, b, n.init) && SolvesConvert(rs, T, b, n);
    if Local(rs, T, b, n) { assert forall v :: v in T ==> !Leaves(rs, n, v); }
    if PartsSolve(rs, T, b, n) {
      forall q | q in n.init ensures Solves(rs, T, b, q) { assert Part(n, q); }
      if n.typ.Type? && !(n.typ.kind != Interface && n.typ.pointers && IsWord(n.x)) { assert Part(n, n.x); }
      if n.typ.Type? && n.typ.kind != Interface && n.typ.pointers && IsWord(n.x) {
        forall q | WordPart(n.x, q) ensures Solves(rs, T, b, q) { assert Part(n, q); }
      }
    }
  }

  lemma {:induction false} BringsNames(n: Node, v: Object, k: nat)
    requires Brings(n, v, k)
    ensures v in Objects(n)
    decreases n, 1
  {
    if !IsUse(n) { BringsNamesUp(n, v, k); }
  }

  lemma {:induction false} BringsNamesUp(n: Node, v: Object, k: nat)
    requires n.Node? && !IsUse(n) && BringsUp(n, v, k)
    ensures v in Objects(n)
    decreases n, 0
  {
    if n.op.OAddr? { RefersNames(n.x, v, k); }
    else if n.op.OConvert? && IsWord(n.x) { WordNames(n.x, v, k); }
    else if n.op.OCompositeLit? {
      var i :| 0 <= i < |n.args| && ElementBrings(n.args[i], v, k);
      ObjectsOf(n.args, n.args[i]);
      if Keyed(n.args[i]) { BringsNames(n.args[i].y, v, k); } else { BringsNames(n.args[i], v, k); }
    } else if Brings(n.x, v, k) { BringsNames(n.x, v, k); }
    else if AfterLoad(n.x, v, k) { BringsNames(n.x, v, k - 1); }
    else { BringsNames(n.y, v, k); }
  }

  lemma {:induction false} RefersNames(n: Node, v: Object, k: nat)
    requires RefersTo(n, v, k)
    ensures v in Objects(n)
    decreases n, 2
  {
    if n.op.ODeref? || (n.op.OIndex? && !OfKind(n.x, Array)) { BringsNames(n.x, v, k); } else { RefersNames(n.x, v, k); }
  }

  lemma {:induction false} WordNames(n: Node, v: Object, k: nat)
    requires WordBrings(n, v, k)
    ensures v in Objects(n)
    decreases n, 2
  {
    if n.op.OConvert? { BringsNames(n.x, v, k); }
    else if WordBrings(n.x, v, k) { WordNames(n.x, v, k); } else { WordNames(n.y, v, k); }
  }

  lemma LiteralSplits(rs: seq<Object>, T: Taints, b: Bound, n: Node)
    requires n.Node? && n.op.OCompositeLit? && Fits(T)
    ensures Splits(rs, T, b, n)
  {
    AllSolve(rs, T, b, n.init);
    ElemsSolve(rs, T, b, n.args);
    AvoidsIs(T, n);
    forall a | a in n.args ensures SolvesElem(rs, T, b, a) <==> forall q :: ElementPart(a, q) ==> Solves(rs, T, b, q) {
      ElementSolves(rs, T, b, a);
    }
    if Avoids(T, n) && ElemsAt(T, n.args, NoRef).Derived? {
      var i, v, k := FlowElement(T, n.args, NoRef);
      var e := if Keyed(n.args[i]) then n.args[i].y else n.args[i];
      BringsNames(e, v, k);
      ObjectsOf(n.args, n.args[i]);
    }
    if Local(rs, T, b, n) { assert forall v :: v in T ==> !Leaves(rs, n, v); }
    if PartsSolve(rs, T, b, n) {
      forall q | q in n.init ensures Solves(rs, T, b, q) { assert Part(n, q); }
      forall a | a in n.args ensures SolvesElem(rs, T, b, a) {
        forall q | ElementPart(a, q) ensures Solves(rs, T, b, q) { assert Part(n, q); }
      }
    }
  }

  lemma CallSplits(rs: seq<Object>, T: Taints, b: Bound, n: Node)
    requires n.Node? && n.op.OCall? && Fits(T)
    ensures Splits(rs, T, b, n)
  {
    AllSolve(rs, T, b, n.init);
    CleanSolve(rs, T, b, n.args);
    NoFlowIs(T, n.x);
    forall a | a in n.args ensures FlowAt(T, a).NoRef? <==> forall v :: v in T ==> !Bears(a, v) { NoFlowIs(T, a); }
    if Local(rs, T, b, n) { assert forall v :: v in T ==> !Leaves(rs, n, v); }
    if PartsSolve(rs, T, b, n) {
      forall q | q in n.init || q in n.args || q == n.x ensures Solves(rs, T, b, q) { assert Part(n, q); }
    }
  }

  lemma OtherSplits(rs: seq<Object>, T: Taints, b: Bound, n: Node)
    requires n.Node? && n.op.OOther?
    ensures Splits(rs, T, b, n)
  {
    AllSolve(rs, T, b, n.init);
    AvoidsIs(T, n);
    if Local(rs, T, b, n) { assert forall v :: v in T ==> !Leaves(rs, n, v); }
    if PartsSolve(rs, T, b, n) {
      forall q | q in n.init ensures Solves(rs, T, b, q) { assert Part(n, q); }
    }
  }

  // ----- Destinations -----

  /** What one destination asks, when the flow `f` is stored there. */
  ghost predicate Takes(rs: seq<Object>, T: Taints, b: Bound, d: Node, f: Flow) {
    && d.Node? && !PartOf(d, NoObject)
    && (forall q {:trigger DestinationPart(d, q)} :: DestinationPart(d, q) ==> Solves(rs, T, b, q))
    && if InVariable(d) then forall o {:trigger PartOf(d, o)} :: PartOf(d, o) && CanHoldAt(d) ==> Keeps(T, o, f)
       else (CanHoldAt(d) ==> f.NoRef?) && forall v :: v in T ==> v !in Objects(d)
  }

  predicate Keeps(T: Taints, o: Object, f: Flow) {
    f.Derived? ==> o.Object? && o.cls != ClassGlobal && o in T && T[o] <= f.derefs
  }

  lemma DestinationTakes(rs: seq<Object>, T: Taints, b: Bound, d: Node, f: Flow)
    ensures Accepts(rs, T, b, d, f) <==> Takes(rs, T, b, d, f)
  {
    DestinationIs(d);
    if d.Node? {
      AvoidsIs(T, d);
      IndexesSolve(rs, T, b, d);
      var (root, direct) := Destination(d);
      assert Accepts(rs, T, b, d, f) <==> AcceptsInto(rs, T, b, d, f.Carries(d.typ));
      if direct {
        assert PartOf(d, root);
        if Takes(rs, T, b, d, f) {
          forall q | IndexIn(d, q) ensures Solves(rs, T, b, q) { assert DestinationPart(d, q); }
        }
      }
    }
  }

  /** Nothing tainted leaves at the destination, and it names a variable. */
  ghost predicate Holds(rs: seq<Object>, T: Taints, b: Bound, d: Node, x: Node) {
    && d.Node? && !PartOf(d, NoObject)
    && (forall q {:trigger DestinationPart(d, q)} :: DestinationPart(d, q) ==> Solves(rs, T, b, q))
    && forall v {:trigger LeavesAt(d, x, v)} :: v in T ==> !LeavesAt(d, x, v)
  }

  /** The flow of `x`, as it is or after a load. */
  function FlowOf(T: Taints, x: Node, load: bool): Flow { if load then FlowAt(T, x).Shift(1) else FlowAt(T, x) }

  predicate WayOf(x: Node, load: bool, v: Object, k: nat) { if load then AfterLoad(x, v, k) else Brings(x, v, k) }

  ghost predicate GivesAll(T: Taints, b: Bound, d: Node, x: Node, load: bool) {
    forall o, v, k {:trigger Gives(d, o), WayOf(x, load, v, k)} ::
      v in T && Gives(d, o) && WayOf(x, load, v, k) ==> Reflects(T, b, Var(o), Sat(T[v] + k))
  }

  lemma WaysReflected(T: Taints, b: Bound, x: Node, load: bool, t: Target)
    requires Fits(T)
    ensures FlowIn(T, b, t, FlowOf(T, x, load))
            <==> forall v, k {:trigger WayOf(x, load, v, k)} :: v in T && WayOf(x, load, v, k) ==> Reflects(T, b, t, Sat(T[v] + k))
  {
    FlowReflected(T, b, x, t);
    LoadReflected(T, b, x, t);
    if load {
      assert forall v, k :: WayOf(x, load, v, k) <==> AfterLoad(x, v, k);
    } else {
      assert forall v, k :: WayOf(x, load, v, k) <==> Brings(x, v, k);
    }
  }

  /** What a destination asks, by the ways to it. */
  lemma DestinationSplits(rs: seq<Object>, T: Taints, b: Bound, d: Node, x: Node, load: bool)
    requires Fits(T)
    ensures Accepts(rs, T, b, d, FlowOf(T, x, load)) <==> Holds(rs, T, b, d, x) && GivesAll(T, b, d, x, load)
  {
    var f := FlowOf(T, x, load);
    DestinationTakes(rs, T, b, d, f);
    DestinationIs(d);
    NoFlowIs(T, x);
    if d.Node? && InVariable(d) {
      var o := Destination(d).0;
      assert PartOf(d, o);
      WaysReflected(T, b, x, load, Var(o));
      if Takes(rs, T, b, d, f) {
        forall v | v in T ensures !LeavesAt(d, x, v) { }
        forall o', v, k | v in T && Gives(d, o') && WayOf(x, load, v, k) ensures Reflects(T, b, Var(o'), Sat(T[v] + k)) {
          assert FlowIn(T, b, Var(o), f);
        }
      }
      if Holds(rs, T, b, d, x) && GivesAll(T, b, d, x, load) && CanHoldAt(d) && f.Derived? {
        var v :| v in T && Bears(x, v);
        assert !LeavesAt(d, x, v);
        assert Gives(d, o);
      }
    } else if d.Node? && Holds(rs, T, b, d, x) {
      forall v | v in T ensures v !in Objects(d) { assert !LeavesAt(d, x, v); }
      if CanHoldAt(d) && f.Derived? { BearingLeaves(T, d, x); }
    }
  }

  lemma BearingLeaves(T: Taints, d: Node, x: Node)
    requires Fits(T) && CanHoldAt(d) && !InVariable(d) && FlowAt(T, x).Derived?
    ensures exists v {:trigger LeavesAt(d, x, v)} :: v in T && LeavesAt(d, x, v)
  {
    NoFlowIs(T, x);
    var v :| v in T && Bears(x, v);
    assert LeavesAt(d, x, v);
  }

  // ----- Statements that store -----

  lemma AssignSolves(rs: seq<Object>, T: Taints, b: Bound, n: Node)
    requires n.Node? && n.op.OAssign?
    ensures Solves(rs, T, b, n) <==>
              && (forall q :: q in n.init ==> Solves(rs, T, b, q)) && Solves(rs, T, b, n.y)
              && (FlowAt(T, n.y).Derived? ==> exists d :: IsDestination(n, d))
              && forall d :: IsDestination(n, d) ==> Accepts(rs, T, b, d, FlowAt(T, n.y))
  {
    var f := FlowAt(T, n.y);
    AllSolve(rs, T, b, n.init);
    AllAccept(rs, T, b, n.args, f);
    assert Solves(rs, T, b, n) <==> SolvesAll(rs, T, b, n.init) && SolvesAssign(rs, T, b, n);
    if n.x.Node? { assert IsDestination(n, n.x); }
    if n.args != [] { assert IsDestination(n, n.args[0]); }
  }

  lemma AssignSplits(rs: seq<Object>, T: Taints, b: Bound, n: Node)
    requires n.Node? && n.op.OAssign? && Fits(T)
    ensures Splits(rs, T, b, n)
  {
    AssignSolves(rs, T, b, n);
    NoFlowIs(T, n.y);
    forall d | IsDestination(n, d)
      ensures Accepts(rs, T, b, d, FlowAt(T, n.y)) <==> Holds(rs, T, b, d, n.y) && GivesAll(T, b, d, n.y, false) {
      DestinationSplits(rs, T, b, d, n.y, false);
    }
    if Solves(rs, T, b, n) { AssignIsLocal(rs, T, b, n); }
    if PartsSolve(rs, T, b, n) && Local(rs, T, b, n) { LocalAssigns(rs, T, b, n); }
  }

  ghost predicate AllHold(rs: seq<Object>, T: Taints, b: Bound, n: Node)
    requires n.Node?
  {
    forall d {:trigger IsDestination(n, d)} :: IsDestination(n, d) ==> Holds(rs, T, b, d, n.y) && GivesAll(T, b, d, n.y, false)
  }

  lemma AssignIsLocal(rs: seq<Object>, T: Taints, b: Bound, n: Node)
    requires n.Node? && n.op.OAssign? && (forall q :: q in n.init ==> Solves(rs, T, b, q)) && Solves(rs, T, b, n.y)
    requires AllHold(rs, T, b, n) && ((forall v :: v in T ==> !Bears(n.y, v)) || exists d :: IsDestination(n, d))
    ensures PartsSolve(rs, T, b, n) && Local(rs, T, b, n)
  {
    forall q | Part(n, q) ensures Solves(rs, T, b, q) {
      if q !in n.init && q != n.y {
        var d :| IsDestination(n, d) && DestinationPart(d, q);
      }
    }
    forall v | v in T ensures !Leaves(rs, n, v) {
      forall d | IsDestination(n, d) ensures !LeavesAt(d, n.y, v) { assert Holds(rs, T, b, d, n.y); }
    }
    forall v, t, k | v in T && Passes(rs, n, v, t, k) ensures Reflects(T, b, t, Sat(T[v] + k)) {
      var d :| IsDestination(n, d) && Gives(d, t.o);
      assert GivesAll(T, b, d, n.y, false) && WayOf(n.y, false, v, k);
    }
  }

  lemma LocalAssigns(rs: seq<Object>, T: Taints, b: Bound, n: Node)
    requires n.Node? && n.op.OAssign? && PartsSolve(rs, T, b, n) && Local(rs, T, b, n)
    ensures (forall q :: q in n.init ==> Solves(rs, T, b, q)) && Solves(rs, T, b, n.y) && AllHold(rs, T, b, n)
    ensures (forall v :: v in T ==> !Bears(n.y, v)) || exists d :: IsDestination(n, d)
  {
    forall q | q in n.init || q == n.y ensures Solves(rs, T, b, q) { assert Part(n, q); }
    forall d | IsDestination(n, d) ensures Holds(rs, T, b, d, n.y) && GivesAll(T, b, d, n.y, false) {
      forall q | DestinationPart(d, q) ensures Solves(rs, T, b, q) { assert Part(n, q); }
      forall v | v in T ensures !LeavesAt(d, n.y, v) { assert !Leaves(rs, n, v); }
      forall o, v, k | v in T && Gives(d, o) && WayOf(n.y, false, v, k) ensures Reflects(T, b, Var(o), Sat(T[v] + k)) {
        assert Passes(rs, n, v, Var(o), k);
      }
    }
    if forall d :: !IsDestination(n, d) {
      forall v | v in T ensures !Bears(n.y, v) { assert !Leaves(rs, n, v); }
    }
  }

  lemma ReturnSplits(rs: seq<Object>, T: Taints, b: Bound, n: Node)
    requires n.Node? && n.op.OReturn? && Fits(T)
    ensures Splits(rs, T, b, n)
  {
    AllSolve(rs, T, b, n.init);
    if |n.args| == |rs| { ResultsSplit(rs, T, b, n); } else {
      CleanSolve(rs, T, b, n.args);
      forall a | a in n.args ensures FlowAt(T, a).NoRef? <==> forall v :: v in T ==> !Bears(a, v) { NoFlowIs(T, a); }
      if Local(rs, T, b, n) { assert forall v :: v in T ==> !Leaves(rs, n, v); }
      if PartsSolve(rs, T, b, n) {
        forall q | q in n.init || q in n.args ensures Solves(rs, T, b, q) { assert Part(n, q); }
      }
    }
  }

  /** What a returned value asks. */
  ghost predicate Returns(rs: seq<Object>, T: Taints, b: Bound, n: Node, i: nat)
    requires n.Node? && |n.args| == |rs| && i < |rs|
  {
    (rs[i].Object? ==> CanHold(rs[i].typ)) ==>
      && (i >= NAMED_RESULTS ==> forall v :: v in T ==> !Bears(n.args[i], v))
      && WaysIn(T, b, Res(i), n.args[i])
  }

  lemma ReturnedIs(rs: seq<Object>, T: Taints, b: Bound, n: Node, i: nat)
    requires n.Node? && |n.args| == |rs| && i < |rs| && Fits(T)
    ensures Recorded(b, i, ReturnedFlow(rs, i, FlowAt(T, n.args[i]))) <==> Returns(rs, T, b, n, i)
  {
    NoFlowIs(T, n.args[i]);
    FlowReflected(T, b, n.args[i], Res(i));
  }

  lemma ResultsSplit(rs: seq<Object>, T: Taints, b: Bound, n: Node)
    requires n.Node? && n.op.OReturn? && |n.args| == |rs| && Fits(T)
    ensures Splits(rs, T, b, n)
  {
    AllSolve(rs, T, b, n.init);
    ResultsSolve(rs, T, b, n.args, 0);
    forall i | 0 <= i < |rs| ensures ResultSolves(rs, T, b, n.args, 0, i) <==> Solves(rs, T, b, n.args[i]) && Returns(rs, T, b, n, i) {
      ReturnedIs(rs, T, b, n, i);
    }
    assert Solves(rs, T, b, n) <==> SolvesAll(rs, T, b, n.init) && AllResultsSolve(rs, T, b, n.args, 0);
    if Solves(rs, T, b, n) {
      forall i | 0 <= i < |rs| ensures Solves(rs, T, b, n.args[i]) && Returns(rs, T, b, n, i) {
        assert ResultSolves(rs, T, b, n.args, 0, i);
      }
      ResultsAreLocal(rs, T, b, n);
    }
    if PartsSolve(rs, T, b, n) && Local(rs, T, b, n) {
      forall q | q in n.init ensures Solves(rs, T, b, q) { assert Part(n, q); }
      forall i | 0 <= i < |rs| ensures ResultSolves(rs, T, b, n.args, 0, i) {
        assert Part(n, n.args[i]);
        LocalReturns(rs, T, b, n, i);
      }
    }
  }

  lemma ResultsAreLocal(rs: seq<Object>, T: Taints, b: Bound, n: Node)
    requires n.Node? && n.op.OReturn? && |n.args| == |rs| && forall q :: q in n.init ==> Solves(rs, T, b, q)
    requires forall i :: 0 <= i < |rs| ==> Solves(rs, T, b, n.args[i]) && Returns(rs, T, b, n, i)
    ensures PartsSolve(rs, T, b, n) && Local(rs, T, b, n)
  {
    forall v | v in T ensures !Leaves(rs, n, v) {
      forall i | NAMED_RESULTS <= i < |rs| && (rs[i].Object? ==> CanHold(rs[i].typ)) ensures !Bears(n.args[i], v) {
        assert Returns(rs, T, b, n, i);
      }
    }
    forall v, t, k | v in T && Passes(rs, n, v, t, k) ensures Reflects(T, b, t, Sat(T[v] + k)) {
      assert Returns(rs, T, b, n, t.i);
    }
  }

  lemma LocalReturns(rs: seq<Object>, T: Taints, b: Bound, n: Node, i: nat)
    requires n.Node? && n.op.OReturn? && |n.args| == |rs| && i < |rs| && Local(rs, T, b, n)
    ensures Returns(rs, T, b, n, i)
  {
    if rs[i].Object? ==> CanHold(rs[i].typ) {
      if i >= NAMED_RESULTS {
        forall v | v in T ensures !Bears(n.args[i], v) { assert !Leaves(rs, n, v); }
      }
      forall v, k | v in T && Brings(n.args[i], v, k) ensures Reflects(T, b, Res(i), Sat(T[v] + k)) {
        assert Passes(rs, n, v, Res(i), k);
      }
    }
  }

  // ----- Range clauses -----

  /** What a destination of a range clause asks. */
  ghost predicate RangeHolds(rs: seq<Object>, T: Taints, b: Bound, n: Node, d: Node)
    requires n.Node?
  {
    d.Node? ==>
      && (forall q :: q in d.init ==> Solves(rs, T, b, q))
      && Holds(rs, T, b, d, n.x) && GivesAll(T, b, d, n.x, true)
  }

  lemma RangeOneSplits(rs: seq<Object>, T: Taints, b: Bound, n: Node, d: Node)
    requires n.Node? && Fits(T)
    ensures AcceptsRangeOne(rs, T, b, d, FlowAt(T, n.x).Shift(1)) <==> RangeHolds(rs, T, b, n, d)
  {
    if d.Node? {
      AllSolve(rs, T, b, d.init);
      DestinationSplits(rs, T, b, d, n.x, true);
    }
  }

  lemma RangeSplits(rs: seq<Object>, T: Taints, b: Bound, n: Node)
    requires n.Node? && n.op.ORange? && Fits(T)
    ensures Splits(rs, T, b, n)
  {
    var f := FlowAt(T, n.x).Shift(1);
    AllSolve(rs, T, b, n.init);
    RangedIs(n.x);
    assert Solves(rs, T, b, n) <==> SolvesAll(rs, T, b, n.init) && SolvesRange(rs, T, b, n);
    if Ranged(n.x) {
      AllSolve(rs, T, b, n.body);
      RangeSolve(rs, T, b, n.args, f);
      forall d | d in n.args ensures AcceptsRangeOne(rs, T, b, d, f) <==> RangeHolds(rs, T, b, n, d) {
        RangeOneSplits(rs, T, b, n, d);
      }
      if Solves(rs, T, b, n) { RangeIsLocal(rs, T, b, n); }
      if PartsSolve(rs, T, b, n) && Local(rs, T, b, n) { LocalRanges(rs, T, b, n); }
    } else { UnrangedSplits(rs, T, b, n); }
  }

  lemma UnrangedSplits(rs: seq<Object>, T: Taints, b: Bound, n: Node)
    requires n.Node? && n.op.ORange? && !Ranged(n.x)
    ensures Splits(rs, T, b, n)
  {
    AllSolve(rs, T, b, n.init);
    RangedIs(n.x);
    AvoidsIs(T, n);
    assert Solves(rs, T, b, n) <==> SolvesAll(rs, T, b, n.init) && SolvesRange(rs, T, b, n);
    assert SolvesRange(rs, T, b, n) <==> Solves(rs, T, b, n.x) && Avoids(T, n);
    assert forall v :: Leaves(rs, n, v) <==> v in Objects(n);
    assert Reflected(rs, T, b, n) && !Broken(n);
    if PartsSolve(rs, T, b, n) {
      forall q | q in n.init || q == n.x ensures Solves(rs, T, b, q) { assert Part(n, q); }
    }
  }

  lemma RangeIsLocal(rs: seq<Object>, T: Taints, b: Bound, n: Node)
    requires n.Node? && n.op.ORange? && Ranged(n.x) && Solves(rs, T, b, n.x)
    requires forall q :: q in n.init || q in n.body ==> Solves(rs, T, b, q)
    requires forall d :: d in n.args ==> RangeHolds(rs, T, b, n, d)
    ensures PartsSolve(rs, T, b, n) && Local(rs, T, b, n)
  {
    forall q | Part(n, q) ensures Solves(rs, T, b, q) {
      if q !in n.init && q != n.x && q !in n.body {
        var d :| d in n.args && d.Node? && (q in d.init || DestinationPart(d, q));
        assert RangeHolds(rs, T, b, n, d);
      }
    }
    forall v | v in T ensures !Leaves(rs, n, v) {
      forall d | d in n.args ensures !LeavesAt(d, n.x, v) { assert RangeHolds(rs, T, b, n, d); }
    }
    forall v, t, k | v in T && Passes(rs, n, v, t, k) ensures Reflects(T, b, t, Sat(T[v] + k)) {
      var d :| d in n.args && Gives(d, t.o);
      assert RangeHolds(rs, T, b, n, d) && WayOf(n.x, true, v, k);
    }
  }

  lemma LocalRanges(rs: seq<Object>, T: Taints, b: Bound, n: Node)
    requires n.Node? && n.op.ORange? && Ranged(n.x) && PartsSolve(rs, T, b, n) && Local(rs, T, b, n)
    ensures Solves(rs, T, b, n.x) && forall q :: q in n.init || q in n.body ==> Solves(rs, T, b, q)
    ensures forall d :: d in n.args ==> RangeHolds(rs, T, b, n, d)
  {
    forall q | q in n.init || q in n.body || q == n.x ensures Solves(rs, T, b, q) { assert Part(n, q); }
    forall d | d in n.args ensures RangeHolds(rs, T, b, n, d) {
      if d.Node? {
        forall q | q in d.init ensures Solves(rs, T, b, q) { assert Part(n, q); }
        forall q | DestinationPart(d, q) ensures Solves(rs, T, b, q) { assert Part(n, q); }
        forall v | v in T ensures !LeavesAt(d, n.x, v) { assert !Leaves(rs, n, v); }
        forall o, v, k | v in T && Gives(d, o) && WayOf(n.x, true, v, k) ensures Reflects(T, b, Var(o), Sat(T[v] + k)) {
          assert Passes(rs, n, v, Var(o), k);
        }
      }
    }
  }

  // ----- Type switches -----

  /** What a clause of a type switch asks. */
  ghost predicate ClauseHolds(rs: seq<Object>, T: Taints, b: Bound, n: Node, c: Node)
    requires n.Node?
  {
    c.Node? ==>
      if c.op.OCase? then
        && (forall q {:trigger ClausePart(c, q)} :: ClausePart(c, q) ==> Solves(rs, T, b, q))
        && BindsAll(T, b, n, c)
      else forall v :: v in T ==> v !in Objects(c)
  }

  /** An interface keeps a value of the variable's type elsewhere. */
  predicate InBox(o: Object) { o.Object? && !PointerShaped(o.typ) }

  ghost predicate BindsAll(T: Taints, b: Bound, n: Node, c: Node)
    requires n.Node?
  {
    forall o, v, k {:trigger Binds(c, o), WayOf(n.x, InBox(o), v, k)} ::
      v in T && Binds(c, o) && WayOf(n.x, InBox(o), v, k) ==> Reflects(T, b, Var(o), Sat(T[v] + k))
  }

  lemma BoundIs(T: Taints, b: Bound, n: Node, c: Node)
    requires n.Node? && c.Node? && c.op.OCase? && Fits(T)
    ensures (c.obj.NoObject? || EscapeConstraints.Holds(T, c.obj, BoundFlow(c.obj, FlowAt(T, n.x)))) <==> BindsAll(T, b, n, c)
  {
    var o := c.obj;
    if o.Object? {
      var load := InBox(o);
      WaysReflected(T, b, n.x, load, Var(o));
      ShiftNone(T, n.x);
      assert IfaceDerefs(o.typ) == if load then 1 else 0;
      assert FlowOf(T, n.x, load) == FlowAt(T, n.x).Shift(IfaceDerefs(o.typ));
      if BindsAll(T, b, n, c) && CanHold(o.typ) {
        assert Binds(c, o);
        forall v, k | v in T && WayOf(n.x, load, v, k) ensures Reflects(T, b, Var(o), Sat(T[v] + k)) {
          assert WayOf(n.x, InBox(o), v, k);
        }
        assert FlowIn(T, b, Var(o), FlowOf(T, n.x, load));
      }
    }
  }

  /** A flow that fits is what it is after no load. */
  lemma ShiftNone(T: Taints, n: Node)
    requires Fits(T)
    ensures FlowAt(T, n).Shift(0) == FlowAt(T, n)
  {
    FlowFits(T, n);
  }

  lemma FlowFits(T: Taints, n: Node)
    requires Fits(T)
    ensures FlowAt(T, n).Derived? ==> FlowAt(T, n).derefs <= LARGEST
  {
    if FlowAt(T, n).Derived? {
      var v, k := FlowBrings(T, n);
      BringsFlow(T, n, v, k);
    }
  }

  lemma ClauseSplits(rs: seq<Object>, T: Taints, b: Bound, n: Node, c: Node)
    requires n.Node? && Fits(T)
    ensures SolvesClause(rs, T, b, c, FlowAt(T, n.x)) <==> ClauseHolds(rs, T, b, n, c)
  {
    if c.Node? && c.op.OCase? {
      AllSolve(rs, T, b, c.init);
      AllSolve(rs, T, b, c.args);
      AllSolve(rs, T, b, c.body);
      BoundIs(T, b, n, c);
      if ClauseHolds(rs, T, b, n, c) {
        forall q | q in c.init || q in c.args || q in c.body ensures Solves(rs, T, b, q) { assert ClausePart(c, q); }
      }
    } else if c.Node? {
      AvoidsIs(T, c);
    }
  }

  lemma TypeSwitchSplits(rs: seq<Object>, T: Taints, b: Bound, n: Node)
    requires n.Node? && n.op.OTypeSwitch? && Fits(T)
    ensures Splits(rs, T, b, n)
  {
    var f := FlowAt(T, n.x);
    AllSolve(rs, T, b, n.init);
    ClausesSolve(rs, T, b, n.body, f);
    forall c | c in n.body ensures SolvesClause(rs, T, b, c, f) <==> ClauseHolds(rs, T, b, n, c) { ClauseSplits(rs, T, b, n, c); }
    assert Solves(rs, T, b, n)
        <==> SolvesAll(rs, T, b, n.init) && Solves(rs, T, b, n.x) && SolvesClauses(rs, T, b, n.body, f);
    if Solves(rs, T, b, n) { TypeSwitchIsLocal(rs, T, b, n); }
    if PartsSolve(rs, T, b, n) && Local(rs, T, b, n) { LocalTypeSwitches(rs, T, b, n); }
  }

  lemma TypeSwitchIsLocal(rs: seq<Object>, T: Taints, b: Bound, n: Node)
    requires n.Node? && n.op.OTypeSwitch? && Solves(rs, T, b, n.x) && forall q :: q in n.init ==> Solves(rs, T, b, q)
    requires forall c :: c in n.body ==> ClauseHolds(rs, T, b, n, c)
    ensures PartsSolve(rs, T, b, n) && Local(rs, T, b, n)
  {
    forall q | Part(n, q) ensures Solves(rs, T, b, q) {
      if q !in n.init && q != n.x {
        var c :| c in n.body && ClausePart(c, q);
        assert ClauseHolds(rs, T, b, n, c);
      }
    }
    forall v | v in T ensures !Leaves(rs, n, v) {
      forall c | c in n.body && c.Node? && c.op != OCase ensures v !in Objects(c) { assert ClauseHolds(rs, T, b, n, c); }
    }
    forall v, t, k | v in T && Passes(rs, n, v, t, k) ensures Reflects(T, b, t, Sat(T[v] + k)) {
      var c :| c in n.body && Binds(c, t.o);
      assert ClauseHolds(rs, T, b, n, c) && WayOf(n.x, InBox(t.o), v, k);
    }
  }

  lemma LocalTypeSwitches(rs: seq<Object>, T: Taints, b: Bound, n: Node)
    requires n.Node? && n.op.OTypeSwitch? && PartsSolve(rs, T, b, n) && Local(rs, T, b, n)
    ensures Solves(rs, T, b, n.x) && forall q :: q in n.init ==> Solves(rs, T, b, q)
    ensures forall c :: c in n.body ==> ClauseHolds(rs, T, b, n, c)
  {
    forall q | q in n.init || q == n.x ensures Solves(rs, T, b, q) { assert Part(n, q); }
    forall c | c in n.body ensures ClauseHolds(rs, T, b, n, c) {
      if c.Node? && c.op.OCase? {
        forall q | ClausePart(c, q) ensures Solves(rs, T, b, q) { assert Part(n, q); }
        forall o, v, k | v in T && Binds(c, o) && WayOf(n.x, InBox(o), v, k)
          ensures Reflects(T, b, Var(o), Sat(T[v] + k)) {
          assert Passes(rs, n, v, Var(o), k);
        }
      } else if c.Node? {
        forall v | v in T ensures v !in Objects(c) { assert !Leaves(rs, n, v); }
      }
    }
  }

  // ----- Any node -----

  lemma NodeSplits(rs: seq<Object>, T: Taints, b: Bound, n: Node)
    requires n.Node? && Fits(T)
    ensures Splits(rs, T, b, n)
  {
    if IsPlain(n.op) { PlainSplits(rs, T, b, n); }
    else if n.op.OAddr? { AddrSplits(rs, T, b, n); }
    else if n.op.OConvert? { ConvertSplits(rs, T, b, n); }
    else if n.op.OCompositeLit? { LiteralSplits(rs, T, b, n); }
    else if n.op.OCall? { CallSplits(rs, T, b, n); }
    else if n.op.OAssign? { AssignSplits(rs, T, b, n); }
    else if n.op.OReturn? { ReturnSplits(rs, T, b, n); }
    else if n.op.ORange? { RangeSplits(rs, T, b, n); }
    else if n.op.OTypeSwitch? { TypeSwitchSplits(rs, T, b, n); }
    else { OtherSplits(rs, T, b, n); }
  }

  // ----- Any tree -----

  lemma {:induction false} WordPartBelow(n: Node, q: Node)
    requires WordPart(n, q)
    ensures q == n || q < n
  {
    if !n.op.OConvert? && (n.op.OUnary? || n.op.OBinary?) && q !in n.init {
      if WordPart(n.x, q) { WordPartBelow(n.x, q); } else { WordPartBelow(n.y, q); }
    } else if n.op.OUnary? || n.op.OBinary? || n.op.OConvert? {
      if q in n.init { InBelow(n, n.init, q); }
    }
  }

  /** A member of one of a node's lists is below the node. */
  lemma InBelow(n: Node, ns: seq<Node>, q: Node)
    requires n.Node? && q in ns && (ns == n.args || ns == n.init || ns == n.body || ns == n.post || ns == n.els)
    ensures q < n
  {
    var i :| 0 <= i < |ns| && ns[i] == q;
    assert ns[i] < n;
  }

  lemma {:induction false} BehindBelow(n: Node, base: Node)
    requires Behind(n, base)
    ensures base < n
  {
    if !n.op.ODeref? && !(n.op.OIndex? && base == n.x) { BehindBelow(n.x, base); }
  }

  lemma {:induction false} IndexBelow(n: Node, q: Node)
    requires IndexIn(n, q)
    ensures q < n
  {
    if !(n.op.OIndex? && q == n.y) { IndexBelow(n.x, q); }
  }

  lemma PartBelow(n: Node, q: Node)
    requires n.Node? && Part(n, q)
    ensures q < n
  {
    if q in n.init { InBelow(n, n.init, q); }
    else if q in n.args { InBelow(n, n.args, q); }
    else if q in n.body { InBelow(n, n.body, q); }
    else if q in n.post { InBelow(n, n.post, q); }
    else if q in n.els { InBelow(n, n.els, q); }
    else if q == n.x || q == n.y { }
    else if n.op.OAddr? { BehindBelow(n.x, q); }
    else if n.op.OConvert? { WordPartBelow(n.x, q); }
    else if n.op.OTypeSwitch? {
      var c :| c in n.body && ClausePart(c, q);
      InBelow(n, n.body, c);
      if q in c.init { InBelow(c, c.init, q); } else if q in c.args { InBelow(c, c.args, q); } else { InBelow(c, c.body, q); }
    } else { OtherPartBelow(n, q); }
  }

  lemma OtherPartBelow(n: Node, q: Node)
    requires n.Node? && (n.op.OCompositeLit? || n.op.OAssign? || n.op.ORange?) && Part(n, q)
    requires q !in n.init && q !in n.args && q !in n.body && q != n.x && q != n.y
    ensures q < n
  {
    if n.op.OCompositeLit? {
      var a :| a in n.args && ElementPart(a, q);
      InBelow(n, n.args, a);
      if Keyed(a) && q in a.init { InBelow(a, a.init, q); }
    } else if n.op.OAssign? {
      var d :| IsDestination(n, d) && DestinationPart(d, q);
      if d in n.args { InBelow(n, n.args, d); }
      IndexBelow(d, q);
    } else {
      var d :| d in n.args && d.Node? && (q in d.init || DestinationPart(d, q));
      InBelow(n, n.args, d);
      if q in d.init { InBelow(d, d.init, q); } else { IndexBelow(d, q); }
    }
  }

  /** Evaluating `n` evaluates `m`, at any depth. */
  ghost predicate From(n: Node, m: Node) {
    exists trail {:trigger Descends(trail)} :: Descends(trail) && trail[0] == n && trail[|trail| - 1] == m
  }

  lemma FromItself(n: Node)
    requires n.Node?
    ensures From(n, n)
  {
    assert Descends([n]);
  }

  lemma FromPart(n: Node, q: Node, m: Node)
    requires n.Node? && Part(n, q) && From(q, m)
    ensures From(n, m)
  {
    var trail :| Descends(trail) && trail[0] == q && trail[|trail| - 1] == m;
    var longer := [n] + trail;
    forall i | 0 <= i < |longer| - 1 ensures Part(longer[i], longer[i + 1]) {
      if i > 0 { assert longer[i] == trail[i - 1] && longer[i + 1] == trail[i]; }
    }
    assert Descends(longer);
  }

  /** A tree solves the constraints when each node it evaluates does by itself. */
  lemma {:induction false} LocalSolves(rs: seq<Object>, T: Taints, b: Bound, n: Node)
    requires Fits(T) && forall m :: From(n, m) ==> m.Node? && Local(rs, T, b, m)
    ensures Solves(rs, T, b, n)
    decreases n
  {
    if n.Node? {
      FromItself(n);
      forall q | Part(n, q) ensures Solves(rs, T, b, q) {
        PartBelow(n, q);
        forall m | From(q, m) ensures m.Node? && Local(rs, T, b, m) { FromPart(n, q, m); }
        LocalSolves(rs, T, b, q);
      }
      NodeSplits(rs, T, b, n);
    }
  }

  lemma {:induction false} SolvesDown(rs: seq<Object>, T: Taints, b: Bound, trail: seq<Node>)
    requires Fits(T) && Descends(trail) && Solves(rs, T, b, trail[0])
    ensures Local(rs, T, b, trail[|trail| - 1])
  {
    NodeSplits(rs, T, b, trail[0]);
    if |trail| > 1 {
      assert Part(trail[0], trail[1]);
      forall i | 0 <= i < |trail[1..]| - 1 ensures Part(trail[1..][i], trail[1..][i + 1]) {
        assert Part(trail[i + 1], trail[i + 2]);
      }
      SolvesDown(rs, T, b, trail[1..]);
    }
  }

  /** A statement list solves the constraints exactly when each node that it
      evaluates, at any depth, does by itself. */
  lemma SolvesEverywhere(rs: seq<Object>, T: Taints, b: Bound, ns: seq<Node>)
    requires Fits(T)
    ensures SolvesAll(rs, T, b, ns) <==> forall m {:trigger Evaluated(ns, m)} :: Evaluated(ns, m) ==> m.Node? && Local(rs, T, b, m)
  {
    AllSolve(rs, T, b, ns);
    if SolvesAll(rs, T, b, ns) {
      forall m | Evaluated(ns, m) ensures m.Node? && Local(rs, T, b, m) {
        var trail :| Descends(trail) && trail[0] in ns && trail[|trail| - 1] == m;
        SolvesDown(rs, T, b, trail);
      }
    }
    if forall m :: Evaluated(ns, m) ==> m.Node? && Local(rs, T, b, m) {
      forall n | n in ns ensures Solves(rs, T, b, n) {
        forall m | From(n, m) ensures m.Node? && Local(rs, T, b, m) {
          var trail :| Descends(trail) && trail[0] == n && trail[|trail| - 1] == m;
          assert Evaluated(ns, m);
        }
        LocalSolves(rs, T, b, n);
      }
    }
  }
}

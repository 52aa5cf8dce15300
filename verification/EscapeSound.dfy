/** A solution of the flow constraints bounds every run.

    If `T` and `b` solve the constraints of a body and nothing in `T` outlives
    the frame, then no run ever marks a variable outside `T`, lets a pointer
    reach one inside it, stores a marked reference, or hands one out other than
    through a result that `b` records. */
module EscapeSound {
  import opened IR
  import opened EscapeWalk
  import opened EscapeConstraints
  import opened EscapeRun
  import EscapeLeast

  /** A marked reference may leave only through the recorded result, and only a
      result that lives in a cell is kept in one. */
  predicate Clean(rs: seq<Object>, b: Bound, e: Event) {
    match e
    case Returned(i, v) => v && i == b.result ==> b.depth.Some?
    case Kept(i, v) => i < |rs| && rs[i].Object? && rs[i].escapes && (v && i == b.result ==> b.depth.Some?)
    case _ => !e.carried
  }

  ghost predicate Frame(rs: seq<Object>, T: Taints, b: Bound) {
    && (forall o :: o in T ==> !OutlivesFrame(o))
    && (b.result < |rs| && rs[b.result].Object? && rs[b.result] in T ==> b.depth.Some?)
  }

  ghost predicate Inv(rs: seq<Object>, T: Taints, b: Bound, m: Machine) {
    && m.vars <= T.Keys
    && m.exposed !! T.Keys
    && !m.heap
    && (forall k :: 0 <= k < |m.trace| ==> Clean(rs, b, m.trace[k]))
  }

  // ----- What the names below a node are for -----

  lemma {:induction false} AvoidsObjects(n: Node, K: set<Object>)
    requires !Names(n, K)
    ensures Objects(n) !! K
    decreases n, 1
  {
    if n.Node? {
      AvoidsObjects(n.x, K);
      AvoidsObjects(n.y, K);
      AvoidsObjectsAll(n.args, K);
      AvoidsObjectsAll(n.init, K);
      AvoidsObjectsAll(n.body, K);
      AvoidsObjectsAll(n.post, K);
      AvoidsObjectsAll(n.els, K);
    }
  }

  lemma {:induction false} AvoidsObjectsAll(ns: seq<Node>, K: set<Object>)
    requires !NamesAny(ns, K)
    ensures ObjectsAll(ns) !! K
    decreases ns, 0
  {
    if ns != [] {
      AvoidsObjects(ns[0], K);
      AvoidsObjectsAll(ns[1..], K);
    }
  }

  lemma AnythingSound(n: Node, rs: seq<Object>, T: Taints, b: Bound, m: Machine)
    requires Inv(rs, T, b, m) && Avoids(T, n)
    ensures Inv(rs, T, b, Anything(n, m).0) && !Anything(n, m).1
  {
    if Names(n, m.vars) { EscapeLeast.NamesMore(n, m.vars, T.Keys); }
    AvoidsObjects(n, T.Keys);
  }

  lemma WriteSound(root: Object, whole: bool, v: bool, src: Flow, rs: seq<Object>, T: Taints, b: Bound, m: Machine)
    requires Frame(rs, T, b) && Inv(rs, T, b, m)
    requires v ==> src.Derived?
    requires root.Object? && Holds(T, root, src)
    ensures Inv(rs, T, b, Write(root, whole, v, m))
  {
  }

  // ----- Statements -----

  lemma {:induction false} ExecListSound(rs: seq<Object>, ns: seq<Node>, k: nat, T: Taints, b: Bound, m: Machine)
    requires k <= |ns| && Frame(rs, T, b) && Inv(rs, T, b, m) && SolvesAll(rs, T, b, ns)
    ensures Inv(rs, T, b, ExecList(rs, ns, k, m))
    decreases |m.choices|, ns, |ns| + 1
  {
    ExecFromSound(rs, ns, k, T, b, m);
    var m1 := ExecFrom(rs, ns, k, m);
    if m1.mode.Jumping? {
      var (m2, c) := m1.(mode := Running).Choose();
      if !m2.mode.Halted? && c <= |ns| { ExecListSound(rs, ns, c, T, b, m2); }
    }
  }

  lemma {:induction false} SolvesAt(rs: seq<Object>, T: Taints, b: Bound, ns: seq<Node>, k: nat)
    requires SolvesAll(rs, T, b, ns) && k < |ns|
    ensures Solves(rs, T, b, ns[k])
    decreases ns
  {
    if k > 0 { SolvesAt(rs, T, b, ns[1..], k - 1); }
  }

  lemma {:induction false} ExecFromSound(rs: seq<Object>, ns: seq<Node>, k: nat, T: Taints, b: Bound, m: Machine)
    requires k <= |ns| && Frame(rs, T, b) && Inv(rs, T, b, m) && SolvesAll(rs, T, b, ns)
    ensures Inv(rs, T, b, ExecFrom(rs, ns, k, m))
    decreases |m.choices|, ns, |ns| - k
  {
    if k < |ns| && m.mode.Running? {
      SolvesAt(rs, T, b, ns, k);
      EvalSound(rs, ns[k], T, b, m);
      ExecFromSound(rs, ns, k + 1, T, b, Eval(rs, ns[k], m).0);
    }
  }

  lemma {:induction false} EvalSound(rs: seq<Object>, n: Node, T: Taints, b: Bound, m: Machine)
    requires Frame(rs, T, b) && Inv(rs, T, b, m) && Solves(rs, T, b, n)
    ensures Inv(rs, T, b, Eval(rs, n, m).0) && (Eval(rs, n, m).1 ==> FlowAt(T, n).Derived?)
    decreases |m.choices|, n, 5
  {
    if n.Node? && m.mode.Running? {
      ExecListSound(rs, n.init, 0, T, b, m);
      var m1 := ExecList(rs, n.init, 0, m);
      if m1.mode.Running? { ActSound(rs, n, T, b, m1); }
    }
  }

  lemma {:induction false} EvalAllSound(rs: seq<Object>, ns: seq<Node>, T: Taints, b: Bound, m: Machine)
    requires Frame(rs, T, b) && Inv(rs, T, b, m) && SolvesAll(rs, T, b, ns)
    ensures Inv(rs, T, b, EvalAll(rs, ns, m))
    decreases |m.choices|, ns, 1
  {
    if ns != [] {
      EvalSound(rs, ns[0], T, b, m);
      EvalAllSound(rs, ns[1..], T, b, Eval(rs, ns[0], m).0);
    }
  }

  ghost predicate ActInv(rs: seq<Object>, n: Node, T: Taints, b: Bound, m: Machine)
    requires n.Node?
  {
    Inv(rs, T, b, Act(rs, n, m).0) && (Act(rs, n, m).1 ==> ValueAt(T, n).Derived?)
  }

  lemma {:induction false} ActSound(rs: seq<Object>, n: Node, T: Taints, b: Bound, m: Machine)
    requires n.Node? && Frame(rs, T, b) && Inv(rs, T, b, m) && SolvesNode(rs, T, b, n)
    ensures ActInv(rs, n, T, b, m)
    decreases |m.choices|, n, 4
  {
    if n.op.OConst? || n.op.OLocal? || n.op.OGlobal? {
    } else if n.op.OField? || n.op.ODeref? || n.op.OTypeAssert? || n.op.OLen? || n.op.OCap? || n.op.ONilCheck? {
      EvalSound(rs, n.x, T, b, m);
    } else if n.op.OIndex? || n.op.OSlice? { ElementSound(rs, n, T, b, m);
    } else if n.op.OAddr? {
      LocateSound(rs, n.x, T, b, m);
    } else if n.op.OUnary? || n.op.OBinary? || n.op.OCompare? { ArithmeticSound(rs, n, T, b, m);
    } else if n.op.OConvert? { ConvertSound(rs, n, T, b, m);
    } else if n.op.OCompositeLit? { LiteralSound(rs, n, T, b, m);
    } else if n.op.OCall? { CallSound(rs, n, T, b, m);
    } else { ExecSound(rs, n, T, b, m); }
  }

  lemma {:induction false} ElementSound(rs: seq<Object>, n: Node, T: Taints, b: Bound, m: Machine)
    requires n.Node? && (n.op.OIndex? || n.op.OSlice?)
    requires Frame(rs, T, b) && Inv(rs, T, b, m) && SolvesNode(rs, T, b, n)
    ensures ActInv(rs, n, T, b, m)
    decreases |m.choices|, n, 3
  {
    EvalSound(rs, n.x, T, b, m);
    var m1 := Eval(rs, n.x, m).0;
    if n.op.OIndex? {
      EvalSound(rs, n.y, T, b, m1);
      EvalAllSound(rs, n.args, T, b, Eval(rs, n.y, m1).0);
    } else { EvalAllSound(rs, n.args, T, b, m1); }
  }

  lemma {:induction false} ArithmeticSound(rs: seq<Object>, n: Node, T: Taints, b: Bound, m: Machine)
    requires n.Node? && (n.op.OUnary? || n.op.OBinary? || n.op.OCompare?)
    requires Frame(rs, T, b) && Inv(rs, T, b, m) && SolvesNode(rs, T, b, n)
    ensures ActInv(rs, n, T, b, m)
    decreases |m.choices|, n, 3
  {
    EvalSound(rs, n.x, T, b, m);
    var (m2, c) := Eval(rs, n.x, m).0.Choose();
    if c != 0 { EvalSound(rs, n.y, T, b, m2); }
  }

  lemma {:induction false} ExecSound(rs: seq<Object>, n: Node, T: Taints, b: Bound, m: Machine)
    requires n.Node? && Frame(rs, T, b) && Inv(rs, T, b, m) && SolvesNode(rs, T, b, n)
    requires !(n.op.OConvert? || n.op.OCompositeLit? || n.op.OCall? || n.op.OAddr?)
    ensures Inv(rs, T, b, Exec(rs, n, m))
    decreases |m.choices|, n, 3
  {
    if n.op.OAssign? { AssignSound(rs, n, T, b, m);
    } else if n.op.OReturn? { ReturnSound(rs, n, T, b, m);
    } else if n.op.OBlock? || n.op.OLabel? { ExecListSound(rs, n.body, 0, T, b, m);
    } else if n.op.OIf? {
      EvalSound(rs, n.x, T, b, m);
      var (m1, c) := Eval(rs, n.x, m).0.Choose();
      ExecListSound(rs, if c == 0 then n.els else n.body, 0, T, b, m1);
    } else if n.op.OFor? { ForSound(rs, n, T, b, m);
    } else if n.op.ORange? { RangeSound(rs, n, T, b, m);
    } else if n.op.OSwitch? {
      EvalSound(rs, n.x, T, b, m);
      ExecListSound(rs, n.body, 0, T, b, Eval(rs, n.x, m).0);
    } else if n.op.OTypeSwitch? {
      EvalSound(rs, n.x, T, b, m);
      var (m1, v) := Eval(rs, n.x, m);
      ClausesSound(rs, n.body, v, FlowAt(T, n.x), T, b, m1);
    } else if n.op.OCase? {
      EvalAllSound(rs, n.args, T, b, m);
      var (m1, c) := EvalAll(rs, n.args, m).Choose();
      if c != 0 { ExecListSound(rs, n.body, 0, T, b, m1); }
    } else if n.op.OOther? { AnythingSound(n, rs, T, b, m); }
  }

  // ----- Expressions -----

  /** The flow of the storage an operand of & names, if it is not the frame's. */
  function PlaceAt(T: Taints, n: Node): Flow {
    var p := Addressed(n);
    if p.Through? then FlowAt(T, p.base) else NoRef
  }

  /** What SolvesAddr asks of an operand of &. */
  predicate SolvesPlace(rs: seq<Object>, T: Taints, b: Bound, n: Node) {
    Solves(rs, T, b, n) && (Addressed(n).Through? || Avoids(T, n))
  }

  lemma {:induction false} LocateSound(rs: seq<Object>, n: Node, T: Taints, b: Bound, m: Machine)
    requires Frame(rs, T, b) && Inv(rs, T, b, m) && SolvesPlace(rs, T, b, n)
    ensures Inv(rs, T, b, Locate(rs, n, m).0) && (Locate(rs, n, m).1 ==> PlaceAt(T, n).Derived?)
    decreases |m.choices|, n, 7
  {
    if n.Node? && m.mode.Running? {
      ExecListSound(rs, n.init, 0, T, b, m);
      var m1 := ExecList(rs, n.init, 0, m);
      if m1.mode.Running? { LocateNodeSound(rs, n, T, b, m1); }
    }
  }

  lemma AvoidsParts(n: Node, K: set<Object>)
    requires n.Node? && !Names(n, K)
    ensures !Names(n.x, K) && !Names(n.y, K) && !NamesAny(n.args, K) && !(n.obj.Object? && n.obj in K)
  {
    assert !NamesIn(n, K);
  }

  /** A node that avoids `T` carries nothing. */
  lemma {:induction false} AvoidsFlow(n: Node, T: Taints)
    requires Avoids(T, n)
    ensures FlowAt(T, n).NoRef?
    decreases n, 1
  {
    if n.Node? {
      AvoidsParts(n, T.Keys);
      AvoidsFlow(n.x, T);
      AvoidsFlow(n.y, T);
      AvoidsWord(n.x, T);
      AvoidsPlace(n.x, T);
      AvoidsElems(n.args, T);
      assert AddrAt(T, n).NoRef? && ConvertAt(T, n).NoRef?;
      assert ValueAt(T, n).NoRef?;
    }
  }

  lemma {:induction false} AvoidsWord(n: Node, T: Taints)
    requires Avoids(T, n)
    ensures WordAt(T, n).NoRef?
    decreases n, 2
  {
    if n.Node? {
      AvoidsParts(n, T.Keys);
      AvoidsFlow(n.x, T);
      AvoidsWord(n.x, T);
      AvoidsWord(n.y, T);
    }
  }

  lemma {:induction false} AvoidsPlace(n: Node, T: Taints)
    requires Avoids(T, n)
    ensures PlaceAt(T, n).NoRef?
    decreases n, 2
  {
    if n.Node? {
      AvoidsParts(n, T.Keys);
      AvoidsPlace(n.x, T);
      AvoidsFlow(n.x, T);
    }
  }

  lemma {:induction false} AvoidsElems(elems: seq<Node>, T: Taints)
    requires !NamesAny(elems, T.Keys)
    ensures ElemsAt(T, elems, NoRef).NoRef?
    decreases elems, 0
  {
    if elems != [] {
      AvoidsFlow(elems[0], T);
      if Keyed(elems[0]) { AvoidsParts(elems[0], T.Keys); AvoidsFlow(elems[0].y, T); }
      AvoidsElems(elems[1..], T);
    }
  }

  lemma {:induction false} LocateNodeSound(rs: seq<Object>, n: Node, T: Taints, b: Bound, m: Machine)
    requires n.Node? && Frame(rs, T, b) && Inv(rs, T, b, m) && SolvesPlace(rs, T, b, n)
    ensures Inv(rs, T, b, LocateNode(rs, n, m).0) && (LocateNode(rs, n, m).1 ==> PlaceAt(T, n).Derived?)
    decreases |m.choices|, n, 6
  {
    assert SolvesNode(rs, T, b, n);
    if Avoids(T, n) { AvoidsParts(n, T.Keys); }
    if (n.op.OLocal? || n.op.OGlobal?) && n.obj.Object? {
    } else if n.op.OField? { LocateSound(rs, n.x, T, b, m);
    } else if n.op.ODeref? { EvalSound(rs, n.x, T, b, m);
    } else if n.op.OIndex? && InArray(n.x) {
      LocateSound(rs, n.x, T, b, m);
      EvalSound(rs, n.y, T, b, Locate(rs, n.x, m).0);
    } else if n.op.OIndex? && n.x.Node? && n.x.typ.Is(Slice) {
      EvalSound(rs, n.x, T, b, m);
      EvalSound(rs, n.y, T, b, Eval(rs, n.x, m).0);
    } else {
      ActSound(rs, n, T, b, m);
      AvoidsFlow(n, T);
    }
  }

  lemma {:induction false} ConvertSound(rs: seq<Object>, n: Node, T: Taints, b: Bound, m: Machine)
    requires n.Node? && Frame(rs, T, b) && Inv(rs, T, b, m) && SolvesConvert(rs, T, b, n)
    ensures Inv(rs, T, b, EvalConvert(rs, n, m).0) && (EvalConvert(rs, n, m).1 ==> ConvertAt(T, n).Derived?)
    decreases |m.choices|, n, 3
  {
    if n.typ.NoType? { AnythingSound(n.x, rs, T, b, m);
    } else if n.typ.pointers && !n.typ.kind.Interface? && Typed(n.x) && !n.x.typ.pointers {
      WordSound(rs, n.x, T, b, m);
    } else { EvalSound(rs, n.x, T, b, m); }
  }

  lemma {:induction false} WordSound(rs: seq<Object>, n: Node, T: Taints, b: Bound, m: Machine)
    requires Frame(rs, T, b) && Inv(rs, T, b, m) && SolvesWord(rs, T, b, n)
    ensures Inv(rs, T, b, EvalWord(rs, n, m).0) && (EvalWord(rs, n, m).1 ==> WordAt(T, n).Derived?)
    decreases |m.choices|, n, 7
  {
    if n.Node? && m.mode.Running? {
      ExecListSound(rs, n.init, 0, T, b, m);
      var m1 := ExecList(rs, n.init, 0, m);
      if m1.mode.Running? { WordNodeSound(rs, n, T, b, m1); }
    }
  }

  lemma {:induction false} WordNodeSound(rs: seq<Object>, n: Node, T: Taints, b: Bound, m: Machine)
    requires n.Node? && Frame(rs, T, b) && Inv(rs, T, b, m) && SolvesVisit(rs, T, b, n)
    ensures Inv(rs, T, b, EvalWordNode(rs, n, m).0) && (EvalWordNode(rs, n, m).1 ==> WordAt(T, n).Derived?)
    decreases |m.choices|, n, 6
  {
    if n.op.OConvert? { EvalSound(rs, n.x, T, b, m);
    } else if n.op.OUnary? || n.op.OBinary? {
      WordSound(rs, n.x, T, b, m);
      WordSound(rs, n.y, T, b, EvalWord(rs, n.x, m).0);
    } else { ActSound(rs, n, T, b, m); }
  }

  lemma {:induction false} LiteralSound(rs: seq<Object>, n: Node, T: Taints, b: Bound, m: Machine)
    requires n.Node? && n.op.OCompositeLit? && Frame(rs, T, b) && Inv(rs, T, b, m) && SolvesNode(rs, T, b, n)
    ensures ActInv(rs, n, T, b, m)
    decreases |m.choices|, n, 3
  {
    ElemsSound(rs, n.args, NoRef, T, b, m);
    assert Act(rs, n, m) == EvalLiteral(rs, n, m);
    if n.typ.Is(Struct) || n.typ.Is(Array) {
      assert ValueAt(T, n) == ElemsAt(T, n.args, NoRef).Carries(n.typ);
    } else { AvoidsParts(n, T.Keys); }
  }

  lemma {:induction false} JoinKeeps(T: Taints, elems: seq<Node>, f: Flow)
    requires f.Derived?
    ensures ElemsAt(T, elems, f).Derived?
    decreases elems
  {
    if elems != [] { JoinKeeps(T, elems[1..], f.Join(FlowAt(T, if Keyed(elems[0]) then elems[0].y else elems[0]))); }
  }

  lemma {:induction false} ElemsSound(rs: seq<Object>, elems: seq<Node>, f: Flow, T: Taints, b: Bound, m: Machine)
    requires Frame(rs, T, b) && Inv(rs, T, b, m) && SolvesElems(rs, T, b, elems)
    ensures var r := EvalElems(rs, elems, m);
            Inv(rs, T, b, r.0) && (r.1 ==> ElemsAt(T, elems, f).Derived?) && (r.2 ==> NamesAny(elems, T.Keys))
    decreases |m.choices|, elems, 2
  {
    if elems != [] {
      var a := elems[0];
      ElemSound(rs, a, T, b, m);
      var (m1, v, k) := EvalElem(rs, a, m);
      var g := f.Join(FlowAt(T, if Keyed(a) then a.y else a));
      ElemsSound(rs, elems[1..], g, T, b, m1);
      if v { JoinKeeps(T, elems[1..], g); }
    }
  }

  lemma {:induction false} ElemSound(rs: seq<Object>, a: Node, T: Taints, b: Bound, m: Machine)
    requires Frame(rs, T, b) && Inv(rs, T, b, m) && SolvesElem(rs, T, b, a)
    ensures var r := EvalElem(rs, a, m);
            Inv(rs, T, b, r.0) && (r.1 ==> FlowAt(T, if Keyed(a) then a.y else a).Derived?) && (r.2 ==> Names(a, T.Keys))
    decreases |m.choices|, a, 6
  {
    if Keyed(a) {
      ExecListSound(rs, a.init, 0, T, b, m);
      var m1 := ExecList(rs, a.init, 0, m);
      EvalSound(rs, a.x, T, b, m1);
      EvalSound(rs, a.y, T, b, Eval(rs, a.x, m1).0);
      if !Names(a, T.Keys) { AvoidsParts(a, T.Keys); AvoidsFlow(a.x, T); }
    } else { EvalSound(rs, a, T, b, m); }
  }

  lemma {:induction false} CallSound(rs: seq<Object>, n: Node, T: Taints, b: Bound, m: Machine)
    requires n.Node? && n.op.OCall? && Frame(rs, T, b) && Inv(rs, T, b, m) && SolvesNode(rs, T, b, n)
    ensures ActInv(rs, n, T, b, m)
    decreases |m.choices|, n, 3
  {
    EvalSound(rs, n.x, T, b, m);
    var (m1, f) := Eval(rs, n.x, m);
    ArgsSound(rs, n.args, T, b, m1);
    var (m2, a) := EvalArgs(rs, n.args, m1);
    assert !f && !a;
    assert Act(rs, n, m) == EvalCall(rs, n, m);
  }

  lemma {:induction false} ArgsSound(rs: seq<Object>, ns: seq<Node>, T: Taints, b: Bound, m: Machine)
    requires Frame(rs, T, b) && Inv(rs, T, b, m) && SolvesClean(rs, T, b, ns)
    ensures Inv(rs, T, b, EvalArgs(rs, ns, m).0) && !EvalArgs(rs, ns, m).1
    decreases |m.choices|, ns, 2
  {
    if ns != [] {
      EvalSound(rs, ns[0], T, b, m);
      var (m1, v) := Eval(rs, ns[0], m);
      ArgsSound(rs, ns[1..], T, b, m1.Emit(Passed(v)));
    }
  }

  // ----- Stores -----

  lemma {:induction false} AssignSound(rs: seq<Object>, n: Node, T: Taints, b: Bound, m: Machine)
    requires n.Node? && Frame(rs, T, b) && Inv(rs, T, b, m) && SolvesAssign(rs, T, b, n)
    ensures Inv(rs, T, b, ExecAssign(rs, n, m))
    decreases |m.choices|, n, 2
  {
    EvalSound(rs, n.y, T, b, m);
    var (m1, v) := Eval(rs, n.y, m);
    if !(n.x.NoNode? && n.args == []) {
      var src := FlowAt(T, n.y);
      if n.x.Node? { StoreToSound(rs, n.x, v, src, T, b, m1); }
      StoreEachSound(rs, n.args, v, src, T, b, if n.x.NoNode? then m1 else StoreTo(rs, n.x, v, m1));
    }
  }

  lemma {:induction false} StoreEachSound(rs: seq<Object>, dsts: seq<Node>, v: bool, src: Flow, T: Taints, b: Bound, m: Machine)
    requires Frame(rs, T, b) && Inv(rs, T, b, m) && AcceptsAll(rs, T, b, dsts, src) && (v ==> src.Derived?)
    ensures Inv(rs, T, b, StoreEach(rs, dsts, v, m))
    decreases |m.choices|, dsts, 2
  {
    if dsts != [] {
      StoreToSound(rs, dsts[0], v, src, T, b, m);
      StoreEachSound(rs, dsts[1..], v, src, T, b, StoreTo(rs, dsts[0], v, m));
    }
  }

  lemma {:induction false} StoreToSound(rs: seq<Object>, dst: Node, v: bool, src: Flow, T: Taints, b: Bound, m: Machine)
    requires Frame(rs, T, b) && Inv(rs, T, b, m) && Accepts(rs, T, b, dst, src) && (v ==> src.Derived?)
    ensures Inv(rs, T, b, StoreTo(rs, dst, v, m))
    decreases |m.choices|, dst, 5
  {
    var (root, direct) := Destination(dst);
    if m.mode.Running? {
      if direct {
        IndexesSound(rs, dst, T, b, m);
        if !root.cls.ClassGlobal? {
          WriteSound(root, dst.op.OLocal?, Clip(v, dst.typ), src.Carries(dst.typ), rs, T, b, EvalIndexes(rs, dst, m));
        }
      } else { AnythingSound(dst, rs, T, b, m); }
    }
  }

  lemma {:induction false} IndexesSound(rs: seq<Object>, dst: Node, T: Taints, b: Bound, m: Machine)
    requires Frame(rs, T, b) && Inv(rs, T, b, m) && SolvesIndexes(rs, T, b, dst)
    ensures Inv(rs, T, b, EvalIndexes(rs, dst, m))
    decreases |m.choices|, dst, 2
  {
    if dst.Node? {
      if dst.op.OField? { IndexesSound(rs, dst.x, T, b, m); }
      else if dst.op.OIndex? {
        EvalSound(rs, dst.y, T, b, m);
        IndexesSound(rs, dst.x, T, b, Eval(rs, dst.y, m).0);
      }
    }
  }

  // ----- Returns -----

  /** The value of result i, when it is marked, is a flow that `b` records. */
  ghost predicate Due(rs: seq<Object>, b: Bound, i: nat, v: bool)
    requires i < |rs|
  {
    v && (rs[i].NoObject? || rs[i].typ.MayHold()) && i == b.result ==> b.depth.Some?
  }

  lemma {:induction false} DeliverAllSound(rs: seq<Object>, i: nat, vs: seq<bool>, T: Taints, b: Bound, m: Machine)
    requires i + |vs| <= |rs| && Inv(rs, T, b, m)
    requires forall k :: 0 <= k < |vs| ==> Due(rs, b, i + k, vs[k])
    ensures Inv(rs, T, b, DeliverAll(rs, i, vs, m))
    decreases |vs|
  {
    if vs != [] {
      assert Due(rs, b, i + 0, vs[0]);
      forall k | 0 <= k < |vs[1..]| ensures Due(rs, b, i + 1 + k, vs[1..][k]) {
        assert Due(rs, b, i + (k + 1), vs[k + 1]);
      }
      DeliverAllSound(rs, i + 1, vs[1..], T, b, Deliver(rs, i, vs[0], m));
    }
  }

  lemma {:induction false} ValuesSound(rs: seq<Object>, ns: seq<Node>, i: nat, T: Taints, b: Bound, m: Machine)
    requires i + |ns| <= |rs|
    requires Frame(rs, T, b) && Inv(rs, T, b, m) && SolvesResults(rs, T, b, ns, i)
    ensures Inv(rs, T, b, Values(rs, ns, m).0)
    ensures forall k :: 0 <= k < |ns| ==> Due(rs, b, i + k, Values(rs, ns, m).1[k])
    decreases |m.choices|, ns, 2
  {
    if ns != [] {
      EvalSound(rs, ns[0], T, b, m);
      var (m1, v) := Eval(rs, ns[0], m);
      ValuesSound(rs, ns[1..], i + 1, T, b, m1);
      var vs := Values(rs, ns[1..], m1).1;
      forall k | 0 <= k < |ns| ensures Due(rs, b, i + k, ([v] + vs)[k]) {
        if k > 0 { assert Due(rs, b, i + 1 + (k - 1), vs[k - 1]); }
      }
    }
  }

  lemma {:induction false} ValuesClean(rs: seq<Object>, ns: seq<Node>, T: Taints, b: Bound, m: Machine)
    requires Frame(rs, T, b) && Inv(rs, T, b, m) && SolvesClean(rs, T, b, ns)
    ensures Inv(rs, T, b, Values(rs, ns, m).0)
    ensures true !in Values(rs, ns, m).1
    decreases |m.choices|, ns, 2
  {
    if ns != [] {
      EvalSound(rs, ns[0], T, b, m);
      ValuesClean(rs, ns[1..], T, b, Eval(rs, ns[0], m).0);
    }
  }

  lemma {:induction false} ReturnSound(rs: seq<Object>, n: Node, T: Taints, b: Bound, m: Machine)
    requires n.Node? && n.op.OReturn? && Frame(rs, T, b) && Inv(rs, T, b, m) && SolvesNode(rs, T, b, n)
    ensures Inv(rs, T, b, ExecReturn(rs, n, m))
    decreases |m.choices|, n, 2
  {
    if |n.args| == |rs| { ValuesSound(rs, n.args, 0, T, b, m); }
    else { ValuesClean(rs, n.args, T, b, m); }
    var (m1, vs) := Values(rs, n.args, m);
    var out := if |vs| == |rs| then vs
               else if vs == [] then Named(rs, m1)
               else seq(|rs|, i => true in vs);
    forall k | 0 <= k < |out| ensures Due(rs, b, 0 + k, out[k]) {
      if |n.args| == |rs| { assert Due(rs, b, 0 + k, vs[k]); }
    }
    DeliverAllSound(rs, 0, out, T, b, m1);
  }

  // ----- Loops and clauses -----

  lemma {:induction false} ForSound(rs: seq<Object>, n: Node, T: Taints, b: Bound, m: Machine)
    requires n.Node? && n.op.OFor? && Frame(rs, T, b) && Inv(rs, T, b, m) && SolvesNode(rs, T, b, n)
    ensures Inv(rs, T, b, ExecFor(rs, n, m))
    decreases |m.choices|, n, 2
  {
    EvalSound(rs, n.x, T, b, m);
    var m1 := Eval(rs, n.x, m).0;
    if m1.mode.Running? {
      var (m2, c) := m1.Choose();
      if c != 0 && m2.mode.Running? {
        ExecListSound(rs, n.body, 0, T, b, m2);
        var (m3, again) := ExecList(rs, n.body, 0, m2).Next();
        if again {
          ExecListSound(rs, n.post, 0, T, b, m3);
          ForSound(rs, n, T, b, ExecList(rs, n.post, 0, m3));
        }
      }
    }
  }

  lemma {:induction false} RangeSound(rs: seq<Object>, n: Node, T: Taints, b: Bound, m: Machine)
    requires n.Node? && Frame(rs, T, b) && Inv(rs, T, b, m) && SolvesRange(rs, T, b, n)
    ensures Inv(rs, T, b, ExecRange(rs, n, m))
    decreases |m.choices|, n, 2
  {
    EvalSound(rs, n.x, T, b, m);
    var (m1, v) := Eval(rs, n.x, m);
    if Rangeable(n.x) { RangeLoopSound(rs, n, v, T, b, m1); } else { AnythingSound(n, rs, T, b, m1); }
  }

  lemma {:induction false} RangeLoopSound(rs: seq<Object>, n: Node, v: bool, T: Taints, b: Bound, m: Machine)
    requires n.Node? && Rangeable(n.x) && Frame(rs, T, b) && Inv(rs, T, b, m) && SolvesRange(rs, T, b, n)
    requires v ==> FlowAt(T, n.x).Derived?
    ensures Inv(rs, T, b, RangeLoop(rs, n, v, m))
    decreases |m.choices|, n, 1
  {
    if m.mode.Running? {
      var (m1, c) := m.Choose();
      if c != 0 && m1.mode.Running? {
        RangeAssignSound(rs, n.args, v, FlowAt(T, n.x).Shift(1), T, b, m1);
        var m2 := RangeAssign(rs, n.args, v || m1.Mem(), m1);
        ExecListSound(rs, n.body, 0, T, b, m2);
        var (m3, again) := ExecList(rs, n.body, 0, m2).Next();
        if again { RangeLoopSound(rs, n, v, T, b, m3); }
      }
    }
  }

  lemma {:induction false} RangeAssignSound(rs: seq<Object>, dsts: seq<Node>, v: bool, src: Flow, T: Taints, b: Bound, m: Machine)
    requires Frame(rs, T, b) && Inv(rs, T, b, m) && AcceptsRange(rs, T, b, dsts, src) && (v ==> src.Derived?)
    ensures Inv(rs, T, b, RangeAssign(rs, dsts, v, m))
    decreases |m.choices|, dsts, 2
  {
    if dsts != [] {
      RangeStoreToSound(rs, dsts[0], v, src, T, b, m);
      RangeAssignSound(rs, dsts[1..], v, src, T, b, RangeStoreTo(rs, dsts[0], v, m));
    }
  }

  lemma {:induction false} RangeStoreToSound(rs: seq<Object>, d: Node, v: bool, src: Flow, T: Taints, b: Bound, m: Machine)
    requires Frame(rs, T, b) && Inv(rs, T, b, m) && AcceptsRangeOne(rs, T, b, d, src) && (v ==> src.Derived?)
    ensures Inv(rs, T, b, RangeStoreTo(rs, d, v, m))
    decreases |m.choices|, d, 6
  {
    if d.Node? {
      ExecListSound(rs, d.init, 0, T, b, m);
      StoreToSound(rs, d, v, src, T, b, ExecList(rs, d.init, 0, m));
    }
  }

  lemma {:induction false} ClausesSound(rs: seq<Object>, clauses: seq<Node>, v: bool, src: Flow, T: Taints, b: Bound, m: Machine)
    requires Frame(rs, T, b) && Inv(rs, T, b, m) && SolvesClauses(rs, T, b, clauses, src) && (v ==> src.Derived?)
    ensures Inv(rs, T, b, ExecClauses(rs, clauses, v, m))
    decreases |m.choices|, clauses, 2
  {
    if clauses != [] {
      ClauseSound(rs, clauses[0], v, src, T, b, m);
      ClausesSound(rs, clauses[1..], v, src, T, b, ExecClause(rs, clauses[0], v, m));
    }
  }

  lemma {:induction false} ClauseSound(rs: seq<Object>, c: Node, v: bool, src: Flow, T: Taints, b: Bound, m: Machine)
    requires Frame(rs, T, b) && Inv(rs, T, b, m) && SolvesClause(rs, T, b, c, src) && (v ==> src.Derived?)
    ensures Inv(rs, T, b, ExecClause(rs, c, v, m))
    decreases |m.choices|, c, 6
  {
    if c.Node? && m.mode.Running? {
      if !c.op.OCase? { AnythingSound(c, rs, T, b, m); }
      else {
        ExecListSound(rs, c.init, 0, T, b, m);
        EvalAllSound(rs, c.args, T, b, ExecList(rs, c.init, 0, m));
        var (m1, taken) := EvalAll(rs, c.args, ExecList(rs, c.init, 0, m)).Choose();
        if taken != 0 && m1.mode.Running? {
          if c.obj.NoObject? { ExecListSound(rs, c.body, 0, T, b, m1); }
          else {
            WriteSound(c.obj, true, Clip(v || m1.Mem(), c.obj.typ), BoundFlow(c.obj, src), rs, T, b, m1);
            ExecListSound(rs, c.body, 0, T, b, Write(c.obj, true, Clip(v || m1.Mem(), c.obj.typ), m1));
          }
        }
      }
    }
  }
}

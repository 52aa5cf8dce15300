/** The layout refuses exactly the bodies that cannot be written. */
module BodyRefusals {
  import opened Wrappers
  import opened BodyTree
  import opened BodyFormat
  import opened BodyWritable

  // ----- Leaves: what is always written -----

  lemma {:induction false} TypesWhole(ts: seq<TypeUse>, k: Stream)
    ensures Complete(PutTypes(ts, k)) <==> Complete(k)
  {
    if ts != [] { TypesWhole(ts[1..], k); }
  }

  lemma ObjWhole(o: ObjUse, k: Stream)
    ensures Complete(PutObj(o, k)) <==> Complete(k)
  {
    TypesWhole(o.targs, k);
    var k1 := PutLen(|o.targs|, PutTypes(o.targs, k));
    assert Complete(k1) <==> Complete(k);
    assert Complete(PutRef(Objs, o.idx, k1)) <==> Complete(k1);
  }

  lemma PosWhole(p: Pos, k: Stream)
    ensures Complete(PutPos(p, k)) <==> Complete(k)
  {
    if p.Pos? {
      assert Complete(PutLen(p.col, k)) <==> Complete(k);
      assert Complete(PutLen(p.line, PutLen(p.col, k))) <==> Complete(PutLen(p.col, k));
    }
  }

  lemma TypeWhole(t: TypeUse, k: Stream)
    ensures Complete(PutType(t, k)) <==> Complete(k)
  {
    match t
    case DerivedAt(slot) => assert Complete(PutLen(slot, k)) <==> Complete(k);
    case TypeAt(idx) => assert Complete(PutRef(Types, idx, k)) <==> Complete(k);
  }

  lemma SlotWhole(s: Option<nat>, k: Stream)
    ensures Complete(PutSlot(s, k)) <==> Complete(k)
  {
    if s.Some? { assert Complete(PutLen(s.value, k)) <==> Complete(k); }
  }

  lemma {:induction false} LocalsWhole(ls: seq<Local>, k: Stream)
    ensures Complete(PutLocals(ls, k)) <==> Complete(k)
  {
    if ls != [] {
      LocalsWhole(ls[1..], k);
      SlotWhole(ls[0].slot, PutLocals(ls[1..], k));
    }
  }

  lemma {:induction false} LensWhole(ns: seq<nat>, k: Stream)
    ensures Complete(PutLens(ns, k)) <==> Complete(k)
  {
    if ns != [] { LensWhole(ns[1..], k); }
  }

  lemma {:induction false} IntsWhole(ns: seq<int>, k: Stream)
    ensures Complete(PutInts(ns, k)) <==> Complete(k)
  {
    if ns != [] { IntsWhole(ns[1..], k); }
  }

  lemma RTypeWhole(t: RType, k: Stream)
    ensures Complete(PutRType(t, k)) <==> Complete(k)
  {
    match t
    case RTypeAt(slot) => assert Complete(PutLen(slot, k)) <==> Complete(k);
    case RTypeOf(u) => TypeWhole(u, k);
  }

  lemma ConvWhole(c: ConvRTTI, k: Stream)
    ensures Complete(PutConv(c, k)) <==> Complete(k)
  {
    SlotWhole(c.itab, k);
    RTypeWhole(c.dst, PutSlot(c.itab, k));
    RTypeWhole(c.src, PutRType(c.dst, PutSlot(c.itab, k)));
  }

  lemma ExprTypeWhole(t: ExprType, k: Stream)
    ensures Complete(PutExprType(t, k)) <==> Complete(k)
  {
    match t
    case AgainstItab(p, c) =>
      ConvWhole(c, k);
      PosWhole(p, PutBit(true, PutConv(c, k)));
    case WithRType(p, r, d) =>
      RTypeWhole(r, PutBit(d, k));
      PosWhole(p, PutBit(false, PutRType(r, PutBit(d, k))));
  }

  lemma {:induction false} CasesWhole(ts: seq<Option<ExprType>>, k: Stream)
    ensures Complete(PutCases(ts, k)) <==> Complete(k)
  {
    if ts != [] {
      CasesWhole(ts[1..], k);
      if ts[0].Some? { ExprTypeWhole(ts[0].value, PutCases(ts[1..], k)); }
    }
  }

  lemma InstWhole(f: FuncInst, k: Stream)
    ensures Complete(PutInst(f, k)) <==> Complete(k)
  {
    match f
    case InstAt(slot) => assert Complete(PutLen(slot, k)) <==> Complete(k);
    case InstOf(o) => ObjWhole(o, k);
  }

  lemma MethodDictWhole(d: MethodDict, k: Stream)
    ensures Complete(PutMethodDict(d, k)) <==> Complete(k)
  {
    match d
    case ViaTypeParam(slot) => assert Complete(PutLen(slot, k)) <==> Complete(k);
    case ViaSubdict(slot) =>
      assert Complete(PutLen(slot, k)) <==> Complete(k);
      assert Complete(PutBit(true, PutLen(slot, k))) <==> Complete(PutLen(slot, k));
    case ViaStatic(o) =>
      ObjWhole(o, k);
      var k1 := PutBit(true, PutObj(o, k));
      assert Complete(k1) <==> Complete(k);
      assert Complete(PutBit(false, k1)) <==> Complete(k1);
    case NoDict =>
      var k1 := PutBit(false, k);
      assert Complete(k1) <==> Complete(k);
      assert Complete(PutBit(false, k1)) <==> Complete(k1);
  }

  lemma PathWhole(p: Path, k: Stream)
    ensures Complete(PutPath(p, k)) <==> Complete(k)
  {
    var k1 := if p.deref then k else PutBit(p.addr, k);
    assert Complete(k1) <==> Complete(k);
    var k2 := PutBit(p.deref, k1);
    assert Complete(k2) <==> Complete(k1);
    LensWhole(p.implicits, k2);
  }

  lemma ResultWhole(r: MultiResult, k: Stream)
    ensures Complete(PutResult(r, k)) <==> Complete(k)
  {
    var k1 := if r.conv.Some? then PutType(r.conv.value.dst, PutConv(r.conv.value.conv, k)) else k;
    if r.conv.Some? {
      ConvWhole(r.conv.value.conv, k);
      TypeWhole(r.conv.value.dst, PutConv(r.conv.value.conv, k));
    }
    TypeWhole(r.src, PutBit(r.conv.Some?, k1));
  }

  lemma {:induction false} ResultsWhole(rs: seq<MultiResult>, k: Stream)
    ensures Complete(PutResults(rs, k)) <==> Complete(k)
  {
    if rs != [] {
      ResultsWhole(rs[1..], k);
      ResultWhole(rs[0], PutResults(rs[1..], k));
    }
  }

  lemma {:induction false} CapturesWhole(cs: seq<Capture>, k: Stream)
    ensures Complete(PutCaptures(cs, k)) <==> Complete(k)
  {
    if cs != [] {
      CapturesWhole(cs[1..], k);
      var k1 := PutLen(cs[0].index, PutCaptures(cs[1..], k));
      assert Complete(k1) <==> Complete(k);
      PosWhole(cs[0].pos, PutBit(!cs[0].captured, k1));
    }
  }

  // ----- Leaves: what may be refused -----

  lemma NameWhole(a: Archive, s: Selector, k: Stream)
    ensures Complete(PutSelector(a, s, k)) <==> CanName(a, s) && Complete(k)
  {
    var k1 := PutStr(a, s.name, k);
    assert Complete(k1) <==> s.name in a.strIdx && Complete(k);
  }

  lemma OpWhole(op: nat, k: Stream)
    ensures Complete(PutOp(op, k)) <==> op in OPERATORS && Complete(k)
  {
  }

  lemma BigWhole(a: Archive, n: Big, k: Stream)
    ensures Complete(PutBig(a, n, k)) <==> n.bytes in a.strIdx && Complete(k)
  {
    assert Complete(PutBit(n.negative, k)) <==> Complete(k);
  }

  lemma ScalarWhole(a: Archive, v: Scalar, k: Stream)
    ensures Complete(PutScalar(a, v, k)) <==> CanScalar(a, v) && Complete(k)
  {
    match v
    case BoolValue(b) => assert Complete(PutBit(b, k)) <==> Complete(k);
    case StringValue(s) => assert Complete(PutStr(a, s, k)) <==> s in a.strIdx && Complete(k);
    case IntValue(i) => assert Complete(PutInt(i, k)) <==> Complete(k);
    case BigInt(n) => BigWhole(a, n, k);
    case BigRat(n, d) =>
      BigWhole(a, d, k);
      BigWhole(a, n, PutBig(a, d, k));
    case BigFloat(t) => assert Complete(PutStr(a, t, k)) <==> t in a.strIdx && Complete(k);
  }

  lemma ValueWhole(a: Archive, v: Value, k: Stream)
    ensures Complete(PutValue(a, v, k)) <==> CanValue(a, v) && Complete(k)
  {
    if v.im.Some? { ScalarWhole(a, v.im.value, k); }
    ScalarWhole(a, v.re, if v.im.Some? then PutScalar(a, v.im.value, k) else k);
  }

  lemma OptRTypeWhole(wanted: bool, t: Option<RType>, k: Stream)
    ensures Complete(PutOptRType(wanted, t, k)) <==> t.Some? == wanted && Complete(k)
  {
    if t.Some? { RTypeWhole(t.value, k); }
  }

  lemma OptConvWhole(wanted: bool, c: Option<ConvRTTI>, k: Stream)
    ensures Complete(PutOptConv(wanted, c, k)) <==> c.Some? == wanted && Complete(k)
  {
    if c.Some? { ConvWhole(c.value, k); }
  }

  lemma MapWhole(a: Archive, x: Expr, m: Option<RType>, k: Stream)
    ensures Complete(PutMapRType(a, TypeOf(x), m, k)) <==> MapAgrees(a, x, m) && Complete(k)
  {
    if TypeOf(x).Some? {
      var t := TypeOf(x).value;
      assert HasType(x, t);
      assert CoreOf(a, t).MapCore? <==> HasCore(a, t, MapCore);
      OptRTypeWhole(CoreOf(a, t).MapCore?, m, k);
    }
  }

  lemma MethodWhole(a: Archive, m: MethodRef, k: Stream)
    ensures Complete(PutMethod(a, m, k)) <==> CanName(a, m.sel) && Complete(k)
  {
    MethodDictWhole(m.dict, k);
    NameWhole(a, m.sel, PutMethodDict(m.dict, k));
    var k1 := PutPos(m.pos, PutSelector(a, m.sel, PutMethodDict(m.dict, k)));
    PosWhole(m.pos, PutSelector(a, m.sel, PutMethodDict(m.dict, k)));
    if m.sig.Some? { TypeWhole(m.sig.value, k1); }
    TypeWhole(m.recv, PutBit(m.sig.None?, if m.sig.Some? then PutType(m.sig.value, k1) else k1));
  }

  lemma {:induction false} ParamsWhole(a: Archive, ps: seq<Param>, k: Stream)
    ensures Complete(PutParams(a, ps, k)) <==> CanParams(a, ps) && Complete(k)
  {
    if ps != [] {
      var k1 := PutParams(a, ps[1..], k);
      ParamsWhole(a, ps[1..], k);
      TypeWhole(ps[0].typ, k1);
      NameWhole(a, ps[0].name, PutType(ps[0].typ, k1));
      PosWhole(ps[0].pos, PutSelector(a, ps[0].name, PutType(ps[0].typ, k1)));
      assert ps == [ps[0]] + ps[1..];
      assert CanParams(a, ps) <==> CanName(a, ps[0].name) && CanParams(a, ps[1..]);
    }
  }

  lemma SignatureWhole(a: Archive, s: Signature, k: Stream)
    ensures Complete(PutSignature(a, s, k)) <==> CanSignature(a, s) && Complete(k)
  {
    var k1 := PutBit(s.rangeFuncBody, k);
    assert Complete(k1) <==> Complete(k);
    var k2 := PutBit(s.variadic, k1);
    assert Complete(k2) <==> Complete(k1);
    ParamsWhole(a, s.results, k2);
    var k3 := PutLen(|s.results|, PutParams(a, s.results, k2));
    assert Complete(k3) <==> Complete(PutParams(a, s.results, k2));
    ParamsWhole(a, s.params, k3);
  }

  lemma LitRefWhole(a: Archive, l: LitRef, k: Stream)
    ensures Complete(PutLitRef(a, l, k)) <==> CanSignature(a, l.sig) && Complete(k)
  {
    var k1 := PutRef(Section.Bodies, l.body, k);
    assert Complete(k1) <==> Complete(k);
    CapturesWhole(l.captures, k1);
    var k2 := PutLen(|l.captures|, PutCaptures(l.captures, k1));
    assert Complete(k2) <==> Complete(k1);
    SignatureWhole(a, l.sig, k2);
    PosWhole(l.pos, PutSignature(a, l.sig, k2));
  }

  // ----- Lists -----

  lemma FirstAndRest<T>(xs: seq<T>)
    requires xs != []
    ensures forall i {:trigger xs[i]} :: 0 < i < |xs| ==> xs[1..][i - 1] == xs[i]
    ensures forall i {:trigger xs[1..][i]} :: 0 <= i < |xs| - 1 ==> xs[i + 1] == xs[1..][i]
  {
  }

  lemma StmtsSplit(a: Archive, ss: seq<Stmt>)
    requires ss != []
    ensures CanStmts(a, ss) <==> CanStmt(a, ss[0]) && CanStmts(a, ss[1..])
  {
    FirstAndRest(ss);
    if CanStmt(a, ss[0]) && CanStmts(a, ss[1..]) {
      forall i | 0 <= i < |ss| ensures CanStmt(a, ss[i]) { if i > 0 { assert CanStmt(a, ss[1..][i - 1]); } }
    }
  }

  lemma ExprsSplit(a: Archive, es: seq<Expr>)
    requires es != []
    ensures CanExprs(a, es) <==> CanExpr(a, es[0]) && CanExprs(a, es[1..])
  {
    FirstAndRest(es);
    if CanExpr(a, es[0]) && CanExprs(a, es[1..]) {
      forall i | 0 <= i < |es| ensures CanExpr(a, es[i]) { if i > 0 { assert CanExpr(a, es[1..][i - 1]); } }
    }
  }

  lemma AssigneesSplit(a: Archive, xs: seq<Assignee>)
    requires xs != []
    ensures CanAssignees(a, xs) <==> CanAssignee(a, xs[0]) && CanAssignees(a, xs[1..])
  {
    FirstAndRest(xs);
    if CanAssignee(a, xs[0]) && CanAssignees(a, xs[1..]) {
      forall i | 0 <= i < |xs| ensures CanAssignee(a, xs[i]) { if i > 0 { assert CanAssignee(a, xs[1..][i - 1]); } }
    }
  }

  /** What is asked of the clauses from one on: `first` has no clause before it. */
  ghost predicate ClausesFrom(a: Archive, cs: seq<Clause>, guard: bool, named: bool, first: bool) {
    && (forall i :: 0 <= i < |cs| && (i > 0 || !first) ==> cs[i].scope.close.Some?)
    && (named ==> forall i :: 0 <= i < |cs| ==> cs[i].variable.Some?)
    && (forall i :: 0 <= i < |cs| ==> CanClause(a, cs[i], guard))
  }

  lemma ClausesSplit(a: Archive, cs: seq<Clause>, guard: bool, named: bool, first: bool)
    requires cs != []
    ensures ClausesFrom(a, cs, guard, named, first) <==>
              && (first || cs[0].scope.close.Some?) && (named ==> cs[0].variable.Some?) && CanClause(a, cs[0], guard)
              && ClausesFrom(a, cs[1..], guard, named, false)
  {
    FirstAndRest(cs);
    var rest := cs[1..];
    if ClausesFrom(a, cs, guard, named, first) {
      forall i | 0 <= i < |rest| ensures rest[i].scope.close.Some? && (named ==> rest[i].variable.Some?) && CanClause(a, rest[i], guard) {
        assert rest[i] == cs[i + 1];
      }
    }
    if ClausesFrom(a, rest, guard, named, false) {
      forall i | 0 < i < |cs| ensures cs[i].scope.close.Some? && (named ==> cs[i].variable.Some?) && CanClause(a, cs[i], guard) {
        assert cs[i] == rest[i - 1];
      }
    }
  }

  ghost predicate CommsFrom(a: Archive, cs: seq<CommClause>, first: bool) {
    && (forall i :: 0 <= i < |cs| && (i > 0 || !first) ==> cs[i].scope.close.Some?)
    && (forall i :: 0 <= i < |cs| ==> CanComm(a, cs[i]))
  }

  lemma CommsSplit(a: Archive, cs: seq<CommClause>, first: bool)
    requires cs != []
    ensures CommsFrom(a, cs, first) <==>
              (first || cs[0].scope.close.Some?) && CanComm(a, cs[0]) && CommsFrom(a, cs[1..], false)
  {
    FirstAndRest(cs);
    var rest := cs[1..];
    if CommsFrom(a, cs, first) {
      forall i | 0 <= i < |rest| ensures rest[i].scope.close.Some? && CanComm(a, rest[i]) { assert rest[i] == cs[i + 1]; }
    }
    if CommsFrom(a, rest, false) {
      forall i | 0 < i < |cs| ensures cs[i].scope.close.Some? && CanComm(a, cs[i]) { assert cs[i] == rest[i - 1]; }
    }
  }

  /** What is asked of the elements from the j'th on. */
  ghost predicate ElemsFrom(a: Archive, t: TypeUse, keyed: bool, es: seq<LitElem>, j: nat) {
    forall i :: 0 <= i < |es| ==> CanElem(a, t, keyed, es[i], i + j)
  }

  lemma ElemsSplit(a: Archive, t: TypeUse, keyed: bool, es: seq<LitElem>, j: nat)
    requires es != []
    ensures ElemsFrom(a, t, keyed, es, j) <==> CanElem(a, t, keyed, es[0], j) && ElemsFrom(a, t, keyed, es[1..], j + 1)
  {
    var rest := es[1..];
    if ElemsFrom(a, t, keyed, es, j) {
      assert CanElem(a, t, keyed, es[0], 0 + j);
      forall i | 0 <= i < |rest| ensures CanElem(a, t, keyed, rest[i], i + (j + 1)) {
        assert CanElem(a, t, keyed, es[i + 1], (i + 1) + j);
      }
    }
    if CanElem(a, t, keyed, es[0], j) && ElemsFrom(a, t, keyed, rest, j + 1) {
      forall i | 0 <= i < |es| ensures CanElem(a, t, keyed, es[i], i + j) {
        if i > 0 { assert CanElem(a, t, keyed, rest[i - 1], (i - 1) + (j + 1)); }
      }
    }
  }

  // ----- Statements -----

  lemma {:induction false} StmtsWhole(a: Archive, ss: seq<Stmt>, k: Stream)
    ensures Complete(PutStmts(a, ss, k)) <==> CanStmts(a, ss) && Complete(k)
    decreases ss, 0
  {
    if ss != [] {
      StmtsSplit(a, ss);
      StmtsWhole(a, ss[1..], k);
      StmtWhole(a, ss[0], PutStmts(a, ss[1..], k));
    }
  }

  lemma {:induction false} StmtWhole(a: Archive, s: Stmt, k: Stream)
    ensures Complete(PutStmt(a, s, k)) <==> CanStmt(a, s) && Complete(k)
    decreases s, 3
  {
    if IsSimple(s) { SimpleWhole(a, s, k); }
    else if IsPlaced(s) { PlacedWhole(a, s, k); }
    else if s.AssignStmt? { AssignWhole(a, s, k); }
    else if s.CallStmt? { CallStmtWhole(a, s, k); }
    else if s.IfStmt? { IfWhole(a, s, k); }
    else if s.ForStmt? { ForWhole(a, s, k); }
    else if s.SwitchStmt? { SwitchWhole(a, s, k); }
    else { SelectWhole(a, s, k); }
  }

  lemma {:induction false} SimpleWhole(a: Archive, s: Stmt, k: Stream)
    requires IsSimple(s)
    ensures Complete(PutSimple(a, s, k)) <==> CanStmt(a, s) && Complete(k)
    decreases s, 0
  {
    match s
    case BlockStmt(b) => BlockWhole(a, b, k);
    case ExprStmt(x) => ExprWhole(a, x, k);
    case AssignOpStmt(op, dst, p, src) =>
      ExprWhole(a, src, k);
      PosWhole(p, PutExpr(a, src, k));
      ExprWhole(a, dst, PutPos(p, PutExpr(a, src, k)));
      OpWhole(op, PutExpr(a, dst, PutPos(p, PutExpr(a, src, k))));
    case IncDecStmt(op, x, p) =>
      PosWhole(p, k);
      ExprWhole(a, x, PutPos(p, k));
      OpWhole(op, PutExpr(a, x, PutPos(p, k)));
  }

  lemma {:induction false} PlacedWhole(a: Archive, s: Stmt, k: Stream)
    requires IsPlaced(s)
    ensures Complete(PutPlaced(a, s, k)) <==> CanStmt(a, s) && Complete(k)
    decreases s, 0
  {
    match s
    case LabelStmt(p, name) => PosWhole(p, PutStr(a, name, k));
    case SendStmt(p, ch, v) =>
      ExprWhole(a, v, k);
      ExprWhole(a, ch, PutExpr(a, v, k));
      PosWhole(p, PutExpr(a, ch, PutExpr(a, v, k)));
    case BranchStmt(p, op, t) =>
      OpWhole(op, PutTarget(a, t, k));
      PosWhole(p, PutOp(op, PutTarget(a, t, k)));
      assert Complete(PutTarget(a, t, k)) <==> (t.Some? ==> t.value in a.strIdx) && Complete(k);
    case ReturnStmt(p, rs) =>
      MultiWhole(a, rs, k);
      PosWhole(p, PutMulti(a, rs, k));
  }

  lemma {:induction false} AssignWhole(a: Archive, s: Stmt, k: Stream)
    requires s.AssignStmt?
    ensures Complete(PutAssign(a, s, k)) <==> CanStmt(a, s) && Complete(k)
    decreases s, 0
  {
    MultiWhole(a, s.rhs, k);
    AssigneesWhole(a, s.lhs, PutMulti(a, s.rhs, k));
    PosWhole(s.pos, PutLen(|s.lhs|, PutAssignees(a, s.lhs, PutMulti(a, s.rhs, k))));
  }

  lemma {:induction false} CallStmtWhole(a: Archive, s: Stmt, k: Stream)
    requires s.CallStmt?
    ensures Complete(PutCallStmt(a, s, k)) <==> CanStmt(a, s) && Complete(k)
    decreases s, 0
  {
    var k1 := if s.op == OP_DEFER then PutOpt(a, s.deferAt, k) else k;
    OptWhole(a, s.deferAt, k);
    ExprWhole(a, s.call, k1);
    OpWhole(s.op, PutExpr(a, s.call, k1));
    PosWhole(s.pos, PutOp(s.op, PutExpr(a, s.call, k1)));
  }

  lemma {:induction false} BlockWhole(a: Archive, b: Block, k: Stream)
    ensures Complete(PutBlock(a, b, k)) <==> CanStmts(a, b.body) && Complete(k)
    decreases b, 0
  {
    PosWhole(b.close, k);
    StmtsWhole(a, b.body, PutPos(b.close, k));
    PosWhole(b.open, PutStmts(a, b.body, PutPos(b.close, k)));
  }

  lemma {:induction false} IfWhole(a: Archive, s: Stmt, k: Stream)
    requires s.IfStmt?
    ensures Complete(PutIf(a, s, k)) <==> CanStmt(a, s) && Complete(k)
    decreases s, 0
  {
    var k1 := PutArms(a, s.known, s.arms, k);
    ArmsWhole(a, s.known, s.arms, k);
    var k2 := PutInt(s.known, k1);
    assert Complete(k2) <==> Complete(k1);
    ExprWhole(a, s.cond, k2);
    StmtsWhole(a, s.init, PutExpr(a, s.cond, k2));
    PosWhole(s.pos, PutStmts(a, s.init, PutExpr(a, s.cond, k2)));
    PosWhole(s.open, PutPos(s.pos, PutStmts(a, s.init, PutExpr(a, s.cond, k2))));
  }

  lemma {:induction false} ArmsWhole(a: Archive, known: int, arms: Arms, k: Stream)
    ensures Complete(PutArms(a, known, arms, k)) <==>
              && (known >= 0 ==> arms.thn.Some? && CanStmts(a, arms.thn.value.body))
              && (known <= 0 ==> CanStmts(a, arms.els)) && Complete(k)
    decreases arms, 0
  {
    var k1 := if known <= 0 then PutStmts(a, arms.els, k) else k;
    if known <= 0 { StmtsWhole(a, arms.els, k); }
    if known < 0 { PosWhole(arms.thenClose, k1); }
    else if arms.thn.Some? { BlockWhole(a, arms.thn.value, k1); }
  }

  lemma {:induction false} ForWhole(a: Archive, s: Stmt, k: Stream)
    requires s.ForStmt?
    ensures Complete(PutFor(a, s, k)) <==> CanStmt(a, s) && Complete(k)
    decreases s, 0
  {
    var k1 := PutBit(s.distinctVars, k);
    assert Complete(k1) <==> Complete(k);
    BlockWhole(a, s.body, k1);
    HeadWhole(a, s.head, PutBlock(a, s.body, k1));
    PosWhole(s.open, PutHead(a, s.head, PutBlock(a, s.body, k1)));
  }

  lemma {:induction false} HeadWhole(a: Archive, h: ForHead, k: Stream)
    ensures Complete(PutHead(a, h, k)) <==> CanHead(a, h) && Complete(k)
    decreases h, 1
  {
    if h.Range? { RangeWhole(a, h, k); } else {
      StmtsWhole(a, h.post, k);
      OptWhole(a, h.cond, PutStmts(a, h.post, k));
      StmtsWhole(a, h.init, PutOpt(a, h.cond, PutStmts(a, h.post, k)));
      PosWhole(h.pos, PutStmts(a, h.init, PutOpt(a, h.cond, PutStmts(a, h.post, k))));
    }
  }

  lemma {:induction false} RangeWhole(a: Archive, h: ForHead, k: Stream)
    requires h.Range?
    ensures Complete(PutRange(a, h, k)) <==> CanHead(a, h) && Complete(k)
    decreases h, 0
  {
    var k0 := PutOptConv(Assigns(h.lhs, 1), h.convs.value, k);
    OptConvWhole(Assigns(h.lhs, 1), h.convs.value, k);
    OptConvWhole(Assigns(h.lhs, 0), h.convs.key, k0);
    var k1 := PutRangeConvs(h.lhs, h.convs, k);
    MapWhole(a, h.x, h.mapRType, k1);
    var k2 := PutMapRType(a, TypeOf(h.x), h.mapRType, k1);
    ExprWhole(a, h.x, k2);
    AssigneesWhole(a, h.lhs, PutExpr(a, h.x, k2));
    PosWhole(h.pos, PutLen(|h.lhs|, PutAssignees(a, h.lhs, PutExpr(a, h.x, k2))));
  }

  lemma {:induction false} SwitchWhole(a: Archive, s: Stmt, k: Stream)
    requires s.SwitchStmt?
    ensures Complete(PutSwitch(a, s, k)) <==> CanStmt(a, s) && Complete(k)
    decreases s, 0
  {
    SwitchCasesWhole(a, s.cases, k);
    StmtsWhole(a, s.init, PutSwitchCases(a, s.cases, k));
    PosWhole(s.pos, PutStmts(a, s.init, PutSwitchCases(a, s.cases, k)));
    PosWhole(s.open, PutPos(s.pos, PutStmts(a, s.init, PutSwitchCases(a, s.cases, k))));
  }

  lemma {:induction false} SwitchCasesWhole(a: Archive, c: Cases, k: Stream)
    ensures Complete(PutSwitchCases(a, c, k)) <==> CanCases(a, c) && Complete(k)
    decreases c, 0
  {
    var guard, named := c.tag.Guard?, c.tag.Guard? && c.tag.name.Some?;
    var k1 := PutPos(c.close, k);
    PosWhole(c.close, k);
    var k2 := if c.clauses == [] then k1 else PutPos(c.clausesClose, k1);
    PosWhole(c.clausesClose, k1);
    ClausesWhole(a, c.clauses, guard, named, true, k2);
    var k3 := PutLen(|c.clauses|, PutClauses(a, c.clauses, guard, named, true, k2));
    assert Complete(k3) <==> Complete(PutClauses(a, c.clauses, guard, named, true, k2));
    TagWhole(a, c.tag, k3);
    assert CanCases(a, c) <==> CanTag(a, c.tag) && ClausesFrom(a, c.clauses, guard, named, true);
  }

  ghost predicate CanTag(a: Archive, t: SwitchTag) {
    && (t.Guard? ==> CanExpr(a, t.x) && (t.name.Some? ==> CanName(a, t.name.value.sel)))
    && (t.Tag? ==> CanOpt(a, t.tag))
  }

  lemma {:induction false} TagWhole(a: Archive, t: SwitchTag, k: Stream)
    ensures Complete(PutTag(a, t, k)) <==> CanTag(a, t) && Complete(k)
    decreases t, 0
  {
    match t
    case Guard(p, name, x) =>
      var k1 := PutExpr(a, x, k);
      ExprWhole(a, x, k);
      var k2 := if name.Some? then PutPos(name.value.pos, PutSelector(a, name.value.sel, k1)) else k1;
      if name.Some? {
        NameWhole(a, name.value.sel, k1);
        PosWhole(name.value.pos, PutSelector(a, name.value.sel, k1));
      }
      PosWhole(p, PutBit(name.Some?, k2));
    case Tag(x) => OptWhole(a, x, k);
  }

  lemma ScopeWhole(s: Scope, first: bool, k: Stream)
    ensures Complete(PutScope(s, first, k)) <==> (first || s.close.Some?) && Complete(k)
  {
    var k1 := PutPos(s.open, PutPos(s.pos, k));
    PosWhole(s.pos, k);
    PosWhole(s.open, PutPos(s.pos, k));
    if s.close.Some? { PosWhole(s.close.value, k1); }
  }

  lemma {:induction false} ClausesWhole(a: Archive, cs: seq<Clause>, guard: bool, named: bool, first: bool, k: Stream)
    ensures Complete(PutClauses(a, cs, guard, named, first, k)) <==> ClausesFrom(a, cs, guard, named, first) && Complete(k)
    decreases cs, 0
  {
    if cs != [] {
      var k1 := PutClauses(a, cs[1..], guard, named, false, k);
      ClausesWhole(a, cs[1..], guard, named, false, k);
      ClauseWhole(a, cs[0], guard, named, first, k1);
      ClausesSplit(a, cs, guard, named, first);
    }
  }

  lemma {:induction false} ClauseWhole(a: Archive, c: Clause, guard: bool, named: bool, first: bool, k: Stream)
    ensures Complete(PutClause(a, c, guard, named, first, k)) <==>
              && (first || c.scope.close.Some?) && (named ==> c.variable.Some?) && CanClause(a, c, guard) && Complete(k)
    decreases c, 0
  {
    var k1 := PutStmts(a, c.body, k);
    StmtsWhole(a, c.body, k);
    ClauseVarWhole(named, c.variable, k1);
    var k2 := PutClauseVar(named, c.variable, k1);
    if guard { CasesWhole(c.tests.types, k2); } else { ExprsWhole(a, c.tests.exprs, k2); }
    assert Complete(PutTests(a, guard, c.tests, k2)) <==> (guard || CanExprs(a, c.tests.exprs)) && Complete(k2);
    ScopeWhole(c.scope, first, PutTests(a, guard, c.tests, k2));
  }

  lemma ClauseVarWhole(named: bool, v: Option<ClauseVar>, k: Stream)
    ensures Complete(PutClauseVar(named, v, k)) <==> (named ==> v.Some?) && Complete(k)
  {
    if named && v.Some? {
      SlotWhole(v.value.local.slot, k);
      TypeWhole(v.value.typ, PutLocal(v.value.local, k));
      PosWhole(v.value.pos, PutType(v.value.typ, PutLocal(v.value.local, k)));
    }
  }

  lemma {:induction false} SelectWhole(a: Archive, s: Stmt, k: Stream)
    requires s.SelectStmt?
    ensures Complete(PutSelect(a, s, k)) <==> CanStmt(a, s) && Complete(k)
    decreases s, 0
  {
    var k1 := if s.comms == [] then k else PutPos(s.close, k);
    PosWhole(s.close, k);
    CommsWhole(a, s.comms, true, k1);
    PosWhole(s.pos, PutLen(|s.comms|, PutComms(a, s.comms, true, k1)));
    assert CanComms(a, s.comms) <==> CommsFrom(a, s.comms, true);
  }

  lemma {:induction false} CommsWhole(a: Archive, cs: seq<CommClause>, first: bool, k: Stream)
    ensures Complete(PutComms(a, cs, first, k)) <==> CommsFrom(a, cs, first) && Complete(k)
    decreases cs, 0
  {
    if cs != [] {
      var k1 := PutComms(a, cs[1..], false, k);
      CommsWhole(a, cs[1..], false, k);
      CommWhole(a, cs[0], first, k1);
      CommsSplit(a, cs, first);
    }
  }

  lemma {:induction false} CommWhole(a: Archive, c: CommClause, first: bool, k: Stream)
    ensures Complete(PutComm(a, c, first, k)) <==> (first || c.scope.close.Some?) && CanComm(a, c) && Complete(k)
    decreases c, 0
  {
    StmtsWhole(a, c.body, k);
    StmtsWhole(a, c.comm, PutStmts(a, c.body, k));
    ScopeWhole(c.scope, first, PutStmts(a, c.comm, PutStmts(a, c.body, k)));
  }

  lemma {:induction false} AssigneesWhole(a: Archive, xs: seq<Assignee>, k: Stream)
    ensures Complete(PutAssignees(a, xs, k)) <==> CanAssignees(a, xs) && Complete(k)
    decreases xs, 0
  {
    if xs != [] {
      AssigneesWhole(a, xs[1..], k);
      AssigneeWhole(a, xs[0], PutAssignees(a, xs[1..], k));
      AssigneesSplit(a, xs);
    }
  }

  lemma {:induction false} AssigneeWhole(a: Archive, x: Assignee, k: Stream)
    ensures Complete(PutAssignee(a, x, k)) <==> CanAssignee(a, x) && Complete(k)
    decreases x, 0
  {
    match x
    case Blank =>
    case Def(p, name, t, l) =>
      SlotWhole(l.slot, k);
      TypeWhole(t, PutLocal(l, k));
      NameWhole(a, name, PutType(t, PutLocal(l, k)));
      PosWhole(p, PutSelector(a, name, PutType(t, PutLocal(l, k))));
    case Dest(e) => ExprWhole(a, e, k);
  }

  lemma {:induction false} MultiWhole(a: Archive, m: MultiExpr, k: Stream)
    ensures Complete(PutMulti(a, m, k)) <==> CanMulti(a, m) && Complete(k)
    decreases m, 0
  {
    match m
    case Single(p, x, rs) =>
      ResultsWhole(rs, k);
      var k1 := PutLen(|rs|, PutResults(rs, k));
      assert Complete(k1) <==> Complete(k);
      ExprWhole(a, x, k1);
      PosWhole(p, PutExpr(a, x, k1));
    case Each(es) =>
      ExprsWhole(a, es, k);
      assert Complete(PutLen(|es|, PutExprs(a, es, k))) <==> Complete(PutExprs(a, es, k));
  }

  // ----- Expressions -----

  lemma {:induction false} ExprsWhole(a: Archive, es: seq<Expr>, k: Stream)
    ensures Complete(PutExprs(a, es, k)) <==> CanExprs(a, es) && Complete(k)
    decreases es, 0
  {
    if es != [] {
      ExprsWhole(a, es[1..], k);
      ExprWhole(a, es[0], PutExprs(a, es[1..], k));
      ExprsSplit(a, es);
    }
  }

  lemma {:induction false} OptWhole(a: Archive, e: Option<Expr>, k: Stream)
    ensures Complete(PutOpt(a, e, k)) <==> CanOpt(a, e) && Complete(k)
    decreases e, 0
  {
    if e.Some? { ExprWhole(a, e.value, k); }
  }

  lemma {:induction false} ExprWhole(a: Archive, e: Expr, k: Stream)
    ensures Complete(PutExpr(a, e, k)) <==> CanExpr(a, e) && Complete(k)
    decreases e, 0
  {
    NodeWhole(a, e.node, k);
    var k1 := PutCode(ExprCode(e.node), PutNode(a, e.node, k));
    assert Complete(k1) <==> Complete(PutNode(a, e.node, k));
    if e.reshape.Some? { TypeWhole(e.reshape.value, k1); }
  }

  lemma {:induction false} NodeWhole(a: Archive, n: Node, k: Stream)
    ensures Complete(PutNode(a, n, k)) <==> CanNode(a, n) && Complete(k)
    decreases n, 3
  {
    if IsAtom(n) {
      AtomWhole(a, n, k);
    } else if IsSelection(n) {
      SelectionWhole(a, n, k);
      assert PutCompound(a, n, k) == PutOperand(a, n, k);
    } else if IsAccess(n) {
      AccessWhole(a, n, k);
      assert PutCompound(a, n, k) == PutOperand(a, n, k);
    } else if IsOperation(n) {
      OperationWhole(a, n, k);
    } else if n.Call? {
      CallWhole(a, n, k);
    } else if n.CompLit? {
      LitWhole(a, n, k);
      assert PutCompound(a, n, k) == PutMaker(a, n, k);
    } else {
      MakerWhole(a, n, k);
      assert PutCompound(a, n, k) == PutMaker(a, n, k);
    }
  }

  lemma AtomWhole(a: Archive, n: Node, k: Stream)
    requires IsAtom(n)
    ensures Complete(PutAtom(a, n, k)) <==> CanNode(a, n) && Complete(k)
  {
    if n.FuncLit? { LitRefWhole(a, n.lit, k); }
    else if n.MethodExpr? {
      MethodWhole(a, n.method_, k);
      PosWhole(n.pos, PutMethod(a, n.method_, k));
      PathWhole(n.path, PutPos(n.pos, PutMethod(a, n.method_, k)));
      TypeWhole(n.recv, PutPath(n.path, PutPos(n.pos, PutMethod(a, n.method_, k))));
    } else if IsTypedLeaf(n) { TypedLeafWhole(a, n, k); }
    else {
      match n
      case LocalUse(_, i) => assert Complete(PutLen(i, k)) <==> Complete(k);
      case Global(o) => ObjWhole(o, k);
      case FuncInstRef(p, f) =>
        InstWhole(f, k);
        PosWhole(p, PutInst(f, k));
      case RuntimeBuiltin(name) =>
    }
  }

  lemma TypedLeafWhole(a: Archive, n: Node, k: Stream)
    requires IsTypedLeaf(n)
    ensures Complete(PutTypedLeaf(a, n, k)) <==> CanNode(a, n) && Complete(k)
  {
    var k1 :=
      if n.Const? then PutValue(a, n.value, k)
      else if !n.Offsetof? then k
      else if n.fields == [] then Refused
      else PutLen(|n.fields| - 1, PutLens(n.fields, k));
    if n.Const? { ValueWhole(a, n.value, k); }
    else if n.Offsetof? && n.fields != [] { LensWhole(n.fields, k); }
    TypeWhole(n.typ, k1);
    PosWhole(n.pos, PutType(n.typ, k1));
  }

  lemma {:induction false} SelectionWhole(a: Archive, n: Node, k: Stream)
    requires IsSelection(n)
    ensures Complete(PutSelection(a, n, k)) <==> CanNode(a, n) && Complete(k)
    decreases n, 0
  {
    match n
    case FieldVal(x, p, sel) =>
      NameWhole(a, sel, k);
      PosWhole(p, PutSelector(a, sel, k));
      ExprWhole(a, x, PutPos(p, PutSelector(a, sel, k)));
    case MethodVal(x, p, m) =>
      MethodWhole(a, m, k);
      PosWhole(p, PutMethod(a, m, k));
      ExprWhole(a, x, PutPos(p, PutMethod(a, m, k)));
    case Recv(x, p, path) =>
      PathWhole(path, k);
      PosWhole(p, PutPath(path, k));
      ExprWhole(a, x, PutPos(p, PutPath(path, k)));
  }

  lemma {:induction false} AccessWhole(a: Archive, n: Node, k: Stream)
    requires IsAccess(n)
    ensures Complete(PutAccess(a, n, k)) <==> CanNode(a, n) && Complete(k)
    decreases n, 0
  {
    match n
    case Index(x, p, i, m) =>
      MapWhole(a, x, m, k);
      var k1 := PutMapRType(a, TypeOf(x), m, k);
      ExprWhole(a, i, k1);
      PosWhole(p, PutExpr(a, i, k1));
      ExprWhole(a, x, PutPos(p, PutExpr(a, i, k1)));
    case Slice(x, p, lo, hi, max) =>
      OptWhole(a, max, k);
      OptWhole(a, hi, PutOpt(a, max, k));
      OptWhole(a, lo, PutOpt(a, hi, PutOpt(a, max, k)));
      PosWhole(p, PutOpt(a, lo, PutOpt(a, hi, PutOpt(a, max, k))));
      ExprWhole(a, x, PutPos(p, PutOpt(a, lo, PutOpt(a, hi, PutOpt(a, max, k)))));
    case Assert(x, p, t, src) =>
      RTypeWhole(src, k);
      ExprTypeWhole(t, PutRType(src, k));
      PosWhole(p, PutExprType(t, PutRType(src, k)));
      ExprWhole(a, x, PutPos(p, PutExprType(t, PutRType(src, k))));
  }

  lemma {:induction false} OperationWhole(a: Archive, n: Node, k: Stream)
    requires IsOperation(n)
    ensures Complete(PutOperation(a, n, k)) <==> CanNode(a, n) && Complete(k)
    decreases n, 0
  {
    match n
    case Unary(op, p, x) =>
      ExprWhole(a, x, k);
      PosWhole(p, PutExpr(a, x, k));
      OpWhole(op, PutPos(p, PutExpr(a, x, k)));
    case Binary(op, x, p, y) =>
      ExprWhole(a, y, k);
      PosWhole(p, PutExpr(a, y, k));
      ExprWhole(a, x, PutPos(p, PutExpr(a, y, k)));
      OpWhole(op, PutExpr(a, x, PutPos(p, PutExpr(a, y, k))));
  }

  lemma NeedsIs(a: Archive, c: Callee)
    ensures NeedsRType(a, c) <==> CallsForType(a, c)
  {
  }

  lemma {:induction false} CallWhole(a: Archive, n: Node, k: Stream)
    requires n.Call?
    ensures Complete(PutCall(a, n, k)) <==> CanNode(a, n) && Complete(k)
    decreases n, 0
  {
    NeedsIs(a, n.callee);
    OptRTypeWhole(NeedsRType(a, n.callee), n.rtype, k);
    var k1 := PutBit(n.dots, PutOptRType(NeedsRType(a, n.callee), n.rtype, k));
    assert Complete(k1) <==> Complete(PutOptRType(NeedsRType(a, n.callee), n.rtype, k));
    MultiWhole(a, n.args, k1);
    PosWhole(n.pos, PutMulti(a, n.args, k1));
    CalleeWhole(a, n.callee, PutPos(n.pos, PutMulti(a, n.args, k1)));
  }

  lemma {:induction false} CalleeWhole(a: Archive, c: Callee, k: Stream)
    ensures Complete(PutCallee(a, c, k)) <==> CanCallee(a, c) && Complete(k)
    decreases c, 0
  {
    match c
    case MethodCall(x, m) =>
      MethodWhole(a, m, k);
      ExprWhole(a, x, PutMethod(a, m, k));
    case InstCall(p, f) =>
      InstWhole(f, k);
      PosWhole(p, PutInst(f, k));
      assert Complete(PutBit(true, PutPos(p, PutInst(f, k)))) <==> Complete(PutPos(p, PutInst(f, k)));
    case FunCall(x) =>
      ExprWhole(a, x, k);
      assert Complete(PutBit(false, PutExpr(a, x, k))) <==> Complete(PutExpr(a, x, k));
  }

  lemma {:induction false} MakerWhole(a: Archive, n: Node, k: Stream)
    requires IsMaker(n) && !n.CompLit?
    ensures Complete(PutMaker(a, n, k)) <==> CanNode(a, n) && Complete(k)
    decreases n, 0
  {
    match n
    case Make(p, t, args, r) =>
      RTypeWhole(r, k);
      ExprsWhole(a, args, PutRType(r, k));
      var k1 := PutLen(|args|, PutExprs(a, args, PutRType(r, k)));
      assert Complete(k1) <==> Complete(PutExprs(a, args, PutRType(r, k)));
      ExprTypeWhole(t, k1);
      PosWhole(p, PutExprType(t, k1));
    case NewValue(p, x) =>
      ExprWhole(a, x, k);
      PosWhole(p, PutBit(true, PutExpr(a, x, k)));
    case NewType(p, t) =>
      ExprTypeWhole(t, k);
      PosWhole(p, PutBit(false, PutExprType(t, k)));
    case Convert(implicit, t, p, c, tp, same, x) =>
      ExprWhole(a, x, k);
      var k1 := PutBit(same, PutExpr(a, x, k));
      assert Complete(k1) <==> Complete(PutExpr(a, x, k));
      var k2 := PutBit(tp, k1);
      assert Complete(k2) <==> Complete(k1);
      ConvWhole(c, k2);
      PosWhole(p, PutConv(c, k2));
      TypeWhole(t, PutPos(p, PutConv(c, k2)));
  }

  // ----- Literals -----

  lemma MakesIs(a: Archive, t: TypeUse, c: Core)
    requires Builds(c)
    ensures Makes(a, t, c) <==> LitCore(a, t) == c
  {
  }

  lemma {:induction false} LitWhole(a: Archive, n: Node, k: Stream)
    requires n.CompLit?
    ensures Complete(PutLit(a, n, k)) <==> CanNode(a, n) && Complete(k)
    decreases n, 0
  {
    var core := LitCore(a, n.typ);
    MakesIs(a, n.typ, MapCore);
    MakesIs(a, n.typ, ListCore);
    MakesIs(a, n.typ, StructCore);
    var k1 := if Builds(core) then PutElems(a, n.elems, core, n.keyed, 0, k) else Refused;
    if Builds(core) {
      ElemsWhole(a, n.elems, n.typ, core, n.keyed, 0, k);
      ElemsFromNone(a, n.typ, n.keyed, n.elems);
    }
    assert Complete(k1) <==> Builds(core) && CanElems(a, n.typ, n.keyed, n.elems) && Complete(k);
    var k2 := PutInt(if n.keyed then -|n.elems| else |n.elems|, k1);
    assert Complete(k2) <==> Complete(k1);
    OptRTypeWhole(core.MapCore?, n.mapRType, k2);
    TypeWhole(n.typ, PutOptRType(core.MapCore?, n.mapRType, k2));
    PosWhole(n.pos, PutType(n.typ, PutOptRType(core.MapCore?, n.mapRType, k2)));
  }

  lemma ElemsFromNone(a: Archive, t: TypeUse, keyed: bool, es: seq<LitElem>)
    ensures ElemsFrom(a, t, keyed, es, 0) <==> CanElems(a, t, keyed, es)
  {
    if ElemsFrom(a, t, keyed, es, 0) {
      forall i | 0 <= i < |es| ensures CanElem(a, t, keyed, es[i], i) { assert CanElem(a, t, keyed, es[i], i + 0); }
    }
  }

  lemma {:induction false} ElemsWhole(a: Archive, es: seq<LitElem>, t: TypeUse, core: Core, keyed: bool, i: nat, k: Stream)
    requires Builds(core) && LitCore(a, t) == core
    ensures Complete(PutElems(a, es, core, keyed, i, k)) <==> ElemsFrom(a, t, keyed, es, i) && Complete(k)
    decreases es, 0
  {
    if es != [] {
      ElemsWhole(a, es[1..], t, core, keyed, i + 1, k);
      ElemWhole(a, es[0], t, core, keyed, i, PutElems(a, es[1..], core, keyed, i + 1, k));
      ElemsSplit(a, t, keyed, es, i);
    }
  }

  lemma {:induction false} ElemWhole(a: Archive, e: LitElem, t: TypeUse, core: Core, keyed: bool, i: nat, k: Stream)
    requires Builds(core) && LitCore(a, t) == core
    ensures Complete(PutElem(a, e, core, keyed, i, k)) <==> CanElem(a, t, keyed, e, i) && Complete(k)
    decreases e, 1
  {
    MakesIs(a, t, MapCore);
    MakesIs(a, t, ListCore);
    MakesIs(a, t, StructCore);
    var k1 := PutExpr(a, e.value, k);
    ExprWhole(a, e.value, k);
    match core
    case MapCore =>
      if e.key.Some? { ExprWhole(a, e.key.value, k1); }
      PosWhole(e.pos, if e.key.None? then Refused else PutExpr(a, e.key.value, k1));
    case ListCore =>
      if e.key.Some? {
        ExprWhole(a, e.key.value, k1);
        PosWhole(e.pos, PutExpr(a, e.key.value, k1));
      }
    case StructCore =>
      IntsWhole(e.embedded, k1);
      PosWhole(e.pos,
        if !keyed then if e.field == i then k1 else Refused
        else if e.embedded != [] then PutInt(-|e.embedded|, PutInts(e.embedded, k1))
        else PutInt(e.field, k1));
  }

  // ----- The element -----

  /** A body has a whole encoding exactly when it can be written. */
  lemma BodyWhole(a: Archive, b: Body)
    ensures Complete(PutBody(a, b)) <==> CanBody(a, b)
  {
    var k := if b.block.Some? then PutBit(true, PutStmts(a, b.block.value.stmts, PutPos(b.block.value.rbrace, End)))
             else PutBit(false, End);
    if b.block.Some? {
      PosWhole(b.block.value.rbrace, End);
      StmtsWhole(a, b.block.value.stmts, PutPos(b.block.value.rbrace, End));
    }
    LocalsWhole(b.params, k);
  }

  // ----- What the tokens are -----

  predicate Begins(s: Stream, code: nat) { s.Cons? && s.head == Code(code) }

  /** A statement begins with its number in the list of codes, and the end of a
      list of statements has number 0. */
  lemma StatementNumbers(a: Archive, ss: seq<Stmt>, k: Stream)
    requires ss != []
    ensures PutStmts(a, [], k) == Cons(Code(0), k)
    ensures ss[0].LabelStmt? ==> Begins(PutStmts(a, ss, k), 1)
    ensures ss[0].BlockStmt? ==> Begins(PutStmts(a, ss, k), 2)
    ensures ss[0].ExprStmt? ==> Begins(PutStmts(a, ss, k), 3)
    ensures ss[0].SendStmt? ==> Begins(PutStmts(a, ss, k), 4)
    ensures ss[0].AssignStmt? ==> Begins(PutStmts(a, ss, k), 5)
    ensures ss[0].AssignOpStmt? ==> Begins(PutStmts(a, ss, k), 6)
    ensures ss[0].IncDecStmt? ==> Begins(PutStmts(a, ss, k), 7)
    ensures ss[0].BranchStmt? ==> Begins(PutStmts(a, ss, k), 8)
    ensures ss[0].CallStmt? ==> Begins(PutStmts(a, ss, k), 9)
    ensures ss[0].ReturnStmt? ==> Begins(PutStmts(a, ss, k), 10)
    ensures ss[0].IfStmt? ==> Begins(PutStmts(a, ss, k), 11)
    ensures ss[0].ForStmt? ==> Begins(PutStmts(a, ss, k), 12)
    ensures ss[0].SwitchStmt? ==> Begins(PutStmts(a, ss, k), 13)
    ensures ss[0].SelectStmt? ==> Begins(PutStmts(a, ss, k), 14)
  {
  }

  /** So does a node, behind the reshape node with its type if there is one. */
  lemma ExpressionNumbers(a: Archive, n: Node, t: TypeUse, k: Stream)
    ensures var s := PutExpr(a, Expr(None, n), k);
            && PutExpr(a, Expr(Some(t), n), k) == Cons(Code(23), PutType(t, s))
            && (n.Const? ==> Begins(s, 0)) && (n.LocalUse? ==> Begins(s, 1)) && (n.Global? ==> Begins(s, 2))
            && (n.CompLit? ==> Begins(s, 3)) && (n.FuncLit? ==> Begins(s, 4)) && (n.FieldVal? ==> Begins(s, 5))
            && (n.MethodVal? ==> Begins(s, 6)) && (n.MethodExpr? ==> Begins(s, 7)) && (n.Index? ==> Begins(s, 8))
            && (n.Slice? ==> Begins(s, 9)) && (n.Assert? ==> Begins(s, 10)) && (n.Unary? ==> Begins(s, 11))
            && (n.Binary? ==> Begins(s, 12)) && (n.Call? ==> Begins(s, 13)) && (n.Convert? ==> Begins(s, 14))
            && (n.NewValue? ==> Begins(s, 15)) && (n.NewType? ==> Begins(s, 15)) && (n.Make? ==> Begins(s, 16))
            && (n.Sizeof? ==> Begins(s, 17)) && (n.Alignof? ==> Begins(s, 18)) && (n.Offsetof? ==> Begins(s, 19))
            && (n.Zero? ==> Begins(s, 20)) && (n.FuncInstRef? ==> Begins(s, 21)) && (n.Recv? ==> Begins(s, 22))
            && (n.RuntimeBuiltin? ==> Begins(s, 24))
  {
  }

  /** And so do a destination and a constant. */
  lemma LeafNumbers(a: Archive, x: Assignee, v: Scalar, k: Stream)
    ensures var s := PutAssignee(a, x, k);
            (x.Blank? ==> s == Cons(Code(0), k)) && (x.Def? ==> Begins(s, 1)) && (x.Dest? ==> Begins(s, 2))
    ensures var s := PutScalar(a, v, k);
            && (v.BoolValue? ==> Begins(s, 0)) && (v.StringValue? ==> Begins(s, 1)) && (v.IntValue? ==> Begins(s, 2))
            && (v.BigInt? ==> Begins(s, 3)) && (v.BigRat? ==> Begins(s, 4)) && (v.BigFloat? ==> Begins(s, 5))
  {
  }

  /** A call of one of the four builtins ends in the descriptor, behind the dots
      flag, and any other call ends in the flag. A call with a descriptor it
      should not have, or without one it should have, has no whole encoding. */
  lemma DescriptorFollowsDots(a: Archive, n: Node, k: Stream)
    requires n.Call?
    ensures CallsForType(a, n.callee) && n.rtype.Some? ==>
              PutNode(a, n, k) == PutCallee(a, n.callee, PutPos(n.pos, PutMulti(a, n.args,
                Cons(Bit(n.dots), PutRType(n.rtype.value, k)))))
    ensures !CallsForType(a, n.callee) && n.rtype.None? ==>
              PutNode(a, n, k) == PutCallee(a, n.callee, PutPos(n.pos, PutMulti(a, n.args, Cons(Bit(n.dots), k))))
    ensures (n.rtype.Some? <==> !CallsForType(a, n.callee)) ==> !Complete(PutNode(a, n, k))
  {
    NeedsIs(a, n.callee);
    NodeWhole(a, n, k);
    assert PutNode(a, n, k) == PutCompound(a, n, k) == PutCall(a, n, k);
  }
}

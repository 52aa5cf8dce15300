/** What a step of the reader promises.

    From the stream `s` it gets `r` and leaves `k`. If it gets something, that
    is a tree the reader may produce and `s` is its encoding in front of `k`.
    And whenever `s` is the encoding of such a tree in front of anything, the
    step gets that tree and leaves that rest: it neither refuses nor confuses
    it with another. */
module BodyGot {
  import opened Wrappers
  import opened BodyTree
  import opened BodyFormat
  import opened BodyCanonical

  // ----- Leaves -----

  ghost predicate GotBit(s: Stream, r: Option<bool>, k: Stream) {
    && (r.Some? ==> PutBit(r.value, k) == s)
    && (forall x, k' {:trigger PutBit(x, k')} :: PutBit(x, k') == s ==> r == Some(x) && k' == k)
  }

  ghost predicate GotLen(s: Stream, r: Option<nat>, k: Stream) {
    && (r.Some? ==> PutLen(r.value, k) == s)
    && (forall x: nat, k' {:trigger PutLen(x, k')} :: PutLen(x, k') == s ==> r == Some(x) && k' == k)
  }

  ghost predicate GotInt(s: Stream, r: Option<int>, k: Stream) {
    && (r.Some? ==> PutInt(r.value, k) == s)
    && (forall x, k' {:trigger PutInt(x, k')} :: PutInt(x, k') == s ==> r == Some(x) && k' == k)
  }

  ghost predicate GotCode(s: Stream, r: Option<nat>, k: Stream) {
    && (r.Some? ==> PutCode(r.value, k) == s)
    && (forall x: nat, k' {:trigger PutCode(x, k')} :: PutCode(x, k') == s ==> r == Some(x) && k' == k)
  }

  ghost predicate GotRef(section: Section, s: Stream, r: Option<nat>, k: Stream) {
    && (r.Some? ==> PutRef(section, r.value, k) == s)
    && (forall x: nat, k' {:trigger PutRef(section, x, k')} ::
          PutRef(section, x, k') == s ==> r == Some(x) && k' == k)
  }

  ghost predicate GotSlot(s: Stream, r: Option<Option<nat>>, k: Stream) {
    && (r.Some? ==> PutSlot(r.value, k) == s)
    && (forall x, k' {:trigger PutSlot(x, k')} :: PutSlot(x, k') == s ==> r == Some(x) && k' == k)
  }

  ghost predicate GotPos(s: Stream, r: Option<Pos>, k: Stream) {
    && (r.Some? ==> PutPos(r.value, k) == s)
    && (forall x, k' {:trigger PutPos(x, k')} :: PutPos(x, k') == s ==> r == Some(x) && k' == k)
  }

  ghost predicate GotStr(a: Archive, s: Stream, r: Option<string>, k: Stream) {
    && (r.Some? ==> PutStr(a, r.value, k) == s)
    && (forall x, k' {:trigger PutStr(a, x, k')} :: PutStr(a, x, k') == s ==> r == Some(x) && k' == k)
  }

  ghost predicate GotPkg(a: Archive, s: Stream, r: Option<Pkg>, k: Stream) {
    && (r.Some? ==> PutPkg(a, r.value, k) == s)
    && (forall x, k' {:trigger PutPkg(a, x, k')} :: PutPkg(a, x, k') == s ==> r == Some(x) && k' == k)
  }

  ghost predicate GotType(a: Archive, s: Stream, r: Option<TypeUse>, k: Stream) {
    && (r.Some? ==> CanonType(a, r.value) && PutType(r.value, k) == s)
    && (forall x, k' {:trigger PutType(x, k')} :: CanonType(a, x) && PutType(x, k') == s ==> r == Some(x) && k' == k)
  }

  ghost predicate GotTypes(a: Archive, n: nat, s: Stream, r: Option<seq<TypeUse>>, k: Stream) {
    && (r.Some? ==> |r.value| == n && CanonTypes(a, r.value) && PutTypes(r.value, k) == s)
    && (forall x, k' {:trigger PutTypes(x, k')} ::
          |x| == n && CanonTypes(a, x) && PutTypes(x, k') == s ==> r == Some(x) && k' == k)
  }

  ghost predicate GotObj(a: Archive, s: Stream, r: Option<ObjUse>, k: Stream) {
    && (r.Some? ==> CanonObj(a, r.value) && PutObj(r.value, k) == s)
    && (forall x, k' {:trigger PutObj(x, k')} :: CanonObj(a, x) && PutObj(x, k') == s ==> r == Some(x) && k' == k)
  }

  ghost predicate GotSelector(a: Archive, s: Stream, r: Option<Selector>, k: Stream) {
    && (r.Some? ==> PutSelector(a, r.value, k) == s)
    && (forall x, k' {:trigger PutSelector(a, x, k')} :: PutSelector(a, x, k') == s ==> r == Some(x) && k' == k)
  }

  ghost predicate GotLocal(s: Stream, r: Option<Local>, k: Stream) {
    && (r.Some? ==> PutLocal(r.value, k) == s)
    && (forall x, k' {:trigger PutLocal(x, k')} :: PutLocal(x, k') == s ==> r == Some(x) && k' == k)
  }

  ghost predicate GotLocals(n: nat, s: Stream, r: Option<seq<Local>>, k: Stream) {
    && (r.Some? ==> |r.value| == n && PutLocals(r.value, k) == s)
    && (forall x, k' {:trigger PutLocals(x, k')} :: |x| == n && PutLocals(x, k') == s ==> r == Some(x) && k' == k)
  }

  ghost predicate GotLens(n: nat, s: Stream, r: Option<seq<nat>>, k: Stream) {
    && (r.Some? ==> |r.value| == n && PutLens(r.value, k) == s)
    && (forall x, k' {:trigger PutLens(x, k')} :: |x| == n && PutLens(x, k') == s ==> r == Some(x) && k' == k)
  }

  ghost predicate GotInts(n: nat, s: Stream, r: Option<seq<int>>, k: Stream) {
    && (r.Some? ==> |r.value| == n && PutInts(r.value, k) == s)
    && (forall x, k' {:trigger PutInts(x, k')} :: |x| == n && PutInts(x, k') == s ==> r == Some(x) && k' == k)
  }

  ghost predicate GotOp(s: Stream, r: Option<nat>, k: Stream) {
    && (r.Some? ==> PutOp(r.value, k) == s)
    && (forall x: nat, k' {:trigger PutOp(x, k')} :: PutOp(x, k') == s ==> r == Some(x) && k' == k)
  }

  ghost predicate GotBig(a: Archive, s: Stream, r: Option<Big>, k: Stream) {
    && (r.Some? ==> PutBig(a, r.value, k) == s)
    && (forall x, k' {:trigger PutBig(a, x, k')} :: PutBig(a, x, k') == s ==> r == Some(x) && k' == k)
  }

  ghost predicate GotScalar(a: Archive, s: Stream, r: Option<Scalar>, k: Stream) {
    && (r.Some? ==> PutScalar(a, r.value, k) == s)
    && (forall x, k' {:trigger PutScalar(a, x, k')} :: PutScalar(a, x, k') == s ==> r == Some(x) && k' == k)
  }

  ghost predicate GotValue(a: Archive, s: Stream, r: Option<Value>, k: Stream) {
    && (r.Some? ==> PutValue(a, r.value, k) == s)
    && (forall x, k' {:trigger PutValue(a, x, k')} :: PutValue(a, x, k') == s ==> r == Some(x) && k' == k)
  }

  ghost predicate GotRType(a: Archive, s: Stream, r: Option<RType>, k: Stream) {
    && (r.Some? ==> CanonRType(a, r.value) && PutRType(r.value, k) == s)
    && (forall x, k' {:trigger PutRType(x, k')} ::
          CanonRType(a, x) && PutRType(x, k') == s ==> r == Some(x) && k' == k)
  }

  ghost predicate GotConv(a: Archive, s: Stream, r: Option<ConvRTTI>, k: Stream) {
    && (r.Some? ==> CanonConv(a, r.value) && PutConv(r.value, k) == s)
    && (forall x, k' {:trigger PutConv(x, k')} :: CanonConv(a, x) && PutConv(x, k') == s ==> r == Some(x) && k' == k)
  }

  ghost predicate GotExprType(a: Archive, s: Stream, r: Option<ExprType>, k: Stream) {
    && (r.Some? ==> CanonExprType(a, r.value) && PutExprType(r.value, k) == s)
    && (forall x, k' {:trigger PutExprType(x, k')} ::
          CanonExprType(a, x) && PutExprType(x, k') == s ==> r == Some(x) && k' == k)
  }

  ghost predicate GotCase(a: Archive, s: Stream, r: Option<Option<ExprType>>, k: Stream) {
    && (r.Some? ==> CanonCase(a, r.value) && PutCase(r.value, k) == s)
    && (forall x, k' {:trigger PutCase(x, k')} :: CanonCase(a, x) && PutCase(x, k') == s ==> r == Some(x) && k' == k)
  }

  ghost predicate GotCases(a: Archive, n: nat, s: Stream, r: Option<seq<Option<ExprType>>>, k: Stream) {
    && (r.Some? ==> |r.value| == n && CanonCases(a, r.value) && PutCases(r.value, k) == s)
    && (forall x, k' {:trigger PutCases(x, k')} ::
          |x| == n && CanonCases(a, x) && PutCases(x, k') == s ==> r == Some(x) && k' == k)
  }

  ghost predicate GotOptRType(a: Archive, wanted: bool, s: Stream, r: Option<Option<RType>>, k: Stream) {
    && (r.Some? ==> CanonOptRType(a, r.value) && PutOptRType(wanted, r.value, k) == s)
    && (forall x, k' {:trigger PutOptRType(wanted, x, k')} ::
          CanonOptRType(a, x) && PutOptRType(wanted, x, k') == s ==> r == Some(x) && k' == k)
  }

  ghost predicate GotOptConv(a: Archive, wanted: bool, s: Stream, r: Option<Option<ConvRTTI>>, k: Stream) {
    && (r.Some? ==> CanonOptConv(a, r.value) && PutOptConv(wanted, r.value, k) == s)
    && (forall x, k' {:trigger PutOptConv(wanted, x, k')} ::
          CanonOptConv(a, x) && PutOptConv(wanted, x, k') == s ==> r == Some(x) && k' == k)
  }

  ghost predicate GotMapRType(a: Archive, typ: Option<TypeUse>, s: Stream, r: Option<Option<RType>>, k: Stream) {
    && (r.Some? ==> CanonOptRType(a, r.value) && PutMapRType(a, typ, r.value, k) == s)
    && (forall x, k' {:trigger PutMapRType(a, typ, x, k')} ::
          CanonOptRType(a, x) && PutMapRType(a, typ, x, k') == s ==> r == Some(x) && k' == k)
  }

  ghost predicate GotInst(a: Archive, s: Stream, r: Option<FuncInst>, k: Stream) {
    && (r.Some? ==> CanonInst(a, r.value) && PutInst(r.value, k) == s)
    && (forall x, k' {:trigger PutInst(x, k')} :: CanonInst(a, x) && PutInst(x, k') == s ==> r == Some(x) && k' == k)
  }

  ghost predicate GotMethodDict(a: Archive, s: Stream, r: Option<MethodDict>, k: Stream) {
    && (r.Some? ==> CanonMethodDict(a, r.value) && PutMethodDict(r.value, k) == s)
    && (forall x, k' {:trigger PutMethodDict(x, k')} ::
          CanonMethodDict(a, x) && PutMethodDict(x, k') == s ==> r == Some(x) && k' == k)
  }

  ghost predicate GotMethod(a: Archive, s: Stream, r: Option<MethodRef>, k: Stream) {
    && (r.Some? ==> CanonMethod(a, r.value) && PutMethod(a, r.value, k) == s)
    && (forall x, k' {:trigger PutMethod(a, x, k')} ::
          CanonMethod(a, x) && PutMethod(a, x, k') == s ==> r == Some(x) && k' == k)
  }

  ghost predicate GotPath(s: Stream, r: Option<Path>, k: Stream) {
    && (r.Some? ==> CanonPath(r.value) && PutPath(r.value, k) == s)
    && (forall x, k' {:trigger PutPath(x, k')} :: CanonPath(x) && PutPath(x, k') == s ==> r == Some(x) && k' == k)
  }

  ghost predicate GotParam(a: Archive, s: Stream, r: Option<Param>, k: Stream) {
    && (r.Some? ==> CanonType(a, r.value.typ) && PutParam(a, r.value, k) == s)
    && (forall x: Param, k' {:trigger PutParam(a, x, k')} ::
          CanonType(a, x.typ) && PutParam(a, x, k') == s ==> r == Some(x) && k' == k)
  }

  ghost predicate GotParams(a: Archive, n: nat, s: Stream, r: Option<seq<Param>>, k: Stream) {
    && (r.Some? ==> |r.value| == n && CanonParams(a, r.value) && PutParams(a, r.value, k) == s)
    && (forall x, k' {:trigger PutParams(a, x, k')} ::
          |x| == n && CanonParams(a, x) && PutParams(a, x, k') == s ==> r == Some(x) && k' == k)
  }

  ghost predicate GotSignature(a: Archive, s: Stream, r: Option<Signature>, k: Stream) {
    && (r.Some? ==> CanonSignature(a, r.value) && PutSignature(a, r.value, k) == s)
    && (forall x, k' {:trigger PutSignature(a, x, k')} ::
          CanonSignature(a, x) && PutSignature(a, x, k') == s ==> r == Some(x) && k' == k)
  }

  ghost predicate GotCapture(s: Stream, r: Option<Capture>, k: Stream) {
    && (r.Some? ==> PutCapture(r.value, k) == s)
    && (forall x, k' {:trigger PutCapture(x, k')} :: PutCapture(x, k') == s ==> r == Some(x) && k' == k)
  }

  ghost predicate GotCaptures(n: nat, s: Stream, r: Option<seq<Capture>>, k: Stream) {
    && (r.Some? ==> |r.value| == n && PutCaptures(r.value, k) == s)
    && (forall x, k' {:trigger PutCaptures(x, k')} ::
          |x| == n && PutCaptures(x, k') == s ==> r == Some(x) && k' == k)
  }

  ghost predicate GotResult(a: Archive, s: Stream, r: Option<MultiResult>, k: Stream) {
    && (r.Some? ==> CanonResult(a, r.value) && PutResult(r.value, k) == s)
    && (forall x, k' {:trigger PutResult(x, k')} ::
          CanonResult(a, x) && PutResult(x, k') == s ==> r == Some(x) && k' == k)
  }

  ghost predicate GotResults(a: Archive, n: nat, s: Stream, r: Option<seq<MultiResult>>, k: Stream) {
    && (r.Some? ==> |r.value| == n && CanonResults(a, r.value) && PutResults(r.value, k) == s)
    && (forall x, k' {:trigger PutResults(x, k')} ::
          |x| == n && CanonResults(a, x) && PutResults(x, k') == s ==> r == Some(x) && k' == k)
  }

  ghost predicate GotScope(first: bool, s: Stream, r: Option<Scope>, k: Stream) {
    && (r.Some? ==> CanonScope(r.value, first) && PutScope(r.value, first, k) == s)
    && (forall x, k' {:trigger PutScope(x, first, k')} ::
          CanonScope(x, first) && PutScope(x, first, k') == s ==> r == Some(x) && k' == k)
  }

  ghost predicate GotRangeConvs(a: Archive, lhs: seq<Assignee>, s: Stream, r: Option<RangeConvs>, k: Stream) {
    && (r.Some? ==> CanonRangeConvs(a, r.value) && PutRangeConvs(lhs, r.value, k) == s)
    && (forall x, k' {:trigger PutRangeConvs(lhs, x, k')} ::
          CanonRangeConvs(a, x) && PutRangeConvs(lhs, x, k') == s ==> r == Some(x) && k' == k)
  }

  ghost predicate GotClauseVar(a: Archive, named: bool, s: Stream, r: Option<Option<ClauseVar>>, k: Stream) {
    && (r.Some? ==> CanonClauseVar(a, named, r.value) && PutClauseVar(named, r.value, k) == s)
    && (forall x, k' {:trigger PutClauseVar(named, x, k')} ::
          CanonClauseVar(a, named, x) && PutClauseVar(named, x, k') == s ==> r == Some(x) && k' == k)
  }

  ghost predicate GotTarget(a: Archive, s: Stream, r: Option<Option<string>>, k: Stream) {
    && (r.Some? ==> PutTarget(a, r.value, k) == s)
    && (forall x, k' {:trigger PutTarget(a, x, k')} :: PutTarget(a, x, k') == s ==> r == Some(x) && k' == k)
  }

  // ----- Expressions -----

  ghost predicate GotExprs(a: Archive, bs: Bodies, n: nat, s: Stream, r: Option<seq<Expr>>, k: Stream) {
    && (r.Some? ==> |r.value| == n && CanonExprs(a, bs, r.value) && PutExprs(a, r.value, k) == s)
    && (forall x, k' {:trigger PutExprs(a, x, k')} ::
          |x| == n && CanonExprs(a, bs, x) && PutExprs(a, x, k') == s ==> r == Some(x) && k' == k)
  }

  ghost predicate GotOpt(a: Archive, bs: Bodies, s: Stream, r: Option<Option<Expr>>, k: Stream) {
    && (r.Some? ==> CanonOpt(a, bs, r.value) && PutOpt(a, r.value, k) == s)
    && (forall x, k' {:trigger PutOpt(a, x, k')} ::
          CanonOpt(a, bs, x) && PutOpt(a, x, k') == s ==> r == Some(x) && k' == k)
  }

  ghost predicate GotExpr(a: Archive, bs: Bodies, s: Stream, r: Option<Expr>, k: Stream) {
    && (r.Some? ==> CanonExpr(a, bs, r.value) && PutExpr(a, r.value, k) == s)
    && (forall x, k' {:trigger PutExpr(a, x, k')} ::
          CanonExpr(a, bs, x) && PutExpr(a, x, k') == s ==> r == Some(x) && k' == k)
  }

  ghost predicate GotNode(a: Archive, bs: Bodies, code: nat, s: Stream, r: Option<Node>, k: Stream) {
    && (r.Some? ==> ExprKind(r.value, code) && CanonNode(a, bs, r.value) && PutNode(a, r.value, k) == s)
    && (forall x: Node, k' {:trigger PutNode(a, x, k')} ::
          ExprKind(x, code) && CanonNode(a, bs, x) && PutNode(a, x, k') == s ==> r == Some(x) && k' == k)
  }

  ghost predicate GotTypedLeaf(a: Archive, code: nat, s: Stream, r: Option<Node>, k: Stream) {
    && (r.Some? ==> ExprKind(r.value, code) && IsTypedLeaf(r.value) && CanonType(a, r.value.typ) && PutTypedLeaf(a, r.value, k) == s)
    && (forall x: Node, k' {:trigger PutTypedLeaf(a, x, k')} ::
          ExprKind(x, code) && IsTypedLeaf(x) && CanonType(a, x.typ) && PutTypedLeaf(a, x, k') == s ==> r == Some(x) && k' == k)
  }

  ghost predicate GotLeaf(a: Archive, code: nat, s: Stream, r: Option<Node>, k: Stream) {
    && (r.Some? ==> ExprKind(r.value, code) && IsLeaf(r.value) && CanonLeaf(a, r.value) && PutLeaf(a, r.value, k) == s)
    && (forall x: Node, k' {:trigger PutLeaf(a, x, k')} ::
          ExprKind(x, code) && IsLeaf(x) && CanonLeaf(a, x) && PutLeaf(a, x, k') == s ==> r == Some(x) && k' == k)
  }

  ghost predicate GotLitRef(a: Archive, s: Stream, r: Option<LitRef>, k: Stream) {
    && (r.Some? ==> CanonLitRef(a, r.value) && PutLitRef(a, r.value, k) == s)
    && (forall x: LitRef, k' {:trigger PutLitRef(a, x, k')} ::
          CanonLitRef(a, x) && PutLitRef(a, x, k') == s ==> r == Some(x) && k' == k)
  }

  ghost predicate GotOperand(a: Archive, bs: Bodies, code: nat, s: Stream, r: Option<Node>, k: Stream) {
    && (r.Some? ==> ExprKind(r.value, code) && IsOperand(r.value) && CanonOperand(a, bs, r.value) && PutOperand(a, r.value, k) == s)
    && (forall x: Node, k' {:trigger PutOperand(a, x, k')} ::
          ExprKind(x, code) && IsOperand(x) && CanonOperand(a, bs, x) && PutOperand(a, x, k') == s ==> r == Some(x) && k' == k)
  }

  ghost predicate GotMaker(a: Archive, bs: Bodies, code: nat, s: Stream, r: Option<Node>, k: Stream) {
    && (r.Some? ==> ExprKind(r.value, code) && IsMaker(r.value) && CanonMaker(a, bs, r.value) && PutMaker(a, r.value, k) == s)
    && (forall x: Node, k' {:trigger PutMaker(a, x, k')} ::
          ExprKind(x, code) && IsMaker(x) && CanonMaker(a, bs, x) && PutMaker(a, x, k') == s ==> r == Some(x) && k' == k)
  }

  ghost predicate GotSelection(a: Archive, bs: Bodies, code: nat, s: Stream, r: Option<Node>, k: Stream) {
    && (r.Some? ==> ExprKind(r.value, code) && IsSelection(r.value) && CanonSelection(a, bs, r.value) && PutSelection(a, r.value, k) == s)
    && (forall x: Node, k' {:trigger PutSelection(a, x, k')} ::
          ExprKind(x, code) && IsSelection(x) && CanonSelection(a, bs, x) && PutSelection(a, x, k') == s ==> r == Some(x) && k' == k)
  }

  ghost predicate GotAccess(a: Archive, bs: Bodies, code: nat, s: Stream, r: Option<Node>, k: Stream) {
    && (r.Some? ==> ExprKind(r.value, code) && IsAccess(r.value) && CanonAccess(a, bs, r.value) && PutAccess(a, r.value, k) == s)
    && (forall x: Node, k' {:trigger PutAccess(a, x, k')} ::
          ExprKind(x, code) && IsAccess(x) && CanonAccess(a, bs, x) && PutAccess(a, x, k') == s ==> r == Some(x) && k' == k)
  }

  ghost predicate GotOperation(a: Archive, bs: Bodies, code: nat, s: Stream, r: Option<Node>, k: Stream) {
    && (r.Some? ==> ExprKind(r.value, code) && IsOperation(r.value) && CanonOperation(a, bs, r.value) && PutOperation(a, r.value, k) == s)
    && (forall x: Node, k' {:trigger PutOperation(a, x, k')} ::
          ExprKind(x, code) && IsOperation(x) && CanonOperation(a, bs, x) && PutOperation(a, x, k') == s ==> r == Some(x) && k' == k)
  }

  ghost predicate GotNew(a: Archive, bs: Bodies, s: Stream, r: Option<Node>, k: Stream) {
    && (r.Some? ==> IsNew(r.value) && CanonNew(a, bs, r.value) && PutNew(a, r.value, k) == s)
    && (forall x: Node, k' {:trigger PutNew(a, x, k')} ::
          IsNew(x) && CanonNew(a, bs, x) && PutNew(a, x, k') == s ==> r == Some(x) && k' == k)
  }

  ghost predicate GotMake(a: Archive, bs: Bodies, s: Stream, r: Option<Node>, k: Stream) {
    && (r.Some? ==> r.value.Make? && CanonMake(a, bs, r.value) && PutMake(a, r.value, k) == s)
    && (forall x: Node, k' {:trigger PutMake(a, x, k')} ::
          x.Make? && CanonMake(a, bs, x) && PutMake(a, x, k') == s ==> r == Some(x) && k' == k)
  }

  ghost predicate GotAtom(a: Archive, bs: Bodies, code: nat, s: Stream, r: Option<Node>, k: Stream) {
    && (r.Some? ==> ExprKind(r.value, code) && IsAtom(r.value) && CanonAtom(a, bs, r.value) && PutAtom(a, r.value, k) == s)
    && (forall x: Node, k' {:trigger PutAtom(a, x, k')} ::
          ExprKind(x, code) && IsAtom(x) && CanonAtom(a, bs, x) && PutAtom(a, x, k') == s ==> r == Some(x) && k' == k)
  }

  ghost predicate GotCompound(a: Archive, bs: Bodies, code: nat, s: Stream, r: Option<Node>, k: Stream) {
    && (r.Some? ==> ExprKind(r.value, code) && !IsAtom(r.value) && CanonCompound(a, bs, r.value) && PutCompound(a, r.value, k) == s)
    && (forall x: Node, k' {:trigger PutCompound(a, x, k')} ::
          ExprKind(x, code) && !IsAtom(x) && CanonCompound(a, bs, x) && PutCompound(a, x, k') == s ==> r == Some(x) && k' == k)
  }

  ghost predicate GotMethodExpr(a: Archive, s: Stream, r: Option<Node>, k: Stream) {
    && (r.Some? ==> r.value.MethodExpr? && CanonMethodExpr(a, r.value) && PutMethodExpr(a, r.value, k) == s)
    && (forall x: Node, k' {:trigger PutMethodExpr(a, x, k')} ::
          x.MethodExpr? && CanonMethodExpr(a, x) && PutMethodExpr(a, x, k') == s ==> r == Some(x) && k' == k)
  }

  ghost predicate GotCall(a: Archive, bs: Bodies, s: Stream, r: Option<Node>, k: Stream) {
    && (r.Some? ==> r.value.Call? && CanonCall(a, bs, r.value) && PutCall(a, r.value, k) == s)
    && (forall x: Node, k' {:trigger PutCall(a, x, k')} ::
          x.Call? && CanonCall(a, bs, x) && PutCall(a, x, k') == s ==> r == Some(x) && k' == k)
  }

  ghost predicate GotConvert(a: Archive, bs: Bodies, s: Stream, r: Option<Node>, k: Stream) {
    && (r.Some? ==> r.value.Convert? && CanonConvert(a, bs, r.value) && PutConvert(a, r.value, k) == s)
    && (forall x: Node, k' {:trigger PutConvert(a, x, k')} ::
          x.Convert? && CanonConvert(a, bs, x) && PutConvert(a, x, k') == s ==> r == Some(x) && k' == k)
  }

  ghost predicate GotLit(a: Archive, bs: Bodies, s: Stream, r: Option<Node>, k: Stream) {
    && (r.Some? ==> r.value.CompLit? && CanonLit(a, bs, r.value) && PutLit(a, r.value, k) == s)
    && (forall x: Node, k' {:trigger PutLit(a, x, k')} ::
          x.CompLit? && CanonLit(a, bs, x) && PutLit(a, x, k') == s ==> r == Some(x) && k' == k)
  }

  ghost predicate GotCallee(a: Archive, bs: Bodies, s: Stream, r: Option<Callee>, k: Stream) {
    && (r.Some? ==> CanonCallee(a, bs, r.value) && PutCallee(a, r.value, k) == s)
    && (forall x, k' {:trigger PutCallee(a, x, k')} ::
          CanonCallee(a, bs, x) && PutCallee(a, x, k') == s ==> r == Some(x) && k' == k)
  }

  ghost predicate GotMulti(a: Archive, bs: Bodies, s: Stream, r: Option<MultiExpr>, k: Stream) {
    && (r.Some? ==> CanonMulti(a, bs, r.value) && PutMulti(a, r.value, k) == s)
    && (forall x, k' {:trigger PutMulti(a, x, k')} ::
          CanonMulti(a, bs, x) && PutMulti(a, x, k') == s ==> r == Some(x) && k' == k)
  }

  ghost predicate GotMapElem(a: Archive, bs: Bodies, s: Stream, r: Option<LitElem>, k: Stream) {
    && (r.Some? ==> CanonMapElem(a, bs, r.value) && PutMapElem(a, r.value, k) == s)
    && (forall x, k' {:trigger PutMapElem(a, x, k')} ::
          CanonMapElem(a, bs, x) && PutMapElem(a, x, k') == s ==> r == Some(x) && k' == k)
  }

  ghost predicate GotListElem(a: Archive, bs: Bodies, keyed: bool, s: Stream, r: Option<LitElem>, k: Stream) {
    && (r.Some? ==> CanonListElem(a, bs, r.value) && PutListElem(a, r.value, keyed, k) == s)
    && (forall x, k' {:trigger PutListElem(a, x, keyed, k')} ::
          CanonListElem(a, bs, x) && PutListElem(a, x, keyed, k') == s ==> r == Some(x) && k' == k)
  }

  ghost predicate GotStructElem(a: Archive, bs: Bodies, keyed: bool, i: nat, s: Stream, r: Option<LitElem>, k: Stream) {
    && (r.Some? ==> CanonStructElem(a, bs, r.value, keyed) && PutStructElem(a, r.value, keyed, i, k) == s)
    && (forall x, k' {:trigger PutStructElem(a, x, keyed, i, k')} ::
          CanonStructElem(a, bs, x, keyed) && PutStructElem(a, x, keyed, i, k') == s ==> r == Some(x) && k' == k)
  }

  ghost predicate GotElem(a: Archive, bs: Bodies, core: Core, keyed: bool, i: nat, s: Stream, r: Option<LitElem>, k: Stream)
    requires Builds(core)
  {
    && (r.Some? ==> CanonElem(a, bs, r.value, core, keyed) && PutElem(a, r.value, core, keyed, i, k) == s)
    && (forall x, k' {:trigger PutElem(a, x, core, keyed, i, k')} ::
          CanonElem(a, bs, x, core, keyed) && PutElem(a, x, core, keyed, i, k') == s ==> r == Some(x) && k' == k)
  }

  ghost predicate GotElems(a: Archive, bs: Bodies, n: nat, core: Core, keyed: bool, i: nat, s: Stream, r: Option<seq<LitElem>>, k: Stream)
    requires Builds(core)
  {
    && (r.Some? ==> |r.value| == n && CanonElems(a, bs, r.value, core, keyed) && PutElems(a, r.value, core, keyed, i, k) == s)
    && (forall x, k' {:trigger PutElems(a, x, core, keyed, i, k')} ::
          |x| == n && CanonElems(a, bs, x, core, keyed) && PutElems(a, x, core, keyed, i, k') == s ==> r == Some(x) && k' == k)
  }

  // ----- Statements -----

  ghost predicate GotStmts(a: Archive, bs: Bodies, s: Stream, r: Option<seq<Stmt>>, k: Stream) {
    && (r.Some? ==> CanonStmts(a, bs, r.value) && PutStmts(a, r.value, k) == s)
    && (forall x, k' {:trigger PutStmts(a, x, k')} ::
          CanonStmts(a, bs, x) && PutStmts(a, x, k') == s ==> r == Some(x) && k' == k)
  }

  ghost predicate GotStmt(a: Archive, bs: Bodies, code: nat, s: Stream, r: Option<Stmt>, k: Stream) {
    && (r.Some? ==> StmtKind(r.value, code) && CanonStmt(a, bs, r.value) && PutStmt(a, r.value, k) == s)
    && (forall x: Stmt, k' {:trigger PutStmt(a, x, k')} ::
          StmtKind(x, code) && CanonStmt(a, bs, x) && PutStmt(a, x, k') == s ==> r == Some(x) && k' == k)
  }

  ghost predicate GotSimple(a: Archive, bs: Bodies, code: nat, s: Stream, r: Option<Stmt>, k: Stream) {
    && (r.Some? ==> StmtKind(r.value, code) && IsSimple(r.value) && CanonSimple(a, bs, r.value) && PutSimple(a, r.value, k) == s)
    && (forall x: Stmt, k' {:trigger PutSimple(a, x, k')} ::
          StmtKind(x, code) && IsSimple(x) && CanonSimple(a, bs, x) && PutSimple(a, x, k') == s ==> r == Some(x) && k' == k)
  }

  ghost predicate GotPlaced(a: Archive, bs: Bodies, code: nat, s: Stream, r: Option<Stmt>, k: Stream) {
    && (r.Some? ==> StmtKind(r.value, code) && IsPlaced(r.value) && CanonPlaced(a, bs, r.value) && PutPlaced(a, r.value, k) == s)
    && (forall x: Stmt, k' {:trigger PutPlaced(a, x, k')} ::
          StmtKind(x, code) && IsPlaced(x) && CanonPlaced(a, bs, x) && PutPlaced(a, x, k') == s ==> r == Some(x) && k' == k)
  }

  ghost predicate GotBasic(a: Archive, bs: Bodies, code: nat, s: Stream, r: Option<Stmt>, k: Stream) {
    && (r.Some? ==> StmtKind(r.value, code) && IsBasic(r.value) && CanonBasic(a, bs, r.value) && PutBasic(a, r.value, k) == s)
    && (forall x: Stmt, k' {:trigger PutBasic(a, x, k')} ::
          StmtKind(x, code) && IsBasic(x) && CanonBasic(a, bs, x) && PutBasic(a, x, k') == s ==> r == Some(x) && k' == k)
  }

  ghost predicate GotAssign(a: Archive, bs: Bodies, s: Stream, r: Option<Stmt>, k: Stream) {
    && (r.Some? ==> r.value.AssignStmt? && CanonAssign(a, bs, r.value) && PutAssign(a, r.value, k) == s)
    && (forall x: Stmt, k' {:trigger PutAssign(a, x, k')} ::
          x.AssignStmt? && CanonAssign(a, bs, x) && PutAssign(a, x, k') == s ==> r == Some(x) && k' == k)
  }

  ghost predicate GotCallStmt(a: Archive, bs: Bodies, s: Stream, r: Option<Stmt>, k: Stream) {
    && (r.Some? ==> r.value.CallStmt? && CanonCallStmt(a, bs, r.value) && PutCallStmt(a, r.value, k) == s)
    && (forall x: Stmt, k' {:trigger PutCallStmt(a, x, k')} ::
          x.CallStmt? && CanonCallStmt(a, bs, x) && PutCallStmt(a, x, k') == s ==> r == Some(x) && k' == k)
  }

  ghost predicate GotArms(a: Archive, bs: Bodies, known: int, s: Stream, r: Option<Arms>, k: Stream) {
    && (r.Some? ==> CanonArms(a, bs, known, r.value) && PutArms(a, known, r.value, k) == s)
    && (forall x, k' {:trigger PutArms(a, known, x, k')} ::
          CanonArms(a, bs, known, x) && PutArms(a, known, x, k') == s ==> r == Some(x) && k' == k)
  }

  ghost predicate GotRange(a: Archive, bs: Bodies, s: Stream, r: Option<ForHead>, k: Stream) {
    && (r.Some? ==> r.value.Range? && CanonRange(a, bs, r.value) && PutRange(a, r.value, k) == s)
    && (forall x: ForHead, k' {:trigger PutRange(a, x, k')} ::
          x.Range? && CanonRange(a, bs, x) && PutRange(a, x, k') == s ==> r == Some(x) && k' == k)
  }

  ghost predicate GotThree(a: Archive, bs: Bodies, s: Stream, r: Option<ForHead>, k: Stream) {
    && (r.Some? ==> r.value.Three? && CanonThree(a, bs, r.value) && PutThree(a, r.value, k) == s)
    && (forall x: ForHead, k' {:trigger PutThree(a, x, k')} ::
          x.Three? && CanonThree(a, bs, x) && PutThree(a, x, k') == s ==> r == Some(x) && k' == k)
  }

  ghost predicate GotSwitchCases(a: Archive, bs: Bodies, s: Stream, r: Option<Cases>, k: Stream) {
    && (r.Some? ==> CanonSwitchCases(a, bs, r.value) && PutSwitchCases(a, r.value, k) == s)
    && (forall x, k' {:trigger PutSwitchCases(a, x, k')} ::
          CanonSwitchCases(a, bs, x) && PutSwitchCases(a, x, k') == s ==> r == Some(x) && k' == k)
  }

  ghost predicate GotTests(a: Archive, bs: Bodies, guard: bool, s: Stream, r: Option<Tests>, k: Stream) {
    && (r.Some? ==> CanonTests(a, bs, guard, r.value) && PutTests(a, guard, r.value, k) == s)
    && (forall x, k' {:trigger PutTests(a, guard, x, k')} ::
          CanonTests(a, bs, guard, x) && PutTests(a, guard, x, k') == s ==> r == Some(x) && k' == k)
  }

  ghost predicate GotIf(a: Archive, bs: Bodies, s: Stream, r: Option<Stmt>, k: Stream) {
    && (r.Some? ==> r.value.IfStmt? && CanonIf(a, bs, r.value) && PutIf(a, r.value, k) == s)
    && (forall x: Stmt, k' {:trigger PutIf(a, x, k')} ::
          x.IfStmt? && CanonIf(a, bs, x) && PutIf(a, x, k') == s ==> r == Some(x) && k' == k)
  }

  ghost predicate GotFor(a: Archive, bs: Bodies, s: Stream, r: Option<Stmt>, k: Stream) {
    && (r.Some? ==> r.value.ForStmt? && CanonFor(a, bs, r.value) && PutFor(a, r.value, k) == s)
    && (forall x: Stmt, k' {:trigger PutFor(a, x, k')} ::
          x.ForStmt? && CanonFor(a, bs, x) && PutFor(a, x, k') == s ==> r == Some(x) && k' == k)
  }

  ghost predicate GotSwitch(a: Archive, bs: Bodies, s: Stream, r: Option<Stmt>, k: Stream) {
    && (r.Some? ==> r.value.SwitchStmt? && CanonSwitch(a, bs, r.value) && PutSwitch(a, r.value, k) == s)
    && (forall x: Stmt, k' {:trigger PutSwitch(a, x, k')} ::
          x.SwitchStmt? && CanonSwitch(a, bs, x) && PutSwitch(a, x, k') == s ==> r == Some(x) && k' == k)
  }

  ghost predicate GotSelect(a: Archive, bs: Bodies, s: Stream, r: Option<Stmt>, k: Stream) {
    && (r.Some? ==> r.value.SelectStmt? && CanonSelect(a, bs, r.value) && PutSelect(a, r.value, k) == s)
    && (forall x: Stmt, k' {:trigger PutSelect(a, x, k')} ::
          x.SelectStmt? && CanonSelect(a, bs, x) && PutSelect(a, x, k') == s ==> r == Some(x) && k' == k)
  }

  ghost predicate GotBlock(a: Archive, bs: Bodies, s: Stream, r: Option<Block>, k: Stream) {
    && (r.Some? ==> CanonBlock(a, bs, r.value) && PutBlock(a, r.value, k) == s)
    && (forall x, k' {:trigger PutBlock(a, x, k')} ::
          CanonBlock(a, bs, x) && PutBlock(a, x, k') == s ==> r == Some(x) && k' == k)
  }

  ghost predicate GotHead(a: Archive, bs: Bodies, s: Stream, r: Option<ForHead>, k: Stream) {
    && (r.Some? ==> CanonHead(a, bs, r.value) && PutHead(a, r.value, k) == s)
    && (forall x, k' {:trigger PutHead(a, x, k')} ::
          CanonHead(a, bs, x) && PutHead(a, x, k') == s ==> r == Some(x) && k' == k)
  }

  ghost predicate GotTag(a: Archive, bs: Bodies, s: Stream, r: Option<SwitchTag>, k: Stream) {
    && (r.Some? ==> CanonTag(a, bs, r.value) && PutTag(a, r.value, k) == s)
    && (forall x, k' {:trigger PutTag(a, x, k')} ::
          CanonTag(a, bs, x) && PutTag(a, x, k') == s ==> r == Some(x) && k' == k)
  }

  ghost predicate GotClause(a: Archive, bs: Bodies, guard: bool, named: bool, first: bool, s: Stream, r: Option<Clause>, k: Stream) {
    && (r.Some? ==> CanonClause(a, bs, r.value, guard, named, first) && PutClause(a, r.value, guard, named, first, k) == s)
    && (forall x, k' {:trigger PutClause(a, x, guard, named, first, k')} ::
          CanonClause(a, bs, x, guard, named, first) && PutClause(a, x, guard, named, first, k') == s ==> r == Some(x) && k' == k)
  }

  ghost predicate GotClauses(a: Archive, bs: Bodies, n: nat, guard: bool, named: bool, first: bool, s: Stream, r: Option<seq<Clause>>, k: Stream) {
    && (r.Some? ==> |r.value| == n && CanonClauses(a, bs, r.value, guard, named, first) && PutClauses(a, r.value, guard, named, first, k) == s)
    && (forall x, k' {:trigger PutClauses(a, x, guard, named, first, k')} ::
          |x| == n && CanonClauses(a, bs, x, guard, named, first) && PutClauses(a, x, guard, named, first, k') == s ==> r == Some(x) && k' == k)
  }

  ghost predicate GotComm(a: Archive, bs: Bodies, first: bool, s: Stream, r: Option<CommClause>, k: Stream) {
    && (r.Some? ==> CanonComm(a, bs, r.value, first) && PutComm(a, r.value, first, k) == s)
    && (forall x, k' {:trigger PutComm(a, x, first, k')} ::
          CanonComm(a, bs, x, first) && PutComm(a, x, first, k') == s ==> r == Some(x) && k' == k)
  }

  ghost predicate GotComms(a: Archive, bs: Bodies, n: nat, first: bool, s: Stream, r: Option<seq<CommClause>>, k: Stream) {
    && (r.Some? ==> |r.value| == n && CanonComms(a, bs, r.value, first) && PutComms(a, r.value, first, k) == s)
    && (forall x, k' {:trigger PutComms(a, x, first, k')} ::
          |x| == n && CanonComms(a, bs, x, first) && PutComms(a, x, first, k') == s ==> r == Some(x) && k' == k)
  }

  ghost predicate GotAssignee(a: Archive, bs: Bodies, s: Stream, r: Option<Assignee>, k: Stream) {
    && (r.Some? ==> CanonAssignee(a, bs, r.value) && PutAssignee(a, r.value, k) == s)
    && (forall x, k' {:trigger PutAssignee(a, x, k')} ::
          CanonAssignee(a, bs, x) && PutAssignee(a, x, k') == s ==> r == Some(x) && k' == k)
  }

  ghost predicate GotAssignees(a: Archive, bs: Bodies, n: nat, s: Stream, r: Option<seq<Assignee>>, k: Stream) {
    && (r.Some? ==> |r.value| == n && CanonAssignees(a, bs, r.value) && PutAssignees(a, r.value, k) == s)
    && (forall x, k' {:trigger PutAssignees(a, x, k')} ::
          |x| == n && CanonAssignees(a, bs, x) && PutAssignees(a, x, k') == s ==> r == Some(x) && k' == k)
  }

  // ----- The element -----

  /** The whole element i, read as a body with so many parameters. */
  ghost predicate GotBody(a: Archive, bs: Bodies, i: nat, nparams: nat, r: Option<Body>) {
    && (r.Some? ==> Held(a, bs, i, r.value, nparams) && CanonBody(a, bs - {i}, r.value))
    && (forall x: Body {:trigger PutBody(a, x)} :: Held(a, bs, i, x, nparams) && CanonBody(a, bs - {i}, x) ==> r == Some(x))
  }

  /** The stream is the encoding of a body with so many parameters. */
  ghost predicate GotWhole(a: Archive, bs: Bodies, nparams: nat, s: Stream, r: Option<Body>) {
    && (r.Some? ==> |r.value.params| == nparams && CanonBody(a, bs, r.value) && PutBody(a, r.value) == s)
    && (forall x: Body {:trigger PutBody(a, x)} ::
          |x.params| == nparams && CanonBody(a, bs, x) && PutBody(a, x) == s ==> r == Some(x))
  }

  ghost predicate GotFuncLit(a: Archive, bs: Bodies, s: Stream, r: Option<Node>, k: Stream) {
    && (r.Some? ==> r.value.FuncLit? && CanonFuncLit(a, bs, r.value) && PutLitRef(a, r.value.lit, k) == s)
    && (forall x: Node, k' {:trigger PutLitRef(a, x.lit, k')} ::
          x.FuncLit? && CanonFuncLit(a, bs, x) && PutLitRef(a, x.lit, k') == s ==> r == Some(x) && k' == k)
  }

  /** A literal is what the element says of it and the body of another. */
  lemma NoLit(a: Archive, bs: Bodies, s: Stream, k: Stream)
    requires GotLitRef(a, s, None, k)
    ensures GotFuncLit(a, bs, s, None, k)
  {
    forall x: Node, k' | x.FuncLit? && CanonFuncLit(a, bs, x) ensures PutLitRef(a, x.lit, k') != s {
      assert CanonLitRef(a, x.lit);
    }
  }

  lemma LitAndBody(a: Archive, bs: Bodies, s: Stream, lit: LitRef, r: Option<Body>, k: Stream)
    requires GotLitRef(a, s, Some(lit), k)
    requires GotBody(a, bs, lit.body, |lit.sig.params| + |lit.sig.results|, r)
    ensures GotFuncLit(a, bs, s, if r.Some? then Some(FuncLit(lit, r.value)) else None, k)
  {
    forall x: Node, k' | x.FuncLit? && CanonFuncLit(a, bs, x) && PutLitRef(a, x.lit, k') == s
      ensures r == Some(x.decoded) && x.lit == lit && k' == k
    {
      assert PutBody(a, x.decoded) == PutBody(a, x.decoded);
    }
  }

  /** An atom is read as the atom of its kind. */
  lemma LitIsAtom(a: Archive, bs: Bodies, s: Stream, r: Option<Node>, k: Stream)
    requires GotFuncLit(a, bs, s, r, k)
    ensures GotAtom(a, bs, EXPR_FUNC_LIT, s, r, k)
  {
  }

  lemma MethodExprIsAtom(a: Archive, bs: Bodies, s: Stream, r: Option<Node>, k: Stream)
    requires GotMethodExpr(a, s, r, k)
    ensures GotAtom(a, bs, EXPR_METHOD_EXPR, s, r, k)
  {
  }

  lemma TypedLeafIsAtom(a: Archive, bs: Bodies, kind: nat, s: Stream, r: Option<Node>, k: Stream)
    requires kind == EXPR_CONST || kind == EXPR_ZERO || kind == EXPR_SIZEOF || kind == EXPR_ALIGNOF || kind == EXPR_OFFSETOF
    requires GotTypedLeaf(a, kind, s, r, k)
    ensures GotAtom(a, bs, kind, s, r, k)
  {
  }

  lemma LeafIsAtom(a: Archive, bs: Bodies, kind: nat, s: Stream, r: Option<Node>, k: Stream)
    requires kind == EXPR_LOCAL || kind == EXPR_GLOBAL || kind == EXPR_FUNC_INST || kind == EXPR_RUNTIME_BUILTIN
    requires GotLeaf(a, kind, s, r, k)
    ensures GotAtom(a, bs, kind, s, r, k)
  {
  }

  /** So is a compound node. */
  lemma OperandIsCompound(a: Archive, bs: Bodies, kind: nat, s: Stream, r: Option<Node>, k: Stream)
    requires kind == EXPR_FIELD_VAL || kind == EXPR_METHOD_VAL || kind == EXPR_RECV
      || kind == EXPR_INDEX || kind == EXPR_SLICE || kind == EXPR_ASSERT
    requires GotOperand(a, bs, kind, s, r, k)
    ensures GotCompound(a, bs, kind, s, r, k)
  {
  }

  lemma OperationIsCompound(a: Archive, bs: Bodies, kind: nat, s: Stream, r: Option<Node>, k: Stream)
    requires (kind == EXPR_UNARY_OP || kind == EXPR_BINARY_OP) && GotOperation(a, bs, kind, s, r, k)
    ensures GotCompound(a, bs, kind, s, r, k)
  {
  }

  lemma CallIsCompound(a: Archive, bs: Bodies, s: Stream, r: Option<Node>, k: Stream)
    requires GotCall(a, bs, s, r, k)
    ensures GotCompound(a, bs, EXPR_CALL, s, r, k)
  {
  }

  lemma MakerIsCompound(a: Archive, bs: Bodies, kind: nat, s: Stream, r: Option<Node>, k: Stream)
    requires kind != EXPR_FIELD_VAL && kind != EXPR_METHOD_VAL && kind != EXPR_RECV && kind != EXPR_INDEX
      && kind != EXPR_SLICE && kind != EXPR_ASSERT && kind != EXPR_UNARY_OP && kind != EXPR_BINARY_OP && kind != EXPR_CALL
    requires GotMaker(a, bs, kind, s, r, k)
    ensures GotCompound(a, bs, kind, s, r, k)
  {
  }

  lemma AtomIsNode(a: Archive, bs: Bodies, kind: nat, s: Stream, r: Option<Node>, k: Stream)
    requires kind == EXPR_FUNC_LIT || kind == EXPR_METHOD_EXPR || kind == EXPR_CONST || kind == EXPR_ZERO || kind == EXPR_SIZEOF
      || kind == EXPR_ALIGNOF || kind == EXPR_OFFSETOF || kind == EXPR_LOCAL || kind == EXPR_GLOBAL
      || kind == EXPR_FUNC_INST || kind == EXPR_RUNTIME_BUILTIN
    requires GotAtom(a, bs, kind, s, r, k)
    ensures GotNode(a, bs, kind, s, r, k)
  {
  }

  lemma CompoundIsNode(a: Archive, bs: Bodies, kind: nat, s: Stream, r: Option<Node>, k: Stream)
    requires kind != EXPR_FUNC_LIT && kind != EXPR_METHOD_EXPR && kind != EXPR_CONST && kind != EXPR_ZERO && kind != EXPR_SIZEOF
      && kind != EXPR_ALIGNOF && kind != EXPR_OFFSETOF && kind != EXPR_LOCAL && kind != EXPR_GLOBAL
      && kind != EXPR_FUNC_INST && kind != EXPR_RUNTIME_BUILTIN
    requires GotCompound(a, bs, kind, s, r, k)
    ensures GotNode(a, bs, kind, s, r, k)
  {
  }

  /** A literal is its type, a descriptor for a map, and its elements. */
  lemma LitIsRead(a: Archive, bs: Bodies, pos: Pos, t: TypeUse, m: Option<RType>, n: int, elems: seq<LitElem>,
      s: Stream, s1: Stream, s2: Stream, s3: Stream, s4: Stream, k: Stream)
    requires GotPos(s, Some(pos), s1) && GotType(a, s1, Some(t), s2) && Builds(LitCore(a, t))
    requires GotOptRType(a, LitCore(a, t).MapCore?, s2, Some(m), s3) && GotInt(s3, Some(n), s4)
    requires GotElems(a, bs, if n < 0 then -n else n, LitCore(a, t), n < 0, 0, s4, Some(elems), k)
    ensures GotLit(a, bs, s, Some(CompLit(pos, t, m, n < 0, elems)), k)
  {
  }

  /** An element that is not there holds no body. */
  lemma Missing(a: Archive, bs: Bodies, i: nat, nparams: nat)
    requires i !in bs
    ensures GotBody(a, bs, i, nparams, None)
  {
    forall x: Body ensures !Held(a, bs, i, x, nparams) {
    }
  }

  /** An element is its stream and the references of its stream. */
  lemma WholeElement(a: Archive, bs: Bodies, i: nat, nparams: nat, r: Option<Body>)
    requires i in bs && Readable(bs) && GotWhole(a, bs - {i}, nparams, bs[i].stream, r)
    ensures GotBody(a, bs, i, nparams, if bs[i].table == Refs(bs[i].stream) then r else None)
  {
    forall x: Body | Held(a, bs, i, x, nparams) && CanonBody(a, bs - {i}, x)
      ensures r == Some(x) && bs[i].table == Refs(bs[i].stream)
    {
      assert PutBody(a, x) == bs[i].stream;
    }
  }

  /** No element holds a refusal. */
  ghost predicate Readable(bodies: Bodies) { forall i <- bodies :: Complete(bodies[i].stream) }

  /** A list is its head and its tail. */
  lemma HeadTail<T(!new)>(t: T, ts: seq<T>)
    ensures ([t] + ts)[0] == t && ([t] + ts)[1..] == ts
    ensures forall x: seq<T> {:trigger x[1..]} :: x != [] && x[0] == t && x[1..] == ts ==> x == [t] + ts
  {
    forall x: seq<T> | x != [] && x[0] == t && x[1..] == ts ensures x == [t] + ts {
      assert x == [x[0]] + x[1..];
    }
  }
}

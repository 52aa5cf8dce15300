/** The layout of one body element (export/bodywrite.go).

    Each function puts a tree in front of what follows it. Where the writer
    refuses a tree, the stream ends in `Refused`. */
module BodyFormat {
  import opened Wrappers
  import opened BodyTree

  /** The stream is a whole element: the writer refused nothing. */
  predicate Complete(s: Stream) { s.End? || (s.Cons? && Complete(s.tail)) }

  /** The references of an element, which are its reference table. */
  function Refs(s: Stream): set<(Section, nat)> {
    if !s.Cons? then {} else
    Refs(s.tail) + (if s.head.Ref? then {(s.head.section, s.head.idx)} else {})
  }

  function ElementOf(s: Stream): Element { Element(s, Refs(s)) }

  // ----- Primitives -----

  function PutBit(b: bool, k: Stream): Stream { Cons(Bit(b), k) }

  function PutLen(n: nat, k: Stream): Stream { Cons(Len(n), k) }

  function PutInt(n: int, k: Stream): Stream { Cons(Int(n), k) }

  function PutCode(n: nat, k: Stream): Stream { Cons(Code(n), k) }

  function PutRef(section: Section, idx: nat, k: Stream): Stream { Cons(Ref(section, idx), k) }

  function PutSlot(s: Option<nat>, k: Stream): Stream {
    if s.Some? then PutBit(true, PutLen(s.value, k)) else PutBit(false, k)
  }

  // ----- References -----

  function PutPos(p: Pos, k: Stream): Stream {
    if p.NoPos? then PutBit(false, k)
    else PutBit(true, PutRef(PosBases, p.base, PutLen(p.line, PutLen(p.col, k))))
  }

  function PutStr(a: Archive, s: string, k: Stream): Stream {
    if s in a.strIdx then PutRef(Strings, a.strIdx[s], k) else Refused
  }

  function PutPkg(a: Archive, p: Pkg, k: Stream): Stream {
    if p in a.pkgIdx then PutRef(Pkgs, a.pkgIdx[p], k) else Refused
  }

  function PutType(t: TypeUse, k: Stream): Stream {
    match t
    case DerivedAt(slot) => PutBit(true, PutLen(slot, k))
    case TypeAt(idx) => PutBit(false, PutRef(Types, idx, k))
  }

  function PutTypes(ts: seq<TypeUse>, k: Stream): Stream {
    if ts == [] then k else PutType(ts[0], PutTypes(ts[1..], k))
  }

  function PutObj(o: ObjUse, k: Stream): Stream {
    PutBit(false, PutRef(Objs, o.idx, PutLen(|o.targs|, PutTypes(o.targs, k))))
  }

  /** A selector or the name of a local: a package and a string. */
  function PutSelector(a: Archive, s: Selector, k: Stream): Stream { PutPkg(a, s.pkg, PutStr(a, s.name, k)) }

  function PutLocal(l: Local, k: Stream): Stream { PutSlot(l.slot, k) }

  function PutLocals(ls: seq<Local>, k: Stream): Stream {
    if ls == [] then k else PutLocal(ls[0], PutLocals(ls[1..], k))
  }

  function PutLens(ns: seq<nat>, k: Stream): Stream {
    if ns == [] then k else PutLen(ns[0], PutLens(ns[1..], k))
  }

  function PutInts(ns: seq<int>, k: Stream): Stream {
    if ns == [] then k else PutInt(ns[0], PutInts(ns[1..], k))
  }

  function PutOp(op: nat, k: Stream): Stream { if KnownOp(op) then PutLen(op, k) else Refused }

  // ----- Constants -----

  function PutBig(a: Archive, n: Big, k: Stream): Stream { PutStr(a, n.bytes, PutBit(n.negative, k)) }

  function PutScalar(a: Archive, v: Scalar, k: Stream): Stream {
    match v
    case BoolValue(b) => PutCode(VAL_BOOL, PutBit(b, k))
    case StringValue(s) => PutCode(VAL_STRING, PutStr(a, s, k))
    case IntValue(i) => PutCode(VAL_INT64, PutInt(i, k))
    case BigInt(n) => PutCode(VAL_BIG_INT, PutBig(a, n, k))
    case BigRat(n, d) => PutCode(VAL_BIG_RAT, PutBig(a, n, PutBig(a, d, k)))
    case BigFloat(t) => PutCode(VAL_BIG_FLOAT, PutStr(a, t, k))
  }

  function PutValue(a: Archive, v: Value, k: Stream): Stream {
    PutBit(v.im.Some?, PutScalar(a, v.re, if v.im.Some? then PutScalar(a, v.im.value, k) else k))
  }

  // ----- Runtime type information -----

  function PutRType(t: RType, k: Stream): Stream {
    match t
    case RTypeAt(slot) => PutBit(true, PutLen(slot, k))
    case RTypeOf(u) => PutBit(false, PutType(u, k))
  }

  function PutConv(c: ConvRTTI, k: Stream): Stream { PutRType(c.src, PutRType(c.dst, PutSlot(c.itab, k))) }

  function PutExprType(t: ExprType, k: Stream): Stream {
    match t
    case AgainstItab(p, c) => PutPos(p, PutBit(true, PutConv(c, k)))
    case WithRType(p, r, d) => PutPos(p, PutBit(false, PutRType(r, PutBit(d, k))))
  }

  function PutCase(t: Option<ExprType>, k: Stream): Stream {
    if t.None? then PutBit(true, k) else PutBit(false, PutExprType(t.value, k))
  }

  function PutCases(ts: seq<Option<ExprType>>, k: Stream): Stream {
    if ts == [] then k else PutCase(ts[0], PutCases(ts[1..], k))
  }

  /** A descriptor or a conversion that the tree has exactly where the format
      calls for one. */
  function PutOptRType(wanted: bool, t: Option<RType>, k: Stream): Stream {
    if t.Some? != wanted then Refused else if wanted then PutRType(t.value, k) else k
  }

  function PutOptConv(wanted: bool, c: Option<ConvRTTI>, k: Stream): Stream {
    if c.Some? != wanted then Refused else if wanted then PutConv(c.value, k) else k
  }

  /** The descriptor of a map, decided by the operand's type. */
  function PutMapRType(a: Archive, typ: Option<TypeUse>, t: Option<RType>, k: Stream): Stream {
    if typ.None? then Refused else PutOptRType(CoreOf(a, typ.value).MapCore?, t, k)
  }

  // ----- Methods and instances -----

  function PutInst(f: FuncInst, k: Stream): Stream {
    match f
    case InstAt(slot) => PutBit(true, PutLen(slot, k))
    case InstOf(o) => PutBit(false, PutObj(o, k))
  }

  function PutMethodDict(d: MethodDict, k: Stream): Stream {
    match d
    case ViaTypeParam(slot) => PutBit(true, PutLen(slot, k))
    case ViaSubdict(slot) => PutBit(false, PutBit(true, PutLen(slot, k)))
    case ViaStatic(o) => PutBit(false, PutBit(false, PutBit(true, PutObj(o, k))))
    case NoDict => PutBit(false, PutBit(false, PutBit(false, k)))
  }

  function PutMethod(a: Archive, m: MethodRef, k: Stream): Stream {
    var k1 := PutPos(m.pos, PutSelector(a, m.sel, PutMethodDict(m.dict, k)));
    PutType(m.recv, PutBit(m.sig.None?, if m.sig.Some? then PutType(m.sig.value, k1) else k1))
  }

  /** The second flag is written only when the first is false. */
  function PutPath(p: Path, k: Stream): Stream {
    PutLen(|p.implicits|, PutLens(p.implicits, PutBit(p.deref, if p.deref then k else PutBit(p.addr, k))))
  }

  // ----- Signatures -----

  function PutParam(a: Archive, p: Param, k: Stream): Stream {
    PutPos(p.pos, PutSelector(a, p.name, PutType(p.typ, k)))
  }

  function PutParams(a: Archive, ps: seq<Param>, k: Stream): Stream {
    if ps == [] then k else PutParam(a, ps[0], PutParams(a, ps[1..], k))
  }

  function PutSignature(a: Archive, s: Signature, k: Stream): Stream {
    PutLen(|s.params|, PutParams(a, s.params,
      PutLen(|s.results|, PutParams(a, s.results, PutBit(s.variadic, PutBit(s.rangeFuncBody, k))))))
  }

  function PutCapture(c: Capture, k: Stream): Stream { PutPos(c.pos, PutBit(!c.captured, PutLen(c.index, k))) }

  function PutCaptures(cs: seq<Capture>, k: Stream): Stream {
    if cs == [] then k else PutCapture(cs[0], PutCaptures(cs[1..], k))
  }

  // ----- Statements -----

  function PutStmts(a: Archive, ss: seq<Stmt>, k: Stream): Stream
    decreases ss, 0
  {
    if ss == [] then PutCode(STMT_END, k)
    else PutCode(StmtCode(ss[0]), PutStmt(a, ss[0], PutStmts(a, ss[1..], k)))
  }

  /** A statement, after its code. */
  function PutStmt(a: Archive, s: Stmt, k: Stream): Stream
    decreases s, 2
  {
    if IsBasic(s) then PutBasic(a, s, k)
    else if s.IfStmt? then PutIf(a, s, k)
    else if s.ForStmt? then PutFor(a, s, k)
    else if s.SwitchStmt? then PutSwitch(a, s, k)
    else PutSelect(a, s, k)
  }

  /** The statements that have no scope of their own. */
  predicate IsBasic(s: Stmt) { IsSimple(s) || IsPlaced(s) || s.AssignStmt? || s.CallStmt? }

  function PutBasic(a: Archive, s: Stmt, k: Stream): Stream
    requires IsBasic(s)
    decreases s, 1
  {
    if IsSimple(s) then PutSimple(a, s, k)
    else if IsPlaced(s) then PutPlaced(a, s, k)
    else if s.AssignStmt? then PutAssign(a, s, k)
    else PutCallStmt(a, s, k)
  }

  predicate IsSimple(s: Stmt) { s.BlockStmt? || s.ExprStmt? || s.AssignOpStmt? || s.IncDecStmt? }

  predicate IsPlaced(s: Stmt) { s.LabelStmt? || s.SendStmt? || s.BranchStmt? || s.ReturnStmt? }

  function PutSimple(a: Archive, s: Stmt, k: Stream): Stream
    requires IsSimple(s)
    decreases s, 0
  {
    match s
    case BlockStmt(b) => PutBlock(a, b, k)
    case ExprStmt(x) => PutExpr(a, x, k)
    case AssignOpStmt(op, dst, p, src) => PutOp(op, PutExpr(a, dst, PutPos(p, PutExpr(a, src, k))))
    case IncDecStmt(op, x, p) => PutOp(op, PutExpr(a, x, PutPos(p, k)))
  }

  function PutPlaced(a: Archive, s: Stmt, k: Stream): Stream
    requires IsPlaced(s)
    decreases s, 0
  {
    PutPos(s.pos,
      match s
      case LabelStmt(_, name) => PutStr(a, name, k)
      case SendStmt(_, ch, v) => PutExpr(a, ch, PutExpr(a, v, k))
      case BranchStmt(_, op, t) => PutOp(op, PutTarget(a, t, k))
      case ReturnStmt(_, rs) => PutMulti(a, rs, k))
  }

  function PutAssign(a: Archive, s: Stmt, k: Stream): Stream
    requires s.AssignStmt?
    decreases s, 0
  {
    PutPos(s.pos, PutLen(|s.lhs|, PutAssignees(a, s.lhs, PutMulti(a, s.rhs, k))))
  }

  function PutCallStmt(a: Archive, s: Stmt, k: Stream): Stream
    requires s.CallStmt?
    decreases s, 0
  {
    PutPos(s.pos, PutOp(s.op, PutExpr(a, s.call, if s.op == OP_DEFER then PutOpt(a, s.deferAt, k) else k)))
  }

  function PutTarget(a: Archive, t: Option<string>, k: Stream): Stream {
    PutBit(t.Some?, if t.Some? then PutStr(a, t.value, k) else k)
  }

  function PutFor(a: Archive, s: Stmt, k: Stream): Stream
    requires s.ForStmt?
    decreases s, 0
  {
    PutPos(s.open, PutHead(a, s.head, PutBlock(a, s.body, PutBit(s.distinctVars, k))))
  }

  function PutSelect(a: Archive, s: Stmt, k: Stream): Stream
    requires s.SelectStmt?
    decreases s, 0
  {
    PutPos(s.pos, PutLen(|s.comms|, PutComms(a, s.comms, true, if s.comms == [] then k else PutPos(s.close, k))))
  }

  function PutBlock(a: Archive, b: Block, k: Stream): Stream
    decreases b, 0
  {
    PutPos(b.open, PutStmts(a, b.body, PutPos(b.close, k)))
  }

  function PutIf(a: Archive, s: Stmt, k: Stream): Stream
    requires s.IfStmt?
    decreases s, 0
  {
    PutPos(s.open, PutPos(s.pos, PutStmts(a, s.init, PutExpr(a, s.cond,
      PutInt(s.known, PutArms(a, s.known, s.arms, k))))))
  }

  /** The arm a constant condition rules out is not written. */
  function PutArms(a: Archive, known: int, arms: Arms, k: Stream): Stream
    decreases arms, 0
  {
    var k1 := if known <= 0 then PutStmts(a, arms.els, k) else k;
    if known < 0 then PutPos(arms.thenClose, k1)
    else if arms.thn.None? then Refused
    else PutBlock(a, arms.thn.value, k1)
  }

  /** A key or a value that the clause assigns comes with a conversion. */
  predicate Assigns(lhs: seq<Assignee>, i: nat) { i < |lhs| && !lhs[i].Blank? }

  function PutHead(a: Archive, h: ForHead, k: Stream): Stream
    decreases h, 1
  {
    if h.Range? then PutBit(true, PutRange(a, h, k)) else PutBit(false, PutThree(a, h, k))
  }

  function PutRange(a: Archive, h: ForHead, k: Stream): Stream
    requires h.Range?
    decreases h, 0
  {
    PutPos(h.pos, PutLen(|h.lhs|, PutAssignees(a, h.lhs, PutExpr(a, h.x, PutMapRType(a, TypeOf(h.x), h.mapRType,
      PutRangeConvs(h.lhs, h.convs, k))))))
  }

  function PutRangeConvs(lhs: seq<Assignee>, c: RangeConvs, k: Stream): Stream {
    PutOptConv(Assigns(lhs, 0), c.key, PutOptConv(Assigns(lhs, 1), c.value, k))
  }

  function PutThree(a: Archive, h: ForHead, k: Stream): Stream
    requires h.Three?
    decreases h, 0
  {
    PutPos(h.pos, PutStmts(a, h.init, PutOpt(a, h.cond, PutStmts(a, h.post, k))))
  }

  function PutSwitch(a: Archive, s: Stmt, k: Stream): Stream
    requires s.SwitchStmt?
    decreases s, 0
  {
    PutPos(s.open, PutPos(s.pos, PutStmts(a, s.init, PutSwitchCases(a, s.cases, k))))
  }

  function PutSwitchCases(a: Archive, c: Cases, k: Stream): Stream
    decreases c, 0
  {
    var k1 := PutPos(c.close, k);
    PutTag(a, c.tag, PutLen(|c.clauses|,
      PutClauses(a, c.clauses, c.tag.Guard?, c.tag.Guard? && c.tag.name.Some?, true,
                 if c.clauses == [] then k1 else PutPos(c.clausesClose, k1))))
  }

  function PutTag(a: Archive, t: SwitchTag, k: Stream): Stream
    decreases t, 0
  {
    match t
    case Guard(p, name, x) =>
      var k1 := PutExpr(a, x, k);
      PutBit(true, PutPos(p, PutBit(name.Some?,
        if name.Some? then PutPos(name.value.pos, PutSelector(a, name.value.sel, k1)) else k1)))
    case Tag(x) => PutBit(false, PutOpt(a, x, k))
  }

  /** Every clause after the first closes the scope of the one before it. */
  function PutScope(s: Scope, first: bool, k: Stream): Stream {
    var k1 := PutPos(s.open, PutPos(s.pos, k));
    if first then k1 else if s.close.None? then Refused else PutPos(s.close.value, k1)
  }

  /** A named guard declares its variable in each clause. */
  function PutClauseVar(named: bool, v: Option<ClauseVar>, k: Stream): Stream {
    if !named then k
    else if v.None? then Refused
    else PutPos(v.value.pos, PutType(v.value.typ, PutLocal(v.value.local, k)))
  }

  function PutClauses(a: Archive, cs: seq<Clause>, guard: bool, named: bool, first: bool, k: Stream): Stream
    decreases cs, 0
  {
    if cs == [] then k else PutClause(a, cs[0], guard, named, first, PutClauses(a, cs[1..], guard, named, false, k))
  }

  function PutClause(a: Archive, c: Clause, guard: bool, named: bool, first: bool, k: Stream): Stream
    decreases c, 0
  {
    PutScope(c.scope, first, PutTests(a, guard, c.tests, PutClauseVar(named, c.variable, PutStmts(a, c.body, k))))
  }

  function PutTests(a: Archive, guard: bool, t: Tests, k: Stream): Stream
    decreases t, 0
  {
    if guard then PutLen(|t.types|, PutCases(t.types, k)) else PutLen(|t.exprs|, PutExprs(a, t.exprs, k))
  }

  function PutComms(a: Archive, cs: seq<CommClause>, first: bool, k: Stream): Stream
    decreases cs, 0
  {
    if cs == [] then k else PutComm(a, cs[0], first, PutComms(a, cs[1..], false, k))
  }

  function PutComm(a: Archive, c: CommClause, first: bool, k: Stream): Stream
    decreases c, 0
  {
    PutScope(c.scope, first, PutStmts(a, c.comm, PutStmts(a, c.body, k)))
  }

  function PutAssignees(a: Archive, xs: seq<Assignee>, k: Stream): Stream
    decreases xs, 0
  {
    if xs == [] then k else PutAssignee(a, xs[0], PutAssignees(a, xs[1..], k))
  }

  function PutAssignee(a: Archive, x: Assignee, k: Stream): Stream
    decreases x, 0
  {
    match x
    case Blank => PutCode(ASSIGN_BLANK, k)
    case Def(p, name, t, l) => PutCode(ASSIGN_DEF, PutPos(p, PutSelector(a, name, PutType(t, PutLocal(l, k)))))
    case Dest(e) => PutCode(ASSIGN_EXPR, PutExpr(a, e, k))
  }

  function PutMulti(a: Archive, m: MultiExpr, k: Stream): Stream
    decreases m, 0
  {
    match m
    case Single(p, x, rs) => PutBit(true, PutPos(p, PutExpr(a, x, PutLen(|rs|, PutResults(rs, k)))))
    case Each(es) => PutBit(false, PutLen(|es|, PutExprs(a, es, k)))
  }

  function PutResult(r: MultiResult, k: Stream): Stream {
    PutType(r.src, PutBit(r.conv.Some?, if r.conv.Some? then PutType(r.conv.value.dst, PutConv(r.conv.value.conv, k)) else k))
  }

  function PutResults(rs: seq<MultiResult>, k: Stream): Stream {
    if rs == [] then k else PutResult(rs[0], PutResults(rs[1..], k))
  }

  // ----- Expressions -----

  function PutExprs(a: Archive, es: seq<Expr>, k: Stream): Stream
    decreases es, 0
  {
    if es == [] then k else PutExpr(a, es[0], PutExprs(a, es[1..], k))
  }

  function PutOpt(a: Archive, e: Option<Expr>, k: Stream): Stream
    decreases e, 0
  {
    if e.Some? then PutBit(true, PutExpr(a, e.value, k)) else PutBit(false, k)
  }

  function PutExpr(a: Archive, e: Expr, k: Stream): Stream
    decreases e, 0
  {
    var k1 := PutCode(ExprCode(e.node), PutNode(a, e.node, k));
    if e.reshape.Some? then PutCode(EXPR_RESHAPE, PutType(e.reshape.value, k1)) else k1
  }

  /** A node, after its code. The nodes are in groups that are laid out alike. */
  function PutNode(a: Archive, n: Node, k: Stream): Stream
    decreases n, 3
  {
    if IsAtom(n) then PutAtom(a, n, k) else PutCompound(a, n, k)
  }

  /** The nodes that hold no expression. */
  predicate IsAtom(n: Node) { n.FuncLit? || n.MethodExpr? || IsTypedLeaf(n) || IsLeaf(n) }

  function PutAtom(a: Archive, n: Node, k: Stream): Stream
    requires IsAtom(n)
  {
    if n.FuncLit? then PutLitRef(a, n.lit, k)
    else if n.MethodExpr? then PutMethodExpr(a, n, k)
    else if IsTypedLeaf(n) then PutTypedLeaf(a, n, k)
    else PutLeaf(a, n, k)
  }

  function PutCompound(a: Archive, n: Node, k: Stream): Stream
    requires !IsAtom(n)
    decreases n, 2
  {
    if IsOperand(n) then PutOperand(a, n, k)
    else if IsOperation(n) then PutOperation(a, n, k)
    else if n.Call? then PutCall(a, n, k)
    else PutMaker(a, n, k)
  }

  /** The nodes that begin with an operand and its position. */
  predicate IsOperand(n: Node) { IsSelection(n) || IsAccess(n) }

  function PutOperand(a: Archive, n: Node, k: Stream): Stream
    requires IsOperand(n)
    decreases n, 1
  {
    if IsSelection(n) then PutSelection(a, n, k) else PutAccess(a, n, k)
  }

  /** The nodes that make a value of a type they name. */
  predicate IsMaker(n: Node) { n.Make? || n.NewValue? || n.NewType? || n.Convert? || n.CompLit? }

  function PutMaker(a: Archive, n: Node, k: Stream): Stream
    requires IsMaker(n)
    decreases n, 1
  {
    if n.Make? then PutMake(a, n, k)
    else if IsNew(n) then PutNew(a, n, k)
    else if n.Convert? then PutConvert(a, n, k)
    else PutLit(a, n, k)
  }

  predicate IsSelection(n: Node) { n.FieldVal? || n.MethodVal? || n.Recv? }

  predicate IsAccess(n: Node) { n.Index? || n.Slice? || n.Assert? }

  predicate IsOperation(n: Node) { n.Unary? || n.Binary? }

  predicate IsNew(n: Node) { n.NewValue? || n.NewType? }

  predicate IsTypedLeaf(n: Node) { n.Const? || n.Zero? || n.Sizeof? || n.Alignof? || n.Offsetof? }

  predicate IsLeaf(n: Node) { n.LocalUse? || n.Global? || n.FuncInstRef? || n.RuntimeBuiltin? }

  function PutTypedLeaf(a: Archive, n: Node, k: Stream): Stream
    requires IsTypedLeaf(n)
  {
    PutPos(n.pos, PutType(n.typ,
      if n.Const? then PutValue(a, n.value, k)
      else if !n.Offsetof? then k
      else if n.fields == [] then Refused
      else PutLen(|n.fields| - 1, PutLens(n.fields, k))))
  }

  function PutLeaf(a: Archive, n: Node, k: Stream): Stream
    requires IsLeaf(n)
  {
    match n
    case LocalUse(captured, i) => PutBit(!captured, PutLen(i, k))
    case Global(o) => PutObj(o, k)
    case FuncInstRef(p, f) => PutPos(p, PutInst(f, k))
    case RuntimeBuiltin(name) => PutStr(a, name, k)
  }

  function PutMethodExpr(a: Archive, n: Node, k: Stream): Stream
    requires n.MethodExpr?
  {
    PutType(n.recv, PutPath(n.path, PutPos(n.pos, PutMethod(a, n.method_, k))))
  }

  /** A literal names the element that holds its body. */
  function PutLitRef(a: Archive, l: LitRef, k: Stream): Stream {
    PutPos(l.pos, PutSignature(a, l.sig, PutLen(|l.captures|, PutCaptures(l.captures, PutRef(Bodies, l.body, k)))))
  }

  function PutSelection(a: Archive, n: Node, k: Stream): Stream
    requires IsSelection(n)
    decreases n, 0
  {
    PutExpr(a, n.x, PutPos(n.pos,
      match n
      case FieldVal(_, _, sel) => PutSelector(a, sel, k)
      case MethodVal(_, _, m) => PutMethod(a, m, k)
      case Recv(_, _, path) => PutPath(path, k)))
  }

  function PutAccess(a: Archive, n: Node, k: Stream): Stream
    requires IsAccess(n)
    decreases n, 0
  {
    PutExpr(a, n.x, PutPos(n.pos,
      match n
      case Index(x, _, i, m) => PutExpr(a, i, PutMapRType(a, TypeOf(x), m, k))
      case Slice(_, _, lo, hi, max) => PutOpt(a, lo, PutOpt(a, hi, PutOpt(a, max, k)))
      case Assert(_, _, t, src) => PutExprType(t, PutRType(src, k))))
  }

  function PutOperation(a: Archive, n: Node, k: Stream): Stream
    requires IsOperation(n)
    decreases n, 0
  {
    match n
    case Unary(op, p, x) => PutOp(op, PutPos(p, PutExpr(a, x, k)))
    case Binary(op, x, p, y) => PutOp(op, PutExpr(a, x, PutPos(p, PutExpr(a, y, k))))
  }

  function PutNew(a: Archive, n: Node, k: Stream): Stream
    requires IsNew(n)
    decreases n, 0
  {
    PutPos(n.pos, if n.NewValue? then PutBit(true, PutExpr(a, n.x, k)) else PutBit(false, PutExprType(n.exprType, k)))
  }

  function PutMake(a: Archive, n: Node, k: Stream): Stream
    requires n.Make?
    decreases n, 0
  {
    PutPos(n.pos, PutExprType(n.exprType, PutLen(|n.makeArgs|, PutExprs(a, n.makeArgs, PutRType(n.makeRType, k)))))
  }

  function PutCall(a: Archive, n: Node, k: Stream): Stream
    requires n.Call?
    decreases n, 0
  {
    PutCallee(a, n.callee, PutPos(n.pos, PutMulti(a, n.args,
      PutBit(n.dots, PutOptRType(NeedsRType(a, n.callee), n.rtype, k)))))
  }

  function PutConvert(a: Archive, n: Node, k: Stream): Stream
    requires n.Convert?
    decreases n, 0
  {
    PutBit(n.implicit, PutType(n.typ, PutPos(n.pos, PutConv(n.conv,
      PutBit(n.typeParam, PutBit(n.identical, PutExpr(a, n.x, k)))))))
  }

  function PutCallee(a: Archive, c: Callee, k: Stream): Stream
    decreases c, 0
  {
    match c
    case MethodCall(x, m) => PutBit(true, PutExpr(a, x, PutMethod(a, m, k)))
    case InstCall(p, f) => PutBit(false, PutBit(true, PutPos(p, PutInst(f, k))))
    case FunCall(x) => PutBit(false, PutBit(false, PutExpr(a, x, k)))
  }

  // ----- Composite literals -----

  /** The core types a literal can build. */
  predicate Builds(core: Core) { core.MapCore? || core.ListCore? || core.StructCore? }

  /** A negative count says that the elements carry keys. */
  function PutLit(a: Archive, n: Node, k: Stream): Stream
    requires n.CompLit?
    decreases n, 0
  {
    var core := LitCore(a, n.typ);
    PutPos(n.pos, PutType(n.typ, PutOptRType(core.MapCore?, n.mapRType,
      PutInt(if n.keyed then -|n.elems| else |n.elems|,
        if Builds(core) then PutElems(a, n.elems, core, n.keyed, 0, k) else Refused))))
  }

  function PutElems(a: Archive, es: seq<LitElem>, core: Core, keyed: bool, i: nat, k: Stream): Stream
    requires Builds(core)
    decreases es, 0
  {
    if es == [] then k else PutElem(a, es[0], core, keyed, i, PutElems(a, es[1..], core, keyed, i + 1, k))
  }

  function PutElem(a: Archive, e: LitElem, core: Core, keyed: bool, i: nat, k: Stream): Stream
    requires Builds(core)
    decreases e, 1
  {
    match core
    case MapCore => PutMapElem(a, e, k)
    case ListCore => PutListElem(a, e, keyed, k)
    case StructCore => PutStructElem(a, e, keyed, i, k)
  }

  function PutMapElem(a: Archive, e: LitElem, k: Stream): Stream
    decreases e, 0
  {
    PutPos(e.pos, if e.key.None? then Refused else PutExpr(a, e.key.value, PutExpr(a, e.value, k)))
  }

  function PutListElem(a: Archive, e: LitElem, keyed: bool, k: Stream): Stream
    decreases e, 0
  {
    var k1 := PutExpr(a, e.value, k);
    if !keyed then if e.key.Some? then Refused else k1
    else if e.key.Some? then PutBit(true, PutPos(e.pos, PutExpr(a, e.key.value, k1)))
    else PutBit(false, k1)
  }

  /** A negative index is the length of a path to a promoted field. */
  function PutStructElem(a: Archive, e: LitElem, keyed: bool, i: nat, k: Stream): Stream
    decreases e, 0
  {
    var k1 := PutExpr(a, e.value, k);
    PutPos(e.pos,
      if !keyed then if e.field == i then k1 else Refused
      else if e.embedded != [] then PutInt(-|e.embedded|, PutInts(e.embedded, k1))
      else PutInt(e.field, k1))
  }

  // ----- The element -----

  /** The element that holds a body. The number of parameters is not in it. */
  function PutBody(a: Archive, b: Body): Stream {
    PutLocals(b.params,
      if b.block.Some? then PutBit(true, PutStmts(a, b.block.value.stmts, PutPos(b.block.value.rbrace, End)))
      else PutBit(false, End))
  }
}

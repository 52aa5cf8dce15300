/** The trees the reader produces (export/bodyread.go).

    The writer does not look at a field that its layout has no room for, and
    the reader leaves such a field at zero. `Canon…` says that of every node,
    that every slot is in the dictionary, and that the element a function
    literal names holds the literal's body. */
module BodyCanonical {
  import opened Wrappers
  import opened BodyTree
  import opened BodyFormat

  // ----- Leaves -----

  predicate CanonType(a: Archive, t: TypeUse) { t.DerivedAt? ==> t.slot < |a.derived| }

  predicate CanonTypes(a: Archive, ts: seq<TypeUse>) {
    ts == [] || (CanonType(a, ts[0]) && CanonTypes(a, ts[1..]))
  }

  predicate CanonObj(a: Archive, o: ObjUse) { CanonTypes(a, o.targs) }

  predicate CanonRType(a: Archive, t: RType) { if t.RTypeAt? then t.slot < a.rtypes else CanonType(a, t.typ) }

  predicate CanonOptRType(a: Archive, t: Option<RType>) { t.Some? ==> CanonRType(a, t.value) }

  predicate CanonConv(a: Archive, c: ConvRTTI) { CanonRType(a, c.src) && CanonRType(a, c.dst) }

  predicate CanonOptConv(a: Archive, c: Option<ConvRTTI>) { c.Some? ==> CanonConv(a, c.value) }

  predicate CanonExprType(a: Archive, t: ExprType) {
    if t.AgainstItab? then CanonConv(a, t.conv) else CanonRType(a, t.rtype)
  }

  predicate CanonCase(a: Archive, t: Option<ExprType>) { t.Some? ==> CanonExprType(a, t.value) }

  predicate CanonCases(a: Archive, ts: seq<Option<ExprType>>) {
    ts == [] || (CanonCase(a, ts[0]) && CanonCases(a, ts[1..]))
  }

  predicate CanonInst(a: Archive, f: FuncInst) { f.InstOf? ==> CanonObj(a, f.obj) }

  predicate CanonMethodDict(a: Archive, d: MethodDict) { d.ViaStatic? ==> CanonObj(a, d.obj) }

  predicate CanonMethod(a: Archive, m: MethodRef) {
    CanonType(a, m.recv) && (m.sig.Some? ==> CanonType(a, m.sig.value)) && CanonMethodDict(a, m.dict)
  }

  predicate CanonPath(p: Path) { p.deref ==> !p.addr }

  predicate CanonParams(a: Archive, ps: seq<Param>) {
    ps == [] || (CanonType(a, ps[0].typ) && CanonParams(a, ps[1..]))
  }

  predicate CanonSignature(a: Archive, s: Signature) { CanonParams(a, s.params) && CanonParams(a, s.results) }

  predicate CanonResult(a: Archive, r: MultiResult) {
    CanonType(a, r.src) && (r.conv.Some? ==> CanonType(a, r.conv.value.dst) && CanonConv(a, r.conv.value.conv))
  }

  predicate CanonResults(a: Archive, rs: seq<MultiResult>) {
    rs == [] || (CanonResult(a, rs[0]) && CanonResults(a, rs[1..]))
  }

  predicate CanonScope(s: Scope, first: bool) { first ==> s.close.None? }

  predicate CanonClauseVar(a: Archive, named: bool, v: Option<ClauseVar>) {
    v.Some? ==> named && CanonType(a, v.value.typ)
  }

  predicate CanonRangeConvs(a: Archive, c: RangeConvs) { CanonOptConv(a, c.key) && CanonOptConv(a, c.value) }

  // ----- Statements -----

  predicate CanonStmts(a: Archive, bs: Bodies, ss: seq<Stmt>)
    decreases ss, 0
  {
    ss == [] || (CanonStmt(a, bs, ss[0]) && CanonStmts(a, bs, ss[1..]))
  }

  predicate CanonStmt(a: Archive, bs: Bodies, s: Stmt)
    decreases s, 2
  {
    if IsBasic(s) then CanonBasic(a, bs, s)
    else if s.IfStmt? then CanonIf(a, bs, s)
    else if s.ForStmt? then CanonFor(a, bs, s)
    else if s.SwitchStmt? then CanonSwitch(a, bs, s)
    else CanonSelect(a, bs, s)
  }

  predicate CanonBasic(a: Archive, bs: Bodies, s: Stmt)
    requires IsBasic(s)
    decreases s, 1
  {
    if IsSimple(s) then CanonSimple(a, bs, s)
    else if IsPlaced(s) then CanonPlaced(a, bs, s)
    else if s.AssignStmt? then CanonAssign(a, bs, s)
    else CanonCallStmt(a, bs, s)
  }

  predicate CanonSimple(a: Archive, bs: Bodies, s: Stmt)
    requires IsSimple(s)
    decreases s, 0
  {
    match s
    case BlockStmt(b) => CanonBlock(a, bs, b)
    case ExprStmt(x) => CanonExpr(a, bs, x)
    case AssignOpStmt(_, dst, _, src) => CanonExpr(a, bs, dst) && CanonExpr(a, bs, src)
    case IncDecStmt(_, x, _) => CanonExpr(a, bs, x)
  }

  predicate CanonPlaced(a: Archive, bs: Bodies, s: Stmt)
    requires IsPlaced(s)
    decreases s, 0
  {
    match s
    case LabelStmt(_, _) => true
    case SendStmt(_, ch, v) => CanonExpr(a, bs, ch) && CanonExpr(a, bs, v)
    case BranchStmt(_, _, _) => true
    case ReturnStmt(_, rs) => CanonMulti(a, bs, rs)
  }

  predicate CanonAssign(a: Archive, bs: Bodies, s: Stmt)
    requires s.AssignStmt?
    decreases s, 0
  {
    CanonAssignees(a, bs, s.lhs) && CanonMulti(a, bs, s.rhs)
  }

  predicate CanonCallStmt(a: Archive, bs: Bodies, s: Stmt)
    requires s.CallStmt?
    decreases s, 0
  {
    CanonExpr(a, bs, s.call) && CanonOpt(a, bs, s.deferAt) && (s.op != OP_DEFER ==> s.deferAt.None?)
  }

  predicate CanonIf(a: Archive, bs: Bodies, s: Stmt)
    requires s.IfStmt?
    decreases s, 0
  {
    CanonStmts(a, bs, s.init) && CanonExpr(a, bs, s.cond) && CanonArms(a, bs, s.known, s.arms)
  }

  /** Only the arms that are written are there. */
  predicate CanonArms(a: Archive, bs: Bodies, known: int, arms: Arms)
    decreases arms, 0
  {
    && (if known < 0 then arms.thn.None? else arms.thenClose.NoPos?) && (known > 0 ==> arms.els == [])
    && (arms.thn.Some? ==> CanonBlock(a, bs, arms.thn.value)) && CanonStmts(a, bs, arms.els)
  }

  predicate CanonFor(a: Archive, bs: Bodies, s: Stmt)
    requires s.ForStmt?
    decreases s, 0
  {
    CanonHead(a, bs, s.head) && CanonBlock(a, bs, s.body)
  }

  predicate CanonSwitch(a: Archive, bs: Bodies, s: Stmt)
    requires s.SwitchStmt?
    decreases s, 0
  {
    CanonStmts(a, bs, s.init) && CanonSwitchCases(a, bs, s.cases)
  }

  predicate CanonSwitchCases(a: Archive, bs: Bodies, c: Cases)
    decreases c, 0
  {
    && CanonTag(a, bs, c.tag)
    && CanonClauses(a, bs, c.clauses, c.tag.Guard?, c.tag.Guard? && c.tag.name.Some?, true)
    && (c.clauses == [] ==> c.clausesClose.NoPos?)
  }

  predicate CanonSelect(a: Archive, bs: Bodies, s: Stmt)
    requires s.SelectStmt?
    decreases s, 0
  {
    CanonComms(a, bs, s.comms, true) && (s.comms == [] ==> s.close.NoPos?)
  }

  predicate CanonBlock(a: Archive, bs: Bodies, b: Block)
    decreases b, 0
  {
    CanonStmts(a, bs, b.body)
  }

  predicate CanonHead(a: Archive, bs: Bodies, h: ForHead)
    decreases h, 1
  {
    if h.Range? then CanonRange(a, bs, h) else CanonThree(a, bs, h)
  }

  predicate CanonRange(a: Archive, bs: Bodies, h: ForHead)
    requires h.Range?
    decreases h, 0
  {
    && CanonAssignees(a, bs, h.lhs) && CanonExpr(a, bs, h.x)
    && CanonOptRType(a, h.mapRType) && CanonRangeConvs(a, h.convs)
  }

  predicate CanonThree(a: Archive, bs: Bodies, h: ForHead)
    requires h.Three?
    decreases h, 0
  {
    CanonStmts(a, bs, h.init) && CanonOpt(a, bs, h.cond) && CanonStmts(a, bs, h.post)
  }

  predicate CanonTag(a: Archive, bs: Bodies, t: SwitchTag)
    decreases t, 0
  {
    match t
    case Guard(_, _, x) => CanonExpr(a, bs, x)
    case Tag(x) => CanonOpt(a, bs, x)
  }

  predicate CanonClauses(a: Archive, bs: Bodies, cs: seq<Clause>, guard: bool, named: bool, first: bool)
    decreases cs, 0
  {
    cs == [] || (CanonClause(a, bs, cs[0], guard, named, first) && CanonClauses(a, bs, cs[1..], guard, named, false))
  }

  predicate CanonClause(a: Archive, bs: Bodies, c: Clause, guard: bool, named: bool, first: bool)
    decreases c, 0
  {
    && CanonScope(c.scope, first) && CanonClauseVar(a, named, c.variable)
    && CanonTests(a, bs, guard, c.tests) && CanonStmts(a, bs, c.body)
  }

  predicate CanonTests(a: Archive, bs: Bodies, guard: bool, t: Tests)
    decreases t, 0
  {
    if guard then CanonCases(a, t.types) && t.exprs == [] else CanonExprs(a, bs, t.exprs) && t.types == []
  }

  predicate CanonComms(a: Archive, bs: Bodies, cs: seq<CommClause>, first: bool)
    decreases cs, 0
  {
    cs == [] || (CanonComm(a, bs, cs[0], first) && CanonComms(a, bs, cs[1..], false))
  }

  predicate CanonComm(a: Archive, bs: Bodies, c: CommClause, first: bool)
    decreases c, 0
  {
    CanonScope(c.scope, first) && CanonStmts(a, bs, c.comm) && CanonStmts(a, bs, c.body)
  }

  predicate CanonAssignees(a: Archive, bs: Bodies, xs: seq<Assignee>)
    decreases xs, 0
  {
    xs == [] || (CanonAssignee(a, bs, xs[0]) && CanonAssignees(a, bs, xs[1..]))
  }

  predicate CanonAssignee(a: Archive, bs: Bodies, x: Assignee)
    decreases x, 0
  {
    match x
    case Blank => true
    case Def(_, _, t, _) => CanonType(a, t)
    case Dest(e) => CanonExpr(a, bs, e)
  }

  predicate CanonMulti(a: Archive, bs: Bodies, m: MultiExpr)
    decreases m, 0
  {
    match m
    case Single(_, x, rs) => CanonExpr(a, bs, x) && CanonResults(a, rs)
    case Each(es) => CanonExprs(a, bs, es)
  }

  // ----- Expressions -----

  predicate CanonExprs(a: Archive, bs: Bodies, es: seq<Expr>)
    decreases es, 0
  {
    es == [] || (CanonExpr(a, bs, es[0]) && CanonExprs(a, bs, es[1..]))
  }

  predicate CanonOpt(a: Archive, bs: Bodies, e: Option<Expr>)
    decreases e, 0
  {
    e.Some? ==> CanonExpr(a, bs, e.value)
  }

  predicate CanonExpr(a: Archive, bs: Bodies, e: Expr)
    decreases e, 0
  {
    (e.reshape.Some? ==> CanonType(a, e.reshape.value)) && CanonNode(a, bs, e.node)
  }

  predicate CanonNode(a: Archive, bs: Bodies, n: Node)
    decreases n, 3
  {
    if IsAtom(n) then CanonAtom(a, bs, n) else CanonCompound(a, bs, n)
  }

  predicate CanonAtom(a: Archive, bs: Bodies, n: Node)
    requires IsAtom(n)
    decreases n, 1
  {
    if n.FuncLit? then CanonFuncLit(a, bs, n)
    else if n.MethodExpr? then CanonMethodExpr(a, n)
    else if IsTypedLeaf(n) then CanonType(a, n.typ)
    else CanonLeaf(a, n)
  }

  predicate CanonMethodExpr(a: Archive, n: Node)
    requires n.MethodExpr?
  {
    CanonType(a, n.recv) && CanonPath(n.path) && CanonMethod(a, n.method_)
  }

  predicate CanonCompound(a: Archive, bs: Bodies, n: Node)
    requires !IsAtom(n)
    decreases n, 2
  {
    if IsOperand(n) then CanonOperand(a, bs, n)
    else if IsOperation(n) then CanonOperation(a, bs, n)
    else if n.Call? then CanonCall(a, bs, n)
    else CanonMaker(a, bs, n)
  }

  predicate CanonOperand(a: Archive, bs: Bodies, n: Node)
    requires IsOperand(n)
    decreases n, 1
  {
    if IsSelection(n) then CanonSelection(a, bs, n) else CanonAccess(a, bs, n)
  }

  predicate CanonMaker(a: Archive, bs: Bodies, n: Node)
    requires IsMaker(n)
    decreases n, 1
  {
    if n.Make? then CanonMake(a, bs, n)
    else if IsNew(n) then CanonNew(a, bs, n)
    else if n.Convert? then CanonConvert(a, bs, n)
    else CanonLit(a, bs, n)
  }

  predicate CanonLeaf(a: Archive, n: Node)
    requires IsLeaf(n)
  {
    match n
    case LocalUse(_, _) => true
    case Global(o) => CanonObj(a, o)
    case FuncInstRef(_, f) => CanonInst(a, f)
    case RuntimeBuiltin(_) => true
  }

  predicate CanonLitRef(a: Archive, l: LitRef) { CanonSignature(a, l.sig) }

  /** The element the literal names holds its body. */
  predicate CanonFuncLit(a: Archive, bs: Bodies, n: Node)
    requires n.FuncLit?
    decreases n, 0
  {
    && CanonLitRef(a, n.lit)
    && Held(a, bs, n.lit.body, n.decoded, |n.lit.sig.params| + |n.lit.sig.results|)
    && CanonBody(a, bs - {n.lit.body}, n.decoded)
  }

  predicate CanonSelection(a: Archive, bs: Bodies, n: Node)
    requires IsSelection(n)
    decreases n, 0
  {
    && CanonExpr(a, bs, n.x)
    && match n
       case FieldVal(_, _, _) => true
       case MethodVal(_, _, m) => CanonMethod(a, m)
       case Recv(_, _, p) => CanonPath(p)
  }

  predicate CanonAccess(a: Archive, bs: Bodies, n: Node)
    requires IsAccess(n)
    decreases n, 0
  {
    && CanonExpr(a, bs, n.x)
    && match n
       case Index(_, _, i, m) => CanonExpr(a, bs, i) && CanonOptRType(a, m)
       case Slice(_, _, lo, hi, max) => CanonOpt(a, bs, lo) && CanonOpt(a, bs, hi) && CanonOpt(a, bs, max)
       case Assert(_, _, t, src) => CanonExprType(a, t) && CanonRType(a, src)
  }

  predicate CanonOperation(a: Archive, bs: Bodies, n: Node)
    requires IsOperation(n)
    decreases n, 0
  {
    CanonExpr(a, bs, n.x) && (n.Binary? ==> CanonExpr(a, bs, n.y))
  }

  predicate CanonNew(a: Archive, bs: Bodies, n: Node)
    requires IsNew(n)
    decreases n, 0
  {
    if n.NewValue? then CanonExpr(a, bs, n.x) else CanonExprType(a, n.exprType)
  }

  predicate CanonMake(a: Archive, bs: Bodies, n: Node)
    requires n.Make?
    decreases n, 0
  {
    CanonExprType(a, n.exprType) && CanonExprs(a, bs, n.makeArgs) && CanonRType(a, n.makeRType)
  }

  predicate CanonCall(a: Archive, bs: Bodies, n: Node)
    requires n.Call?
    decreases n, 0
  {
    CanonCallee(a, bs, n.callee) && CanonMulti(a, bs, n.args) && CanonOptRType(a, n.rtype)
  }

  predicate CanonConvert(a: Archive, bs: Bodies, n: Node)
    requires n.Convert?
    decreases n, 0
  {
    CanonType(a, n.typ) && CanonConv(a, n.conv) && CanonExpr(a, bs, n.x)
  }

  predicate CanonLit(a: Archive, bs: Bodies, n: Node)
    requires n.CompLit?
    decreases n, 0
  {
    && CanonType(a, n.typ) && CanonOptRType(a, n.mapRType) && (n.keyed ==> n.elems != [])
    && Builds(LitCore(a, n.typ)) && CanonElems(a, bs, n.elems, LitCore(a, n.typ), n.keyed)
  }

  predicate CanonCallee(a: Archive, bs: Bodies, c: Callee)
    decreases c, 0
  {
    match c
    case MethodCall(x, m) => CanonExpr(a, bs, x) && CanonMethod(a, m)
    case InstCall(_, f) => CanonInst(a, f)
    case FunCall(x) => CanonExpr(a, bs, x)
  }

  function Last(s: seq<int>): int
    requires s != []
  {
    s[|s| - 1]
  }

  predicate CanonElems(a: Archive, bs: Bodies, es: seq<LitElem>, core: Core, keyed: bool)
    requires Builds(core)
    decreases es, 0
  {
    es == [] || (CanonElem(a, bs, es[0], core, keyed) && CanonElems(a, bs, es[1..], core, keyed))
  }

  predicate CanonElem(a: Archive, bs: Bodies, e: LitElem, core: Core, keyed: bool)
    requires Builds(core)
    decreases e, 1
  {
    match core
    case MapCore => CanonMapElem(a, bs, e)
    case ListCore => CanonListElem(a, bs, e)
    case StructCore => CanonStructElem(a, bs, e, keyed)
  }

  predicate CanonMapElem(a: Archive, bs: Bodies, e: LitElem)
    decreases e, 0
  {
    CanonOpt(a, bs, e.key) && CanonExpr(a, bs, e.value) && e.field == 0 && e.embedded == []
  }

  predicate CanonListElem(a: Archive, bs: Bodies, e: LitElem)
    decreases e, 0
  {
    && CanonOpt(a, bs, e.key) && CanonExpr(a, bs, e.value) && e.field == 0 && e.embedded == []
    && (e.key.None? ==> e.pos.NoPos?)
  }

  /** A promoted field's index is the last step of its path. */
  predicate CanonStructElem(a: Archive, bs: Bodies, e: LitElem, keyed: bool)
    decreases e, 0
  {
    && CanonExpr(a, bs, e.value) && e.key.None?
    && (if !keyed then e.embedded == []
        else if e.embedded != [] then e.field == Last(e.embedded) else e.field >= 0)
  }

  // ----- The element -----

  /** Element i holds a whole body with so many parameters. */
  predicate Held(a: Archive, bs: Bodies, i: nat, b: Body, nparams: nat) {
    i in bs && bs[i] == ElementOf(PutBody(a, b)) && Complete(PutBody(a, b)) && |b.params| == nparams
  }

  /** A literal's own element is not one of the elements inside it. */
  predicate CanonBody(a: Archive, bs: Bodies, b: Body)
    decreases b, 0
  {
    b.block.Some? ==> CanonStmts(a, bs, b.block.value.stmts)
  }
}

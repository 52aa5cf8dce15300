/** Which bodies the writer takes (export/bodywrite.go).

    Nothing here looks at a stream. A body can be written when the archive has
    an element for each string and package it names, when each operator is one
    a body can carry, and when the fields that only some nodes have are there
    on exactly those nodes. */
module BodyWritable {
  import opened Wrappers
  import opened BodyTree

  // ----- What a node calls for -----

  /** The declaration an object of the archive stands for. */
  predicate Stands(a: Archive, idx: nat, d: Decl) { idx < |a.objs| && a.objs[idx] == d }

  /** A call of one of the four builtins that need the type of an element or a
      key at run time. */
  predicate CallsForType(a: Archive, c: Callee) {
    c.FunCall? && c.fun.node.Global? &&
    var idx := c.fun.node.obj.idx;
    || Stands(a, idx, Decl(Universe, "append"))
    || Stands(a, idx, Decl(Universe, "copy"))
    || Stands(a, idx, Decl(Universe, "delete"))
    || Stands(a, idx, Decl(Unsafe, "Slice"))
  }

  /** The core type of a type of the archive or of the dictionary. */
  predicate HasCore(a: Archive, t: TypeUse, c: Core) {
    match t
    case TypeAt(i) => i < |a.types| && a.types[i] == c
    case DerivedAt(i) => i < |a.derived| && a.derived[i] == c
  }

  /** The type that is written in front of an expression: the one it is reshaped
      to, or its own where its node begins with one. */
  predicate HasType(e: Expr, t: TypeUse) {
    e.reshape == Some(t) || (e.reshape.None? && (e.node.Const? || e.node.Zero? || e.node.Convert?) && e.node.typ == t)
  }

  /** A descriptor on an operand that may be a map. Its type must be known. */
  ghost predicate MapAgrees(a: Archive, x: Expr, rtype: Option<RType>) {
    exists t :: HasType(x, t) && (rtype.Some? <==> HasCore(a, t, MapCore))
  }

  /** The type a literal is of, or the one it points to. */
  predicate Makes(a: Archive, t: TypeUse, c: Core) { HasCore(a, t, c) || HasCore(a, t, PointerCore(c)) }

  /** The i'th destination of a range clause is there and is not the blank one. */
  predicate Receives(lhs: seq<Assignee>, i: nat) { i < |lhs| && lhs[i] != Blank }

  /** The operators that a body can carry, by gc's ordinals. */
  const OPERATORS: set<nat> := {
    6, 7, 8, 9, 11, 12, 57, 58, 59, 60, 61, 62, 63, 74, 75, 76, 77, 78, 79, 80, 82, 83, 84, 85, 86, 100, 116, 118, 119, 120, 122, 125
  }

  const DEFER: nat := 119

  // ----- Leaves -----

  predicate CanName(a: Archive, s: Selector) { s.pkg in a.pkgIdx && s.name in a.strIdx }

  predicate CanScalar(a: Archive, v: Scalar) {
    match v
    case BoolValue(_) => true
    case StringValue(s) => s in a.strIdx
    case IntValue(_) => true
    case BigInt(n) => n.bytes in a.strIdx
    case BigRat(n, d) => n.bytes in a.strIdx && d.bytes in a.strIdx
    case BigFloat(t) => t in a.strIdx
  }

  predicate CanValue(a: Archive, v: Value) { CanScalar(a, v.re) && (v.im.Some? ==> CanScalar(a, v.im.value)) }

  predicate CanParams(a: Archive, ps: seq<Param>) { forall p <- ps :: CanName(a, p.name) }

  predicate CanSignature(a: Archive, s: Signature) { CanParams(a, s.params) && CanParams(a, s.results) }

  // ----- Statements -----

  ghost predicate CanStmts(a: Archive, ss: seq<Stmt>)
    decreases ss, 0
  {
    forall i :: 0 <= i < |ss| ==> CanStmt(a, ss[i])
  }

  ghost predicate CanStmt(a: Archive, s: Stmt)
    decreases s, 0
  {
    match s
    case LabelStmt(_, name) => name in a.strIdx
    case BlockStmt(b) => CanStmts(a, b.body)
    case ExprStmt(x) => CanExpr(a, x)
    case SendStmt(_, ch, v) => CanExpr(a, ch) && CanExpr(a, v)
    case AssignStmt(_, lhs, rhs) => CanAssignees(a, lhs) && CanMulti(a, rhs)
    case AssignOpStmt(op, dst, _, src) => op in OPERATORS && CanExpr(a, dst) && CanExpr(a, src)
    case IncDecStmt(op, x, _) => op in OPERATORS && CanExpr(a, x)
    case BranchStmt(_, op, t) => op in OPERATORS && (t.Some? ==> t.value in a.strIdx)
    case CallStmt(_, op, call, at) => op in OPERATORS && CanExpr(a, call) && (op == DEFER ==> CanOpt(a, at))
    case ReturnStmt(_, rs) => CanMulti(a, rs)
    case IfStmt(_, _, init, cond, known, arms) =>
      && CanStmts(a, init) && CanExpr(a, cond)
      && (known >= 0 ==> arms.thn.Some? && CanStmts(a, arms.thn.value.body))
      && (known <= 0 ==> CanStmts(a, arms.els))
    case ForStmt(_, head, body, _) => CanHead(a, head) && CanStmts(a, body.body)
    case SwitchStmt(_, _, init, cases) => CanStmts(a, init) && CanCases(a, cases)
    case SelectStmt(_, comms, _) => CanComms(a, comms)
  }

  ghost predicate CanHead(a: Archive, h: ForHead)
    decreases h, 0
  {
    match h
    case Range(_, lhs, x, m, convs) =>
      && CanAssignees(a, lhs) && CanExpr(a, x) && MapAgrees(a, x, m)
      && (convs.key.Some? <==> Receives(lhs, 0)) && (convs.value.Some? <==> Receives(lhs, 1))
    case Three(_, init, cond, post) => CanStmts(a, init) && CanOpt(a, cond) && CanStmts(a, post)
  }

  /** A clause after the first closes the one before, and a named guard has a
      variable in each. */
  ghost predicate CanCases(a: Archive, c: Cases)
    decreases c, 1
  {
    && (c.tag.Guard? ==> CanExpr(a, c.tag.x) && (c.tag.name.Some? ==> CanName(a, c.tag.name.value.sel)))
    && (c.tag.Tag? ==> CanOpt(a, c.tag.tag))
    && (forall i :: 0 < i < |c.clauses| ==> c.clauses[i].scope.close.Some?)
    && (c.tag.Guard? && c.tag.name.Some? ==> forall i :: 0 <= i < |c.clauses| ==> c.clauses[i].variable.Some?)
    && (forall i :: 0 <= i < |c.clauses| ==> CanClause(a, c.clauses[i], c.tag.Guard?))
  }

  ghost predicate CanClause(a: Archive, c: Clause, guard: bool)
    decreases c, 0
  {
    (!guard ==> CanExprs(a, c.tests.exprs)) && CanStmts(a, c.body)
  }

  ghost predicate CanComms(a: Archive, cs: seq<CommClause>)
    decreases cs, 1
  {
    && (forall i :: 0 < i < |cs| ==> cs[i].scope.close.Some?)
    && (forall i :: 0 <= i < |cs| ==> CanComm(a, cs[i]))
  }

  ghost predicate CanComm(a: Archive, c: CommClause)
    decreases c, 0
  {
    CanStmts(a, c.comm) && CanStmts(a, c.body)
  }

  ghost predicate CanAssignees(a: Archive, xs: seq<Assignee>)
    decreases xs, 1
  {
    forall i :: 0 <= i < |xs| ==> CanAssignee(a, xs[i])
  }

  ghost predicate CanAssignee(a: Archive, x: Assignee)
    decreases x, 0
  {
    match x
    case Blank => true
    case Def(_, name, _, _) => CanName(a, name)
    case Dest(e) => CanExpr(a, e)
  }

  ghost predicate CanMulti(a: Archive, m: MultiExpr)
    decreases m, 0
  {
    match m
    case Single(_, x, _) => CanExpr(a, x)
    case Each(es) => CanExprs(a, es)
  }

  // ----- Expressions -----

  ghost predicate CanExprs(a: Archive, es: seq<Expr>)
    decreases es, 0
  {
    forall i :: 0 <= i < |es| ==> CanExpr(a, es[i])
  }

  ghost predicate CanOpt(a: Archive, e: Option<Expr>)
    decreases e, 0
  {
    e.Some? ==> CanExpr(a, e.value)
  }

  ghost predicate CanExpr(a: Archive, e: Expr)
    decreases e, 0
  {
    CanNode(a, e.node)
  }

  ghost predicate CanNode(a: Archive, n: Node)
    decreases n, 0
  {
    match n
    case Const(_, _, v) => CanValue(a, v)
    case Zero(_, _) => true
    case LocalUse(_, _) => true
    case Global(_) => true
    case FuncInstRef(_, _) => true
    case CompLit(_, t, m, keyed, elems) => CanLit(a, t, m) && CanElems(a, t, keyed, elems)
    case FuncLit(lit, _) => CanSignature(a, lit.sig)
    case FieldVal(x, _, sel) => CanExpr(a, x) && CanName(a, sel)
    case MethodVal(x, _, m) => CanExpr(a, x) && CanName(a, m.sel)
    case MethodExpr(_, _, _, m) => CanName(a, m.sel)
    case Recv(x, _, _) => CanExpr(a, x)
    case Index(x, _, i, m) => CanExpr(a, x) && CanExpr(a, i) && MapAgrees(a, x, m)
    case Slice(x, _, lo, hi, max) => CanExpr(a, x) && CanOpt(a, lo) && CanOpt(a, hi) && CanOpt(a, max)
    case Assert(x, _, _, _) => CanExpr(a, x)
    case Unary(op, _, x) => op in OPERATORS && CanExpr(a, x)
    case Binary(op, x, _, y) => op in OPERATORS && CanExpr(a, x) && CanExpr(a, y)
    case Call(callee, _, args, _, t) => CanCallee(a, callee) && CanMulti(a, args) && (t.Some? <==> CallsForType(a, callee))
    case Convert(_, _, _, _, _, _, x) => CanExpr(a, x)
    case NewValue(_, x) => CanExpr(a, x)
    case NewType(_, _) => true
    case Make(_, _, args, _) => CanExprs(a, args)
    case Sizeof(_, _) => true
    case Alignof(_, _) => true
    case Offsetof(_, _, fields) => fields != []
    case RuntimeBuiltin(name) => name in a.strIdx
  }

  ghost predicate CanCallee(a: Archive, c: Callee)
    decreases c, 0
  {
    match c
    case MethodCall(x, m) => CanExpr(a, x) && CanName(a, m.sel)
    case InstCall(_, _) => true
    case FunCall(x) => CanExpr(a, x)
  }

  /** A literal builds a map, a list or a struct, and the descriptor is a map's. */
  ghost predicate CanLit(a: Archive, t: TypeUse, m: Option<RType>) {
    && (Makes(a, t, MapCore) || Makes(a, t, ListCore) || Makes(a, t, StructCore))
    && (m.Some? <==> Makes(a, t, MapCore))
  }

  ghost predicate CanElems(a: Archive, t: TypeUse, keyed: bool, es: seq<LitElem>)
    decreases es, 1
  {
    forall i :: 0 <= i < |es| ==> CanElem(a, t, keyed, es[i], i)
  }

  /** An element of a map has a key, one of a list without keys has none, and one
      of a struct without keys is the field of its place. */
  ghost predicate CanElem(a: Archive, t: TypeUse, keyed: bool, e: LitElem, i: nat)
    decreases e, 0
  {
    && CanExpr(a, e.value)
    && (Makes(a, t, MapCore) ==> e.key.Some? && CanExpr(a, e.key.value))
    && (Makes(a, t, ListCore) ==> if keyed then CanOpt(a, e.key) else e.key.None?)
    && (Makes(a, t, StructCore) && !keyed ==> e.field == i)
  }

  ghost predicate CanBody(a: Archive, b: Body) { b.block.Some? ==> CanStmts(a, b.block.value.stmts) }
}

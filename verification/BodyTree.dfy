/** The tree of a function body (export/body.go), the archive it refers to and
    the codes it is written with (export/bodycode.go). A field that may be nil
    is an Option, and a flag with the fields it alone governs is one too. */
module BodyTree {
  import opened Wrappers

  // ----- The archive -----

  datatype Pkg = Universe | Unsafe | Package(path: string)

  /** The core type, as far as an encoding depends on it. */
  datatype Core = MapCore | ListCore | StructCore | PointerCore(elem: Core) | OtherCore

  datatype Decl = Decl(pkg: Pkg, name: string)

  datatype Section = Strings | PosBases | Pkgs | Types | Objs | Bodies

  /** The primitives of the container. A reference is resolved here through the
      element's table. `Refused` is where a writer gave up. */
  datatype Token = Bit(bit: bool) | Len(len: nat) | Int(int_: int) | Code(code: nat) | Ref(section: Section, idx: nat)

  datatype Stream = End | Cons(head: Token, tail: Stream) | Refused

  /** A body element: its stream and its reference table. */
  datatype Element = Element(stream: Stream, table: set<(Section, nat)>)

  /** The sections a body refers to, the dictionary of its declaration, and the
      reverse maps that give a string or a package its element. An index past
      the end of `types` or `objs` names something with no special encoding. */
  datatype Archive = Archive(
    strs: seq<string>, pkgs: seq<Pkg>, types: seq<Core>, objs: seq<Decl>,
    derived: seq<Core>, rtypes: nat,
    strIdx: map<string, nat>, pkgIdx: map<Pkg, nat>)

  /** The body elements, by index. */
  type Bodies = map<nat, Element>

  /** The reverse maps are the inverses of the sections. */
  ghost predicate Mirrors(a: Archive) {
    && (forall i :: 0 <= i < |a.strs| ==> a.strs[i] in a.strIdx && a.strIdx[a.strs[i]] == i)
    && (forall s <- a.strIdx :: a.strIdx[s] < |a.strs| && a.strs[a.strIdx[s]] == s)
    && (forall i :: 0 <= i < |a.pkgs| ==> a.pkgs[i] in a.pkgIdx && a.pkgIdx[a.pkgs[i]] == i)
    && (forall p <- a.pkgIdx :: a.pkgIdx[p] < |a.pkgs| && a.pkgs[a.pkgIdx[p]] == p)
  }

  // ----- References -----

  datatype Pos = NoPos | Pos(base: nat, line: nat, col: nat)

  datatype TypeUse = TypeAt(idx: nat) | DerivedAt(slot: nat)

  datatype ObjUse = ObjUse(idx: nat, targs: seq<TypeUse>)

  datatype Selector = Selector(pkg: Pkg, name: string)

  datatype RType = RTypeOf(typ: TypeUse) | RTypeAt(slot: nat)

  datatype ConvRTTI = ConvRTTI(src: RType, dst: RType, itab: Option<nat>)

  datatype ExprType = AgainstItab(pos: Pos, conv: ConvRTTI) | WithRType(pos: Pos, rtype: RType, derived: bool)

  datatype FuncInst = InstAt(slot: nat) | InstOf(obj: ObjUse)

  datatype MethodDict = ViaTypeParam(slot: nat) | ViaSubdict(slot: nat) | ViaStatic(obj: ObjUse) | NoDict

  /** `sig` is absent for a method with type parameters of its own. */
  datatype MethodRef = MethodRef(recv: TypeUse, sig: Option<TypeUse>, pos: Pos, sel: Selector, dict: MethodDict)

  datatype Local = Local(slot: Option<nat>)

  datatype Scalar =
    | BoolValue(b: bool) | StringValue(s: string) | IntValue(i: int)
    | BigInt(n: Big) | BigRat(num: Big, denom: Big) | BigFloat(text: string)

  datatype Big = Big(bytes: string, negative: bool)

  /** A constant in canonical form. The imaginary part makes it complex. */
  datatype Value = Value(re: Scalar, im: Option<Scalar>)

  // ----- Statements -----

  datatype Body = Body(params: seq<Local>, block: Option<Block0>)

  /** The statements of a body and its closing brace. */
  datatype Block0 = Block0(stmts: seq<Stmt>, rbrace: Pos)

  datatype Block = Block(open: Pos, body: seq<Stmt>, close: Pos)

  datatype Stmt =
    | LabelStmt(pos: Pos, name: string)
    | BlockStmt(block: Block)
    | ExprStmt(x: Expr)
    | SendStmt(pos: Pos, ch: Expr, value: Expr)
    | AssignStmt(pos: Pos, lhs: seq<Assignee>, rhs: MultiExpr)
    | AssignOpStmt(op: nat, dst: Expr, pos: Pos, src: Expr)
    | IncDecStmt(op: nat, x: Expr, pos: Pos)
    | BranchStmt(pos: Pos, op: nat, target: Option<string>)
    | CallStmt(pos: Pos, op: nat, call: Expr, deferAt: Option<Expr>)
    | ReturnStmt(pos: Pos, results: MultiExpr)
    | IfStmt(open: Pos, pos: Pos, init: seq<Stmt>, cond: Expr, known: int, arms: Arms)
    | ForStmt(open: Pos, head: ForHead, body: Block, distinctVars: bool)
    | SwitchStmt(open: Pos, pos: Pos, init: seq<Stmt>, cases: Cases)
    | SelectStmt(pos: Pos, comms: seq<CommClause>, close: Pos)

  /** `thenClose` is the closing brace of a then block that is not there. */
  datatype Arms = Arms(thn: Option<Block>, thenClose: Pos, els: seq<Stmt>)

  datatype ForHead =
    | Range(pos: Pos, lhs: seq<Assignee>, x: Expr, mapRType: Option<RType>,
            convs: RangeConvs)
    | Three(pos: Pos, init: seq<Stmt>, cond: Option<Expr>, post: seq<Stmt>)

  /** The conversions to the types of the key's and the value's destinations. */
  datatype RangeConvs = RangeConvs(key: Option<ConvRTTI>, value: Option<ConvRTTI>)

  datatype SwitchTag = Guard(pos: Pos, name: Option<GuardName>, x: Expr) | Tag(tag: Option<Expr>)

  datatype GuardName = GuardName(pos: Pos, sel: Selector)

  /** What follows the init statements of a switch. `clausesClose` ends the
      scope of the last clause. */
  datatype Cases = Cases(tag: SwitchTag, clauses: seq<Clause>, clausesClose: Pos, close: Pos)

  datatype Clause = Clause(scope: Scope, tests: Tests, variable: Option<ClauseVar>, body: seq<Stmt>)

  /** Where a clause begins. `close` closes the scope of the clause before. */
  datatype Scope = Scope(close: Option<Pos>, open: Pos, pos: Pos)

  /** `types` is for a type switch, where None is the case nil, and `exprs` for
      any other. */
  datatype Tests = Tests(types: seq<Option<ExprType>>, exprs: seq<Expr>)

  datatype ClauseVar = ClauseVar(pos: Pos, typ: TypeUse, local: Local)

  datatype CommClause = CommClause(scope: Scope, comm: seq<Stmt>, body: seq<Stmt>)

  datatype Assignee = Blank | Def(pos: Pos, name: Selector, typ: TypeUse, local: Local) | Dest(x: Expr)

  datatype MultiExpr = Single(pos: Pos, x: Expr, results: seq<MultiResult>) | Each(exprs: seq<Expr>)

  datatype MultiResult = MultiResult(src: TypeUse, conv: Option<Converted>)

  datatype Converted = Converted(dst: TypeUse, conv: ConvRTTI)

  // ----- Expressions -----

  /** A node and the reshape node in front of it, which carries its type. */
  datatype Expr = Expr(reshape: Option<TypeUse>, node: Node)

  datatype Node =
    | Const(pos: Pos, typ: TypeUse, value: Value)
    | Zero(pos: Pos, typ: TypeUse)
    | LocalUse(captured: bool, index: nat)
    | Global(obj: ObjUse)
    | FuncInstRef(pos: Pos, inst: FuncInst)
    | CompLit(pos: Pos, typ: TypeUse, mapRType: Option<RType>, keyed: bool, elems: seq<LitElem>)
    | FuncLit(lit: LitRef, decoded: Body)
    | FieldVal(x: Expr, pos: Pos, sel: Selector)
    | MethodVal(x: Expr, pos: Pos, method_: MethodRef)
    | MethodExpr(recv: TypeUse, path: Path, pos: Pos, method_: MethodRef)
    | Recv(x: Expr, pos: Pos, path: Path)
    | Index(x: Expr, pos: Pos, index_: Expr, mapRType: Option<RType>)
    | Slice(x: Expr, pos: Pos, lo: Option<Expr>, hi: Option<Expr>, max: Option<Expr>)
    | Assert(x: Expr, pos: Pos, exprType: ExprType, src: RType)
    | Unary(op: nat, pos: Pos, x: Expr)
    | Binary(op: nat, x: Expr, pos: Pos, y: Expr)
    | Call(callee: Callee, pos: Pos, args: MultiExpr, dots: bool, rtype: Option<RType>)
    | Convert(implicit: bool, typ: TypeUse, pos: Pos, conv: ConvRTTI, typeParam: bool, identical: bool, x: Expr)
    | NewValue(pos: Pos, x: Expr)
    | NewType(pos: Pos, exprType: ExprType)
    | Make(pos: Pos, exprType: ExprType, makeArgs: seq<Expr>, makeRType: RType)
    | Sizeof(pos: Pos, typ: TypeUse)
    | Alignof(pos: Pos, typ: TypeUse)
    | Offsetof(pos: Pos, typ: TypeUse, fields: seq<nat>)
    | RuntimeBuiltin(name: string)

  /** What an element says of a function literal: `body` is the element that
      holds the literal's own body, which is `decoded`. */
  datatype LitRef = LitRef(pos: Pos, sig: Signature, captures: seq<Capture>, body: nat)

  /** The implicit steps of a selection: embedded fields, then a dereference or
      an address. */
  datatype Path = Path(implicits: seq<nat>, deref: bool, addr: bool)

  datatype Callee = MethodCall(recv: Expr, method_: MethodRef) | InstCall(pos: Pos, inst: FuncInst) | FunCall(fun: Expr)

  /** An element of a literal: with a key, for a field, or for a field promoted
      through the embedded fields of `embedded`. */
  datatype LitElem = LitElem(pos: Pos, key: Option<Expr>, field: int, embedded: seq<int>, value: Expr)

  datatype Signature = Signature(params: seq<Param>, results: seq<Param>, variadic: bool, rangeFuncBody: bool)

  datatype Param = Param(pos: Pos, name: Selector, typ: TypeUse)

  datatype Capture = Capture(pos: Pos, captured: bool, index: nat)

  // ----- Codes -----

  const STMT_END: nat := 0
  const STMT_LABEL: nat := 1
  const STMT_BLOCK: nat := 2
  const STMT_EXPR: nat := 3
  const STMT_SEND: nat := 4
  const STMT_ASSIGN: nat := 5
  const STMT_ASSIGN_OP: nat := 6
  const STMT_INC_DEC: nat := 7
  const STMT_BRANCH: nat := 8
  const STMT_CALL: nat := 9
  const STMT_RETURN: nat := 10
  const STMT_IF: nat := 11
  const STMT_FOR: nat := 12
  const STMT_SWITCH: nat := 13
  const STMT_SELECT: nat := 14

  const EXPR_CONST: nat := 0
  const EXPR_LOCAL: nat := 1
  const EXPR_GLOBAL: nat := 2
  const EXPR_COMP_LIT: nat := 3
  const EXPR_FUNC_LIT: nat := 4
  const EXPR_FIELD_VAL: nat := 5
  const EXPR_METHOD_VAL: nat := 6
  const EXPR_METHOD_EXPR: nat := 7
  const EXPR_INDEX: nat := 8
  const EXPR_SLICE: nat := 9
  const EXPR_ASSERT: nat := 10
  const EXPR_UNARY_OP: nat := 11
  const EXPR_BINARY_OP: nat := 12
  const EXPR_CALL: nat := 13
  const EXPR_CONVERT: nat := 14
  const EXPR_NEW: nat := 15
  const EXPR_MAKE: nat := 16
  const EXPR_SIZEOF: nat := 17
  const EXPR_ALIGNOF: nat := 18
  const EXPR_OFFSETOF: nat := 19
  const EXPR_ZERO: nat := 20
  const EXPR_FUNC_INST: nat := 21
  const EXPR_RECV: nat := 22
  const EXPR_RESHAPE: nat := 23
  const EXPR_RUNTIME_BUILTIN: nat := 24

  const ASSIGN_BLANK: nat := 0
  const ASSIGN_DEF: nat := 1
  const ASSIGN_EXPR: nat := 2

  const VAL_BOOL: nat := 0
  const VAL_STRING: nat := 1
  const VAL_INT64: nat := 2
  const VAL_BIG_INT: nat := 3
  const VAL_BIG_RAT: nat := 4
  const VAL_BIG_FLOAT: nat := 5

  const OP_DEFER: nat := 119

  /** The operators a body can carry, by gc's ordinals. */
  predicate KnownOp(op: nat) {
    || 6 <= op <= 9 || 11 <= op <= 12 || 57 <= op <= 63 || 74 <= op <= 80 || 82 <= op <= 86
    || op == 100 || op == 116 || 118 <= op <= 120 || op == 122 || op == 125
  }

  function StmtCode(s: Stmt): nat {
    match s
    case LabelStmt(_, _) => STMT_LABEL
    case BlockStmt(_) => STMT_BLOCK
    case ExprStmt(_) => STMT_EXPR
    case SendStmt(_, _, _) => STMT_SEND
    case AssignStmt(_, _, _) => STMT_ASSIGN
    case AssignOpStmt(_, _, _, _) => STMT_ASSIGN_OP
    case IncDecStmt(_, _, _) => STMT_INC_DEC
    case BranchStmt(_, _, _) => STMT_BRANCH
    case CallStmt(_, _, _, _) => STMT_CALL
    case ReturnStmt(_, _) => STMT_RETURN
    case IfStmt(_, _, _, _, _, _) => STMT_IF
    case ForStmt(_, _, _, _) => STMT_FOR
    case SwitchStmt(_, _, _, _) => STMT_SWITCH
    case SelectStmt(_, _, _) => STMT_SELECT
  }

  function ExprCode(n: Node): nat {
    match n
    case Const(_, _, _) => EXPR_CONST
    case Zero(_, _) => EXPR_ZERO
    case LocalUse(_, _) => EXPR_LOCAL
    case Global(_) => EXPR_GLOBAL
    case FuncInstRef(_, _) => EXPR_FUNC_INST
    case CompLit(_, _, _, _, _) => EXPR_COMP_LIT
    case FuncLit(_, _) => EXPR_FUNC_LIT
    case FieldVal(_, _, _) => EXPR_FIELD_VAL
    case MethodVal(_, _, _) => EXPR_METHOD_VAL
    case MethodExpr(_, _, _, _) => EXPR_METHOD_EXPR
    case Recv(_, _, _) => EXPR_RECV
    case Index(_, _, _, _) => EXPR_INDEX
    case Slice(_, _, _, _, _) => EXPR_SLICE
    case Assert(_, _, _, _) => EXPR_ASSERT
    case Unary(_, _, _) => EXPR_UNARY_OP
    case Binary(_, _, _, _) => EXPR_BINARY_OP
    case Call(_, _, _, _, _) => EXPR_CALL
    case Convert(_, _, _, _, _, _, _) => EXPR_CONVERT
    case NewValue(_, _) => EXPR_NEW
    case NewType(_, _) => EXPR_NEW
    case Make(_, _, _, _) => EXPR_MAKE
    case Sizeof(_, _) => EXPR_SIZEOF
    case Alignof(_, _) => EXPR_ALIGNOF
    case Offsetof(_, _, _) => EXPR_OFFSETOF
    case RuntimeBuiltin(_) => EXPR_RUNTIME_BUILTIN
  }

  /** The statements and the nodes of one code. */
  predicate StmtKind(s: Stmt, code: nat) {
    if code == STMT_LABEL then s.LabelStmt?
    else if code == STMT_BLOCK then s.BlockStmt?
    else if code == STMT_EXPR then s.ExprStmt?
    else if code == STMT_SEND then s.SendStmt?
    else if code == STMT_ASSIGN then s.AssignStmt?
    else if code == STMT_ASSIGN_OP then s.AssignOpStmt?
    else if code == STMT_INC_DEC then s.IncDecStmt?
    else if code == STMT_BRANCH then s.BranchStmt?
    else if code == STMT_CALL then s.CallStmt?
    else if code == STMT_RETURN then s.ReturnStmt?
    else if code == STMT_IF then s.IfStmt?
    else if code == STMT_FOR then s.ForStmt?
    else if code == STMT_SWITCH then s.SwitchStmt?
    else if code == STMT_SELECT then s.SelectStmt?
    else false
  }

  predicate ExprKind(n: Node, code: nat) {
    if code == EXPR_CONST then n.Const?
    else if code == EXPR_LOCAL then n.LocalUse?
    else if code == EXPR_GLOBAL then n.Global?
    else if code == EXPR_COMP_LIT then n.CompLit?
    else if code == EXPR_FUNC_LIT then n.FuncLit?
    else if code == EXPR_FIELD_VAL then n.FieldVal?
    else if code == EXPR_METHOD_VAL then n.MethodVal?
    else if code == EXPR_METHOD_EXPR then n.MethodExpr?
    else if code == EXPR_INDEX then n.Index?
    else if code == EXPR_SLICE then n.Slice?
    else if code == EXPR_ASSERT then n.Assert?
    else if code == EXPR_UNARY_OP then n.Unary?
    else if code == EXPR_BINARY_OP then n.Binary?
    else if code == EXPR_CALL then n.Call?
    else if code == EXPR_CONVERT then n.Convert?
    else if code == EXPR_NEW then n.NewValue? || n.NewType?
    else if code == EXPR_MAKE then n.Make?
    else if code == EXPR_SIZEOF then n.Sizeof?
    else if code == EXPR_ALIGNOF then n.Alignof?
    else if code == EXPR_OFFSETOF then n.Offsetof?
    else if code == EXPR_ZERO then n.Zero?
    else if code == EXPR_FUNC_INST then n.FuncInstRef?
    else if code == EXPR_RECV then n.Recv?
    else if code == EXPR_RUNTIME_BUILTIN then n.RuntimeBuiltin?
    else false
  }

  lemma StmtKinds(code: nat)
    ensures forall s {:trigger StmtCode(s)} {:trigger StmtKind(s, code)} :: StmtKind(s, code) <==> StmtCode(s) == code
  {
  }

  lemma ExprKinds(code: nat)
    ensures forall n {:trigger ExprCode(n)} {:trigger ExprKind(n, code)} :: ExprKind(n, code) <==> ExprCode(n) == code
  {
  }

  // ----- What the encoding depends on -----

  function CoreAt(types: seq<Core>, i: nat): Core { if i < |types| then types[i] else OtherCore }

  /** types2.CoreType of the type a use names. */
  function CoreOf(a: Archive, t: TypeUse): Core {
    match t
    case TypeAt(i) => CoreAt(a.types, i)
    case DerivedAt(i) => CoreAt(a.derived, i)
  }

  /** exprTypeOf: the type the stream carries for an expression, if any. */
  function TypeOf(e: Expr): Option<TypeUse> {
    if e.reshape.Some? then e.reshape
    else if e.node.Const? || e.node.Zero? || e.node.Convert? then Some(e.node.typ)
    else None
  }

  /** The core type of what a literal builds, through a pointer. */
  function LitCore(a: Archive, t: TypeUse): Core {
    var c := CoreOf(a, t);
    if c.PointerCore? then c.elem else c
  }

  function DeclOf(a: Archive, i: nat): Decl { if i < |a.objs| then a.objs[i] else Decl(Universe, "") }

  /** append, copy, delete and unsafe.Slice are followed by a descriptor. */
  predicate NeedsRType(a: Archive, c: Callee) {
    c.FunCall? && c.fun.node.Global? &&
    var d := DeclOf(a, c.fun.node.obj.idx);
    if d.name == "append" || d.name == "copy" || d.name == "delete" then d.pkg.Universe?
    else d.name == "Slice" && d.pkg.Unsafe?
  }
}

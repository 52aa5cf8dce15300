/** The body writer (export/bodywrite.go): it appends to the tokens of one
    element.

    The source gives up with a panic. Here a method that may give up says so,
    and what is left are the tokens it had written by then. */
module BodyWriter {
  import opened Wrappers
  import opened BodyTree
  import opened BodyFormat
  import opened BodyCanonical
  import opened BodyGot
  import BodyReader
  import BodyRefusals
  import BodyWritable

  /** Failed is a refusal. */
  datatype Outcome = Pass | Failed
  {
    predicate IsFailure() { Failed? }

    function PropagateFailure(): Outcome
      requires Failed?
    {
      Failed
    }
  }

  /** What follows the tokens of a step: what follows it, or nothing more. */
  function After(r: Outcome, k: Stream): Stream { if r.Pass? then k else Refused }

  /** The tokens in front of a stream. */
  function Onto(out: seq<Token>, k: Stream): Stream {
    if out == [] then k else Onto(out[..|out| - 1], Cons(out[|out| - 1], k))
  }

  /** The references among the tokens, and the body elements among those. */
  function Entries(out: seq<Token>): set<(Section, nat)> {
    if out == [] then {} else
    var t := out[|out| - 1];
    Entries(out[..|out| - 1]) + if t.Ref? then {(t.section, t.idx)} else {}
  }

  function BodyRefs(out: seq<Token>): seq<nat> {
    if out == [] then [] else
    var t := out[|out| - 1];
    BodyRefs(out[..|out| - 1]) + if t.Ref? && t.section.Bodies? then [t.idx] else []
  }

  function BodiesOf(ls: seq<LitRef>): seq<nat> {
    seq(|ls|, i requires 0 <= i < |ls| => ls[i].body)
  }

  class Writer {
    const a: Archive
    var out: seq<Token>

    // The reference table, and each literal the element names, in order.
    var table: set<(Section, nat)>
    var nested: seq<LitRef>

    ghost predicate Valid()
      reads this
    {
      table == Entries(out) && BodiesOf(nested) == BodyRefs(out)
    }

    constructor (a: Archive)
      ensures Valid() && this.a == a && out == []
    {
      this.a, out, table, nested := a, [], {}, [];
    }

    // ----- Primitives -----

    method Bool(b: bool)
      requires Valid()
      modifies this
      ensures Valid()
      ensures forall k {:trigger PutBit(b, k)} :: Onto(out, k) == Onto(old(out), PutBit(b, k))
    {
      out := out + [Bit(b)];
      assert out[..|out| - 1] == old(out);
    }

    method Len(n: nat)
      requires Valid()
      modifies this
      ensures Valid()
      ensures forall k {:trigger PutLen(n, k)} :: Onto(out, k) == Onto(old(out), PutLen(n, k))
    {
      out := out + [Token.Len(n)];
      assert out[..|out| - 1] == old(out);
    }

    method Int(n: int)
      requires Valid()
      modifies this
      ensures Valid()
      ensures forall k {:trigger PutInt(n, k)} :: Onto(out, k) == Onto(old(out), PutInt(n, k))
    {
      out := out + [Token.Int(n)];
      assert out[..|out| - 1] == old(out);
    }

    method Code(n: nat)
      requires Valid()
      modifies this
      ensures Valid()
      ensures forall k {:trigger PutCode(n, k)} :: Onto(out, k) == Onto(old(out), PutCode(n, k))
    {
      out := out + [Token.Code(n)];
      assert out[..|out| - 1] == old(out);
    }

    method Reloc(section: Section, idx: nat)
      requires Valid() && !section.Bodies?
      modifies this
      ensures Valid()
      ensures forall k {:trigger PutRef(section, idx, k)} :: Onto(out, k) == Onto(old(out), PutRef(section, idx, k))
    {
      out := out + [Ref(section, idx)];
      table := table + {(section, idx)};
      assert out[..|out| - 1] == old(out);
    }

    method RelocBody(l: LitRef)
      requires Valid()
      modifies this
      ensures Valid()
      ensures forall k {:trigger PutRef(Section.Bodies, l.body, k)} ::
        Onto(out, k) == Onto(old(out), PutRef(Section.Bodies, l.body, k))
    {
      out := out + [Ref(Section.Bodies, l.body)];
      table := table + {(Section.Bodies, l.body)};
      nested := nested + [l];
      assert out[..|out| - 1] == old(out);
      assert BodiesOf(nested) == BodiesOf(old(nested)) + [l.body];
    }

    method Slot(s: Option<nat>)
      requires Valid()
      modifies this
      ensures Valid()
      ensures forall k {:trigger PutSlot(s, k)} :: Onto(out, k) == Onto(old(out), PutSlot(s, k))
    {
      Bool(s.Some?);
      if s.Some? { Len(s.value); }
    }

    // ----- References -----

    method Position(p: Pos)
      requires Valid()
      modifies this
      ensures Valid()
      ensures forall k {:trigger PutPos(p, k)} :: Onto(out, k) == Onto(old(out), PutPos(p, k))
    {
      Bool(p.Pos?);
      if p.NoPos? { return; }
      Reloc(PosBases, p.base);
      Len(p.line);
      Len(p.col);
    }

    method Str(s: string) returns (r: Outcome)
      requires Valid()
      modifies this
      ensures Valid()
      ensures forall k {:trigger PutStr(a, s, k)} :: Onto(out, After(r, k)) == Onto(old(out), PutStr(a, s, k))
    {
      if s !in a.strIdx { return Failed; }
      Reloc(Strings, a.strIdx[s]);
      r := Pass;
    }

    method Package(p: Pkg) returns (r: Outcome)
      requires Valid()
      modifies this
      ensures Valid()
      ensures forall k {:trigger PutPkg(a, p, k)} :: Onto(out, After(r, k)) == Onto(old(out), PutPkg(a, p, k))
    {
      if p !in a.pkgIdx { return Failed; }
      Reloc(Pkgs, a.pkgIdx[p]);
      r := Pass;
    }

    method Type(t: TypeUse)
      requires Valid()
      modifies this
      ensures Valid()
      ensures forall k {:trigger PutType(t, k)} :: Onto(out, k) == Onto(old(out), PutType(t, k))
    {
      Bool(t.DerivedAt?);
      if t.DerivedAt? { Len(t.slot); } else { Reloc(Types, t.idx); }
    }

    method TypeList(list: seq<TypeUse>)
      requires Valid()
      modifies this
      ensures Valid()
      ensures forall k {:trigger PutTypes(list, k)} :: Onto(out, k) == Onto(old(out), PutTypes(list, k))
    {
      for i := 0 to |list|
        invariant Valid()
        invariant forall k {:trigger PutTypes(list, k)} :: Onto(out, PutTypes(list[i..], k)) == Onto(old(out), PutTypes(list, k))
      {
        assert list[i..][1..] == list[i + 1..];
        Type(list[i]);
      }
    }

    method Object(o: ObjUse)
      requires Valid()
      modifies this
      ensures Valid()
      ensures forall k {:trigger PutObj(o, k)} :: Onto(out, k) == Onto(old(out), PutObj(o, k))
    {
      Bool(false);
      Reloc(Objs, o.idx);
      Len(|o.targs|);
      TypeList(o.targs);
    }

    method Name(s: Selector) returns (r: Outcome)
      requires Valid()
      modifies this
      ensures Valid()
      ensures forall k {:trigger PutSelector(a, s, k)} ::
        Onto(out, After(r, k)) == Onto(old(out), PutSelector(a, s, k))
    {
      r := Pass;
      :- Package(s.pkg);
      r := Str(s.name);
    }

    method LocalDecl(l: Local)
      requires Valid()
      modifies this
      ensures Valid()
      ensures forall k {:trigger PutLocal(l, k)} :: Onto(out, k) == Onto(old(out), PutLocal(l, k))
    {
      Slot(l.slot);
    }

    method LocalDecls(list: seq<Local>)
      requires Valid()
      modifies this
      ensures Valid()
      ensures forall k {:trigger PutLocals(list, k)} :: Onto(out, k) == Onto(old(out), PutLocals(list, k))
    {
      for i := 0 to |list|
        invariant Valid()
        invariant forall k {:trigger PutLocals(list, k)} :: Onto(out, PutLocals(list[i..], k)) == Onto(old(out), PutLocals(list, k))
      {
        assert list[i..][1..] == list[i + 1..];
        LocalDecl(list[i]);
      }
    }

    method Lens(list: seq<nat>)
      requires Valid()
      modifies this
      ensures Valid()
      ensures forall k {:trigger PutLens(list, k)} :: Onto(out, k) == Onto(old(out), PutLens(list, k))
    {
      for i := 0 to |list|
        invariant Valid()
        invariant forall k {:trigger PutLens(list, k)} :: Onto(out, PutLens(list[i..], k)) == Onto(old(out), PutLens(list, k))
      {
        assert list[i..][1..] == list[i + 1..];
        Len(list[i]);
      }
    }

    method Ints(list: seq<int>)
      requires Valid()
      modifies this
      ensures Valid()
      ensures forall k {:trigger PutInts(list, k)} :: Onto(out, k) == Onto(old(out), PutInts(list, k))
    {
      for i := 0 to |list|
        invariant Valid()
        invariant forall k {:trigger PutInts(list, k)} :: Onto(out, PutInts(list[i..], k)) == Onto(old(out), PutInts(list, k))
      {
        assert list[i..][1..] == list[i + 1..];
        Int(list[i]);
      }
    }

    method Op(op: nat) returns (r: Outcome)
      requires Valid()
      modifies this
      ensures Valid()
      ensures forall k {:trigger PutOp(op, k)} :: Onto(out, After(r, k)) == Onto(old(out), PutOp(op, k))
    {
      if !KnownOp(op) { return Failed; }
      Len(op);
      r := Pass;
    }

    // ----- Constants -----

    method BigNumber(n: Big) returns (r: Outcome)
      requires Valid()
      modifies this
      ensures Valid()
      ensures forall k {:trigger PutBig(a, n, k)} :: Onto(out, After(r, k)) == Onto(old(out), PutBig(a, n, k))
    {
      r := Pass;
      :- Str(n.bytes);
      Bool(n.negative);
    }

    method ScalarValue(v: Scalar) returns (r: Outcome)
      requires Valid()
      modifies this
      ensures Valid()
      ensures forall k {:trigger PutScalar(a, v, k)} :: Onto(out, After(r, k)) == Onto(old(out), PutScalar(a, v, k))
    {
      match v {
        case BoolValue(b) =>
          Code(VAL_BOOL);
          Bool(b);
        case StringValue(s) =>
          Code(VAL_STRING);
          :- Str(s);
        case IntValue(i) =>
          Code(VAL_INT64);
          Int(i);
        case BigInt(n) =>
          Code(VAL_BIG_INT);
          :- BigNumber(n);
        case BigRat(n, d) =>
          Code(VAL_BIG_RAT);
          :- BigNumber(n);
          :- BigNumber(d);
        case BigFloat(t) =>
          Code(VAL_BIG_FLOAT);
          :- Str(t);
      }
      r := Pass;
    }

    method Constant(v: Value) returns (r: Outcome)
      requires Valid()
      modifies this
      ensures Valid()
      ensures forall k {:trigger PutValue(a, v, k)} :: Onto(out, After(r, k)) == Onto(old(out), PutValue(a, v, k))
    {
      Bool(v.im.Some?);
      :- ScalarValue(v.re);
      if v.im.Some? { :- ScalarValue(v.im.value); }
      r := Pass;
    }

    // ----- Runtime type information -----

    method Descriptor(t: RType)
      requires Valid()
      modifies this
      ensures Valid()
      ensures forall k {:trigger PutRType(t, k)} :: Onto(out, k) == Onto(old(out), PutRType(t, k))
    {
      Bool(t.RTypeAt?);
      if t.RTypeAt? { Len(t.slot); } else { Type(t.typ); }
    }

    method Conv(c: ConvRTTI)
      requires Valid()
      modifies this
      ensures Valid()
      ensures forall k {:trigger PutConv(c, k)} :: Onto(out, k) == Onto(old(out), PutConv(c, k))
    {
      Descriptor(c.src);
      Descriptor(c.dst);
      Slot(c.itab);
    }

    method TypeExpr(t: ExprType)
      requires Valid()
      modifies this
      ensures Valid()
      ensures forall k {:trigger PutExprType(t, k)} :: Onto(out, k) == Onto(old(out), PutExprType(t, k))
    {
      Position(t.pos);
      Bool(t.AgainstItab?);
      if t.AgainstItab? {
        Conv(t.conv);
      } else {
        Descriptor(t.rtype);
        Bool(t.derived);
      }
    }

    method TypeCase(t: Option<ExprType>)
      requires Valid()
      modifies this
      ensures Valid()
      ensures forall k {:trigger PutCase(t, k)} :: Onto(out, k) == Onto(old(out), PutCase(t, k))
    {
      Bool(t.None?);
      if t.Some? { TypeExpr(t.value); }
    }

    method TypeCases(list: seq<Option<ExprType>>)
      requires Valid()
      modifies this
      ensures Valid()
      ensures forall k {:trigger PutCases(list, k)} :: Onto(out, k) == Onto(old(out), PutCases(list, k))
    {
      for i := 0 to |list|
        invariant Valid()
        invariant forall k {:trigger PutCases(list, k)} :: Onto(out, PutCases(list[i..], k)) == Onto(old(out), PutCases(list, k))
      {
        assert list[i..][1..] == list[i + 1..];
        TypeCase(list[i]);
      }
    }

    method OptDescriptor(wanted: bool, t: Option<RType>) returns (r: Outcome)
      requires Valid()
      modifies this
      ensures Valid()
      ensures forall k {:trigger PutOptRType(wanted, t, k)} ::
        Onto(out, After(r, k)) == Onto(old(out), PutOptRType(wanted, t, k))
    {
      if t.Some? != wanted { return Failed; }
      if wanted { Descriptor(t.value); }
      r := Pass;
    }

    method OptConv(wanted: bool, c: Option<ConvRTTI>) returns (r: Outcome)
      requires Valid()
      modifies this
      ensures Valid()
      ensures forall k {:trigger PutOptConv(wanted, c, k)} ::
        Onto(out, After(r, k)) == Onto(old(out), PutOptConv(wanted, c, k))
    {
      if c.Some? != wanted { return Failed; }
      if wanted { Conv(c.value); }
      r := Pass;
    }

    /** The descriptor of a map where the type calls for one, and nowhere else. */
    method MapDescriptor(typ: Option<TypeUse>, t: Option<RType>) returns (r: Outcome)
      requires Valid()
      modifies this
      ensures Valid()
      ensures forall k {:trigger PutMapRType(a, typ, t, k)} ::
        Onto(out, After(r, k)) == Onto(old(out), PutMapRType(a, typ, t, k))
    {
      if typ.None? { return Failed; }
      r := OptDescriptor(CoreOf(a, typ.value).MapCore?, t);
    }

    // ----- Methods, instances and signatures -----

    method Instance(f: FuncInst)
      requires Valid()
      modifies this
      ensures Valid()
      ensures forall k {:trigger PutInst(f, k)} :: Onto(out, k) == Onto(old(out), PutInst(f, k))
    {
      Bool(f.InstAt?);
      if f.InstAt? { Len(f.slot); } else { Object(f.obj); }
    }

    method MethodDictionary(d: MethodDict)
      requires Valid()
      modifies this
      ensures Valid()
      ensures forall k {:trigger PutMethodDict(d, k)} :: Onto(out, k) == Onto(old(out), PutMethodDict(d, k))
    {
      Bool(d.ViaTypeParam?);
      if d.ViaTypeParam? {
        Len(d.slot);
        return;
      }
      Bool(d.ViaSubdict?);
      if d.ViaSubdict? {
        Len(d.slot);
        return;
      }
      Bool(d.ViaStatic?);
      if d.ViaStatic? { Object(d.obj); }
    }

    method Method(m: MethodRef) returns (r: Outcome)
      requires Valid()
      modifies this
      ensures Valid()
      ensures forall k {:trigger PutMethod(a, m, k)} :: Onto(out, After(r, k)) == Onto(old(out), PutMethod(a, m, k))
    {
      Type(m.recv);
      Bool(m.sig.None?);
      if m.sig.Some? { Type(m.sig.value); }
      Position(m.pos);
      :- Name(m.sel);
      MethodDictionary(m.dict);
      r := Pass;
    }

    method Steps(p: Path)
      requires Valid()
      modifies this
      ensures Valid()
      ensures forall k {:trigger PutPath(p, k)} :: Onto(out, k) == Onto(old(out), PutPath(p, k))
    {
      Len(|p.implicits|);
      Lens(p.implicits);
      Bool(p.deref);
      if !p.deref { Bool(p.addr); }
    }

    method Parameter(p: Param) returns (r: Outcome)
      requires Valid()
      modifies this
      ensures Valid()
      ensures forall k {:trigger PutParam(a, p, k)} :: Onto(out, After(r, k)) == Onto(old(out), PutParam(a, p, k))
    {
      Position(p.pos);
      :- Name(p.name);
      Type(p.typ);
      r := Pass;
    }

    method Parameters(list: seq<Param>) returns (r: Outcome)
      requires Valid()
      modifies this
      ensures Valid()
      ensures forall k {:trigger PutParams(a, list, k)} ::
        Onto(out, After(r, k)) == Onto(old(out), PutParams(a, list, k))
    {
      for i := 0 to |list|
        invariant Valid()
        invariant forall k {:trigger PutParams(a, list, k)} :: Onto(out, PutParams(a, list[i..], k)) == Onto(old(out), PutParams(a, list, k))
      {
        assert list[i..][1..] == list[i + 1..];
        :- Parameter(list[i]);
      }
      r := Pass;
    }

    method Sig(s: Signature) returns (r: Outcome)
      requires Valid()
      modifies this
      ensures Valid()
      ensures forall k {:trigger PutSignature(a, s, k)} ::
        Onto(out, After(r, k)) == Onto(old(out), PutSignature(a, s, k))
    {
      Len(|s.params|);
      :- Parameters(s.params);
      Len(|s.results|);
      :- Parameters(s.results);
      Bool(s.variadic);
      Bool(s.rangeFuncBody);
      r := Pass;
    }

    method CapturedVar(c: Capture)
      requires Valid()
      modifies this
      ensures Valid()
      ensures forall k {:trigger PutCapture(c, k)} :: Onto(out, k) == Onto(old(out), PutCapture(c, k))
    {
      Position(c.pos);
      Bool(!c.captured);
      Len(c.index);
    }

    method CapturedVars(list: seq<Capture>)
      requires Valid()
      modifies this
      ensures Valid()
      ensures forall k {:trigger PutCaptures(list, k)} :: Onto(out, k) == Onto(old(out), PutCaptures(list, k))
    {
      for i := 0 to |list|
        invariant Valid()
        invariant forall k {:trigger PutCaptures(list, k)} :: Onto(out, PutCaptures(list[i..], k)) == Onto(old(out), PutCaptures(list, k))
      {
        assert list[i..][1..] == list[i + 1..];
        CapturedVar(list[i]);
      }
    }

    method ResultOf(m: MultiResult)
      requires Valid()
      modifies this
      ensures Valid()
      ensures forall k {:trigger PutResult(m, k)} :: Onto(out, k) == Onto(old(out), PutResult(m, k))
    {
      Type(m.src);
      Bool(m.conv.Some?);
      if m.conv.Some? {
        Type(m.conv.value.dst);
        Conv(m.conv.value.conv);
      }
    }

    method Results(list: seq<MultiResult>)
      requires Valid()
      modifies this
      ensures Valid()
      ensures forall k {:trigger PutResults(list, k)} :: Onto(out, k) == Onto(old(out), PutResults(list, k))
    {
      for i := 0 to |list|
        invariant Valid()
        invariant forall k {:trigger PutResults(list, k)} :: Onto(out, PutResults(list[i..], k)) == Onto(old(out), PutResults(list, k))
      {
        assert list[i..][1..] == list[i + 1..];
        ResultOf(list[i]);
      }
    }

    // ----- Statements -----

    method Stmts(list: seq<Stmt>) returns (r: Outcome)
      requires Valid()
      modifies this
      ensures Valid()
      ensures forall k {:trigger PutStmts(a, list, k)} ::
        Onto(out, After(r, k)) == Onto(old(out), PutStmts(a, list, k))
      decreases list, 0
    {
      for i := 0 to |list|
        invariant Valid()
        invariant forall k {:trigger PutStmts(a, list, k)} :: Onto(out, PutStmts(a, list[i..], k)) == Onto(old(out), PutStmts(a, list, k))
      {
        assert list[i..][1..] == list[i + 1..];
        Code(StmtCode(list[i]));
        :- StmtOf(list[i]);
      }
      Code(STMT_END);
      r := Pass;
    }

    method StmtOf(s: Stmt) returns (r: Outcome)
      requires Valid()
      modifies this
      ensures Valid()
      ensures forall k {:trigger PutStmt(a, s, k)} :: Onto(out, After(r, k)) == Onto(old(out), PutStmt(a, s, k))
      decreases s, 2
    {
      if IsBasic(s) { r := Basic(s); }
      else if s.IfStmt? { r := If(s); }
      else if s.ForStmt? { r := For(s); }
      else if s.SwitchStmt? { r := Switch(s); }
      else { r := Select(s); }
    }

    method Basic(s: Stmt) returns (r: Outcome)
      requires Valid() && IsBasic(s)
      modifies this
      ensures Valid()
      ensures forall k {:trigger PutBasic(a, s, k)} :: Onto(out, After(r, k)) == Onto(old(out), PutBasic(a, s, k))
      decreases s, 1
    {
      if IsSimple(s) { r := Simple(s); }
      else if IsPlaced(s) { r := Placed(s); }
      else if s.AssignStmt? { r := Assign(s); }
      else { r := CallStatement(s); }
    }

    method Simple(s: Stmt) returns (r: Outcome)
      requires Valid() && IsSimple(s)
      modifies this
      ensures Valid()
      ensures forall k {:trigger PutSimple(a, s, k)} :: Onto(out, After(r, k)) == Onto(old(out), PutSimple(a, s, k))
      decreases s, 0
    {
      match s {
        case BlockStmt(b) => :- BlockOf(b);
        case ExprStmt(x) => :- ExprOf(x);
        case AssignOpStmt(op, dst, pos, src) =>
          :- Op(op);
          :- ExprOf(dst);
          Position(pos);
          :- ExprOf(src);
        case IncDecStmt(op, x, pos) =>
          :- Op(op);
          :- ExprOf(x);
          Position(pos);
      }
      r := Pass;
    }

    method Placed(s: Stmt) returns (r: Outcome)
      requires Valid() && IsPlaced(s)
      modifies this
      ensures Valid()
      ensures forall k {:trigger PutPlaced(a, s, k)} :: Onto(out, After(r, k)) == Onto(old(out), PutPlaced(a, s, k))
      decreases s, 0
    {
      Position(s.pos);
      match s {
        case LabelStmt(_, name) => :- Str(name);
        case SendStmt(_, ch, value) =>
          :- ExprOf(ch);
          :- ExprOf(value);
        case BranchStmt(_, op, target) =>
          :- Op(op);
          :- OptLabel(target);
        case ReturnStmt(_, results) => :- Multi(results);
      }
      r := Pass;
    }

    method OptLabel(t: Option<string>) returns (r: Outcome)
      requires Valid()
      modifies this
      ensures Valid()
      ensures forall k {:trigger PutTarget(a, t, k)} :: Onto(out, After(r, k)) == Onto(old(out), PutTarget(a, t, k))
    {
      Bool(t.Some?);
      if t.Some? { :- Str(t.value); }
      r := Pass;
    }

    method Assign(s: Stmt) returns (r: Outcome)
      requires Valid() && s.AssignStmt?
      modifies this
      ensures Valid()
      ensures forall k {:trigger PutAssign(a, s, k)} :: Onto(out, After(r, k)) == Onto(old(out), PutAssign(a, s, k))
      decreases s, 0
    {
      Position(s.pos);
      Len(|s.lhs|);
      :- Assignees(s.lhs);
      r := Multi(s.rhs);
    }

    method CallStatement(s: Stmt) returns (r: Outcome)
      requires Valid() && s.CallStmt?
      modifies this
      ensures Valid()
      ensures forall k {:trigger PutCallStmt(a, s, k)} ::
        Onto(out, After(r, k)) == Onto(old(out), PutCallStmt(a, s, k))
      decreases s, 0
    {
      Position(s.pos);
      :- Op(s.op);
      :- ExprOf(s.call);
      if s.op == OP_DEFER { :- OptExpr(s.deferAt); }
      r := Pass;
    }

    method BlockOf(b: Block) returns (r: Outcome)
      requires Valid()
      modifies this
      ensures Valid()
      ensures forall k {:trigger PutBlock(a, b, k)} :: Onto(out, After(r, k)) == Onto(old(out), PutBlock(a, b, k))
      decreases b, 0
    {
      Position(b.open);
      :- Stmts(b.body);
      Position(b.close);
      r := Pass;
    }

    method If(s: Stmt) returns (r: Outcome)
      requires Valid() && s.IfStmt?
      modifies this
      ensures Valid()
      ensures forall k {:trigger PutIf(a, s, k)} :: Onto(out, After(r, k)) == Onto(old(out), PutIf(a, s, k))
      decreases s, 0
    {
      Position(s.open);
      Position(s.pos);
      :- Stmts(s.init);
      :- ExprOf(s.cond);
      Int(s.known);
      r := ArmsOf(s.known, s.arms);
    }

    /** The arm a constant condition rules out is not written. */
    method ArmsOf(known: int, arms: Arms) returns (r: Outcome)
      requires Valid()
      modifies this
      ensures Valid()
      ensures forall k {:trigger PutArms(a, known, arms, k)} ::
        Onto(out, After(r, k)) == Onto(old(out), PutArms(a, known, arms, k))
      decreases arms, 0
    {
      if known < 0 {
        Position(arms.thenClose);
      } else {
        if arms.thn.None? { return Failed; }
        :- BlockOf(arms.thn.value);
      }
      if known <= 0 { :- Stmts(arms.els); }
      r := Pass;
    }

    method For(s: Stmt) returns (r: Outcome)
      requires Valid() && s.ForStmt?
      modifies this
      ensures Valid()
      ensures forall k {:trigger PutFor(a, s, k)} :: Onto(out, After(r, k)) == Onto(old(out), PutFor(a, s, k))
      decreases s, 0
    {
      Position(s.open);
      :- ForHeadOf(s.head);
      :- BlockOf(s.body);
      Bool(s.distinctVars);
      r := Pass;
    }

    method ForHeadOf(h: ForHead) returns (r: Outcome)
      requires Valid()
      modifies this
      ensures Valid()
      ensures forall k {:trigger PutHead(a, h, k)} :: Onto(out, After(r, k)) == Onto(old(out), PutHead(a, h, k))
      decreases h, 1
    {
      Bool(h.Range?);
      if h.Range? { r := RangeHead(h); } else { r := ThreeHead(h); }
    }

    method RangeHead(h: ForHead) returns (r: Outcome)
      requires Valid() && h.Range?
      modifies this
      ensures Valid()
      ensures forall k {:trigger PutRange(a, h, k)} :: Onto(out, After(r, k)) == Onto(old(out), PutRange(a, h, k))
      decreases h, 0
    {
      Position(h.pos);
      Len(|h.lhs|);
      :- Assignees(h.lhs);
      :- ExprOf(h.x);
      :- MapDescriptor(TypeOf(h.x), h.mapRType);
      r := Conversions(h.lhs, h.convs);
    }

    method Conversions(lhs: seq<Assignee>, c: RangeConvs) returns (r: Outcome)
      requires Valid()
      modifies this
      ensures Valid()
      ensures forall k {:trigger PutRangeConvs(lhs, c, k)} ::
        Onto(out, After(r, k)) == Onto(old(out), PutRangeConvs(lhs, c, k))
    {
      r := Pass;
      :- OptConv(Assigns(lhs, 0), c.key);
      r := OptConv(Assigns(lhs, 1), c.value);
    }

    method ThreeHead(h: ForHead) returns (r: Outcome)
      requires Valid() && h.Three?
      modifies this
      ensures Valid()
      ensures forall k {:trigger PutThree(a, h, k)} :: Onto(out, After(r, k)) == Onto(old(out), PutThree(a, h, k))
      decreases h, 0
    {
      Position(h.pos);
      :- Stmts(h.init);
      :- OptExpr(h.cond);
      r := Stmts(h.post);
    }

    method SwitchTagOf(t: SwitchTag) returns (r: Outcome)
      requires Valid()
      modifies this
      ensures Valid()
      ensures forall k {:trigger PutTag(a, t, k)} :: Onto(out, After(r, k)) == Onto(old(out), PutTag(a, t, k))
      decreases t, 0
    {
      Bool(t.Guard?);
      if t.Tag? { r := OptExpr(t.tag); return; }
      Position(t.pos);
      Bool(t.name.Some?);
      if t.name.Some? {
        Position(t.name.value.pos);
        :- Name(t.name.value.sel);
      }
      r := ExprOf(t.x);
    }

    method Switch(s: Stmt) returns (r: Outcome)
      requires Valid() && s.SwitchStmt?
      modifies this
      ensures Valid()
      ensures forall k {:trigger PutSwitch(a, s, k)} :: Onto(out, After(r, k)) == Onto(old(out), PutSwitch(a, s, k))
      decreases s, 0
    {
      Position(s.open);
      Position(s.pos);
      :- Stmts(s.init);
      r := CasesOf(s.cases);
    }

    method CasesOf(c: Cases) returns (r: Outcome)
      requires Valid()
      modifies this
      ensures Valid()
      ensures forall k {:trigger PutSwitchCases(a, c, k)} ::
        Onto(out, After(r, k)) == Onto(old(out), PutSwitchCases(a, c, k))
      decreases c, 0
    {
      r := Pass;
      :- SwitchTagOf(c.tag);
      Len(|c.clauses|);
      :- Clauses(c.clauses, c.tag.Guard?, c.tag.Guard? && c.tag.name.Some?);
      if c.clauses != [] { Position(c.clausesClose); }
      Position(c.close);
    }

    method Clauses(list: seq<Clause>, guard: bool, named: bool) returns (r: Outcome)
      requires Valid()
      modifies this
      ensures Valid()
      ensures forall k {:trigger PutClauses(a, list, guard, named, true, k)} ::
        Onto(out, After(r, k)) == Onto(old(out), PutClauses(a, list, guard, named, true, k))
      decreases list, 0
    {
      for i := 0 to |list|
        invariant Valid()
        invariant forall k {:trigger PutClauses(a, list, guard, named, true, k)} ::
          Onto(out, PutClauses(a, list[i..], guard, named, i == 0, k)) == Onto(old(out), PutClauses(a, list, guard, named, true, k))
      {
        assert list[i..][1..] == list[i + 1..];
        :- ClauseOf(list[i], guard, named, i == 0);
      }
      r := Pass;
    }

    method ScopeOf(s: Scope, first: bool) returns (r: Outcome)
      requires Valid()
      modifies this
      ensures Valid()
      ensures forall k {:trigger PutScope(s, first, k)} ::
        Onto(out, After(r, k)) == Onto(old(out), PutScope(s, first, k))
    {
      if !first {
        if s.close.None? { return Failed; }
        Position(s.close.value);
      }
      Position(s.open);
      Position(s.pos);
      r := Pass;
    }

    method ClauseOf(c: Clause, guard: bool, named: bool, first: bool) returns (r: Outcome)
      requires Valid()
      modifies this
      ensures Valid()
      ensures forall k {:trigger PutClause(a, c, guard, named, first, k)} ::
        Onto(out, After(r, k)) == Onto(old(out), PutClause(a, c, guard, named, first, k))
      decreases c, 0
    {
      r := Pass;
      :- ScopeOf(c.scope, first);
      :- TestsOf(guard, c.tests);
      :- ClauseVariable(named, c.variable);
      r := Stmts(c.body);
    }

    method TestsOf(guard: bool, t: Tests) returns (r: Outcome)
      requires Valid()
      modifies this
      ensures Valid()
      ensures forall k {:trigger PutTests(a, guard, t, k)} ::
        Onto(out, After(r, k)) == Onto(old(out), PutTests(a, guard, t, k))
      decreases t, 0
    {
      if guard {
        Len(|t.types|);
        TypeCases(t.types);
      } else {
        Len(|t.exprs|);
        :- ExprList(t.exprs);
      }
      r := Pass;
    }

    method ClauseVariable(named: bool, v: Option<ClauseVar>) returns (r: Outcome)
      requires Valid()
      modifies this
      ensures Valid()
      ensures forall k {:trigger PutClauseVar(named, v, k)} ::
        Onto(out, After(r, k)) == Onto(old(out), PutClauseVar(named, v, k))
    {
      if !named { return Pass; }
      if v.None? { return Failed; }
      Position(v.value.pos);
      Type(v.value.typ);
      LocalDecl(v.value.local);
      r := Pass;
    }

    method Select(s: Stmt) returns (r: Outcome)
      requires Valid() && s.SelectStmt?
      modifies this
      ensures Valid()
      ensures forall k {:trigger PutSelect(a, s, k)} :: Onto(out, After(r, k)) == Onto(old(out), PutSelect(a, s, k))
      decreases s, 0
    {
      Position(s.pos);
      Len(|s.comms|);
      :- CommClauses(s.comms);
      if s.comms != [] { Position(s.close); }
      r := Pass;
    }

    method CommClauses(list: seq<CommClause>) returns (r: Outcome)
      requires Valid()
      modifies this
      ensures Valid()
      ensures forall k {:trigger PutComms(a, list, true, k)} ::
        Onto(out, After(r, k)) == Onto(old(out), PutComms(a, list, true, k))
      decreases list, 0
    {
      for i := 0 to |list|
        invariant Valid()
        invariant forall k {:trigger PutComms(a, list, true, k)} ::
          Onto(out, PutComms(a, list[i..], i == 0, k)) == Onto(old(out), PutComms(a, list, true, k))
      {
        assert list[i..][1..] == list[i + 1..];
        :- CommClauseOf(list[i], i == 0);
      }
      r := Pass;
    }

    method CommClauseOf(c: CommClause, first: bool) returns (r: Outcome)
      requires Valid()
      modifies this
      ensures Valid()
      ensures forall k {:trigger PutComm(a, c, first, k)} ::
        Onto(out, After(r, k)) == Onto(old(out), PutComm(a, c, first, k))
      decreases c, 0
    {
      r := Pass;
      :- ScopeOf(c.scope, first);
      :- Stmts(c.comm);
      r := Stmts(c.body);
    }

    method Assignees(list: seq<Assignee>) returns (r: Outcome)
      requires Valid()
      modifies this
      ensures Valid()
      ensures forall k {:trigger PutAssignees(a, list, k)} ::
        Onto(out, After(r, k)) == Onto(old(out), PutAssignees(a, list, k))
      decreases list, 0
    {
      for i := 0 to |list|
        invariant Valid()
        invariant forall k {:trigger PutAssignees(a, list, k)} :: Onto(out, PutAssignees(a, list[i..], k)) == Onto(old(out), PutAssignees(a, list, k))
      {
        assert list[i..][1..] == list[i + 1..];
        :- AssigneeOf(list[i]);
      }
      r := Pass;
    }

    method AssigneeOf(x: Assignee) returns (r: Outcome)
      requires Valid()
      modifies this
      ensures Valid()
      ensures forall k {:trigger PutAssignee(a, x, k)} ::
        Onto(out, After(r, k)) == Onto(old(out), PutAssignee(a, x, k))
      decreases x, 0
    {
      match x {
        case Blank => Code(ASSIGN_BLANK);
        case Def(pos, name, t, l) =>
          Code(ASSIGN_DEF);
          Position(pos);
          :- Name(name);
          Type(t);
          LocalDecl(l);
        case Dest(e) =>
          Code(ASSIGN_EXPR);
          :- ExprOf(e);
      }
      r := Pass;
    }

    method Multi(m: MultiExpr) returns (r: Outcome)
      requires Valid()
      modifies this
      ensures Valid()
      ensures forall k {:trigger PutMulti(a, m, k)} :: Onto(out, After(r, k)) == Onto(old(out), PutMulti(a, m, k))
      decreases m, 0
    {
      Bool(m.Single?);
      if m.Single? {
        Position(m.pos);
        :- ExprOf(m.x);
        Len(|m.results|);
        Results(m.results);
      } else {
        Len(|m.exprs|);
        :- ExprList(m.exprs);
      }
      r := Pass;
    }

    // ----- Expressions -----

    method ExprList(list: seq<Expr>) returns (r: Outcome)
      requires Valid()
      modifies this
      ensures Valid()
      ensures forall k {:trigger PutExprs(a, list, k)} ::
        Onto(out, After(r, k)) == Onto(old(out), PutExprs(a, list, k))
      decreases list, 0
    {
      for i := 0 to |list|
        invariant Valid()
        invariant forall k {:trigger PutExprs(a, list, k)} :: Onto(out, PutExprs(a, list[i..], k)) == Onto(old(out), PutExprs(a, list, k))
      {
        assert list[i..][1..] == list[i + 1..];
        :- ExprOf(list[i]);
      }
      r := Pass;
    }

    method OptExpr(e: Option<Expr>) returns (r: Outcome)
      requires Valid()
      modifies this
      ensures Valid()
      ensures forall k {:trigger PutOpt(a, e, k)} :: Onto(out, After(r, k)) == Onto(old(out), PutOpt(a, e, k))
      decreases e, 0
    {
      Bool(e.Some?);
      if e.Some? { :- ExprOf(e.value); }
      r := Pass;
    }

    method ExprOf(e: Expr) returns (r: Outcome)
      requires Valid()
      modifies this
      ensures Valid()
      ensures forall k {:trigger PutExpr(a, e, k)} :: Onto(out, After(r, k)) == Onto(old(out), PutExpr(a, e, k))
      decreases e, 0
    {
      if e.reshape.Some? {
        Code(EXPR_RESHAPE);
        Type(e.reshape.value);
      }
      Code(ExprCode(e.node));
      r := NodeOf(e.node);
    }

    method NodeOf(n: Node) returns (r: Outcome)
      requires Valid()
      modifies this
      ensures Valid()
      ensures forall k {:trigger PutNode(a, n, k)} :: Onto(out, After(r, k)) == Onto(old(out), PutNode(a, n, k))
      decreases n, 3
    {
      if IsAtom(n) { r := Atom(n); } else { r := Compound(n); }
    }

    method Compound(n: Node) returns (r: Outcome)
      requires Valid() && !IsAtom(n)
      modifies this
      ensures Valid()
      ensures forall k {:trigger PutCompound(a, n, k)} ::
        Onto(out, After(r, k)) == Onto(old(out), PutCompound(a, n, k))
      decreases n, 2
    {
      if IsOperand(n) { r := Operand(n); }
      else if IsOperation(n) { r := Operation(n); }
      else if n.Call? { r := CallOf(n); }
      else { r := Maker(n); }
    }

    method Atom(n: Node) returns (r: Outcome)
      requires Valid() && IsAtom(n)
      modifies this
      ensures Valid()
      ensures forall k {:trigger PutAtom(a, n, k)} :: Onto(out, After(r, k)) == Onto(old(out), PutAtom(a, n, k))
    {
      if n.FuncLit? { r := FunctionLit(n.lit); }
      else if n.MethodExpr? { r := MethodExpression(n); }
      else if IsTypedLeaf(n) { r := TypedLeaf(n); }
      else { r := Leaf(n); }
    }

    method MethodExpression(n: Node) returns (r: Outcome)
      requires Valid() && n.MethodExpr?
      modifies this
      ensures Valid()
      ensures forall k {:trigger PutMethodExpr(a, n, k)} ::
        Onto(out, After(r, k)) == Onto(old(out), PutMethodExpr(a, n, k))
    {
      Type(n.recv);
      Steps(n.path);
      Position(n.pos);
      r := Method(n.method_);
    }

    /** A literal names the element that holds its body. */
    method FunctionLit(l: LitRef) returns (r: Outcome)
      requires Valid()
      modifies this
      ensures Valid()
      ensures forall k {:trigger PutLitRef(a, l, k)} :: Onto(out, After(r, k)) == Onto(old(out), PutLitRef(a, l, k))
    {
      Position(l.pos);
      :- Sig(l.sig);
      Len(|l.captures|);
      CapturedVars(l.captures);
      RelocBody(l);
      r := Pass;
    }

    method TypedLeaf(n: Node) returns (r: Outcome)
      requires Valid() && IsTypedLeaf(n)
      modifies this
      ensures Valid()
      ensures forall k {:trigger PutTypedLeaf(a, n, k)} ::
        Onto(out, After(r, k)) == Onto(old(out), PutTypedLeaf(a, n, k))
    {
      Position(n.pos);
      Type(n.typ);
      if n.Const? { r := Constant(n.value); return; }
      if n.Offsetof? {
        // A selection goes through at least one field, so one is not counted.
        if n.fields == [] { return Failed; }
        Len(|n.fields| - 1);
        Lens(n.fields);
      }
      r := Pass;
    }

    method Leaf(n: Node) returns (r: Outcome)
      requires Valid() && IsLeaf(n)
      modifies this
      ensures Valid()
      ensures forall k {:trigger PutLeaf(a, n, k)} :: Onto(out, After(r, k)) == Onto(old(out), PutLeaf(a, n, k))
    {
      match n {
        case LocalUse(captured, i) =>
          Bool(!captured);
          Len(i);
        case Global(o) => Object(o);
        case FuncInstRef(pos, f) =>
          Position(pos);
          Instance(f);
        case RuntimeBuiltin(name) => :- Str(name);
      }
      r := Pass;
    }

    method Operand(n: Node) returns (r: Outcome)
      requires Valid() && IsOperand(n)
      modifies this
      ensures Valid()
      ensures forall k {:trigger PutOperand(a, n, k)} :: Onto(out, After(r, k)) == Onto(old(out), PutOperand(a, n, k))
      decreases n, 1
    {
      if IsSelection(n) { r := Selection(n); } else { r := Access(n); }
    }

    method Selection(n: Node) returns (r: Outcome)
      requires Valid() && IsSelection(n)
      modifies this
      ensures Valid()
      ensures forall k {:trigger PutSelection(a, n, k)} ::
        Onto(out, After(r, k)) == Onto(old(out), PutSelection(a, n, k))
      decreases n, 0
    {
      r := Pass;
      :- ExprOf(n.x);
      Position(n.pos);
      match n {
        case FieldVal(_, _, sel) => :- Name(sel);
        case MethodVal(_, _, m) => :- Method(m);
        case Recv(_, _, path) => Steps(path);
      }
    }

    method Access(n: Node) returns (r: Outcome)
      requires Valid() && IsAccess(n)
      modifies this
      ensures Valid()
      ensures forall k {:trigger PutAccess(a, n, k)} :: Onto(out, After(r, k)) == Onto(old(out), PutAccess(a, n, k))
      decreases n, 0
    {
      r := Pass;
      :- ExprOf(n.x);
      Position(n.pos);
      match n {
        case Index(x, _, i, m) =>
          :- ExprOf(i);
          :- MapDescriptor(TypeOf(x), m);
        case Slice(_, _, lo, hi, max) =>
          :- OptExpr(lo);
          :- OptExpr(hi);
          :- OptExpr(max);
        case Assert(_, _, t, src) =>
          TypeExpr(t);
          Descriptor(src);
      }
    }

    method Operation(n: Node) returns (r: Outcome)
      requires Valid() && IsOperation(n)
      modifies this
      ensures Valid()
      ensures forall k {:trigger PutOperation(a, n, k)} ::
        Onto(out, After(r, k)) == Onto(old(out), PutOperation(a, n, k))
      decreases n, 0
    {
      r := Pass;
      :- Op(n.op);
      match n
      case Unary(_, pos, x) =>
        Position(pos);
        r := ExprOf(x);
      case Binary(_, x, pos, y) =>
        :- ExprOf(x);
        Position(pos);
        r := ExprOf(y);
    }

    method CallOf(n: Node) returns (r: Outcome)
      requires Valid() && n.Call?
      modifies this
      ensures Valid()
      ensures forall k {:trigger PutCall(a, n, k)} :: Onto(out, After(r, k)) == Onto(old(out), PutCall(a, n, k))
      decreases n, 0
    {
      r := Pass;
      :- CalleeOf(n.callee);
      Position(n.pos);
      :- Multi(n.args);
      Bool(n.dots);
      r := OptDescriptor(NeedsRType(a, n.callee), n.rtype);
    }

    method CalleeOf(c: Callee) returns (r: Outcome)
      requires Valid()
      modifies this
      ensures Valid()
      ensures forall k {:trigger PutCallee(a, c, k)} :: Onto(out, After(r, k)) == Onto(old(out), PutCallee(a, c, k))
      decreases c, 0
    {
      Bool(c.MethodCall?);
      if c.MethodCall? {
        :- ExprOf(c.recv);
        r := Method(c.method_);
        return;
      }
      Bool(c.InstCall?);
      if c.InstCall? {
        Position(c.pos);
        Instance(c.inst);
        return Pass;
      }
      r := ExprOf(c.fun);
    }

    method Maker(n: Node) returns (r: Outcome)
      requires Valid() && IsMaker(n)
      modifies this
      ensures Valid()
      ensures forall k {:trigger PutMaker(a, n, k)} :: Onto(out, After(r, k)) == Onto(old(out), PutMaker(a, n, k))
      decreases n, 1
    {
      if n.Make? { r := MakeOf(n); }
      else if IsNew(n) { r := NewOf(n); }
      else if n.Convert? { r := Conversion(n); }
      else { r := CompositeLit(n); }
    }

    method NewOf(n: Node) returns (r: Outcome)
      requires Valid() && IsNew(n)
      modifies this
      ensures Valid()
      ensures forall k {:trigger PutNew(a, n, k)} :: Onto(out, After(r, k)) == Onto(old(out), PutNew(a, n, k))
      decreases n, 0
    {
      Position(n.pos);
      Bool(n.NewValue?);
      if n.NewValue? { r := ExprOf(n.x); return; }
      TypeExpr(n.exprType);
      r := Pass;
    }

    method MakeOf(n: Node) returns (r: Outcome)
      requires Valid() && n.Make?
      modifies this
      ensures Valid()
      ensures forall k {:trigger PutMake(a, n, k)} :: Onto(out, After(r, k)) == Onto(old(out), PutMake(a, n, k))
      decreases n, 0
    {
      Position(n.pos);
      TypeExpr(n.exprType);
      Len(|n.makeArgs|);
      :- ExprList(n.makeArgs);
      Descriptor(n.makeRType);
      r := Pass;
    }

    method Conversion(n: Node) returns (r: Outcome)
      requires Valid() && n.Convert?
      modifies this
      ensures Valid()
      ensures forall k {:trigger PutConvert(a, n, k)} :: Onto(out, After(r, k)) == Onto(old(out), PutConvert(a, n, k))
      decreases n, 0
    {
      Bool(n.implicit);
      Type(n.typ);
      Position(n.pos);
      Conv(n.conv);
      Bool(n.typeParam);
      Bool(n.identical);
      r := ExprOf(n.x);
    }

    method CompositeLit(n: Node) returns (r: Outcome)
      requires Valid() && n.CompLit?
      modifies this
      ensures Valid()
      ensures forall k {:trigger PutLit(a, n, k)} :: Onto(out, After(r, k)) == Onto(old(out), PutLit(a, n, k))
      decreases n, 0
    {
      Position(n.pos);
      Type(n.typ);
      var core := LitCore(a, n.typ);
      :- OptDescriptor(core.MapCore?, n.mapRType);
      Int(if n.keyed then -|n.elems| else |n.elems|);
      if !Builds(core) { return Failed; }
      r := Elems(n.elems, core, n.keyed);
    }

    method Elems(list: seq<LitElem>, core: Core, keyed: bool) returns (r: Outcome)
      requires Valid() && Builds(core)
      modifies this
      ensures Valid()
      ensures forall k {:trigger PutElems(a, list, core, keyed, 0, k)} ::
        Onto(out, After(r, k)) == Onto(old(out), PutElems(a, list, core, keyed, 0, k))
      decreases list, 0
    {
      for i := 0 to |list|
        invariant Valid()
        invariant forall k {:trigger PutElems(a, list, core, keyed, 0, k)} ::
          Onto(out, PutElems(a, list[i..], core, keyed, i, k)) == Onto(old(out), PutElems(a, list, core, keyed, 0, k))
      {
        assert list[i..][1..] == list[i + 1..];
        :- Elem(list[i], core, keyed, i);
      }
      r := Pass;
    }

    method Elem(e: LitElem, core: Core, keyed: bool, i: nat) returns (r: Outcome)
      requires Valid() && Builds(core)
      modifies this
      ensures Valid()
      ensures forall k {:trigger PutElem(a, e, core, keyed, i, k)} ::
        Onto(out, After(r, k)) == Onto(old(out), PutElem(a, e, core, keyed, i, k))
      decreases e, 1
    {
      match core
      case MapCore => r := MapElem(e);
      case ListCore => r := ListElem(e, keyed);
      case StructCore => r := StructElem(e, keyed, i);
    }

    method MapElem(e: LitElem) returns (r: Outcome)
      requires Valid()
      modifies this
      ensures Valid()
      ensures forall k {:trigger PutMapElem(a, e, k)} :: Onto(out, After(r, k)) == Onto(old(out), PutMapElem(a, e, k))
      decreases e, 0
    {
      Position(e.pos);
      if e.key.None? { return Failed; }
      :- ExprOf(e.key.value);
      r := ExprOf(e.value);
    }

    method ListElem(e: LitElem, keyed: bool) returns (r: Outcome)
      requires Valid()
      modifies this
      ensures Valid()
      ensures forall k {:trigger PutListElem(a, e, keyed, k)} ::
        Onto(out, After(r, k)) == Onto(old(out), PutListElem(a, e, keyed, k))
      decreases e, 0
    {
      if keyed {
        Bool(e.key.Some?);
        if e.key.Some? {
          Position(e.pos);
          :- ExprOf(e.key.value);
        }
      } else if e.key.Some? {
        return Failed;
      }
      r := ExprOf(e.value);
    }

    method StructElem(e: LitElem, keyed: bool, i: nat) returns (r: Outcome)
      requires Valid()
      modifies this
      ensures Valid()
      ensures forall k {:trigger PutStructElem(a, e, keyed, i, k)} ::
        Onto(out, After(r, k)) == Onto(old(out), PutStructElem(a, e, keyed, i, k))
      decreases e, 0
    {
      Position(e.pos);
      if !keyed {
        if e.field != i { return Failed; }
      } else if e.embedded != [] {
        Int(-|e.embedded|);
        Ints(e.embedded);
      } else {
        Int(e.field);
      }
      r := ExprOf(e.value);
    }

    // ----- The element -----

    method EncodeBody(b: Body) returns (r: Outcome)
      requires Valid() && out == []
      modifies this
      ensures Valid() && Onto(out, After(r, End)) == PutBody(a, b)
    {
      LocalDecls(b.params);
      Bool(b.block.Some?);
      if b.block.Some? {
        :- Stmts(b.block.value.stmts);
        Position(b.block.value.rbrace);
      }
      r := Pass;
    }
  }

  // ----- The element -----

  lemma {:induction false} OntoComplete(out: seq<Token>, k: Stream)
    ensures Complete(Onto(out, k)) <==> Complete(k)
    ensures Refs(Onto(out, k)) == Entries(out) + Refs(k)
  {
    if out != [] { OntoComplete(out[..|out| - 1], Cons(out[|out| - 1], k)); }
  }

  /** The writer refuses exactly the trees that have no whole encoding, and the
      element of any other is that encoding with the references in it. */
  method WriteBody(a: Archive, b: Body) returns (r: Option<Element>)
    ensures r.Some? <==> BodyWritable.CanBody(a, b)
    ensures r == if Complete(PutBody(a, b)) then Some(ElementOf(PutBody(a, b))) else None
  {
    BodyRefusals.BodyWhole(a, b);
    var w := new Writer(a);
    var ok := w.EncodeBody(b);
    OntoComplete(w.out, After(ok, End));
    if ok.Failed? { return None; }
    var s := End;
    assert w.out[..|w.out|] == w.out;
    for i := |w.out| downto 0
      invariant Onto(w.out[..i], s) == PutBody(a, b)
    {
      assert w.out[..i + 1][..i] == w.out[..i];
      s := Cons(w.out[i], s);
    }
    assert w.table == Refs(PutBody(a, b));
    r := Some(Element(s, w.table));
  }

  // ----- There and back -----

  /** A body that is written into element i and read again is the same body
      exactly when it is canonical. */
  method Reread(a: Archive, bodies: Bodies, i: nat, b: Body) returns (c: Option<Body>)
    requires Mirrors(a) && Readable(bodies)
    ensures Complete(PutBody(a, b)) ==> (c == Some(b) <==> CanonBody(a, bodies - {i}, b))
  {
    var e := WriteBody(a, b);
    if e.None? { return None; }
    c := BodyReader.ReadBody(a, bodies[i := e.value], i, |b.params|);
    assert bodies[i := e.value] - {i} == bodies - {i};
    assert Held(a, bodies[i := e.value], i, b, |b.params|);
  }

  /** An element that can be read at all is written back as it was, each token
      and each entry of its table. */
  method Rewrite(a: Archive, bodies: Bodies, i: nat, nparams: nat) returns (e: Option<Element>)
    requires Mirrors(a) && Readable(bodies)
    ensures e.Some? ==> i in bodies && e.value == bodies[i]
    ensures e.None? ==> forall b: Body {:trigger PutBody(a, b)} ::
              !(Held(a, bodies, i, b, nparams) && CanonBody(a, bodies - {i}, b))
  {
    var b := BodyReader.ReadBody(a, bodies, i, nparams);
    forall x: Body | Held(a, bodies, i, x, nparams) && CanonBody(a, bodies - {i}, x) ensures b == Some(x) {
      assert PutBody(a, x) == bodies[i].stream;
    }
    if b.None? { return None; }
    e := WriteBody(a, b.value);
  }

  /** Whatever can be read can be written: a call in it has a descriptor exactly
      if it is of one of the four builtins, and so on for the other nodes. */
  lemma ReadCanBeWritten(a: Archive, bodies: Bodies, i: nat, nparams: nat, r: Option<Body>)
    requires GotBody(a, bodies, i, nparams, r) && r.Some?
    ensures BodyWritable.CanBody(a, r.value)
  {
    BodyRefusals.BodyWhole(a, r.value);
  }

  // ----- The reverse maps -----

  /** newElemRefs: the element that holds each string and each package, unless
      a section holds one value twice. */
  method ElemRefs<T(==)>(section: seq<T>) returns (r: Option<map<T, nat>>)
    ensures r.Some? <==> forall i, j :: 0 <= i < j < |section| ==> section[i] != section[j]
    ensures r.Some? ==> forall i :: 0 <= i < |section| ==> section[i] in r.value && r.value[section[i]] == i
    ensures r.Some? ==> forall x <- r.value :: r.value[x] < |section| && section[r.value[x]] == x
  {
    var m: map<T, nat> := map[];
    for i := 0 to |section|
      invariant forall j :: 0 <= j < i ==> section[j] in m && m[section[j]] == j
      invariant forall x <- m :: m[x] < i && section[m[x]] == x
    {
      if section[i] in m { return None; }
      m := m[section[i] := i];
    }
    r := Some(m);
  }

  // ----- What the writer does not look at -----

  /** The index of a promoted field is not written: the path is. So the first
      step of the path, which the builder sets (bodybuild.go:2023-2026), comes
      back as the last one, and such an element is canonical exactly when the
      two are the same. */
  lemma PromotedFieldIsNotWritten(a: Archive, bs: Bodies, e: LitElem, i: nat, k: Stream)
    requires e.embedded != [] && e.field == e.embedded[0]
    ensures var back := e.(field := Last(e.embedded));
            && PutStructElem(a, e, true, i, k) == PutStructElem(a, back, true, i, k)
            && (CanonStructElem(a, bs, e, true) <==> CanonStructElem(a, bs, back, true) && e.field == Last(e.embedded))
  {
  }

  /** S{f: v} where f is field 1 of the embedded struct that is field 0 of S:
      what is read back names field 1. */
  lemma PromotedByTwoSteps(a: Archive, bs: Bodies, pos: Pos, v: Expr, i: nat, k: Stream)
    requires CanonExpr(a, bs, v)
    ensures var e, back := LitElem(pos, None, 0, [0, 1], v), LitElem(pos, None, 1, [0, 1], v);
            && PutStructElem(a, e, true, i, k) == PutStructElem(a, back, true, i, k)
            && !CanonStructElem(a, bs, e, true) && CanonStructElem(a, bs, back, true)
  {
    PromotedFieldIsNotWritten(a, bs, LitElem(pos, None, 0, [0, 1], v), i, k);
  }
}

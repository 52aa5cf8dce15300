/** The body reader (export/bodyread.go): a cursor over one element's stream.

    A step that refuses returns None, where the source panics. A list the
    source fills in a loop is read by recursion. */
module BodyReader {
  import opened Wrappers
  import opened BodyTree
  import opened BodyFormat
  import opened BodyCanonical
  import opened BodyGot

  class Reader {
    const a: Archive
    const bodies: Bodies
    var rest: Stream

    // Every reference read so far, against those of the whole element.
    var relocs: set<(Section, nat)>
    ghost const refs: set<(Section, nat)>

    constructor (a: Archive, bodies: Bodies, s: Stream)
      requires Mirrors(a) && Readable(bodies) && Complete(s)
      ensures Valid() && this.a == a && this.bodies == bodies && rest == s && refs == Refs(s)
    {
      this.a, this.bodies, rest, relocs, refs := a, bodies, s, {}, Refs(s);
    }

    ghost predicate Valid()
      reads this
    {
      Mirrors(a) && Readable(bodies) && Complete(rest) && relocs + Refs(rest) == refs
    }

    // ----- Primitives -----

    method Bool() returns (r: Option<bool>)
      requires Valid()
      modifies this
      ensures Valid() && GotBit(old(rest), r, rest) && (r.Some? ==> rest < old(rest))
    {
      if !(rest.Cons? && rest.head.Bit?) { return None; }
      r := Some(rest.head.bit);
      rest := rest.tail;
    }

    method Len() returns (r: Option<nat>)
      requires Valid()
      modifies this
      ensures Valid() && GotLen(old(rest), r, rest) && (r.Some? ==> rest < old(rest))
    {
      if !(rest.Cons? && rest.head.Len?) { return None; }
      r := Some(rest.head.len);
      rest := rest.tail;
    }

    method Int() returns (r: Option<int>)
      requires Valid()
      modifies this
      ensures Valid() && GotInt(old(rest), r, rest) && (r.Some? ==> rest < old(rest))
    {
      if !(rest.Cons? && rest.head.Int?) { return None; }
      r := Some(rest.head.int_);
      rest := rest.tail;
    }

    method Code() returns (r: Option<nat>)
      requires Valid()
      modifies this
      ensures Valid() && GotCode(old(rest), r, rest) && (r.Some? ==> rest < old(rest))
    {
      if !(rest.Cons? && rest.head.Code?) { return None; }
      r := Some(rest.head.code);
      rest := rest.tail;
    }

    method Reloc(section: Section) returns (r: Option<nat>)
      requires Valid()
      modifies this
      ensures Valid() && GotRef(section, old(rest), r, rest) && (r.Some? ==> rest < old(rest))
    {
      if !(rest.Cons? && rest.head.Ref? && rest.head.section == section) { return None; }
      r := Some(rest.head.idx);
      relocs := relocs + {(section, rest.head.idx)};
      rest := rest.tail;
    }

    method Slot() returns (r: Option<Option<nat>>)
      requires Valid()
      modifies this
      ensures Valid() && GotSlot(old(rest), r, rest) && (r.Some? ==> rest < old(rest))
    {
      var there :- Bool();
      if !there { return Some(None); }
      var slot :- Len();
      r := Some(Some(slot));
    }

    // ----- References -----

    method Position() returns (r: Option<Pos>)
      requires Valid()
      modifies this
      ensures Valid() && GotPos(old(rest), r, rest) && (r.Some? ==> rest < old(rest))
    {
      var known :- Bool();
      if !known { return Some(NoPos); }
      var base :- Reloc(PosBases);
      var line :- Len();
      var col :- Len();
      r := Some(Pos(base, line, col));
    }

    method Str() returns (r: Option<string>)
      requires Valid()
      modifies this
      ensures Valid() && GotStr(a, old(rest), r, rest) && (r.Some? ==> rest < old(rest))
    {
      var i :- Reloc(Strings);
      r := if i < |a.strs| then Some(a.strs[i]) else None;
    }

    method Package() returns (r: Option<Pkg>)
      requires Valid()
      modifies this
      ensures Valid() && GotPkg(a, old(rest), r, rest) && (r.Some? ==> rest < old(rest))
    {
      var i :- Reloc(Pkgs);
      r := if i < |a.pkgs| then Some(a.pkgs[i]) else None;
    }

    method Type() returns (r: Option<TypeUse>)
      requires Valid()
      modifies this
      ensures Valid() && GotType(a, old(rest), r, rest) && (r.Some? ==> rest < old(rest))
    {
      var derived :- Bool();
      if derived {
        var slot :- Len();
        return if slot < |a.derived| then Some(DerivedAt(slot)) else None;
      }
      var idx :- Reloc(Section.Types);
      r := Some(TypeAt(idx));
    }

    method TypeList(n: nat) returns (r: Option<seq<TypeUse>>)
      requires Valid()
      modifies this
      ensures Valid() && GotTypes(a, n, old(rest), r, rest) && (r.Some? ==> rest == old(rest) || rest < old(rest))
    {
      if n == 0 { return Some([]); }
      var t :- Type();
      var ts :- TypeList(n - 1);
      HeadTail(t, ts);
      r := Some([t] + ts);
    }

    method Object() returns (r: Option<ObjUse>)
      requires Valid()
      modifies this
      ensures Valid() && GotObj(a, old(rest), r, rest) && (r.Some? ==> rest < old(rest))
    {
      var derived :- Bool();
      if derived { return None; }
      var idx :- Reloc(Objs);
      var n :- Len();
      var targs :- TypeList(n);
      r := Some(ObjUse(idx, targs));
    }

    method Name() returns (r: Option<Selector>)
      requires Valid()
      modifies this
      ensures Valid() && GotSelector(a, old(rest), r, rest) && (r.Some? ==> rest < old(rest))
    {
      var pkg :- Package();
      var name :- Str();
      r := Some(Selector(pkg, name));
    }

    method LocalDecl() returns (r: Option<Local>)
      requires Valid()
      modifies this
      ensures Valid() && GotLocal(old(rest), r, rest) && (r.Some? ==> rest < old(rest))
    {
      var slot :- Slot();
      r := Some(Local(slot));
    }

    method LocalDecls(n: nat) returns (r: Option<seq<Local>>)
      requires Valid()
      modifies this
      ensures Valid() && GotLocals(n, old(rest), r, rest) && (r.Some? ==> rest == old(rest) || rest < old(rest))
    {
      if n == 0 { return Some([]); }
      var t :- LocalDecl();
      var ts :- LocalDecls(n - 1);
      HeadTail(t, ts);
      r := Some([t] + ts);
    }

    method Lens(n: nat) returns (r: Option<seq<nat>>)
      requires Valid()
      modifies this
      ensures Valid() && GotLens(n, old(rest), r, rest) && (r.Some? ==> rest == old(rest) || rest < old(rest))
    {
      if n == 0 { return Some([]); }
      var t :- Len();
      var ts :- Lens(n - 1);
      HeadTail(t, ts);
      r := Some([t] + ts);
    }

    method Ints(n: nat) returns (r: Option<seq<int>>)
      requires Valid()
      modifies this
      ensures Valid() && GotInts(n, old(rest), r, rest) && (r.Some? ==> rest == old(rest) || rest < old(rest))
    {
      if n == 0 { return Some([]); }
      var t :- Int();
      var ts :- Ints(n - 1);
      HeadTail(t, ts);
      r := Some([t] + ts);
    }

    method Op() returns (r: Option<nat>)
      requires Valid()
      modifies this
      ensures Valid() && GotOp(old(rest), r, rest) && (r.Some? ==> rest < old(rest))
    {
      var op :- Len();
      r := if KnownOp(op) then Some(op) else None;
    }

    // ----- Constants -----

    method BigNumber() returns (r: Option<Big>)
      requires Valid()
      modifies this
      ensures Valid() && GotBig(a, old(rest), r, rest) && (r.Some? ==> rest < old(rest))
    {
      var bytes :- Str();
      var negative :- Bool();
      r := Some(Big(bytes, negative));
    }

    method ScalarOf() returns (r: Option<Scalar>)
      requires Valid()
      modifies this
      ensures Valid() && GotScalar(a, old(rest), r, rest) && (r.Some? ==> rest < old(rest))
    {
      var tag :- Code();
      if tag == VAL_BOOL {
        var b :- Bool();
        r := Some(BoolValue(b));
      } else if tag == VAL_STRING {
        var s :- Str();
        r := Some(StringValue(s));
      } else if tag == VAL_INT64 {
        var i :- Int();
        r := Some(IntValue(i));
      } else if tag == VAL_BIG_INT {
        var n :- BigNumber();
        r := Some(BigInt(n));
      } else if tag == VAL_BIG_RAT {
        var n :- BigNumber();
        var d :- BigNumber();
        r := Some(BigRat(n, d));
      } else if tag == VAL_BIG_FLOAT {
        var t :- Str();
        r := Some(BigFloat(t));
      } else {
        r := None;
      }
    }

    method Constant() returns (r: Option<Value>)
      requires Valid()
      modifies this
      ensures Valid() && GotValue(a, old(rest), r, rest) && (r.Some? ==> rest < old(rest))
    {
      var complex :- Bool();
      var re :- ScalarOf();
      if !complex { return Some(Value(re, None)); }
      var im :- ScalarOf();
      r := Some(Value(re, Some(im)));
    }

    // ----- Runtime type information -----

    method Descriptor() returns (r: Option<RType>)
      requires Valid()
      modifies this
      ensures Valid() && GotRType(a, old(rest), r, rest) && (r.Some? ==> rest < old(rest))
    {
      var derived :- Bool();
      if derived {
        var slot :- Len();
        return if slot < a.rtypes then Some(RTypeAt(slot)) else None;
      }
      var t :- Type();
      r := Some(RTypeOf(t));
    }

    method Conv() returns (r: Option<ConvRTTI>)
      requires Valid()
      modifies this
      ensures Valid() && GotConv(a, old(rest), r, rest) && (r.Some? ==> rest < old(rest))
    {
      var src :- Descriptor();
      var dst :- Descriptor();
      var itab :- Slot();
      r := Some(ConvRTTI(src, dst, itab));
    }

    method TypeExpr() returns (r: Option<ExprType>)
      requires Valid()
      modifies this
      ensures Valid() && GotExprType(a, old(rest), r, rest) && (r.Some? ==> rest < old(rest))
    {
      var pos :- Position();
      var itab :- Bool();
      if itab {
        var c :- Conv();
        return Some(AgainstItab(pos, c));
      }
      var t :- Descriptor();
      var derived :- Bool();
      r := Some(WithRType(pos, t, derived));
    }

    method TypeCase() returns (r: Option<Option<ExprType>>)
      requires Valid()
      modifies this
      ensures Valid() && GotCase(a, old(rest), r, rest) && (r.Some? ==> rest < old(rest))
    {
      var isNil :- Bool();
      if isNil { return Some(None); }
      var t :- TypeExpr();
      r := Some(Some(t));
    }

    method TypeCases(n: nat) returns (r: Option<seq<Option<ExprType>>>)
      requires Valid()
      modifies this
      ensures Valid() && GotCases(a, n, old(rest), r, rest) && (r.Some? ==> rest == old(rest) || rest < old(rest))
    {
      if n == 0 { return Some([]); }
      var t :- TypeCase();
      var ts :- TypeCases(n - 1);
      HeadTail(t, ts);
      r := Some([t] + ts);
    }

    method OptDescriptor(wanted: bool) returns (r: Option<Option<RType>>)
      requires Valid()
      modifies this
      ensures Valid() && GotOptRType(a, wanted, old(rest), r, rest) && (r.Some? ==> rest == old(rest) || rest < old(rest))
    {
      if !wanted { return Some(None); }
      var t :- Descriptor();
      r := Some(Some(t));
    }

    method OptConv(wanted: bool) returns (r: Option<Option<ConvRTTI>>)
      requires Valid()
      modifies this
      ensures Valid() && GotOptConv(a, wanted, old(rest), r, rest) && (r.Some? ==> rest == old(rest) || rest < old(rest))
    {
      if !wanted { return Some(None); }
      var c :- Conv();
      r := Some(Some(c));
    }

    /** The operand's type decides whether a descriptor follows. */
    method MapDescriptor(typ: Option<TypeUse>) returns (r: Option<Option<RType>>)
      requires Valid()
      modifies this
      ensures Valid() && GotMapRType(a, typ, old(rest), r, rest) && (r.Some? ==> rest == old(rest) || rest < old(rest))
    {
      if typ.None? { return None; }
      r := OptDescriptor(CoreOf(a, typ.value).MapCore?);
    }

    // ----- Methods and instances -----

    method Instance() returns (r: Option<FuncInst>)
      requires Valid()
      modifies this
      ensures Valid() && GotInst(a, old(rest), r, rest) && (r.Some? ==> rest < old(rest))
    {
      var derived :- Bool();
      if derived {
        var slot :- Len();
        return Some(InstAt(slot));
      }
      var o :- Object();
      r := Some(InstOf(o));
    }

    method MethodDictionary() returns (r: Option<MethodDict>)
      requires Valid()
      modifies this
      ensures Valid() && GotMethodDict(a, old(rest), r, rest) && (r.Some? ==> rest < old(rest))
    {
      var typeParam :- Bool();
      if typeParam {
        var slot :- Len();
        return Some(ViaTypeParam(slot));
      }
      var sub :- Bool();
      if sub {
        var slot :- Len();
        return Some(ViaSubdict(slot));
      }
      var known :- Bool();
      if !known { return Some(NoDict); }
      var o :- Object();
      r := Some(ViaStatic(o));
    }

    method Method() returns (r: Option<MethodRef>)
      requires Valid()
      modifies this
      ensures Valid() && GotMethod(a, old(rest), r, rest) && (r.Some? ==> rest < old(rest))
    {
      var recv :- Type();
      var generic :- Bool();
      var sig: Option<TypeUse> := None;
      if !generic {
        var t :- Type();
        sig := Some(t);
      }
      var pos :- Position();
      var sel :- Name();
      var dict :- MethodDictionary();
      r := Some(MethodRef(recv, sig, pos, sel, dict));
    }

    method Steps() returns (r: Option<Path>)
      requires Valid()
      modifies this
      ensures Valid() && GotPath(old(rest), r, rest) && (r.Some? ==> rest < old(rest))
    {
      var n :- Len();
      var implicits :- Lens(n);
      var deref :- Bool();
      if deref { return Some(Path(implicits, true, false)); }
      var addr :- Bool();
      r := Some(Path(implicits, false, addr));
    }

    // ----- Signatures -----

    method Parameter() returns (r: Option<Param>)
      requires Valid()
      modifies this
      ensures Valid() && GotParam(a, old(rest), r, rest) && (r.Some? ==> rest < old(rest))
    {
      var pos :- Position();
      var name :- Name();
      var t :- Type();
      r := Some(Param(pos, name, t));
    }

    method Parameters(n: nat) returns (r: Option<seq<Param>>)
      requires Valid()
      modifies this
      ensures Valid() && GotParams(a, n, old(rest), r, rest) && (r.Some? ==> rest == old(rest) || rest < old(rest))
    {
      if n == 0 { return Some([]); }
      var t :- Parameter();
      var ts :- Parameters(n - 1);
      HeadTail(t, ts);
      r := Some([t] + ts);
    }

    method Sig() returns (r: Option<Signature>)
      requires Valid()
      modifies this
      ensures Valid() && GotSignature(a, old(rest), r, rest) && (r.Some? ==> rest < old(rest))
    {
      var n :- Len();
      var params :- Parameters(n);
      var m :- Len();
      var results :- Parameters(m);
      var variadic :- Bool();
      var rangeFuncBody :- Bool();
      r := Some(Signature(params, results, variadic, rangeFuncBody));
    }

    method CapturedVar() returns (r: Option<Capture>)
      requires Valid()
      modifies this
      ensures Valid() && GotCapture(old(rest), r, rest) && (r.Some? ==> rest < old(rest))
    {
      var pos :- Position();
      var direct :- Bool();
      var index :- Len();
      r := Some(Capture(pos, !direct, index));
    }

    method CapturedVars(n: nat) returns (r: Option<seq<Capture>>)
      requires Valid()
      modifies this
      ensures Valid() && GotCaptures(n, old(rest), r, rest) && (r.Some? ==> rest == old(rest) || rest < old(rest))
    {
      if n == 0 { return Some([]); }
      var t :- CapturedVar();
      var ts :- CapturedVars(n - 1);
      HeadTail(t, ts);
      r := Some([t] + ts);
    }

    method LitRefOf() returns (r: Option<LitRef>)
      requires Valid()
      modifies this
      ensures Valid() && GotLitRef(a, old(rest), r, rest) && (r.Some? ==> rest < old(rest))
    {
      var pos :- Position();
      var sig :- Sig();
      var n :- Len();
      var captures :- CapturedVars(n);
      var body :- Reloc(Section.Bodies);
      r := Some(LitRef(pos, sig, captures, body));
    }

    method ResultOf() returns (r: Option<MultiResult>)
      requires Valid()
      modifies this
      ensures Valid() && GotResult(a, old(rest), r, rest) && (r.Some? ==> rest < old(rest))
    {
      var src :- Type();
      var converted :- Bool();
      if !converted { return Some(MultiResult(src, None)); }
      var dst :- Type();
      var c :- Conv();
      r := Some(MultiResult(src, Some(Converted(dst, c))));
    }

    method Results(n: nat) returns (r: Option<seq<MultiResult>>)
      requires Valid()
      modifies this
      ensures Valid() && GotResults(a, n, old(rest), r, rest) && (r.Some? ==> rest == old(rest) || rest < old(rest))
    {
      if n == 0 { return Some([]); }
      var t :- ResultOf();
      var ts :- Results(n - 1);
      HeadTail(t, ts);
      r := Some([t] + ts);
    }

    method ScopeOf(first: bool) returns (r: Option<Scope>)
      requires Valid()
      modifies this
      ensures Valid() && GotScope(first, old(rest), r, rest) && (r.Some? ==> rest < old(rest))
    {
      var close: Option<Pos> := None;
      if !first {
        var p :- Position();
        close := Some(p);
      }
      var open :- Position();
      var pos :- Position();
      r := Some(Scope(close, open, pos));
    }

    method ClauseVariable(named: bool) returns (r: Option<Option<ClauseVar>>)
      requires Valid()
      modifies this
      ensures Valid() && GotClauseVar(a, named, old(rest), r, rest) && (r.Some? ==> rest == old(rest) || rest < old(rest))
    {
      if !named { return Some(None); }
      var pos :- Position();
      var t :- Type();
      var l :- LocalDecl();
      r := Some(Some(ClauseVar(pos, t, l)));
    }

    method OptLabel() returns (r: Option<Option<string>>)
      requires Valid()
      modifies this
      ensures Valid() && GotTarget(a, old(rest), r, rest) && (r.Some? ==> rest < old(rest))
    {
      var labelled :- Bool();
      if !labelled { return Some(None); }
      var name :- Str();
      r := Some(Some(name));
    }

    // ----- Statements -----

    method Stmts() returns (r: Option<seq<Stmt>>)
      requires Valid()
      modifies this
      ensures Valid() && GotStmts(a, bodies, old(rest), r, rest) && (r.Some? ==> rest < old(rest))
      decreases |bodies|, true, rest, 0
    {
      var kind :- Code();
      if kind == STMT_END { return Some([]); }
      StmtKinds(kind);
      var t :- StmtOf(kind);
      var ts :- Stmts();
      HeadTail(t, ts);
      r := Some([t] + ts);
    }

    method StmtOf(kind: nat) returns (r: Option<Stmt>)
      requires Valid()
      modifies this
      ensures Valid() && GotStmt(a, bodies, kind, old(rest), r, rest) && (r.Some? ==> rest < old(rest))
      decreases |bodies|, true, rest, 13
    {
      if kind == STMT_IF { r := If(); }
      else if kind == STMT_FOR { r := For(); }
      else if kind == STMT_SWITCH { r := Switch(); }
      else if kind == STMT_SELECT { r := Select(); }
      else { r := Basic(kind); }
    }

    method Basic(kind: nat) returns (r: Option<Stmt>)
      requires Valid()
      modifies this
      ensures Valid() && GotBasic(a, bodies, kind, old(rest), r, rest) && (r.Some? ==> rest < old(rest))
      decreases |bodies|, true, rest, 12
    {
      if kind == STMT_ASSIGN { r := Assign(); }
      else if kind == STMT_CALL { r := CallStatement(); }
      else if kind == STMT_BLOCK || kind == STMT_EXPR || kind == STMT_ASSIGN_OP || kind == STMT_INC_DEC { r := Simple(kind); }
      else { r := Placed(kind); }
    }

    method Simple(kind: nat) returns (r: Option<Stmt>)
      requires Valid()
      requires kind == STMT_BLOCK || kind == STMT_EXPR || kind == STMT_ASSIGN_OP || kind == STMT_INC_DEC
      modifies this
      ensures Valid() && GotSimple(a, bodies, kind, old(rest), r, rest) && (r.Some? ==> rest < old(rest))
      decreases |bodies|, true, rest, 11
    {
      if kind == STMT_BLOCK {
        var b :- BlockOf();
        r := Some(BlockStmt(b));
      } else if kind == STMT_EXPR {
        var x :- ExprOf();
        r := Some(ExprStmt(x));
      } else if kind == STMT_ASSIGN_OP {
        var op :- Op();
        var dst :- ExprOf();
        var pos :- Position();
        var src :- ExprOf();
        r := Some(AssignOpStmt(op, dst, pos, src));
      } else {
        var op :- Op();
        var x :- ExprOf();
        var pos :- Position();
        r := Some(IncDecStmt(op, x, pos));
      }
    }

    /** The statements that begin with their position. */
    method Placed(kind: nat) returns (r: Option<Stmt>)
      requires Valid()
      modifies this
      ensures Valid() && GotPlaced(a, bodies, kind, old(rest), r, rest) && (r.Some? ==> rest < old(rest))
      decreases |bodies|, true, rest, 11
    {
      var pos :- Position();
      if kind == STMT_LABEL {
        var name :- Str();
        r := Some(LabelStmt(pos, name));
      } else if kind == STMT_SEND {
        var ch :- ExprOf();
        var value :- ExprOf();
        r := Some(SendStmt(pos, ch, value));
      } else if kind == STMT_BRANCH {
        var op :- Op();
        var target :- OptLabel();
        r := Some(BranchStmt(pos, op, target));
      } else if kind == STMT_RETURN {
        var results :- Multi();
        r := Some(ReturnStmt(pos, results));
      } else {
        r := None;
      }
    }

    method Assign() returns (r: Option<Stmt>)
      requires Valid()
      modifies this
      ensures Valid() && GotAssign(a, bodies, old(rest), r, rest) && (r.Some? ==> rest < old(rest))
      decreases |bodies|, true, rest, 11
    {
      var pos :- Position();
      var n :- Len();
      var lhs :- Assignees(n);
      var rhs :- Multi();
      r := Some(AssignStmt(pos, lhs, rhs));
    }

    method CallStatement() returns (r: Option<Stmt>)
      requires Valid()
      modifies this
      ensures Valid() && GotCallStmt(a, bodies, old(rest), r, rest) && (r.Some? ==> rest < old(rest))
      decreases |bodies|, true, rest, 11
    {
      var pos :- Position();
      var op :- Op();
      var call :- ExprOf();
      var deferAt: Option<Expr> := None;
      if op == OP_DEFER { deferAt :- OptExpr(); }
      r := Some(CallStmt(pos, op, call, deferAt));
    }

    method BlockOf() returns (r: Option<Block>)
      requires Valid()
      modifies this
      ensures Valid() && GotBlock(a, bodies, old(rest), r, rest) && (r.Some? ==> rest < old(rest))
      decreases |bodies|, true, rest, 10
    {
      var open :- Position();
      var body :- Stmts();
      var close :- Position();
      r := Some(Block(open, body, close));
    }

    method If() returns (r: Option<Stmt>)
      requires Valid()
      modifies this
      ensures Valid() && GotIf(a, bodies, old(rest), r, rest) && (r.Some? ==> rest < old(rest))
      decreases |bodies|, true, rest, 10
    {
      var open :- Position();
      var pos :- Position();
      var init :- Stmts();
      var cond :- ExprOf();
      var known :- Int();
      var arms :- ArmsOf(known);
      r := Some(IfStmt(open, pos, init, cond, known, arms));
    }

    /** The arm that a constant condition rules out is not in the stream. */
    method ArmsOf(known: int) returns (r: Option<Arms>)
      requires Valid()
      modifies this
      ensures Valid() && GotArms(a, bodies, known, old(rest), r, rest) && (r.Some? ==> rest < old(rest))
      decreases |bodies|, true, rest, 11
    {
      var thn: Option<Block> := None;
      var close := NoPos;
      var els: seq<Stmt> := [];
      if known >= 0 {
        var b :- BlockOf();
        thn := Some(b);
      } else {
        close :- Position();
      }
      if known <= 0 { els :- Stmts(); }
      r := Some(Arms(thn, close, els));
    }

    method For() returns (r: Option<Stmt>)
      requires Valid()
      modifies this
      ensures Valid() && GotFor(a, bodies, old(rest), r, rest) && (r.Some? ==> rest < old(rest))
      decreases |bodies|, true, rest, 11
    {
      var open :- Position();
      var head :- ForHeadOf();
      var body :- BlockOf();
      var distinct :- Bool();
      r := Some(ForStmt(open, head, body, distinct));
    }

    method ForHeadOf() returns (r: Option<ForHead>)
      requires Valid()
      modifies this
      ensures Valid() && GotHead(a, bodies, old(rest), r, rest) && (r.Some? ==> rest < old(rest))
      decreases |bodies|, true, rest, 10
    {
      var range :- Bool();
      if range { r := RangeHead(); } else { r := ThreeHead(); }
    }

    method RangeHead() returns (r: Option<ForHead>)
      requires Valid()
      modifies this
      ensures Valid() && GotRange(a, bodies, old(rest), r, rest) && (r.Some? ==> rest < old(rest))
      decreases |bodies|, true, rest, 10
    {
      var pos :- Position();
      var n :- Len();
      var lhs :- Assignees(n);
      var x :- ExprOf();
      var m :- MapDescriptor(TypeOf(x));
      var convs :- Conversions(lhs);
      r := Some(Range(pos, lhs, x, m, convs));
    }

    method Conversions(lhs: seq<Assignee>) returns (r: Option<RangeConvs>)
      requires Valid()
      modifies this
      ensures Valid() && GotRangeConvs(a, lhs, old(rest), r, rest) && (r.Some? ==> rest == old(rest) || rest < old(rest))
    {
      var key :- OptConv(Assigns(lhs, 0));
      var value :- OptConv(Assigns(lhs, 1));
      r := Some(RangeConvs(key, value));
    }

    method ThreeHead() returns (r: Option<ForHead>)
      requires Valid()
      modifies this
      ensures Valid() && GotThree(a, bodies, old(rest), r, rest) && (r.Some? ==> rest < old(rest))
      decreases |bodies|, true, rest, 10
    {
      var pos :- Position();
      var init :- Stmts();
      var cond :- OptExpr();
      var post :- Stmts();
      r := Some(Three(pos, init, cond, post));
    }

    method SwitchTagOf() returns (r: Option<SwitchTag>)
      requires Valid()
      modifies this
      ensures Valid() && GotTag(a, bodies, old(rest), r, rest) && (r.Some? ==> rest < old(rest))
      decreases |bodies|, true, rest, 10
    {
      var guard :- Bool();
      if !guard {
        var tag :- OptExpr();
        return Some(Tag(tag));
      }
      var pos :- Position();
      var named :- Bool();
      var name: Option<GuardName> := None;
      if named {
        var namePos :- Position();
        var sel :- Name();
        name := Some(GuardName(namePos, sel));
      }
      var x :- ExprOf();
      r := Some(Guard(pos, name, x));
    }

    method Switch() returns (r: Option<Stmt>)
      requires Valid()
      modifies this
      ensures Valid() && GotSwitch(a, bodies, old(rest), r, rest) && (r.Some? ==> rest < old(rest))
      decreases |bodies|, true, rest, 11
    {
      var open :- Position();
      var pos :- Position();
      var init :- Stmts();
      var cases :- CasesOf();
      r := Some(SwitchStmt(open, pos, init, cases));
    }

    method CasesOf() returns (r: Option<Cases>)
      requires Valid()
      modifies this
      ensures Valid() && GotSwitchCases(a, bodies, old(rest), r, rest) && (r.Some? ==> rest < old(rest))
      decreases |bodies|, true, rest, 11
    {
      var tag :- SwitchTagOf();
      var n :- Len();
      var clauses :- Clauses(n, tag.Guard?, tag.Guard? && tag.name.Some?, true);
      var clausesClose := NoPos;
      if n > 0 { clausesClose :- Position(); }
      var close :- Position();
      r := Some(Cases(tag, clauses, clausesClose, close));
    }

    method Clauses(n: nat, guard: bool, named: bool, first: bool) returns (r: Option<seq<Clause>>)
      requires Valid()
      modifies this
      ensures Valid() && GotClauses(a, bodies, n, guard, named, first, old(rest), r, rest) && (r.Some? ==> rest == old(rest) || rest < old(rest))
      decreases |bodies|, true, rest, 11
    {
      if n == 0 { return Some([]); }
      var t :- ClauseOf(guard, named, first);
      var ts :- Clauses(n - 1, guard, named, false);
      HeadTail(t, ts);
      r := Some([t] + ts);
    }

    method ClauseOf(guard: bool, named: bool, first: bool) returns (r: Option<Clause>)
      requires Valid()
      modifies this
      ensures Valid() && GotClause(a, bodies, guard, named, first, old(rest), r, rest) && (r.Some? ==> rest < old(rest))
      decreases |bodies|, true, rest, 10
    {
      var scope :- ScopeOf(first);
      var tests :- TestsOf(guard);
      var variable :- ClauseVariable(named);
      var body :- Stmts();
      r := Some(Clause(scope, tests, variable, body));
    }

    method TestsOf(guard: bool) returns (r: Option<Tests>)
      requires Valid()
      modifies this
      ensures Valid() && GotTests(a, bodies, guard, old(rest), r, rest) && (r.Some? ==> rest < old(rest))
      decreases |bodies|, true, rest, 9
    {
      var n :- Len();
      if guard {
        var types :- TypeCases(n);
        r := Some(Tests(types, []));
      } else {
        var exprs :- ExprList(n);
        r := Some(Tests([], exprs));
      }
    }

    method Select() returns (r: Option<Stmt>)
      requires Valid()
      modifies this
      ensures Valid() && GotSelect(a, bodies, old(rest), r, rest) && (r.Some? ==> rest < old(rest))
      decreases |bodies|, true, rest, 10
    {
      var pos :- Position();
      var n :- Len();
      var clauses :- CommClauses(n, true);
      var close := NoPos;
      if n > 0 { close :- Position(); }
      r := Some(SelectStmt(pos, clauses, close));
    }

    method CommClauses(n: nat, first: bool) returns (r: Option<seq<CommClause>>)
      requires Valid()
      modifies this
      ensures Valid() && GotComms(a, bodies, n, first, old(rest), r, rest) && (r.Some? ==> rest == old(rest) || rest < old(rest))
      decreases |bodies|, true, rest, 11
    {
      if n == 0 { return Some([]); }
      var t :- CommClauseOf(first);
      var ts :- CommClauses(n - 1, false);
      HeadTail(t, ts);
      r := Some([t] + ts);
    }

    method CommClauseOf(first: bool) returns (r: Option<CommClause>)
      requires Valid()
      modifies this
      ensures Valid() && GotComm(a, bodies, first, old(rest), r, rest) && (r.Some? ==> rest < old(rest))
      decreases |bodies|, true, rest, 10
    {
      var scope :- ScopeOf(first);
      var comm :- Stmts();
      var body :- Stmts();
      r := Some(CommClause(scope, comm, body));
    }

    method Assignees(n: nat) returns (r: Option<seq<Assignee>>)
      requires Valid()
      modifies this
      ensures Valid() && GotAssignees(a, bodies, n, old(rest), r, rest) && (r.Some? ==> rest == old(rest) || rest < old(rest))
      decreases |bodies|, true, rest, 9
    {
      if n == 0 { return Some([]); }
      var t :- AssigneeOf();
      var ts :- Assignees(n - 1);
      HeadTail(t, ts);
      r := Some([t] + ts);
    }

    method AssigneeOf() returns (r: Option<Assignee>)
      requires Valid()
      modifies this
      ensures Valid() && GotAssignee(a, bodies, old(rest), r, rest) && (r.Some? ==> rest < old(rest))
      decreases |bodies|, true, rest, 8
    {
      var kind :- Code();
      if kind == ASSIGN_BLANK {
        r := Some(Blank);
      } else if kind == ASSIGN_DEF {
        var pos :- Position();
        var name :- Name();
        var t :- Type();
        var l :- LocalDecl();
        r := Some(Def(pos, name, t, l));
      } else if kind == ASSIGN_EXPR {
        var x :- ExprOf();
        r := Some(Dest(x));
      } else {
        r := None;
      }
    }

    method Multi() returns (r: Option<MultiExpr>)
      requires Valid()
      modifies this
      ensures Valid() && GotMulti(a, bodies, old(rest), r, rest) && (r.Some? ==> rest < old(rest))
      decreases |bodies|, true, rest, 8
    {
      var single :- Bool();
      if single {
        var pos :- Position();
        var x :- ExprOf();
        var n :- Len();
        var results :- Results(n);
        r := Some(Single(pos, x, results));
      } else {
        var n :- Len();
        var exprs :- ExprList(n);
        r := Some(Each(exprs));
      }
    }

    // ----- Expressions -----

    method ExprList(n: nat) returns (r: Option<seq<Expr>>)
      requires Valid()
      modifies this
      ensures Valid() && GotExprs(a, bodies, n, old(rest), r, rest) && (r.Some? ==> rest == old(rest) || rest < old(rest))
      decreases |bodies|, true, rest, 2
    {
      if n == 0 { return Some([]); }
      var t :- ExprOf();
      var ts :- ExprList(n - 1);
      HeadTail(t, ts);
      r := Some([t] + ts);
    }

    method OptExpr() returns (r: Option<Option<Expr>>)
      requires Valid()
      modifies this
      ensures Valid() && GotOpt(a, bodies, old(rest), r, rest) && (r.Some? ==> rest < old(rest))
      decreases |bodies|, true, rest, 2
    {
      var there :- Bool();
      if !there { return Some(None); }
      var x :- ExprOf();
      r := Some(Some(x));
    }

    /** A reshape node belongs to the node after it. Two in a row are refused. */
    method ExprOf() returns (r: Option<Expr>)
      requires Valid()
      modifies this
      ensures Valid() && GotExpr(a, bodies, old(rest), r, rest) && (r.Some? ==> rest < old(rest))
      decreases |bodies|, true, rest, 1
    {
      var kind :- Code();
      var reshape: Option<TypeUse> := None;
      if kind == EXPR_RESHAPE {
        var t :- Type();
        reshape := Some(t);
        kind :- Code();
      }
      ExprKinds(kind);
      var n :- NodeOf(kind);
      r := Some(Expr(reshape, n));
    }

    method NodeOf(kind: nat) returns (r: Option<Node>)
      requires Valid()
      modifies this
      ensures Valid() && GotNode(a, bodies, kind, old(rest), r, rest) && (r.Some? ==> rest < old(rest))
      decreases |bodies|, true, rest, 8
    {
      if kind == EXPR_FUNC_LIT || kind == EXPR_METHOD_EXPR || kind == EXPR_CONST || kind == EXPR_ZERO || kind == EXPR_SIZEOF
         || kind == EXPR_ALIGNOF || kind == EXPR_OFFSETOF || kind == EXPR_LOCAL || kind == EXPR_GLOBAL
         || kind == EXPR_FUNC_INST || kind == EXPR_RUNTIME_BUILTIN {
        r := Atom(kind);
        AtomIsNode(a, bodies, kind, old(rest), r, rest);
      } else {
        r := Compound(kind);
        CompoundIsNode(a, bodies, kind, old(rest), r, rest);
      }
    }

    method Compound(kind: nat) returns (r: Option<Node>)
      requires Valid()
      modifies this
      ensures Valid() && GotCompound(a, bodies, kind, old(rest), r, rest) && (r.Some? ==> rest < old(rest))
      decreases |bodies|, true, rest, 7
    {
      if kind == EXPR_FIELD_VAL || kind == EXPR_METHOD_VAL || kind == EXPR_RECV
         || kind == EXPR_INDEX || kind == EXPR_SLICE || kind == EXPR_ASSERT {
        r := Operand(kind);
        OperandIsCompound(a, bodies, kind, old(rest), r, rest);
      } else if kind == EXPR_UNARY_OP || kind == EXPR_BINARY_OP {
        r := Operation(kind);
        OperationIsCompound(a, bodies, kind, old(rest), r, rest);
      } else if kind == EXPR_CALL {
        r := CallOf();
        CallIsCompound(a, bodies, old(rest), r, rest);
      } else {
        r := Maker(kind);
        MakerIsCompound(a, bodies, kind, old(rest), r, rest);
      }
    }

    method Operand(kind: nat) returns (r: Option<Node>)
      requires Valid()
      requires kind == EXPR_FIELD_VAL || kind == EXPR_METHOD_VAL || kind == EXPR_RECV || kind == EXPR_INDEX
        || kind == EXPR_SLICE || kind == EXPR_ASSERT
      modifies this
      ensures Valid() && GotOperand(a, bodies, kind, old(rest), r, rest) && (r.Some? ==> rest < old(rest))
      decreases |bodies|, true, rest, 6
    {
      if kind == EXPR_FIELD_VAL || kind == EXPR_METHOD_VAL || kind == EXPR_RECV { r := Selection(kind); }
      else { r := Access(kind); }
    }

    /** The nodes that make a value of a type they name. */
    method Maker(kind: nat) returns (r: Option<Node>)
      requires Valid()
      modifies this
      ensures Valid() && GotMaker(a, bodies, kind, old(rest), r, rest) && (r.Some? ==> rest < old(rest))
      decreases |bodies|, true, rest, 6
    {
      if kind == EXPR_NEW { r := NewOf(); }
      else if kind == EXPR_MAKE { r := MakeOf(); }
      else if kind == EXPR_CONVERT { r := Conversion(); }
      else if kind == EXPR_COMP_LIT { r := CompositeLit(); }
      else { r := None; }
    }

    method Atom(kind: nat) returns (r: Option<Node>)
      requires Valid()
      requires kind == EXPR_FUNC_LIT || kind == EXPR_METHOD_EXPR || kind == EXPR_CONST || kind == EXPR_ZERO || kind == EXPR_SIZEOF
        || kind == EXPR_ALIGNOF || kind == EXPR_OFFSETOF || kind == EXPR_LOCAL || kind == EXPR_GLOBAL
        || kind == EXPR_FUNC_INST || kind == EXPR_RUNTIME_BUILTIN
      modifies this
      ensures Valid() && GotAtom(a, bodies, kind, old(rest), r, rest) && (r.Some? ==> rest < old(rest))
      decreases |bodies|, true, rest, 6
    {
      if kind == EXPR_FUNC_LIT {
        r := FunctionLit();
        LitIsAtom(a, bodies, old(rest), r, rest);
      } else if kind == EXPR_METHOD_EXPR {
        r := MethodExpression();
        MethodExprIsAtom(a, bodies, old(rest), r, rest);
      } else if kind == EXPR_CONST || kind == EXPR_ZERO || kind == EXPR_SIZEOF || kind == EXPR_ALIGNOF || kind == EXPR_OFFSETOF {
        r := TypedLeaf(kind);
        TypedLeafIsAtom(a, bodies, kind, old(rest), r, rest);
      } else {
        r := Leaf(kind);
        LeafIsAtom(a, bodies, kind, old(rest), r, rest);
      }
    }

    method MethodExpression() returns (r: Option<Node>)
      requires Valid()
      modifies this
      ensures Valid() && GotMethodExpr(a, old(rest), r, rest) && (r.Some? ==> rest < old(rest))
    {
      var recv :- Type();
      var path :- Steps();
      var pos :- Position();
      var m :- Method();
      r := Some(MethodExpr(recv, path, pos, m));
    }

    method Leaf(kind: nat) returns (r: Option<Node>)
      requires Valid()
      requires kind == EXPR_LOCAL || kind == EXPR_GLOBAL || kind == EXPR_FUNC_INST || kind == EXPR_RUNTIME_BUILTIN
      modifies this
      ensures Valid() && GotLeaf(a, kind, old(rest), r, rest) && (r.Some? ==> rest < old(rest))
    {
      if kind == EXPR_LOCAL {
        var direct :- Bool();
        var index :- Len();
        r := Some(LocalUse(!direct, index));
      } else if kind == EXPR_GLOBAL {
        var o :- Object();
        r := Some(Global(o));
      } else if kind == EXPR_FUNC_INST {
        var pos :- Position();
        var f :- Instance();
        r := Some(FuncInstRef(pos, f));
      } else {
        var name :- Str();
        r := Some(RuntimeBuiltin(name));
      }
    }

    method TypedLeaf(kind: nat) returns (r: Option<Node>)
      requires Valid()
      requires kind == EXPR_CONST || kind == EXPR_ZERO || kind == EXPR_SIZEOF || kind == EXPR_ALIGNOF || kind == EXPR_OFFSETOF
      modifies this
      ensures Valid() && GotTypedLeaf(a, kind, old(rest), r, rest) && (r.Some? ==> rest < old(rest))
    {
      if kind == EXPR_OFFSETOF {
        r := OffsetofOf();
        return;
      }
      var pos :- Position();
      var t :- Type();
      if kind == EXPR_CONST {
        var v :- Constant();
        r := Some(Const(pos, t, v));
      } else {
        r := Some(if kind == EXPR_ZERO then Zero(pos, t) else if kind == EXPR_SIZEOF then Sizeof(pos, t) else Alignof(pos, t));
      }
    }

    /** The count is one less than the number of steps. */
    method OffsetofOf() returns (r: Option<Node>)
      requires Valid()
      modifies this
      ensures Valid() && GotTypedLeaf(a, EXPR_OFFSETOF, old(rest), r, rest) && (r.Some? ==> rest < old(rest))
    {
      var pos :- Position();
      var t :- Type();
      var n :- Len();
      var fields :- Lens(n + 1);
      r := Some(Offsetof(pos, t, fields));
    }

    /** The nodes that begin with an operand and its position. */
    method Selection(kind: nat) returns (r: Option<Node>)
      requires Valid()
      requires kind == EXPR_FIELD_VAL || kind == EXPR_METHOD_VAL || kind == EXPR_RECV
      modifies this
      ensures Valid() && GotSelection(a, bodies, kind, old(rest), r, rest) && (r.Some? ==> rest < old(rest))
      decreases |bodies|, true, rest, 5
    {
      var x :- ExprOf();
      var pos :- Position();
      if kind == EXPR_FIELD_VAL {
        var sel :- Name();
        r := Some(FieldVal(x, pos, sel));
      } else if kind == EXPR_METHOD_VAL {
        var m :- Method();
        r := Some(MethodVal(x, pos, m));
      } else {
        var path :- Steps();
        r := Some(Recv(x, pos, path));
      }
    }

    method Access(kind: nat) returns (r: Option<Node>)
      requires Valid()
      requires kind == EXPR_INDEX || kind == EXPR_SLICE || kind == EXPR_ASSERT
      modifies this
      ensures Valid() && GotAccess(a, bodies, kind, old(rest), r, rest) && (r.Some? ==> rest < old(rest))
      decreases |bodies|, true, rest, 5
    {
      var x :- ExprOf();
      var pos :- Position();
      if kind == EXPR_INDEX {
        var i :- ExprOf();
        var m :- MapDescriptor(TypeOf(x));
        r := Some(Index(x, pos, i, m));
      } else if kind == EXPR_SLICE {
        var lo :- OptExpr();
        var hi :- OptExpr();
        var max :- OptExpr();
        r := Some(Slice(x, pos, lo, hi, max));
      } else {
        var t :- TypeExpr();
        var src :- Descriptor();
        r := Some(Assert(x, pos, t, src));
      }
    }

    method Operation(kind: nat) returns (r: Option<Node>)
      requires Valid()
      requires kind == EXPR_UNARY_OP || kind == EXPR_BINARY_OP
      modifies this
      ensures Valid() && GotOperation(a, bodies, kind, old(rest), r, rest) && (r.Some? ==> rest < old(rest))
      decreases |bodies|, true, rest, 5
    {
      var op :- Op();
      if kind == EXPR_UNARY_OP {
        var pos :- Position();
        var x :- ExprOf();
        r := Some(Unary(op, pos, x));
      } else {
        var x :- ExprOf();
        var pos :- Position();
        var y :- ExprOf();
        r := Some(Binary(op, x, pos, y));
      }
    }

    method NewOf() returns (r: Option<Node>)
      requires Valid()
      modifies this
      ensures Valid() && GotNew(a, bodies, old(rest), r, rest) && (r.Some? ==> rest < old(rest))
      decreases |bodies|, true, rest, 5
    {
      var pos :- Position();
      var value :- Bool();
      if value {
        var x :- ExprOf();
        r := Some(NewValue(pos, x));
      } else {
        var t :- TypeExpr();
        r := Some(NewType(pos, t));
      }
    }

    method MakeOf() returns (r: Option<Node>)
      requires Valid()
      modifies this
      ensures Valid() && GotMake(a, bodies, old(rest), r, rest) && (r.Some? ==> rest < old(rest))
      decreases |bodies|, true, rest, 5
    {
      var pos :- Position();
      var t :- TypeExpr();
      var n :- Len();
      var args :- ExprList(n);
      var rtype :- Descriptor();
      r := Some(Make(pos, t, args, rtype));
    }

    method Conversion() returns (r: Option<Node>)
      requires Valid()
      modifies this
      ensures Valid() && GotConvert(a, bodies, old(rest), r, rest) && (r.Some? ==> rest < old(rest))
      decreases |bodies|, true, rest, 5
    {
      var implicit :- Bool();
      var t :- Type();
      var pos :- Position();
      var c :- Conv();
      var typeParam :- Bool();
      var identical :- Bool();
      var x :- ExprOf();
      r := Some(Convert(implicit, t, pos, c, typeParam, identical, x));
    }

    method CalleeOf() returns (r: Option<Callee>)
      requires Valid()
      modifies this
      ensures Valid() && GotCallee(a, bodies, old(rest), r, rest) && (r.Some? ==> rest < old(rest))
      decreases |bodies|, true, rest, 4
    {
      var byMethod :- Bool();
      if byMethod {
        var x :- ExprOf();
        var m :- Method();
        return Some(MethodCall(x, m));
      }
      var byInst :- Bool();
      if byInst {
        var pos :- Position();
        var f :- Instance();
        return Some(InstCall(pos, f));
      }
      var x :- ExprOf();
      r := Some(FunCall(x));
    }

    method CallOf() returns (r: Option<Node>)
      requires Valid()
      modifies this
      ensures Valid() && GotCall(a, bodies, old(rest), r, rest) && (r.Some? ==> rest < old(rest))
      decreases |bodies|, true, rest, 5
    {
      var callee :- CalleeOf();
      var pos :- Position();
      var args :- Multi();
      var dots :- Bool();
      var rtype :- OptDescriptor(NeedsRType(a, callee));
      r := Some(Call(callee, pos, args, dots, rtype));
    }

    method CompositeLit() returns (r: Option<Node>)
      requires Valid()
      modifies this
      ensures Valid() && GotLit(a, bodies, old(rest), r, rest) && (r.Some? ==> rest < old(rest))
      decreases |bodies|, true, rest, 5
    {
      var pos :- Position();
      ghost var s1 := rest;
      var t :- Type();
      ghost var s2 := rest;
      var core := LitCore(a, t);
      var m :- OptDescriptor(core.MapCore?);
      ghost var s3 := rest;
      var n :- Int();
      ghost var s4 := rest;
      if !Builds(core) { return None; }
      var elems :- Elems(if n < 0 then -n else n, core, n < 0, 0);
      LitIsRead(a, bodies, pos, t, m, n, elems, old(rest), s1, s2, s3, s4, rest);
      r := Some(CompLit(pos, t, m, n < 0, elems));
    }

    method Elems(n: nat, core: Core, keyed: bool, i: nat) returns (r: Option<seq<LitElem>>)
      requires Valid() && Builds(core)
      modifies this
      ensures Valid() && GotElems(a, bodies, n, core, keyed, i, old(rest), r, rest) && (r.Some? ==> rest == old(rest) || rest < old(rest))
      decreases |bodies|, true, rest, 4
    {
      if n == 0 { return Some([]); }
      var t :- Elem(core, keyed, i);
      var ts :- Elems(n - 1, core, keyed, i + 1);
      HeadTail(t, ts);
      r := Some([t] + ts);
    }

    method Elem(core: Core, keyed: bool, i: nat) returns (r: Option<LitElem>)
      requires Valid() && Builds(core)
      modifies this
      ensures Valid() && GotElem(a, bodies, core, keyed, i, old(rest), r, rest) && (r.Some? ==> rest < old(rest))
      decreases |bodies|, true, rest, 3
    {
      match core
      case MapCore => r := MapElem();
      case ListCore => r := ListElem(keyed);
      case StructCore => r := StructElem(keyed, i);
    }

    method MapElem() returns (r: Option<LitElem>)
      requires Valid()
      modifies this
      ensures Valid() && GotMapElem(a, bodies, old(rest), r, rest) && (r.Some? ==> rest < old(rest))
      decreases |bodies|, true, rest, 2
    {
      var pos :- Position();
      var key :- ExprOf();
      var value :- ExprOf();
      r := Some(LitElem(pos, Some(key), 0, [], value));
    }

    method ListElem(keyed: bool) returns (r: Option<LitElem>)
      requires Valid()
      modifies this
      ensures Valid() && GotListElem(a, bodies, keyed, old(rest), r, rest) && (r.Some? ==> rest < old(rest))
      decreases |bodies|, true, rest, 2
    {
      var pos := NoPos;
      var key: Option<Expr> := None;
      if keyed {
        var withKey :- Bool();
        if withKey {
          pos :- Position();
          var x :- ExprOf();
          key := Some(x);
        }
      }
      var value :- ExprOf();
      r := Some(LitElem(pos, key, 0, [], value));
    }

    method StructElem(keyed: bool, i: nat) returns (r: Option<LitElem>)
      requires Valid()
      modifies this
      ensures Valid() && GotStructElem(a, bodies, keyed, i, old(rest), r, rest) && (r.Some? ==> rest < old(rest))
      decreases |bodies|, true, rest, 2
    {
      var pos :- Position();
      var field := i;
      var embedded: seq<int> := [];
      if keyed {
        field :- Int();
        if field < 0 {
          embedded :- Ints(-field);
          field := Last(embedded);
        }
      }
      var value :- ExprOf();
      r := Some(LitElem(pos, None, field, embedded, value));
    }

    /** A literal names the element of its own body, which is read here. */
    method FunctionLit() returns (r: Option<Node>)
      requires Valid()
      modifies this
      ensures Valid() && GotFuncLit(a, bodies, old(rest), r, rest) && (r.Some? ==> rest < old(rest))
      decreases |bodies|, true, rest, 5
    {
      var ref := LitRefOf();
      if ref.None? {
        NoLit(a, bodies, old(rest), rest);
        return None;
      }
      var lit := ref.value;
      var decoded := ReadBody(a, bodies, lit.body, |lit.sig.params| + |lit.sig.results|);
      LitAndBody(a, bodies, old(rest), lit, decoded, rest);
      r := if decoded.Some? then Some(FuncLit(lit, decoded.value)) else None;
    }

    // ----- The element -----

    /** The rest of the element is a body and nothing more. */
    method BodyOf(nparams: nat) returns (r: Option<Body>)
      requires Valid()
      modifies this
      ensures Valid() && GotWhole(a, bodies, nparams, old(rest), r) && (r.Some? ==> rest.End?)
      decreases |bodies|, true, rest, 1
    {
      var params :- LocalDecls(nparams);
      var hasBlock :- Bool();
      var block: Option<Block0> := None;
      if hasBlock {
        var stmts :- Stmts();
        var rbrace :- Position();
        block := Some(Block0(stmts, rbrace));
      }
      r := if rest.End? then Some(Body(params, block)) else None;
    }
  }

  /** pkgReader.decodeBody. The element must hold the body and nothing more, and
      its table must name what the body refers to and nothing more. An element
      that is nested in itself, on which the source does not return, is
      refused. */
  method ReadBody(a: Archive, bodies: Bodies, i: nat, nparams: nat) returns (r: Option<Body>)
    requires Mirrors(a) && Readable(bodies)
    ensures GotBody(a, bodies, i, nparams, r)
    decreases |bodies|, false
  {
    if i !in bodies {
      Missing(a, bodies, i, nparams);
      return None;
    }
    var reader := new Reader(a, bodies - {i}, bodies[i].stream);
    var body := reader.BodyOf(nparams);
    WholeElement(a, bodies, i, nparams, body);
    if body.None? { return None; }
    assert reader.relocs == reader.relocs + Refs(End);
    r := if reader.relocs == bodies[i].table then body else None;
  }
}

/** The prover of escape/escape.go: one walk of one body for one parameter,
    updating its four fields as it goes. Each method computes its function of
    EscapeWalk.dfy, and `Analyse` the answer of EscapeAnalysis.dfy. */
module EscapeProver {
  import opened IR
  import opened EscapeWalk
  import opened Wrappers
  import L = Leaks
  import EscapeAnalysis

  method AddressedOf(n0: Node) returns (p: Place)
    ensures p == Addressed(n0)
  {
    var n := n0;
    while n.Node?
      invariant Addressed(n) == Addressed(n0)
      decreases n
    {
      if n.op.OLocal? || n.op.OGlobal? {
        return if n.obj.NoObject? then Unplaced else Root(n.obj);
      } else if n.op.OField? {
        n := n.x;
      } else if n.op.ODeref? {
        return Through(n.x, 1);
      } else if n.op.OIndex? {
        if n.x.NoNode? || n.x.typ.NoType? { return Unplaced; }
        if n.x.typ.kind.Array? { n := n.x; }
        else if n.x.typ.kind.Slice? { return Through(n.x, 1); }
        else { return Unplaced; }
      } else {
        return Unplaced;
      }
    }
    p := Unplaced;
  }

  method DestinationOf(n0: Node) returns (root: Object, direct: bool)
    ensures (root, direct) == Destination(n0)
  {
    var n := n0;
    while n.Node?
      invariant Destination(n) == Destination(n0)
      decreases n
    {
      if n.op.OLocal? || n.op.OGlobal? {
        return n.obj, true;
      } else if n.op.OField? {
        n := n.x;
      } else if n.op.OIndex? {
        if !InArray(n.x) { return NoObject, false; }
        n := n.x;
      } else {
        return NoObject, false;
      }
    }
    return NoObject, false;
  }

  method ResultIndexOf(rs: seq<Object>, o: Object) returns (r: Option<nat>)
    ensures r == EscapeAnalysis.ResultIndex(rs, o)
  {
    for i := 0 to |rs|
      invariant EscapeAnalysis.IndexFrom(rs, o, i) == EscapeAnalysis.IndexFrom(rs, o, 0)
    {
      if rs[i] == o {
        return if i >= L.NUM_RESULTS then None else Some(i);
      }
    }
    r := None;
  }

  class Prover {
    const fn: Func
    var tainted: map<Object, nat>
    var results: map<nat, nat>
    var leaked: bool
    var changed: bool

    ghost function Now(): State reads this { State(tainted, results, leaked, changed) }

    constructor (fn: Func, param: Object)
      ensures this.fn == fn && Now() == Start(param)
    {
      this.fn := fn;
      tainted, results, leaked, changed := map[param := 0], map[], false, false;
    }

    method Leak()
      modifies this
      ensures Now() == old(Now()).Leak()
    {
      leaked := true;
    }

    method LeakIfMentioned(n: Node)
      modifies this
      ensures Now() == old(Now()).LeakIf(old(Now()).Mentions(n))
    {
      if Names(n, tainted.Keys) { Leak(); }
    }

    method Taint(o: Object, derefs: nat)
      modifies this
      ensures Now() == old(Now()).Taint(o, derefs)
    {
      if o.NoObject? { Leak(); return; }
      if o in tainted && tainted[o] <= derefs { return; }
      tainted := tainted[o := derefs];
      changed := true;
    }

    method Result(i: nat, derefs: nat)
      modifies this
      ensures Now() == old(Now()).Result(i, derefs)
    {
      if i >= L.NUM_RESULTS { Leak(); return; }
      if i in results && results[i] <= derefs { return; }
      results := results[i := derefs];
    }

    method Stmts(list: seq<Node>)
      modifies this
      ensures Now() == WalkAll(fn.results, list, old(Now()))
      decreases list, 0
    {
      for i := 0 to |list|
        invariant WalkAll(fn.results, list[i..], Now()) == WalkAll(fn.results, list, old(Now()))
      {
        assert list[i..][0] == list[i] && list[i..][1..] == list[i + 1..];
        var _ := Visit(list[i]);
      }
    }

    /** prover.node. */
    method Visit(n: Node) returns (f: Flow)
      modifies this
      ensures (Now(), f) == Walk(fn.results, n, old(Now()))
      decreases n, 3
    {
      if n.NoNode? { return NoRef; }
      Stmts(n.init);
      if n.op.OOther? { LeakIfMentioned(n); f := NoRef; }
      else if n.op.OConst? || n.op.ODeclare? || n.op.OGoto? || n.op.OBreak? || n.op.OContinue? { f := NoRef; }
      else if n.op.OLocal? || n.op.OGlobal? {
        f := if n.obj.Object? && n.obj in tainted then Derived(tainted[n.obj]) else NoRef;
      }
      else if n.op.OAddr? { f := Addr(n); }
      else if n.op.OConvert? { f := Convert(n); }
      else if n.op.OCompositeLit? { f := CompositeLit(n); }
      else if n.op.OAssign? { Assign(n); f := NoRef; }
      else if n.op.OReturn? { Ret(n); f := NoRef; }
      else if n.op.ORange? { RangeStmt(n); f := NoRef; }
      else if n.op.OCall? || n.op.OField? || n.op.ODeref? || n.op.OIndex? || n.op.OSlice? || n.op.OLen? || n.op.OCap?
        || n.op.ONilCheck? || n.op.OTypeAssert? || n.op.OUnary? || n.op.OBinary? || n.op.OCompare? { f := Value(n); }
      else { Statement(n); f := NoRef; }
    }

    method Value(n: Node) returns (f: Flow)
      requires n.Node?
      requires n.op.OCall? || n.op.OField? || n.op.ODeref? || n.op.OIndex? || n.op.OSlice? || n.op.OLen? || n.op.OCap?
        || n.op.ONilCheck? || n.op.OTypeAssert? || n.op.OUnary? || n.op.OBinary? || n.op.OCompare?
      modifies this
      ensures (Now(), f) == EscapeWalk.Visit(fn.results, n, old(Now()))
      decreases n, 2
    {
      if n.op.OIndex? {
        var _ := Visit(n.y);
        Stmts(n.args);
      }
      if n.op.OSlice? { Stmts(n.args); }
      f := Visit(n.x);
      if n.op.OField? || n.op.OLen? || n.op.OCap? || n.op.ONilCheck? { f := f.Carries(n.typ); }
      else if n.op.ODeref? { f := f.Shift(1).Carries(n.typ); }
      else if n.op.OIndex? { f := f.Shift(IndexDerefs(n.x)).Carries(n.typ); }
      else if n.op.OSlice? { f := f.Shift(SliceDerefs(n.x)).Carries(n.typ); }
      else if n.op.OTypeAssert? { f := f.Shift(IfaceDerefs(n.typ)).Carries(n.typ); }
      else if n.op.OCall? {
        if f.Derived? { Leak(); }
        Leaking(n.args);
        f := NoRef;
      } else {
        var g := Visit(n.y);
        f := f.Join(g).Carries(n.typ);
      }
    }

    method Statement(n: Node)
      requires n.Node?
      requires n.op.OBlock? || n.op.OLabel? || n.op.OIf? || n.op.OFor? || n.op.OSwitch? || n.op.OTypeSwitch? || n.op.OCase?
      modifies this
      ensures (Now(), NoRef) == EscapeWalk.Visit(fn.results, n, old(Now()))
      decreases n, 2
    {
      if n.op.OCase? {
        Stmts(n.args);
        Stmts(n.body);
      } else if n.op.OBlock? || n.op.OLabel? {
        Stmts(n.body);
      } else {
        var f := Visit(n.x);
        if n.op.OTypeSwitch? { Clauses(n.body, f); } else { Stmts(n.body); }
        if n.op.OIf? { Stmts(n.els); }
        if n.op.OFor? { Stmts(n.post); }
      }
    }

    method Leaking(ns: seq<Node>)
      modifies this
      ensures Now() == WalkLeaking(fn.results, ns, old(Now()))
      decreases ns, 2
    {
      for i := 0 to |ns|
        invariant WalkLeaking(fn.results, ns[i..], Now()) == WalkLeaking(fn.results, ns, old(Now()))
      {
        assert ns[i..][0] == ns[i] && ns[i..][1..] == ns[i + 1..];
        var f := Visit(ns[i]);
        if f.Derived? { Leak(); }
      }
    }

    method Addr(n: Node) returns (f: Flow)
      requires n.Node?
      modifies this
      ensures (Now(), f) == WalkAddr(fn.results, n, old(Now()))
      decreases n, 1
    {
      var _ := Visit(n.x);
      var p := AddressedOf(n.x);
      if !p.Through? {
        LeakIfMentioned(n.x);
        return NoRef;
      }
      f := Visit(p.base);
      f := f.Shift(p.derefs - 1).Carries(n.typ);
    }

    method Convert(n: Node) returns (f: Flow)
      requires n.Node?
      modifies this
      ensures (Now(), f) == WalkConvert(fn.results, n, old(Now()))
      decreases n, 1
    {
      if n.typ.NoType? {
        LeakIfMentioned(n.x);
        return NoRef;
      }
      if !n.typ.kind.Interface? && n.typ.pointers && Typed(n.x) && !n.x.typ.pointers {
        f := Word(n.x);
        return f.Carries(n.typ);
      }
      f := Visit(n.x);
      if n.typ.kind.Interface? {
        if f.Derived? { Leak(); }
        f := NoRef;
      } else if !n.typ.pointers || Copies(n) {
        f := NoRef;
      } else {
        f := f.Shift(ConvertDerefs(n)).Carries(n.typ);
      }
    }

    /** prover.unsafeWord. */
    method Word(n: Node) returns (f: Flow)
      modifies this
      ensures (Now(), f) == UnsafeWord(fn.results, n, old(Now()))
      decreases n, 5
    {
      if n.NoNode? { return NoRef; }
      Stmts(n.init);
      if n.op.OConvert? {
        f := Visit(n.x);
        if !(Typed(n.x) && n.x.typ.pointers) { f := NoRef; }
      } else if n.op.OUnary? || n.op.OBinary? {
        f := Word(n.x);
        var g := Word(n.y);
        f := f.Join(g);
      } else {
        var _ := Visit(n);
        f := NoRef;
      }
    }

    method CompositeLit(n: Node) returns (f: Flow)
      requires n.Node?
      modifies this
      ensures (Now(), f) == WalkCompositeLit(fn.results, n, old(Now()))
      decreases n, 1
    {
      f := NoRef;
      for i := 0 to |n.args|
        invariant WalkElems(fn.results, n.args[i..], f, Now()) == WalkElems(fn.results, n.args, NoRef, old(Now()))
      {
        var a := n.args[i];
        assert n.args[i..][0] == a && n.args[i..][1..] == n.args[i + 1..];
        if Keyed(a) {
          Stmts(a.init);
          var _ := Visit(a.x);
          var g := Visit(a.y);
          f := f.Join(g);
        } else {
          var g := Visit(a);
          f := f.Join(g);
        }
      }
      if n.typ.Is(Struct) || n.typ.Is(Array) { return f.Carries(n.typ); }
      if f.Derived? { Leak(); } else { LeakIfMentioned(n); }
      f := NoRef;
    }

    method Assign(n: Node)
      requires n.Node?
      modifies this
      ensures Now() == WalkAssign(fn.results, n, old(Now()))
      decreases n, 1
    {
      var src := Visit(n.y);
      if n.x.NoNode? && n.args == [] {
        if src.Derived? { Leak(); }
        return;
      }
      if n.x.Node? { Store(n.x, src); }
      ghost var was := Now();
      for i := 0 to |n.args|
        invariant StoreAll(fn.results, n.args[i..], src, Now()) == StoreAll(fn.results, n.args, src, was)
      {
        assert n.args[i..][0] == n.args[i] && n.args[i..][1..] == n.args[i + 1..];
        Store(n.args[i], src);
      }
    }

    method Ret(n: Node)
      requires n.Node?
      modifies this
      ensures Now() == WalkReturn(fn.results, n, old(Now()))
      decreases n, 1
    {
      if |n.args| != |fn.results| { Leaking(n.args); return; }
      for i := 0 to |n.args|
        invariant WalkResults(fn.results, n.args[i..], i, Now()) == WalkResults(fn.results, n.args, 0, old(Now()))
      {
        assert n.args[i..][0] == n.args[i] && n.args[i..][1..] == n.args[i + 1..];
        var f := Visit(n.args[i]);
        var r := fn.results[i];
        if r.Object? { f := f.Carries(r.typ); }
        if f.Derived? { Result(i, f.derefs); }
      }
    }

    method RangeStmt(n: Node)
      requires n.Node?
      modifies this
      ensures Now() == WalkRange(fn.results, n, old(Now()))
      decreases n, 1
    {
      var f := Visit(n.x);
      if !Rangeable(n.x) { LeakIfMentioned(n); return; }
      ghost var was := Now();
      for i := 0 to |n.args|
        invariant RangeStores(fn.results, n.args[i..], f.Shift(1), Now()) == RangeStores(fn.results, n.args, f.Shift(1), was)
      {
        var d := n.args[i];
        assert n.args[i..][0] == d && n.args[i..][1..] == n.args[i + 1..];
        if d.NoNode? { continue; }
        Stmts(d.init);
        Store(d, f.Shift(1));
      }
      Stmts(n.body);
    }

    /** The clauses of prover.typeSwitch. */
    method Clauses(clauses: seq<Node>, f: Flow)
      modifies this
      ensures Now() == WalkClauses(fn.results, clauses, f, old(Now()))
      decreases clauses, 2
    {
      for i := 0 to |clauses|
        invariant WalkClauses(fn.results, clauses[i..], f, Now()) == WalkClauses(fn.results, clauses, f, old(Now()))
      {
        assert clauses[i..][0] == clauses[i] && clauses[i..][1..] == clauses[i + 1..];
        Clause(clauses[i], f);
      }
    }

    method Clause(c: Node, f: Flow)
      modifies this
      ensures Now() == VisitClause(fn.results, c, f, old(Now()))
      decreases c, 5
    {
      if c.NoNode? { return; }
      if !c.op.OCase? { LeakIfMentioned(c); return; }
      Stmts(c.init);
      Stmts(c.args);
      if c.obj.Object? {
        var g := f.Shift(IfaceDerefs(c.obj.typ)).Carries(c.obj.typ);
        if g.Derived? { Taint(c.obj, g.derefs); }
      }
      Stmts(c.body);
    }

    method Store(dst: Node, src0: Flow)
      modifies this
      ensures Now() == EscapeWalk.Store(fn.results, dst, src0, old(Now()))
      decreases dst, 4
    {
      if dst.NoNode? { Leak(); return; }
      var src := src0.Carries(dst.typ);
      var root, direct := DestinationOf(dst);
      if !direct {
        if src.Derived? { Leak(); } else { LeakIfMentioned(dst); }
        return;
      }
      var n := dst;
      while n.Node?
        invariant n == dst || n < dst || n.NoNode?
        invariant StoreIndexes(fn.results, n, Now()) == StoreIndexes(fn.results, dst, old(Now()))
        decreases n.Node?, n
      {
        if n.op.OField? {
          n := n.x;
        } else if n.op.OIndex? {
          var _ := Visit(n.y);
          n := n.x;
        } else {
          n := NoNode;
        }
      }
      if root.NoObject? { Leak(); return; }
      if root.cls.ClassGlobal? {
        if src.Derived? { Leak(); }
        return;
      }
      if src.Derived? { Taint(root, src.derefs); }
    }
  }
  // ----- analyse -----

  /** The part of `T` that is outside `rest`. */
  ghost function Without(T: map<Object, nat>, rest: set<Object>): map<Object, nat> {
    map o | o in T && o !in rest :: T[o]
  }

  /** The results one more variable names. */
  lemma NamedStep(rs: seq<Object>, T: map<Object, nat>, rest: set<Object>, o: Object)
    requires rest <= T.Keys && o in rest
    requires o.Object? && o.cls.ClassResult? ==> EscapeAnalysis.ResultIndex(rs, o).Some?
    ensures var N := EscapeAnalysis.NamedIn(rs, Without(T, rest));
            var N' := EscapeAnalysis.NamedIn(rs, Without(T, rest - {o}));
            if o.Object? && o.cls.ClassResult? then
              var i := EscapeAnalysis.ResultIndex(rs, o).value;
              i !in N && N' == N + {i} && rs[i] == o
            else N' == N
  {
    var N := EscapeAnalysis.NamedIn(rs, Without(T, rest));
    var N' := EscapeAnalysis.NamedIn(rs, Without(T, rest - {o}));
    forall k: nat ensures k in N' <==> k in N || (k < |rs| && rs[k] == o && k in N') {
      if k < |rs| { assert rs[k] in Without(T, rest - {o}) <==> rs[k] in Without(T, rest) || rs[k] == o; }
    }
    if o.Object? && o.cls.ClassResult? {
      var i := EscapeAnalysis.ResultIndex(rs, o).value;
      assert i in N';
    }
  }

  /** Reading one more named result records its flow. */
  lemma MergeStep(rs: seq<Object>, s: State, N: set<nat>, i: nat)
    requires forall k :: k in N ==> k < |rs| && rs[k] in s.tainted
    requires i !in N && i < |rs| && rs[i] in s.tainted && i < L.NUM_RESULTS
    ensures EscapeAnalysis.Merge(rs, s.tainted, s.results, N + {i})
            == s.(results := EscapeAnalysis.Merge(rs, s.tainted, s.results, N)).Result(i, s.tainted[rs[i]]).results
  {
  }

  method Analyse(fn: Func, param: Object) returns (note: Option<seq<L.Byte>>)
    ensures note == EscapeAnalysis.Analyse(fn, param)
  {
    if param.NoObject? || param.typ.NoType? || param.escapes { return None; }
    var p := new Prover(fn, param);
    var round := 0;
    while true
      invariant p.fn == fn && Iterate(fn, p.Now(), round) == Iterate(fn, Start(param), 0)
      decreases MAX_ROUNDS + 1 - round
    {
      if round > MAX_ROUNDS { return None; }
      p.changed := false;
      p.Stmts(fn.body);
      if p.leaked { return None; }
      if !p.changed { break; }
      round := round + 1;
    }
    ghost var s := p.Now();
    forall i | i in s.results ensures i < L.NUM_RESULTS {
      EscapeAnalysis.SettledSolves(fn, param, Start(param), 0, EscapeAnalysis.At(s.results, i));
    }
    note := Finish(p, s);
  }

  /** What the loop over the tainted variables has done when `rest` is left. */
  ghost predicate Progress(rs: seq<Object>, s: State, rest: set<Object>, results: map<nat, nat>) {
    && rest <= s.tainted.Keys
    && EscapeAnalysis.Describable(rs, Without(s.tainted, rest))
    && results == EscapeAnalysis.Merge(rs, s.tainted, s.results, EscapeAnalysis.NamedIn(rs, Without(s.tainted, rest)))
  }

  method ReadTainted(p: Prover, o: Object, ghost s: State, ghost rest: set<Object>) returns (ok: bool)
    requires Progress(p.fn.results, s, rest, p.results) && o in rest && p.tainted == s.tainted && !p.leaked
    modifies p
    ensures p.tainted == s.tainted && !p.leaked
    ensures if ok then Progress(p.fn.results, s, rest - {o}, p.results)
            else !EscapeAnalysis.Describable(p.fn.results, s.tainted)
  {
    var rs := p.fn.results;
    if OutlivesFrame(o) { return false; }
    if o.Object? && o.cls.ClassResult? {
      var i := ResultIndexOf(rs, o);
      if i.None? { return false; }
      NamedStep(rs, s.tainted, rest, o);
      MergeStep(rs, s, EscapeAnalysis.NamedIn(rs, Without(s.tainted, rest)), i.value);
      p.Result(i.value, p.tainted[o]);
    } else {
      NamedStep(rs, s.tainted, rest, o);
    }
    ok := true;
  }

  /** The end of analyse: the tainted results join the returned ones, and the
      note names them all. The maps are read in any order. */
  method Finish(p: Prover, ghost s: State) returns (note: Option<seq<L.Byte>>)
    requires p.Now() == s && !s.leaked && forall i :: i in s.results ==> i < L.NUM_RESULTS
    modifies p
    ensures note == EscapeAnalysis.Conclude(p.fn.results, s)
  {
    var rest := p.tainted.Keys;
    assert Progress(p.fn.results, s, rest, p.results) by { assert Without(s.tainted, rest) == map[]; }
    while rest != {}
      invariant Progress(p.fn.results, s, rest, p.results) && p.tainted == s.tainted && !p.leaked
      decreases rest
    {
      var o :| o in rest;
      var ok := ReadTainted(p, o, s, rest);
      if !ok { return None; }
      rest := rest - {o};
    }
    assert Without(s.tainted, {}) == s.tainted;
    note := Write(p.results);
  }

  /** The note of the results reached, unless one is reached below the surface. */
  method Write(results: map<nat, nat>) returns (note: Option<seq<L.Byte>>)
    requires forall i :: i in results ==> i < L.NUM_RESULTS
    ensures note == if exists i <- results :: results[i] != 0 then None
                    else Some(L.Encoded(EscapeAnalysis.ResultsNote(results.Keys)))
  {
    var l := new L.Note();
    var rest := results.Keys;
    while rest != {}
      invariant rest <= results.Keys && l.Valid() && fresh(l.bytes)
      invariant l.Flows() == EscapeAnalysis.ResultsNote(results.Keys - rest)
      invariant forall i :: i in results && i !in rest ==> results[i] == 0
      decreases rest
    {
      var i :| i in rest;
      if results[i] != 0 { return None; }
      l.Add(L.RESULT0 + i, 0);
      rest := rest - {i};
    }
    assert results.Keys - {} == results.Keys;
    var bytes := l.Encode();
    note := Some(bytes);
  }
}

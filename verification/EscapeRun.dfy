/** Running a function body, with every value marked by whether it holds a
    reference obtained from one argument.

    A run is driven by a finite list of choices: which way a condition goes,
    whether a loop goes round again, where a jump lands. When the list is
    empty the run stops, so the lists together give every prefix of every run
    of the body, the endless ones among them.

    A jump is a break, a continue or a goto. A statement list that a
    jump reaches may resume at any of its statements, which covers each target
    Go's labels allow.

    The marks follow the values: a copy or a selection keeps the mark, and a
    load through a marked reference is marked, whatever the memory holds. A
    load through any other reference yields what the program has stored in
    memory. An operation the compiler's walk does not name may do anything
    with the variables below it. A word that is not a pointer holds no mark
    outside the one expression that converts it back, which is rule (3) of
    package unsafe. */
module EscapeRun {
  import opened IR
  import opened EscapeWalk

  /** What a run does with a value that may leave the frame.

      Stored: written to memory, a global or a cell. Written: a location was
      written that the value reaches. Called, Passed: used as a callee, passed
      to a call. Boxed: converted to an interface. Allocated: put into an
      allocation. Used: under an operation the walk does not name. Returned:
      result i of the call. Kept: left in the heap cell of result i. */
  datatype Event =
    | Stored(carried: bool) | Written(carried: bool) | Called(carried: bool) | Passed(carried: bool)
    | Boxed(carried: bool) | Allocated(carried: bool) | Used(carried: bool)
    | Returned(result: nat, carried: bool) | Kept(result: nat, carried: bool)

  datatype Mode = Running | Jumping | Halted

  /** `vars` are the variables that hold a marked reference now, `exposed` the
      variables a pointer may reach, and `heap` says that a marked reference
      was stored in memory. */
  datatype Machine = Machine(vars: set<Object>, exposed: set<Object>, heap: bool,
                             trace: seq<Event>, choices: seq<nat>, mode: Mode)
  {
    /** What a load from memory may yield. */
    predicate Mem() { heap || !(exposed !! vars) }

    predicate Read(o: Object) { o in vars || ((o in exposed || OutlivesFrame(o)) && Mem()) }

    function Emit(e: Event): Machine { this.(trace := trace + [e]) }

    /** The value goes to memory. */
    function Keep(v: bool, e: Event): Machine { Emit(e).(heap := heap || v) }

    function Choose(): (r: (Machine, nat))
      ensures |r.0.choices| <= |choices|
      ensures r.0.mode.Running? && mode.Running? ==> |r.0.choices| < |choices|
    {
      if choices == [] then (this.(mode := Halted), 0) else (this.(choices := choices[1..]), choices[0])
    }

    /** After the body of a loop: go on, leave the loop, or let a jump pass. */
    function Next(): (r: (Machine, bool))
      ensures |r.0.choices| <= |choices|
      ensures r.1 ==> r.0.mode.Running?
    {
      if mode.Running? then (this, true)
      else if mode.Halted? then (this, false)
      else
        var (m, c) := this.(mode := Running).Choose();
        if m.mode.Halted? then (m, false)
        else if c == 0 then (m, true)
        else if c == 1 then (m, false)
        else (m.(mode := Jumping), false)
    }
  }

  function Clip(v: bool, t: Type): bool { v && t.MayHold() }

  /** Every object a node names, at it or below it. */
  function Objects(n: Node): set<Object>
    decreases n, 1
  {
    if n.NoNode? then {} else
    (if n.obj.Object? then {n.obj} else {})
    + Objects(n.x) + Objects(n.y) + ObjectsAll(n.args)
    + ObjectsAll(n.init) + ObjectsAll(n.body) + ObjectsAll(n.post) + ObjectsAll(n.els)
  }

  function ObjectsAll(ns: seq<Node>): set<Object>
    decreases ns, 0
  {
    if ns == [] then {} else Objects(ns[0]) + ObjectsAll(ns[1..])
  }

  /** An operation that may do anything with what it names: read it, retain it,
      write it, let a pointer reach it. */
  function Anything(n: Node, m: Machine): (r: (Machine, bool))
    ensures r.0.choices == m.choices && r.0.mode == m.mode
  {
    var c := Names(n, m.vars) || m.Mem();
    (m.Keep(c, Used(c)).(vars := if c then m.vars + Objects(n) else m.vars, exposed := m.exposed + Objects(n)), c)
  }

  /** The variable a direct destination names takes a value. */
  function Write(root: Object, whole: bool, v: bool, m: Machine): (r: Machine)
    ensures r.choices == m.choices && r.mode == m.mode
  {
    if root.NoObject? || OutlivesFrame(root) then m.Keep(v, Stored(v))
    else if v then m.(vars := m.vars + {root})
    else if whole then m.(vars := m.vars - {root})
    else m
  }

  // ----- Statements -----

  /** A statement list from its k'th statement, where a jump may land again. */
  function ExecList(rs: seq<Object>, ns: seq<Node>, k: nat, m: Machine): (r: Machine)
    requires k <= |ns|
    ensures |r.choices| <= |m.choices|
    decreases |m.choices|, ns, |ns| + 1
  {
    var m1 := ExecFrom(rs, ns, k, m);
    if !m1.mode.Jumping? then m1 else
    var (m2, c) := m1.(mode := Running).Choose();
    if m2.mode.Halted? then m2
    else if c <= |ns| then ExecList(rs, ns, c, m2)
    else m2.(mode := Jumping)
  }

  function ExecFrom(rs: seq<Object>, ns: seq<Node>, k: nat, m: Machine): (r: Machine)
    requires k <= |ns|
    ensures |r.choices| <= |m.choices|
    decreases |m.choices|, ns, |ns| - k
  {
    if k == |ns| || !m.mode.Running? then m else ExecFrom(rs, ns, k + 1, Eval(rs, ns[k], m).0)
  }

  /** One node: its Init list, then what the operation does. A statement has no
      value. */
  function Eval(rs: seq<Object>, n: Node, m: Machine): (r: (Machine, bool))
    ensures |r.0.choices| <= |m.choices|
    decreases |m.choices|, n, 5
  {
    if n.NoNode? || !m.mode.Running? then (m, false) else
    var m1 := ExecList(rs, n.init, 0, m);
    if m1.mode.Running? then Act(rs, n, m1) else (m1, false)
  }

  function EvalAll(rs: seq<Object>, ns: seq<Node>, m: Machine): (r: Machine)
    ensures |r.choices| <= |m.choices|
    decreases |m.choices|, ns, 1
  {
    if ns == [] then m else EvalAll(rs, ns[1..], Eval(rs, ns[0], m).0)
  }

  function Act(rs: seq<Object>, n: Node, m: Machine): (r: (Machine, bool))
    requires n.Node?
    ensures |r.0.choices| <= |m.choices|
    decreases |m.choices|, n, 4
  {
    if n.op.OConst? then (m, false)
    else if n.op.OLocal? || n.op.OGlobal? then (m, n.obj.Object? && m.Read(n.obj))
    else if n.op.OField? then
      var (m1, v) := Eval(rs, n.x, m);
      (m1, Clip(v, n.typ))
    else if n.op.ODeref? || n.op.OTypeAssert? then
      var (m1, v) := Eval(rs, n.x, m);
      (m1, Clip(v || m1.Mem(), n.typ))
    else if n.op.OIndex? then
      var (m1, v) := Eval(rs, n.x, m);
      var m2 := EvalAll(rs, n.args, Eval(rs, n.y, m1).0);
      (m2, Clip(v || (!InArray(n.x) && m2.Mem()), n.typ))
    else if n.op.OSlice? then
      var (m1, v) := Eval(rs, n.x, m);
      (EvalAll(rs, n.args, m1), Clip(v, n.typ))
    else if n.op.OLen? || n.op.OCap? || n.op.ONilCheck? then (Eval(rs, n.x, m).0, false)
    else if n.op.OAddr? then
      var (m1, v) := Locate(rs, n.x, m);
      (m1, Clip(v, n.typ))
    else if n.op.OUnary? || n.op.OBinary? || n.op.OCompare? then
      // The right operand of && and || may be skipped.
      var (m1, v) := Eval(rs, n.x, m);
      var (m2, c) := m1.Choose();
      if c == 0 then (m2, Clip(v, n.typ)) else
      var (m3, w) := Eval(rs, n.y, m2);
      (m3, Clip(v || w, n.typ))
    else if n.op.OConvert? then EvalConvert(rs, n, m)
    else if n.op.OCompositeLit? then EvalLiteral(rs, n, m)
    else if n.op.OCall? then EvalCall(rs, n, m)
    else (Exec(rs, n, m), false)
  }

  function Exec(rs: seq<Object>, n: Node, m: Machine): (r: Machine)
    requires n.Node?
    ensures |r.choices| <= |m.choices|
    decreases |m.choices|, n, 3
  {
    if n.op.OAssign? then ExecAssign(rs, n, m)
    else if n.op.OReturn? then ExecReturn(rs, n, m)
    else if n.op.ODeclare? then
      if n.x.Node? && n.x.obj.Object? then m.(vars := m.vars - {n.x.obj}) else m
    else if n.op.OBlock? || n.op.OLabel? then ExecList(rs, n.body, 0, m)
    else if n.op.OIf? then
      var (m1, c) := Eval(rs, n.x, m).0.Choose();
      ExecList(rs, if c == 0 then n.els else n.body, 0, m1)
    else if n.op.OFor? then ExecFor(rs, n, m)
    else if n.op.ORange? then ExecRange(rs, n, m)
    else if n.op.OSwitch? then ExecList(rs, n.body, 0, Eval(rs, n.x, m).0)
    else if n.op.OTypeSwitch? then
      var (m1, v) := Eval(rs, n.x, m);
      ExecClauses(rs, n.body, v, m1)
    else if n.op.OCase? then
      var (m1, c) := EvalAll(rs, n.args, m).Choose();
      if c == 0 then m1 else ExecList(rs, n.body, 0, m1)
    else if n.op.OGoto? || n.op.OBreak? || n.op.OContinue? then m.(mode := Jumping)
    else if n.op.OOther? then Anything(n, m).0
    else m
  }

  // ----- Expressions -----

  /** The storage an operand of & names. A variable becomes reachable by
      pointers; storage behind a pointer or a slice is as marked as that; any
      other operand is put into an allocation. */
  function Locate(rs: seq<Object>, n: Node, m: Machine): (r: (Machine, bool))
    ensures |r.0.choices| <= |m.choices|
    decreases |m.choices|, n, 7
  {
    if n.NoNode? || !m.mode.Running? then (m, false) else
    var m1 := ExecList(rs, n.init, 0, m);
    if m1.mode.Running? then LocateNode(rs, n, m1) else (m1, false)
  }

  function LocateNode(rs: seq<Object>, n: Node, m: Machine): (r: (Machine, bool))
    requires n.Node?
    ensures |r.0.choices| <= |m.choices|
    decreases |m.choices|, n, 6
  {
    if (n.op.OLocal? || n.op.OGlobal?) && n.obj.Object? then (m.(exposed := m.exposed + {n.obj}), false)
    else if n.op.OField? then Locate(rs, n.x, m)
    else if n.op.ODeref? then Eval(rs, n.x, m)
    else if n.op.OIndex? && InArray(n.x) then
      var (m1, v) := Locate(rs, n.x, m);
      (Eval(rs, n.y, m1).0, v)
    else if n.op.OIndex? && n.x.Node? && n.x.typ.Is(Slice) then
      var (m1, v) := Eval(rs, n.x, m);
      (Eval(rs, n.y, m1).0, v)
    else
      var (m1, v) := Act(rs, n, m);
      (m1.Keep(v, Allocated(v)), false)
  }

  function EvalConvert(rs: seq<Object>, n: Node, m: Machine): (r: (Machine, bool))
    requires n.Node?
    ensures |r.0.choices| <= |m.choices|
    decreases |m.choices|, n, 3
  {
    if n.typ.NoType? then Anything(n.x, m)
    else if n.typ.pointers && !n.typ.kind.Interface? && Typed(n.x) && !n.x.typ.pointers then EvalWord(rs, n.x, m)
    else
      var (m1, v) := Eval(rs, n.x, m);
      if n.typ.kind.Interface? then (m1.Keep(v, Boxed(v)), v)
      else if !n.typ.pointers || Copies(n) then (m1, false)
      else if ConvertDerefs(n) == 1 then (m1, v || m1.Mem())
      else (m1, v)
  }

  /** A word on its way back to a pointer, inside one expression. */
  function EvalWord(rs: seq<Object>, n: Node, m: Machine): (r: (Machine, bool))
    ensures |r.0.choices| <= |m.choices|
    decreases |m.choices|, n, 7
  {
    if n.NoNode? || !m.mode.Running? then (m, false) else
    var m1 := ExecList(rs, n.init, 0, m);
    if m1.mode.Running? then EvalWordNode(rs, n, m1) else (m1, false)
  }

  function EvalWordNode(rs: seq<Object>, n: Node, m: Machine): (r: (Machine, bool))
    requires n.Node?
    ensures |r.0.choices| <= |m.choices|
    decreases |m.choices|, n, 6
  {
    if n.op.OConvert? then
      var (m1, v) := Eval(rs, n.x, m);
      (m1, v && Typed(n.x) && n.x.typ.pointers)
    else if n.op.OUnary? || n.op.OBinary? then
      var (m1, v) := EvalWord(rs, n.x, m);
      var (m2, w) := EvalWord(rs, n.y, m1);
      (m2, v || w)
    else (Act(rs, n, m).0, false)
  }

  function EvalLiteral(rs: seq<Object>, n: Node, m: Machine): (r: (Machine, bool))
    requires n.Node?
    ensures |r.0.choices| <= |m.choices|
    decreases |m.choices|, n, 3
  {
    var (m1, v, k) := EvalElems(rs, n.args, m);
    if n.typ.Is(Struct) || n.typ.Is(Array) then (m1, Clip(v, n.typ))
    else (m1.Keep(v || k, Allocated(v || k)), false)
  }

  /** The elements of a literal: whether a value, and whether a key, is marked. */
  function EvalElems(rs: seq<Object>, elems: seq<Node>, m: Machine): (r: (Machine, bool, bool))
    ensures |r.0.choices| <= |m.choices|
    decreases |m.choices|, elems, 2
  {
    if elems == [] then (m, false, false) else
    var (m1, v, k) := EvalElem(rs, elems[0], m);
    var (m2, v', k') := EvalElems(rs, elems[1..], m1);
    (m2, v || v', k || k')
  }

  function EvalElem(rs: seq<Object>, a: Node, m: Machine): (r: (Machine, bool, bool))
    ensures |r.0.choices| <= |m.choices|
    decreases |m.choices|, a, 6
  {
    if Keyed(a) then
      var m1 := ExecList(rs, a.init, 0, m);
      var (m2, k) := Eval(rs, a.x, m1);
      var (m3, v) := Eval(rs, a.y, m2);
      (m3, v, k)
    else
      var (m1, v) := Eval(rs, a, m);
      (m1, v, false)
  }

  /** The callee may store what it is given, and return what it can reach. */
  function EvalCall(rs: seq<Object>, n: Node, m: Machine): (r: (Machine, bool))
    requires n.Node?
    ensures |r.0.choices| <= |m.choices|
    decreases |m.choices|, n, 3
  {
    var (m1, f) := Eval(rs, n.x, m);
    var (m2, a) := EvalArgs(rs, n.args, m1);
    var m3 := m2.Keep(f || a, Called(f));
    (m3, Clip(m3.Mem(), n.typ))
  }

  function EvalArgs(rs: seq<Object>, ns: seq<Node>, m: Machine): (r: (Machine, bool))
    ensures |r.0.choices| <= |m.choices|
    decreases |m.choices|, ns, 2
  {
    if ns == [] then (m, false) else
    var (m1, v) := Eval(rs, ns[0], m);
    var (m2, w) := EvalArgs(rs, ns[1..], m1.Emit(Passed(v)));
    (m2, v || w)
  }

  // ----- Stores -----

  function ExecAssign(rs: seq<Object>, n: Node, m: Machine): (r: Machine)
    requires n.Node?
    ensures |r.choices| <= |m.choices|
    decreases |m.choices|, n, 2
  {
    var (m1, v) := Eval(rs, n.y, m);
    if n.x.NoNode? && n.args == [] then m1.Keep(v, Stored(v))
    else StoreEach(rs, n.args, v, if n.x.NoNode? then m1 else StoreTo(rs, n.x, v, m1))
  }

  function StoreEach(rs: seq<Object>, dsts: seq<Node>, v: bool, m: Machine): (r: Machine)
    ensures |r.choices| <= |m.choices|
    decreases |m.choices|, dsts, 2
  {
    if dsts == [] then m else StoreEach(rs, dsts[1..], v, StoreTo(rs, dsts[0], v, m))
  }

  /** A value reaches a destination. One inside a variable writes the variable;
      any other is a location in memory, and the path to it may be anything. */
  function StoreTo(rs: seq<Object>, dst: Node, v0: bool, m: Machine): (r: Machine)
    ensures |r.choices| <= |m.choices|
    decreases |m.choices|, dst, 5
  {
    if !m.mode.Running? then m
    else if dst.NoNode? then m.Keep(v0, Stored(v0))
    else
      var v := Clip(v0, dst.typ);
      var (root, direct) := Destination(dst);
      if direct then Write(root, dst.op.OLocal?, v, EvalIndexes(rs, dst, m))
      else
        var (m1, c) := Anything(dst, m);
        m1.Emit(Written(c)).Keep(v, Stored(v))
  }

  function EvalIndexes(rs: seq<Object>, dst: Node, m: Machine): (r: Machine)
    ensures |r.choices| <= |m.choices|
    decreases |m.choices|, dst, 2
  {
    if dst.NoNode? then m
    else if dst.op.OField? then EvalIndexes(rs, dst.x, m)
    else if dst.op.OIndex? then EvalIndexes(rs, dst.x, Eval(rs, dst.y, m).0)
    else m
  }

  // ----- Returns -----

  /** Result i leaves with the call, and stays in the result's cell if it has
      one. */
  function Deliver(rs: seq<Object>, i: nat, v0: bool, m: Machine): (r: Machine)
    requires i < |rs|
    ensures r.choices == m.choices && r.mode == m.mode
  {
    var o := rs[i];
    var v := if o.Object? then Clip(v0, o.typ) else v0;
    var m1 := m.Emit(Returned(i, v));
    if o.Object? && o.escapes then m1.Emit(Kept(i, v)) else m1
  }

  function DeliverAll(rs: seq<Object>, i: nat, vs: seq<bool>, m: Machine): (r: Machine)
    requires i + |vs| <= |rs|
    ensures r.choices == m.choices && r.mode == m.mode
    decreases |vs|
  {
    if vs == [] then m else DeliverAll(rs, i + 1, vs[1..], Deliver(rs, i, vs[0], m))
  }

  function Values(rs: seq<Object>, ns: seq<Node>, m: Machine): (r: (Machine, seq<bool>))
    ensures |r.0.choices| <= |m.choices| && |r.1| == |ns|
    decreases |m.choices|, ns, 2
  {
    if ns == [] then (m, []) else
    var (m1, v) := Eval(rs, ns[0], m);
    var (m2, vs) := Values(rs, ns[1..], m1);
    (m2, [v] + vs)
  }

  /** The named results as they stand, for a return that names none. */
  function Named(rs: seq<Object>, m: Machine): (vs: seq<bool>)
    ensures |vs| == |rs|
  {
    seq(|rs|, i requires 0 <= i < |rs| => rs[i].Object? && m.Read(rs[i]))
  }

  /** The values are evaluated before any result is set. A call that returns
      everything gives each result the mark of the whole. */
  function ExecReturn(rs: seq<Object>, n: Node, m: Machine): (r: Machine)
    requires n.Node?
    ensures |r.choices| <= |m.choices|
    decreases |m.choices|, n, 2
  {
    var (m1, vs) := Values(rs, n.args, m);
    if !m1.mode.Running? then m1
    else
      var out := if |vs| == |rs| then vs
                 else if vs == [] then Named(rs, m1)
                 else seq(|rs|, i => true in vs);
      DeliverAll(rs, 0, out, m1).(mode := Halted)
  }

  // ----- Loops and clauses -----

  function ExecFor(rs: seq<Object>, n: Node, m: Machine): (r: Machine)
    requires n.Node?
    ensures |r.choices| <= |m.choices|
    decreases |m.choices|, n, 2
  {
    var m1 := Eval(rs, n.x, m).0;
    if !m1.mode.Running? then m1 else
    var (m2, c) := m1.Choose();
    if c == 0 || !m2.mode.Running? then m2 else
    var (m3, again) := ExecList(rs, n.body, 0, m2).Next();
    if again then ExecFor(rs, n, ExecList(rs, n.post, 0, m3)) else m3
  }

  function ExecRange(rs: seq<Object>, n: Node, m: Machine): (r: Machine)
    requires n.Node?
    ensures |r.choices| <= |m.choices|
    decreases |m.choices|, n, 2
  {
    var (m1, v) := Eval(rs, n.x, m);
    if Rangeable(n.x) then RangeLoop(rs, n, v, m1) else Anything(n, m1).0
  }

  function RangeLoop(rs: seq<Object>, n: Node, v: bool, m: Machine): (r: Machine)
    requires n.Node?
    ensures |r.choices| <= |m.choices|
    decreases |m.choices|, n, 1
  {
    if !m.mode.Running? then m else
    var (m1, c) := m.Choose();
    if c == 0 || !m1.mode.Running? then m1 else
    var m2 := RangeAssign(rs, n.args, v || m1.Mem(), m1);
    var (m3, again) := ExecList(rs, n.body, 0, m2).Next();
    if again then RangeLoop(rs, n, v, m3) else m3
  }

  function RangeAssign(rs: seq<Object>, dsts: seq<Node>, v: bool, m: Machine): (r: Machine)
    ensures |r.choices| <= |m.choices|
    decreases |m.choices|, dsts, 2
  {
    if dsts == [] then m else RangeAssign(rs, dsts[1..], v, RangeStoreTo(rs, dsts[0], v, m))
  }

  function RangeStoreTo(rs: seq<Object>, d: Node, v: bool, m: Machine): (r: Machine)
    ensures |r.choices| <= |m.choices|
    decreases |m.choices|, d, 6
  {
    if d.NoNode? then m else StoreTo(rs, d, v, ExecList(rs, d.init, 0, m))
  }

  function ExecClauses(rs: seq<Object>, clauses: seq<Node>, v: bool, m: Machine): (r: Machine)
    ensures |r.choices| <= |m.choices|
    decreases |m.choices|, clauses, 2
  {
    if clauses == [] then m else ExecClauses(rs, clauses[1..], v, ExecClause(rs, clauses[0], v, m))
  }

  /** One clause of a type switch, taken or passed over. */
  function ExecClause(rs: seq<Object>, c: Node, v: bool, m: Machine): (r: Machine)
    ensures |r.choices| <= |m.choices|
    decreases |m.choices|, c, 6
  {
    if c.NoNode? || !m.mode.Running? then m
    else if !c.op.OCase? then Anything(c, m).0
    else
      var (m1, taken) := EvalAll(rs, c.args, ExecList(rs, c.init, 0, m)).Choose();
      if taken == 0 || !m1.mode.Running? then m1
      else
        ExecList(rs, c.body, 0,
                 if c.obj.NoObject? then m1 else Write(c.obj, true, Clip(v || m1.Mem(), c.obj.typ), m1))
  }

  /** A run of the whole body. The argument is all that is marked. */
  function Run(fn: Func, param: Object, choices: seq<nat>): Machine {
    ExecList(fn.results, fn.body, 0, Machine({param}, {}, false, [], choices, Running))
  }
}

/** Assignments of several values in two phases (ir/build.go). */
module ParallelAssign {
  import opened Wrappers

  // ----- Values and storage -----

  /** A slice is a part of an array somewhere, and a map is the root that holds its
      entries. A table gives its zero for a key that it does not have, and a nil map
      has no entries and takes none. */
  datatype Value =
    | Int(n: int) | Nil | Pointer(at: Loc) | SliceOf(base: Loc, off: nat, len: nat) | MapOf(root: nat)
    | Struct(fields: seq<Value>) | Array(elems: seq<Value>) | Table(entries: map<Value, Value>, zero: Value) | NilTable(zero: Value)

  datatype Loc = Loc(root: nat, path: seq<Step>)

  datatype Step = AtField(f: nat) | AtElem(i: nat) | AtKey(key: Value)

  type Memory = map<nat, Value>

  function Part(v: Value, path: seq<Step>): Option<Value>
    decreases |path|
  {
    if path == [] then Some(v)
    else match (v, path[0])
      case (Struct(fs), AtField(f)) => if f < |fs| then Part(fs[f], path[1..]) else None
      case (Array(es), AtElem(i)) => if i < |es| then Part(es[i], path[1..]) else None
      case (Table(entries, zero), AtKey(k)) => Part(if k in entries then entries[k] else zero, path[1..])
      case (NilTable(zero), AtKey(_)) => Part(zero, path[1..])
      case _ => None
  }

  /** The value with the part at the end of the path replaced. A key that a table
      does not have is added. */
  function Put(v: Value, path: seq<Step>, x: Value): Option<Value>
    decreases |path|
  {
    if path == [] then Some(x)
    else match (v, path[0])
      case (Struct(fs), AtField(f)) =>
        if f >= |fs| then None
        else
          var y :- Put(fs[f], path[1..], x);
          Some(Struct(fs[f := y]))
      case (Array(es), AtElem(i)) =>
        if i >= |es| then None
        else
          var y :- Put(es[i], path[1..], x);
          Some(Array(es[i := y]))
      case (Table(entries, zero), AtKey(k)) =>
        var y :- Put(if k in entries then entries[k] else zero, path[1..], x);
        Some(Table(entries[k := y], zero))
      case _ => None
  }

  function Read(mem: Memory, at: Loc): Option<Value> { if at.root in mem then Part(mem[at.root], at.path) else None }

  function Write(mem: Memory, at: Loc, x: Value): Option<Memory> {
    if at.root !in mem then None
    else
      var v :- Put(mem[at.root], at.path, x);
      Some(mem[at.root := v])
  }

  /** The paths part at some step. */
  predicate Apart(p: seq<Step>, q: seq<Step>)
    decreases |p|
  {
    p != [] && q != [] && (p[0] != q[0] || Apart(p[1..], q[1..]))
  }

  lemma {:induction false} PutIsRead(v: Value, path: seq<Step>, x: Value)
    requires Put(v, path, x).Some?
    ensures Part(Put(v, path, x).value, path) == Some(x)
    decreases |path|
  {
    if path != [] {
      if v.Struct? { PutIsRead(v.fields[path[0].f], path[1..], x); }
      else if v.Array? { PutIsRead(v.elems[path[0].i], path[1..], x); }
      else {
        var k := path[0].key;
        PutIsRead(if k in v.entries then v.entries[k] else v.zero, path[1..], x);
      }
    }
  }

  lemma {:induction false} PutKeepsOthers(v: Value, path: seq<Step>, x: Value, other: seq<Step>)
    requires Put(v, path, x).Some? && Apart(path, other)
    ensures Part(Put(v, path, x).value, other) == Part(v, other)
    decreases |path|
  {
    if path[0] == other[0] {
      if v.Struct? { PutKeepsOthers(v.fields[path[0].f], path[1..], x, other[1..]); }
      else if v.Array? { PutKeepsOthers(v.elems[path[0].i], path[1..], x, other[1..]); }
      else {
        var k := path[0].key;
        PutKeepsOthers(if k in v.entries then v.entries[k] else v.zero, path[1..], x, other[1..]);
      }
    }
  }

  /** A write is read back where it was made, and changes nothing at a location
      that parts from it. */
  lemma WriteIsRead(mem: Memory, at: Loc, x: Value, other: Loc)
    requires Write(mem, at, x).Some?
    ensures var mem' := Write(mem, at, x).value;
            && Read(mem', at) == Some(x)
            && (at.root != other.root || Apart(at.path, other.path) ==> Read(mem', other) == Read(mem, other))
  {
    PutIsRead(mem[at.root], at.path, x);
    if at.root == other.root && Apart(at.path, other.path) { PutKeepsOthers(mem[at.root], at.path, x, other.path); }
  }

  // ----- Expressions and destinations -----

  datatype Expr = Const(v: Value) | Temp(n: nat) | Load(from: Place) | AddrOf(from: Place) | Op(id: nat, args: seq<Expr>)

  /** Elem is an element of an array, which is storage; Index is one of a slice or a
      map, which is a value. */
  datatype Place = Var(x: nat) | Field(of: Place, f: nat) | Elem(of: Place, i: Expr) | Deref(p: Expr) | Index(base: Expr, i: Expr)

  /** A destination whose operands have been evaluated. */
  datatype Held = HeldVar(x: nat) | HeldField(of: Held, f: nat) | HeldElem(of: Held, i: Value) | HeldDeref(p: Value) | HeldIndex(base: Value, i: Value)

  /** The operators. None is a panic. */
  datatype Machine = Machine(op: (nat, seq<Value>) -> Option<Value>)

  type Temps = map<nat, Value>

  /** The location that evaluated operands give, or None for a panic. */
  function Locate(h: Held): Option<Loc> {
    match h
    case HeldVar(x) => Some(Loc(x, []))
    case HeldField(of, f) =>
      var at :- Locate(of);
      Some(Loc(at.root, at.path + [AtField(f)]))
    case HeldElem(of, i) =>
      var at :- Locate(of);
      if i.Int? && i.n >= 0 then Some(Loc(at.root, at.path + [AtElem(i.n)])) else None
    case HeldDeref(p) => if p.Pointer? then Some(p.at) else None
    case HeldIndex(base, i) =>
      if base.SliceOf? && i.Int? && 0 <= i.n < base.len then Some(Loc(base.base.root, base.base.path + [AtElem(base.off + i.n)]))
      else if base.MapOf? then Some(Loc(base.root, [AtKey(i)]))
      else None
  }

  function Eval(m: Machine, e: Expr, mem: Memory, t: Temps): Option<Value>
    decreases e, 0
  {
    match e
    case Const(v) => Some(v)
    case Temp(n) => if n in t then Some(t[n]) else None
    case Load(from) =>
      var h :- Hold(m, from, mem, t);
      var at :- Locate(h);
      Read(mem, at)
    case AddrOf(from) =>
      var h :- Hold(m, from, mem, t);
      var at :- Locate(h);
      Some(Pointer(at))
    case Op(id, args) =>
      var vs :- EvalAll(m, args, mem, t);
      m.op(id, vs)
  }

  function EvalAll(m: Machine, list: seq<Expr>, mem: Memory, t: Temps): Option<seq<Value>>
    decreases list, 1
  {
    if list == [] then Some([])
    else
      var v :- Eval(m, list[0], mem, t);
      var vs :- EvalAll(m, list[1..], mem, t);
      Some([v] + vs)
  }

  /** Evaluates the operands of a destination. */
  function Hold(m: Machine, p: Place, mem: Memory, t: Temps): Option<Held>
    decreases p, 0
  {
    match p
    case Var(x) => Some(HeldVar(x))
    case Field(of, f) =>
      var h :- Hold(m, of, mem, t);
      Some(HeldField(h, f))
    case Elem(of, i) =>
      var h :- Hold(m, of, mem, t);
      var v :- Eval(m, i, mem, t);
      Some(HeldElem(h, v))
    case Deref(q) =>
      var v :- Eval(m, q, mem, t);
      Some(HeldDeref(v))
    case Index(base, i) =>
      var b :- Eval(m, base, mem, t);
      var v :- Eval(m, i, mem, t);
      Some(HeldIndex(b, v))
  }

  function HoldAll(m: Machine, lhs: seq<Place>, mem: Memory, t: Temps): Option<seq<Held>> {
    if lhs == [] then Some([])
    else
      var h :- Hold(m, lhs[0], mem, t);
      var hs :- HoldAll(m, lhs[1..], mem, t);
      Some([h] + hs)
  }

  // ----- The two phases of the language -----

  /** The memory at the end, or where a panic stopped it. */
  datatype End = Done(mem: Memory) | Stopped(mem: Memory)

  function Store(h: Held, x: Value, mem: Memory): Option<Memory> {
    var at :- Locate(h);
    Write(mem, at, x)
  }

  function StoreAll(hs: seq<Held>, vs: seq<Value>, mem: Memory): End
    requires |hs| == |vs|
  {
    if hs == [] then Done(mem)
    else
      var r := Store(hs[0], vs[0], mem);
      if r.None? then Stopped(mem) else StoreAll(hs[1..], vs[1..], r.value)
  }

  /** First the operands on the left and the values on the right, then the
      assignments from left to right. */
  function TwoPhases(m: Machine, lhs: seq<Place>, rhs: seq<Expr>, mem: Memory, t: Temps): End
    requires |lhs| == |rhs|
  {
    var hs, vs := HoldAll(m, lhs, mem, t), EvalAll(m, rhs, mem, t);
    if hs.None? || vs.None? then Stopped(mem)
    else
      HoldAllLength(m, lhs, mem, t);
      EvalAllLength(m, rhs, mem, t);
      StoreAll(hs.value, vs.value, mem)
  }

  lemma {:induction false} HoldAllLength(m: Machine, lhs: seq<Place>, mem: Memory, t: Temps)
    ensures HoldAll(m, lhs, mem, t).Some? ==> |HoldAll(m, lhs, mem, t).value| == |lhs|
  {
    if lhs != [] { HoldAllLength(m, lhs[1..], mem, t); }
  }

  lemma {:induction false} EvalAllLength(m: Machine, list: seq<Expr>, mem: Memory, t: Temps)
    ensures EvalAll(m, list, mem, t).Some? ==> |EvalAll(m, list, mem, t).value| == |list|
  {
    if list != [] { EvalAllLength(m, list[1..], mem, t); }
  }

  // ----- What the builder emits -----

  datatype Stmt = Def(n: nat, e: Expr) | Assign(to: Place, e: Expr)

  /** One statement at a time, and a panic ends the run. */
  function Run(m: Machine, list: seq<Stmt>, mem: Memory, t: Temps): End {
    if list == [] then Done(mem)
    else match list[0]
      case Def(n, e) =>
        var v := Eval(m, e, mem, t);
        if v.None? then Stopped(mem) else Run(m, list[1..], mem, t[n := v.value])
      case Assign(to, e) =>
        var h, v := Hold(m, to, mem, t), Eval(m, e, mem, t);
        var r := if h.Some? && v.Some? then Store(h.value, v.value, mem) else None;
        if r.None? then Stopped(mem) else Run(m, list[1..], r.value, t)
  }

  datatype Kept = Kept(defs: seq<Stmt>, e: Expr, next: nat)

  datatype KeptPlace = KeptPlace(defs: seq<Stmt>, to: Place, next: nat)

  /** snapshot: a temporary for anything that is not a constant. */
  function Snapshot(e: Expr, n: nat): (r: Kept)
    ensures n <= r.next && forall s <- r.defs :: s.Def?
  {
    if e.Const? then Kept([], e, n) else Kept([Def(n, e)], Temp(n), n + 1)
  }

  /** stabilizeParallel: the operands of a destination in temporaries. */
  function Stabilize(p: Place, n: nat): (r: KeptPlace)
    ensures n <= r.next && forall s <- r.defs :: s.Def?
  {
    match p
    case Var(_) => KeptPlace([], p, n)
    case Field(of, f) =>
      var k := Stabilize(of, n);
      KeptPlace(k.defs, Field(k.to, f), k.next)
    case Elem(of, i) =>
      var k := Stabilize(of, n);
      var s := Snapshot(i, k.next);
      KeptPlace(k.defs + s.defs, Elem(k.to, s.e), s.next)
    case Deref(q) =>
      var s := Snapshot(q, n);
      KeptPlace(s.defs, Deref(s.e), s.next)
    case Index(base, i) =>
      var b := Snapshot(base, n);
      var s := Snapshot(i, b.next);
      KeptPlace(b.defs + s.defs, Index(b.e, s.e), s.next)
  }

  datatype Dests = Dests(defs: seq<Stmt>, list: seq<Place>, next: nat)

  datatype Sources = Sources(defs: seq<Stmt>, list: seq<Expr>, next: nat)

  function StabilizeAll(lhs: seq<Place>, n: nat): (r: Dests)
    ensures n <= r.next && |r.list| == |lhs| && forall s <- r.defs :: s.Def?
  {
    if lhs == [] then Dests([], [], n)
    else
      var k := Stabilize(lhs[0], n);
      var rest := StabilizeAll(lhs[1..], k.next);
      Dests(k.defs + rest.defs, [k.to] + rest.list, rest.next)
  }

  function SnapshotAll(rhs: seq<Expr>, n: nat): (r: Sources)
    ensures n <= r.next && |r.list| == |rhs| && forall s <- r.defs :: s.Def?
  {
    if rhs == [] then Sources([], [], n)
    else
      var k := Snapshot(rhs[0], n);
      var rest := SnapshotAll(rhs[1..], k.next);
      Sources(k.defs + rest.defs, [k.e] + rest.list, rest.next)
  }

  function Assigns(to: seq<Place>, from: seq<Expr>): seq<Stmt>
    requires |to| == |from|
  {
    seq(|to|, i requires 0 <= i < |to| => Assign(to[i], from[i]))
  }

  // ----- Temporaries -----

  predicate Below(e: Expr, n: nat)
    decreases e, 0
  {
    match e
    case Const(_) => true
    case Temp(i) => i < n
    case Load(from) => PlaceBelow(from, n)
    case AddrOf(from) => PlaceBelow(from, n)
    case Op(_, args) => AllBelow(args, n)
  }

  predicate AllBelow(list: seq<Expr>, n: nat)
    decreases list, 1
  {
    list == [] || (Below(list[0], n) && AllBelow(list[1..], n))
  }

  predicate PlaceBelow(p: Place, n: nat)
    decreases p, 0
  {
    match p
    case Var(_) => true
    case Field(of, _) => PlaceBelow(of, n)
    case Elem(of, i) => PlaceBelow(of, n) && Below(i, n)
    case Deref(q) => Below(q, n)
    case Index(base, i) => Below(base, n) && Below(i, n)
  }

  predicate PlacesBelow(lhs: seq<Place>, n: nat) { forall i :: 0 <= i < |lhs| ==> PlaceBelow(lhs[i], n) }

  ghost predicate Agree(t: Temps, t': Temps, n: nat) { forall i :: i < n ==> (i in t <==> i in t') && (i in t ==> t[i] == t'[i]) }

  lemma {:induction false} SameEval(m: Machine, e: Expr, mem: Memory, t: Temps, t': Temps, n: nat)
    requires Below(e, n) && Agree(t, t', n)
    ensures Eval(m, e, mem, t) == Eval(m, e, mem, t')
    decreases e, 0
  {
    match e
    case Const(_) =>
    case Temp(_) =>
    case Load(from) => SameHold(m, from, mem, t, t', n);
    case AddrOf(from) => SameHold(m, from, mem, t, t', n);
    case Op(_, args) => SameEvalAll(m, args, mem, t, t', n);
  }

  lemma {:induction false} SameEvalAll(m: Machine, list: seq<Expr>, mem: Memory, t: Temps, t': Temps, n: nat)
    requires AllBelow(list, n) && Agree(t, t', n)
    ensures EvalAll(m, list, mem, t) == EvalAll(m, list, mem, t')
    decreases list, 1
  {
    if list != [] {
      SameEval(m, list[0], mem, t, t', n);
      SameEvalAll(m, list[1..], mem, t, t', n);
    }
  }

  lemma {:induction false} SameHold(m: Machine, p: Place, mem: Memory, t: Temps, t': Temps, n: nat)
    requires PlaceBelow(p, n) && Agree(t, t', n)
    ensures Hold(m, p, mem, t) == Hold(m, p, mem, t')
    decreases p, 0
  {
    match p
    case Var(_) =>
    case Field(of, _) => SameHold(m, of, mem, t, t', n);
    case Elem(of, i) =>
      SameHold(m, of, mem, t, t', n);
      SameEval(m, i, mem, t, t', n);
    case Deref(q) => SameEval(m, q, mem, t, t', n);
    case Index(base, i) =>
      SameEval(m, base, mem, t, t', n);
      SameEval(m, i, mem, t, t', n);
  }

  // ----- What a temporary fixes -----

  function RunDefs(m: Machine, defs: seq<Stmt>, mem: Memory, t: Temps): Option<Temps>
    requires forall s <- defs :: s.Def?
  {
    if defs == [] then Some(t)
    else
      var v :- Eval(m, defs[0].e, mem, t);
      RunDefs(m, defs[1..], mem, t[defs[0].n := v])
  }

  lemma {:induction false} RunDefsBoth(m: Machine, first: seq<Stmt>, second: seq<Stmt>, mem: Memory, t: Temps)
    requires (forall s <- first :: s.Def?) && (forall s <- second :: s.Def?)
    ensures RunDefs(m, first + second, mem, t) ==
            var r := RunDefs(m, first, mem, t); if r.None? then None else RunDefs(m, second, mem, r.value)
  {
    if first == [] {
      assert first + second == second;
    } else {
      assert (first + second)[0] == first[0] && (first + second)[1..] == first[1..] + second;
      var v := Eval(m, first[0].e, mem, t);
      if v.Some? { RunDefsBoth(m, first[1..], second, mem, t[first[0].n := v.value]); }
    }
  }

  lemma {:induction false} RunAfterDefs(m: Machine, defs: seq<Stmt>, rest: seq<Stmt>, mem: Memory, t: Temps)
    requires forall s <- defs :: s.Def?
    ensures Run(m, defs + rest, mem, t) ==
            var r := RunDefs(m, defs, mem, t); if r.None? then Stopped(mem) else Run(m, rest, mem, r.value)
  {
    if defs == [] {
      assert defs + rest == rest;
    } else {
      assert (defs + rest)[0] == defs[0] && (defs + rest)[1..] == defs[1..] + rest;
      var v := Eval(m, defs[0].e, mem, t);
      if v.Some? { RunAfterDefs(m, defs[1..], rest, mem, t[defs[0].n := v.value]); }
    }
  }

  /** Whatever is written later, and whatever temporaries are added, the expression
      has this value and the destination these operands. */
  ghost predicate Fixed(m: Machine, e: Expr, v: Value, t: Temps, n: nat) {
    forall mem, t' :: Agree(t, t', n) ==> Eval(m, e, mem, t') == Some(v)
  }

  ghost predicate FixedPlace(m: Machine, p: Place, h: Held, t: Temps, n: nat) {
    forall mem, t' :: Agree(t, t', n) ==> Hold(m, p, mem, t') == Some(h)
  }

  ghost predicate AllFixedPlaces(m: Machine, ps: seq<Place>, hs: seq<Held>, t: Temps, n: nat) {
    |ps| == |hs| && forall i :: 0 <= i < |ps| ==> FixedPlace(m, ps[i], hs[i], t, n)
  }

  ghost predicate AllFixed(m: Machine, es: seq<Expr>, vs: seq<Value>, t: Temps, n: nat) {
    |es| == |vs| && forall i :: 0 <= i < |es| ==> Fixed(m, es[i], vs[i], t, n)
  }

  lemma SnapshotFixes(m: Machine, e: Expr, n: nat, mem: Memory, t: Temps)
    requires Below(e, n)
    ensures var k := Snapshot(e, n);
            var r, v := RunDefs(m, k.defs, mem, t), Eval(m, e, mem, t);
            && r.Some? == v.Some?
            && (r.Some? ==> Agree(t, r.value, n) && Fixed(m, k.e, v.value, r.value, k.next))
  {
    if !e.Const? {
      var v := Eval(m, e, mem, t);
      if v.Some? { assert RunDefs(m, Snapshot(e, n).defs[1..], mem, t[n := v.value]) == Some(t[n := v.value]); }
    }
  }

  lemma FixedLonger(m: Machine, e: Expr, v: Value, t: Temps, n: nat, t': Temps, n': nat)
    requires Fixed(m, e, v, t, n) && Agree(t, t', n) && n <= n'
    ensures Fixed(m, e, v, t', n')
  {
    forall mem, t2 | Agree(t', t2, n') ensures Eval(m, e, mem, t2) == Some(v) {
      assert Agree(t, t2, n);
    }
  }

  lemma FixedPlaceLonger(m: Machine, p: Place, h: Held, t: Temps, n: nat, t': Temps, n': nat)
    requires FixedPlace(m, p, h, t, n) && Agree(t, t', n) && n <= n'
    ensures FixedPlace(m, p, h, t', n')
  {
    forall mem, t2 | Agree(t', t2, n') ensures Hold(m, p, mem, t2) == Some(h) {
      assert Agree(t, t2, n);
    }
  }

  /** A destination that the builder stabilises denotes, in every memory and with
      every later temporary, what it denoted before the first write. */
  lemma {:induction false} StabilizeFixes(m: Machine, p: Place, n: nat, mem: Memory, t: Temps)
    requires PlaceBelow(p, n)
    ensures var k := Stabilize(p, n);
            var r, h := RunDefs(m, k.defs, mem, t), Hold(m, p, mem, t);
               r.Some? == h.Some? && (r.Some? ==> Agree(t, r.value, n) && FixedPlace(m, k.to, h.value, r.value, k.next))
  {
    match p
    case Var(_) =>
    case Field(of, _) => StabilizeFixes(m, of, n, mem, t);
    case Elem(of, i) =>
      StabilizeFixes(m, of, n, mem, t);
      var k := Stabilize(of, n);
      RunDefsBoth(m, k.defs, Snapshot(i, k.next).defs, mem, t);
      var r := RunDefs(m, k.defs, mem, t);
      if r.Some? {
        MoreBelow(i, n, k.next);
        SameEval(m, i, mem, t, r.value, n);
        SnapshotFixes(m, i, k.next, mem, r.value);
        var s := Snapshot(i, k.next);
        var r' := RunDefs(m, s.defs, mem, r.value);
        if r'.Some? { FixedPlaceLonger(m, k.to, Hold(m, of, mem, t).value, r.value, k.next, r'.value, s.next); }
      }
    case Deref(q) => SnapshotFixes(m, q, n, mem, t);
    case Index(base, i) =>
      SnapshotFixes(m, base, n, mem, t);
      var k := Snapshot(base, n);
      RunDefsBoth(m, k.defs, Snapshot(i, k.next).defs, mem, t);
      var r := RunDefs(m, k.defs, mem, t);
      if r.Some? {
        MoreBelow(i, n, k.next);
        SameEval(m, i, mem, t, r.value, n);
        SnapshotFixes(m, i, k.next, mem, r.value);
        var s := Snapshot(i, k.next);
        var r' := RunDefs(m, s.defs, mem, r.value);
        if r'.Some? { FixedLonger(m, k.e, Eval(m, base, mem, t).value, r.value, k.next, r'.value, s.next); }
      }
  }

  lemma {:induction false} MoreBelow(e: Expr, n: nat, n': nat)
    requires Below(e, n) && n <= n'
    ensures Below(e, n')
    decreases e, 0
  {
    match e
    case Const(_) =>
    case Temp(_) =>
    case Load(from) => MorePlaceBelow(from, n, n');
    case AddrOf(from) => MorePlaceBelow(from, n, n');
    case Op(_, args) => AllMoreBelow(args, n, n');
  }

  lemma {:induction false} AllMoreBelow(list: seq<Expr>, n: nat, n': nat)
    requires AllBelow(list, n) && n <= n'
    ensures AllBelow(list, n')
    decreases list, 1
  {
    if list != [] {
      MoreBelow(list[0], n, n');
      AllMoreBelow(list[1..], n, n');
    }
  }

  lemma {:induction false} MorePlaceBelow(p: Place, n: nat, n': nat)
    requires PlaceBelow(p, n) && n <= n'
    ensures PlaceBelow(p, n')
    decreases p, 0
  {
    match p
    case Var(_) =>
    case Field(of, _) => MorePlaceBelow(of, n, n');
    case Elem(of, i) =>
      MorePlaceBelow(of, n, n');
      MoreBelow(i, n, n');
    case Deref(q) => MoreBelow(q, n, n');
    case Index(base, i) =>
      MoreBelow(base, n, n');
      MoreBelow(i, n, n');
  }

  lemma OneMorePlace(m: Machine, p: Place, h: Held, ps: seq<Place>, hs: seq<Held>, t: Temps, n: nat)
    requires FixedPlace(m, p, h, t, n) && AllFixedPlaces(m, ps, hs, t, n)
    ensures AllFixedPlaces(m, [p] + ps, [h] + hs, t, n)
  {
  }

  lemma OneMoreExpr(m: Machine, e: Expr, v: Value, es: seq<Expr>, vs: seq<Value>, t: Temps, n: nat)
    requires Fixed(m, e, v, t, n) && AllFixed(m, es, vs, t, n)
    ensures AllFixed(m, [e] + es, [v] + vs, t, n)
  {
  }

  lemma {:induction false} StabilizeAllFixes(m: Machine, lhs: seq<Place>, n: nat, mem: Memory, t: Temps)
    requires PlacesBelow(lhs, n)
    ensures var d := StabilizeAll(lhs, n);
            var r, hs := RunDefs(m, d.defs, mem, t), HoldAll(m, lhs, mem, t);
               r.Some? == hs.Some? && (r.Some? ==> Agree(t, r.value, n) && AllFixedPlaces(m, d.list, hs.value, r.value, d.next))
  {
    if lhs != [] {
      StabilizeFixes(m, lhs[0], n, mem, t);
      var k := Stabilize(lhs[0], n);
      forall i | 0 <= i < |lhs[1..]| ensures PlaceBelow(lhs[1..][i], k.next) { MorePlaceBelow(lhs[i + 1], n, k.next); }
      var rest := StabilizeAll(lhs[1..], k.next);
      RunDefsBoth(m, k.defs, rest.defs, mem, t);
      var r := RunDefs(m, k.defs, mem, t);
      if r.Some? {
        SameHoldAll(m, lhs[1..], mem, t, r.value, n);
        StabilizeAllFixes(m, lhs[1..], k.next, mem, r.value);
        var r' := RunDefs(m, rest.defs, mem, r.value);
        if r'.Some? {
          var h, hs := Hold(m, lhs[0], mem, t).value, HoldAll(m, lhs[1..], mem, t).value;
          FixedPlaceLonger(m, k.to, h, r.value, k.next, r'.value, rest.next);
          OneMorePlace(m, k.to, h, rest.list, hs, r'.value, rest.next);
        }
      }
    }
  }

  lemma {:induction false} SameHoldAll(m: Machine, lhs: seq<Place>, mem: Memory, t: Temps, t': Temps, n: nat)
    requires PlacesBelow(lhs, n) && Agree(t, t', n)
    ensures HoldAll(m, lhs, mem, t) == HoldAll(m, lhs, mem, t')
  {
    if lhs != [] {
      SameHold(m, lhs[0], mem, t, t', n);
      SameHoldAll(m, lhs[1..], mem, t, t', n);
    }
  }

  lemma {:induction false} SnapshotAllFixes(m: Machine, rhs: seq<Expr>, n: nat, mem: Memory, t: Temps)
    requires AllBelow(rhs, n)
    ensures var d := SnapshotAll(rhs, n);
            var r, vs := RunDefs(m, d.defs, mem, t), EvalAll(m, rhs, mem, t);
               r.Some? == vs.Some? && (r.Some? ==> Agree(t, r.value, n) && AllFixed(m, d.list, vs.value, r.value, d.next))
  {
    if rhs != [] {
      SnapshotFixes(m, rhs[0], n, mem, t);
      var k := Snapshot(rhs[0], n);
      AllMoreBelow(rhs[1..], n, k.next);
      var rest := SnapshotAll(rhs[1..], k.next);
      RunDefsBoth(m, k.defs, rest.defs, mem, t);
      var r := RunDefs(m, k.defs, mem, t);
      if r.Some? {
        SameEvalAll(m, rhs[1..], mem, t, r.value, n);
        SnapshotAllFixes(m, rhs[1..], k.next, mem, r.value);
        var r' := RunDefs(m, rest.defs, mem, r.value);
        if r'.Some? {
          var v, vs := Eval(m, rhs[0], mem, t).value, EvalAll(m, rhs[1..], mem, t).value;
          FixedLonger(m, k.e, v, r.value, k.next, r'.value, rest.next);
          OneMoreExpr(m, k.e, v, rest.list, vs, r'.value, rest.next);
        }
      }
    }
  }

  // ----- The assignment -----

  lemma {:induction false} AssignsStore(m: Machine, to: seq<Place>, from: seq<Expr>, hs: seq<Held>, vs: seq<Value>, mem: Memory, t: Temps, n: nat)
    requires |to| == |from| == |hs| == |vs|
    requires AllFixedPlaces(m, to, hs, t, n) && AllFixed(m, from, vs, t, n)
    ensures Run(m, Assigns(to, from), mem, t) == StoreAll(hs, vs, mem)
  {
    if to != [] {
      var list := Assigns(to, from);
      assert list[1..] == Assigns(to[1..], from[1..]);
      assert Agree(t, t, n);
      assert Hold(m, to[0], mem, t) == Some(hs[0]) && Eval(m, from[0], mem, t) == Some(vs[0]);
      var r := Store(hs[0], vs[0], mem);
      if r.Some? { AssignsStore(m, to[1..], from[1..], hs[1..], vs[1..], r.value, t, n); }
    }
  }

  /** What the builder emits for an assignment of several values to as many
      destinations. */
  function Emitted(lhs: seq<Place>, rhs: seq<Expr>, n: nat): seq<Stmt>
    requires |lhs| == |rhs|
  {
    var d := StabilizeAll(lhs, n);
    var s := SnapshotAll(rhs, d.next);
    d.defs + s.defs + Assigns(d.list, s.list)
  }

  /** Running what is emitted is the two phases of the language, in every memory and
      for every panic. */
  lemma EmittedIsTwoPhases(m: Machine, lhs: seq<Place>, rhs: seq<Expr>, n: nat, mem: Memory, t: Temps)
    requires |lhs| == |rhs| && PlacesBelow(lhs, n) && AllBelow(rhs, n)
    ensures Run(m, Emitted(lhs, rhs, n), mem, t) == TwoPhases(m, lhs, rhs, mem, t)
  {
    var d := StabilizeAll(lhs, n);
    var s := SnapshotAll(rhs, d.next);
    StabilizeAllFixes(m, lhs, n, mem, t);
    AllMoreBelow(rhs, n, d.next);
    SnapshotAllFixes(m, rhs, d.next, mem, t);
    var stores := Assigns(d.list, s.list);
    assert Emitted(lhs, rhs, n) == d.defs + (s.defs + stores);
    RunAfterDefs(m, d.defs, s.defs + stores, mem, t);
    var r := RunDefs(m, d.defs, mem, t);
    if r.Some? {
      SameEvalAll(m, rhs, mem, t, r.value, n);
      SnapshotAllFixes(m, rhs, d.next, mem, r.value);
      RunAfterDefs(m, s.defs, stores, mem, r.value);
      var r' := RunDefs(m, s.defs, mem, r.value);
      if r'.Some? {
        var hs, vs := HoldAll(m, lhs, mem, t).value, EvalAll(m, rhs, mem, t).value;
        forall i | 0 <= i < |lhs| ensures FixedPlace(m, d.list[i], hs[i], r'.value, s.next) {
          FixedPlaceLonger(m, d.list[i], hs[i], r.value, d.next, r'.value, s.next);
        }
        AssignsStore(m, d.list, s.list, hs, vs, mem, r'.value, s.next);
      }
    }
  }

  /** The operands of a destination, from left to right. */
  function Operands(p: Place): seq<Expr> {
    match p
    case Var(_) => []
    case Field(of, _) => Operands(of)
    case Elem(of, i) => Operands(of) + [i]
    case Deref(q) => [q]
    case Index(base, i) => [base, i]
  }

  function AllOperands(lhs: seq<Place>): seq<Expr> { if lhs == [] then [] else Operands(lhs[0]) + AllOperands(lhs[1..]) }

  /** A temporary for each expression but the constants, in order. */
  function Defs(list: seq<Expr>, n: nat): seq<Stmt> {
    if list == [] then []
    else if list[0].Const? then Defs(list[1..], n)
    else [Def(n, list[0])] + Defs(list[1..], n + 1)
  }

  lemma {:induction false} DefsBoth(xs: seq<Expr>, ys: seq<Expr>, n: nat)
    ensures Defs(xs + ys, n) == Defs(xs, n) + Defs(ys, n + |Defs(xs, n)|)
  {
    if xs == [] {
      assert xs + ys == ys;
    } else {
      assert (xs + ys)[0] == xs[0] && (xs + ys)[1..] == xs[1..] + ys;
      DefsBoth(xs[1..], ys, if xs[0].Const? then n else n + 1);
    }
  }

  lemma DefsOne(e: Expr, n: nat)
    ensures Defs([e], n) == Snapshot(e, n).defs && Snapshot(e, n).next == n + |Defs([e], n)|
  {
    assert [e][1..] == [] && Defs([], n + 1) == [];
  }

  lemma {:induction false} StabilizeDefs(p: Place, n: nat)
    ensures var k := Stabilize(p, n); k.defs == Defs(Operands(p), n) && k.next == n + |k.defs|
  {
    match p
    case Var(_) =>
    case Field(of, _) => StabilizeDefs(of, n);
    case Elem(of, i) =>
      StabilizeDefs(of, n);
      DefsBoth(Operands(of), [i], n);
      DefsOne(i, Stabilize(of, n).next);
    case Deref(q) => DefsOne(q, n);
    case Index(base, i) =>
      DefsBoth([base], [i], n);
      DefsOne(base, n);
      DefsOne(i, Snapshot(base, n).next);
      assert [base] + [i] == [base, i];
  }

  lemma {:induction false} StabilizeAllDefs(lhs: seq<Place>, n: nat)
    ensures var d := StabilizeAll(lhs, n); d.defs == Defs(AllOperands(lhs), n) && d.next == n + |d.defs|
  {
    if lhs != [] {
      StabilizeDefs(lhs[0], n);
      var k := Stabilize(lhs[0], n);
      StabilizeAllDefs(lhs[1..], k.next);
      DefsBoth(Operands(lhs[0]), AllOperands(lhs[1..]), n);
    }
  }

  lemma {:induction false} SnapshotAllDefs(rhs: seq<Expr>, n: nat)
    ensures var d := SnapshotAll(rhs, n); d.defs == Defs(rhs, n) && d.next == n + |d.defs|
  {
    if rhs != [] {
      DefsOne(rhs[0], n);
      SnapshotAllDefs(rhs[1..], Snapshot(rhs[0], n).next);
      DefsBoth([rhs[0]], rhs[1..], n);
      assert [rhs[0]] + rhs[1..] == rhs;
    }
  }

  /** What is emitted reads every operand on the left and every value on the right
      that is not a constant once, from left to right, and then only assigns. */
  lemma EmittedReadsOnce(lhs: seq<Place>, rhs: seq<Expr>, n: nat)
    requires |lhs| == |rhs|
    ensures var held, out := Defs(AllOperands(lhs) + rhs, n), Emitted(lhs, rhs, n);
            && |out| == |held| + |lhs| && out[..|held|] == held
            && forall i :: |held| <= i < |out| ==> out[i].Assign?
  {
    StabilizeAllDefs(lhs, n);
    SnapshotAllDefs(rhs, StabilizeAll(lhs, n).next);
    DefsBoth(AllOperands(lhs), rhs, n);
  }

  // ----- The builder -----

  /** What is there and what is left make up the whole. */
  ghost predicate Continues(rest: Dests, before: seq<Stmt>, sink: seq<Stmt>, dsts: seq<Place>, d: Dests) {
    sink + rest.defs == before + d.defs && dsts + rest.list == d.list && rest.next == d.next
  }

  lemma StabilizeNext(lhs: seq<Place>, i: nat, n: nat)
    requires i < |lhs|
    ensures var k := Stabilize(lhs[i], n);
            var rest := StabilizeAll(lhs[i + 1..], k.next);
            StabilizeAll(lhs[i..], n) == Dests(k.defs + rest.defs, [k.to] + rest.list, rest.next)
  {
    assert lhs[i..][0] == lhs[i] && lhs[i..][1..] == lhs[i + 1..];
  }

  lemma ContinuesNext(k: KeptPlace, rest: Dests, before: seq<Stmt>, sink: seq<Stmt>, dsts: seq<Place>, d: Dests)
    requires Continues(Dests(k.defs + rest.defs, [k.to] + rest.list, rest.next), before, sink, dsts, d)
    ensures Continues(rest, before, sink + k.defs, dsts + [k.to], d)
  {
    assert (sink + k.defs) + rest.defs == sink + (k.defs + rest.defs);
    assert (dsts + [k.to]) + rest.list == dsts + ([k.to] + rest.list);
  }

  class Builder {
    var sink: seq<Stmt>
    var ntmp: nat

    constructor ()
      ensures sink == [] && ntmp == 0
    {
      sink, ntmp := [], 0;
    }

    method Hold(e: Expr) returns (r: Expr)
      modifies this
      ensures var k := Snapshot(e, old(ntmp)); r == k.e && sink == old(sink) + k.defs && ntmp == k.next
    {
      if e.Const? { return e; }
      r := Temp(ntmp);
      sink := sink + [Def(ntmp, e)];
      ntmp := ntmp + 1;
    }

    method StabilizeParallel(p: Place) returns (r: Place)
      modifies this
      ensures var k := Stabilize(p, old(ntmp)); r == k.to && sink == old(sink) + k.defs && ntmp == k.next
      decreases p
    {
      match p
      case Var(_) => r := p;
      case Field(of, f) =>
        var x := StabilizeParallel(of);
        r := Field(x, f);
      case Elem(of, i) =>
        var x := StabilizeParallel(of);
        var y := Hold(i);
        r := Elem(x, y);
      case Deref(q) =>
        var x := Hold(q);
        r := Deref(x);
      case Index(base, i) =>
        var x := Hold(base);
        var y := Hold(i);
        r := Index(x, y);
    }

    method Destinations(lhs: seq<Place>) returns (dsts: seq<Place>)
      modifies this
      ensures var d := StabilizeAll(lhs, old(ntmp)); dsts == d.list && sink == old(sink) + d.defs && ntmp == d.next
    {
      dsts := [];
      ghost var d := StabilizeAll(lhs, ntmp);
      assert lhs[0..] == lhs;
      for i := 0 to |lhs|
        invariant Continues(StabilizeAll(lhs[i..], ntmp), old(sink), sink, dsts, d)
      {
        StabilizeNext(lhs, i, ntmp);
        ghost var k := Stabilize(lhs[i], ntmp);
        ContinuesNext(k, StabilizeAll(lhs[i + 1..], k.next), old(sink), sink, dsts, d);
        var x := StabilizeParallel(lhs[i]);
        dsts := dsts + [x];
      }
    }

    method Values(rhs: seq<Expr>) returns (srcs: seq<Expr>)
      modifies this
      ensures var d := SnapshotAll(rhs, old(ntmp)); srcs == d.list && sink == old(sink) + d.defs && ntmp == d.next
    {
      srcs := [];
      ghost var d := SnapshotAll(rhs, ntmp);
      for i := 0 to |rhs|
        invariant var rest := SnapshotAll(rhs[i..], ntmp);
                  sink + rest.defs == old(sink) + d.defs && srcs + rest.list == d.list && rest.next == d.next
      {
        assert rhs[i..][1..] == rhs[i + 1..];
        var x := Hold(rhs[i]);
        srcs := srcs + [x];
      }
    }

    /** An assignment of several values to as many destinations. */
    method Assign(lhs: seq<Place>, rhs: seq<Expr>)
      requires |lhs| == |rhs|
      modifies this
      ensures sink == old(sink) + Emitted(lhs, rhs, old(ntmp))
    {
      var dsts := Destinations(lhs);
      var srcs := Values(rhs);
      ghost var after := sink;
      for i := 0 to |lhs|
        invariant sink == after + Assigns(dsts, srcs)[..i]
      {
        sink := sink + [Stmt.Assign(dsts[i], srcs[i])];
      }
      assert Assigns(dsts, srcs)[..|lhs|] == Assigns(dsts, srcs);
    }
  }
}

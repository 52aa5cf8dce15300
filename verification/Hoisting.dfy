/** Calls and receives moved into temporaries in the order of evaluation (ir/build.go). */
module Hoisting {
  import opened Wrappers

  type Value = int

  /** A call or a receive with the values it was given. */
  datatype Event = Event(id: nat, args: seq<Value>)

  /** What names hold, what operations give, and what a call or a receive returns
      after the events before it. None is a panic. Calls write no variable. */
  datatype Machine = Machine(
    name: nat -> Value,
    op: (nat, seq<Value>) -> Option<Value>,
    effect: (nat, seq<Value>, seq<Event>) -> Option<Value>)

  /** Apply is an operation whose operands are operands: a unary, binary or
      comparison operator, an index, a dereference, a conversion, a slice. Select is
      one that is built around the expression itself: a field, an address. Effect is
      a call, with the callee as its first argument, or a receive. Both is `&&` or
      `||`. */
  datatype Expr =
    | Const(v: Value) | Name(id: nat) | Temp(n: nat)
    | Apply(id: nat, args: seq<Expr>)
    | Select(id: nat, of: Expr)
    | Effect(id: nat, args: seq<Expr>)
    | Both(isAnd: bool, x: Expr, y: Expr)

  /** The definition of a temporary. */
  datatype Def = Def(n: nat, e: Expr)

  type Temps = map<nat, Value>

  /** What an evaluation gives, or None where it panics, and the events until then. */
  datatype Out<T> = Out(val: Option<T>, log: seq<Event>)

  // ----- Evaluation from left to right -----

  function Eval(m: Machine, e: Expr, t: Temps, log: seq<Event>): Out<Value>
    decreases e, 0
  {
    match e
    case Const(v) => Out(Some(v), log)
    case Name(x) => Out(Some(m.name(x)), log)
    case Temp(n) => if n in t then Out(Some(t[n]), log) else Out(None, log)
    case Apply(id, args) =>
      var r := EvalAll(m, args, t, log);
      if r.val.None? then Out(None, r.log) else Out(m.op(id, r.val.value), r.log)
    case Select(id, of) =>
      var r := Eval(m, of, t, log);
      if r.val.None? then r else Out(m.op(id, [r.val.value]), r.log)
    case Effect(id, args) =>
      var r := EvalAll(m, args, t, log);
      if r.val.None? then Out(None, r.log)
      else
        var v := m.effect(id, r.val.value, r.log);
        if v.None? then Out(None, r.log) else Out(v, r.log + [Event(id, r.val.value)])
    case Both(isAnd, x, y) =>
      var r := Eval(m, x, t, log);
      if r.val.Some? && (r.val.value != 0) == isAnd then Eval(m, y, t, r.log) else r
  }

  function EvalAll(m: Machine, list: seq<Expr>, t: Temps, log: seq<Event>): Out<seq<Value>>
    decreases list, 1
  {
    if list == [] then Out(Some([]), log)
    else
      var r := Eval(m, list[0], t, log);
      if r.val.None? then Out(None, r.log)
      else
        var rest := EvalAll(m, list[1..], t, r.log);
        if rest.val.None? then rest else Out(Some([r.val.value] + rest.val.value), rest.log)
  }

  function Run(m: Machine, defs: seq<Def>, t: Temps, log: seq<Event>): Out<Temps> {
    if defs == [] then Out(Some(t), log)
    else
      var r := Eval(m, defs[0].e, t, log);
      if r.val.None? then Out(None, r.log) else Run(m, defs[1..], t[defs[0].n := r.val.value], r.log)
  }

  // ----- What the builder emits -----

  /** The definitions emitted, the expression that is left, and the next temporary. */
  datatype Built = Built(defs: seq<Def>, e: Expr, next: nat)

  datatype BuiltAll = BuiltAll(defs: seq<Def>, list: seq<Expr>, next: nat)

  function Build(e: Expr, n: nat): Built
    decreases e, 0
  {
    match e
    case Apply(id, args) =>
      var b := Operands(args, n);
      Built(b.defs, Apply(id, b.list), b.next)
    case Select(id, of) =>
      var b := Build(of, n);
      Built(b.defs, Select(id, b.e), b.next)
    case Effect(id, args) =>
      var b := Operands(args, n);
      Built(b.defs, Effect(id, b.list), b.next)
    case Both(isAnd, x, y) =>
      var b := Operand(x, n);
      Built(b.defs, Both(isAnd, b.e, y), b.next)
    case _ => Built([], e, n)
  }

  /** A call or a receive in the position of an operand becomes a temporary. */
  function Operand(e: Expr, n: nat): Built
    decreases e, 1
  {
    var b := Build(e, n);
    if b.e.Effect? then Built(b.defs + [Def(b.next, b.e)], Temp(b.next), b.next + 1) else b
  }

  function Operands(list: seq<Expr>, n: nat): BuiltAll
    decreases list, 2
  {
    if list == [] then BuiltAll([], [], n)
    else
      var b := Operand(list[0], n);
      var rest := Operands(list[1..], b.next);
      BuiltAll(b.defs + rest.defs, [b.e] + rest.list, rest.next)
  }

  // ----- Where the order is kept -----

  predicate HasEffect(e: Expr)
    decreases e, 0
  {
    match e
    case Apply(_, args) => SomeEffect(args)
    case Select(_, of) => HasEffect(of)
    case Effect(_, _) => true
    case Both(_, x, y) => HasEffect(x) || HasEffect(y)
    case _ => false
  }

  predicate SomeEffect(list: seq<Expr>)
    decreases list, 1
  {
    list != [] && (HasEffect(list[0]) || SomeEffect(list[1..]))
  }

  /** A call is left in what the builder makes of the operand: it stands under the
      right side of `&&` or `||`, or directly under a selection. */
  predicate Leaves(e: Expr)
    decreases e, 0
  {
    match e
    case Apply(_, args) => SomeLeaves(args)
    case Select(_, of) => of.Effect? || Leaves(of)
    case Effect(_, args) => false
    case Both(_, x, y) => Leaves(x) || HasEffect(y)
    case _ => false
  }

  predicate SomeLeaves(list: seq<Expr>)
    decreases list, 1
  {
    list != [] && (Leaves(list[0]) || SomeLeaves(list[1..]))
  }

  /** The builder emits nothing for the operand. */
  predicate Silent(e: Expr)
    decreases e, 0
  {
    match e
    case Apply(_, args) => AllSilent(args)
    case Select(_, of) => if of.Effect? then AllSilent(of.args) else Silent(of)
    case Effect(_, _) => false
    case Both(_, x, _) => Silent(x)
    case _ => true
  }

  predicate AllSilent(list: seq<Expr>)
    decreases list, 1
  {
    list == [] || (Silent(list[0]) && AllSilent(list[1..]))
  }

  /** Nothing is moved in front of a call that is left behind. */
  predicate Orderly(e: Expr)
    decreases e, 0
  {
    match e
    case Apply(_, args) => AllOrderly(args)
    case Select(_, of) => Orderly(of)
    case Effect(_, args) => AllOrderly(args)
    case Both(_, x, _) => Orderly(x)
    case _ => true
  }

  predicate AllOrderly(list: seq<Expr>)
    decreases list, 1
  {
    list == [] || (Orderly(list[0]) && AllOrderly(list[1..]) && (Leaves(list[0]) ==> AllSilent(list[1..])))
  }

  /** Neither `&&` nor `||` occurs, and no selection stands directly on a call. */
  predicate Plain(e: Expr)
    decreases e, 0
  {
    match e
    case Apply(_, args) => AllPlain(args)
    case Select(_, of) => !of.Effect? && Plain(of)
    case Effect(_, args) => AllPlain(args)
    case Both(_, _, _) => false
    case _ => true
  }

  predicate AllPlain(list: seq<Expr>)
    decreases list, 1
  {
    list == [] || (Plain(list[0]) && AllPlain(list[1..]))
  }

  /** The expression names no temporary from `n` on. */
  predicate Below(e: Expr, n: nat)
    decreases e, 0
  {
    match e
    case Temp(i) => i < n
    case Apply(_, args) => AllBelow(args, n)
    case Select(_, of) => Below(of, n)
    case Effect(_, args) => AllBelow(args, n)
    case Both(_, x, y) => Below(x, n) && Below(y, n)
    case _ => true
  }

  predicate AllBelow(list: seq<Expr>, n: nat)
    decreases list, 1
  {
    list == [] || (Below(list[0], n) && AllBelow(list[1..], n))
  }

  // ----- Temporaries -----

  ghost predicate Agree(t: Temps, t': Temps, n: nat) { forall i :: i < n ==> (i in t <==> i in t') && (i in t ==> t[i] == t'[i]) }

  lemma {:induction false} SameEval(m: Machine, e: Expr, t: Temps, t': Temps, n: nat, log: seq<Event>)
    requires Below(e, n) && Agree(t, t', n)
    ensures Eval(m, e, t, log) == Eval(m, e, t', log)
    decreases e, 0
  {
    match e
    case Apply(_, args) => SameEvalAll(m, args, t, t', n, log);
    case Select(_, of) => SameEval(m, of, t, t', n, log);
    case Effect(_, args) => SameEvalAll(m, args, t, t', n, log);
    case Both(_, x, y) =>
      SameEval(m, x, t, t', n, log);
      var r := Eval(m, x, t, log);
      if r.val.Some? { SameEval(m, y, t, t', n, r.log); }
    case _ =>
  }

  lemma {:induction false} SameEvalAll(m: Machine, list: seq<Expr>, t: Temps, t': Temps, n: nat, log: seq<Event>)
    requires AllBelow(list, n) && Agree(t, t', n)
    ensures EvalAll(m, list, t, log) == EvalAll(m, list, t', log)
    decreases list, 1
  {
    if list != [] {
      SameEval(m, list[0], t, t', n, log);
      var r := Eval(m, list[0], t, log);
      if r.val.Some? { SameEvalAll(m, list[1..], t, t', n, r.log); }
    }
  }

  /** Without a call or a receive an expression leaves the log as it is and does
      not depend on it. */
  lemma {:induction false} QuietEval(m: Machine, e: Expr, t: Temps, log: seq<Event>, log': seq<Event>)
    requires !HasEffect(e)
    ensures Eval(m, e, t, log').val == Eval(m, e, t, log).val && Eval(m, e, t, log').log == log'
    decreases e, 0
  {
    match e
    case Apply(_, args) => QuietEvalAll(m, args, t, log, log');
    case Select(_, of) => QuietEval(m, of, t, log, log');
    case Both(_, x, y) =>
      QuietEval(m, x, t, log, log');
      QuietEval(m, x, t, log, log);
      var v := Eval(m, x, t, log).val;
      if v.Some? && (v.value != 0) == e.isAnd { QuietEval(m, y, t, log, log'); }
    case _ =>
  }

  lemma {:induction false} QuietEvalAll(m: Machine, list: seq<Expr>, t: Temps, log: seq<Event>, log': seq<Event>)
    requires !SomeEffect(list)
    ensures EvalAll(m, list, t, log').val == EvalAll(m, list, t, log).val && EvalAll(m, list, t, log').log == log'
    decreases list, 1
  {
    if list != [] {
      QuietEval(m, list[0], t, log, log');
      QuietEval(m, list[0], t, log, log);
      QuietEvalAll(m, list[1..], t, log, log');
    }
  }

  /** No operator panics, and the first `n` temporaries are set. */
  ghost predicate Steady(m: Machine, t: Temps, n: nat) { (forall id, vs :: m.op(id, vs).Some?) && forall i :: 0 <= i < n ==> i in t }

  lemma {:induction false} SteadyEval(m: Machine, e: Expr, t: Temps, n: nat, log: seq<Event>)
    requires !HasEffect(e) && Below(e, n) && Steady(m, t, n)
    ensures Eval(m, e, t, log).val.Some?
    decreases e, 0
  {
    match e
    case Apply(_, args) => SteadyEvalAll(m, args, t, n, log);
    case Select(_, of) => SteadyEval(m, of, t, n, log);
    case Both(_, x, y) =>
      SteadyEval(m, x, t, n, log);
      SteadyEval(m, y, t, n, Eval(m, x, t, log).log);
    case _ =>
  }

  lemma {:induction false} SteadyEvalAll(m: Machine, list: seq<Expr>, t: Temps, n: nat, log: seq<Event>)
    requires !SomeEffect(list) && AllBelow(list, n) && Steady(m, t, n)
    ensures EvalAll(m, list, t, log).val.Some?
    decreases list, 1
  {
    if list != [] {
      SteadyEval(m, list[0], t, n, log);
      SteadyEvalAll(m, list[1..], t, n, Eval(m, list[0], t, log).log);
    }
  }

  lemma {:induction false} RunBoth(m: Machine, first: seq<Def>, second: seq<Def>, t: Temps, log: seq<Event>)
    ensures Run(m, first + second, t, log) ==
            var r := Run(m, first, t, log); if r.val.None? then r else Run(m, second, r.val.value, r.log)
  {
    if first == [] {
      assert first + second == second;
    } else {
      assert (first + second)[0] == first[0] && (first + second)[1..] == first[1..] + second;
      var r := Eval(m, first[0].e, t, log);
      if r.val.Some? { RunBoth(m, first[1..], second, t[first[0].n := r.val.value], r.log); }
    }
  }

  // ----- What the builder leaves -----

  lemma {:induction false} MoreBelow(e: Expr, n: nat, n': nat)
    requires Below(e, n) && n <= n'
    ensures Below(e, n')
    decreases e, 0
  {
    match e
    case Apply(_, args) => AllMoreBelow(args, n, n');
    case Select(_, of) => MoreBelow(of, n, n');
    case Effect(_, args) => AllMoreBelow(args, n, n');
    case Both(_, x, y) =>
      MoreBelow(x, n, n');
      MoreBelow(y, n, n');
    case _ =>
  }

  lemma {:induction false} AllMoreBelow(list: seq<Expr>, n: nat, n': nat)
    requires AllBelow(list, n) && n <= n'
    ensures AllBelow(list, n')
    decreases list, 1
  {
    if list != [] {
      MoreBelow(list[0], n, n');
      AllMoreBelow(list[1..], n, n');
    }
  }

  lemma {:induction false} BuiltBelow(e: Expr, n: nat)
    requires Below(e, n)
    ensures var b := Build(e, n); n <= b.next && Below(b.e, b.next)
    ensures var b := Operand(e, n); n <= b.next && Below(b.e, b.next)
    decreases e, 0
  {
    match e
    case Apply(_, args) => OperandsBelow(args, n);
    case Select(_, of) => BuiltBelow(of, n);
    case Effect(_, args) => OperandsBelow(args, n);
    case Both(_, x, y) =>
      BuiltBelow(x, n);
      MoreBelow(y, n, Operand(x, n).next);
    case _ =>
  }

  lemma {:induction false} OperandsBelow(list: seq<Expr>, n: nat)
    requires AllBelow(list, n)
    ensures var b := Operands(list, n); n <= b.next && AllBelow(b.list, b.next)
    decreases list, 1
  {
    if list != [] {
      BuiltBelow(list[0], n);
      var b := Operand(list[0], n);
      AllMoreBelow(list[1..], n, b.next);
      OperandsBelow(list[1..], b.next);
      var rest := Operands(list[1..], b.next);
      MoreBelow(b.e, b.next, rest.next);
      assert ([b.e] + rest.list)[1..] == rest.list;
    }
  }

  lemma SameKind(e: Expr, n: nat)
    ensures Build(e, n).e.Effect? <==> e.Effect?
  {
    match e
    case Apply(_, _) =>
    case _ =>
  }

  lemma {:induction false} SilentEmitsNothing(e: Expr, n: nat)
    requires Silent(e)
    ensures Operand(e, n).defs == [] && Operand(e, n).next == n && !Build(e, n).e.Effect?
    decreases e, 0
  {
    SameKind(e, n);
    match e
    case Apply(_, args) => AllSilentEmitsNothing(args, n);
    case Select(_, of) => if of.Effect? { AllSilentEmitsNothing(of.args, n); } else { SilentEmitsNothing(of, n); }
    case Both(_, x, _) => SilentEmitsNothing(x, n);
    case _ =>
  }

  lemma {:induction false} AllSilentEmitsNothing(list: seq<Expr>, n: nat)
    requires AllSilent(list)
    ensures Operands(list, n).defs == [] && Operands(list, n).next == n
    decreases list, 1
  {
    if list != [] {
      SilentEmitsNothing(list[0], n);
      AllSilentEmitsNothing(list[1..], n);
    }
  }

  lemma {:induction false} NothingLeft(e: Expr, n: nat)
    requires !Leaves(e)
    ensures !HasEffect(Operand(e, n).e)
    decreases e, 0
  {
    match e
    case Apply(_, args) => NothingLeftInAll(args, n);
    case Select(_, of) =>
      SameKind(of, n);
      NothingLeft(of, n);
    case Both(_, x, _) => NothingLeft(x, n);
    case _ =>
  }

  lemma {:induction false} NothingLeftInAll(list: seq<Expr>, n: nat)
    requires !SomeLeaves(list)
    ensures !SomeEffect(Operands(list, n).list)
    decreases list, 1
  {
    if list != [] {
      NothingLeft(list[0], n);
      var b := Operand(list[0], n);
      NothingLeftInAll(list[1..], b.next);
      var rest := Operands(list[1..], b.next);
      assert ([b.e] + rest.list)[1..] == rest.list;
    }
  }

  /** No call and no receive is an operand, but under a short circuit's right side. */
  predicate Moved(e: Expr)
    decreases e, 0
  {
    match e
    case Apply(_, args) => AllMoved(args)
    case Select(_, of) => Moved(of)
    case Effect(_, args) => AllMoved(args)
    case Both(_, x, _) => !x.Effect? && Moved(x)
    case Const(_) => true
    case Name(_) => true
    case Temp(_) => true
  }

  predicate AllMoved(list: seq<Expr>)
    decreases list, 1
  {
    forall i :: 0 <= i < |list| ==> !list[i].Effect? && Moved(list[i])
  }

  /** Each definition gives the next temporary one call or receive. */
  predicate Numbered(defs: seq<Def>, n: nat, next: nat) {
    next == n + |defs| && forall i :: 0 <= i < |defs| ==> defs[i].n == n + i && defs[i].e.Effect? && Moved(defs[i].e)
  }

  lemma NumberedBoth(first: seq<Def>, second: seq<Def>, n: nat, mid: nat, next: nat)
    requires Numbered(first, n, mid) && Numbered(second, mid, next)
    ensures Numbered(first + second, n, next)
  {
  }

  /** Every call and receive in the position of an operand is in a temporary of its
      own, in the order of their numbers, and nothing else is. */
  lemma {:induction false} BuildMoves(e: Expr, n: nat)
    ensures var b := Build(e, n); Numbered(b.defs, n, b.next) && Moved(b.e)
    decreases e, 0
  {
    match e
    case Apply(_, args) => OperandsMove(args, n);
    case Select(_, of) => BuildMoves(of, n);
    case Effect(_, args) => OperandsMove(args, n);
    case Both(_, x, _) => OperandMoves(x, n);
    case _ =>
  }

  lemma {:induction false} OperandMoves(e: Expr, n: nat)
    ensures var b := Operand(e, n); Numbered(b.defs, n, b.next) && !b.e.Effect? && Moved(b.e)
    decreases e, 1
  {
    BuildMoves(e, n);
    var b := Build(e, n);
    if b.e.Effect? { NumberedBoth(b.defs, [Def(b.next, b.e)], n, b.next, b.next + 1); }
  }

  lemma {:induction false} OperandsMove(list: seq<Expr>, n: nat)
    ensures var b := Operands(list, n); Numbered(b.defs, n, b.next) && AllMoved(b.list)
    decreases list, 2
  {
    if list != [] {
      OperandMoves(list[0], n);
      var b := Operand(list[0], n);
      OperandsMove(list[1..], b.next);
      var rest := Operands(list[1..], b.next);
      NumberedBoth(b.defs, rest.defs, n, b.next, rest.next);
    }
  }

  // ----- The order is kept -----

  /** What is emitted and then what is left gives the value and the events of the
      expression, or panics where it does, after the same events. */
  ghost predicate Means(m: Machine, e: Expr, n: nat, t: Temps, log: seq<Event>, b: Built) {
    var r := Run(m, b.defs, t, log);
    if r.val.None? then Eval(m, e, t, log) == Out(None, r.log)
    else Later(t, r.val.value, n, b.next) && Eval(m, b.e, r.val.value, r.log) == Eval(m, e, t, log)
  }

  ghost predicate AllMean(m: Machine, list: seq<Expr>, n: nat, t: Temps, log: seq<Event>, b: BuiltAll) {
    var r := Run(m, b.defs, t, log);
    if r.val.None? then EvalAll(m, list, t, log) == Out(None, r.log)
    else Later(t, r.val.value, n, b.next) && EvalAll(m, b.list, r.val.value, r.log) == EvalAll(m, list, t, log)
  }

  /** The temporaries below `n` are as before, and those up to `n'` are set. */
  ghost predicate Later(t: Temps, t': Temps, n: nat, n': nat) {
    Agree(t, t', n) && ((forall i :: 0 <= i < n ==> i in t) ==> forall i :: 0 <= i < n' ==> i in t')
  }

  /** Every expression that does not panic, and every other one too where only calls
      and receives can panic: an orderly one is built into what it means. */
  lemma {:induction false} BuildMeans(m: Machine, e: Expr, n: nat, t: Temps, log: seq<Event>)
    requires Orderly(e) && Below(e, n) && (Eval(m, e, t, log).val.Some? || Steady(m, t, n))
    ensures Means(m, e, n, t, log, Build(e, n))
    decreases e, 0
  {
    match e
    case Apply(_, args) => OperandsMean(m, args, n, t, log);
    case Select(_, of) => BuildMeans(m, of, n, t, log);
    case Effect(_, args) => OperandsMean(m, args, n, t, log);
    case Both(isAnd, x, y) =>
      OperandMeans(m, x, n, t, log);
      var r := Run(m, Operand(x, n).defs, t, log);
      var v := Eval(m, x, t, log);
      if r.val.Some? { SameEval(m, y, t, r.val.value, n, v.log); }
    case _ =>
  }

  /** Calls, receives, operators, indexing and dereference need no condition. */
  lemma PlainMeans(m: Machine, e: Expr, n: nat, t: Temps, log: seq<Event>)
    requires Plain(e) && Below(e, n) && (Eval(m, e, t, log).val.Some? || Steady(m, t, n))
    ensures Means(m, e, n, t, log, Build(e, n))
  {
    PlainIsOrderly(e);
    BuildMeans(m, e, n, t, log);
  }

  lemma {:induction false} PlainIsOrderly(e: Expr)
    requires Plain(e)
    ensures Orderly(e) && !Leaves(e)
    decreases e, 0
  {
    match e
    case Apply(_, args) => AllPlainIsOrderly(args);
    case Select(_, of) => PlainIsOrderly(of);
    case Effect(_, args) => AllPlainIsOrderly(args);
    case _ =>
  }

  lemma {:induction false} AllPlainIsOrderly(list: seq<Expr>)
    requires AllPlain(list)
    ensures AllOrderly(list) && !SomeLeaves(list)
    decreases list, 1
  {
    if list != [] {
      PlainIsOrderly(list[0]);
      AllPlainIsOrderly(list[1..]);
    }
  }

  lemma {:induction false} OperandMeans(m: Machine, e: Expr, n: nat, t: Temps, log: seq<Event>)
    requires Orderly(e) && Below(e, n) && (Eval(m, e, t, log).val.Some? || Steady(m, t, n))
    ensures Means(m, e, n, t, log, Operand(e, n))
    decreases e, 1
  {
    BuildMeans(m, e, n, t, log);
    BuiltBelow(e, n);
    var b := Build(e, n);
    if b.e.Effect? {
      RunBoth(m, b.defs, [Def(b.next, b.e)], t, log);
      var r := Run(m, b.defs, t, log);
      if r.val.Some? { RunOne(m, Def(b.next, b.e), r.val.value, r.log); }
    }
  }

  lemma RunOne(m: Machine, d: Def, t: Temps, log: seq<Event>)
    ensures Run(m, [d], t, log) ==
            var r := Eval(m, d.e, t, log); if r.val.None? then Out(None, r.log) else Out(Some(t[d.n := r.val.value]), r.log)
  {
    var list: seq<Def> := [d];
    var r := Eval(m, d.e, t, log);
    if r.val.Some? { assert Run(m, list[1..], t[d.n := r.val.value], r.log) == Out(Some(t[d.n := r.val.value]), r.log); }
  }

  lemma {:induction false} OperandsMean(m: Machine, list: seq<Expr>, n: nat, t: Temps, log: seq<Event>)
    requires AllOrderly(list) && AllBelow(list, n) && (EvalAll(m, list, t, log).val.Some? || Steady(m, t, n))
    ensures AllMean(m, list, n, t, log, Operands(list, n))
    decreases list, 2
  {
    if list != [] {
      var tail := list[1..];
      OperandMeans(m, list[0], n, t, log);
      BuiltBelow(list[0], n);
      var b := Operand(list[0], n);
      var rest := Operands(tail, b.next);
      RunBoth(m, b.defs, rest.defs, t, log);
      var all := [b.e] + rest.list;
      assert all[0] == b.e && all[1..] == rest.list;
      var r := Run(m, b.defs, t, log);
      if r.val.Some? {
        var t1, v := r.val.value, Eval(m, list[0], t, log);
        if v.val.None? {
          StaysBehind(m, list[0], n, t1, r.log);
          AllSilentEmitsNothing(tail, b.next);
        } else {
          AllMoreBelow(tail, n, b.next);
          SameEvalAll(m, tail, t, t1, n, v.log);
          OperandsMean(m, tail, b.next, t1, v.log);
          if Leaves(list[0]) {
            AllSilentEmitsNothing(tail, b.next);
          } else {
            MovesPast(m, list[0], n, t1, r.log, rest.defs);
          }
        }
      }
    }
  }

  /** What panics after the temporaries were set is a call that is left behind. */
  lemma StaysBehind(m: Machine, e: Expr, n: nat, t: Temps, log: seq<Event>)
    requires Below(e, n) && Steady(m, t, Operand(e, n).next) && Eval(m, Operand(e, n).e, t, log).val.None?
    ensures Leaves(e)
  {
    BuiltBelow(e, n);
    if !Leaves(e) {
      NothingLeft(e, n);
      SteadyEval(m, Operand(e, n).e, t, Operand(e, n).next, log);
    }
  }

  /** What is left of an operand without calls is the same behind later definitions. */
  lemma MovesPast(m: Machine, e: Expr, n: nat, t: Temps, log: seq<Event>, defs: seq<Def>)
    requires !Leaves(e) && Below(e, n)
    ensures var b, r := Operand(e, n), Run(m, defs, t, log);
            && Eval(m, b.e, t, log).log == log
            && (r.val.Some? && Agree(t, r.val.value, b.next) ==>
                  Eval(m, b.e, r.val.value, r.log) == Out(Eval(m, b.e, t, log).val, r.log))
  {
    NothingLeft(e, n);
    BuiltBelow(e, n);
    var b, r := Operand(e, n), Run(m, defs, t, log);
    QuietEval(m, b.e, t, log, log);
    if r.val.Some? && Agree(t, r.val.value, b.next) {
      SameEval(m, b.e, t, r.val.value, b.next, r.log);
      QuietEval(m, b.e, t, log, r.log);
    }
  }

  const PLAIN := Machine(_ => 0, (_, _) => Some(1), (_, _, _) => Some(1))

  /** A call that is left behind, then one that is moved. */
  function Late(first: Expr): Expr { Apply(0, [first, Effect(2, [])]) }

  lemma LateBuilt(first: Expr)
    requires Build(first, 0) == Built([], first, 0) && !first.Effect?
    ensures Build(Late(first), 0) == Built([Def(0, Effect(2, []))], Apply(0, [first, Temp(0)]), 1)
  {
    var list: seq<Expr> := [first, Effect(2, [])];
    assert list[1..] == [Effect(2, [])];
    assert Operand(Effect(2, []), 0) == Built([Def(0, Effect(2, []))], Temp(0), 1);
    assert Operands([Effect(2, [])], 0) == BuiltAll([Def(0, Effect(2, []))], [Temp(0)], 1);
    assert Operands(list, 0) == BuiltAll([Def(0, Effect(2, []))], [first, Temp(0)], 1);
  }

  lemma EvalTwo(m: Machine, x: Expr, y: Expr, t: Temps, log: seq<Event>)
    ensures EvalAll(m, [x, y], t, log) ==
            var r := Eval(m, x, t, log);
            if r.val.None? then Out(None, r.log)
            else
              var r' := Eval(m, y, t, r.log);
              if r'.val.None? then Out(None, r'.log) else Out(Some([r.val.value, r'.val.value]), r'.log)
  {
    var list: seq<Expr>, one: seq<Expr>, none: seq<Value> := [x, y], [y], [];
    assert list[1..] == one && one[1..] == [];
    var r := Eval(m, x, t, log);
    if r.val.Some? {
      var r' := Eval(m, y, t, r.log);
      if r'.val.Some? {
        assert EvalAll(m, one[1..], t, r'.log) == Out(Some(none), r'.log) && [r'.val.value] + none == [r'.val.value];
        assert [r.val.value] + [r'.val.value] == [r.val.value, r'.val.value];
      }
    }
  }

  lemma EvalFirst(first: Expr, id: nat, t: Temps, log: seq<Event>)
    requires first == Both(true, Const(1), Effect(id, [])) || first == Select(0, Effect(id, [])) || first == Effect(id, [])
    ensures Eval(PLAIN, first, t, log) == Out(Some(1), log + [Event(id, [])])
  {
    assert EvalAll(PLAIN, [], t, log) == Out(Some([]), log);
    assert PLAIN.effect(id, [], log) == Some(1) && PLAIN.op(0, [1]) == Some(1);
    assert Eval(PLAIN, Effect(id, []), t, log) == Out(Some(1), log + [Event(id, [])]);
    if first.Both? { assert Eval(PLAIN, first.x, t, log) == Out(Some(1), log); }
  }

  /** Where a call is left behind and a later operand is moved, the two are
      exchanged: `p && f() == g()` with parentheses about the `&&` calls g before f,
      and so does `f().x + g()`. HoistingExact shows that every tree with such a place
      fails. */
  lemma LeftBehind(first: Expr)
    requires first == Both(true, Const(1), Effect(1, [])) || first == Select(0, Effect(1, []))
    ensures !Orderly(Late(first))
    ensures Eval(PLAIN, Late(first), map[], []).log == [Event(1, []), Event(2, [])]
    ensures var b := Build(Late(first), 0);
            var r := Run(PLAIN, b.defs, map[], []);
            r.val.Some? && Eval(PLAIN, b.e, r.val.value, r.log).log == [Event(2, []), Event(1, [])]
  {
    LateBuilt(first);
    var g := Effect(2, []);
    EvalFirst(first, 1, map[], []);
    EvalFirst(g, 2, map[], [Event(1, [])]);
    EvalTwo(PLAIN, first, g, map[], []);
    EvalFirst(g, 2, map[], []);
    var t: Temps, none: seq<Event> := map[0 := 1], [];
    assert none + [Event(2, [])] == [Event(2, [])];
    RunOne(PLAIN, Def(0, g), map[], []);
    EvalFirst(first, 1, t, [Event(2, [])]);
    EvalTwo(PLAIN, first, Temp(0), t, [Event(2, [])]);
  }

  // ----- The builder -----

  class Builder {
    // The statements emitted so far, the number of temporaries, and the number of
    // contexts about this one that do not evaluate their operand exactly once.
    var sink: seq<Def>
    var ntmp: nat
    var noHoist: nat

    constructor ()
      ensures sink == [] && ntmp == 0 && noHoist == 0
    {
      sink, ntmp, noHoist := [], 0, 0;
    }

    /** A temporary that holds the expression. */
    method NewTemp(e: Expr) returns (r: Expr)
      modifies `sink, `ntmp
      ensures r == Temp(old(ntmp)) && sink == old(sink) + [Def(old(ntmp), e)] && ntmp == old(ntmp) + 1
    {
      r := Temp(ntmp);
      sink := sink + [Def(ntmp, e)];
      ntmp := ntmp + 1;
    }

    method Ordered(e: Expr) returns (r: Expr)
      modifies `sink, `ntmp
      ensures if noHoist == 0 && e.Effect?
              then r == Temp(old(ntmp)) && sink == old(sink) + [Def(old(ntmp), e)] && ntmp == old(ntmp) + 1
              else r == e && sink == old(sink) && ntmp == old(ntmp)
    {
      if noHoist > 0 || !e.Effect? { return e; }
      r := NewTemp(e);
    }

    /** What the method emits and gives back is what `b` says, or nothing and the
        expression itself where nothing may be moved. */
    twostate predicate Gives(b: Built, e: Expr, r: Expr)
      reads this
    {
      && noHoist == old(noHoist)
      && if noHoist == 0 then sink == old(sink) + b.defs && r == b.e && ntmp == b.next
         else sink == old(sink) && r == e && ntmp == old(ntmp)
    }

    method BuildExpr(e: Expr) returns (r: Expr)
      modifies this
      ensures Gives(Build(e, old(ntmp)), e, r)
      decreases e, 0
    {
      match e
      case Apply(id, args) =>
        var list := BuildOperands(args);
        r := Apply(id, list);
      case Select(id, of) =>
        var x := BuildExpr(of);
        r := Select(id, x);
      case Effect(id, args) =>
        var list := BuildOperands(args);
        r := Effect(id, list);
      case Both(isAnd, x, y) =>
        var x' := BuildOperand(x);
        var y' := Guarded(y);
        r := Both(isAnd, x', y');
      case _ => r := e;
    }

    method BuildOperand(e: Expr) returns (r: Expr)
      modifies this
      ensures Gives(Operand(e, old(ntmp)), e, r)
      decreases e, 1
    {
      var x := BuildExpr(e);
      r := Ordered(x);
    }

    /** An expression that is not evaluated unconditionally here: nothing is moved
        out of it. */
    method Guarded(e: Expr) returns (r: Expr)
      modifies this
      ensures r == e && sink == old(sink) && ntmp == old(ntmp) && noHoist == old(noHoist)
      decreases e, 1
    {
      noHoist := noHoist + 1;
      r := BuildExpr(e);
      noHoist := noHoist - 1;
    }

    method BuildOperands(list: seq<Expr>) returns (out: seq<Expr>)
      modifies this
      ensures noHoist == old(noHoist)
      ensures if noHoist == 0
              then var b := Operands(list, old(ntmp)); sink == old(sink) + b.defs && out == b.list && ntmp == b.next
              else sink == old(sink) && out == list && ntmp == old(ntmp)
      decreases list, 2
    {
      out := [];
      ghost var all := Operands(list, ntmp);
      for i := 0 to |list|
        invariant noHoist == old(noHoist) && |out| == i
        invariant noHoist > 0 ==> sink == old(sink) && out == list[..i] && ntmp == old(ntmp)
        invariant noHoist == 0 ==> var rest := Operands(list[i..], ntmp);
                    sink + rest.defs == old(sink) + all.defs && out + rest.list == all.list && rest.next == all.next
      {
        assert list[i..][1..] == list[i + 1..];
        var x := BuildOperand(list[i]);
        out := out + [x];
      }
    }
  }
}

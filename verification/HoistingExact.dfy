/** Hoisting keeps the order exactly where the tree is orderly (ir/build.go). */
module HoistingExact {
  import opened Wrappers
  import opened Hoisting

  // ----- The calls of a tree in the order of evaluation -----

  function Ids(e: Expr): seq<nat>
    decreases e, 0
  {
    match e
    case Apply(_, args) => IdsAll(args)
    case Select(_, of) => Ids(of)
    case Effect(id, args) => IdsAll(args) + [id]
    case Both(_, x, y) => Ids(x) + Ids(y)
    case _ => []
  }

  function IdsAll(list: seq<Expr>): seq<nat>
    decreases list, 1
  {
    if list == [] then [] else Ids(list[0]) + IdsAll(list[1..])
  }

  function IdsOf(defs: seq<Def>): seq<nat> {
    if defs == [] then [] else Ids(defs[0].e) + IdsOf(defs[1..])
  }

  /** The calls of what is built, in the order in which they come. */
  function BuiltIds(b: Built): seq<nat> { IdsOf(b.defs) + Ids(b.e) }

  function BuiltAllIds(b: BuiltAll): seq<nat> { IdsOf(b.defs) + IdsAll(b.list) }

  predicate Distinct(ids: seq<nat>) { forall i, j :: 0 <= i < j < |ids| ==> ids[i] != ids[j] }

  // ----- What a run performs -----

  function EventIds(log: seq<Event>): seq<nat> { seq(|log|, i requires 0 <= i < |log| => log[i].id) }

  /** From `log` to `log'` at most these calls were made, and all of them in this order
      if as many were made. */
  ghost predicate Performs(log: seq<Event>, log': seq<Event>, ids: seq<nat>) {
    && log <= log' && |log'| <= |log| + |ids|
    && (|log'| == |log| + |ids| ==> EventIds(log'[|log|..]) == ids)
  }

  lemma PerformsBoth(log: seq<Event>, log1: seq<Event>, log2: seq<Event>, first: seq<nat>, second: seq<nat>)
    requires Performs(log, log1, first) && Performs(log1, log2, second)
    ensures Performs(log, log2, first + second)
  {
    if |log2| == |log| + |first + second| {
      assert log2[|log|..] == log1[|log|..] + log2[|log1|..];
      assert EventIds(log2[|log|..]) == EventIds(log1[|log|..]) + EventIds(log2[|log1|..]);
    }
  }

  lemma PerformsFewer(log: seq<Event>, log': seq<Event>, first: seq<nat>, second: seq<nat>)
    requires Performs(log, log', first)
    ensures Performs(log, log', first + second)
  {
    if second == [] { assert first + second == first; }
  }

  lemma {:induction false} EvalPerforms(m: Machine, e: Expr, t: Temps, log: seq<Event>)
    ensures Performs(log, Eval(m, e, t, log).log, Ids(e))
    decreases e, 0
  {
    match e
    case Apply(_, args) => EvalAllPerforms(m, args, t, log);
    case Select(_, of) => EvalPerforms(m, of, t, log);
    case Effect(id, args) =>
      EvalAllPerforms(m, args, t, log);
      var r := EvalAll(m, args, t, log);
      PerformsFewer(log, r.log, IdsAll(args), [id]);
      if r.val.Some? {
        var log1 := r.log + [Event(id, r.val.value)];
        assert log1[|r.log|..] == [Event(id, r.val.value)];
        PerformsBoth(log, r.log, log1, IdsAll(args), [id]);
      }
    case Both(_, x, y) =>
      EvalPerforms(m, x, t, log);
      var r := Eval(m, x, t, log);
      PerformsFewer(log, r.log, Ids(x), Ids(y));
      EvalPerforms(m, y, t, r.log);
      PerformsBoth(log, r.log, Eval(m, y, t, r.log).log, Ids(x), Ids(y));
    case _ => assert EventIds(log[|log|..]) == [];
  }

  lemma {:induction false} EvalAllPerforms(m: Machine, list: seq<Expr>, t: Temps, log: seq<Event>)
    ensures Performs(log, EvalAll(m, list, t, log).log, IdsAll(list))
    decreases list, 1
  {
    if list == [] {
      assert EventIds(log[|log|..]) == [];
    } else {
      EvalPerforms(m, list[0], t, log);
      var r := Eval(m, list[0], t, log);
      PerformsFewer(log, r.log, Ids(list[0]), IdsAll(list[1..]));
      EvalAllPerforms(m, list[1..], t, r.log);
      PerformsBoth(log, r.log, EvalAll(m, list[1..], t, r.log).log, Ids(list[0]), IdsAll(list[1..]));
    }
  }

  lemma {:induction false} RunPerforms(m: Machine, defs: seq<Def>, t: Temps, log: seq<Event>)
    ensures Performs(log, Run(m, defs, t, log).log, IdsOf(defs))
  {
    if defs == [] {
      assert EventIds(log[|log|..]) == [];
    } else {
      EvalPerforms(m, defs[0].e, t, log);
      var r := Eval(m, defs[0].e, t, log);
      PerformsFewer(log, r.log, Ids(defs[0].e), IdsOf(defs[1..]));
      if r.val.Some? {
        var t1 := t[defs[0].n := r.val.value];
        RunPerforms(m, defs[1..], t1, r.log);
        PerformsBoth(log, r.log, Run(m, defs[1..], t1, r.log).log, Ids(defs[0].e), IdsOf(defs[1..]));
      }
    }
  }

  // ----- What is built has the same calls -----

  lemma {:induction false} IdsOfBoth(first: seq<Def>, second: seq<Def>)
    ensures IdsOf(first + second) == IdsOf(first) + IdsOf(second)
  {
    if first == [] {
      assert first + second == second;
    } else {
      assert (first + second)[1..] == first[1..] + second;
      IdsOfBoth(first[1..], second);
    }
  }

  lemma IdsOfOne(d: Def)
    ensures IdsOf([d]) == Ids(d.e)
  {
    var list: seq<Def> := [d];
    assert IdsOf(list[1..]) == [];
  }

  lemma EffectIds(id: nat, args: seq<Expr>, n: nat)
    ensures BuiltIds(Build(Effect(id, args), n)) == BuiltAllIds(Operands(args, n)) + [id]
  {
    var b := Operands(args, n);
    assert Build(Effect(id, args), n).e == Effect(id, b.list);
    assert IdsOf(b.defs) + (IdsAll(b.list) + [id]) == BuiltAllIds(b) + [id];
  }

  lemma BothIds(isAnd: bool, x: Expr, y: Expr, n: nat)
    ensures BuiltIds(Build(Both(isAnd, x, y), n)) == BuiltIds(Operand(x, n)) + Ids(y)
  {
    var b := Operand(x, n);
    assert Build(Both(isAnd, x, y), n).e == Both(isAnd, b.e, y);
    assert IdsOf(b.defs) + (Ids(b.e) + Ids(y)) == BuiltIds(b) + Ids(y);
  }

  lemma BothCalls(built: seq<nat>, ids: seq<nat>, more: seq<nat>)
    requires multiset(built) == multiset(ids)
    ensures multiset(built + more) == multiset(ids + more)
  {
  }

  lemma {:induction false} BuildCalls(e: Expr, n: nat)
    ensures multiset(BuiltIds(Build(e, n))) == multiset(Ids(e))
    decreases e, 0
  {
    match e
    case Apply(_, args) => OperandsCall(args, n);
    case Select(_, of) => BuildCalls(of, n);
    case Effect(id, args) =>
      OperandsCall(args, n);
      EffectIds(id, args, n);
      BothCalls(BuiltAllIds(Operands(args, n)), IdsAll(args), [id]);
    case Both(isAnd, x, y) =>
      OperandCalls(x, n);
      BothIds(isAnd, x, y, n);
      BothCalls(BuiltIds(Operand(x, n)), Ids(x), Ids(y));
    case _ =>
  }

  lemma OperandIds(e: Expr, n: nat)
    ensures BuiltIds(Operand(e, n)) == BuiltIds(Build(e, n))
  {
    var b := Build(e, n);
    if b.e.Effect? {
      IdsOfBoth(b.defs, [Def(b.next, b.e)]);
      IdsOfOne(Def(b.next, b.e));
    }
  }

  lemma {:induction false} OperandCalls(e: Expr, n: nat)
    ensures multiset(BuiltIds(Operand(e, n))) == multiset(Ids(e))
    decreases e, 1
  {
    BuildCalls(e, n);
    OperandIds(e, n);
  }

  lemma {:induction false} OperandsCall(list: seq<Expr>, n: nat)
    ensures multiset(BuiltAllIds(Operands(list, n))) == multiset(IdsAll(list))
    decreases list, 2
  {
    if list != [] {
      OperandCalls(list[0], n);
      var b := Operand(list[0], n);
      OperandsCall(list[1..], b.next);
      var rest := Operands(list[1..], b.next);
      OperandsIds(list, n);
      assert multiset(IdsOf(b.defs) + IdsOf(rest.defs) + (Ids(b.e) + IdsAll(rest.list)))
             == multiset(BuiltIds(b)) + multiset(BuiltAllIds(rest));
    }
  }

  lemma OperandsIds(list: seq<Expr>, n: nat)
    requires list != []
    ensures var b := Operand(list[0], n);
            var rest := Operands(list[1..], b.next);
            && IdsOf(Operands(list, n).defs) == IdsOf(b.defs) + IdsOf(rest.defs)
            && IdsAll(Operands(list, n).list) == Ids(b.e) + IdsAll(rest.list)
  {
    var b := Operand(list[0], n);
    var rest := Operands(list[1..], b.next);
    IdsOfBoth(b.defs, rest.defs);
    assert ([b.e] + rest.list)[1..] == rest.list;
  }

  // ----- What is left, and what is moved -----

  lemma {:induction false} EffectHasIds(e: Expr)
    requires HasEffect(e)
    ensures Ids(e) != []
    decreases e, 0
  {
    match e
    case Apply(_, args) => SomeEffectHasIds(args);
    case Select(_, of) => EffectHasIds(of);
    case Both(_, x, y) => if HasEffect(x) { EffectHasIds(x); } else { EffectHasIds(y); }
    case _ =>
  }

  lemma {:induction false} SomeEffectHasIds(list: seq<Expr>)
    requires SomeEffect(list)
    ensures IdsAll(list) != []
    decreases list, 1
  {
    if HasEffect(list[0]) { EffectHasIds(list[0]); } else { SomeEffectHasIds(list[1..]); }
  }

  lemma {:induction false} LeavesIds(e: Expr, n: nat)
    requires Leaves(e)
    ensures Ids(Operand(e, n).e) != []
    decreases e, 0
  {
    SameKind(e, n);
    match e
    case Apply(_, args) => SomeLeavesIds(args, n);
    case Select(_, of) =>
      SameKind(of, n);
      if !of.Effect? { LeavesIds(of, n); }
    case Both(_, x, y) => if Leaves(x) { LeavesIds(x, n); } else { EffectHasIds(y); }
    case _ =>
  }

  lemma {:induction false} SomeLeavesIds(list: seq<Expr>, n: nat)
    requires SomeLeaves(list)
    ensures IdsAll(Operands(list, n).list) != []
    decreases list, 1
  {
    OperandsIds(list, n);
    if Leaves(list[0]) { LeavesIds(list[0], n); } else { SomeLeavesIds(list[1..], Operand(list[0], n).next); }
  }

  lemma {:induction false} NotSilentIds(e: Expr, n: nat)
    requires !Silent(e)
    ensures IdsOf(Operand(e, n).defs) != []
    decreases e, 0
  {
    SameKind(e, n);
    match e
    case Apply(_, args) => NotAllSilentIds(args, n);
    case Select(_, of) =>
      SameKind(of, n);
      if of.Effect? { NotAllSilentIds(of.args, n); } else { NotSilentIds(of, n); }
    case Effect(_, _) =>
      var b := Build(e, n);
      IdsOfBoth(b.defs, [Def(b.next, b.e)]);
      IdsOfOne(Def(b.next, b.e));
    case Both(_, x, _) => NotSilentIds(x, n);
    case _ =>
  }

  lemma {:induction false} NotAllSilentIds(list: seq<Expr>, n: nat)
    requires !AllSilent(list)
    ensures IdsOf(Operands(list, n).defs) != []
    decreases list, 1
  {
    OperandsIds(list, n);
    if !Silent(list[0]) { NotSilentIds(list[0], n); } else { NotAllSilentIds(list[1..], Operand(list[0], n).next); }
  }

  // ----- Built in order -----

  lemma DistinctPart(first: seq<nat>, second: seq<nat>)
    requires Distinct(first + second)
    ensures Distinct(first) && Distinct(second) && forall x <- first :: x !in second
  {
    var all := first + second;
    forall i, j | 0 <= i < j < |first| ensures first[i] != first[j] { assert all[i] == first[i] && all[j] == first[j]; }
    forall i, j | 0 <= i < j < |second| ensures second[i] != second[j] {
      assert all[|first| + i] == second[i] && all[|first| + j] == second[j];
    }
    forall i, j | 0 <= i < |first| && 0 <= j < |second| ensures first[i] != second[j] {
      assert all[i] == first[i] && all[|first| + j] == second[j];
    }
  }

  lemma MovedInFront(a: seq<nat>, l: seq<nat>, d: seq<nat>, r: seq<nat>, first: seq<nat>, second: seq<nat>)
    requires a + d + (l + r) == first + second && l != [] && d != []
    requires multiset(a + l) == multiset(first) && multiset(d + r) == multiset(second)
    ensures d[0] in first && d[0] in second
  {
    assert |multiset(a + l)| == |a| + |l| && |multiset(first)| == |first|;
    assert (a + d + (l + r))[|a|] == d[0] && (first + second)[|a|] == first[|a|];
    assert d[0] == (d + r)[0] && d[0] in multiset(d + r);
  }

  /** Two parts of which the second may begin inside the first only if the first left
      nothing or the second moves nothing. */
  lemma Interleaved(a: seq<nat>, l: seq<nat>, d: seq<nat>, r: seq<nat>, first: seq<nat>, second: seq<nat>)
    requires a + d + (l + r) == first + second && Distinct(first + second)
    requires multiset(a + l) == multiset(first) && multiset(d + r) == multiset(second)
    ensures (l == [] || d == []) && a + l == first && d + r == second
  {
    DistinctPart(first, second);
    assert |multiset(a + l)| == |a| + |l| && |multiset(first)| == |first|;
    var all := first + second;
    if l != [] && d != [] {
      MovedInFront(a, l, d, r, first, second);
      assert false;
    }
    assert all[..|first|] == first && all[|first|..] == second;
    if d == [] {
      assert all == (a + l) + r && all[..|a + l|] == a + l && d + r == r;
    } else {
      assert all == a + (d + r) && all[..|a|] == a && a + l == a;
    }
  }

  lemma {:induction false} InOrder(e: Expr, n: nat)
    requires Distinct(Ids(e)) && BuiltIds(Build(e, n)) == Ids(e)
    ensures Orderly(e)
    decreases e, 0
  {
    match e
    case Apply(_, args) => AllInOrder(args, n);
    case Select(_, of) => InOrder(of, n);
    case Effect(id, args) =>
      var b := Operands(args, n);
      EffectIds(id, args, n);
      assert BuiltAllIds(b) == Ids(e)[..|IdsAll(args)|] && IdsAll(args) == Ids(e)[..|IdsAll(args)|] by {
        assert |BuiltAllIds(b)| == |IdsAll(args)|;
      }
      DistinctPart(IdsAll(args), [id]);
      AllInOrder(args, n);
    case Both(isAnd, x, y) =>
      OperandIds(x, n);
      BothIds(isAnd, x, y, n);
      assert BuiltIds(Operand(x, n)) == Ids(e)[..|Ids(x)|] && Ids(x) == Ids(e)[..|Ids(x)|] by {
        assert |BuiltIds(Operand(x, n))| == |Ids(x)|;
      }
      DistinctPart(Ids(x), Ids(y));
      InOrder(x, n);
    case _ =>
  }

  lemma {:induction false} AllInOrder(list: seq<Expr>, n: nat)
    requires Distinct(IdsAll(list)) && BuiltAllIds(Operands(list, n)) == IdsAll(list)
    ensures AllOrderly(list)
    decreases list, 1
  {
    if list != [] {
      var b := Operand(list[0], n);
      var rest := Operands(list[1..], b.next);
      OperandsIds(list, n);
      OperandCalls(list[0], n);
      OperandsCall(list[1..], b.next);
      Interleaved(IdsOf(b.defs), Ids(b.e), IdsOf(rest.defs), IdsAll(rest.list), Ids(list[0]), IdsAll(list[1..]));
      DistinctPart(Ids(list[0]), IdsAll(list[1..]));
      OperandIds(list[0], n);
      InOrder(list[0], n);
      AllInOrder(list[1..], b.next);
      if Leaves(list[0]) {
        LeavesIds(list[0], n);
        if !AllSilent(list[1..]) { NotAllSilentIds(list[1..], b.next); }
      }
    }
  }

  // ----- The exact condition -----

  /** What is built means the expression, whatever the machine and wherever it is run. */
  ghost predicate AlwaysMeans(e: Expr, n: nat) {
    forall m: Machine, t, log :: Eval(m, e, t, log).val.Some? ==> Means(m, e, n, t, log, Build(e, n))
  }

  /** Where calls can be told apart and some evaluation makes all of them, the order is
      kept exactly if the tree is orderly. */
  lemma ExactlyOrderly(e: Expr, n: nat, m: Machine, t: Temps, log: seq<Event>)
    requires Below(e, n) && Distinct(Ids(e))
    requires Eval(m, e, t, log).val.Some? && |Eval(m, e, t, log).log| == |log| + |Ids(e)|
    ensures AlwaysMeans(e, n) <==> Orderly(e)
  {
    if Orderly(e) {
      forall m': Machine, t', log' | Eval(m', e, t', log').val.Some? { BuildMeans(m', e, n, t', log'); }
    }
    if AlwaysMeans(e, n) {
      var b := Build(e, n);
      assert Means(m, e, n, t, log, b);
      var r := Run(m, b.defs, t, log);
      var log2 := Eval(m, b.e, r.val.value, r.log).log;
      EvalPerforms(m, e, t, log);
      RunPerforms(m, b.defs, t, log);
      EvalPerforms(m, b.e, r.val.value, r.log);
      PerformsBoth(log, r.log, log2, IdsOf(b.defs), Ids(b.e));
      BuildCalls(e, n);
      assert |multiset(BuiltIds(b))| == |BuiltIds(b)| && |multiset(Ids(e))| == |Ids(e)|;
      InOrder(e, n);
    }
  }

  // ----- Trees of which some evaluation makes all the calls -----

  /** Truth values for names, operators and calls. */
  datatype Wants = Wants(yes: set<Decider>)

  datatype Decider = NameOf(id: nat) | OpOf(id: nat) | CallOf(id: nat) | Fixed

  function Steered(w: Wants): Machine {
    Machine((x: nat) => if NameOf(x) in w.yes then 1 else 0,
            (id: nat, _) => Some(if OpOf(id) in w.yes then 1 else 0),
            (id: nat, _, _) => Some(if CallOf(id) in w.yes then 1 else 0))
  }

  /** What decides the truth of an expression. */
  function Root(e: Expr): Decider {
    match e
    case Name(x) => NameOf(x)
    case Apply(id, _) => OpOf(id)
    case Select(id, _) => OpOf(id)
    case Effect(id, _) => CallOf(id)
    case Both(_, _, y) => Root(y)
    case _ => Fixed
  }

  /** Each left operand of `&&` is true and each of `||` false. */
  predicate Goes(w: Wants, e: Expr)
    decreases e, 0
  {
    match e
    case Apply(_, args) => AllGo(w, args)
    case Select(_, of) => Goes(w, of)
    case Effect(_, args) => AllGo(w, args)
    case Both(isAnd, x, y) => Root(x) != Fixed && (Root(x) in w.yes <==> isAnd) && Goes(w, x) && Goes(w, y)
    case _ => true
  }

  predicate AllGo(w: Wants, list: seq<Expr>)
    decreases list, 1
  {
    list == [] || (Goes(w, list[0]) && AllGo(w, list[1..]))
  }

  lemma {:induction false} GoesEverywhere(w: Wants, e: Expr, t: Temps, n: nat, log: seq<Event>)
    requires Goes(w, e) && Below(e, n) && forall i :: 0 <= i < n ==> i in t
    ensures var r := Eval(Steered(w), e, t, log);
            && r.val.Some? && |r.log| == |log| + |Ids(e)|
            && (Root(e) != Fixed ==> (r.val.value != 0 <==> Root(e) in w.yes))
    decreases e, 0
  {
    match e
    case Apply(_, args) => AllGoEverywhere(w, args, t, n, log);
    case Select(_, of) => GoesEverywhere(w, of, t, n, log);
    case Effect(_, args) => AllGoEverywhere(w, args, t, n, log);
    case Both(_, x, y) =>
      GoesEverywhere(w, x, t, n, log);
      GoesEverywhere(w, y, t, n, Eval(Steered(w), x, t, log).log);
    case _ =>
  }

  lemma {:induction false} AllGoEverywhere(w: Wants, list: seq<Expr>, t: Temps, n: nat, log: seq<Event>)
    requires AllGo(w, list) && AllBelow(list, n) && forall i :: 0 <= i < n ==> i in t
    ensures var r := EvalAll(Steered(w), list, t, log); r.val.Some? && |r.log| == |log| + |IdsAll(list)|
    decreases list, 1
  {
    if list != [] {
      GoesEverywhere(w, list[0], t, n, log);
      AllGoEverywhere(w, list[1..], t, n, Eval(Steered(w), list[0], t, log).log);
    }
  }

  function Ones(n: nat): (t: Temps)
    ensures forall i :: 0 <= i < n ==> i in t
  {
    if n == 0 then map[] else Ones(n - 1)[n - 1 := 1]
  }

  /** With `&&` and `||` whose left operands can be made to go on. */
  lemma GuardedExactly(w: Wants, e: Expr, n: nat)
    requires Goes(w, e) && Below(e, n) && Distinct(Ids(e))
    ensures AlwaysMeans(e, n) <==> Orderly(e)
  {
    GoesEverywhere(w, e, Ones(n), n, []);
    ExactlyOrderly(e, n, Steered(w), Ones(n), []);
  }

  // ----- Left operands that can go either way -----

  /** What decides the left operands. */
  function Deciders(e: Expr): seq<Decider>
    decreases e, 0
  {
    match e
    case Apply(_, args) => AllDeciders(args)
    case Select(_, of) => Deciders(of)
    case Effect(_, args) => AllDeciders(args)
    case Both(_, x, y) => [Root(x)] + Deciders(x) + Deciders(y)
    case _ => []
  }

  function AllDeciders(list: seq<Expr>): seq<Decider>
    decreases list, 1
  {
    if list == [] then [] else Deciders(list[0]) + AllDeciders(list[1..])
  }

  /** Each left operand is decided by a name, an operator or a call of its own. */
  predicate EitherWay(e: Expr) { Unique(Deciders(e)) }

  predicate Unique(ds: seq<Decider>) { Fixed !in ds && forall i, j :: 0 <= i < j < |ds| ==> ds[i] != ds[j] }

  /** The deciders of the left operands of `&&`. */
  function Yes(e: Expr): set<Decider>
    decreases e, 0
  {
    match e
    case Apply(_, args) => AllYes(args)
    case Select(_, of) => Yes(of)
    case Effect(_, args) => AllYes(args)
    case Both(isAnd, x, y) => (if isAnd then {Root(x)} else {}) + Yes(x) + Yes(y)
    case _ => {}
  }

  function AllYes(list: seq<Expr>): set<Decider>
    decreases list, 1
  {
    if list == [] then {} else Yes(list[0]) + AllYes(list[1..])
  }

  lemma UniqueParts(first: seq<Decider>, second: seq<Decider>)
    requires Unique(first + second)
    ensures Unique(first) && Unique(second) && forall d <- first :: d !in second
  {
    var all := first + second;
    assert forall i :: 0 <= i < |first| ==> all[i] == first[i];
    forall d <- second ensures d in all { }
    forall i, j | 0 <= i < j < |second| ensures second[i] != second[j] { assert all[|first| + i] != all[|first| + j]; }
    forall d <- first ensures d !in second {
      var i :| 0 <= i < |first| && first[i] == d;
      forall j | 0 <= j < |second| ensures second[j] != d { assert all[i] != all[|first| + j]; }
    }
  }

  lemma {:induction false} YesAreDeciders(e: Expr, d: Decider)
    requires d in Yes(e)
    ensures d in Deciders(e)
    decreases e, 0
  {
    match e
    case Apply(_, args) => AllYesAreDeciders(args, d);
    case Select(_, of) => YesAreDeciders(of, d);
    case Effect(_, args) => AllYesAreDeciders(args, d);
    case Both(_, x, y) => if d in Yes(x) { YesAreDeciders(x, d); } else if d in Yes(y) { YesAreDeciders(y, d); }
    case _ =>
  }

  lemma {:induction false} AllYesAreDeciders(list: seq<Expr>, d: Decider)
    requires d in AllYes(list)
    ensures d in AllDeciders(list)
    decreases list, 1
  {
    if d in Yes(list[0]) { YesAreDeciders(list[0], d); } else { AllYesAreDeciders(list[1..], d); }
  }

  /** Wants that agree with the tree's on the tree's own deciders send it everywhere. */
  lemma {:induction false} EitherWayGoes(w: Wants, e: Expr)
    requires Unique(Deciders(e)) && forall d <- Deciders(e) :: d in w.yes <==> d in Yes(e)
    ensures Goes(w, e)
    decreases e, 0
  {
    match e
    case Apply(_, args) => AllEitherWayGo(w, args);
    case Select(_, of) => EitherWayGoes(w, of);
    case Effect(_, args) => AllEitherWayGo(w, args);
    case Both(isAnd, x, y) =>
      UniqueParts([Root(x)] + Deciders(x), Deciders(y));
      UniqueParts([Root(x)], Deciders(x));
      assert Root(x) in [Root(x)] + Deciders(x);
      forall d | d in Yes(x) ensures d in Deciders(x) { YesAreDeciders(x, d); }
      forall d | d in Yes(y) ensures d in Deciders(y) { YesAreDeciders(y, d); }
      assert Root(x) in [Root(x)];
      assert forall d <- Deciders(x) :: d in [Root(x)] + Deciders(x);
      EitherWayGoes(w, x);
      EitherWayGoes(w, y);
    case _ =>
  }

  lemma {:induction false} AllEitherWayGo(w: Wants, list: seq<Expr>)
    requires Unique(AllDeciders(list)) && forall d <- AllDeciders(list) :: d in w.yes <==> d in AllYes(list)
    ensures AllGo(w, list)
    decreases list, 1
  {
    if list != [] {
      UniqueParts(Deciders(list[0]), AllDeciders(list[1..]));
      forall d | d in Yes(list[0]) ensures d in Deciders(list[0]) { YesAreDeciders(list[0], d); }
      forall d | d in AllYes(list[1..]) ensures d in AllDeciders(list[1..]) { AllYesAreDeciders(list[1..], d); }
      EitherWayGoes(w, list[0]);
      AllEitherWayGo(w, list[1..]);
    }
  }

  /** For trees whose calls can be told apart and whose left operands can go either way,
      and so for every tree without `&&` and `||`: hoisting keeps the meaning on every
      machine if and only if the tree is orderly. */
  lemma OrderlyIsExact(e: Expr, n: nat)
    requires Below(e, n) && Distinct(Ids(e)) && EitherWay(e)
    ensures AlwaysMeans(e, n) <==> Orderly(e)
  {
    EitherWayGoes(Wants(Yes(e)), e);
    GuardedExactly(Wants(Yes(e)), e, n);
  }

  predicate NoGuard(e: Expr)
    decreases e, 0
  {
    match e
    case Apply(_, args) => NoGuards(args)
    case Select(_, of) => NoGuard(of)
    case Effect(_, args) => NoGuards(args)
    case Both(_, _, _) => false
    case _ => true
  }

  predicate NoGuards(list: seq<Expr>)
    decreases list, 1
  {
    list == [] || (NoGuard(list[0]) && NoGuards(list[1..]))
  }

  lemma {:induction false} NoGuardNoDeciders(e: Expr)
    requires NoGuard(e)
    ensures Deciders(e) == []
    decreases e, 0
  {
    match e
    case Apply(_, args) => NoGuardsNoDeciders(args);
    case Select(_, of) => NoGuardNoDeciders(of);
    case Effect(_, args) => NoGuardsNoDeciders(args);
    case _ =>
  }

  lemma {:induction false} NoGuardsNoDeciders(list: seq<Expr>)
    requires NoGuards(list)
    ensures AllDeciders(list) == []
    decreases list, 1
  {
    if list != [] {
      NoGuardNoDeciders(list[0]);
      NoGuardsNoDeciders(list[1..]);
    }
  }

  lemma UnguardedExactly(e: Expr, n: nat)
    requires Below(e, n) && Distinct(Ids(e)) && NoGuard(e)
    ensures AlwaysMeans(e, n) <==> Orderly(e)
  {
    NoGuardNoDeciders(e);
    OrderlyIsExact(e, n);
  }
}

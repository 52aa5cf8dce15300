/** The type descriptors an object owes (driver/types.go). */
module Descriptors {
  import opened Wrappers

  /** A type of one converter. Two converters have two for one Go type. */
  type Type = nat

  /** The canonical symbol, whether the runtime owns the descriptor, and the types the
      descriptor names. None where one cannot be had. */
  datatype Info = Info(symbol: Option<string>, owned: bool, encodable: bool, refs: Option<seq<Type>>)

  type World = map<Type, Info>

  /** The symbol of a type that a descriptor can be written for. */
  function Symbol(w: World, t: Type): Option<string> { if t in w then w[t].symbol else None }

  predicate Owned(w: World, t: Type) { t in w && w[t].owned }

  predicate Writable(w: World, t: Type) { Symbol(w, t).Some? && w[t].encodable && w[t].refs.Some? }

  function Refs(w: World, t: Type): seq<Type>
    requires Writable(w, t)
  {
    w[t].refs.value
  }

  /** Two types with one symbol are one type: they are owned alike and name the same
      symbols. */
  ghost predicate Canonical(w: World) {
    forall t, u :: t in w && u in w && Symbol(w, t).Some? && Symbol(w, t) == Symbol(w, u) ==>
      Owned(w, t) == Owned(w, u) && Writable(w, t) == Writable(w, u)
      && (Writable(w, t) ==> Alike(w, Refs(w, t), Refs(w, u)))
  }

  ghost predicate Alike(w: World, ts: seq<Type>, us: seq<Type>) {
    |ts| == |us| && forall i :: 0 <= i < |ts| ==> Symbol(w, ts[i]) == Symbol(w, us[i]) && Owned(w, ts[i]) == Owned(w, us[i])
  }

  // ----- The order of first use -----

  datatype Item = Item(t: Type, root: bool)

  function Symbols(w: World, list: seq<Type>): set<Option<string>> { set t | t in list :: Symbol(w, t) }

  function AllSymbols(w: World): set<Option<string>> { set t | t in w :: Symbol(w, t) }

  predicate Skipped(w: World, i: Item, out: seq<Type>) {
    (!i.root && Owned(w, i.t)) || (Symbol(w, i.t).Some? && Symbol(w, i.t) in Symbols(w, out))
  }

  function Items(list: seq<Type>, root: bool): seq<Item> { seq(|list|, i requires 0 <= i < |list| => Item(list[i], root)) }

  /** The types that are added to `out` for the items of a stack, or None where one
      cannot be written. */
  function Visit(w: World, stack: seq<Item>, out: seq<Type>): Option<seq<Type>>
    decreases AllSymbols(w) - Symbols(w, out), |stack|
  {
    if stack == [] then Some(out)
    else if Skipped(w, stack[0], out) then Visit(w, stack[1..], out)
    else if !Writable(w, stack[0].t) then None
    else
      Grows(w, out, stack[0].t);
      Visit(w, Items(Refs(w, stack[0].t), false) + stack[1..], out + [stack[0].t])
  }

  lemma Grows(w: World, out: seq<Type>, t: Type)
    requires t in w && Symbol(w, t) !in Symbols(w, out)
    ensures Symbols(w, out + [t]) == Symbols(w, out) + {Symbol(w, t)}
    ensures AllSymbols(w) - Symbols(w, out + [t]) < AllSymbols(w) - Symbols(w, out)
  {
    assert Symbol(w, t) in AllSymbols(w);
    forall s ensures s in Symbols(w, out + [t]) <==> s in Symbols(w, out) + {Symbol(w, t)} {
      if s in Symbols(w, out) {
        var u :| u in out && Symbol(w, u) == s;
        assert u in out + [t];
      }
      if s == Symbol(w, t) { assert t in out + [t]; }
    }
  }

  /** The closure of the roots. */
  function Closure(w: World, roots: seq<Type>): Option<seq<Type>> { Visit(w, Items(roots, true), []) }

  // ----- The walk -----

  class Closer {
    const w: World
    var out: seq<Type>
    var seen: set<string>

    ghost predicate Valid()
      reads this
    {
      forall s :: s in seen <==> Some(s) in Symbols(w, out)
    }

    constructor (w: World)
      ensures Valid() && this.w == w && out == []
    {
      this.w, out, seen := w, [], {};
    }

    /** One type and what it reaches, or false where one cannot be written. */
    method Walk(t: Type, root: bool) returns (ok: bool)
      requires Valid()
      modifies this
      ensures ok ==> Valid() && forall rest :: Visit(w, [Item(t, root)] + rest, old(out)) == Visit(w, rest, out)
      ensures !ok ==> forall rest :: Visit(w, [Item(t, root)] + rest, old(out)).None?
      ensures ok ==> AllSymbols(w) - Symbols(w, out) <= AllSymbols(w) - Symbols(w, old(out))
      decreases AllSymbols(w) - Symbols(w, out), 1
    {
      ghost var before := out;
      forall rest: seq<Item> ensures ([Item(t, root)] + rest)[0] == Item(t, root) && ([Item(t, root)] + rest)[1..] == rest { }
      if !root && Owned(w, t) { return true; }
      var symbol := Symbol(w, t);
      if symbol.None? { return false; }
      if symbol.value in seen { return true; }
      seen := seen + {symbol.value};
      if !w[t].encodable { return false; }
      Grows(w, out, t);
      out := out + [t];
      var refs := w[t].refs;
      if refs.None? { return false; }
      ghost var after := out;
      for i := 0 to |refs.value|
        invariant Valid() && AllSymbols(w) - Symbols(w, out) <= AllSymbols(w) - Symbols(w, after)
        invariant forall rest :: Visit(w, Items(refs.value, false) + rest, after) == Visit(w, Items(refs.value[i..], false) + rest, out)
      {
        ghost var here := out;
        ok := Walk(refs.value[i], false);
        forall rest: seq<Item>
          ensures Items(refs.value[i..], false) + rest == [Item(refs.value[i], false)] + (Items(refs.value[i + 1..], false) + rest) { }
        if !ok { return false; }
      }
      forall rest: seq<Item> ensures Items(refs.value[|refs.value|..], false) + rest == rest { }
      ok := true;
    }
  }

  /** The roots and every descriptor they reach, in the order of first use. */
  method DescriptorClosure(w: World, roots: seq<Type>) returns (r: Option<seq<Type>>)
    ensures r == Closure(w, roots)
  {
    var c := new Closer(w);
    for i := 0 to |roots|
      invariant c.Valid() && c.w == w
      invariant Closure(w, roots) == Visit(w, Items(roots[i..], true), c.out)
    {
      var ok := c.Walk(roots[i], true);
      assert Items(roots[i..], true) == [Item(roots[i], true)] + Items(roots[i + 1..], true);
      if !ok { return None; }
    }
    r := Some(c.out);
  }

  // ----- Each once -----

  predicate Once(w: World, list: seq<Type>) { forall i, j :: 0 <= i < j < |list| ==> Symbol(w, list[i]) != Symbol(w, list[j]) }

  lemma {:induction false} VisitAddsOnce(w: World, stack: seq<Item>, out: seq<Type>)
    requires Once(w, out) && (forall t <- out :: Writable(w, t)) && Visit(w, stack, out).Some?
    ensures var r := Visit(w, stack, out).value; Once(w, r) && out <= r && forall t <- r :: Writable(w, t)
    decreases AllSymbols(w) - Symbols(w, out), |stack|
  {
    if stack != [] {
      if Skipped(w, stack[0], out) {
        VisitAddsOnce(w, stack[1..], out);
      } else {
        Grows(w, out, stack[0].t);
        VisitAddsOnce(w, Items(Refs(w, stack[0].t), false) + stack[1..], out + [stack[0].t]);
      }
    }
  }

  // ----- All that is reached -----

  /** The symbol is among those of the list. */
  predicate In(w: World, t: Type, list: seq<Type>) { Symbol(w, t) in Symbols(w, list) }

  /** What the walk has promised: each reference out of what it has is owned, had or
      still to be visited. */
  ghost predicate Pending(w: World, stack: seq<Item>, out: seq<Type>) {
    forall t <- out, r :: Writable(w, t) && r in Refs(w, t) ==> Owned(w, r) || In(w, r, out) || Item(r, false) in stack
  }

  lemma {:induction false} VisitCloses(w: World, stack: seq<Item>, out: seq<Type>)
    requires Visit(w, stack, out).Some? && Pending(w, stack, out)
    ensures var r := Visit(w, stack, out).value; Pending(w, [], r)
    ensures forall i <- stack :: i.root || !Owned(w, i.t) ==> In(w, i.t, Visit(w, stack, out).value)
    ensures Symbols(w, out) <= Symbols(w, Visit(w, stack, out).value)
    decreases AllSymbols(w) - Symbols(w, out), |stack|
  {
    if stack != [] {
      var i, rest := stack[0], stack[1..];
      forall j <- stack ensures j == i || j in rest { }
      if Skipped(w, i, out) {
        VisitCloses(w, rest, out);
      } else {
        Grows(w, out, i.t);
        var next := Items(Refs(w, i.t), false) + rest;
        forall t <- out + [i.t], r | Writable(w, t) && r in Refs(w, t)
          ensures Owned(w, r) || In(w, r, out + [i.t]) || Item(r, false) in next {
          if t == i.t {
            var k :| 0 <= k < |Refs(w, t)| && Refs(w, t)[k] == r;
            assert Items(Refs(w, t), false)[k] == Item(r, false) && next[k] == Item(r, false);
          } else if Item(r, false) in rest {
            var k :| 0 <= k < |rest| && rest[k] == Item(r, false);
            assert next[|Refs(w, i.t)| + k] == Item(r, false);
          }
        }
        VisitCloses(w, next, out + [i.t]);
        forall j <- rest ensures j in next {
          var k :| 0 <= k < |rest| && rest[k] == j;
          assert next[|Refs(w, i.t)| + k] == j;
        }
      }
    }
  }

  /** A reference that the walk follows: not to a type that the runtime owns. */
  predicate Step(w: World, t: Type, u: Type) { Named(w, t, u) && !(u in w && w[u].owned) }

  /** A type with a whole descriptor names another one. */
  predicate Named(w: World, t: Type, u: Type) { Whole(w, t) && u in w[t].refs.value }

  /** A type has a symbol, an encoding and references. */
  predicate Whole(w: World, t: Type) { t in w && w[t].symbol.Some? && w[t].encodable && w[t].refs.Some? }

  /** Two types have one symbol. */
  predicate OneSymbol(w: World, t: Type, u: Type) { t in w && u in w && w[t].symbol.Some? && w[t].symbol == w[u].symbol }

  predicate HasOne(w: World, t: Type, list: seq<Type>) { exists u <- list :: OneSymbol(w, t, u) }

  /** A path of such references from a root. */
  predicate Leads(w: World, roots: seq<Type>, path: seq<Type>, t: Type)
    decreases |path|
  {
    if path == [] then t in roots
    else
      var last := path[|path| - 1];
      Leads(w, roots, path[..|path| - 1], last) && Step(w, last, t)
  }

  ghost predicate Reached(w: World, roots: seq<Type>, t: Type) { exists path :: Leads(w, roots, path, t) }

  lemma ReachNext(w: World, roots: seq<Type>, t: Type, u: Type)
    requires Reached(w, roots, t) && Step(w, t, u)
    ensures Reached(w, roots, u)
  {
    var path :| Leads(w, roots, path, t);
    assert (path + [t])[..|path|] == path;
    assert Leads(w, roots, path + [t], u);
  }

  /** Everything in the list and on the stack is reached. */
  ghost predicate AllReached(w: World, roots: seq<Type>, stack: seq<Item>, out: seq<Type>) {
    && (forall t <- out :: Reached(w, roots, t))
    && (forall i <- stack :: i.root || !Owned(w, i.t) ==> Reached(w, roots, i.t))
  }

  lemma {:induction false} VisitReaches(w: World, roots: seq<Type>, stack: seq<Item>, out: seq<Type>)
    requires Visit(w, stack, out).Some? && AllReached(w, roots, stack, out)
    ensures AllReached(w, roots, [], Visit(w, stack, out).value)
    decreases AllSymbols(w) - Symbols(w, out), |stack|
  {
    if stack != [] {
      var i, rest := stack[0], stack[1..];
      if Skipped(w, i, out) {
        VisitReaches(w, roots, rest, out);
      } else {
        Grows(w, out, i.t);
        assert i in stack && Reached(w, roots, i.t);
        var next := Items(Refs(w, i.t), false) + rest;
        forall j <- next | j.root || !Owned(w, j.t) ensures Reached(w, roots, j.t) {
          if j !in rest {
            var k :| 0 <= k < |next| && next[k] == j;
            assert j == Items(Refs(w, i.t), false)[k];
            ReachNext(w, roots, i.t, j.t);
          }
        }
        VisitReaches(w, roots, next, out + [i.t]);
      }
    }
  }

  // ----- The closure -----

  lemma InNext(w: World, t: Type, u: Type, r: seq<Type>)
    requires Canonical(w) && Step(w, t, u) && In(w, t, r) && Pending(w, [], r) && forall v <- r :: Writable(w, v)
    ensures In(w, u, r)
  {
    var v :| v in r && Symbol(w, v) == Symbol(w, t);
    var k :| 0 <= k < |Refs(w, t)| && Refs(w, t)[k] == u;
    assert Alike(w, Refs(w, t), Refs(w, v));
    var x := Refs(w, v)[k];
    assert x in Refs(w, v) && Symbol(w, x) == Symbol(w, u) && !Owned(w, x);
  }

  lemma {:induction false} PathIn(w: World, roots: seq<Type>, path: seq<Type>, t: Type, r: seq<Type>)
    requires Canonical(w) && Leads(w, roots, path, t) && Pending(w, [], r) && forall u <- r :: Writable(w, u)
    requires forall u <- roots :: In(w, u, r)
    ensures In(w, t, r)
    decreases |path|
  {
    if path != [] {
      var last := path[|path| - 1];
      PathIn(w, roots, path[..|path| - 1], last, r);
      InNext(w, last, t, r);
    }
  }

  /** The closure has each symbol once, holds only what a path from a root reaches
      without passing through a type that the runtime owns, and has the symbol of
      everything so reached. */
  lemma ClosureIsReach(w: World, roots: seq<Type>)
    requires Canonical(w) && Closure(w, roots).Some?
    ensures var r := Closure(w, roots).value;
            && (forall i, j :: 0 <= i < j < |r| ==> !OneSymbol(w, r[i], r[j]))
            && (forall t <- r :: Reached(w, roots, t) && Whole(w, t))
            && (forall t :: Reached(w, roots, t) ==> HasOne(w, t, r) && In(w, t, r))
  {
    var r, stack := Closure(w, roots).value, Items(roots, true);
    VisitAddsOnce(w, stack, []);
    VisitCloses(w, stack, []);
    forall t <- roots ensures In(w, t, r) {
      var k :| 0 <= k < |roots| && roots[k] == t;
      assert stack[k] == Item(t, true) && stack[k] in stack;
    }
    forall i <- stack ensures Reached(w, roots, i.t) { assert Leads(w, roots, [], i.t); }
    VisitReaches(w, roots, stack, []);
    forall t | Reached(w, roots, t) ensures HasOne(w, t, r) && In(w, t, r) {
      var path :| Leads(w, roots, path, t);
      PathIn(w, roots, path, t, r);
      var u :| u in r && Symbol(w, u) == Symbol(w, t);
      assert OneSymbol(w, t, u);
    }
    forall i, j | 0 <= i < j < |r| ensures !OneSymbol(w, r[i], r[j]) { assert Symbol(w, r[i]) != Symbol(w, r[j]); }
  }

  /** Each reference out of the closure is in it or owned by the runtime. */
  lemma ClosureIsClosed(w: World, roots: seq<Type>)
    requires Closure(w, roots).Some?
    ensures var r := Closure(w, roots).value;
            forall t <- r, u :: Named(w, t, u) ==> (u in w && w[u].owned) || HasOne(w, u, r)
  {
    VisitAddsOnce(w, Items(roots, true), []);
    VisitCloses(w, Items(roots, true), []);
    var r := Closure(w, roots).value;
    forall t <- r, u | Named(w, t, u) && !(u in w && w[u].owned) ensures HasOne(w, u, r) {
      assert Writable(w, t) && u in Refs(w, t) && !Owned(w, u) && In(w, u, r);
      var v :| v in r && Symbol(w, v) == Symbol(w, u);
      assert OneSymbol(w, u, v);
    }
  }

  lemma {:induction false} VisitSucceeds(w: World, roots: seq<Type>, stack: seq<Item>, out: seq<Type>)
    requires AllReached(w, roots, stack, out) && forall t :: Reached(w, roots, t) ==> Writable(w, t)
    ensures Visit(w, stack, out).Some?
    decreases AllSymbols(w) - Symbols(w, out), |stack|
  {
    if stack != [] {
      var i, rest := stack[0], stack[1..];
      if Skipped(w, i, out) {
        VisitSucceeds(w, roots, rest, out);
      } else {
        assert i in stack && Reached(w, roots, i.t);
        Grows(w, out, i.t);
        var next := Items(Refs(w, i.t), false) + rest;
        forall j <- next | j.root || !Owned(w, j.t) ensures Reached(w, roots, j.t) {
          if j !in rest {
            var k :| 0 <= k < |next| && next[k] == j;
            assert j == Items(Refs(w, i.t), false)[k];
            ReachNext(w, roots, i.t, j.t);
          }
        }
        VisitSucceeds(w, roots, next, out + [i.t]);
      }
    }
  }

  /** There is no closure exactly when something that is reached cannot be written. */
  lemma ClosureFails(w: World, roots: seq<Type>)
    requires Canonical(w)
    ensures Closure(w, roots).None? <==> exists t :: Reached(w, roots, t) && !Whole(w, t)
  {
    var stack := Items(roots, true);
    forall i <- stack ensures Reached(w, roots, i.t) { assert Leads(w, roots, [], i.t); }
    if Closure(w, roots).Some? {
      ClosureIsReach(w, roots);
      VisitAddsOnce(w, stack, []);
      var r := Closure(w, roots).value;
      forall t | Reached(w, roots, t) ensures Whole(w, t) {
        var u :| u in r && Symbol(w, u) == Symbol(w, t);
        assert Writable(w, t);
      }
    } else if forall t :: Reached(w, roots, t) ==> Writable(w, t) {
      VisitSucceeds(w, roots, stack, []);
    }
  }

  // ----- Closing twice -----

  lemma ItemsFront(list: seq<Type>, k: nat)
    requires k < |list|
    ensures Items(list[k..], true) == [Item(list[k], true)] + Items(list[k + 1..], true)
  {
  }

  /** The second closure follows the first: it has the same items in hand, and behind
      them the rest of the first one's result, of which it skips what it has. */
  lemma {:induction false} VisitFollows(w: World, hand: seq<Item>, roots: seq<Type>, out: seq<Type>, all: seq<Type>, k: nat)
    requires Visit(w, hand + Items(roots, true), out) == Some(all) && k <= |out| <= |all| && all[..|out|] == out
    requires (forall i <- hand :: !i.root) && forall t <- out :: Writable(w, t)
    ensures Visit(w, hand + Items(all[k..], true), out) == Some(all)
    decreases AllSymbols(w) - Symbols(w, out), |hand|, |roots| + |all| - k
  {
    var first, second := hand + Items(roots, true), hand + Items(all[k..], true);
    if hand != [] {
      assert first[1..] == hand[1..] + Items(roots, true) && second[1..] == hand[1..] + Items(all[k..], true);
      if Skipped(w, hand[0], out) {
        VisitFollows(w, hand[1..], roots, out, all, k);
      } else {
        VisitsNext(w, first, out, all);
        Grows(w, out, hand[0].t);
        var refs := Items(Refs(w, hand[0].t), false);
        assert refs + first[1..] == (refs + hand[1..]) + Items(roots, true);
        assert refs + second[1..] == (refs + hand[1..]) + Items(all[k..], true);
        VisitFollows(w, refs + hand[1..], roots, out + [hand[0].t], all, k);
      }
    } else if k < |out| {
      assert out[k] == all[..|out|][k];
      ItemsFront(all, k);
      assert second == Items(all[k..], true) && hand + Items(all[k + 1..], true) == Items(all[k + 1..], true);
      assert out[k] in out && Skipped(w, second[0], out);
      VisitFollows(w, hand, roots, out, all, k + 1);
    } else if roots == [] {
      assert first == [] && all == out && second == [];
    } else if Skipped(w, first[0], out) {
      assert first[1..] == hand + Items(roots[1..], true);
      VisitFollows(w, hand, roots[1..], out, all, k);
    } else {
      VisitsNext(w, first, out, all);
      Grows(w, out, roots[0]);
      var refs := Items(Refs(w, roots[0]), false);
      assert first == Items(roots, true) && first[1..] == Items(roots[1..], true);
      ItemsFront(all, k);
      assert second == Items(all[k..], true) && all[k] == roots[0];
      VisitFollows(w, refs, roots[1..], out + [roots[0]], all, k + 1);
    }
  }

  /** What is visited next is next in the result. */
  lemma VisitsNext(w: World, stack: seq<Item>, out: seq<Type>, all: seq<Type>)
    requires stack != [] && !Skipped(w, stack[0], out) && Visit(w, stack, out) == Some(all)
    ensures Writable(w, stack[0].t) && |out| < |all| && all[..|out| + 1] == out + [stack[0].t]
  {
    Grows(w, out, stack[0].t);
    VisitKeeps(w, Items(Refs(w, stack[0].t), false) + stack[1..], out + [stack[0].t]);
  }

  lemma {:induction false} VisitKeeps(w: World, stack: seq<Item>, out: seq<Type>)
    requires Visit(w, stack, out).Some?
    ensures out <= Visit(w, stack, out).value
    decreases AllSymbols(w) - Symbols(w, out), |stack|
  {
    if stack != [] {
      if Skipped(w, stack[0], out) {
        VisitKeeps(w, stack[1..], out);
      } else {
        Grows(w, out, stack[0].t);
        VisitKeeps(w, Items(Refs(w, stack[0].t), false) + stack[1..], out + [stack[0].t]);
      }
    }
  }

  /** Closing a closure gives it back, in its order. */
  lemma ClosureTwice(w: World, roots: seq<Type>)
    requires Closure(w, roots).Some?
    ensures Closure(w, Closure(w, roots).value) == Closure(w, roots)
  {
    var all := Closure(w, roots).value;
    var none: seq<Item> := [];
    assert none + Items(roots, true) == Items(roots, true) && none + Items(all[0..], true) == Items(all, true);
    VisitFollows(w, none, roots, [], all, 0);
  }
}

/** From one round of a loop to the next: the body opens with new instances, and
    what they hold is copied back. */
module LoopVarsRounds {
  import opened Wrappers
  import opened LoopVars
  import opened LoopVarsHidden
  import opened LoopVarsAlike

  /** `f` adds to `f0` nothing but instances from `n` on and from `m` on. */
  ghost predicate Rests(f0: Inj, f: Inj, n: nat, m: nat) {
    && (forall a <- f0 :: a < n && a in f && f[a] == f0[a])
    && (forall a <- f :: a !in f0 ==> a >= n && f[a] >= m)
  }

  predicate AllUser(xs: seq<Name>) { forall x <- xs :: x.User? }

  function CarrierOf(x: Name): Name { if x.User? then Carrier(x.id) else x }

  /** The instance of a variable that has one. */
  function Spot(x: Name, b: State): Addr { if x in b.env then b.env[x] else 0 }

  predicate Carried(xs: seq<Name>, b: State) { AllUser(xs) && forall x <- xs :: Holds(CarrierOf(x), b) }

  /** The carrier and the variable the body declared. */
  predicate Paired(xs: seq<Name>, b: State) { Carried(xs, b) && forall x <- xs :: Holds(x, b) }

  // ----- Into the body -----

  lemma Remapped(taken: set<Name>, f: Inj, v: Value, v': Value, a: Addr, i: Addr)
    requires SameValue(taken, f, v, v') && !Mentions(v, a)
    ensures SameValue(taken, f[a := i], v, v')
  {
    if v.Closure? {
      forall y <- v.caps ensures SameName(f[a := i], View(v.caps, {}), v.env, v'.env, y) {
        assert SameName(f, View(v.caps, {}), v.env, v'.env, y);
        if y in v.env { assert v.env[y] != a; }
      }
    }
  }

  /** The state after the body declared one variable from its carrier. */
  function OpenedOne(x: Name, b: State): State
    requires x.User? && Holds(CarrierOf(x), b)
  {
    b.(env := b.env[x := |b.heap|], heap := b.heap + [b.heap[b.env[CarrierOf(x)]]])
  }

  lemma OpenOne(taken: set<Name>, f: Inj, live: set<Name>, ren: set<Name>, x: Name, s: State, b: State)
    requires Alike(taken, f, View(live, ren + {x}), s, b) && View(live, ren).Users()
    requires x in live && x !in ren && x in s.env && Hidden(s, x, s.env[x])
    ensures Holds(CarrierOf(x), b) && s.env[x] in f && f[s.env[x]] == b.env[CarrierOf(x)]
    ensures Alike(taken, f[s.env[x] := |b.heap|], View(live, ren), s, OpenedOne(x, b))
  {
    var w, w' := View(live, ren + {x}), View(live, ren);
    var a := s.env[x];
    assert SameName(f, w, s.env, b.env, x);
    var b' := OpenedOne(x, b);
    var f' := f[a := |b.heap|];
    forall a' <- f' ensures SameValue(taken, f', s.heap[a'], b'.heap[f'[a']]) {
      Remapped(taken, f, s.heap[a'], b.heap[f[a']], a, |b.heap|);
    }
    forall y <- live ensures SameName(f', w', s.env, b'.env, y) {
      assert SameName(f, w, s.env, b.env, y);
      if y != x { assert w'.Of(y) == w.Of(y) && w'.Of(y) != x; }
    }
  }

  lemma FirstRuns(ops: Ops, t: Stmt, rest: seq<Stmt>, b: State, b': State, fuel: nat)
    requires Run(ops, t, b, fuel) == (Normal, b')
    ensures RunList(ops, [t] + rest, b, fuel) == RunList(ops, rest, b', fuel)
  {
    assert ([t] + rest)[1..] == rest;
  }

  lemma CopyRuns(ops: Ops, x: Name, b: State, fuel: nat)
    requires x.User? && Holds(CarrierOf(x), b) && Holds(x, b)
    ensures Run(ops, Set(CarrierOf(x), Get(x)), b, fuel) == (Normal, CopiedOne(x, b))
  {
  }

  function Opened(xs: seq<Name>, b: State): State
    requires Carried(xs, b)
  {
    if xs == [] then b
    else
      var front, x := xs[..|xs| - 1], xs[|xs| - 1];
      var b' := OpenedOne(x, b);
      assert Carried(front, b') by { assert forall y <- front :: y in xs && Holds(CarrierOf(y), b); }
      Opened(front, b')
  }

  lemma {:induction false} OpensRun(ops: Ops, xs: seq<Name>, body: seq<Stmt>, b: State, fuel: nat)
    requires Carried(xs, b)
    ensures RunList(ops, Opens(xs) + body, b, fuel) == RunList(ops, body, Opened(xs, b), fuel)
  {
    if xs == [] {
      assert Opens(xs) + body == body;
    } else {
      var front, x := xs[..|xs| - 1], xs[|xs| - 1];
      assert Opens(xs) + body == [Local(x, Get(CarrierOf(x)))] + (Opens(front) + body);
      FirstRuns(ops, Local(x, Get(CarrierOf(x))), Opens(front) + body, b, OpenedOne(x, b), fuel);
      assert Carried(front, OpenedOne(x, b)) by { assert forall y <- front :: y in xs && Holds(CarrierOf(y), b); }
      OpensRun(ops, front, body, OpenedOne(x, b), fuel);
    }
  }

  /** The carriers are out of the body's reach, and what was there before is still. */
  ghost predicate OpenedWell(xs: seq<Name>, f: Inj, f': Inj, n: nat, b: State, b': State)
    requires Carried(xs, b)
  {
    && |b.heap| <= |b'.heap| && (forall i :: 0 <= i < |b.heap| ==> b'.heap[i] == b.heap[i])
    && (forall c: Name :: c.Carrier? ==> SameInstance(b, b', c))
    && f'.Keys == f.Keys && (forall a <- f :: f'[a] == f[a] || (a >= n && f'[a] >= |b.heap|))
    && (forall x <- xs, a <- f' :: f'[a] != Spot(CarrierOf(x), b))
  }

  lemma HaveCarriers(taken: set<Name>, xs: seq<Name>, f: Inj, live: set<Name>, s: State, b: State)
    requires AllUser(xs) && Alike(taken, f, View(live, Elems(xs)), s, b) && forall x <- xs :: x in live && x in s.env
    ensures Carried(xs, b) && forall x <- xs :: s.env[x] in f && f[s.env[x]] == b.env[CarrierOf(x)]
  {
    forall x <- xs ensures Holds(CarrierOf(x), b) && s.env[x] in f && f[s.env[x]] == b.env[CarrierOf(x)] {
      assert SameName(f, View(live, Elems(xs)), s.env, b.env, x);
    }
  }

  lemma {:induction false} OpenAll(taken: set<Name>, xs: seq<Name>, f: Inj, live: set<Name>, n: nat, s: State, b: State) returns (f': Inj)
    requires Distinct(xs) && AllUser(xs) && Alike(taken, f, View(live, Elems(xs)), s, b) && View(live, {}).Users()
    requires forall x <- xs :: x in live && x in s.env && s.env[x] >= n && Hidden(s, x, s.env[x])
    ensures Carried(xs, b) && forall x <- xs :: s.env[x] in f && f[s.env[x]] == b.env[CarrierOf(x)]
    ensures Alike(taken, f', View(live, {}), s, Opened(xs, b)) && OpenedWell(xs, f, f', n, b, Opened(xs, b))
  {
    f' := f;
    HaveCarriers(taken, xs, f, live, s, b);
    if xs == [] {
      assert Elems(xs) == {};
    } else {
      var front, x := xs[..|xs| - 1], xs[|xs| - 1];
      assert forall y <- front :: y in xs && y != x;
      assert Elems(xs) == Elems(front) + {x};
      OpenOne(taken, f, live, Elems(front), x, s, b);
      var f1, b1 := f[s.env[x] := |b.heap|], OpenedOne(x, b);
      f' := OpenAll(taken, front, f1, live, n, s, b1);
      OpenedBoth(xs, f, f1, f', n, s, b, b1, Opened(front, b1));
    }
  }

  lemma OpenedBoth(xs: seq<Name>, f: Inj, f1: Inj, f': Inj, n: nat, s: State, b: State, b1: State, b': State)
    requires xs != [] && Distinct(xs) && Carried(xs, b) && Carried(xs, b1)
    requires var x := xs[|xs| - 1];
             && x in s.env && s.env[x] >= n && s.env[x] in f && f[s.env[x]] == b.env[CarrierOf(x)]
             && f1 == f[s.env[x] := |b.heap|] && b1 == OpenedOne(x, b)
    requires (forall a <- f :: f[a] < |b.heap|) && forall a, a' :: a in f && a' in f && f[a] == f[a'] ==> a == a'
    requires Carried(xs[..|xs| - 1], b1) && OpenedWell(xs[..|xs| - 1], f1, f', n, b1, b')
    ensures OpenedWell(xs, f, f', n, b, b')
  {
    var front, x := xs[..|xs| - 1], xs[|xs| - 1];
    forall y <- xs, a <- f' ensures f'[a] != Spot(CarrierOf(y), b) {
      assert a in f;
      if y != x { assert y in front; }
    }
    forall c: Name | c.Carrier? ensures SameInstance(b, b', c) { assert SameInstance(b1, b', c); }
  }

  // ----- Out of the body: the copies back -----

  function CopiedOne(x: Name, b: State): State
    requires x.User? && Holds(CarrierOf(x), b) && Holds(x, b)
  {
    b.(heap := b.heap[b.env[CarrierOf(x)] := b.heap[b.env[x]]])
  }

  function Copied(xs: seq<Name>, b: State): State
    requires Paired(xs, b)
  {
    if xs == [] then b
    else
      var front, x := xs[..|xs| - 1], xs[|xs| - 1];
      var b' := CopiedOne(x, b);
      assert Paired(front, b') by { assert forall y <- front :: y in xs && Holds(CarrierOf(y), b) && Holds(y, b); }
      Copied(front, b')
  }

  lemma {:induction false} CopiesRun(ops: Ops, xs: seq<Name>, post: seq<Stmt>, b: State, fuel: nat)
    requires Paired(xs, b)
    ensures RunList(ops, Copies(xs) + post, b, fuel) == RunList(ops, post, Copied(xs, b), fuel)
  {
    if xs == [] {
      assert Copies(xs) + post == post;
    } else {
      var front, x := xs[..|xs| - 1], xs[|xs| - 1];
      assert Copies(xs) + post == [Set(CarrierOf(x), Get(x))] + (Copies(front) + post);
      CopyRuns(ops, x, b, fuel);
      FirstRuns(ops, Set(CarrierOf(x), Get(x)), Copies(front) + post, b, CopiedOne(x, b), fuel);
      assert Paired(front, CopiedOne(x, b)) by { assert forall y <- front :: y in xs && Holds(CarrierOf(y), b) && Holds(y, b); }
      CopiesRun(ops, front, post, CopiedOne(x, b), fuel);
    }
  }

  /** The carriers of a list lie apart from each other and from all the source knows. */
  ghost predicate Apart(xs: seq<Name>, f: Inj, b: State)
    requires Carried(xs, b)
  {
    && (forall x <- xs, a <- f :: f[a] != Spot(CarrierOf(x), b))
    && (forall x <- xs, y <- xs :: x != y ==> Spot(CarrierOf(x), b) != Spot(CarrierOf(y), b))
  }

  lemma {:induction false} CopyAll(taken: set<Name>, xs: seq<Name>, f: Inj, w: View, s: State, b: State)
    requires Distinct(xs) && Alike(taken, f, w, s, b) && Paired(xs, b) && Apart(xs, f, b)
    requires forall x <- xs, y <- xs :: Spot(x, b) != Spot(CarrierOf(y), b)
    ensures Alike(taken, f, w, s, Copied(xs, b)) && Copied(xs, b).env == b.env && |Copied(xs, b).heap| == |b.heap|
    ensures forall x <- xs :: Copied(xs, b).heap[Spot(CarrierOf(x), b)] == b.heap[Spot(x, b)]
    ensures forall i :: 0 <= i < |b.heap| && (forall x <- xs :: Spot(CarrierOf(x), b) != i) ==> Copied(xs, b).heap[i] == b.heap[i]
  {
    if xs != [] {
      var front, x := xs[..|xs| - 1], xs[|xs| - 1];
      assert forall y <- front :: y in xs && y != x;
      var b1 := CopiedOne(x, b);
      assert Paired(front, b1) by { assert forall y <- front :: y in xs && Holds(CarrierOf(y), b) && Holds(y, b); }
      assert Alike(taken, f, w, s, b1);
      CopyAll(taken, front, f, w, s, b1);
      CopiedBoth(xs, b);
    }
  }

  lemma CopiedBoth(xs: seq<Name>, b: State)
    requires xs != [] && Distinct(xs) && Paired(xs, b) && forall x <- xs, y <- xs :: Spot(x, b) != Spot(CarrierOf(y), b)
    requires forall x <- xs, y <- xs :: x != y ==> Spot(CarrierOf(x), b) != Spot(CarrierOf(y), b)
    requires var front, b1 := xs[..|xs| - 1], CopiedOne(xs[|xs| - 1], b);
             && Paired(front, b1) && |Copied(front, b1).heap| == |b.heap|
             && (forall x <- front :: Copied(front, b1).heap[Spot(CarrierOf(x), b)] == b1.heap[Spot(x, b)])
             && (forall i :: 0 <= i < |b.heap| && (forall x <- front :: Spot(CarrierOf(x), b) != i) ==> Copied(front, b1).heap[i] == b1.heap[i])
    ensures |Copied(xs, b).heap| == |b.heap|
    ensures forall x <- xs :: Copied(xs, b).heap[Spot(CarrierOf(x), b)] == b.heap[Spot(x, b)]
    ensures forall i :: 0 <= i < |b.heap| && (forall x <- xs :: Spot(CarrierOf(x), b) != i) ==> Copied(xs, b).heap[i] == b.heap[i]
  {
    var front, x := xs[..|xs| - 1], xs[|xs| - 1];
    var b1, b' := CopiedOne(x, b), Copied(xs, b);
    forall y <- xs ensures b'.heap[Spot(CarrierOf(y), b)] == b.heap[Spot(y, b)] {
      if y == x {
        assert forall z <- front :: z in xs && z != x;
        assert b'.heap[Spot(CarrierOf(x), b)] == b1.heap[Spot(CarrierOf(x), b)];
      } else {
        assert y in front;
      }
    }
    forall i | 0 <= i < |b.heap| && (forall y <- xs :: Spot(CarrierOf(y), b) != i) ensures b'.heap[i] == b.heap[i] {
      assert x in xs && forall y <- front :: y in xs;
    }
  }

  // ----- New instances for the next round -----

  /** The carrier holds what the next round's instance begins with. */
  lemma CloseOne(taken: set<Name>, f: Inj, live: set<Name>, ren: set<Name>, x: Name, s: State, b: State)
    requires Alike(taken, f, View(live, ren), s, b) && View(live, ren).Users() && x in live && x !in ren
    requires Holds(x, s) && Holds(CarrierOf(x), b) && x in b.env && b.env[x] < |b.heap|
    requires var i := b.env[CarrierOf(x)]; (forall a <- f :: f[a] != i) && b.heap[i] == b.heap[b.env[x]]
    ensures Alike(taken, f[|s.heap| := b.env[CarrierOf(x)]], View(live, ren + {x}), NewInstance(x, s), b)
  {
    var w, w', i := View(live, ren), View(live, ren + {x}), b.env[CarrierOf(x)];
    var f', s' := f[|s.heap| := i], NewInstance(x, s);
    assert SameName(f, w, s.env, b.env, x);
    forall a <- f' ensures SameValue(taken, f', s'.heap[a], b.heap[f'[a]]) {
      if a == |s.heap| {
        SameValueLater(taken, f, f', s.heap[s.env[x]], b.heap[b.env[x]]);
      } else {
        SameValueLater(taken, f, f', s.heap[a], b.heap[f[a]]);
      }
    }
    forall y <- live ensures SameName(f', w', s'.env, b.env, y) { assert SameName(f, w, s.env, b.env, y); }
  }

  lemma Dropped(taken: set<Name>, f: Inj, v: Value, v': Value, a: Addr, n: Addr, i: Addr)
    requires SameValue(taken, f, v, v') && !Mentions(v, a) && n !in f
    ensures SameValue(taken, (f - {a})[n := i], v, v')
  {
    if v.Closure? {
      forall y <- v.caps ensures SameName((f - {a})[n := i], View(v.caps, {}), v.env, v'.env, y) {
        assert SameName(f, View(v.caps, {}), v.env, v'.env, y);
        if y in v.env { assert v.env[y] != a; }
      }
    }
  }

  /** The one instance of a variable without a carrier goes on. */
  lemma KeepOne(taken: set<Name>, f: Inj, live: set<Name>, ren: set<Name>, x: Name, s: State, b: State)
    requires Alike(taken, f, View(live, ren), s, b) && x in live && x !in ren && Holds(x, s) && Hidden(s, x, s.env[x])
    ensures s.env[x] in f && Alike(taken, (f - {s.env[x]})[|s.heap| := f[s.env[x]]], View(live, ren), NewInstance(x, s), b)
  {
    var w, a := View(live, ren), s.env[x];
    assert SameName(f, w, s.env, b.env, x);
    var f', s' := (f - {a})[|s.heap| := f[a]], NewInstance(x, s);
    forall a' <- f' ensures SameValue(taken, f', s'.heap[a'], b.heap[f'[a']]) {
      if a' == |s.heap| {
        Dropped(taken, f, s.heap[a], b.heap[f[a]], a, |s.heap|, f[a]);
      } else {
        Dropped(taken, f, s.heap[a'], b.heap[f[a']], a, |s.heap|, f[a]);
      }
    }
    forall y <- live ensures SameName(f', w, s'.env, b.env, y) {
      assert SameName(f, w, s.env, b.env, y);
      if y != x && y in s.env { assert s.env[y] != a; }
    }
  }

  /** What the next round's instances of some variables are made from. */
  ghost predicate Renewable(taken: set<Name>, vs: seq<Name>, f: Inj, n: nat, m: nat, s: State, b: State) {
    && (forall x <- vs :: x.User? && x in s.env && s.env[x] >= n && x in b.env && b.env[x] < |b.heap|)
    && (forall x <- vs :: x !in taken ==> Hidden(s, x, s.env[x]))
    && (forall x <- vs :: x in taken ==> Reserved(x, f, m, b))
    && (forall x <- vs, y <- vs :: x in taken && y in taken && x != y ==> Spot(CarrierOf(x), b) != Spot(CarrierOf(y), b))
  }

  ghost predicate Reserved(x: Name, f: Inj, m: nat, b: State) {
    && x.User? && Holds(CarrierOf(x), b) && Holds(x, b)
    && b.env[CarrierOf(x)] >= m && b.heap[b.env[CarrierOf(x)]] == b.heap[b.env[x]]
    && forall a <- f :: f[a] != b.env[CarrierOf(x)]
  }

  ghost predicate HiddenAll(vs: seq<Name>, n: nat, s: State) {
    forall x <- vs :: x in s.env && s.env[x] >= n && Hidden(s, x, s.env[x])
  }

  lemma {:induction false} RenewAll(taken: set<Name>, vs: seq<Name>, f0: Inj, f: Inj, live: set<Name>, ren: set<Name>, n: nat, m: nat, s: State, b: State)
    returns (f': Inj)
    requires Distinct(vs) && Elems(vs) <= live && Elems(vs) !! ren && View(live, ren).Users()
    requires Alike(taken, f, View(live, ren), s, b) && Bounded(s) && Renewable(taken, vs, f, n, m, s, b)
    requires Rests(f0, f, n, m) && n <= |s.heap|
    ensures Renew(vs, s).Some?
    ensures var s' := Renew(vs, s).value;
            && Alike(taken, f', View(live, ren + Elems(vs) * taken), s', b) && Bounded(s') && |s.heap| <= |s'.heap|
            && Rests(f0, f', n, m) && HiddenAll(vs, n, s')
  {
    f' := f;
    if vs == [] {
      assert ren + Elems(vs) * taken == ren;
    } else {
      var x, rest := vs[0], vs[1..];
      assert forall y <- rest :: y in vs && y != x;
      assert x in vs && Elems(vs) == {x} + Elems(rest);
      var s1 := NewInstance(x, s);
      NewBounded(x, s);
      var f1, ren1 := RenewOne(taken, vs, f0, f, live, ren, n, m, s, b);
      f' := RenewAll(taken, rest, f0, f1, live, ren1, n, m, s1, b);
      assert ren1 + Elems(rest) * taken == ren + Elems(vs) * taken;
      RenewHidden(rest, s1, x, |s.heap|);
    }
  }

  lemma RenewOne(taken: set<Name>, vs: seq<Name>, f0: Inj, f: Inj, live: set<Name>, ren: set<Name>, n: nat, m: nat, s: State, b: State)
    returns (f1: Inj, ren1: set<Name>)
    requires vs != [] && Distinct(vs) && Elems(vs) <= live && Elems(vs) !! ren && View(live, ren).Users()
    requires Alike(taken, f, View(live, ren), s, b) && Bounded(s) && Renewable(taken, vs, f, n, m, s, b)
    requires Rests(f0, f, n, m) && n <= |s.heap|
    ensures Holds(vs[0], s) && ren1 == if vs[0] in taken then ren + {vs[0]} else ren
    ensures Alike(taken, f1, View(live, ren1), NewInstance(vs[0], s), b) && Rests(f0, f1, n, m)
    ensures Renewable(taken, vs[1..], f1, n, m, NewInstance(vs[0], s), b)
  {
    var x := vs[0];
    assert x in vs && x in Elems(vs);
    assert forall y <- vs[1..] :: y in vs && y != x;
    if x in taken {
      CloseOne(taken, f, live, ren, x, s, b);
      f1, ren1 := f[|s.heap| := b.env[CarrierOf(x)]], ren + {x};
    } else {
      KeepOne(taken, f, live, ren, x, s, b);
      f1, ren1 := (f - {s.env[x]})[|s.heap| := f[s.env[x]]], ren;
    }
    StillRenewable(taken, vs, f, f1, n, m, s, b);
  }

  lemma StillRenewable(taken: set<Name>, vs: seq<Name>, f: Inj, f1: Inj, n: nat, m: nat, s: State, b: State)
    requires vs != [] && Distinct(vs) && Renewable(taken, vs, f, n, m, s, b) && Holds(vs[0], s) && n <= |s.heap| && Bounded(s)
    requires forall a <- f1 :: (a in f && f1[a] == f[a]) || (vs[0] in taken && f1[a] == Spot(CarrierOf(vs[0]), b))
                               || (vs[0] !in taken && exists a' <- f :: f1[a] == f[a'])
    ensures Renewable(taken, vs[1..], f1, n, m, NewInstance(vs[0], s), b)
  {
    var x := vs[0];
    assert x in vs && forall y <- vs[1..] :: y in vs && y != x;
    forall y <- vs[1..] | y !in taken ensures Hidden(NewInstance(x, s), y, s.env[y]) {
      assert Hidden(s, y, s.env[y]);
      assert !Mentions(s.heap[s.env[x]], s.env[y]);
    }
    forall y <- vs[1..] | y in taken ensures Reserved(y, f1, m, b) { assert Reserved(y, f, m, b); }
  }
}

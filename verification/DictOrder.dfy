/** Which types depend on a type parameter, and in which order they are numbered
    (export/bodydict.go:210-440), said on the shapes of the types.

    A type depends on a type parameter when putting other types for its
    parameters can give another type. */
module DictOrder {
  import opened DictNumbering

  // ----- Substitution -----

  /** The type with another one for each type parameter. A local alias stands for
      what it names, and a use of a defined type or of a global alias is that
      declaration at its type arguments. */
  ghost function Subst(t: Type, f: Type -> Type): Type
    decreases t
  {
    match t.shape
    case TypeParam(_) => f(t)
    case Basic => t
    case NoTag => t
    case Named(local, targs) => Type(t.id, Named(local, SubstAll(targs, f)))
    case Alias(global, targs, rhs) =>
      if global then Type(t.id, Alias(global, SubstAll(targs, f), rhs)) else Subst(rhs, f)
    case Array(e) => Type(t.id, Array(Subst(e, f)))
    case Chan(e) => Type(t.id, Chan(Subst(e, f)))
    case Map(k, e) => Type(t.id, Map(Subst(k, f), Subst(e, f)))
    case Pointer(e) => Type(t.id, Pointer(Subst(e, f)))
    case Slice(e) => Type(t.id, Slice(Subst(e, f)))
    case Signature(s) => Type(t.id, Signature(SubstSig(s, f)))
    case Struct(fs) => Type(t.id, Struct(SubstAll(fs, f)))
    case Interface(plain, ms, es) => if plain then t else Type(t.id, Interface(plain, SubstSigs(ms, f), SubstAll(es, f)))
    case Union(ts) => Type(t.id, Union(SubstAll(ts, f)))
  }

  ghost function SubstAll(ts: seq<Type>, f: Type -> Type): seq<Type>
    decreases ts
  {
    if ts == [] then [] else [Subst(ts[0], f)] + SubstAll(ts[1..], f)
  }

  ghost function SubstSig(s: Sig, f: Type -> Type): Sig
    decreases s
  {
    Sig(SubstAll(s.params, f), SubstAll(s.results, f))
  }

  ghost function SubstSigs(ms: seq<Sig>, f: Type -> Type): seq<Sig>
    decreases ms
  {
    if ms == [] then [] else [SubstSig(ms[0], f)] + SubstSigs(ms[1..], f)
  }

  /** Two choices of types for the parameters give two types. */
  ghost predicate Depends(t: Type) { exists f: Type -> Type, g: Type -> Type :: Subst(t, f) != Subst(t, g) }

  // ----- Encodings -----

  /** The types that stand directly in a type. */
  predicate Component(t: Type, u: Type): (b: bool)
    ensures b ==> u < t
  {
    match t.shape
    case TypeParam(_) => false
    case Basic => false
    case NoTag => false
    case Named(_, targs) => u in targs
    case Alias(global, targs, rhs) => if global then u in targs else u == rhs
    case Array(e) => u == e
    case Chan(e) => u == e
    case Map(k, e) => u == k || u == e
    case Pointer(e) => u == e
    case Slice(e) => u == e
    case Signature(s) => u in s.params || u in s.results
    case Struct(fs) => u in fs
    case Interface(plain, ms, es) => !plain && (u in es || exists m <- ms :: u in m.params || u in m.results)
    case Union(ts) => u in ts
  }

  /** There is no encoding for a type without a tag, for one declared inside the
      generic declaration, and for a type with one of those in it. */
  ghost predicate Unwritable(generic: bool, t: Type)
    decreases t
  {
    t.shape.NoTag? || (generic && t.shape.Named? && t.shape.local) || exists u :: Component(t, u) && Unwritable(generic, u)
  }

  // ----- The order -----

  /** The types that are walked, each behind what stands in it: the key and then
      the element, the parameters and then the results, the methods and then the
      embedded types, and the fields, terms and type arguments in order. */
  function Order(t: Type): seq<Type>
    decreases t
  {
    match t.shape
    case TypeParam(_) => [t]
    case Basic => [t]
    case NoTag => [t]
    case Named(_, targs) => OrderAll(targs) + [t]
    case Alias(global, targs, rhs) => if global then OrderAll(targs) + [t] else Order(rhs)
    case Array(e) => Order(e) + [t]
    case Chan(e) => Order(e) + [t]
    case Map(k, e) => Order(k) + Order(e) + [t]
    case Pointer(e) => Order(e) + [t]
    case Slice(e) => Order(e) + [t]
    case Signature(s) => OrderSig(s) + [t]
    case Struct(fs) => OrderAll(fs) + [t]
    case Interface(plain, ms, es) => if plain then [t] else OrderSigs(ms) + OrderAll(es) + [t]
    case Union(ts) => OrderAll(ts) + [t]
  }

  function OrderAll(ts: seq<Type>): seq<Type>
    decreases ts
  {
    if ts == [] then [] else Order(ts[0]) + OrderAll(ts[1..])
  }

  function OrderSig(s: Sig): seq<Type>
    decreases s
  {
    OrderAll(s.params) + OrderAll(s.results)
  }

  function OrderSigs(ms: seq<Sig>): seq<Type>
    decreases ms
  {
    if ms == [] then [] else OrderSig(ms[0]) + OrderSigs(ms[1..])
  }

  /** Each type that depends on a parameter and has no slot takes the next one. */
  ghost function Take(D: seq<Type>, ts: seq<Type>): seq<Type>
    decreases |ts|
  {
    if ts == [] then D
    else Take(if Depends(ts[0]) && ts[0] !in D then D + [ts[0]] else D, ts[1..])
  }

  // ----- Lists -----

  predicate AnyMentions(ts: seq<Type>) { exists k :: 0 <= k < |ts| && Mentions(ts[k]) }

  lemma AnyBoth(xs: seq<Type>, ys: seq<Type>)
    ensures AnyMentions(xs + ys) <==> AnyMentions(xs) || AnyMentions(ys)
  {
    if AnyMentions(xs) {
      var k :| 0 <= k < |xs| && Mentions(xs[k]);
      assert (xs + ys)[k] == xs[k];
    }
    if AnyMentions(ys) {
      var k :| 0 <= k < |ys| && Mentions(ys[k]);
      assert (xs + ys)[|xs| + k] == ys[k];
    }
  }

  lemma AnyFirst(ts: seq<Type>)
    requires ts != []
    ensures AnyMentions(ts) <==> Mentions(ts[0]) || AnyMentions(ts[1..])
  {
    AnyBoth([ts[0]], ts[1..]);
    assert [ts[0]] + ts[1..] == ts;
    assert AnyMentions([ts[0]]) <==> Mentions(ts[0]) by { assert [ts[0]][0] == ts[0]; }
  }

  lemma MentionsParts(t: Type)
    requires !LocalAlias(t)
    ensures Mentions(t) <==> t.shape.TypeParam? || AnyMentions(Parts(t))
  {
    PartMentionsAt(t, 0);
  }

  // ----- A type depends on a parameter if and only if it names one -----

  function First(x: Type): Type { Type(0, Basic) }

  function Second(x: Type): Type { Type(1, Basic) }

  /** Types that name a parameter differ under two choices, and others under
      none. */
  lemma {:induction false} SubstTells(t: Type, f: Type -> Type, g: Type -> Type)
    ensures Mentions(t) ==> Subst(t, First) != Subst(t, Second)
    ensures !Mentions(t) ==> Subst(t, f) == Subst(t, g)
    decreases t
  {
    if LocalAlias(t) {
      SubstTells(t.shape.rhs, f, g);
    } else {
      MentionsParts(t);
      match t.shape
      case TypeParam(_) =>
      case Basic =>
      case NoTag =>
      case Named(_, targs) => AllTell(targs, f, g);
      case Alias(_, targs, _) => AllTell(targs, f, g);
      case Array(e) => AnyFirst([e]); SubstTells(e, f, g);
      case Chan(e) => AnyFirst([e]); SubstTells(e, f, g);
      case Map(k, e) =>
        assert Parts(t)[0] == k && Parts(t)[1] == e;
        SubstTells(k, f, g);
        SubstTells(e, f, g);
      case Pointer(e) => AnyFirst([e]); SubstTells(e, f, g);
      case Slice(e) => AnyFirst([e]); SubstTells(e, f, g);
      case Signature(s) => SigTells(s, f, g);
      case Struct(fs) => AllTell(fs, f, g);
      case Interface(plain, ms, es) =>
        if !plain {
          SigsTell(ms, f, g);
          AllTell(es, f, g);
          AnyBoth(SigTypes(ms), es);
        }
      case Union(ts) => AllTell(ts, f, g);
    }
  }

  lemma {:induction false} AllTell(ts: seq<Type>, f: Type -> Type, g: Type -> Type)
    ensures AnyMentions(ts) ==> SubstAll(ts, First) != SubstAll(ts, Second)
    ensures !AnyMentions(ts) ==> SubstAll(ts, f) == SubstAll(ts, g)
    decreases ts
  {
    if ts != [] {
      AnyFirst(ts);
      SubstTells(ts[0], f, g);
      AllTell(ts[1..], f, g);
      assert SubstAll(ts, First)[0] == Subst(ts[0], First) && SubstAll(ts, First)[1..] == SubstAll(ts[1..], First);
      assert SubstAll(ts, Second)[0] == Subst(ts[0], Second) && SubstAll(ts, Second)[1..] == SubstAll(ts[1..], Second);
    }
  }

  lemma {:induction false} SigTells(s: Sig, f: Type -> Type, g: Type -> Type)
    ensures AnyMentions(s.params + s.results) ==> SubstSig(s, First) != SubstSig(s, Second)
    ensures !AnyMentions(s.params + s.results) ==> SubstSig(s, f) == SubstSig(s, g)
    decreases s
  {
    AnyBoth(s.params, s.results);
    AllTell(s.params, f, g);
    AllTell(s.results, f, g);
  }

  lemma {:induction false} SigsTell(ms: seq<Sig>, f: Type -> Type, g: Type -> Type)
    ensures AnyMentions(SigTypes(ms)) ==> SubstSigs(ms, First) != SubstSigs(ms, Second)
    ensures !AnyMentions(SigTypes(ms)) ==> SubstSigs(ms, f) == SubstSigs(ms, g)
    decreases ms
  {
    if ms != [] {
      AnyBoth(ms[0].params + ms[0].results, SigTypes(ms[1..]));
      SigTells(ms[0], f, g);
      SigsTell(ms[1..], f, g);
      assert SubstSigs(ms, First)[0] == SubstSig(ms[0], First) && SubstSigs(ms, First)[1..] == SubstSigs(ms[1..], First);
      assert SubstSigs(ms, Second)[0] == SubstSig(ms[0], Second) && SubstSigs(ms, Second)[1..] == SubstSigs(ms[1..], Second);
    }
  }

  /** A type takes a slot exactly if other types for its parameters can make it
      another type. */
  lemma MentionsIsDepends(t: Type)
    ensures Mentions(t) <==> Depends(t)
  {
    if Mentions(t) {
      SubstTells(t, First, Second);
    } else {
      forall f: Type -> Type, g: Type -> Type ensures Subst(t, f) == Subst(t, g) { SubstTells(t, f, g); }
    }
  }

  // ----- Encodings -----

  lemma {:induction false} InSigTypes(ms: seq<Sig>, u: Type)
    ensures u in SigTypes(ms) <==> exists m <- ms :: u in m.params || u in m.results
  {
    if ms != [] {
      InSigTypes(ms[1..], u);
      assert ms == [ms[0]] + ms[1..];
    }
  }

  lemma ComponentIsPart(t: Type, u: Type)
    ensures Component(t, u) <==> if LocalAlias(t) then u == t.shape.rhs else u in Parts(t)
  {
    if t.shape.Interface? { InSigTypes(t.shape.methods, u); }
  }

  lemma {:induction false} PartsEncodableAt(generic: bool, t: Type, i: nat)
    requires i <= |Parts(t)|
    ensures PartsEncodable(generic, t, i) <==> forall k :: i <= k < |Parts(t)| ==> Encodable(generic, Parts(t)[k])
    decreases |Parts(t)| - i
  {
    if i < |Parts(t)| { PartsEncodableAt(generic, t, i + 1); }
  }

  /** A type has an encoding unless it or a type in it has none. */
  lemma {:induction false} EncodableIs(generic: bool, t: Type)
    ensures Encodable(generic, t) <==> !Unwritable(generic, t)
    decreases t
  {
    forall u | Component(t, u) ensures Encodable(generic, u) <==> !Unwritable(generic, u) { EncodableIs(generic, u); }
    forall u ensures Component(t, u) <==> if LocalAlias(t) then u == t.shape.rhs else u in Parts(t) { ComponentIsPart(t, u); }
    PartsEncodableAt(generic, t, 0);
  }

  // ----- The order -----

  lemma {:induction false} OrderBoth(xs: seq<Type>, ys: seq<Type>)
    ensures OrderAll(xs + ys) == OrderAll(xs) + OrderAll(ys)
  {
    if xs == [] {
      assert xs + ys == ys;
    } else {
      assert (xs + ys)[0] == xs[0] && (xs + ys)[1..] == xs[1..] + ys;
      OrderBoth(xs[1..], ys);
    }
  }

  lemma {:induction false} OrderOfSigs(ms: seq<Sig>)
    ensures OrderAll(SigTypes(ms)) == OrderSigs(ms)
  {
    if ms != [] {
      OrderOfSigs(ms[1..]);
      OrderBoth(ms[0].params + ms[0].results, SigTypes(ms[1..]));
      OrderBoth(ms[0].params, ms[0].results);
    }
  }

  lemma OrderOne(e: Type)
    ensures OrderAll([e]) == Order(e)
  {
    assert [e][1..] == [] && Order(e) + OrderAll([]) == Order(e);
  }

  lemma OrderTwo(k: Type, e: Type)
    ensures OrderAll([k, e]) == Order(k) + Order(e)
  {
    OrderBoth([k], [e]);
    OrderOne(k);
    OrderOne(e);
    assert [k] + [e] == [k, e];
  }

  lemma OrderOfInterface(ms: seq<Sig>, es: seq<Type>)
    ensures OrderAll(SigTypes(ms) + es) == OrderSigs(ms) + OrderAll(es)
  {
    OrderBoth(SigTypes(ms), es);
    OrderOfSigs(ms);
  }

  lemma OrderIsParts(t: Type)
    requires !LocalAlias(t)
    ensures Order(t) == OrderAll(Parts(t)) + [t]
  {
    if t.shape.Map? { OrderTwo(t.shape.key, t.shape.elem); }
    else if t.shape.Signature? { OrderBoth(t.shape.sig.params, t.shape.sig.results); }
    else if t.shape.Interface? { OrderOfInterface(t.shape.methods, t.shape.embeddeds); }
    else if t.shape.Array? || t.shape.Chan? || t.shape.Pointer? || t.shape.Slice? { OrderOne(t.shape.elem); }
  }

  lemma {:induction false} TakeBoth(D: seq<Type>, xs: seq<Type>, ys: seq<Type>)
    ensures Take(D, xs + ys) == Take(Take(D, xs), ys)
    decreases |xs|
  {
    if xs == [] {
      assert xs + ys == ys;
    } else {
      assert (xs + ys)[0] == xs[0] && (xs + ys)[1..] == xs[1..] + ys;
      TakeBoth(if Depends(xs[0]) && xs[0] !in D then D + [xs[0]] else D, xs[1..], ys);
    }
  }

  lemma TakeOne(D: seq<Type>, t: Type)
    ensures Take(D, [t]) == if Mentions(t) && t !in D then D + [t] else D
  {
    MentionsIsDepends(t);
    assert [t][1..] == [];
  }

  /** A walk gives the next slots to the types that need one, in that order. */
  lemma {:induction false} AllocInOrder(D: seq<Type>, t: Type)
    requires Settled(D)
    ensures Alloc(D, t) == Take(D, Order(t))
    decreases t, 1
  {
    if LocalAlias(t) {
      AllocInOrder(D, t.shape.rhs);
    } else {
      OrderIsParts(t);
      TakeBoth(D, OrderAll(Parts(t)), [t]);
      AllocPartsInOrder(D, t, 0);
      assert Parts(t)[0..] == Parts(t);
      TakeOne(AllocParts(D, t, 0), t);
      if t in D { KnownPartsFixed(D, t); }
      else if t in AllocParts(D, t, 0) { AllocPartsBelow(D, t, 0, t); }
    }
  }

  lemma KnownPartsFixed(D: seq<Type>, t: Type)
    requires Settled(D) && t in D
    ensures AllocParts(D, t, 0) == D
  {
    var i :| 0 <= i < |D| && D[i] == t;
    forall k | 0 <= k < |Parts(t)| ensures Known(D, Parts(t)[k]) { KnownLater(D[..i], D, Parts(t)[k]); }
    AllocPartsFixed(D, t, 0);
  }

  lemma {:induction false} AllocPartsInOrder(D: seq<Type>, t: Type, i: nat)
    requires Settled(D) && i <= |Parts(t)|
    ensures AllocParts(D, t, i) == Take(D, OrderAll(Parts(t)[i..]))
    decreases t, 0, |Parts(t)| - i
  {
    if i < |Parts(t)| {
      var u, rest := Parts(t)[i], Parts(t)[i + 1..];
      assert Parts(t)[i..][0] == u && Parts(t)[i..][1..] == rest;
      AllocInOrder(D, u);
      AllocSettled(D, u);
      AllocPartsInOrder(Alloc(D, u), t, i + 1);
      TakeBoth(D, Order(u), OrderAll(rest));
    }
  }
}

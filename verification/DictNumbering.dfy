/** The numbering of an object dictionary's derived types (export/bodydict.go),
    as functions.

    A type is a finite term here: the walk goes through a use of a defined type
    to its type arguments and no further, so it never comes back. `id` is the
    type's pointer identity. */
module DictNumbering {

  datatype Type = Type(id: nat, shape: Shape)

  /** `local` says that the name is declared inside the dictionary's own
      declaration. `plain` are the interfaces any and comparable. `NoTag` is a
      type the format cannot encode. */
  datatype Shape =
    | Basic | TypeParam(index: int)
    | Named(local: bool, targs: seq<Type>) | Alias(global: bool, targs: seq<Type>, rhs: Type)
    | Array(elem: Type) | Chan(elem: Type) | Map(key: Type, elem: Type) | Pointer(elem: Type) | Slice(elem: Type)
    | Signature(sig: Sig) | Struct(fields: seq<Type>)
    | Interface(plain: bool, methods: seq<Sig>, embeddeds: seq<Type>) | Union(terms: seq<Type>)
    | NoTag

  datatype Sig = Sig(params: seq<Type>, results: seq<Type>)

  predicate LocalAlias(t: Type) { t.shape.Alias? && !t.shape.global }

  /** A local alias is stripped to what it names. */
  function Strip(t: Type): (r: Type)
    ensures !LocalAlias(r) && (r == t || r < t)
  {
    if LocalAlias(t) then Strip(t.shape.rhs) else t
  }

  function SigTypes(sigs: seq<Sig>): (r: seq<Type>)
    ensures forall i :: 0 <= i < |r| ==> exists k :: 0 <= k < |sigs| && r[i] < sigs[k]
  {
    if sigs == [] then [] else sigs[0].params + sigs[0].results + SigTypes(sigs[1..])
  }

  /** The types the encoding of a type names, in the order it names them. */
  function Parts(t: Type): (r: seq<Type>)
    ensures forall i :: 0 <= i < |r| ==> r[i] < t
  {
    match t.shape
    case Named(_, targs) => targs
    case Alias(_, targs, rhs) => targs
    case Array(e) => [e]
    case Chan(e) => [e]
    case Map(k, e) => [k, e]
    case Pointer(e) => [e]
    case Slice(e) => [e]
    case Signature(s) => s.params + s.results
    case Struct(fs) => fs
    case Interface(plain, ms, es) => if plain then [] else SigTypes(ms) + es
    case Union(ts) => ts
    case _ => []
  }

  /** The type's identity depends on a type parameter. */
  predicate Mentions(t: Type)
    decreases t, 1
  {
    if LocalAlias(t) then Mentions(t.shape.rhs)
    else t.shape.TypeParam? || PartMentions(t, 0)
  }

  predicate PartMentions(t: Type, i: nat)
    requires i <= |Parts(t)|
    decreases t, 0, |Parts(t)| - i
  {
    i < |Parts(t)| && (Mentions(Parts(t)[i]) || PartMentions(t, i + 1))
  }

  /** Every type below it has an encoding in this dictionary. In a generic
      declaration a use of a type declared inside it has none. */
  predicate Encodable(generic: bool, t: Type)
    decreases t, 1
  {
    if LocalAlias(t) then Encodable(generic, t.shape.rhs)
    else !t.shape.NoTag? && !(generic && t.shape.Named? && t.shape.local) && PartsEncodable(generic, t, 0)
  }

  predicate PartsEncodable(generic: bool, t: Type, i: nat)
    requires i <= |Parts(t)|
    decreases t, 0, |Parts(t)| - i
  {
    i < |Parts(t)| ==> Encodable(generic, Parts(t)[i]) && PartsEncodable(generic, t, i + 1)
  }

  // ----- The numbering -----

  /** The slots after a type has been walked: those of its parts, then its own,
      if it has one. */
  function Alloc(D: seq<Type>, t: Type): seq<Type>
    decreases t, 1
  {
    if LocalAlias(t) then Alloc(D, t.shape.rhs)
    else if t in D then D
    else
      var D1 := AllocParts(D, t, 0);
      if Mentions(t) then D1 + [t] else D1
  }

  function AllocParts(D: seq<Type>, t: Type, i: nat): seq<Type>
    requires i <= |Parts(t)|
    decreases t, 0, |Parts(t)| - i
  {
    if i == |Parts(t)| then D else AllocParts(Alloc(D, Parts(t)[i]), t, i + 1)
  }

  function AllocAll(D: seq<Type>, ts: seq<Type>): seq<Type>
    decreases ts
  {
    if ts == [] then D else AllocAll(Alloc(D, ts[0]), ts[1..])
  }

  /** The type has its slot, if it needs one. */
  predicate Known(D: seq<Type>, t: Type) { Mentions(t) ==> Strip(t) in D }

  predicate PartsKnown(D: seq<Type>, t: Type) { forall i :: 0 <= i < |Parts(t)| ==> Known(D, Parts(t)[i]) }

  /** Each slot holds a derived type whose parts have their slots below it, and
      no type has two slots. */
  predicate Settled(D: seq<Type>) {
    && (forall i :: 0 <= i < |D| ==> Mentions(D[i]) && !LocalAlias(D[i]) && PartsKnown(D[..i], D[i]))
    && (forall i, j :: 0 <= i < j < |D| ==> D[i] != D[j])
  }

  lemma {:induction false} StripMentions(t: Type)
    ensures Mentions(Strip(t)) == Mentions(t)
  {
    if LocalAlias(t) { StripMentions(t.shape.rhs); }
  }

  lemma {:induction false} PartMentionsAt(t: Type, i: nat)
    requires i <= |Parts(t)|
    ensures PartMentions(t, i) <==> exists k :: i <= k < |Parts(t)| && Mentions(Parts(t)[k])
    decreases |Parts(t)| - i
  {
    if i < |Parts(t)| { PartMentionsAt(t, i + 1); }
  }

  /** Numbering only adds slots at the end. */
  lemma {:induction false} AllocGrows(D: seq<Type>, t: Type)
    ensures D <= Alloc(D, t)
    decreases t, 1
  {
    if LocalAlias(t) { AllocGrows(D, t.shape.rhs); }
    else if t !in D { AllocPartsGrows(D, t, 0); }
  }

  lemma {:induction false} AllocPartsGrows(D: seq<Type>, t: Type, i: nat)
    requires i <= |Parts(t)|
    ensures D <= AllocParts(D, t, i)
    decreases t, 0, |Parts(t)| - i
  {
    if i < |Parts(t)| {
      AllocGrows(D, Parts(t)[i]);
      AllocPartsGrows(Alloc(D, Parts(t)[i]), t, i + 1);
    }
  }

  lemma KnownLater(D: seq<Type>, E: seq<Type>, t: Type)
    requires D <= E && Known(D, t)
    ensures Known(E, t)
  {
    if Mentions(t) {
      var i :| 0 <= i < |D| && D[i] == Strip(t);
      assert E[i] == D[i];
    }
  }

  /** A walk leaves the type known. */
  lemma {:induction false} AllocKnown(D: seq<Type>, t: Type)
    ensures Known(Alloc(D, t), t)
  {
    if LocalAlias(t) { AllocKnown(D, t.shape.rhs); }
  }

  lemma {:induction false} AllocPartsKnown(D: seq<Type>, t: Type, i: nat)
    requires i <= |Parts(t)|
    ensures forall k :: i <= k < |Parts(t)| ==> Known(AllocParts(D, t, i), Parts(t)[k])
    decreases |Parts(t)| - i
  {
    if i < |Parts(t)| {
      var D1 := Alloc(D, Parts(t)[i]);
      AllocKnown(D, Parts(t)[i]);
      AllocPartsGrows(D1, t, i + 1);
      KnownLater(D1, AllocParts(D1, t, i + 1), Parts(t)[i]);
      AllocPartsKnown(D1, t, i + 1);
    }
  }

  /** A walk gives no slot to a type that contains the one it starts from. */
  lemma {:induction false} AllocBelow(D: seq<Type>, t: Type, x: Type)
    requires x in Alloc(D, t) && x !in D
    ensures x == t || x < t
    decreases t, 1
  {
    if LocalAlias(t) { AllocBelow(D, t.shape.rhs, x); }
    else if x != t { AllocPartsBelow(D, t, 0, x); }
  }

  lemma {:induction false} AllocPartsBelow(D: seq<Type>, t: Type, i: nat, x: Type)
    requires i <= |Parts(t)|
    requires x in AllocParts(D, t, i) && x !in D
    ensures x < t
    decreases t, 0, |Parts(t)| - i
  {
    if i < |Parts(t)| {
      if x in Alloc(D, Parts(t)[i]) { AllocBelow(D, Parts(t)[i], x); }
      else { AllocPartsBelow(Alloc(D, Parts(t)[i]), t, i + 1, x); }
    }
  }

  /** Every walk keeps the dictionary settled. */
  lemma {:induction false} AllocSettled(D: seq<Type>, t: Type)
    requires Settled(D)
    ensures Settled(Alloc(D, t))
    decreases t, 1
  {
    if LocalAlias(t) { AllocSettled(D, t.shape.rhs); }
    else if t !in D {
      AllocPartsSettled(D, t, 0);
      var D1 := AllocParts(D, t, 0);
      if Mentions(t) {
        AllocPartsKnown(D, t, 0);
        if t in D1 { AllocPartsBelow(D, t, 0, t); }
        var E := D1 + [t];
        assert E[..|D1|] == D1;
        forall i | 0 <= i < |E| ensures Mentions(E[i]) && !LocalAlias(E[i]) && PartsKnown(E[..i], E[i]) {
          if i < |D1| { assert E[..i] == D1[..i]; }
        }
      }
    }
  }

  lemma {:induction false} AllocPartsSettled(D: seq<Type>, t: Type, i: nat)
    requires i <= |Parts(t)| && Settled(D)
    ensures Settled(AllocParts(D, t, i))
    decreases t, 0, |Parts(t)| - i
  {
    if i < |Parts(t)| {
      AllocSettled(D, Parts(t)[i]);
      AllocPartsSettled(Alloc(D, Parts(t)[i]), t, i + 1);
    }
  }

  /** A walk of a type that is known allocates nothing: not of one that has its
      slot, and not of one that needs none. */
  lemma {:induction false} AllocFixed(D: seq<Type>, t: Type)
    requires Known(D, t)
    ensures Alloc(D, t) == D
    decreases t, 1
  {
    if LocalAlias(t) { AllocFixed(D, t.shape.rhs); }
    else if t !in D {
      PartMentionsAt(t, 0);
      AllocPartsFixed(D, t, 0);
    }
  }

  lemma {:induction false} AllocPartsFixed(D: seq<Type>, t: Type, i: nat)
    requires i <= |Parts(t)|
    requires forall k :: i <= k < |Parts(t)| ==> Known(D, Parts(t)[k])
    ensures AllocParts(D, t, i) == D
    decreases t, 0, |Parts(t)| - i
  {
    if i < |Parts(t)| {
      AllocFixed(D, Parts(t)[i]);
      AllocPartsFixed(D, t, i + 1);
    }
  }

  lemma {:induction false} AllocAllFixed(D: seq<Type>, ts: seq<Type>)
    requires forall t <- ts :: Known(D, t)
    ensures AllocAll(D, ts) == D
  {
    if ts != [] {
      AllocFixed(D, ts[0]);
      AllocAllFixed(D, ts[1..]);
    }
  }

  lemma {:induction false} AllocAllKnown(D: seq<Type>, ts: seq<Type>)
    ensures D <= AllocAll(D, ts)
    ensures forall t <- ts :: Known(AllocAll(D, ts), t)
    decreases ts
  {
    if ts != [] {
      var D1 := Alloc(D, ts[0]);
      AllocGrows(D, ts[0]);
      AllocKnown(D, ts[0]);
      AllocAllKnown(D1, ts[1..]);
      KnownLater(D1, AllocAll(D1, ts[1..]), ts[0]);
    }
  }

  lemma {:induction false} AllocAllSettled(D: seq<Type>, ts: seq<Type>)
    requires Settled(D)
    ensures Settled(AllocAll(D, ts))
    decreases ts
  {
    if ts != [] {
      AllocSettled(D, ts[0]);
      AllocAllSettled(Alloc(D, ts[0]), ts[1..]);
    }
  }

  /** The parts of a type that has a slot have theirs below it. */
  lemma PartsBelow(D: seq<Type>, i: nat, k: nat)
    requires Settled(D) && i < |D| && k < |Parts(D[i])| && Mentions(Parts(D[i])[k])
    ensures exists j :: 0 <= j < i && D[j] == Strip(Parts(D[i])[k])
  {
    assert Known(D[..i], Parts(D[i])[k]);
    var j :| 0 <= j < |D[..i]| && D[..i][j] == Strip(Parts(D[i])[k]);
  }
}

/** The object dictionary of one declaration (export/bodydict.go), and its
    writer (export/writer.go). */
module Dictionary {
  import opened Wrappers
  import opened DictNumbering
  import DictOrder

  /** A use of a type in the dictionary: a slot, or a type of its own element.
      Equality is sameTypeUse. */
  datatype TypeUse = Slot(idx: nat) | Of(typ: Type)

  /** `index` is the position the parameter was declared at, or negative. */
  datatype Param = Param(id: nat, index: int)

  datatype Selector = Selector(pkg: string, name: string)

  datatype ObjUse = ObjUse(obj: nat, targs: seq<TypeUse>)

  datatype Itab = Itab(typ: TypeUse, iface: TypeUse)

  datatype MethodExpr = MethodExpr(typeParam: nat, sel: Selector)

  /** What the search of a list for an equal entry gives, and the list after. */
  method Intern<T(==)>(list: seq<T>, x: T) returns (slot: nat, after: seq<T>)
    ensures slot < |after| && after[slot] == x && x !in after[..slot]
    ensures after == if x in list then list else list + [x]
  {
    for i := 0 to |list|
      invariant x !in list[..i]
    {
      if list[i] == x { return i, list; }
    }
    assert list[..|list|] == list;
    return |list|, list + [x];
  }

  /** A declaration in the order its parts are numbered: the types of its own
      definition, then, for each method, the receiver, the signature and the
      types its body names. */
  datatype Member = Member(recv: Type, sig: Sig, body: seq<Type>)

  function MemberTypes(m: Member): seq<Type> { [m.recv] + (m.sig.params + m.sig.results) }

  class Dict {
    const implicits: seq<Param>
    const receivers: seq<Param>
    const typeParams: seq<Param>

    var derived: seq<Type>
    var derivedIdx: map<Type, nat>
    var nonDerived: set<Type>

    var methodExprs: seq<MethodExpr>
    var subdicts: seq<ObjUse>
    var rtypes: seq<TypeUse>
    var itabs: seq<Itab>

    constructor (implicits: seq<Param>, receivers: seq<Param>, typeParams: seq<Param>)
      ensures Valid() && derived == [] && rtypes == [] && itabs == [] && subdicts == [] && methodExprs == []
      ensures this.implicits == implicits && this.receivers == receivers && this.typeParams == typeParams
    {
      this.implicits, this.receivers, this.typeParams := implicits, receivers, typeParams;
      derived, derivedIdx, nonDerived := [], map[], {};
      methodExprs, subdicts, rtypes, itabs := [], [], [], [];
    }

    predicate Generic() { |implicits| + |receivers| + |typeParams| != 0 }

    ghost predicate Valid()
      reads this
    {
      && Settled(derived)
      && (forall i :: 0 <= i < |derived| ==> derived[i] in derivedIdx && derivedIdx[derived[i]] == i)
      && (forall t <- derivedIdx :: derivedIdx[t] < |derived| && derived[derivedIdx[t]] == t)
      && (forall t <- nonDerived :: !Mentions(t))
      && (forall t <- derived :: Encodable(Generic(), t))
      && (forall t <- nonDerived :: Encodable(Generic(), t))
    }

    // ----- The derived types -----

    /** The slot of a type, or None if it needs none, and an error if the type
        has no encoding. The slots after are those of the numbering. */
    method Derive(typ: Type) returns (r: Result<Option<nat>, ()>)
      requires Valid()
      modifies `derived, `derivedIdx, `nonDerived
      ensures Valid() && old(derived) <= derived
      ensures r.Ok? <==> Encodable(Generic(), typ)
      ensures r.Ok? ==> derived == Alloc(old(derived), typ)
      ensures r.Ok? ==> (r.value.Some? <==> Mentions(typ))
      ensures r.Ok? && r.value.Some? ==> r.value.value < |derived| && derived[r.value.value] == Strip(typ)
      ensures r.Ok? <==> !DictOrder.Unwritable(Generic(), typ)
      ensures r.Ok? ==> (r.value.Some? <==> DictOrder.Depends(typ))
      ensures r.Ok? ==> derived == DictOrder.Take(old(derived), DictOrder.Order(typ))
      decreases typ, 1
    {
      DictOrder.EncodableIs(Generic(), typ);
      DictOrder.MentionsIsDepends(typ);
      DictOrder.AllocInOrder(derived, typ);
      var t := typ;
      while LocalAlias(t)
        invariant Encodable(Generic(), t) == Encodable(Generic(), typ) && Mentions(t) == Mentions(typ)
        invariant Alloc(derived, t) == Alloc(derived, typ) && Strip(t) == Strip(typ) && (t == typ || t < typ)
        decreases t
      {
        t := t.shape.rhs;
      }
      if t in derivedIdx { return Ok(Some(derivedIdx[t])); }
      if t in nonDerived {
        AllocFixed(derived, t);
        return Ok(None);
      }
      AllocSettled(derived, t);
      AllocGrows(derived, t);
      var walked := WalkDerived(t);
      if walked.Err? { return Err(()); }
      if !walked.value {
        nonDerived := nonDerived + {t};
        return Ok(None);
      }
      var slot := |derived|;
      derived := derived + [t];
      derivedIdx := derivedIdx[t := slot];
      return Ok(Some(slot));
    }

    /** Every part is walked, in order, and none is skipped once one has
        answered yes. */
    method WalkDerived(typ: Type) returns (r: Result<bool, ()>)
      requires Valid() && !LocalAlias(typ) && typ !in derived
      modifies `derived, `derivedIdx, `nonDerived
      ensures Valid() && old(derived) <= derived
      ensures r.Ok? <==> Encodable(Generic(), typ)
      ensures r.Ok? ==> derived == AllocParts(old(derived), typ, 0) && r.value == Mentions(typ)
      ensures typ !in derived
      decreases typ, 0
    {
      if typ.shape.NoTag? { return Err(()); }
      if typ.shape.TypeParam? { return Ok(true); }
      // A type declared inside a generic declaration carries that
      // declaration's type parameters implicitly.
      if Generic() && typ.shape.Named? && typ.shape.local { return Err(()); }
      var parts := Parts(typ);
      var found := false;
      for i := 0 to |parts|
        invariant Valid() && old(derived) <= derived && typ !in derived
        invariant AllocParts(derived, typ, i) == AllocParts(old(derived), typ, 0)
        invariant PartsEncodable(Generic(), typ, i) == PartsEncodable(Generic(), typ, 0)
        invariant (found || PartMentions(typ, i)) == PartMentions(typ, 0)
      {
        ghost var before := derived;
        var got := Derive(parts[i]);
        if got.Err? { return Err(()); }
        if typ in derived { AllocBelow(before, parts[i], typ); }
        found := found || got.value.Some?;
      }
      return Ok(found);
    }

    /** Each of a list of types is walked. */
    method DeriveAll(ts: seq<Type>) returns (ok: bool)
      requires Valid()
      modifies `derived, `derivedIdx, `nonDerived
      ensures Valid() && old(derived) <= derived
      ensures ok <==> forall t <- ts :: Encodable(Generic(), t)
      ensures ok ==> derived == AllocAll(old(derived), ts)
    {
      for i := 0 to |ts|
        invariant Valid() && old(derived) <= derived
        invariant AllocAll(derived, ts[i..]) == AllocAll(old(derived), ts)
        invariant forall k :: 0 <= k < i ==> Encodable(Generic(), ts[k])
      {
        assert ts[i..][1..] == ts[i + 1..];
        var got := Derive(ts[i]);
        if got.Err? {
          assert ts[i] in ts;
          return false;
        }
      }
      ok := true;
    }

    // ----- The runtime lists -----

    method RTypeIndex(t: TypeUse) returns (slot: nat)
      modifies `rtypes
      ensures slot < |rtypes| && rtypes[slot] == t
      ensures rtypes == if t in old(rtypes) then old(rtypes) else old(rtypes) + [t]
    {
      slot, rtypes := Intern(rtypes, t);
    }

    method ItabIndex(typ: TypeUse, iface: TypeUse) returns (slot: nat)
      modifies `itabs
      ensures slot < |itabs| && itabs[slot] == Itab(typ, iface)
      ensures itabs == if Itab(typ, iface) in old(itabs) then old(itabs) else old(itabs) + [Itab(typ, iface)]
    {
      slot, itabs := Intern(itabs, Itab(typ, iface));
    }

    method SubdictIndex(use: ObjUse) returns (slot: nat)
      modifies `subdicts
      ensures slot < |subdicts| && subdicts[slot] == use
      ensures subdicts == if use in old(subdicts) then old(subdicts) else old(subdicts) + [use]
    {
      slot, subdicts := Intern(subdicts, use);
    }

    method MethodExprIndex(tp: nat, sel: Selector) returns (slot: nat)
      modifies `methodExprs
      ensures slot < |methodExprs| && methodExprs[slot] == MethodExpr(tp, sel)
      ensures methodExprs
              == if MethodExpr(tp, sel) in old(methodExprs) then old(methodExprs) else old(methodExprs) + [MethodExpr(tp, sel)]
    {
      slot, methodExprs := Intern(methodExprs, MethodExpr(tp, sel));
    }

    // ----- The type parameters -----

    method TypeParamIndex(tp: Param) returns (r: Option<nat>)
      ensures r == ParamIndex(implicits, receivers, typeParams, tp)
    {
      r := Find(implicits, tp);
      if r.Some? { return; }
      r := Find(receivers, tp);
      if r.Some? { return Some(|implicits| + r.value); }
      var base := |implicits| + |receivers|;
      r := Find(typeParams, tp);
      if r.Some? { return Some(base + r.value); }
      if tp.index >= 0 {
        if tp.index < |receivers| { return Some(|implicits| + tp.index); }
        if receivers == [] && tp.index < |typeParams| { return Some(base + tp.index); }
      }
      r := None;
    }

    // ----- The writer -----

    /** typeRefOf: a slot of this dictionary, or a type with an element of its
        own. */
    method TypeRefOf(t: Type) returns (r: Result<TypeUse, Refusal>)
      requires Valid()
      modifies `derived, `derivedIdx, `nonDerived
      ensures Valid() && old(derived) <= derived
      ensures r.Ok? <==> Encodable(Generic(), t)
      ensures r.Ok? ==> derived == Alloc(old(derived), t) && IsRef(derived, t, r.value)
      ensures r.Err? ==> r.error == NoEncoding
    {
      var got := Derive(t);
      if got.Err? { return Err(NoEncoding); }
      r := Ok(if got.value.Some? then Slot(got.value.value) else Of(Strip(t)));
    }

    /** typDef of slot i: a reference to each part, none of which is new. */
    method WriteElement(i: nat) returns (r: Result<seq<TypeUse>, Refusal>)
      requires Valid() && i < |derived|
      modifies `derived, `derivedIdx, `nonDerived
      ensures Valid() && derived == old(derived)
      ensures r.Ok? && AreRefs(derived, Parts(derived[i]), r.value) && AreBelow(r.value, i)
    {
      var t := derived[i];
      assert t in derived;
      var refs: seq<TypeUse> := [];
      for k := 0 to |Parts(t)|
        invariant Valid() && derived == old(derived)
        invariant AreRefs(derived, Parts(t)[..k], refs) && AreBelow(refs, i)
      {
        PartIsWritten(derived, Generic(), i, k);
        var ref := TypeRefOf(Parts(t)[k]);
        if ref.Err? { return Err(NoEncoding); }
        OneMore(derived, Parts(t), k, refs, ref.value);
        refs := refs + [ref.value];
      }
      assert Parts(t)[..|Parts(t)|] == Parts(t);
      r := Ok(refs);
    }

    method WriteConstraints(constraints: seq<Type>) returns (r: Result<seq<TypeUse>, Refusal>)
      requires Valid()
      modifies `derived, `derivedIdx, `nonDerived
      ensures Valid() && old(derived) <= derived
      ensures r.Ok? <==> forall c <- constraints :: Encodable(Generic(), c)
      ensures r.Err? ==> r.error == NoEncoding
      ensures r.Ok? ==> derived == AllocAll(old(derived), constraints) && AreRefs(derived, constraints, r.value)
    {
      var refs: seq<TypeUse> := [];
      for i := 0 to |constraints|
        invariant Valid() && old(derived) <= derived
        invariant AllocAll(derived, constraints[i..]) == AllocAll(old(derived), constraints)
        invariant forall j :: 0 <= j < i ==> Encodable(Generic(), constraints[j])
        invariant AreRefs(derived, constraints[..i], refs)
      {
        assert constraints[i..][1..] == constraints[i + 1..];
        ghost var before := derived;
        var ref := TypeRefOf(constraints[i]);
        if ref.Err? {
          assert constraints[i] in constraints;
          return Err(ref.error);
        }
        RefsLater(before, derived, constraints[..i], refs);
        refs := refs + [ref.value];
      }
      assert constraints[..|constraints|] == constraints;
      r := Ok(refs);
    }

    method WriteElements() returns (r: Result<seq<seq<TypeUse>>, Refusal>)
      requires Valid()
      modifies `derived, `derivedIdx, `nonDerived
      ensures Valid() && derived == old(derived)
      ensures r.Ok? && AreElements(derived, r.value)
    {
      ghost var slots := derived;
      var n := |derived|;
      var elements: seq<seq<TypeUse>> := [];
      for i := 0 to n
        invariant Valid() && derived == slots && |elements| == i && FirstElements(slots, elements)
      {
        var element := WriteElement(i);
        if element.Err? { return Err(NoEncoding); }
        OneMoreElement(slots, elements, element.value);
        elements := elements + [element.value];
      }
      if |derived| != n { return Err(NamedMore); }
      r := Ok(elements);
    }

    /** objDict: the constraints, which may take slots, then the element of each
        slot, which may not. */
    method ObjDict(constraints: seq<Type>) returns (r: Result<Written, Refusal>)
      requires Valid()
      modifies `derived, `derivedIdx, `nonDerived
      ensures Valid() && old(derived) <= derived
      ensures r.Ok? <==> forall c <- constraints :: Encodable(Generic(), c)
      ensures r.Err? ==> r.error == NoEncoding
      ensures r.Ok? ==> derived == AllocAll(old(derived), constraints)
      ensures r.Ok? ==> AreRefs(derived, constraints, r.value.constraints) && AreElements(derived, r.value.elements)
    {
      var refs := WriteConstraints(constraints);
      if refs.Err? { return Err(refs.error); }
      var elements := WriteElements();
      if elements.Err? { return Err(NamedMore); }
      r := Ok(Written(refs.value, elements.value));
    }

    /** BuildTypeBodies, as far as it numbers: the underlying type, then each
        method's receiver, signature and body. It fails only where one of them
        has no encoding. */
    method BuildTypeBodies(underlying: Type, members: seq<Member>) returns (ok: bool)
      requires Valid() && derived == []
      modifies `derived, `derivedIdx, `nonDerived
      ensures Valid()
      ensures ok <==> forall t <- Walked(underlying, members) :: Encodable(Generic(), t)
      ensures ok ==> derived == AllocAll([], Walked(underlying, members))
      ensures ok ==> Numbered(Generic(), derived, underlying, members)
    {
      assert Walked(underlying, members[..0]) == [underlying];
      InWalked(underlying, members);
      var got := Derive(underlying);
      if got.Err? { return false; }
      for i := 0 to |members|
        invariant Valid() && derived == AllocAll([], Walked(underlying, members[..i]))
        invariant forall t <- Walked(underlying, members[..i]) :: Encodable(Generic(), t)
      {
        WalkedNext(underlying, members, i);
        ok := DeriveAll(MemberTypes(members[i]) + members[i].body);
        if !ok { return; }
        AllocAllBoth([], Walked(underlying, members[..i]), MemberTypes(members[i]) + members[i].body);
      }
      assert members[..|members|] == members;
      WalkedIsNumbered(Generic(), derived, underlying, members);
      ok := true;
    }

    /** doObj of a generic type with methods, whose dictionary is sealed. */
    method DoObj(underlying: Type, members: seq<Member>) returns (r: Result<(), Refusal>)
      requires Valid()
      modifies `derived, `derivedIdx, `nonDerived
      ensures Valid()
      ensures r.Ok? <==> Numbered(Generic(), old(derived), underlying, members)
      ensures r.Ok? ==> derived == old(derived)
      ensures r == Err(NoEncoding) <==> exists t <- Signatures(underlying, members) :: !Encodable(Generic(), t)
    {
      var before := |derived|;
      InSignatures(underlying, members);
      var ref := TypeRefOf(underlying);
      if ref.Err? { return Err(ref.error); }
      assert Signatures(underlying, members[..0]) == [underlying];
      for i := 0 to |members|
        invariant Valid() && derived == AllocAll(old(derived), Signatures(underlying, members[..i]))
        invariant forall t <- Signatures(underlying, members[..i]) :: Encodable(Generic(), t)
      {
        SignaturesNext(underlying, members, i);
        var ok := DeriveAll(MemberTypes(members[i]));
        if !ok { return Err(NoEncoding); }
        AllocAllBoth(old(derived), Signatures(underlying, members[..i]), MemberTypes(members[i]));
      }
      assert members[..|members|] == members;
      SignaturesAreNumbered(Generic(), old(derived), underlying, members);
      if |derived| != before { return Err(NamedMore); }
      r := Ok(());
    }
  }

  /** The types a definition names, in order, without the bodies and with them. */
  function Signatures(underlying: Type, members: seq<Member>): seq<Type> {
    if members == [] then [underlying]
    else Signatures(underlying, members[..|members| - 1]) + MemberTypes(members[|members| - 1])
  }

  function Walked(underlying: Type, members: seq<Member>): seq<Type> {
    if members == [] then [underlying]
    else
      var last := members[|members| - 1];
      Walked(underlying, members[..|members| - 1]) + (MemberTypes(last) + last.body)
  }

  lemma SignaturesNext(underlying: Type, members: seq<Member>, i: nat)
    requires i < |members|
    ensures Signatures(underlying, members[..i + 1]) == Signatures(underlying, members[..i]) + MemberTypes(members[i])
  {
    assert members[..i + 1][..i] == members[..i];
  }

  lemma WalkedNext(underlying: Type, members: seq<Member>, i: nat)
    requires i < |members|
    ensures Walked(underlying, members[..i + 1]) == Walked(underlying, members[..i]) + (MemberTypes(members[i]) + members[i].body)
  {
    assert members[..i + 1][..i] == members[..i];
  }

  lemma {:induction false} AllocAllBoth(D: seq<Type>, xs: seq<Type>, ys: seq<Type>)
    ensures AllocAll(D, xs + ys) == AllocAll(AllocAll(D, xs), ys)
    decreases |xs|
  {
    if xs == [] {
      assert xs + ys == ys;
    } else {
      assert (xs + ys)[0] == xs[0] && (xs + ys)[1..] == xs[1..] + ys;
      AllocAllBoth(Alloc(D, xs[0]), xs[1..], ys);
    }
  }

  lemma {:induction false} InSignatures(underlying: Type, members: seq<Member>)
    ensures underlying in Signatures(underlying, members)
    ensures forall m <- members, t <- MemberTypes(m) :: t in Signatures(underlying, members)
    ensures forall t <- Signatures(underlying, members) :: t == underlying || exists m <- members :: t in MemberTypes(m)
  {
    if members != [] {
      var n := |members| - 1;
      InSignatures(underlying, members[..n]);
      assert members == members[..n] + [members[n]];
    }
  }

  lemma {:induction false} InWalked(underlying: Type, members: seq<Member>)
    ensures underlying in Walked(underlying, members)
    ensures forall m <- members, t <- MemberTypes(m) + m.body :: t in Walked(underlying, members)
  {
    if members != [] {
      var n := |members| - 1;
      InWalked(underlying, members[..n]);
      assert members == members[..n] + [members[n]];
    }
  }

  lemma {:induction false} SignaturesInWalked(underlying: Type, members: seq<Member>)
    ensures forall t <- Signatures(underlying, members) :: t in Walked(underlying, members)
  {
    if members != [] { SignaturesInWalked(underlying, members[..|members| - 1]); }
  }

  lemma WalkedIsNumbered(generic: bool, D: seq<Type>, underlying: Type, members: seq<Member>)
    requires D == AllocAll([], Walked(underlying, members))
    requires forall t <- Walked(underlying, members) :: Encodable(generic, t)
    ensures Numbered(generic, D, underlying, members)
  {
    AllocAllKnown([], Walked(underlying, members));
    SignaturesInWalked(underlying, members);
    InSignatures(underlying, members);
  }

  /** A definition whose types can be written takes no slot exactly if it is
      numbered. */
  lemma SignaturesAreNumbered(generic: bool, D: seq<Type>, underlying: Type, members: seq<Member>)
    requires forall t <- Signatures(underlying, members) :: Encodable(generic, t)
    ensures var E := AllocAll(D, Signatures(underlying, members));
            && D <= E && (|E| == |D| <==> Numbered(generic, D, underlying, members))
  {
    var ts := Signatures(underlying, members);
    InSignatures(underlying, members);
    AllocAllKnown(D, ts);
    if Numbered(generic, D, underlying, members) {
      forall t <- ts ensures Known(D, t) { }
      AllocAllFixed(D, ts);
    }
  }

  /** Every type a definition names can be written, and takes no slot any more. */
  ghost predicate Numbered(generic: bool, D: seq<Type>, underlying: Type, members: seq<Member>) {
    && Encodable(generic, underlying) && Known(D, underlying)
    && forall m <- members, t <- MemberTypes(m) :: Encodable(generic, t) && Known(D, t)
  }

  // ----- What the writer writes -----

  /** NamedMore is a walk that took a slot where none may be taken. */
  datatype Refusal = NoEncoding | NamedMore

  datatype Written = Written(constraints: seq<TypeUse>, elements: seq<seq<TypeUse>>)

  /** The reference by which a type is written against the slots `D`. */
  ghost predicate IsRef(D: seq<Type>, t: Type, u: TypeUse) {
    if Mentions(t) then u.Slot? && u.idx < |D| && D[u.idx] == Strip(t) else u == Of(Strip(t))
  }

  ghost predicate AreRefs(D: seq<Type>, ts: seq<Type>, us: seq<TypeUse>) {
    |us| == |ts| && forall k :: 0 <= k < |ts| ==> IsRef(D, ts[k], us[k])
  }

  ghost predicate AreElements(D: seq<Type>, es: seq<seq<TypeUse>>) { |es| == |D| && FirstElements(D, es) }

  ghost predicate FirstElements(D: seq<Type>, es: seq<seq<TypeUse>>) {
    |es| <= |D| && forall i :: 0 <= i < |es| ==> AreRefs(D, Parts(D[i]), es[i])
  }

  lemma OneMoreElement(D: seq<Type>, es: seq<seq<TypeUse>>, e: seq<TypeUse>)
    requires |es| < |D| && FirstElements(D, es) && AreRefs(D, Parts(D[|es|]), e)
    ensures FirstElements(D, es + [e])
  {
  }

  /** No slot among the references is the i'th or above. */
  predicate AreBelow(us: seq<TypeUse>, i: nat) { forall k :: 0 <= k < |us| && us[k].Slot? ==> us[k].idx < i }

  lemma OneMore(D: seq<Type>, ts: seq<Type>, k: nat, us: seq<TypeUse>, u: TypeUse)
    requires k < |ts| && AreRefs(D, ts[..k], us) && IsRef(D, ts[k], u)
    ensures AreRefs(D, ts[..k + 1], us + [u])
  {
    forall j | 0 <= j < k + 1 ensures IsRef(D, ts[..k + 1][j], (us + [u])[j]) {
      if j < k { assert IsRef(D, ts[..k][j], us[j]); }
    }
  }

  // What an element refers to, said on the shape of its type.

  ghost predicate DescribesSig(D: seq<Type>, s: Sig, us: seq<TypeUse>) {
    var n := |s.params|;
    n <= |us| && AreRefs(D, s.params, us[..n]) && AreRefs(D, s.results, us[n..])
  }

  ghost predicate DescribesSigs(D: seq<Type>, ms: seq<Sig>, us: seq<TypeUse>) {
    if ms == [] then us == []
    else exists n :: 0 <= n <= |us| && DescribesSig(D, ms[0], us[..n]) && DescribesSigs(D, ms[1..], us[n..])
  }

  ghost predicate Describes(D: seq<Type>, t: Type, us: seq<TypeUse>) {
    match t.shape
    case TypeParam(_) => us == []
    case Basic => us == []
    case NoTag => us == []
    case Named(_, targs) => AreRefs(D, targs, us)
    case Alias(_, targs, _) => AreRefs(D, targs, us)
    case Array(e) => |us| == 1 && IsRef(D, e, us[0])
    case Chan(e) => |us| == 1 && IsRef(D, e, us[0])
    case Map(k, e) => |us| == 2 && IsRef(D, k, us[0]) && IsRef(D, e, us[1])
    case Pointer(e) => |us| == 1 && IsRef(D, e, us[0])
    case Slice(e) => |us| == 1 && IsRef(D, e, us[0])
    case Signature(s) => DescribesSig(D, s, us)
    case Struct(fs) => AreRefs(D, fs, us)
    case Interface(plain, ms, es) =>
      if plain then us == []
      else exists n :: 0 <= n <= |us| && DescribesSigs(D, ms, us[..n]) && AreRefs(D, es, us[n..])
    case Union(ts) => AreRefs(D, ts, us)
  }

  lemma RefsSplit(D: seq<Type>, xs: seq<Type>, ys: seq<Type>, us: seq<TypeUse>)
    requires AreRefs(D, xs + ys, us)
    ensures |xs| <= |us| && AreRefs(D, xs, us[..|xs|]) && AreRefs(D, ys, us[|xs|..])
  {
    forall k | 0 <= k < |xs| ensures IsRef(D, xs[k], us[..|xs|][k]) { assert IsRef(D, (xs + ys)[k], us[k]); }
    forall k | 0 <= k < |ys| ensures IsRef(D, ys[k], us[|xs|..][k]) { assert IsRef(D, (xs + ys)[|xs| + k], us[|xs| + k]); }
  }

  lemma {:induction false} SigsDescribed(D: seq<Type>, ms: seq<Sig>, us: seq<TypeUse>)
    requires AreRefs(D, SigTypes(ms), us)
    ensures DescribesSigs(D, ms, us)
  {
    if ms != [] {
      var own := ms[0].params + ms[0].results;
      RefsSplit(D, own, SigTypes(ms[1..]), us);
      RefsSplit(D, ms[0].params, ms[0].results, us[..|own|]);
      SigsDescribed(D, ms[1..], us[|own|..]);
    }
  }

  /** The element of a slot refers to what its type is made of, in order. */
  lemma ElementDescribes(D: seq<Type>, t: Type, us: seq<TypeUse>)
    requires AreRefs(D, Parts(t), us)
    ensures Describes(D, t, us)
  {
    if t.shape.Map? {
      assert IsRef(D, Parts(t)[0], us[0]) && IsRef(D, Parts(t)[1], us[1]);
    } else if t.shape.Signature? {
      RefsSplit(D, t.shape.sig.params, t.shape.sig.results, us);
    } else if t.shape.Interface? && !t.shape.plain {
      RefsSplit(D, SigTypes(t.shape.methods), t.shape.embeddeds, us);
      SigsDescribed(D, t.shape.methods, us[..|SigTypes(t.shape.methods)|]);
    }
  }

  lemma RefsLater(D: seq<Type>, E: seq<Type>, ts: seq<Type>, us: seq<TypeUse>)
    requires D <= E && AreRefs(D, ts, us)
    ensures AreRefs(E, ts, us)
  {
  }

  lemma {:induction false} PartEncodable(generic: bool, t: Type, i: nat, k: nat)
    requires i <= k < |Parts(t)| && PartsEncodable(generic, t, i)
    ensures Encodable(generic, Parts(t)[k])
    decreases k - i
  {
    if i < k { PartEncodable(generic, t, i + 1, k); }
  }

  /** Writing a part of a type that has a slot takes no slot, and names one
      below. */
  lemma PartIsWritten(D: seq<Type>, generic: bool, i: nat, k: nat)
    requires Settled(D) && i < |D| && Encodable(generic, D[i]) && k < |Parts(D[i])|
    ensures Encodable(generic, Parts(D[i])[k]) && Alloc(D, Parts(D[i])[k]) == D
    ensures forall u :: IsRef(D, Parts(D[i])[k], u) && u.Slot? ==> u.idx < i
  {
    assert Mentions(D[i]) && !LocalAlias(D[i]);
    PartEncodable(generic, D[i], 0, k);
    if Mentions(Parts(D[i])[k]) { PartsBelow(D, i, k); }
    AllocFixed(D, Parts(D[i])[k]);
  }

  /** No type has two slots, so the slots say how a type is written. */
  lemma RefIsDetermined(D: seq<Type>, t: Type, u: TypeUse, v: TypeUse)
    requires Settled(D) && IsRef(D, t, u) && IsRef(D, t, v)
    ensures u == v
  {
  }

  lemma WrittenIsDetermined(D: seq<Type>, cs: seq<Type>, u: Written, v: Written)
    requires Settled(D)
    requires AreRefs(D, cs, u.constraints) && AreElements(D, u.elements)
    requires AreRefs(D, cs, v.constraints) && AreElements(D, v.elements)
    ensures u == v
  {
    forall k | 0 <= k < |cs| ensures u.constraints[k] == v.constraints[k] {
      RefIsDetermined(D, cs[k], u.constraints[k], v.constraints[k]);
    }
    forall i | 0 <= i < |D| ensures u.elements[i] == v.elements[i] {
      forall k | 0 <= k < |Parts(D[i])| ensures u.elements[i][k] == v.elements[i][k] {
        RefIsDetermined(D, Parts(D[i])[k], u.elements[i][k], v.elements[i][k]);
      }
    }
  }

  /** Writing one dictionary twice writes the same slots twice, and takes none
      the second time. */
  method WriteTwice(d: Dict, constraints: seq<Type>) returns (first: Result<Written, Refusal>, second: Result<Written, Refusal>)
    requires d.Valid()
    modifies d
    ensures d.Valid() && first == second
    ensures first.Ok? ==> d.derived == AllocAll(old(d.derived), constraints)
  {
    first := d.ObjDict(constraints);
    ghost var D := d.derived;
    second := d.ObjDict(constraints);
    if first.Ok? {
      AllocAllKnown(old(d.derived), constraints);
      AllocAllFixed(D, constraints);
      WrittenIsDetermined(D, constraints, first.value, second.value);
    }
  }

  /** A generic type and its methods, numbered and then written: neither of the
      checks that no slot is taken late can fail. */
  method WriteType(typeParams: seq<Param>, underlying: Type, members: seq<Member>, constraints: seq<Type>)
    returns (built: bool, definition: Result<(), Refusal>, dict: Result<Written, Refusal>)
    ensures built ==> definition.Ok?
    ensures dict != Err(NamedMore)
  {
    var d := new Dict([], [], typeParams);
    definition, dict := Err(NoEncoding), Err(NoEncoding);
    built := d.BuildTypeBodies(underlying, members);
    if !built { return; }
    definition := d.DoObj(underlying, members);
    dict := d.ObjDict(constraints);
  }

  // ----- The numbering of the type parameters -----

  function Find(ps: seq<Param>, tp: Param): (r: Option<nat>)
    ensures r.Some? ==> r.value < |ps| && ps[r.value] == tp
    ensures r.None? <==> tp !in ps
  {
    if ps == [] then None
    else if ps[0] == tp then Some(0)
    else
      var r := Find(ps[1..], tp);
      if r.Some? then Some(r.value + 1) else None
  }

  function ParamIndex(implicits: seq<Param>, receivers: seq<Param>, typeParams: seq<Param>, tp: Param): Option<nat> {
    var base := |implicits| + |receivers|;
    if tp in implicits then Find(implicits, tp)
    else if tp in receivers then Some(|implicits| + Find(receivers, tp).value)
    else if tp in typeParams then Some(base + Find(typeParams, tp).value)
    else if 0 <= tp.index < |receivers| then Some(|implicits| + tp.index)
    else if receivers == [] && 0 <= tp.index < |typeParams| then Some(base + tp.index)
    else None
  }

  /** The three lists are one numbering: each parameter the dictionary holds has
      its position in it, and no index is out of range. */
  lemma OneNumbering(implicits: seq<Param>, receivers: seq<Param>, typeParams: seq<Param>, k: nat)
    requires var all := implicits + receivers + typeParams;
             k < |all| && forall i, j :: 0 <= i < j < |all| ==> all[i] != all[j]
    ensures ParamIndex(implicits, receivers, typeParams, (implicits + receivers + typeParams)[k]) == Some(k)
  {
    var all := implicits + receivers + typeParams;
    var tp := all[k];
    forall i | 0 <= i < |implicits| && implicits[i] == tp ensures i == k { assert all[i] == tp; }
    forall i | 0 <= i < |receivers| && receivers[i] == tp ensures |implicits| + i == k { assert all[|implicits| + i] == tp; }
    forall i | 0 <= i < |typeParams| && typeParams[i] == tp ensures |implicits| + |receivers| + i == k {
      assert all[|implicits| + |receivers| + i] == tp;
    }
  }

  lemma IndexInRange(implicits: seq<Param>, receivers: seq<Param>, typeParams: seq<Param>, tp: Param)
    ensures var r := ParamIndex(implicits, receivers, typeParams, tp);
            r.Some? ==> r.value < |implicits| + |receivers| + |typeParams|
  {
  }

  /** A method names its receiver's parameters through objects of its own. In
      the dictionary a type shares with its methods, such a name and the type's
      own name of the same position are one index. */
  lemma PositionDecides(typeParams: seq<Param>, tp: Param)
    requires forall i :: 0 <= i < |typeParams| ==> typeParams[i].index == i
    requires 0 <= tp.index < |typeParams|
    ensures ParamIndex([], [], typeParams, tp) == Some(tp.index as nat)
  {
  }
}

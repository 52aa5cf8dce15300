/** What a finished file has to say of each node, read off the archives as they
    are stored (export/foreign.go:270-415).

    Nothing here searches, resolves or gives up: the definitions say what an
    element of an archive states, which node a reference of it means, and what
    the elements of a node hold. The lemmas say that the writer's graph is that. */
module LinkRaw {
  import opened Wrappers
  import opened LinkGraph

  // ----- What an archive states -----

  predicate StatesText(ar: Archive, i: nat, text: string) { i < |ar.strs| && ar.strs[i] == text }

  /** The element has this reference at this place. */
  predicate RefersTo(ar: Archive, k: Section, i: nat, j: nat, ref: (Section, nat)) {
    (k, i) in ar.elems && j < |ar.elems[(k, i)].relocs| && ar.elems[(k, i)].relocs[j] == ref
  }

  /** A package element states its path first, and the empty string for the
      package of the archive. */
  ghost predicate StatesPath(ar: Archive, i: nat, path: string) {
    exists s, text :: RefersTo(ar, Pkgs, i, 0, (Strings, s)) && StatesText(ar, s, text) && path == (if text == "" then ar.path else text)
  }

  /** The name element of an object states its package and its name. */
  ghost predicate StatesName(ar: Archive, i: nat, path: string, name: string) {
    exists p, s :: RefersTo(ar, Names, i, 0, (Pkgs, p)) && RefersTo(ar, Names, i, 1, (Strings, s))
                && StatesPath(ar, p, path) && StatesText(ar, s, name)
  }

  /** An object that defines a declaration. A stub only names one. */
  ghost predicate Defining(ar: Archive, i: nat, path: string, name: string) {
    i < |ar.stubs| && !ar.stubs[i] && StatesName(ar, i, path, name)
  }

  ghost predicate Lacks(ar: Archive, path: string, name: string) { forall i :: 0 <= i < |ar.stubs| ==> !Defining(ar, i, path, name) }

  /** The object a declaration is copied from: the first one that defines it, in
      the first archive of its own package that has one or, if none of those
      has, in the first archive that has one. */
  ghost predicate Preferred(w: World, path: string, name: string, a: nat, i: nat) {
    && a < |w.archives| && Defining(w.archives[a], i, path, name)
    && (forall j :: 0 <= j < i ==> !Defining(w.archives[a], j, path, name))
    && (forall b :: 0 <= b < |w.archives| && w.archives[b].path == path && (w.archives[a].path != path || b < a) ==>
          Lacks(w.archives[b], path, name))
    && (w.archives[a].path != path ==> forall b :: 0 <= b < a ==> Lacks(w.archives[b], path, name))
  }

  // ----- What a reference means -----

  /** The node the package being written has for a reference of an archive: a
      string in range, a package the compilation read, a declaration the checker
      knows, or the element itself. No other section can be referred to. */
  ghost predicate Means(w: World, a: nat, ref: (Section, nat), t: Node)
    requires a < |w.archives|
  {
    match ref.0
    case Strings => t.Str? && StatesText(w.archives[a], ref.1, t.text)
    case Pkgs => t.Package? && StatesPath(w.archives[a], ref.1, t.path) && t.path in w.packages
    case Objs =>
      && t.Decl? && StatesName(w.archives[a], ref.1, t.path, t.name)
      && t.path in w.packages && (t.path, t.name) in w.decls
    case PosBases => t == Copied(a, PosBases, ref.1)
    case Types => t == Copied(a, Types, ref.1)
    case Bodies => t == Copied(a, Bodies, ref.1)
    case Meta => false
    case Names => false
    case ObjExts => false
    case ObjDicts => false
  }

  // ----- What the elements of a node hold -----

  /** The bytes of an archive's element, and what its references mean. */
  ghost predicate Copies(w: World, a: nat, k: Section, i: nat, data: Data, targets: seq<Node>) {
    && a < |w.archives| && (k, i) in w.archives[a].elems
    && var raw := w.archives[a].elems[(k, i)];
       && data == raw.data && |targets| == |raw.relocs|
       && forall j :: 0 <= j < |targets| ==> Means(w, a, raw.relocs[j], targets[j])
  }

  predicate Encodes(p: Part, data: Data, targets: seq<Node>) {
    data == p.data && |targets| == |p.targets| && forall j :: 0 <= j < |targets| ==> p.targets[j] == Some(targets[j])
  }

  /** The element of a node in a section has these bytes and refers to these
      nodes. */
  ghost predicate Says(w: World, n: Node, k: Section, data: Data, targets: seq<Node>) {
    match n
    case Str(text) => k.Strings? && data == Text(text) && targets == []
    case Package(path) =>
      && k.Pkgs? && path in w.packages && targets != []
      && targets[0] == Str(if path == w.self then "" else path) && Encodes(w.packages[path], data, targets[1..])
    case Copied(a, k', i) => k == k' && Copies(w, a, k, i, data, targets)
    case Own(k', id) => k == k' && (k, id) in w.own && Encodes(w.own[(k, id)], data, targets)
    case Lit(id) => k.Bodies? && id in w.lits && Encodes(w.lits[id], data, targets)
    case Decl(path, name) =>
      && (path, name) in w.decls
      && if w.decls[(path, name)].copyable then CopiesDecl(w, path, name, k, data, targets)
         else w.decls[(path, name)].four.Some? && EncodesDecl(path, name, w.decls[(path, name)].four.value, k, data, targets)
  }

  /** All four elements come from one object of one archive. */
  ghost predicate CopiesDecl(w: World, path: string, name: string, k: Section, data: Data, targets: seq<Node>) {
    (k.Objs? || k.ObjExts? || k.Names? || k.ObjDicts?) &&
    exists a, i :: Preferred(w, path, name, a, i) && Copies(w, a, k, i, data, targets)
  }

  predicate EncodesDecl(path: string, name: string, four: Four, k: Section, data: Data, targets: seq<Node>) {
    || (k.Objs? && Encodes(four.obj, data, targets))
    || (k.ObjExts? && Encodes(four.ext, data, targets))
    || (k.ObjDicts? && Encodes(four.dict, data, targets))
    || (k.Names? && data == four.code && targets == [Package(path), Str(name)])
  }

  /** The sections a node has an element in. */
  predicate In(n: Node, k: Section) {
    match n
    case Str(_) => k.Strings?
    case Package(_) => k.Pkgs?
    case Copied(_, k', _) => k == k'
    case Own(k', _) => k == k'
    case Lit(_) => k.Bodies?
    case Decl(_, _) => k.Objs? || k.ObjExts? || k.Names? || k.ObjDicts?
  }

  /** Each element of a node has something to hold, and refers to nodes of H. */
  ghost predicate Held(w: World, n: Node, H: set<Node>) {
    forall k | In(n, k) :: SaysIn(w, n, k, H)
  }

  ghost predicate SaysIn(w: World, n: Node, k: Section, H: set<Node>) {
    exists data, targets :: Says(w, n, k, data, targets) && forall t <- targets :: t in H
  }

  /** A node can be carried over when some set of nodes holds it and all that
      its elements and theirs refer to. */
  ghost predicate Carried(w: World, n: Node) { exists H :: n in H && AllHeld(w, H) }

  ghost predicate AllHeld(w: World, H: set<Node>) { forall m <- H :: Held(w, m, H) }

  // ----- The writer's graph is this one -----

  lemma PathIs(ar: Archive, i: nat, path: string)
    ensures PathIn(ar, i) == Some(path) <==> StatesPath(ar, i, path)
  {
    if PathIn(ar, i) == Some(path) {
      var s := RefIn(ar, Pkgs, i, 0, Strings).value;
      assert RefersTo(ar, Pkgs, i, 0, (Strings, s)) && StatesText(ar, s, ar.strs[s]);
    }
  }

  lemma NameIs(ar: Archive, i: nat, path: string, name: string)
    ensures NameIn(ar, i) == Some((path, name)) <==> StatesName(ar, i, path, name)
  {
    if NameIn(ar, i) == Some((path, name)) {
      var p, s := RefIn(ar, Names, i, 0, Pkgs).value, RefIn(ar, Names, i, 1, Strings).value;
      PathIs(ar, p, path);
      assert RefersTo(ar, Names, i, 0, (Pkgs, p)) && RefersTo(ar, Names, i, 1, (Strings, s));
    }
    if StatesName(ar, i, path, name) {
      var p, s :| RefersTo(ar, Names, i, 0, (Pkgs, p)) && RefersTo(ar, Names, i, 1, (Strings, s))
               && StatesPath(ar, p, path) && StatesText(ar, s, name);
      PathIs(ar, p, path);
    }
  }

  lemma ResolveIs(w: World, a: nat, ref: (Section, nat), t: Node)
    requires a < |w.archives|
    ensures Resolve(w, a, ref) == Some(t) <==> Means(w, a, ref, t)
  {
    var ar := w.archives[a];
    match ref.0
    case Strings =>
    case Pkgs => if t.Package? { PathIs(ar, ref.1, t.path); }
    case Objs => if t.Decl? { NameIs(ar, ref.1, t.path, t.name); }
    case PosBases =>
    case Types =>
    case Bodies =>
    case Meta =>
    case Names =>
    case ObjExts =>
    case ObjDicts =>
  }

  lemma DefinesIs(ar: Archive, path: string, name: string)
    ensures forall i {:trigger Defining(ar, i, path, name)} :: 0 <= i < |ar.stubs| ==>
              (Is(ar, path, name, i) <==> Defining(ar, i, path, name))
    ensures Defines(ar, path, name, 0).None? <==> Lacks(ar, path, name)
    ensures Defines(ar, path, name, 0).Some? ==>
              var i := Defines(ar, path, name, 0).value;
              Defining(ar, i, path, name) && forall j :: 0 <= j < i ==> !Defining(ar, j, path, name)
  {
    forall i | 0 <= i < |ar.stubs| ensures Is(ar, path, name, i) <==> Defining(ar, i, path, name) {
      NameIs(ar, i, path, name);
    }
    DefinesFirst(ar, path, name, 0);
  }

  lemma {:induction false} DefinesFirst(ar: Archive, path: string, name: string, i: nat)
    ensures var r := Defines(ar, path, name, i);
            r.Some? ==> forall j :: i <= j < r.value ==> !Is(ar, path, name, j)
    decreases |ar.stubs| - i
  {
    if i < |ar.stubs| { DefinesFirst(ar, path, name, i + 1); }
  }

  /** No archive of one of the two kinds, from the i'th to the j'th, has one. */
  ghost predicate NoneIn(list: seq<Archive>, path: string, name: string, own: bool, i: nat, j: nat)
    requires j <= |list|
  {
    forall b :: i <= b < j && (list[b].path == path <==> own) ==> Lacks(list[b], path, name)
  }

  lemma NoneBefore(list: seq<Archive>, path: string, name: string, own: bool, i: nat, j: nat)
    requires i < j <= |list| && NoneIn(list, path, name, own, i + 1, j)
    requires (list[i].path == path <==> own) ==> Lacks(list[i], path, name)
    ensures NoneIn(list, path, name, own, i, j)
  {
  }

  lemma FindInHead(list: seq<Archive>, i: nat, rest: seq<nat>, path: string, name: string)
    requires i < |list| && InList(list, rest)
    ensures FindIn(list, [i] + rest, path, name) ==
            var r := Defines(list[i], path, name, 0);
            if r.Some? then Some((i, r.value)) else FindIn(list, rest, path, name)
  {
    assert ([i] + rest)[1..] == rest;
  }

  /** The first archive from the i'th on, of one of the two kinds, that has a
      definition. */
  ghost predicate First(list: seq<Archive>, path: string, name: string, own: bool, i: nat, r: Option<(nat, nat)>) {
    if r.None? then NoneIn(list, path, name, own, i, |list|)
    else
      && i <= r.value.0 < |list| && (list[r.value.0].path == path <==> own)
      && Defines(list[r.value.0], path, name, 0) == Some(r.value.1)
      && NoneIn(list, path, name, own, i, r.value.0)
  }

  lemma FirstNext(list: seq<Archive>, path: string, name: string, own: bool, i: nat, rest: seq<nat>, those: seq<nat>)
    requires i < |list| && InList(list, rest) && First(list, path, name, own, i + 1, FindIn(list, rest, path, name))
    requires those == (if list[i].path == path <==> own then [i] + rest else rest) && InList(list, those)
    ensures First(list, path, name, own, i, FindIn(list, those, path, name))
  {
    var later := FindIn(list, rest, path, name);
    var end := if later.None? then |list| else later.value.0;
    DefinesIs(list[i], path, name);
    if list[i].path == path <==> own {
      FindInHead(list, i, rest, path, name);
      if Defines(list[i], path, name, 0).None? { NoneBefore(list, path, name, own, i, end); }
    } else {
      NoneBefore(list, path, name, own, i, end);
    }
  }

  lemma ThoseNext(list: seq<Archive>, path: string, own: bool, i: nat)
    requires i < |list|
    ensures var rest := Those(list, path, own, i + 1);
            Those(list, path, own, i) == if list[i].path == path <==> own then [i] + rest else rest
    ensures InList(list, Those(list, path, own, i)) && InList(list, Those(list, path, own, i + 1))
  {
  }

  lemma FirstOfNone(list: seq<Archive>, path: string, name: string, own: bool)
    ensures Those(list, path, own, |list|) == [] && First(list, path, name, own, |list|, FindIn(list, [], path, name))
  {
  }

  /** The archives from the i'th on, of one of the two kinds, searched in turn. */
  lemma {:induction false} ThoseFirst(list: seq<Archive>, path: string, name: string, own: bool, i: nat, those: seq<nat>)
    requires i <= |list| && those == Those(list, path, own, i) && InList(list, those)
    ensures First(list, path, name, own, i, FindIn(list, those, path, name))
    decreases |list| - i
  {
    if i < |list| {
      ThoseNext(list, path, own, i);
      var rest := Those(list, path, own, i + 1);
      ThoseFirst(list, path, name, own, i + 1, rest);
      FirstNext(list, path, name, own, i, rest, those);
    } else {
      FirstOfNone(list, path, name, own);
    }
  }

  lemma FindIsPreferred(w: World, path: string, name: string)
    ensures var r := Find(w.archives, path, name);
            if r.Some? then Preferred(w, path, name, r.value.0, r.value.1)
            else forall b :: 0 <= b < |w.archives| ==> Lacks(w.archives[b], path, name)
  {
    var own, others := Those(w.archives, path, true, 0), Those(w.archives, path, false, 0);
    FindFirst(w.archives, own, others, path, name);
    ThoseFirst(w.archives, path, name, true, 0, own);
    ThoseFirst(w.archives, path, name, false, 0, others);
    var r := Find(w.archives, path, name);
    if r.Some? { DefinesIs(w.archives[r.value.0], path, name); }
  }

  /** No two objects are preferred. */
  lemma OnePreferred(w: World, path: string, name: string, a: nat, i: nat, b: nat, j: nat)
    requires Preferred(w, path, name, a, i) && Preferred(w, path, name, b, j)
    ensures a == b && i == j
  {
    assert !Lacks(w.archives[a], path, name) && !Lacks(w.archives[b], path, name);
  }

  /** The search finds the preferred object and no other. */
  lemma FindIs(w: World, path: string, name: string, a: nat, i: nat)
    ensures Find(w.archives, path, name) == Some((a, i)) <==> Preferred(w, path, name, a, i)
  {
    FindIsPreferred(w, path, name);
    var r := Find(w.archives, path, name);
    if Preferred(w, path, name, a, i) {
      assert !Lacks(w.archives[a], path, name);
      OnePreferred(w, path, name, a, i, r.value.0, r.value.1);
    }
  }

  /** The nodes of targets of which none is refused. */
  predicate Agree(xs: seq<Option<Node>>, ts: seq<Node>) { |xs| == |ts| && forall j :: 0 <= j < |ts| ==> xs[j] == Some(ts[j]) }

  lemma CopyIs(w: World, a: nat, k: Section, i: nat, data: Data, targets: seq<Node>)
    ensures Copies(w, a, k, i, data, targets) <==>
            CopySpec(w, a, k, i).Some? && CopySpec(w, a, k, i).value.data == data && Agree(CopySpec(w, a, k, i).value.targets, targets)
  {
    if a < |w.archives| && (k, i) in w.archives[a].elems {
      var raw := w.archives[a].elems[(k, i)];
      if |targets| == |raw.relocs| {
        forall j | 0 <= j < |targets| ensures Means(w, a, raw.relocs[j], targets[j]) <==> Resolve(w, a, raw.relocs[j]) == Some(targets[j]) {
          ResolveIs(w, a, raw.relocs[j], targets[j]);
        }
      }
    }
  }

  /** The specs of a declaration that is copied, and of one that is encoded. */
  function CopiedSpec(w: World, path: string, name: string, k: Section): Option<Spec> {
    var (a, i) :- Find(w.archives, path, name);
    CopySpec(w, a, k, i)
  }

  lemma CopiedSpecs(w: World, path: string, name: string)
    requires (path, name) in w.decls && w.decls[(path, name)].copyable
    ensures var obj, nm, dict, ext := CopiedSpec(w, path, name, Objs), CopiedSpec(w, path, name, Names),
                                      CopiedSpec(w, path, name, ObjDicts), CopiedSpec(w, path, name, ObjExts);
            Specs(w, Decl(path, name)) ==
            if obj.Some? && nm.Some? && dict.Some? && ext.Some? then Some([obj.value, nm.value, dict.value, ext.value]) else None
  {
  }

  lemma CopiedSays(w: World, path: string, name: string, k: Section, s: Spec, targets: seq<Node>)
    requires CopiedSpec(w, path, name, k) == Some(s) && Agree(s.targets, targets)
    requires k.Objs? || k.ObjExts? || k.Names? || k.ObjDicts?
    ensures s.section == k && CopiesDecl(w, path, name, k, s.data, targets)
  {
    var (a, i) := Find(w.archives, path, name).value;
    FindIs(w, path, name, a, i);
    CopyIs(w, a, k, i, s.data, targets);
  }

  lemma DeclSays(w: World, path: string, name: string, s: Spec, targets: seq<Node>)
    requires Specs(w, Decl(path, name)).Some? && s in Specs(w, Decl(path, name)).value && Agree(s.targets, targets)
    ensures In(Decl(path, name), s.section) && Says(w, Decl(path, name), s.section, s.data, targets)
  {
    if w.decls[(path, name)].copyable {
      CopiedSpecs(w, path, name);
      var k :| (k == Objs || k == Names || k == ObjDicts || k == ObjExts) && CopiedSpec(w, path, name, k) == Some(s);
      CopiedSays(w, path, name, k, s, targets);
    } else if s.section.Names? {
      assert targets == [Package(path), Str(name)];
    }
  }

  /** What the writer fills an element with is what it has to say. */
  lemma SpecSays(w: World, n: Node, s: Spec, targets: seq<Node>)
    requires Specs(w, n).Some? && s in Specs(w, n).value && Agree(s.targets, targets)
    ensures In(n, s.section) && Says(w, n, s.section, s.data, targets)
  {
    match n
    case Str(_) =>
    case Package(p) => assert Encodes(w.packages[p], s.data, targets[1..]);
    case Copied(a, k, i) => CopyIs(w, a, k, i, s.data, targets);
    case Own(_, _) =>
    case Lit(_) =>
    case Decl(path, name) => DeclSays(w, path, name, s, targets);
  }

  /** The targets of a spec of which none is refused. */
  function Given(xs: seq<Option<Node>>): (ts: seq<Node>)
    requires forall j :: 0 <= j < |xs| ==> xs[j].Some?
    ensures Agree(xs, ts)
  {
    seq(|xs|, j requires 0 <= j < |xs| => xs[j].value)
  }

  lemma SpecIsHeld(w: World, n: Node, s: Spec, H: set<Node>)
    requires Specs(w, n).Some? && s in Specs(w, n).value && AllIn(s, H)
    ensures SaysIn(w, n, s.section, H)
  {
    forall j | 0 <= j < |s.targets| ensures s.targets[j].Some? { assert s.targets[j] in s.targets; }
    var targets := Given(s.targets);
    SpecSays(w, n, s, targets);
    forall t <- targets ensures t in H { assert Some(t) in s.targets; }
  }

  lemma FineIsHeld(w: World, n: Node, H: set<Node>)
    requires Fine(w, n, H)
    ensures Held(w, n, H)
  {
    SpecSections(w, n);
    forall k | In(n, k) ensures SaysIn(w, n, k, H) {
      assert Has(n, k);
      var i :| 0 <= i < |Specs(w, n).value| && Specs(w, n).value[i].section == k;
      SpecIsHeld(w, n, Specs(w, n).value[i], H);
    }
  }

  predicate AllIn(s: Spec, H: set<Node>) { forall t <- s.targets :: t.Some? && t.value in H }

  lemma AgreeIn(s: Spec, targets: seq<Node>, H: set<Node>)
    requires Agree(s.targets, targets) && forall t <- targets :: t in H
    ensures AllIn(s, H)
  {
  }

  lemma CopyIsFine(w: World, n: Node, a: nat, k: Section, i: nat, H: set<Node>)
    requires exists data, targets :: Copies(w, a, k, i, data, targets) && forall t <- targets :: t in H
    ensures CopySpec(w, a, k, i).Some? && AllIn(CopySpec(w, a, k, i).value, H)
  {
    var data, targets :| Copies(w, a, k, i, data, targets) && forall t <- targets :: t in H;
    CopyIs(w, a, k, i, data, targets);
    AgreeIn(CopySpec(w, a, k, i).value, targets, H);
  }

  lemma PartIsFine(k: Section, p: Part, H: set<Node>)
    requires exists data, targets :: Encodes(p, data, targets) && forall t <- targets :: t in H
    ensures AllIn(PartSpec(k, p), H)
  {
    var data, targets :| Encodes(p, data, targets) && forall t <- targets :: t in H;
    AgreeIn(PartSpec(k, p), targets, H);
  }

  /** A section of a declaration that is copied comes from the object found. */
  lemma CopiedIsFine(w: World, path: string, name: string, k: Section, H: set<Node>)
    requires (path, name) in w.decls && w.decls[(path, name)].copyable && SaysIn(w, Decl(path, name), k, H)
    ensures CopiedSpec(w, path, name, k).Some? && AllIn(CopiedSpec(w, path, name, k).value, H)
  {
    var data, targets :| Says(w, Decl(path, name), k, data, targets) && forall t <- targets :: t in H;
    var a, i :| Preferred(w, path, name, a, i) && Copies(w, a, k, i, data, targets);
    FindIs(w, path, name, a, i);
    CopyIsFine(w, Decl(path, name), a, k, i, H);
  }

  lemma FourIn(specs: seq<Spec>, H: set<Node>)
    requires |specs| == 4 && AllIn(specs[0], H) && AllIn(specs[1], H) && AllIn(specs[2], H) && AllIn(specs[3], H)
    ensures forall s <- specs :: AllIn(s, H)
  {
  }

  lemma CopiedDeclIsFine(w: World, path: string, name: string, H: set<Node>)
    requires Held(w, Decl(path, name), H) && (path, name) in w.decls && w.decls[(path, name)].copyable
    ensures Fine(w, Decl(path, name), H)
  {
    forall k | In(Decl(path, name), k) ensures CopiedSpec(w, path, name, k).Some? && AllIn(CopiedSpec(w, path, name, k).value, H) {
      CopiedIsFine(w, path, name, k, H);
    }
    CopiedSpecs(w, path, name);
    FourIn(Specs(w, Decl(path, name)).value, H);
  }

  lemma EncodedDeclIsFine(w: World, path: string, name: string, H: set<Node>)
    requires Held(w, Decl(path, name), H) && (path, name) in w.decls && !w.decls[(path, name)].copyable
    ensures Fine(w, Decl(path, name), H)
  {
    var n := Decl(path, name);
    assert SaysIn(w, n, Objs, H) && SaysIn(w, n, Names, H) && SaysIn(w, n, ObjDicts, H) && SaysIn(w, n, ObjExts, H);
    var four := w.decls[(path, name)].four.value;
    PartIsFine(Objs, four.obj, H);
    PartIsFine(ObjExts, four.ext, H);
    PartIsFine(ObjDicts, four.dict, H);
    AgreeIn(NameSpec(path, name, four.code), [Package(path), Str(name)], H);
    FourIn(Specs(w, n).value, H);
  }

  lemma DeclIsFine(w: World, path: string, name: string, H: set<Node>)
    requires Held(w, Decl(path, name), H)
    ensures Fine(w, Decl(path, name), H)
  {
    assert SaysIn(w, Decl(path, name), Objs, H);
    if w.decls[(path, name)].copyable { CopiedDeclIsFine(w, path, name, H); } else { EncodedDeclIsFine(w, path, name, H); }
  }

  lemma HeldIsFine(w: World, n: Node, H: set<Node>)
    requires Held(w, n, H)
    ensures Fine(w, n, H)
  {
    match n
    case Str(_) =>
    case Package(path) =>
      assert SaysIn(w, n, Pkgs, H);
      var data, targets :| Says(w, n, Pkgs, data, targets) && forall t <- targets :: t in H;
      AgreeIn(PackageSpec(w, path), targets, H);
    case Copied(a, k, i) =>
      assert SaysIn(w, n, k, H);
      CopyIsFine(w, n, a, k, i, H);
    case Own(k, id) =>
      assert SaysIn(w, n, k, H);
      PartIsFine(k, w.own[(k, id)], H);
    case Lit(id) =>
      assert SaysIn(w, n, Bodies, H);
      PartIsFine(Bodies, w.lits[id], H);
    case Decl(path, name) => DeclIsFine(w, path, name, H);
  }

  /** The writer can write a node if and only if the archives, as they are
      stored, allow it. */
  lemma WritableIsCarried(w: World, n: Node)
    ensures Writable(w, n) <==> Carried(w, n)
  {
    if Writable(w, n) {
      var H :| n in H && Healthy(w, H);
      forall m <- H ensures Held(w, m, H) { FineIsHeld(w, m, H); }
      assert AllHeld(w, H);
    }
    if Carried(w, n) {
      var H :| n in H && AllHeld(w, H);
      forall m <- H ensures Fine(w, m, H) { HeldIsFine(w, m, H); }
      assert Healthy(w, H);
    }
  }
}

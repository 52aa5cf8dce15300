/** What the linked form writes, as a graph (export/writer.go, export/foreign.go).

    A node is a thing the writer keeps one element for: a string, a package, a
    declaration with its four elements, an element copied out of an archive, or
    an element the writer encodes itself. `Specs` says what a node's elements
    hold and which nodes they refer to, in the order the writer fills them. */
module LinkGraph {
  import opened Wrappers

  datatype Section = Strings | Meta | PosBases | Pkgs | Names | Types | Objs | ObjExts | ObjDicts | Bodies

  /** The bytes of an element after its reference table. */
  datatype Data = Text(text: string) | Bytes(id: nat)

  /** Own is an element the writer encodes and memoizes by identity: a type, a
      position base, the body of a declaration. Lit is the body of a function
      literal, which is claimed when it is named and filled after the body that
      names it. */
  datatype Node =
    | Str(text: string) | Package(path: string) | Decl(path: string, name: string)
    | Copied(archive: nat, section: Section, idx: nat)
    | Own(section: Section, id: nat) | Lit(id: nat)

  /** One element: its section, its bytes, and a node for each reference, or
      None for a reference the writer refuses. */
  datatype Spec = Spec(section: Section, data: Data, targets: seq<Option<Node>>)

  // ----- The archives and the checker's packages -----

  datatype Raw = Raw(data: Data, relocs: seq<(Section, nat)>)

  /** What an object's name element says: its package, its name, and whether
      the element only stands for a declaration of another package. */
  datatype Peeked = Peeked(path: string, name: string, stub: bool)

  /** One archive: the strings section, the other elements as they are stored,
      and of each object whether its code is that of a stub. */
  datatype Archive = Archive(path: string, elems: map<(Section, nat), Raw>, strs: seq<string>, stubs: seq<bool>)

  datatype Part = Part(data: Data, targets: seq<Option<Node>>)

  /** A declaration the writer encodes itself. Its name element holds its
      package, its name and the code. */
  datatype Four = Four(obj: Part, ext: Part, code: Data, dict: Part)

  /** `copyable` is a generic declaration of another package with a body. */
  datatype DeclInfo = DeclInfo(copyable: bool, four: Option<Four>)

  /** The archives in the order of their import paths, the path of the package
      being written, what each package's element holds after its path, the
      declarations the checker knows, the writer's own elements, the literals
      that carry a body, and the body each literal is written in. */
  datatype World = World(
    archives: seq<Archive>, self: string, packages: map<string, Part>, decls: map<(string, string), DeclInfo>,
    own: map<(Section, nat), Part>, lits: map<nat, Part>, enclosing: map<nat, Node>)

  // ----- Names -----

  /** A package writes its own path as the empty string. */
  function PathText(self: string, path: string): string { if path == self then "" else path }

  function TextPath(self: string, text: string): string { if text == "" then self else text }

  function RefIn(ar: Archive, k: Section, i: nat, j: nat, to: Section): Option<nat> {
    if (k, i) in ar.elems && j < |ar.elems[(k, i)].relocs| && ar.elems[(k, i)].relocs[j].0 == to
    then Some(ar.elems[(k, i)].relocs[j].1) else None
  }

  function TextIn(ar: Archive, i: nat): Option<string> { if i < |ar.strs| then Some(ar.strs[i]) else None }

  /** The path a package element of an archive states. */
  function PathIn(ar: Archive, i: nat): Option<string> {
    var str :- RefIn(ar, Pkgs, i, 0, Strings);
    var text :- TextIn(ar, str);
    Some(TextPath(ar.path, text))
  }

  /** The package and the name that the name element of an object states. */
  function NameIn(ar: Archive, i: nat): Option<(string, string)> {
    var pkg :- RefIn(ar, Names, i, 0, Pkgs);
    var path :- PathIn(ar, pkg);
    var str :- RefIn(ar, Names, i, 1, Strings);
    var name :- TextIn(ar, str);
    Some((path, name))
  }

  function Peek(ar: Archive, i: nat): Option<Peeked>
    requires i < |ar.stubs|
  {
    var (path, name) :- NameIn(ar, i);
    Some(Peeked(path, name, ar.stubs[i]))
  }

  // ----- archiveSet.find -----

  /** The archives to search: the declaring package's own first. */
  function Order(list: seq<Archive>, path: string): seq<nat> { Those(list, path, true, 0) + Those(list, path, false, 0) }

  function Those(list: seq<Archive>, path: string, own: bool, i: nat): (r: seq<nat>)
    ensures forall j :: 0 <= j < |r| ==> i <= r[j] < |list| && (list[r[j]].path == path <==> own)
    ensures forall k :: i <= k < |list| && (list[k].path == path <==> own) ==> k in r
    decreases |list| - i
  {
    if i >= |list| then []
    else (if list[i].path == path <==> own then [i] else []) + Those(list, path, own, i + 1)
  }

  predicate Is(a: Archive, path: string, name: string, i: nat) {
    i < |a.stubs| && Peek(a, i) == Some(Peeked(path, name, false))
  }

  /** The first element of an archive that defines the declaration. */
  function Defines(a: Archive, path: string, name: string, i: nat): (r: Option<nat>)
    ensures r.Some? ==> i <= r.value < |a.stubs| && Is(a, path, name, r.value)
    ensures r.None? ==> forall k :: i <= k < |a.stubs| ==> !Is(a, path, name, k)
    decreases |a.stubs| - i
  {
    if i >= |a.stubs| then None
    else if Is(a, path, name, i) then Some(i)
    else Defines(a, path, name, i + 1)
  }

  ghost predicate Defined(a: Archive, path: string, name: string) {
    exists i :: 0 <= i < |a.stubs| && Is(a, path, name, i)
  }

  predicate InList(list: seq<Archive>, order: seq<nat>) { forall i :: 0 <= i < |order| ==> order[i] < |list| }

  function FindIn(list: seq<Archive>, order: seq<nat>, path: string, name: string): (r: Option<(nat, nat)>)
    requires InList(list, order)
    ensures r.Some? ==> r.value.0 in order && Defines(list[r.value.0], path, name, 0) == Some(r.value.1)
    ensures r.None? ==> forall k <- order :: Defines(list[k], path, name, 0).None?
  {
    if order == [] then None
    else
      var i := Defines(list[order[0]], path, name, 0);
      if i.Some? then Some((order[0], i.value)) else FindIn(list, order[1..], path, name)
  }

  function Find(list: seq<Archive>, path: string, name: string): Option<(nat, nat)> {
    FindIn(list, Order(list, path), path, name)
  }

  lemma {:induction false} FindFirst(list: seq<Archive>, xs: seq<nat>, ys: seq<nat>, path: string, name: string)
    requires InList(list, xs) && InList(list, ys)
    ensures FindIn(list, xs + ys, path, name)
            == var r := FindIn(list, xs, path, name); if r.Some? then r else FindIn(list, ys, path, name)
  {
    if xs == [] {
      assert xs + ys == ys;
    } else {
      assert (xs + ys)[0] == xs[0] && (xs + ys)[1..] == xs[1..] + ys;
      FindFirst(list, xs[1..], ys, path, name);
    }
  }

  /** The search finds a definition exactly when some archive holds one, and it
      takes the declaring package's own archive when that is one of them. */
  lemma FindPrefersOwn(list: seq<Archive>, path: string, name: string)
    ensures Find(list, path, name).Some?
            <==> exists k :: 0 <= k < |list| && Defined(list[k], path, name)
    ensures (exists k :: 0 <= k < |list| && list[k].path == path && Defined(list[k], path, name))
            ==> Find(list, path, name).Some? && list[Find(list, path, name).value.0].path == path
  {
    var own, others := Those(list, path, true, 0), Those(list, path, false, 0);
    FindFirst(list, own, others, path, name);
    forall k | 0 <= k < |list| ensures k in Order(list, path) { assert k in own || k in others; }
    var r := Find(list, path, name);
    if r.Some? { assert Is(list[r.value.0], path, name, r.value.1); }
  }

  // ----- What a node is made of -----

  predicate KnownPackage(w: World, path: string) { path in w.packages }

  /** copier.index: the node the package being written holds for one reference
      of an archive, or None where the copier refuses. */
  function Resolve(w: World, archive: nat, ref: (Section, nat)): Option<Node>
    requires archive < |w.archives|
  {
    var a := w.archives[archive];
    var (k, i) := ref;
    match k
    case Strings =>
      var text :- TextIn(a, i);
      Some(Str(text))
    case Pkgs =>
      var path :- PathIn(a, i);
      if KnownPackage(w, path) then Some(Package(path)) else None
    case Objs =>
      var (path, name) :- NameIn(a, i);
      if KnownPackage(w, path) && (path, name) in w.decls then Some(Decl(path, name)) else None
    case ObjExts | Names | ObjDicts | Meta => None
    case _ => Some(Copied(archive, k, i))
  }

  /** copier.element: the bytes as they are, and each reference resolved. */
  function CopySpec(w: World, archive: nat, k: Section, i: nat): Option<Spec> {
    if archive < |w.archives| && (k, i) in w.archives[archive].elems then
      var raw := w.archives[archive].elems[(k, i)];
      Some(Spec(k, raw.data, seq(|raw.relocs|, j requires 0 <= j < |raw.relocs| => Resolve(w, archive, raw.relocs[j]))))
    else None
  }

  function PartSpec(k: Section, p: Part): Spec { Spec(k, p.data, p.targets) }

  /** A package states its path first. */
  function PackageSpec(w: World, path: string): Spec
    requires path in w.packages
  {
    Spec(Pkgs, w.packages[path].data, [Some(Str(PathText(w.self, path)))] + w.packages[path].targets)
  }

  function NameSpec(path: string, name: string, code: Data): Spec {
    Spec(Names, code, [Some(Package(path)), Some(Str(name))])
  }

  /** The section that numbers a node, and all the sections it has an element in. */
  function Home(n: Node): Section {
    match n
    case Str(_) => Strings
    case Package(_) => Pkgs
    case Decl(_, _) => Objs
    case Copied(_, k, _) => k
    case Own(k, _) => k
    case Lit(_) => Bodies
  }

  predicate Has(n: Node, k: Section) {
    if n.Decl? then k.Objs? || k.ObjExts? || k.Names? || k.ObjDicts? else k == Home(n)
  }

  /** The sections of a node's elements in the order they are filled. */
  function SectionsOf(w: World, n: Node): seq<Section> {
    if !n.Decl? then [Home(n)]
    else if (n.path, n.name) in w.decls && w.decls[(n.path, n.name)].copyable then [Objs, Names, ObjDicts, ObjExts]
    else [Objs, ObjExts, Names, ObjDicts]
  }

  /** The elements of a node in the order they are filled, or None where the
      writer refuses it. */
  function Specs(w: World, n: Node): (r: Option<seq<Spec>>)
    ensures r.Some? ==> |r.value| == |SectionsOf(w, n)|
    ensures r.Some? ==> forall i :: 0 <= i < |r.value| ==> r.value[i].section == SectionsOf(w, n)[i]
  {
    match n
    case Str(s) => Some([Spec(Strings, Text(s), [])])
    case Package(p) => if p in w.packages then Some([PackageSpec(w, p)]) else None
    case Copied(a, k, i) =>
      var s :- CopySpec(w, a, k, i);
      Some([s])
    case Own(k, id) => if (k, id) in w.own then Some([PartSpec(k, w.own[(k, id)])]) else None
    case Lit(id) => if id in w.lits then Some([PartSpec(Bodies, w.lits[id])]) else None
    case Decl(p, name) =>
      if (p, name) !in w.decls then None
      else if w.decls[(p, name)].copyable then
        var (a, i) :- Find(w.archives, p, name);
        var obj :- CopySpec(w, a, Objs, i);
        var nm :- CopySpec(w, a, Names, i);
        var dict :- CopySpec(w, a, ObjDicts, i);
        var ext :- CopySpec(w, a, ObjExts, i);
        Some([obj, nm, dict, ext])
      else
        var four :- w.decls[(p, name)].four;
        Some([PartSpec(Objs, four.obj), PartSpec(ObjExts, four.ext), NameSpec(p, name, four.code), PartSpec(ObjDicts, four.dict)])
  }

  lemma SectionsDiffer(w: World, n: Node)
    ensures forall i, j :: 0 <= i < j < |SectionsOf(w, n)| ==> SectionsOf(w, n)[i] != SectionsOf(w, n)[j]
    ensures forall k :: Has(n, k) <==> k in SectionsOf(w, n)
  {
  }

  /** Each node has one element in each of its sections. */
  lemma SpecSections(w: World, n: Node)
    requires Specs(w, n).Some?
    ensures forall s <- Specs(w, n).value :: Has(n, s.section)
    ensures forall k :: Has(n, k) ==> exists j :: 0 <= j < |Specs(w, n).value| && Specs(w, n).value[j].section == k
    ensures forall i, j :: 0 <= i < j < |Specs(w, n).value| ==> Specs(w, n).value[i].section != Specs(w, n).value[j].section
  {
    var specs, sections := Specs(w, n).value, SectionsOf(w, n);
    SectionsDiffer(w, n);
    forall k | Has(n, k) ensures exists j :: 0 <= j < |specs| && specs[j].section == k {
      var j :| 0 <= j < |sections| && sections[j] == k;
      assert specs[j].section == k;
    }
  }

  // ----- What can be written -----

  /** Nothing in `H` is refused, and `H` refers to nothing outside it. */
  ghost predicate Healthy(w: World, H: set<Node>) { forall n <- H :: Fine(w, n, H) }

  ghost predicate Fine(w: World, n: Node, H: set<Node>) {
    Specs(w, n).Some? && forall s <- Specs(w, n).value, t <- s.targets :: t.Some? && t.value in H
  }

  /** The writer can write a node: the node and all it reaches are fine. */
  ghost predicate Writable(w: World, n: Node) { exists H :: n in H && Healthy(w, H) }

  /** The sections of a declaration's four elements are no others'. */
  predicate Proper(n: Node) {
    n.Own? || n.Copied? ==> n.section.Types? || n.section.PosBases? || n.section.Bodies?
  }

  /** A literal is written in one body, and once. */
  ghost predicate Encloses(w: World, n: Node, s: Spec) {
    && (forall t <- s.targets :: t.Some? && t.value.Lit? ==>
          !n.Decl? && t.value.id in w.enclosing && w.enclosing[t.value.id] == n)
    && forall i, j :: 0 <= i < j < |s.targets| && s.targets[i].Some? && s.targets[i].value.Lit? ==>
         s.targets[i] != s.targets[j]
  }

  /** A finite set of nodes with all they refer to, which the packages and the
      archives of one build always are. */
  ghost predicate Closed(w: World, U: set<Node>) { forall n <- U :: Proper(n) && Within(w, n, U) }

  ghost predicate Within(w: World, n: Node, U: set<Node>) {
    Specs(w, n).Some? ==> forall s <- Specs(w, n).value ::
      Encloses(w, n, s) && forall t <- s.targets :: t.Some? ==> t.value in U
  }
}

/** What a finished file says, and which bodies reach it. */
module LinkCopy {
  import opened Wrappers
  import opened LinkGraph
  import opened LinkWriter
  import LinkRaw

  // ----- A finished file -----

  /** Everything that is claimed is filled. */
  ghost predicate Complete(pw: PkgWriter) reads pw { pw.Valid() && pw.done == pw.memo.Keys }

  /** A finished file refers to nothing that the writer refuses. */
  lemma CompleteIsHealthy(w: World, universe: set<Node>, p: Progress)
    requires Sane(w, universe, p) && p.done == p.file.memo.Keys
    ensures Healthy(w, p.file.memo.Keys)
  {
    forall n <- p.file.memo.Keys ensures Fine(w, n, p.file.memo.Keys) {
      forall s <- Specs(w, n).value, t <- s.targets ensures t.Some? && t.value in p.file.memo.Keys {
        assert Holds(p.file, n, s);
        var j :| 0 <= j < |s.targets| && s.targets[j] == t;
        assert IsRef(p.file.memo, s.targets[j], p.file.out[s.section][p.file.memo[n]].value.relocs[j]);
      }
    }
  }

  /** No index is claimed and left without an element. */
  lemma CompleteHasNoHoles(w: World, universe: set<Node>, p: Progress, k: Section, i: nat)
    requires Sane(w, universe, p) && p.done == p.file.memo.Keys && i < |p.file.out[k]|
    ensures p.file.out[k][i].Some?
  {
    assert (k, i) in p.file.owner;
    var n := p.file.owner[(k, i)];
    SpecSections(w, n);
    var j :| 0 <= j < |Specs(w, n).value| && Specs(w, n).value[j].section == k;
    assert Holds(p.file, n, Specs(w, n).value[j]);
  }

  /** A node has one index, the same in all its sections, and shares it with no
      other: a declaration has one object element, copied or not. */
  lemma OneElement(w: World, universe: set<Node>, p: Progress, n: Node, m: Node, k: Section)
    requires Sane(w, universe, p) && n in p.file.memo && m in p.file.memo && Has(n, k) && Has(m, k)
    ensures p.file.memo[n] < |p.file.out[k]|
    ensures p.file.memo[n] == p.file.memo[m] ==> n == m
  {
    assert p.file.owner[(k, p.file.memo[n])] == n && p.file.owner[(k, p.file.memo[m])] == m;
  }

  lemma NoneLeft(w: World, universe: set<Node>, p: Progress)
    requires Sane(w, universe, p) && p.Open() == {} && p.Pending() == {}
    ensures p.done == p.file.memo.Keys
  {
    forall n <- p.file.memo.Keys ensures n in p.done {
      assert n !in p.Pending() && n !in p.Open();
    }
  }

  /** Writes a node and all it reaches, unless some of it is refused. Whether it
      is does not depend on what the file holds already. */
  method Add(pw: PkgWriter, n: Node) returns (r: Option<nat>)
    requires Complete(pw) && n in pw.universe && !n.Lit?
    modifies pw
    ensures r.Some? <==> Writable(pw.w, n)
    ensures r.Some? ==> Complete(pw) && n in pw.memo && pw.memo[n] == r.value
    ensures r.Some? ==> Keeps(old(pw.Now()).file, pw.Now().file, {}) && old(pw.memo).Keys <= pw.memo.Keys
  {
    r := pw.Index(n, pw.universe);
    if r.Some? {
      NoneLeft(pw.w, pw.universe, pw.Now());
      CompleteIsHealthy(pw.w, pw.universe, pw.Now());
    }
  }

  // ----- The bodies that reach the file -----

  /** A function with a body: the element of the body, the declaration the body
      is paired with, and why its body may not be inlined. */
  datatype Func = Func(body: Node, decl: Node, generic: bool, reason: string)

  predicate Offered(f: Func, reached: set<Node>) { !f.generic && f.decl in reached && f.reason == "" }

  ghost predicate Keepable(w: World, f: Func, reached: set<Node>) { Offered(f, reached) && Writable(w, f.body) }

  /** The functions whose bodies are kept, in their order. */
  ghost function Kept(w: World, funcs: seq<Func>, reached: set<Node>): (r: seq<Func>)
    ensures forall f :: f in r <==> f in funcs && Keepable(w, f, reached)
  {
    if funcs == [] then []
    else
      var f := funcs[|funcs| - 1];
      Kept(w, funcs[..|funcs| - 1], reached) + if Keepable(w, f, reached) then [f] else []
  }

  lemma KeptNext(w: World, funcs: seq<Func>, i: nat, reached: set<Node>)
    requires i < |funcs|
    ensures Kept(w, funcs[..i + 1], reached)
            == Kept(w, funcs[..i], reached) + if Keepable(w, funcs[i], reached) then [funcs[i]] else []
  {
    assert funcs[..i + 1][..i] == funcs[..i];
  }

  ghost predicate InUniverse(nodes: seq<Node>, universe: set<Node>) { forall n <- nodes :: n in universe && !n.Lit? }

  ghost predicate BodiesIn(funcs: seq<Func>, universe: set<Node>) { forall f <- funcs :: f.body in universe && !f.body.Lit? }

  ghost predicate AllWritten(w: World, nodes: seq<Node>) { forall n <- nodes :: Writable(w, n) }

  // ----- What is reached -----

  /** An element of one node refers to the other. */
  ghost predicate Refers(w: World, m: Node, n: Node) { Specs(w, m).Some? && exists s <- Specs(w, m).value :: Some(n) in s.targets }

  /** A path of references from one of the roots. */
  ghost predicate Way(w: World, roots: seq<Node>, path: seq<Node>, n: Node)
    decreases |path|
  {
    if path == [] then n in roots
    else
      var last := path[|path| - 1];
      Way(w, roots, path[..|path| - 1], last) && Refers(w, last, n)
  }

  ghost predicate Reached(w: World, roots: seq<Node>, n: Node) { exists path :: Way(w, roots, path, n) }

  lemma ReachedNext(w: World, roots: seq<Node>, m: Node, n: Node)
    requires Reached(w, roots, m) && Refers(w, m, n)
    ensures Reached(w, roots, n)
  {
    var path :| Way(w, roots, path, m);
    assert (path + [m])[..|path|] == path;
    assert Way(w, roots, path + [m], n);
  }

  lemma {:induction false} WayStays(w: World, roots: seq<Node>, path: seq<Node>, n: Node, H: set<Node>)
    requires Healthy(w, H) && (forall r <- roots :: r in H) && Way(w, roots, path, n)
    ensures n in H
    decreases |path|
  {
    if path != [] {
      var last := path[|path| - 1];
      WayStays(w, roots, path[..|path| - 1], last, H);
      assert Fine(w, last, H);
    }
  }

  /** The nodes of a universe that the roots reach. */
  ghost function Reach(w: World, universe: set<Node>, roots: seq<Node>): set<Node> {
    set n: Node | n in universe && Reached(w, roots, n)
  }

  lemma ReachIsClosed(w: World, universe: set<Node>, roots: seq<Node>)
    requires Closed(w, universe) && forall r <- roots :: r in universe
    ensures Closed(w, Reach(w, universe, roots)) && forall r <- roots :: r in Reach(w, universe, roots)
  {
    var U := Reach(w, universe, roots);
    forall r <- roots ensures r in U { assert Way(w, roots, [], r); }
    forall n <- U ensures Within(w, n, U) {
      assert Within(w, n, universe);
      if Specs(w, n).Some? {
        forall s <- Specs(w, n).value, t <- s.targets | t.Some? ensures t.value in U {
          assert Refers(w, n, t.value);
          ReachedNext(w, roots, n, t.value);
        }
      }
    }
  }

  /** A finished file in the universe of what its roots reach holds just that. */
  lemma FileIsReach(w: World, universe: set<Node>, roots: seq<Node>, p: Progress)
    requires Sane(w, Reach(w, universe, roots), p) && p.done == p.file.memo.Keys && forall r <- roots :: r in p.file.memo
    ensures forall n :: n in p.file.memo <==> Reached(w, roots, n)
  {
    CompleteIsHealthy(w, Reach(w, universe, roots), p);
    forall n | Reached(w, roots, n) ensures n in p.file.memo {
      var path :| Way(w, roots, path, n);
      WayStays(w, roots, path, n, p.file.memo.Keys);
    }
    forall n | n in p.file.memo ensures Reached(w, roots, n) { assert n in p.file.memo.Keys; }
  }

  /** The declarations that the exported ones reach. */
  ghost predicate IsSurface(w: World, exported: seq<Node>, reached: set<Node>) {
    forall n :: n in reached <==> n.Decl? && Reached(w, exported, n)
  }

  /** The first `i` nodes can be written and have an index. */
  ghost predicate Added(w: World, known: set<Node>, nodes: seq<Node>, i: nat)
    requires i <= |nodes|
  {
    forall k :: 0 <= k < i ==> nodes[k] in known && Writable(w, nodes[k])
  }

  lemma AddedNext(w: World, before: set<Node>, known: set<Node>, nodes: seq<Node>, i: nat)
    requires i < |nodes| && Added(w, before, nodes, i) && before <= known && nodes[i] in known && Writable(w, nodes[i])
    ensures Added(w, known, nodes, i + 1)
  {
  }

  /** Writes each exported declaration, and stops at one that is refused. */
  method AddAll(pw: PkgWriter, exported: seq<Node>) returns (ok: bool)
    requires Complete(pw) && InUniverse(exported, pw.universe)
    modifies pw
    ensures ok <==> AllWritten(pw.w, exported)
    ensures ok ==> Complete(pw) && forall n <- exported :: n in pw.memo
  {
    for i := 0 to |exported|
      invariant Complete(pw) && Added(pw.w, pw.memo.Keys, exported, i)
    {
      ghost var before := pw.memo.Keys;
      var r := Add(pw, exported[i]);
      if r.None? { return false; }
      AddedNext(pw.w, before, pw.memo.Keys, exported, i);
    }
    ok := true;
  }

  /** The declarations the file holds an element for, measured on a writer that
      is thrown away; none when the surface itself is refused. */
  method SurfaceObjects(w: World, ghost universe: set<Node>, exported: seq<Node>) returns (reached: set<Node>)
    requires Closed(w, universe) && InUniverse(exported, universe)
    ensures if AllWritten(w, exported) then IsSurface(w, exported, reached) else reached == {}
  {
    ReachIsClosed(w, universe, exported);
    var pw := new PkgWriter(w, Reach(w, universe, exported));
    var ok := AddAll(pw, exported);
    if !ok { return {}; }
    reached := set n: Node | n in pw.memo && n.Decl?;
    FileIsReach(w, universe, exported, pw.Now());
  }

  /** The probe: each body is written into a package that is thrown away, and a
      new one is begun after a refusal. */
  method WritableBodies(w: World, ghost universe: set<Node>, funcs: seq<Func>, exported: seq<Node>)
    returns (out: seq<Func>, ghost reached: set<Node>)
    requires Closed(w, universe) && InUniverse(exported, universe) && BodiesIn(funcs, universe)
    ensures if AllWritten(w, exported) then IsSurface(w, exported, reached) else reached == {}
    ensures out == Kept(w, funcs, reached)
  {
    var surface := SurfaceObjects(w, universe, exported);
    reached := surface;
    out := [];
    var probe := new PkgWriter(w, universe);
    for i := 0 to |funcs|
      invariant fresh(probe) && Complete(probe) && probe.w == w && probe.universe == universe
      invariant out == Kept(w, funcs[..i], surface)
    {
      var f := funcs[i];
      KeptNext(w, funcs, i, surface);
      if f.generic || f.decl !in surface { continue; }
      var r := Add(probe, f.body);
      if r.None? {
        probe := new PkgWriter(w, universe);
        continue;
      }
      if f.reason != "" { continue; }
      out := out + [f];
    }
    assert funcs[..|funcs|] == funcs;
  }

  /** The index of each body. */
  ghost predicate Indexed(memo: Memo, funcs: seq<Func>, entries: seq<nat>) {
    |entries| <= |funcs| && forall i :: 0 <= i < |entries| ==> funcs[i].body in memo && memo[funcs[i].body] == entries[i]
  }

  lemma IndexedNext(f: File, g: File, funcs: seq<Func>, entries: seq<nat>, i: nat)
    requires HasSections(f.out) && HasSections(g.out) && Keeps(f, g, {}) && Indexed(f.memo, funcs, entries)
    requires |entries| < |funcs| && funcs[|entries|].body in g.memo && g.memo[funcs[|entries|].body] == i
    ensures Indexed(g.memo, funcs, entries + [i])
  {
  }

  /** Writes the bodies the probe kept. None is refused. */
  method WriteBodies(pw: PkgWriter, funcs: seq<Func>) returns (entries: seq<nat>)
    requires Complete(pw) && BodiesIn(funcs, pw.universe) && forall f <- funcs :: Writable(pw.w, f.body)
    modifies pw
    ensures Complete(pw) && old(pw.memo).Keys <= pw.memo.Keys && |entries| == |funcs| && Indexed(pw.memo, funcs, entries)
  {
    entries := [];
    for i := 0 to |funcs|
      invariant Complete(pw) && old(pw.memo).Keys <= pw.memo.Keys && |entries| == i && Indexed(pw.memo, funcs, entries)
    {
      ghost var before := pw.Now().file;
      var r := Add(pw, funcs[i].body);
      IndexedNext(before, pw.Now().file, funcs, entries, r.value);
      entries := entries + [r.value];
    }
  }

  function BodiesOf(funcs: seq<Func>): seq<Node> { seq(|funcs|, i requires 0 <= i < |funcs| => funcs[i].body) }

  lemma AreBodies(funcs: seq<Func>)
    ensures forall f <- funcs :: f.body in BodiesOf(funcs)
    ensures forall n <- BodiesOf(funcs) :: exists f <- funcs :: n == f.body
  {
    forall f <- funcs ensures f.body in BodiesOf(funcs) {
      var i :| 0 <= i < |funcs| && funcs[i] == f;
      assert BodiesOf(funcs)[i] == f.body;
    }
  }

  /** The writer refuses a package exactly when it refuses a declaration of the
      exported surface. A body never makes it refuse, and the file holds what the
      surface and the kept bodies reach and nothing else. */
  method Write(w: World, ghost universe: set<Node>, funcs: seq<Func>, exported: seq<Node>)
    returns (ok: bool, pw: PkgWriter, kept: seq<Func>, entries: seq<nat>)
    requires Closed(w, universe) && InUniverse(exported, universe) && BodiesIn(funcs, universe)
    ensures ok <==> AllWritten(w, exported)
    ensures ok <==> forall n <- exported :: LinkRaw.Carried(w, n)
    ensures ok ==> exists reached :: IsSurface(w, exported, reached) && kept == Kept(w, funcs, reached)
    ensures ok ==> Complete(pw) && pw.w == w && (forall n <- exported :: n in pw.memo)
    ensures ok ==> forall n :: n in pw.memo <==> Reached(w, exported + BodiesOf(kept), n)
    ensures ok ==> |entries| == |kept| && Indexed(pw.memo, kept, entries)
  {
    ghost var reached;
    forall n <- exported ensures Writable(w, n) <==> LinkRaw.Carried(w, n) { LinkRaw.WritableIsCarried(w, n); }
    kept, reached := WritableBodies(w, universe, funcs, exported);
    forall f <- kept ensures f in funcs && (f.body in universe && !f.body.Lit?) && Writable(w, f.body) { assert f in Kept(w, funcs, reached); }
    entries := [];
    ghost var roots := exported + BodiesOf(kept);
    AreBodies(kept);
    ReachIsClosed(w, universe, roots);
    forall n <- exported ensures n in Reach(w, universe, roots) { assert n in roots; }
    forall f <- kept ensures f.body in Reach(w, universe, roots) { assert f.body in roots; }
    pw := new PkgWriter(w, Reach(w, universe, roots));
    ok := AddAll(pw, exported);
    if !ok { return; }
    entries := WriteBodies(pw, kept);
    forall n <- roots ensures n in pw.memo {
      if n !in exported {
        assert n in BodiesOf(kept);
        var i :| 0 <= i < |kept| && kept[i].body == n;
      }
    }
    FileIsReach(w, universe, roots, pw.Now());
  }

  // ----- What a finished file holds -----

  /** The section whose index is that of a node. */
  predicate Numbers(n: Node, k: Section) { if n.Decl? then k.Objs? else LinkRaw.In(n, k) }

  /** The references are the indices of these nodes. */
  predicate Indices(memo: Memo, targets: seq<Node>, relocs: seq<(Section, nat)>) {
    |targets| == |relocs| && forall j :: 0 <= j < |targets| ==>
      targets[j] in memo && Numbers(targets[j], relocs[j].0) && relocs[j].1 == memo[targets[j]]
  }

  lemma AreIndices(memo: Memo, s: Spec, e: Elem)
    requires IsElem(memo, s, Some(e))
    ensures exists targets :: LinkRaw.Agree(s.targets, targets) && Indices(memo, targets, e.relocs)
  {
    forall j | 0 <= j < |s.targets| ensures s.targets[j].Some? { assert IsRef(memo, s.targets[j], e.relocs[j]); }
    var targets := LinkRaw.Given(s.targets);
    forall j | 0 <= j < |targets|
      ensures targets[j] in memo && Numbers(targets[j], e.relocs[j].0) && e.relocs[j].1 == memo[targets[j]]
    {
      assert IsRef(memo, s.targets[j], e.relocs[j]);
    }
    assert Indices(memo, targets, e.relocs);
  }

  /** Each element of each node is there, with the bytes it has to hold and the
      index of each node it has to refer to. */
  lemma ElementSays(w: World, universe: set<Node>, p: Progress, n: Node, k: Section)
    requires Sane(w, universe, p) && p.done == p.file.memo.Keys && n in p.done && LinkRaw.In(n, k)
    ensures p.file.memo[n] < |p.file.out[k]| && p.file.out[k][p.file.memo[n]].Some?
    ensures var e := p.file.out[k][p.file.memo[n]].value;
            exists targets :: LinkRaw.Says(w, n, k, e.data, targets) && Indices(p.file.memo, targets, e.relocs)
  {
    assert Filled(w, p.file, n);
    SpecSections(w, n);
    assert Has(n, k);
    var i :| 0 <= i < |Specs(w, n).value| && Specs(w, n).value[i].section == k;
    var s := Specs(w, n).value[i];
    assert Holds(p.file, n, s);
    var e := p.file.out[k][p.file.memo[n]].value;
    AreIndices(p.file.memo, s, e);
    var targets :| LinkRaw.Agree(s.targets, targets) && Indices(p.file.memo, targets, e.relocs);
    LinkRaw.SpecSays(w, n, s, targets);
  }

  // ----- A copy reaches what its source reaches -----

  /** What lies at the end of a path of references. Strings, packages and
      declarations end a path, and are known by their value, their path and
      their name. */
  datatype End = Value(text: string) | PackageAt(path: string) | Declared(path: string, name: string) | Element(data: Data, refs: nat)

  /** Follows a path of references from an element of an archive. */
  function FollowSource(w: World, a: nat, k: Section, i: nat, path: seq<nat>): Option<End>
    decreases |path|
  {
    if a >= |w.archives| || (k, i) !in w.archives[a].elems then None
    else
      var ar := w.archives[a];
      var raw := ar.elems[(k, i)];
      if path == [] then Some(Element(raw.data, |raw.relocs|))
      else if path[0] >= |raw.relocs| then None
      else
        var ref := raw.relocs[path[0]];
        if Ends(ref.0) then (if |path| == 1 then EndIn(ar, ref) else None) else FollowSource(w, a, ref.0, ref.1, path[1..])
  }

  predicate Ends(k: Section) { k.Strings? || k.Pkgs? || k.Objs? }

  /** The string, the package or the declaration at an index of an archive. */
  function EndIn(ar: Archive, ref: (Section, nat)): Option<End> {
    match ref.0
    case Strings =>
      var text :- TextIn(ar, ref.1);
      Some(Value(text))
    case Pkgs =>
      var path :- PathIn(ar, ref.1);
      Some(PackageAt(path))
    case Objs =>
      var (path, name) :- NameIn(ar, ref.1);
      Some(Declared(path, name))
    case _ => None
  }

  /** Follows a path of references from an element of the file. */
  function FollowFile(self: string, out: Output, k: Section, i: nat, path: seq<nat>): Option<End>
    decreases |path|
  {
    if k !in out || i >= |out[k]| || out[k][i].None? then None
    else
      var e := out[k][i].value;
      if path == [] then Some(Element(e.data, |e.relocs|))
      else if path[0] >= |e.relocs| then None
      else
        var ref := e.relocs[path[0]];
        if Ends(ref.0) then (if |path| == 1 then EndOf(self, out, ref) else None) else FollowFile(self, out, ref.0, ref.1, path[1..])
  }

  function RefOf(out: Output, k: Section, i: nat, j: nat, to: Section): Option<nat> {
    if k in out && i < |out[k]| && out[k][i].Some? && j < |out[k][i].value.relocs| && out[k][i].value.relocs[j].0 == to
    then Some(out[k][i].value.relocs[j].1) else None
  }

  function TextOf(out: Output, i: nat): Option<string> {
    if Strings in out && i < |out[Strings]| && out[Strings][i].Some? && out[Strings][i].value.data.Text?
    then Some(out[Strings][i].value.data.text) else None
  }

  /** The path a package element of the file states to a reader. */
  function PathOf(self: string, out: Output, i: nat): Option<string> {
    var str :- RefOf(out, Pkgs, i, 0, Strings);
    var text :- TextOf(out, str);
    Some(TextPath(self, text))
  }

  /** The package and the name that a name element of the file states. */
  function NameOf(self: string, out: Output, i: nat): Option<(string, string)> {
    var pkg :- RefOf(out, Names, i, 0, Pkgs);
    var path :- PathOf(self, out, pkg);
    var str :- RefOf(out, Names, i, 1, Strings);
    var name :- TextOf(out, str);
    Some((path, name))
  }

  /** The string, the package or the declaration at an index of the file, as
      its strings, its package element and its name element state it. */
  function EndOf(self: string, out: Output, ref: (Section, nat)): Option<End> {
    match ref.0
    case Strings =>
      var text :- TextOf(out, ref.1);
      Some(Value(text))
    case Pkgs =>
      var path :- PathOf(self, out, ref.1);
      Some(PackageAt(path))
    case Objs =>
      var (path, name) :- NameOf(self, out, ref.1);
      Some(Declared(path, name))
    case _ => None
  }

  /** The empty path is the package's own. */
  predicate Named(w: World) { "" in w.packages ==> w.self == "" }

  lemma WrittenRef(w: World, universe: set<Node>, p: Progress, n: Node, s: Spec, j: nat)
    requires Sane(w, universe, p) && p.done == p.file.memo.Keys && n in p.done
    requires Specs(w, n).Some? && s in Specs(w, n).value && j < |s.targets| && s.targets[j].Some?
    ensures var t := s.targets[j].value;
            t in p.done && RefOf(p.file.out, s.section, p.file.memo[n], j, Home(t)) == Some(p.file.memo[t])
  {
    assert Holds(p.file, n, s);
    assert IsRef(p.file.memo, s.targets[j], p.file.out[s.section][p.file.memo[n]].value.relocs[j]);
  }

  lemma WrittenText(w: World, universe: set<Node>, p: Progress, n: Node)
    requires Sane(w, universe, p) && n in p.done && n.Str?
    ensures TextOf(p.file.out, p.file.memo[n]) == Some(n.text)
  {
    assert Filled(w, p.file, n);
    assert Holds(p.file, n, Specs(w, n).value[0]);
  }

  lemma WrittenPath(w: World, universe: set<Node>, p: Progress, n: Node)
    requires Sane(w, universe, p) && p.done == p.file.memo.Keys && n in p.done && n.Package? && Named(w)
    ensures PathOf(w.self, p.file.out, p.file.memo[n]) == Some(n.path)
  {
    assert Filled(w, p.file, n);
    var s := PackageSpec(w, n.path);
    assert Specs(w, n).value[0] == s;
    WrittenRef(w, universe, p, n, s, 0);
    WrittenText(w, universe, p, Str(PathText(w.self, n.path)));
  }

  lemma AllClaimed(w: World, universe: set<Node>, p: Progress, n: Node, s: Spec, t: Option<Node>)
    requires Sane(w, universe, p) && p.done == p.file.memo.Keys && n in p.done
    requires Specs(w, n).Some? && s in Specs(w, n).value && t in s.targets
    ensures t.Some?
  {
    CompleteIsHealthy(w, universe, p);
    assert Fine(w, n, p.file.memo.Keys);
  }

  lemma WrittenName(w: World, universe: set<Node>, p: Progress, n: Node)
    requires Sane(w, universe, p) && p.done == p.file.memo.Keys && n in p.done && n.Decl? && Named(w)
    ensures NameOf(w.self, p.file.out, p.file.memo[n]) == Some((n.path, n.name))
  {
    assert Filled(w, p.file, n);
    forall t <- Specs(w, n).value, x <- t.targets ensures x.Some? { AllClaimed(w, universe, p, n, t, x); }
    var s := NamesOf(w, n);
    WrittenRef(w, universe, p, n, s, 0);
    WrittenRef(w, universe, p, n, s, 1);
    WrittenPath(w, universe, p, Package(n.path));
    WrittenText(w, universe, p, Str(n.name));
  }

  /** The name element of a declaration: its own, or the one of the archive. */
  lemma NamesOf(w: World, n: Node) returns (s: Spec)
    requires n.Decl? && Specs(w, n).Some?
    requires forall t <- Specs(w, n).value, x <- t.targets :: x.Some?
    ensures s in Specs(w, n).value && s.section.Names? && |s.targets| >= 2
    ensures s.targets[0] == Some(Package(n.path)) && s.targets[1] == Some(Str(n.name))
  {
    if w.decls[(n.path, n.name)].copyable {
      s := Specs(w, n).value[1];
      var (a, i) := Find(w.archives, n.path, n.name).value;
      assert CopySpec(w, a, Names, i) == Some(s);
      CopiedName(w, a, i, n.path, n.name, s);
    } else {
      s := NameSpec(n.path, n.name, w.decls[(n.path, n.name)].four.value.code);
      assert Specs(w, n).value[2] == s;
    }
  }

  lemma CopiedName(w: World, a: nat, i: nat, path: string, name: string, s: Spec)
    requires a < |w.archives| && Is(w.archives[a], path, name, i)
    requires CopySpec(w, a, Names, i) == Some(s) && forall x <- s.targets :: x.Some?
    ensures s.section.Names? && |s.targets| >= 2
    ensures s.targets[0] == Some(Package(path)) && s.targets[1] == Some(Str(name))
  {
    var relocs := w.archives[a].elems[(Names, i)].relocs;
    assert NameIn(w.archives[a], i) == Some((path, name));
    assert s.targets[0] == Resolve(w, a, relocs[0]) && s.targets[0] in s.targets;
    assert s.targets[1] == Resolve(w, a, relocs[1]);
  }

  /** One of a node's elements is a copy of the archive's. */
  predicate IsCopy(w: World, n: Node, a: nat, k: Section, i: nat) {
    CopySpec(w, a, k, i).Some? && Specs(w, n).Some? && CopySpec(w, a, k, i).value in Specs(w, n).value
  }

  /** A copied element has the bytes of its source, and each of its references
      is the index of the node the source's reference resolves to. */
  lemma CopiedElement(w: World, universe: set<Node>, p: Progress, n: Node, a: nat, k: Section, i: nat)
    requires Sane(w, universe, p) && n in p.done
    requires IsCopy(w, n, a, k, i)
    ensures p.file.memo[n] < |p.file.out[k]| && p.file.out[k][p.file.memo[n]].Some?
    ensures var e, raw := p.file.out[k][p.file.memo[n]].value, w.archives[a].elems[(k, i)];
            && e.data == raw.data && |e.relocs| == |raw.relocs|
            && forall j :: 0 <= j < |raw.relocs| ==> IsRef(p.file.memo, Resolve(w, a, raw.relocs[j]), e.relocs[j])
  {
    var s := CopySpec(w, a, k, i).value;
    assert Holds(p.file, n, s);
    forall j | 0 <= j < |s.targets|
      ensures IsRef(p.file.memo, Resolve(w, a, w.archives[a].elems[(k, i)].relocs[j]), p.file.out[k][p.file.memo[n]].value.relocs[j]) {
      assert IsRef(p.file.memo, s.targets[j], p.file.out[k][p.file.memo[n]].value.relocs[j]);
    }
  }

  /** What a node that ends a path says of itself. */
  function Stated(n: Node): Option<End> {
    match n
    case Str(text) => Some(Value(text))
    case Package(path) => Some(PackageAt(path))
    case Decl(path, name) => Some(Declared(path, name))
    case _ => None
  }

  lemma ResolveKeeps(w: World, a: nat, from: (Section, nat))
    requires a < |w.archives| && Resolve(w, a, from).Some?
    ensures Home(Resolve(w, a, from).value) == from.0
    ensures if Ends(from.0) then Stated(Resolve(w, a, from).value) == EndIn(w.archives[a], from) && EndIn(w.archives[a], from).Some?
            else Resolve(w, a, from).value == Copied(a, from.0, from.1)
  {
  }

  lemma TextEnds(self: string, out: Output, i: nat, text: string)
    requires TextOf(out, i) == Some(text)
    ensures EndOf(self, out, (Strings, i)) == Some(Value(text))
  {
  }

  lemma PathEnds(self: string, out: Output, i: nat, path: string)
    requires PathOf(self, out, i) == Some(path)
    ensures EndOf(self, out, (Pkgs, i)) == Some(PackageAt(path))
  {
  }

  lemma NameEnds(self: string, out: Output, i: nat, path: string, name: string)
    requires NameOf(self, out, i) == Some((path, name))
    ensures EndOf(self, out, (Objs, i)) == Some(Declared(path, name))
  {
  }

  lemma WrittenEnd(w: World, universe: set<Node>, p: Progress, n: Node)
    requires Sane(w, universe, p) && p.done == p.file.memo.Keys && n in p.done && Named(w) && Stated(n).Some?
    ensures EndOf(w.self, p.file.out, (Home(n), p.file.memo[n])) == Stated(n)
  {
    var i := p.file.memo[n];
    match n
    case Str(text) =>
      WrittenText(w, universe, p, n);
      TextEnds(w.self, p.file.out, i, text);
    case Package(path) =>
      WrittenPath(w, universe, p, n);
      PathEnds(w.self, p.file.out, i, path);
    case Decl(path, name) =>
      WrittenName(w, universe, p, n);
      NameEnds(w.self, p.file.out, i, path, name);
  }

  /** One reference of a copied element. */
  lemma CopiedReference(w: World, universe: set<Node>, p: Progress, a: nat, from: (Section, nat), to: (Section, nat))
    requires Sane(w, universe, p) && p.done == p.file.memo.Keys && a < |w.archives| && Named(w)
    requires IsRef(p.file.memo, Resolve(w, a, from), to)
    ensures from.0 == to.0 && (Ends(from.0) ==> EndOf(w.self, p.file.out, to) == EndIn(w.archives[a], from))
    ensures !Ends(from.0) ==>
              var t := Copied(a, from.0, from.1);
              t in p.done && p.file.memo[t] == to.1 && IsCopy(w, t, a, from.0, from.1)
  {
    var t := Resolve(w, a, from).value;
    ResolveKeeps(w, a, from);
    if Ends(from.0) {
      WrittenEnd(w, universe, p, t);
    } else {
      assert Filled(w, p.file, t);
    }
  }

  /** A path ends alike in two elements when it does from the references
      they hold. */
  lemma FollowsOne(w: World, self: string, out: Output, a: nat, k: Section, i: nat, x: nat, path: seq<nat>)
    requires k in out && x < |out[k]| && out[k][x].Some? && a < |w.archives| && (k, i) in w.archives[a].elems
    requires var e, raw := out[k][x].value, w.archives[a].elems[(k, i)];
             && e.data == raw.data && |e.relocs| == |raw.relocs|
             && (path != [] && path[0] < |raw.relocs| ==>
                   var from, to := raw.relocs[path[0]], e.relocs[path[0]];
                   from.0 == to.0
                   && if Ends(from.0) then EndOf(self, out, to) == EndIn(w.archives[a], from)
                      else FollowFile(self, out, to.0, to.1, path[1..]) == FollowSource(w, a, from.0, from.1, path[1..]))
    ensures FollowFile(self, out, k, x, path) == FollowSource(w, a, k, i, path)
  {
  }

  /** Every path from a copied element ends where the same path ends in the
      archive it was copied from: at the same bytes, the same string, or a
      package or a declaration that states the same path and name. */
  lemma {:induction false} CopyFollows(w: World, universe: set<Node>, p: Progress, n: Node, a: nat, k: Section, i: nat, path: seq<nat>)
    requires Sane(w, universe, p) && p.done == p.file.memo.Keys && n in p.done && Named(w)
    requires IsCopy(w, n, a, k, i)
    ensures FollowFile(w.self, p.file.out, k, p.file.memo[n], path) == FollowSource(w, a, k, i, path)
    decreases |path|
  {
    CopiedElement(w, universe, p, n, a, k, i);
    var x := p.file.memo[n];
    var raw, e := w.archives[a].elems[(k, i)], p.file.out[k][x].value;
    if path != [] && path[0] < |raw.relocs| {
      var from, to := raw.relocs[path[0]], e.relocs[path[0]];
      CopiedReference(w, universe, p, a, from, to);
      if !Ends(from.0) {
        CopyFollows(w, universe, p, Copied(a, from.0, from.1), a, from.0, from.1, path[1..]);
      }
    }
    FollowsOne(w, w.self, p.file.out, a, k, i, x, path);
  }

  lemma CopiesOf(w: World, n: Node, k: Section)
    requires n.Decl? && (n.path, n.name) in w.decls && w.decls[(n.path, n.name)].copyable && Has(n, k) && Specs(w, n).Some?
    ensures var r := Find(w.archives, n.path, n.name);
            r.Some? && IsCopy(w, n, r.value.0, k, r.value.1)
  {
    var (a, i) := Find(w.archives, n.path, n.name).value;
    var specs := Specs(w, n).value;
    assert specs[0] == CopySpec(w, a, Objs, i).value && specs[1] == CopySpec(w, a, Names, i).value
        && specs[2] == CopySpec(w, a, ObjDicts, i).value && specs[3] == CopySpec(w, a, ObjExts, i).value;
  }

  /** The four elements of a generic declaration of another package are copies
      of the ones in the archive that the search prefers. */
  lemma DeclarationIsCopied(w: World, universe: set<Node>, p: Progress, n: Node, k: Section, path: seq<nat>)
    requires Sane(w, universe, p) && p.done == p.file.memo.Keys && n in p.done && Named(w)
    requires n.Decl? && (n.path, n.name) in w.decls && w.decls[(n.path, n.name)].copyable && Has(n, k)
    ensures var r := Find(w.archives, n.path, n.name);
            r.Some? && FollowFile(w.self, p.file.out, k, p.file.memo[n], path) == FollowSource(w, r.value.0, k, r.value.1, path)
  {
    assert Filled(w, p.file, n);
    CopiesOf(w, n, k);
    var (a, i) := Find(w.archives, n.path, n.name).value;
    CopyFollows(w, universe, p, n, a, k, i, path);
  }
}

/** The writer of the linked form: each node is claimed, then filled. */
module LinkWriter {
  import opened Wrappers
  import opened LinkGraph

  /** An element of the output. */
  datatype Elem = Elem(data: Data, relocs: seq<(Section, nat)>)

  /** Each section's elements, where None is one that is claimed and not filled. */
  type Output = map<Section, seq<Option<Elem>>>

  type Memo = map<Node, nat>

  /** The state of the writer, with the node each claimed element belongs to. */
  datatype File = File(memo: Memo, out: Output, owner: map<(Section, nat), Node>)

  ghost predicate HasSections(out: Output) { forall k: Section :: k in out }

  /** The four sections of the declarations always have the same length. */
  ghost predicate Lockstep(f: File)
    requires HasSections(f.out)
  {
    |f.out[Objs]| == |f.out[ObjExts]| == |f.out[Names]| == |f.out[ObjDicts]|
  }

  /** Every element belongs to one node, and every node has its elements. */
  ghost predicate Owned(f: File)
    requires HasSections(f.out)
  {
    && (forall n, k: Section :: n in f.memo && Has(n, k) ==> (k, f.memo[n]) in f.owner && f.owner[(k, f.memo[n])] == n)
    && (forall p <- f.owner :: p.1 < |f.out[p.0]| && f.owner[p] in f.memo && f.memo[f.owner[p]] == p.1 && Has(f.owner[p], p.0))
    && (forall k: Section, i: nat :: i < |f.out[k]| ==> (k, i) in f.owner)
  }

  ghost predicate Sound(f: File) { HasSections(f.out) && Lockstep(f) && Owned(f) }

  /** An element is what its spec says, with each target where it was claimed. */
  predicate IsElem(memo: Memo, s: Spec, e: Option<Elem>) {
    e.Some? && e.value.data == s.data && |e.value.relocs| == |s.targets| && AreRefs(memo, s.targets, e.value.relocs)
  }

  predicate AreRefs(memo: Memo, targets: seq<Option<Node>>, relocs: seq<(Section, nat)>)
    requires |relocs| <= |targets|
  {
    forall j :: 0 <= j < |relocs| ==> IsRef(memo, targets[j], relocs[j])
  }

  predicate IsRef(memo: Memo, t: Option<Node>, ref: (Section, nat)) {
    t.Some? && t.value in memo && ref == (Home(t.value), memo[t.value])
  }

  predicate Holds(f: File, n: Node, s: Spec)
    requires n in f.memo && s.section in f.out
  {
    f.memo[n] < |f.out[s.section]| && IsElem(f.memo, s, f.out[s.section][f.memo[n]])
  }

  ghost predicate Filled(w: World, f: File, n: Node)
    requires HasSections(f.out)
  {
    n in f.memo && Specs(w, n).Some? && forall s <- Specs(w, n).value :: Holds(f, n, s)
  }

  /** What a step of the writer keeps: every claim, and every element but those
      of the node it fills. */
  ghost predicate Keeps(f: File, g: File, filling: set<Node>)
    requires HasSections(f.out) && HasSections(g.out)
  {
    && (forall n <- f.memo :: n in g.memo && g.memo[n] == f.memo[n])
    && (forall p <- f.owner :: p in g.owner && g.owner[p] == f.owner[p])
    && (forall p <- f.owner :: p.1 < |f.out[p.0]| ==>
          p.1 < |g.out[p.0]| && (f.owner[p] !in filling ==> g.out[p.0][p.1] == f.out[p.0][p.1]))
  }

  lemma KeepsBoth(f: File, g: File, h: File, filling: set<Node>, filling': set<Node>)
    requires Sound(f) && HasSections(g.out) && HasSections(h.out) && Keeps(f, g, filling) && Keeps(g, h, filling')
    requires forall n <- filling' :: n in filling || n !in f.memo
    ensures Keeps(f, h, filling)
  {
    forall p: (Section, nat) | p in f.owner ensures
        && p in h.owner && h.owner[p] == f.owner[p] && p.1 < |h.out[p.0]|
        && (f.owner[p] !in filling ==> h.out[p.0][p.1] == f.out[p.0][p.1]) {
      assert f.owner[p] in f.memo && p in g.owner && g.owner[p] == f.owner[p];
    }
  }

  lemma HoldsLater(f: File, g: File, filling: set<Node>, n: Node, s: Spec)
    requires Sound(f) && HasSections(g.out) && Keeps(f, g, filling)
    requires n in f.memo && n !in filling && Has(n, s.section) && Holds(f, n, s)
    ensures Holds(g, n, s)
  {
    assert f.owner[(s.section, f.memo[n])] == n;
  }

  lemma AddRef(f: File, g: File, targets: seq<Option<Node>>, relocs: seq<(Section, nat)>, ref: (Section, nat))
    requires HasSections(f.out) && HasSections(g.out) && Keeps(f, g, {})
    requires |relocs| < |targets| && AreRefs(f.memo, targets, relocs) && IsRef(g.memo, targets[|relocs|], ref)
    ensures AreRefs(g.memo, targets, relocs + [ref])
  {
    forall j | 0 <= j < |relocs| ensures IsRef(g.memo, targets[j], relocs[j]) {
      assert IsRef(f.memo, targets[j], relocs[j]);
    }
  }

  lemma FilledLater(w: World, f: File, g: File, filling: set<Node>, n: Node)
    requires Sound(f) && HasSections(g.out) && Keeps(f, g, filling) && n !in filling && Filled(w, f, n)
    ensures Filled(w, g, n)
  {
    SpecSections(w, n);
    forall s <- Specs(w, n).value ensures Holds(g, n, s) { HoldsLater(f, g, filling, n, s); }
  }

  // ----- Claiming -----

  /** The state after a node is claimed: one more element in each of its sections. */
  ghost predicate Claims(f: File, n: Node, i: nat, g: File)
    requires HasSections(f.out)
  {
    && HasSections(g.out) && g.memo == f.memo[n := i]
    && (forall k: Section :: g.out[k] == if Has(n, k) then f.out[k] + [None] else f.out[k])
    && (forall p :: p in g.owner <==> p in f.owner || (Has(n, p.0) && p.1 == i))
    && (forall p <- g.owner :: g.owner[p] == if Has(n, p.0) && p.1 == i then n else f.owner[p])
  }

  lemma ClaimsFour(f: File, n: Node, i: nat, g: File)
    requires HasSections(f.out) && n.Decl?
    requires g.memo == f.memo[n := i]
    requires g.out == f.out[Objs := f.out[Objs] + [None]][ObjExts := f.out[ObjExts] + [None]]
                           [Names := f.out[Names] + [None]][ObjDicts := f.out[ObjDicts] + [None]]
    requires g.owner == f.owner[(Objs, i) := n][(ObjExts, i) := n][(Names, i) := n][(ObjDicts, i) := n]
    ensures HasSections(g.out) && Claims(f, n, i, g)
  {
    forall k: Section ensures g.out[k] == if Has(n, k) then f.out[k] + [None] else f.out[k] {
      if Has(n, k) { assert k.Objs? || k.ObjExts? || k.Names? || k.ObjDicts?; }
    }
    forall p ensures p in g.owner <==> p in f.owner || (Has(n, p.0) && p.1 == i) {
      if Has(n, p.0) { assert p.0.Objs? || p.0.ObjExts? || p.0.Names? || p.0.ObjDicts?; }
    }
  }

  lemma ClaimOwned(f: File, n: Node, i: nat, g: File)
    requires Sound(f) && n !in f.memo && (forall k: Section :: Has(n, k) ==> |f.out[k]| == i) && Claims(f, n, i, g)
    ensures Owned(g)
  {
    forall m, k: Section | m in g.memo && Has(m, k) ensures (k, g.memo[m]) in g.owner && g.owner[(k, g.memo[m])] == m {
      if m != n {
        assert (k, f.memo[m]) in f.owner && f.owner[(k, f.memo[m])] == m;
      }
    }
    forall p <- g.owner
      ensures p.1 < |g.out[p.0]| && g.owner[p] in g.memo && g.memo[g.owner[p]] == p.1 && Has(g.owner[p], p.0) {
      if !(Has(n, p.0) && p.1 == i) { assert p in f.owner; }
    }
    forall k: Section, j: nat | j < |g.out[k]| ensures (k, j) in g.owner {
      if j < |f.out[k]| { assert (k, j) in f.owner; }
    }
  }

  lemma ClaimKeeps(f: File, n: Node, i: nat, g: File)
    requires Sound(f) && n !in f.memo && (forall k: Section :: Has(n, k) ==> |f.out[k]| == i) && Claims(f, n, i, g)
    requires Proper(n)
    ensures Lockstep(g) && Keeps(f, g, {})
  {
    forall p <- f.owner ensures g.owner[p] == f.owner[p] && p.1 < |g.out[p.0]| && g.out[p.0][p.1] == f.out[p.0][p.1] {
      assert p.1 < |f.out[p.0]|;
    }
  }

  /** The state after one element of a node that is being filled is written. */
  function After(f: File, n: Node, k: Section, e: Elem): File
    requires n in f.memo && k in f.out && f.memo[n] < |f.out[k]|
  {
    File(f.memo, f.out[k := f.out[k][f.memo[n] := Some(e)]], f.owner)
  }

  lemma PutKeeps(f: File, n: Node, k: Section, e: Elem)
    requires Sound(f) && n in f.memo && Has(n, k) && f.memo[n] < |f.out[k]|
    ensures Sound(After(f, n, k, e)) && Keeps(f, After(f, n, k, e), {n})
  {
    var g := After(f, n, k, e);
    assert forall k': Section :: |g.out[k']| == |f.out[k']|;
    forall k': Section, j: nat | j < |g.out[k']| ensures (k', j) in g.owner {
      assert j < |f.out[k']|;
    }
  }

  // ----- Literals -----

  function Elems(list: seq<Node>): set<Node> { set n | n in list }

  predicate Distinct(list: seq<Node>) { forall i, j :: 0 <= i < j < |list| ==> list[i] != list[j] }

  /** The literals claimed so far are written in bodies that are started. */
  predicate Adopted(w: World, memo: Memo, started: set<Node>) {
    forall n <- memo :: n.Lit? ==> n.id in w.enclosing && w.enclosing[n.id] in started
  }

  /** Neither claimed before nor written in a body that was started before. */
  predicate Adopts(w: World, memo: Memo, started: set<Node>, memo': Memo) {
    forall n <- memo' :: n.Lit? && n !in memo ==> n.id in w.enclosing && w.enclosing[n.id] !in started
  }

  lemma NameLiteral(list: seq<Node>, n: Node)
    requires Distinct(list) && n !in list
    ensures Distinct(list + [n]) && Elems(list + [n]) == Elems(list) + {n}
  {
  }

  /** The literals of an element that are not named yet are not claimed yet. */
  ghost predicate Unclaimed(s: Spec, i: nat, memo: Memo) {
    forall j :: i <= j < |s.targets| && s.targets[j].Some? && s.targets[j].value.Lit? ==> s.targets[j].value !in memo
  }

  /** What one reference of the element of `n` claims. */
  ghost predicate Named(w: World, s: Spec, i: nat, memo: Memo, started: set<Node>, memo': Memo)
    requires i < |s.targets| && s.targets[i].Some?
  {
    forall m <- memo' :: m.Lit? && m !in memo ==>
      m == s.targets[i].value || (m.id in w.enclosing && w.enclosing[m.id] !in started)
  }

  lemma StillUnclaimed(w: World, n: Node, s: Spec, i: nat, memo: Memo, started: set<Node>, memo': Memo)
    requires Encloses(w, n, s) && n in started && i < |s.targets| && s.targets[i].Some?
    requires Unclaimed(s, i, memo) && Named(w, s, i, memo, started, memo')
    ensures Unclaimed(s, i + 1, memo')
  {
    forall j | i + 1 <= j < |s.targets| && s.targets[j].Some? && s.targets[j].value.Lit?
      ensures s.targets[j].value !in memo' {
      assert s.targets[j] in s.targets;
      assert !s.targets[i].value.Lit? || s.targets[i] != s.targets[j];
    }
  }

  lemma StillAdopts(w: World, n: Node, s: Spec, i: nat, memo0: Memo, started0: set<Node>, memo: Memo, started: set<Node>, memo': Memo)
    requires Encloses(w, n, s) && i < |s.targets| && s.targets[i].Some? && started0 <= started
    requires Adopts(w, memo0, started0 - {n}, memo) && Named(w, s, i, memo, started, memo')
    ensures Adopts(w, memo0, started0 - {n}, memo')
  {
    assert s.targets[i] in s.targets;
  }

  // ----- What is refused -----

  lemma Reaches(w: World, n: Node, s: Spec, t: Option<Node>)
    requires Writable(w, n) && Specs(w, n).Some? && s in Specs(w, n).value && t in s.targets
    ensures t.Some? && Writable(w, t.value)
  {
    var H :| n in H && Healthy(w, H);
    assert Fine(w, n, H);
  }

  ghost predicate AllWritable(w: World, n: Node, nested: seq<Node>) {
    Writable(w, n) ==> forall l <- nested :: Writable(w, l)
  }

  // ----- Progress -----

  /** The file, the nodes whose elements the writer has begun to fill, and those
      it has filled. */
  datatype Progress = Progress(file: File, started: set<Node>, done: set<Node>) {
    /** The literals that are claimed and wait for the body that names them. */
    ghost function Pending(): set<Node> { file.memo.Keys - started }

    /** The nodes that are being filled. */
    ghost function Open(): set<Node> { started - done }
  }

  ghost predicate Sane(w: World, universe: set<Node>, p: Progress) {
    && Sound(p.file) && Closed(w, universe)
    && p.done <= p.started <= p.file.memo.Keys <= universe
    && Adopted(w, p.file.memo, p.started)
    && (forall n <- p.done :: Filled(w, p.file, n))
  }

  /** From `p` to `q` the nodes of `filling` were filled and the literals of
      `claimed` were claimed, and whatever else was claimed is filled. */
  ghost predicate Moves(p: Progress, q: Progress, filling: set<Node>, claimed: set<Node>) {
    && HasSections(p.file.out) && HasSections(q.file.out) && Keeps(p.file, q.file, filling)
    && p.started <= q.started && q.Open() == p.Open()
    && claimed !! p.file.memo.Keys && q.Pending() == p.Pending() - filling + claimed
  }

  lemma MovesBoth(p: Progress, q: Progress, r: Progress, first: set<Node>, second: set<Node>)
    requires Sound(p.file) && Moves(p, q, {}, first) && Moves(q, r, {}, second)
    ensures Moves(p, r, {}, first + second)
  {
    KeepsBoth(p.file, q.file, r.file, {}, {});
  }

  function Literals(t: Node): set<Node> { if t.Lit? then {t} else {} }

  /** What the writer has after it resolved the first references of an element of `n`. */
  ghost predicate Referred(w: World, n: Node, s: Spec, p: Progress, q: Progress, relocs: seq<(Section, nat)>, nested: seq<Node>) {
    && |relocs| <= |s.targets| && AreRefs(q.file.memo, s.targets, relocs)
    && Moves(p, q, {}, Elems(nested)) && Distinct(nested) && (forall l <- nested :: Some(l) in s.targets)
    && Adopts(w, p.file.memo, p.started - {n}, q.file.memo) && Unclaimed(s, |relocs|, q.file.memo)
  }

  lemma ReferredFirst(w: World, n: Node, s: Spec, p: Progress)
    requires Sound(p.file) && Unclaimed(s, 0, p.file.memo)
    ensures Referred(w, n, s, p, p, [], [])
  {
  }

  lemma ReferredNext(w: World, n: Node, s: Spec, p: Progress, q: Progress, r: Progress,
      relocs: seq<(Section, nat)>, nested: seq<Node>, t: Node, ref: (Section, nat))
    requires Sound(p.file) && Encloses(w, n, s) && n in q.started
    requires Referred(w, n, s, p, q, relocs, nested) && |relocs| < |s.targets| && s.targets[|relocs|] == Some(t)
    requires Moves(q, r, {}, Literals(t)) && Named(w, s, |relocs|, q.file.memo, q.started, r.file.memo)
    requires IsRef(r.file.memo, Some(t), ref)
    ensures Referred(w, n, s, p, r, relocs + [ref], if t.Lit? then nested + [t] else nested)
  {
    MovesBoth(p, q, r, Elems(nested), Literals(t));
    StillUnclaimed(w, n, s, |relocs|, q.file.memo, q.started, r.file.memo);
    StillAdopts(w, n, s, |relocs|, p.file.memo, p.started, q.file.memo, q.started, r.file.memo);
    AddRef(q.file, r.file, s.targets, relocs, ref);
    if t.Lit? {
      assert Elems(nested) <= q.file.memo.Keys;
      NameLiteral(nested, t);
    } else {
      assert Elems(nested) + Literals(t) == Elems(nested);
    }
  }

  /** What the writer has while it fills `n` and the literals it names, when the
      literals of `waiting` are claimed and not filled. */
  ghost predicate Partly(w: World, n: Node, p: Progress, q: Progress, waiting: set<Node>) {
    && HasSections(p.file.out) && HasSections(q.file.out) && Keeps(p.file, q.file, {n})
    && p.started + {n} <= q.started && Adopts(w, p.file.memo, p.started, q.file.memo)
    && waiting !! p.file.memo.Keys && q.Pending() == p.Pending() - {n} + waiting
  }

  lemma PartlyReferred(w: World, n: Node, s: Spec, p: Progress, q: Progress, r: Progress, waiting: set<Node>,
      relocs: seq<(Section, nat)>, nested: seq<Node>)
    requires Sound(p.file) && n !in p.started && Partly(w, n, p, q, waiting) && Referred(w, n, s, q, r, relocs, nested)
    ensures Partly(w, n, p, r, waiting + Elems(nested))
  {
    KeepsBoth(p.file, q.file, r.file, {n}, {});
  }

  lemma PartlyPut(w: World, n: Node, p: Progress, q: Progress, r: Progress, waiting: set<Node>)
    requires Sound(p.file) && Partly(w, n, p, q, waiting) && HasSections(r.file.out) && Keeps(q.file, r.file, {n})
    requires q.file.memo == r.file.memo && q.started == r.started
    ensures Partly(w, n, p, r, waiting)
  {
    KeepsBoth(p.file, q.file, r.file, {n}, {n});
  }

  lemma PartlyFilled(w: World, n: Node, p: Progress, q: Progress, r: Progress, waiting: set<Node>, l: Node)
    requires Sound(p.file) && Partly(w, n, p, q, waiting) && l in waiting && Moves(q, r, {l}, {})
    requires Adopts(w, q.file.memo, q.started, r.file.memo)
    ensures Partly(w, n, p, r, waiting - {l})
  {
    KeepsBoth(p.file, q.file, r.file, {n}, {l});
  }

  lemma NameLiterals(list: seq<Node>, more: seq<Node>)
    requires Distinct(list) && Distinct(more) && Elems(list) !! Elems(more)
    ensures Distinct(list + more) && Elems(list + more) == Elems(list) + Elems(more)
  {
    forall i, j | 0 <= i < |list| <= j < |list + more| ensures (list + more)[i] != (list + more)[j] {
      assert list[i] in Elems(list) && more[j - |list|] in Elems(more);
    }
  }

  lemma FirstUnclaimed(w: World, n: Node, s: Spec, memo: Memo, started: set<Node>)
    requires Encloses(w, n, s) && Adopted(w, memo, started) && n !in started
    ensures Unclaimed(s, 0, memo)
  {
    forall j | 0 <= j < |s.targets| && s.targets[j].Some? && s.targets[j].value.Lit? ensures s.targets[j].value !in memo {
      assert s.targets[j] in s.targets;
    }
  }

  /** A node with more than one element names no literal. */
  lemma NextUnclaimed(w: World, n: Node, j: nat, memo0: Memo, started0: set<Node>, memo: Memo)
    requires Specs(w, n).Some? && j < |Specs(w, n).value| && Encloses(w, n, Specs(w, n).value[j])
    requires Adopted(w, memo0, started0) && n !in started0 && (j == 0 ==> memo == memo0)
    ensures Unclaimed(Specs(w, n).value[j], 0, memo)
  {
    if j == 0 {
      FirstUnclaimed(w, n, Specs(w, n).value[j], memo0, started0);
    } else {
      assert n.Decl?;
      forall t <- Specs(w, n).value[j].targets ensures !(t.Some? && t.value.Lit?) { }
    }
  }

  lemma RestElems(list: seq<Node>, i: nat)
    requires i < |list| && Distinct(list)
    ensures Elems(list[i..]) == {list[i]} + Elems(list[i + 1..]) && list[i] !in Elems(list[i + 1..])
  {
    assert list[i..] == [list[i]] + list[i + 1..];
  }

  /** The first elements of a node are written. */
  ghost predicate Written(w: World, n: Node, f: File, j: nat)
    requires HasSections(f.out) && n in f.memo && Specs(w, n).Some? && j <= |Specs(w, n).value|
  {
    forall i :: 0 <= i < j ==> Holds(f, n, Specs(w, n).value[i])
  }

  lemma WrittenNext(w: World, n: Node, f: File, g: File, j: nat, e: Elem)
    requires Sound(f) && Sound(g) && n in f.memo && Specs(w, n).Some? && j < |Specs(w, n).value|
    requires Written(w, n, f, j) && Keeps(f, g, {})
    requires var s := Specs(w, n).value[j];
             Has(n, s.section) && g.memo[n] < |g.out[s.section]| && IsElem(g.memo, s, Some(e))
    ensures Written(w, n, After(g, n, Specs(w, n).value[j].section, e), j + 1)
  {
    SpecSections(w, n);
    forall i | 0 <= i < j ensures Holds(After(g, n, Specs(w, n).value[j].section, e), n, Specs(w, n).value[i]) {
      HoldsLater(f, g, {}, n, Specs(w, n).value[i]);
    }
  }

  /** What the writer has after it filled the first elements of `n`. */
  ghost predicate Filling(w: World, n: Node, j: nat, p: Progress, q: Progress, nested: seq<Node>) {
    && Sound(p.file) && n !in p.started && n in q.file.memo && Specs(w, n).Some? && j <= |Specs(w, n).value|
    && Partly(w, n, p, q, Elems(nested)) && Distinct(nested) && AllWritable(w, n, nested) && Written(w, n, q.file, j)
    && q.Open() == p.Open() + {n} && (j == 0 ==> q.file.memo == p.file.memo)
  }

  /** One element of `n`: first its references, from `q` to `r`, then its bytes. */
  lemma FillingNext(w: World, n: Node, j: nat, p: Progress, q: Progress, r: Progress, nested: seq<Node>,
      relocs: seq<(Section, nat)>, lits: seq<Node>)
    requires Filling(w, n, j, p, q, nested) && Sound(q.file) && Sound(r.file) && j < |Specs(w, n).value|
    requires var s := Specs(w, n).value[j];
             Has(n, s.section) && Referred(w, n, s, q, r, relocs, lits) && |relocs| == |s.targets|
             && r.file.memo[n] < |r.file.out[s.section]|
    ensures var s := Specs(w, n).value[j];
            var f := After(r.file, n, s.section, Elem(s.data, relocs));
            Filling(w, n, j + 1, p, Progress(f, r.started, r.done), nested + lits)
  {
    var s, e := Specs(w, n).value[j], Elem(Specs(w, n).value[j].data, relocs);
    PartlyReferred(w, n, s, p, q, r, Elems(nested), relocs, lits);
    PutKeeps(r.file, n, s.section, e);
    NameLiterals(nested, lits);
    PartlyPut(w, n, p, r, Progress(After(r.file, n, s.section, e), r.started, r.done), Elems(nested + lits));
    WrittenNext(w, n, q.file, r.file, j, e);
    forall l | Writable(w, n) && l in lits ensures Writable(w, l) { Reaches(w, n, s, Some(l)); }
  }

  lemma FillingFirst(w: World, n: Node, p: Progress)
    requires Sound(p.file) && n in p.file.memo && n !in p.started && p.done <= p.started && Specs(w, n).Some?
    ensures Filling(w, n, 0, p, Progress(p.file, p.started + {n}, p.done), [])
  {
  }

  /** What the writer has after it filled `n` and the first literals that `n` named. */
  ghost predicate Draining(w: World, n: Node, i: nat, p: Progress, q: Progress, nested: seq<Node>) {
    && Sound(p.file) && i <= |nested| && Distinct(nested) && AllWritable(w, n, nested)
    && n in q.done && q.Open() == p.Open() && Partly(w, n, p, q, Elems(nested[i..]))
  }

  lemma DrainingFirst(w: World, universe: set<Node>, n: Node, p: Progress, q: Progress, nested: seq<Node>)
    requires Sane(w, universe, q) && Specs(w, n).Some? && Filling(w, n, |Specs(w, n).value|, p, q, nested) && n !in p.Open()
    ensures Sane(w, universe, Progress(q.file, q.started, q.done + {n}))
    ensures Draining(w, n, 0, p, Progress(q.file, q.started, q.done + {n}), nested)
  {
    forall s <- Specs(w, n).value ensures Holds(q.file, n, s) {
      var i :| 0 <= i < |Specs(w, n).value| && s == Specs(w, n).value[i];
    }
    assert nested[0..] == nested;
  }

  lemma DrainingNext(w: World, n: Node, i: nat, p: Progress, q: Progress, r: Progress, nested: seq<Node>)
    requires Draining(w, n, i, p, q, nested) && i < |nested| && q.done <= q.started
    requires Moves(q, r, {nested[i]}, {}) && Adopts(w, q.file.memo, q.started, r.file.memo)
    ensures Draining(w, n, i + 1, p, r, nested)
  {
    RestElems(nested, i);
    PartlyFilled(w, n, p, q, r, Elems(nested[i..]), nested[i]);
  }

  lemma DrainingWaits(w: World, n: Node, i: nat, p: Progress, q: Progress, nested: seq<Node>)
    requires Draining(w, n, i, p, q, nested) && i < |nested|
    ensures nested[i] in q.file.memo && nested[i] !in q.started
  {
    RestElems(nested, i);
    assert nested[i] in q.Pending();
  }

  lemma SpecSection(w: World, n: Node, j: nat)
    requires Specs(w, n).Some? && j < |Specs(w, n).value|
    ensures Has(n, Specs(w, n).value[j].section)
  {
    SpecSections(w, n);
  }

  class PkgWriter {
    const w: World
    ghost const universe: set<Node>
    var memo: Memo
    var out: Output
    ghost var owner: map<(Section, nat), Node>

    // The nodes whose elements the writer has begun to fill, and those it has filled.
    ghost var started: set<Node>
    ghost var done: set<Node>

    ghost function Now(): Progress reads this { Progress(File(memo, out, owner), started, done) }


    ghost predicate Valid() reads this { Sane(w, universe, Now()) }

    constructor (w: World, ghost universe: set<Node>)
      requires Closed(w, universe)
      ensures Valid() && this.w == w && this.universe == universe && memo == map[] && done == {} && started == {}
    {
      this.w, this.universe := w, universe;
      memo, owner, started, done := map[], map[], {}, {};
      out := map[Strings := [], Meta := [], PosBases := [], Pkgs := [], Names := [], Types := [], Objs := [],
                 ObjExts := [], ObjDicts := [], Bodies := []];
      new;
      forall k: Section ensures k in out && out[k] == [] {
        match k case Strings => case Meta => case PosBases => case Pkgs => case Names => case Types => case Objs =>
                case ObjExts => case ObjDicts => case Bodies =>
      }
    }

    /** A new element of one section. */
    method NewElement(k: Section, ghost n: Node) returns (i: nat)
      requires HasSections(out)
      modifies `out, `owner
      ensures HasSections(out) && i == |old(out)[k]|
      ensures out == old(out)[k := old(out)[k] + [None]] && owner == old(owner)[(k, i) := n]
    {
      i := |out[k]|;
      out := out[k := out[k] + [None]];
      owner := owner[(k, i) := n];
    }

    /** The elements of a node are claimed before any is written. A declaration
        has four, and they get one index. */
    method Elements(n: Node) returns (i: nat)
      requires HasSections(out) && Lockstep(Now().file) && n !in memo
      modifies `memo, `out, `owner
      ensures HasSections(out) && Claims(old(Now()).file, n, i, Now().file)
      ensures forall k: Section :: Has(n, k) ==> |old(out)[k]| == i
    {
      i := NewElement(Home(n), n);
      if n.Decl? {
        var ext := NewElement(ObjExts, n);
        var name := NewElement(Names, n);
        var dict := NewElement(ObjDicts, n);
        assert ext == name == dict == i;
        ClaimsFour(old(Now()).file, n, i, File(memo[n := i], out, owner));
      }
      memo := memo[n := i];
    }

    method Claim(n: Node) returns (i: nat)
      requires Valid() && n in universe && n !in memo
      requires n.Lit? ==> n.id in w.enclosing && w.enclosing[n.id] in started
      modifies `memo, `out, `owner
      ensures Valid() && memo == old(memo)[n := i] && Keeps(old(Now()).file, Now().file, {})
    {
      i := Elements(n);
      ClaimOwned(old(Now()).file, n, i, Now().file);
      ClaimKeeps(old(Now()).file, n, i, Now().file);
      forall m <- done ensures Filled(w, Now().file, m) { FilledLater(w, old(Now()).file, Now().file, {}, m); }
    }

    /** Writes one element of a node that is being filled. */
    method Put(n: Node, k: Section, e: Elem)
      requires Valid() && n in Now().Open() && Has(n, k)
      modifies `out
      ensures Valid() && k in old(out) && memo[n] < |old(out)[k]| && Now().file == After(old(Now()).file, n, k, e)
    {
      assert (k, memo[n]) in owner;
      PutKeeps(Now().file, n, k, e);
      out := out[k := out[k][memo[n] := Some(e)]];
      forall m <- done ensures Filled(w, Now().file, m) { FilledLater(w, old(Now()).file, Now().file, {n}, m); }
    }

    /** The index of a node, whose elements are claimed and filled if it is new. */
    method Index(n: Node, ghost rest: set<Node>) returns (r: Option<nat>)
      requires Valid() && universe <= started + rest && n in universe && !n.Lit?
      modifies `memo, `out, `owner, `started, `done
      ensures r.None? ==> !Writable(w, n)
      ensures r.Some? ==> Valid() && n in memo && r.value == memo[n]
      ensures r.Some? ==> Moves(old(Now()), Now(), {}, {}) && Adopts(w, old(memo), old(started), memo)
      decreases rest, 2
    {
      if n in memo { return Some(memo[n]); }
      var i := Claim(n);
      label claimed:
      var ok := Fill(n, rest);
      if !ok { return None; }
      KeepsBoth(old(Now()).file, old@claimed(Now()).file, Now().file, {}, {n});
      return Some(i);
    }

    /** One reference of an element. A literal is claimed where it is named and
        left for later. */
    method Reference(n: Node, s: Spec, i: nat, ghost rest: set<Node>) returns (r: Option<nat>)
      requires Valid() && universe <= started + rest && n in Now().Open() && Specs(w, n).Some? && s in Specs(w, n).value && i < |s.targets|
      requires Unclaimed(s, i, memo)
      modifies `memo, `out, `owner, `started, `done
      ensures r.None? ==> !Writable(w, n)
      ensures r.Some? ==> Valid() && s.targets[i].Some? && IsRef(memo, s.targets[i], (Home(s.targets[i].value), r.value))
      ensures r.Some? ==> Moves(old(Now()), Now(), {}, Literals(s.targets[i].value))
      ensures r.Some? ==> Named(w, s, i, old(memo), old(started), memo)
      decreases rest, 3
    {
      var t := s.targets[i];
      assert Within(w, n, universe);
      if t.None? {
        if Writable(w, n) { Reaches(w, n, s, t); }
        return None;
      }
      if t.value.Lit? {
        var idx := Claim(t.value);
        r := Some(idx);
      } else {
        r := Index(t.value, rest);
        if r.None? && Writable(w, n) { Reaches(w, n, s, t); }
      }
    }

    /** The references of one element, in the order of its table. */
    method References(n: Node, s: Spec, ghost rest: set<Node>) returns (ok: bool, relocs: seq<(Section, nat)>, nested: seq<Node>)
      requires Valid() && universe <= started + rest && n in Now().Open() && Specs(w, n).Some? && s in Specs(w, n).value && Unclaimed(s, 0, memo)
      modifies `memo, `out, `owner, `started, `done
      ensures !ok ==> !Writable(w, n)
      ensures ok ==> Valid() && |relocs| == |s.targets| && Referred(w, n, s, old(Now()), Now(), relocs, nested)
      decreases rest, 4
    {
      relocs, nested := [], [];
      assert Within(w, n, universe);
      ghost var p := Now();
      ReferredFirst(w, n, s, p);
      for i := 0 to |s.targets|
        invariant Valid() && universe <= started + rest && |relocs| == i && Referred(w, n, s, p, Now(), relocs, nested)
      {
        ghost var q := Now();
        var r := Reference(n, s, i, rest);
        if r.None? { return false, [], []; }
        var t := s.targets[i].value;
        ReferredNext(w, n, s, p, q, Now(), relocs, nested, t, (Home(t), r.value));
        relocs, nested := relocs + [(Home(t), r.value)], if t.Lit? then nested + [t] else nested;
      }
      ok := true;
    }

    /** Fills one element of a node. */
    method Element(n: Node, s: Spec, ghost j: nat, ghost p: Progress, ghost nested: seq<Node>, ghost rest: set<Node>)
      returns (ok: bool, lits: seq<Node>)
      requires Valid() && universe <= started + rest && n in Now().Open() && Specs(w, n).Some? && j < |Specs(w, n).value| && s == Specs(w, n).value[j]
      requires Unclaimed(s, 0, memo) && Filling(w, n, j, p, Now(), nested)
      modifies `memo, `out, `owner, `started, `done
      ensures !ok ==> !Writable(w, n)
      ensures ok ==> Valid() && Filling(w, n, j + 1, p, Now(), nested + lits)
      decreases rest, 5
    {
      var relocs;
      ok, relocs, lits := References(n, s, rest);
      if !ok { return; }
      SpecSection(w, n, j);
      label referred:
      Put(n, s.section, Elem(s.data, relocs));
      FillingNext(w, n, j, p, old(Now()), old@referred(Now()), nested, relocs, lits);
    }

    /** Fills the elements of a claimed node. */
    method FillElements(n: Node, ghost rest: set<Node>) returns (ok: bool, nested: seq<Node>)
      requires Valid() && universe <= started + rest && n in memo && n !in started
      modifies `memo, `out, `owner, `started, `done
      ensures !ok ==> !Writable(w, n)
      ensures ok ==> Valid() && Draining(w, n, 0, old(Now()), Now(), nested)
      decreases rest, 0
    {
      var specs := Specs(w, n);
      if specs.None? { return false, []; }
      ghost var p := Now();
      started := started + {n};
      FillingFirst(w, n, p);
      nested := [];
      for j := 0 to |specs.value|
        invariant Valid() && universe <= started + (rest - {n}) && Filling(w, n, j, p, Now(), nested)
      {
        assert Within(w, n, universe);
        NextUnclaimed(w, n, j, p.file.memo, p.started, memo);
        var lits;
        ok, lits := Element(n, specs.value[j], j, p, nested, rest - {n});
        if !ok { return; }
        nested := nested + lits;
      }
      DrainingFirst(w, universe, n, p, Now(), nested);
      done := done + {n};
      ok := true;
    }

    /** Fills the literals that a body named, in the order it named them. */
    method FillNested(n: Node, nested: seq<Node>, ghost p: Progress, ghost rest: set<Node>) returns (ok: bool)
      requires Valid() && universe <= started + rest && Draining(w, n, 0, p, Now(), nested)
      modifies `memo, `out, `owner, `started, `done
      ensures !ok ==> !Writable(w, n)
      ensures ok ==> Valid() && Draining(w, n, |nested|, p, Now(), nested)
      decreases rest, 2
    {
      for i := 0 to |nested|
        invariant Valid() && universe <= started + rest && Draining(w, n, i, p, Now(), nested)
      {
        DrainingWaits(w, n, i, p, Now(), nested);
        label before:
        ok := Fill(nested[i], rest);
        if !ok { return; }
        DrainingNext(w, n, i, p, old@before(Now()), Now(), nested);
      }
      ok := true;
    }

    /** Fills the elements of a claimed node, and then those of every literal
        they name. */
    method Fill(n: Node, ghost rest: set<Node>) returns (ok: bool)
      requires Valid() && universe <= started + rest && n in memo && n !in started
      modifies `memo, `out, `owner, `started, `done
      ensures !ok ==> !Writable(w, n)
      ensures ok ==> Valid() && n in done && Moves(old(Now()), Now(), {n}, {}) && Adopts(w, old(memo), old(started), memo)
      decreases rest, 1
    {
      var nested;
      ok, nested := FillElements(n, rest);
      if !ok { return; }
      ok := FillNested(n, nested, old(Now()), rest - {n});
    }
  }
}

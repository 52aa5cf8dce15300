/** Local variables by number: how a body names its own and those it captures
    (export/bodybuild.go, export/bodywrite.go). */
module Captures {
  import opened Wrappers

  type Var = nat

  /** LocalExpr: a position among the declarations of the body, or in the capture
      list of the literal. */
  datatype Local = Local(captured: bool, index: nat)

  /** A body over names `N`: variables in the source, numbers in what is built.
      The source has no capture lists. Dropped is what the builder proves dead. */
  datatype Expr<N> = Name(name: N) | Lit(params: seq<Var>, captures: seq<N>, body: seq<Stmt<N>>) | Op(id: nat, args: seq<Expr<N>>)

  datatype Dest<N> = Blank | New(v: Var) | To(e: Expr<N>)

  datatype Stmt<N> =
    | Assign(lhs: seq<Dest<N>>, rhs: seq<Expr<N>>)
    | Block(list: seq<Stmt<N>>)
    | If(init: seq<Stmt<N>>, cond: Expr<N>, thn: seq<Stmt<N>>, els: seq<Stmt<N>>)
    | For(init: seq<Stmt<N>>, test: seq<Expr<N>>, post: seq<Stmt<N>>, list: seq<Stmt<N>>)
    | Range(lhs: seq<Dest<N>>, x: Expr<N>, list: seq<Stmt<N>>)
    | Switch(init: seq<Stmt<N>>, tag: seq<Expr<N>>, clauses: seq<Clause<N>>)
    | Dropped(list: seq<Stmt<N>>)

  /** `comm` is the statement of a select's clause, and `vars` the variable of a
      type switch's. */
  datatype Clause<N> = Clause(comm: seq<Stmt<N>>, exprs: seq<Expr<N>>, vars: seq<Var>, body: seq<Stmt<N>>)

  // ----- The declaration records, in the order they are written -----

  function DestRecords<N>(lhs: seq<Dest<N>>): seq<Var> {
    if lhs == [] then [] else DestRecord(lhs[0]) + DestRecords(lhs[1..])
  }

  function DestRecord<N>(d: Dest<N>): seq<Var> { if d.New? then [d.v] else [] }

  function StmtRecords<N>(s: Stmt<N>): seq<Var>
    decreases s, 0
  {
    match s
    case Assign(lhs, _) => DestRecords(lhs)
    case Block(list) => Records(list)
    case If(init, _, thn, els) => Records(init) + Records(thn) + Records(els)
    case For(init, _, post, list) => Records(init) + Records(post) + Records(list)
    case Range(lhs, _, list) => DestRecords(lhs) + Records(list)
    case Switch(init, _, clauses) => Records(init) + ClauseRecords(clauses)
    case Dropped(_) => []
  }

  function Records<N>(list: seq<Stmt<N>>): seq<Var>
    decreases list, 1
  {
    if list == [] then [] else StmtRecords(list[0]) + Records(list[1..])
  }

  function ClauseRecords<N>(clauses: seq<Clause<N>>): seq<Var>
    decreases clauses, 2
  {
    if clauses == [] then [] else ClauseRecord(clauses[0]) + ClauseRecords(clauses[1..])
  }

  function ClauseRecord<N>(c: Clause<N>): seq<Var>
    decreases c, 1
  {
    Records(c.comm) + c.vars + Records(c.body)
  }

  // ----- Reading the numbers back -----

  /** The variables a body's numbers stand for: those of its records and those of
      its capture list. */
  datatype Scope = Scope(own: seq<Var>, free: seq<Option<Var>>)

  function ReadLocal(l: Local, sc: Scope): Option<Var> {
    if l.captured then (if l.index < |sc.free| then sc.free[l.index] else None)
    else if l.index < |sc.own| then Some(sc.own[l.index]) else None
  }

  function ReadCaptures(captures: seq<Local>, sc: Scope): (r: seq<Option<Var>>)
    ensures |r| == |captures| && forall i :: 0 <= i < |r| ==> r[i] == ReadLocal(captures[i], sc)
  {
    seq(|captures|, i requires 0 <= i < |captures| => ReadLocal(captures[i], sc))
  }

  function ReadExpr(e: Expr<Local>, sc: Scope): Expr<Option<Var>>
    decreases e, 0
  {
    match e
    case Name(l) => Name(ReadLocal(l, sc))
    case Op(id, args) => Op(id, ReadExprs(args, sc))
    case Lit(params, captures, body) =>
      var inner := Scope(params + Records(body), ReadCaptures(captures, sc));
      Lit(params, [], ReadStmts(body, inner))
  }

  function ReadExprs(list: seq<Expr<Local>>, sc: Scope): seq<Expr<Option<Var>>>
    decreases list, 1
  {
    if list == [] then [] else [ReadExpr(list[0], sc)] + ReadExprs(list[1..], sc)
  }

  function ReadDests(list: seq<Dest<Local>>, sc: Scope): seq<Dest<Option<Var>>>
    decreases list, 1
  {
    if list == [] then []
    else [ReadDest(list[0], sc)] + ReadDests(list[1..], sc)
  }

  function ReadDest(d: Dest<Local>, sc: Scope): Dest<Option<Var>>
    decreases d, 1
  {
    match d
    case Blank => Blank
    case New(v) => New(v)
    case To(e) => To(ReadExpr(e, sc))
  }

  function ReadStmt(s: Stmt<Local>, sc: Scope): Stmt<Option<Var>>
    decreases s, 0
  {
    match s
    case Assign(lhs, rhs) => Assign(ReadDests(lhs, sc), ReadExprs(rhs, sc))
    case Block(list) => Block(ReadStmts(list, sc))
    case If(init, cond, thn, els) => If(ReadStmts(init, sc), ReadExpr(cond, sc), ReadStmts(thn, sc), ReadStmts(els, sc))
    case For(init, test, post, list) => For(ReadStmts(init, sc), ReadExprs(test, sc), ReadStmts(post, sc), ReadStmts(list, sc))
    case Range(lhs, x, list) => Range(ReadDests(lhs, sc), ReadExpr(x, sc), ReadStmts(list, sc))
    case Switch(init, tag, clauses) => Switch(ReadStmts(init, sc), ReadExprs(tag, sc), ReadClauses(clauses, sc))
    case Dropped(list) => Dropped([])
  }

  function ReadStmts(list: seq<Stmt<Local>>, sc: Scope): seq<Stmt<Option<Var>>>
    decreases list, 1
  {
    if list == [] then [] else [ReadStmt(list[0], sc)] + ReadStmts(list[1..], sc)
  }

  function ReadClauses(list: seq<Clause<Local>>, sc: Scope): seq<Clause<Option<Var>>>
    decreases list, 2
  {
    if list == [] then []
    else [ReadClause(list[0], sc)] + ReadClauses(list[1..], sc)
  }

  function ReadClause(c: Clause<Local>, sc: Scope): Clause<Option<Var>>
    decreases c, 1
  {
    Clause(ReadStmts(c.comm, sc), ReadExprs(c.exprs, sc), c.vars, ReadStmts(c.body, sc))
  }

  // ----- The source without what is dropped -----

  function KeptExpr(e: Expr<Var>): Expr<Option<Var>>
    decreases e, 0
  {
    match e
    case Name(v) => Name(Some(v))
    case Op(id, args) => Op(id, KeptExprs(args))
    case Lit(params, _, body) => Lit(params, [], KeptStmts(body))
  }

  function KeptExprs(list: seq<Expr<Var>>): seq<Expr<Option<Var>>>
    decreases list, 1
  {
    if list == [] then [] else [KeptExpr(list[0])] + KeptExprs(list[1..])
  }

  function KeptDests(list: seq<Dest<Var>>): seq<Dest<Option<Var>>>
    decreases list, 1
  {
    if list == [] then []
    else [KeptDest(list[0])] + KeptDests(list[1..])
  }

  function KeptDest(d: Dest<Var>): Dest<Option<Var>>
    decreases d, 1
  {
    match d
    case Blank => Blank
    case New(v) => New(v)
    case To(e) => To(KeptExpr(e))
  }

  function KeptStmt(s: Stmt<Var>): Stmt<Option<Var>>
    decreases s, 0
  {
    match s
    case Assign(lhs, rhs) => Assign(KeptDests(lhs), KeptExprs(rhs))
    case Block(list) => Block(KeptStmts(list))
    case If(init, cond, thn, els) => If(KeptStmts(init), KeptExpr(cond), KeptStmts(thn), KeptStmts(els))
    case For(init, test, post, list) => For(KeptStmts(init), KeptExprs(test), KeptStmts(post), KeptStmts(list))
    case Range(lhs, x, list) => Range(KeptDests(lhs), KeptExpr(x), KeptStmts(list))
    case Switch(init, tag, clauses) => Switch(KeptStmts(init), KeptExprs(tag), KeptClauses(clauses))
    case Dropped(_) => Dropped([])
  }

  function KeptStmts(list: seq<Stmt<Var>>): seq<Stmt<Option<Var>>>
    decreases list, 1
  {
    if list == [] then []
    else if list[0].Dropped? then KeptStmts(list[1..])
    else [KeptStmt(list[0])] + KeptStmts(list[1..])
  }

  function KeptClauses(list: seq<Clause<Var>>): seq<Clause<Option<Var>>>
    decreases list, 2
  {
    if list == [] then []
    else [KeptClause(list[0])] + KeptClauses(list[1..])
  }

  function KeptClause(c: Clause<Var>): Clause<Option<Var>>
    decreases c, 1
  {
    Clause(KeptStmts(c.comm), KeptExprs(c.exprs), c.vars, KeptStmts(c.body))
  }

  // ----- The free variables, in the order of their uses -----

  /** The first occurrence of each. */
  function Firsts(uses: seq<Var>): (r: seq<Var>)
    ensures forall v :: v in r <==> v in uses
    ensures forall i, j :: 0 <= i < j < |r| ==> r[i] != r[j]
  {
    if uses == [] then []
    else
      var front, last := Firsts(uses[..|uses| - 1]), uses[|uses| - 1];
      assert uses == uses[..|uses| - 1] + [last];
      if last in front then front else front + [last]
  }

  function Without(uses: seq<Var>, declared: seq<Var>): seq<Var> {
    if uses == [] then []
    else (if uses[0] in declared then [] else [uses[0]]) + Without(uses[1..], declared)
  }

  /** The uses of variables that are not declared yet. A literal uses its own free
      variables where it stands. */
  function ExprUses(e: Expr<Var>, declared: seq<Var>): seq<Var>
    decreases e, 0
  {
    match e
    case Name(v) => if v in declared then [] else [v]
    case Op(_, args) => ExprsUses(args, declared)
    case Lit(params, _, body) => Without(Firsts(Uses(body, params)), declared)
  }

  function ExprsUses(list: seq<Expr<Var>>, declared: seq<Var>): seq<Var>
    decreases list, 1
  {
    if list == [] then [] else ExprUses(list[0], declared) + ExprsUses(list[1..], declared)
  }

  function DestUses(list: seq<Dest<Var>>, declared: seq<Var>): seq<Var>
    decreases list, 1
  {
    if list == [] then []
    else OneDestUses(list[0], declared) + DestUses(list[1..], declared + DestRecord(list[0]))
  }

  function OneDestUses(d: Dest<Var>, declared: seq<Var>): seq<Var>
    decreases d, 1
  {
    if d.To? then ExprUses(d.e, declared) else []
  }

  function StmtUses(s: Stmt<Var>, declared: seq<Var>): seq<Var>
    decreases s, 0
  {
    match s
    case Assign(lhs, rhs) => DestUses(lhs, declared) + ExprsUses(rhs, declared + DestRecords(lhs))
    case Block(list) => Uses(list, declared)
    case If(init, cond, thn, els) =>
      var d1 := declared + Records(init);
      var d2 := d1 + Records(thn);
      Uses(init, declared) + ExprUses(cond, d1) + Uses(thn, d1) + Uses(els, d2)
    case For(init, test, post, list) =>
      var d1 := declared + Records(init);
      var d2 := d1 + Records(post);
      Uses(init, declared) + ExprsUses(test, d1) + Uses(post, d1) + Uses(list, d2)
    case Range(lhs, x, list) =>
      var d1 := declared + DestRecords(lhs);
      DestUses(lhs, declared) + ExprUses(x, d1) + Uses(list, d1)
    case Switch(init, tag, clauses) =>
      var d1 := declared + Records(init);
      Uses(init, declared) + ExprsUses(tag, d1) + ClauseUses(clauses, d1)
    case Dropped(_) => []
  }

  function Uses(list: seq<Stmt<Var>>, declared: seq<Var>): seq<Var>
    decreases list, 1
  {
    if list == [] then [] else StmtUses(list[0], declared) + Uses(list[1..], declared + StmtRecords(list[0]))
  }

  function ClauseUses(clauses: seq<Clause<Var>>, declared: seq<Var>): seq<Var>
    decreases clauses, 2
  {
    if clauses == [] then []
    else OneClauseUses(clauses[0], declared) + ClauseUses(clauses[1..], declared + ClauseRecord(clauses[0]))
  }

  function OneClauseUses(c: Clause<Var>, declared: seq<Var>): seq<Var>
    decreases c, 1
  {
    var d1 := declared + Records(c.comm);
    Uses(c.comm, declared) + ExprsUses(c.exprs, d1) + Uses(c.body, d1 + c.vars)
  }

  // ----- What the checker guarantees -----

  predicate Distinct(list: seq<Var>) { forall i, j :: 0 <= i < j < |list| ==> list[i] != list[j] }

  /** A literal of the expression declares each of its variables once. */
  predicate ExprOnce(e: Expr<Var>)
    decreases e, 0
  {
    match e
    case Name(_) => true
    case Op(_, args) => ExprsOnce(args)
    case Lit(params, _, body) => Distinct(params + Records(body)) && Once(body)
  }

  predicate ExprsOnce(list: seq<Expr<Var>>)
    decreases list, 1
  {
    forall i :: 0 <= i < |list| ==> ExprOnce(list[i])
  }

  predicate DestOnce(d: Dest<Var>)
    decreases d, 1
  {
    d.To? ==> ExprOnce(d.e)
  }

  predicate DestsOnce(list: seq<Dest<Var>>)
    decreases list, 2
  {
    forall i :: 0 <= i < |list| ==> DestOnce(list[i])
  }

  predicate StmtOnce(s: Stmt<Var>)
    decreases s, 0
  {
    match s
    case Assign(lhs, rhs) => DestsOnce(lhs) && ExprsOnce(rhs)
    case Block(list) => Once(list)
    case If(init, cond, thn, els) => Once(init) && ExprOnce(cond) && Once(thn) && Once(els)
    case For(init, test, post, list) => Once(init) && ExprsOnce(test) && Once(post) && Once(list)
    case Range(lhs, x, list) => DestsOnce(lhs) && ExprOnce(x) && Once(list)
    case Switch(init, tag, clauses) => Once(init) && ExprsOnce(tag) && ClausesOnce(clauses)
    case Dropped(_) => true
  }

  predicate Once(list: seq<Stmt<Var>>)
    decreases list, 1
  {
    forall i :: 0 <= i < |list| ==> StmtOnce(list[i])
  }

  predicate ClauseOnce(c: Clause<Var>)
    decreases c, 1
  {
    Once(c.comm) && ExprsOnce(c.exprs) && Once(c.body)
  }

  predicate ClausesOnce(list: seq<Clause<Var>>)
    decreases list, 2
  {
    forall i :: 0 <= i < |list| ==> ClauseOnce(list[i])
  }

  // ----- Building -----

  lemma {:induction false} FirstsGrow(uses: seq<Var>, more: seq<Var>)
    ensures Firsts(uses) <= Firsts(uses + more)
  {
    if more == [] {
      assert uses + more == uses;
    } else {
      var front := more[..|more| - 1];
      assert (uses + more)[..|uses + more| - 1] == uses + front;
      FirstsGrow(uses, front);
    }
  }

  /** A scope in which the numbers given so far stand for what they were given to. */
  ghost predicate Covers(sc: Scope, own: seq<Var>, free: seq<Var>) {
    && own <= sc.own && |free| <= |sc.free|
    && forall i :: 0 <= i < |free| ==> sc.free[i] == Some(free[i])
  }

  function Somes(vars: seq<Var>): seq<Option<Var>> { seq(|vars|, i requires 0 <= i < |vars| => Some(vars[i])) }

  lemma CoversItself(own: seq<Var>, free: seq<Var>)
    ensures Covers(Scope(own, Somes(free)), own, free)
  {
  }

  lemma DistinctFront(list: seq<Var>, more: seq<Var>)
    requires Distinct(list + more)
    ensures Distinct(list)
  {
    forall i, j | 0 <= i < j < |list| ensures list[i] != list[j] {
      assert (list + more)[i] != (list + more)[j];
    }
  }

  lemma DistinctParts(list: seq<Var>, first: seq<Var>, second: seq<Var>)
    requires Distinct(list + (first + second))
    ensures Distinct(list + first) && Distinct(list + first + second)
  {
    assert list + (first + second) == list + first + second;
    DistinctFront(list + first, second);
  }

  lemma DistinctLast(list: seq<Var>, v: Var)
    requires Distinct(list + [v])
    ensures v !in list
  {
    forall i | 0 <= i < |list| ensures list[i] != v {
      assert (list + [v])[i] != (list + [v])[|list|];
    }
  }

  lemma Reassociate(a: seq<Var>, b: seq<Var>, c: seq<Var>)
    ensures a + b + c == a + (b + c)
  {
  }

  lemma ReassociateFour(x: seq<Var>, a: seq<Var>, b: seq<Var>, c: seq<Var>, d: seq<Var>)
    ensures x + a + b + c + d == x + (a + b + c + d) && x + a + b + c == x + (a + b + c)
  {
  }

  lemma DistinctThree(x: seq<Var>, a: seq<Var>, b: seq<Var>, c: seq<Var>)
    requires Distinct(x + (a + b + c))
    ensures Distinct(x + a) && Distinct(x + a + b) && Distinct(x + a + b + c) && x + a + b + c == x + (a + b + c)
  {
    DistinctParts(x, a + b, c);
    DistinctParts(x, a, b);
    assert x + a + b + c == x + (a + b + c) && x + a + b == x + (a + b);
  }

  lemma NextIsNew(own: seq<Var>, vars: seq<Var>, i: nat)
    requires Distinct(own + vars) && i < |vars|
    ensures vars[i] !in own + vars[..i] && own + vars[..i] + [vars[i]] == own + vars[..i + 1]
  {
    assert (own + vars)[|own| + i] == vars[i] && own + vars[..i] == (own + vars)[..|own| + i];
  }

  /** What covers a numbering covers what it was before. */
  lemma CoversEarlier(own0: seq<Var>, free0: seq<Var>, own: seq<Var>, free: seq<Var>)
    requires own0 <= own && free0 <= free
    ensures forall sc :: Covers(sc, own, free) ==> Covers(sc, own0, free0)
  {
  }

  ghost predicate ReadAs(captures: seq<Local>, vars: seq<Var>, own: seq<Var>, free: seq<Var>)
    requires |captures| <= |vars|
  {
    forall sc, j :: Covers(sc, own, free) && 0 <= j < |captures| ==> ReadLocal(captures[j], sc) == Some(vars[j])
  }

  lemma ReadsOneMore(captures: seq<Local>, l: Local, vars: seq<Var>, own: seq<Var>, before: seq<Var>, free: seq<Var>)
    requires |captures| < |vars| && ReadAs(captures, vars, own, before) && before <= free
    requires forall sc :: Covers(sc, own, free) ==> ReadLocal(l, sc) == Some(vars[|captures|])
    ensures ReadAs(captures + [l], vars, own, free)
  {
    CoversEarlier(own, before, own, free);
  }

  class Builder {
    var locals: map<Var, nat>
    var free: seq<Var>
    var freeIdx: map<Var, nat>

    // The variables declared so far, in order, and the uses of others.
    ghost var own: seq<Var>
    ghost var uses: seq<Var>

    ghost predicate Valid()
      reads this
    {
      && (forall v :: v in locals <==> v in own)
      && (forall i :: 0 <= i < |own| ==> locals[own[i]] == i)
      && |locals| == |own| && free == Firsts(uses)
      && (forall v :: v in freeIdx <==> v in free)
      && (forall i :: 0 <= i < |free| ==> freeIdx[free[i]] == i)
    }

    constructor ()
      ensures Valid() && own == [] && uses == []
    {
      locals, free, freeIdx, own, uses := map[], [], map[], [], [];
    }

    method AddLocal(v: Var)
      requires Valid() && v !in own
      modifies this
      ensures Valid() && own == old(own) + [v] && uses == old(uses) && free == old(free)
    {
      locals := locals[v := |locals|];
      own := own + [v];
    }

    method UseLocal(v: Var) returns (l: Local)
      requires Valid()
      modifies this
      ensures Valid() && own == old(own) && uses == old(uses) + ExprUses(Name(v), own) && old(free) <= free
      ensures forall sc :: Covers(sc, own, free) ==> ReadLocal(l, sc) == Some(v)
    {
      if v in locals {
        return Local(false, locals[v]);
      }
      ghost var more := uses + [v];
      assert more[..|more| - 1] == uses;
      FirstsGrow(uses, [v]);
      uses := more;
      if v !in freeIdx {
        freeIdx := freeIdx[v := |free|];
        free := free + [v];
      }
      l := Local(true, freeIdx[v]);
    }

    method BuildExpr(e: Expr<Var>) returns (b: Expr<Local>)
      requires Valid() && ExprOnce(e)
      modifies this
      ensures Valid() && own == old(own) && uses == old(uses) + ExprUses(e, old(own)) && old(free) <= free
      ensures forall sc :: Covers(sc, own, free) ==> ReadExpr(b, sc) == KeptExpr(e)
      decreases e, 1
    {
      match e
      case Name(v) =>
        var l := UseLocal(v);
        b := Name(l);
      case Op(id, args) =>
        var list := BuildExprs(args);
        b := Op(id, list);
      case Lit(_, _, _) => b := BuildLit(e);
    }

    /** The body of a literal is built with numbers of its own. */
    method BuildLit(e: Expr<Var>) returns (b: Expr<Local>)
      requires Valid() && e.Lit? && ExprOnce(e)
      modifies this
      ensures Valid() && own == old(own) && uses == old(uses) + ExprUses(e, old(own)) && old(free) <= free
      ensures forall sc :: Covers(sc, own, free) ==> ReadExpr(b, sc) == KeptExpr(e)
      decreases e, 0
    {
      var inner := new Builder();
      DistinctFront(e.params, Records(e.body));
      assert [] + e.params == e.params;
      inner.AddAll(e.params);
      var list := inner.BuildStmts(e.body);
      assert inner.free == Firsts(Uses(e.body, e.params)) by { assert inner.uses == Uses(e.body, e.params); }
      var captures := UseAll(inner.free);
      b := Lit(e.params, captures, list);
      CoversItself(inner.own, inner.free);
      forall sc | Covers(sc, own, free) ensures ReadExpr(b, sc) == KeptExpr(e) {
        assert ReadCaptures(captures, sc) == Somes(inner.free);
      }
    }

    method AddAll(vars: seq<Var>)
      requires Valid() && Distinct(own + vars)
      modifies this
      ensures Valid() && own == old(own) + vars && uses == old(uses) && free == old(free)
    {
      for i := 0 to |vars|
        invariant Valid() && own == old(own) + vars[..i] && uses == old(uses) && free == old(free)
      {
        NextIsNew(old(own), vars, i);
        AddLocal(vars[i]);
      }
    }

    /** Each variable a literal captures is named again in this body's numbering. */
    method UseAll(vars: seq<Var>) returns (captures: seq<Local>)
      requires Valid()
      modifies this
      ensures Valid() && own == old(own) && uses == old(uses) + Without(vars, own) && old(free) <= free
      ensures |captures| == |vars| && ReadAs(captures, vars, own, free)
    {
      captures := [];
      for i := 0 to |vars|
        invariant Valid() && own == old(own) && old(free) <= free && |captures| == i
        invariant uses + Without(vars[i..], own) == old(uses) + Without(vars, own)
        invariant ReadAs(captures, vars, own, free)
      {
        ghost var before, uses0 := free, uses;
        assert vars[i..][1..] == vars[i + 1..];
        Reassociate(uses0, ExprUses(Name(vars[i]), own), Without(vars[i + 1..], own));
        var l := UseLocal(vars[i]);
        ReadsOneMore(captures, l, vars, own, before, free);
        captures := captures + [l];
      }
    }

    method BuildExprs(list: seq<Expr<Var>>) returns (b: seq<Expr<Local>>)
      requires Valid() && ExprsOnce(list)
      modifies this
      ensures Valid() && own == old(own) && uses == old(uses) + ExprsUses(list, old(own)) && old(free) <= free
      ensures forall sc :: Covers(sc, own, free) ==> ReadExprs(b, sc) == KeptExprs(list)
      decreases list, 1
    {
      b := [];
      if list != [] {
        var head := BuildExpr(list[0]);
        ghost var before := free;
        var tail := BuildExprs(list[1..]);
        CoversEarlier(own, before, own, free);
        b := [head] + tail;
      }
    }

    method BuildDests(list: seq<Dest<Var>>) returns (b: seq<Dest<Local>>)
      requires Valid() && DestsOnce(list) && Distinct(own + DestRecords(list))
      modifies this
      ensures Valid() && own == old(own) + DestRecords(list) && uses == old(uses) + DestUses(list, old(own)) && old(free) <= free
      ensures DestRecords(b) == DestRecords(list)
      ensures forall sc :: Covers(sc, own, free) ==> ReadDests(b, sc) == KeptDests(list)
      decreases list, 2
    {
      b := [];
      if list != [] {
        DistinctParts(own, DestRecord(list[0]), DestRecords(list[1..]));
        var head := BuildDest(list[0]);
        ghost var own1, free1 := own, free;
        var tail := BuildDests(list[1..]);
        Reassociate(old(own), DestRecord(list[0]), DestRecords(list[1..]));
        Reassociate(old(uses), OneDestUses(list[0], old(own)), DestUses(list[1..], own1));
        CoversEarlier(own1, free1, own, free);
        b := [head] + tail;
      }
    }

    /** A new variable is numbered where its record is written. */
    method BuildDest(d: Dest<Var>) returns (b: Dest<Local>)
      requires Valid() && DestOnce(d) && Distinct(own + DestRecord(d))
      modifies this
      ensures Valid() && own == old(own) + DestRecord(d) && uses == old(uses) + OneDestUses(d, old(own)) && old(free) <= free
      ensures DestRecord(b) == DestRecord(d)
      ensures forall sc :: Covers(sc, own, free) ==> ReadDest(b, sc) == KeptDest(d)
      decreases d, 1
    {
      match d
      case Blank => b := Blank;
      case New(v) =>
        DistinctLast(own, v);
        AddLocal(v);
        b := New(v);
      case To(e) =>
        var x := BuildExpr(e);
        b := To(x);
    }

    /** What the builder drops is neither numbered nor written. */
    method BuildStmts(list: seq<Stmt<Var>>) returns (b: seq<Stmt<Local>>)
      requires Valid() && Once(list) && Distinct(own + Records(list))
      modifies this
      ensures Valid() && own == old(own) + Records(list) && uses == old(uses) + Uses(list, old(own)) && old(free) <= free
      ensures Records(b) == Records(list)
      ensures forall sc :: Covers(sc, own, free) ==> ReadStmts(b, sc) == KeptStmts(list)
      decreases list, 1
    {
      b := [];
      if list != [] {
        DistinctParts(own, StmtRecords(list[0]), Records(list[1..]));
        Reassociate(own, StmtRecords(list[0]), Records(list[1..]));
        Reassociate(uses, StmtUses(list[0], own), Uses(list[1..], own + StmtRecords(list[0])));
        if list[0].Dropped? {
          assert own + [] == own && uses + [] == uses;
          b := BuildStmts(list[1..]);
        } else {
          var head := BuildStmt(list[0]);
          ghost var own1, free1 := own, free;
          var tail := BuildStmts(list[1..]);
          CoversEarlier(own1, free1, own, free);
          b := [head] + tail;
        }
      }
    }

    method BuildStmt(s: Stmt<Var>) returns (b: Stmt<Local>)
      requires Valid() && !s.Dropped? && StmtOnce(s) && Distinct(own + StmtRecords(s))
      modifies this
      ensures Valid() && own == old(own) + StmtRecords(s) && uses == old(uses) + StmtUses(s, old(own)) && old(free) <= free
      ensures StmtRecords(b) == StmtRecords(s)
      ensures forall sc :: Covers(sc, own, free) ==> ReadStmt(b, sc) == KeptStmt(s)
      decreases s, 1
    {
      match s
      case Assign(lhs, rhs) =>
        Reassociate(uses, DestUses(lhs, own), ExprsUses(rhs, own + DestRecords(lhs)));
        var dests := BuildDests(lhs);
        ghost var own1, free1 := own, free;
        var values := BuildExprs(rhs);
        CoversEarlier(own1, free1, own, free);
        b := Assign(dests, values);
      case Block(list) =>
        var built := BuildStmts(list);
        b := Block(built);
      case If(_, _, _, _) => b := BuildIf(s);
      case For(_, _, _, _) => b := BuildFor(s);
      case Range(_, _, _) => b := BuildRange(s);
      case Switch(_, _, _) => b := BuildSwitch(s);
    }

    method BuildIf(s: Stmt<Var>) returns (b: Stmt<Local>)
      requires Valid() && s.If? && StmtOnce(s) && Distinct(own + StmtRecords(s))
      modifies this
      ensures Valid() && own == old(own) + StmtRecords(s) && uses == old(uses) + StmtUses(s, old(own)) && old(free) <= free
      ensures StmtRecords(b) == StmtRecords(s)
      ensures forall sc :: Covers(sc, own, free) ==> ReadStmt(b, sc) == KeptStmt(s)
      decreases s, 0
    {
      ghost var own0, uses0 := own, uses;
      DistinctThree(own, Records(s.init), Records(s.thn), Records(s.els));
      var init := BuildStmts(s.init);
      ghost var own1, free1 := own, free;
      var cond := BuildExpr(s.cond);
      ghost var free2 := free;
      var thn := BuildStmts(s.thn);
      ghost var own3, free3 := own, free;
      var els := BuildStmts(s.els);
      ReassociateFour(uses0, Uses(s.init, own0), ExprUses(s.cond, own1), Uses(s.thn, own1), Uses(s.els, own3));
      CoversEarlier(own1, free1, own, free);
      CoversEarlier(own1, free2, own, free);
      CoversEarlier(own3, free3, own, free);
      b := If(init, cond, thn, els);
    }

    method BuildFor(s: Stmt<Var>) returns (b: Stmt<Local>)
      requires Valid() && s.For? && StmtOnce(s) && Distinct(own + StmtRecords(s))
      modifies this
      ensures Valid() && own == old(own) + StmtRecords(s) && uses == old(uses) + StmtUses(s, old(own)) && old(free) <= free
      ensures StmtRecords(b) == StmtRecords(s)
      ensures forall sc :: Covers(sc, own, free) ==> ReadStmt(b, sc) == KeptStmt(s)
      decreases s, 0
    {
      ghost var own0, uses0 := own, uses;
      DistinctThree(own, Records(s.init), Records(s.post), Records(s.list));
      var init := BuildStmts(s.init);
      ghost var own1, free1 := own, free;
      var test := BuildExprs(s.test);
      ghost var free2 := free;
      var post := BuildStmts(s.post);
      ghost var own3, free3 := own, free;
      var list := BuildStmts(s.list);
      ReassociateFour(uses0, Uses(s.init, own0), ExprsUses(s.test, own1), Uses(s.post, own1), Uses(s.list, own3));
      CoversEarlier(own1, free1, own, free);
      CoversEarlier(own1, free2, own, free);
      CoversEarlier(own3, free3, own, free);
      b := For(init, test, post, list);
    }

    method BuildRange(s: Stmt<Var>) returns (b: Stmt<Local>)
      requires Valid() && s.Range? && StmtOnce(s) && Distinct(own + StmtRecords(s))
      modifies this
      ensures Valid() && own == old(own) + StmtRecords(s) && uses == old(uses) + StmtUses(s, old(own)) && old(free) <= free
      ensures StmtRecords(b) == StmtRecords(s)
      ensures forall sc :: Covers(sc, own, free) ==> ReadStmt(b, sc) == KeptStmt(s)
      decreases s, 0
    {
      ghost var own0, uses0 := own, uses;
      DistinctParts(own, DestRecords(s.lhs), Records(s.list));
      Reassociate(own, DestRecords(s.lhs), Records(s.list));
      var lhs := BuildDests(s.lhs);
      ghost var own1, free1 := own, free;
      var x := BuildExpr(s.x);
      ghost var free2 := free;
      var list := BuildStmts(s.list);
      ReassociateFour(uses0, DestUses(s.lhs, own0), ExprUses(s.x, own1), Uses(s.list, own1), []);
      CoversEarlier(own1, free1, own, free);
      CoversEarlier(own1, free2, own, free);
      b := Range(lhs, x, list);
    }

    method BuildSwitch(s: Stmt<Var>) returns (b: Stmt<Local>)
      requires Valid() && s.Switch? && StmtOnce(s) && Distinct(own + StmtRecords(s))
      modifies this
      ensures Valid() && own == old(own) + StmtRecords(s) && uses == old(uses) + StmtUses(s, old(own)) && old(free) <= free
      ensures StmtRecords(b) == StmtRecords(s)
      ensures forall sc :: Covers(sc, own, free) ==> ReadStmt(b, sc) == KeptStmt(s)
      decreases s, 0
    {
      ghost var own0, uses0 := own, uses;
      DistinctParts(own, Records(s.init), ClauseRecords(s.clauses));
      Reassociate(own, Records(s.init), ClauseRecords(s.clauses));
      var init := BuildStmts(s.init);
      ghost var own1, free1 := own, free;
      var tag := BuildExprs(s.tag);
      ghost var free2 := free;
      var clauses := BuildClauses(s.clauses);
      ReassociateFour(uses0, Uses(s.init, own0), ExprsUses(s.tag, own1), ClauseUses(s.clauses, own1), []);
      CoversEarlier(own1, free1, own, free);
      CoversEarlier(own1, free2, own, free);
      b := Switch(init, tag, clauses);
    }

    method BuildClauses(list: seq<Clause<Var>>) returns (b: seq<Clause<Local>>)
      requires Valid() && ClausesOnce(list) && Distinct(own + ClauseRecords(list))
      modifies this
      ensures Valid() && own == old(own) + ClauseRecords(list) && uses == old(uses) + ClauseUses(list, old(own)) && old(free) <= free
      ensures ClauseRecords(b) == ClauseRecords(list)
      ensures forall sc :: Covers(sc, own, free) ==> ReadClauses(b, sc) == KeptClauses(list)
      decreases list, 2
    {
      b := [];
      if list != [] {
        DistinctParts(own, ClauseRecord(list[0]), ClauseRecords(list[1..]));
        Reassociate(own, ClauseRecord(list[0]), ClauseRecords(list[1..]));
        Reassociate(uses, OneClauseUses(list[0], own), ClauseUses(list[1..], own + ClauseRecord(list[0])));
        var head := BuildClause(list[0]);
        ghost var own1, free1 := own, free;
        var tail := BuildClauses(list[1..]);
        CoversEarlier(own1, free1, own, free);
        b := [head] + tail;
      }
    }

    /** The variable of a type switch's clause comes after the types it is for. */
    method BuildClause(c: Clause<Var>) returns (b: Clause<Local>)
      requires Valid() && ClauseOnce(c) && Distinct(own + ClauseRecord(c))
      modifies this
      ensures Valid() && own == old(own) + ClauseRecord(c) && uses == old(uses) + OneClauseUses(c, old(own)) && old(free) <= free
      ensures ClauseRecord(b) == ClauseRecord(c)
      ensures forall sc :: Covers(sc, own, free) ==> ReadClause(b, sc) == KeptClause(c)
      decreases c, 1
    {
      ghost var own0, uses0 := own, uses;
      DistinctThree(own, Records(c.comm), c.vars, Records(c.body));
      var comm := BuildStmts(c.comm);
      ghost var own1, free1 := own, free;
      var exprs := BuildExprs(c.exprs);
      ghost var free2 := free;
      AddAll(c.vars);
      ghost var own3 := own;
      var body := BuildStmts(c.body);
      ReassociateFour(uses0, Uses(c.comm, own0), ExprsUses(c.exprs, own1), Uses(c.body, own3), []);
      CoversEarlier(own1, free1, own, free);
      CoversEarlier(own1, free2, own, free);
      b := Clause(comm, exprs, c.vars, body);
    }
  }

  /** A whole body: its parameters are its first records, each number in it stands
      for the variable the source names, at any depth of literals, and what it
      captures from outside is listed once each in the order of first use. */
  method BuildBody(params: seq<Var>, list: seq<Stmt<Var>>) returns (body: seq<Stmt<Local>>, free: seq<Var>)
    requires Once(list) && Distinct(params + Records(list))
    ensures Records(body) == Records(list) && free == Firsts(Uses(list, params))
    ensures ReadStmts(body, Scope(params + Records(body), Somes(free))) == KeptStmts(list)
  {
    var b := new Builder();
    DistinctFront(params, Records(list));
    assert [] + params == params;
    b.AddAll(params);
    body := b.BuildStmts(list);
    assert b.uses == Uses(list, params);
    free := b.free;
    CoversItself(b.own, b.free);
  }

  // ----- What a body can capture -----

  function Elements(list: seq<Var>): set<Var> { set v | v in list }

  /** The variables a statement leaves in scope for those after it. */
  function Leaves(s: Stmt<Var>): set<Var> { if s.Assign? then Elements(DestRecords(s.lhs)) else {} }

  function AllLeave(list: seq<Stmt<Var>>): set<Var> { if list == [] then {} else Leaves(list[0]) + AllLeave(list[1..]) }

  /** Each variable that is kept is named where its declaration is in scope. */
  predicate ScopedExpr(e: Expr<Var>, scope: set<Var>)
    decreases e, 0
  {
    match e
    case Name(v) => v in scope
    case Op(_, args) => ScopedExprs(args, scope)
    case Lit(params, _, body) => Scoped(body, scope + Elements(params))
  }

  predicate ScopedExprs(list: seq<Expr<Var>>, scope: set<Var>)
    decreases list, 1
  {
    list == [] || (ScopedExpr(list[0], scope) && ScopedExprs(list[1..], scope))
  }

  predicate ScopedDests(list: seq<Dest<Var>>, scope: set<Var>)
    decreases list, 1
  {
    list == [] || (ScopedDest(list[0], scope) && ScopedDests(list[1..], scope))
  }

  predicate ScopedDest(d: Dest<Var>, scope: set<Var>)
    decreases d, 1
  {
    d.To? ==> ScopedExpr(d.e, scope)
  }

  predicate ScopedStmt(s: Stmt<Var>, scope: set<Var>)
    decreases s, 0
  {
    match s
    case Assign(lhs, rhs) => ScopedDests(lhs, scope) && ScopedExprs(rhs, scope)
    case Block(list) => Scoped(list, scope)
    case If(init, cond, thn, els) =>
      var inner := scope + AllLeave(init);
      Scoped(init, scope) && ScopedExpr(cond, inner) && Scoped(thn, inner) && Scoped(els, inner)
    case For(init, test, post, list) =>
      var inner := scope + AllLeave(init);
      Scoped(init, scope) && ScopedExprs(test, inner) && Scoped(post, inner) && Scoped(list, inner)
    case Range(lhs, x, list) =>
      ScopedDests(lhs, scope) && ScopedExpr(x, scope) && Scoped(list, scope + Elements(DestRecords(lhs)))
    case Switch(init, tag, clauses) =>
      var inner := scope + AllLeave(init);
      Scoped(init, scope) && ScopedExprs(tag, inner) && ScopedClauses(clauses, inner)
    case Dropped(_) => true
  }

  predicate Scoped(list: seq<Stmt<Var>>, scope: set<Var>)
    decreases list, 1
  {
    list == [] || (ScopedStmt(list[0], scope) && Scoped(list[1..], scope + Leaves(list[0])))
  }

  predicate ScopedClauses(clauses: seq<Clause<Var>>, scope: set<Var>)
    decreases clauses, 2
  {
    clauses == [] || (ScopedClause(clauses[0], scope) && ScopedClauses(clauses[1..], scope))
  }

  predicate ScopedClause(c: Clause<Var>, scope: set<Var>)
    decreases c, 1
  {
    && Scoped(c.comm, scope) && ScopedExprs(c.exprs, scope)
    && Scoped(c.body, scope + AllLeave(c.comm) + Elements(c.vars))
  }

  /** Every use is of an outer variable. */
  predicate From(uses: seq<Var>, outer: set<Var>) { forall v <- uses :: v in outer }

  /** What is in scope is declared in the body or comes from outside it. */
  predicate Bound(scope: set<Var>, outer: set<Var>, declared: seq<Var>) { forall v <- scope :: v in outer || v in declared }

  lemma {:induction false} WithoutFrom(uses: seq<Var>, scope: set<Var>, outer: set<Var>, declared: seq<Var>)
    requires From(uses, scope) && Bound(scope, outer, declared)
    ensures From(Without(uses, declared), outer)
  {
    if uses != [] {
      assert uses[0] in uses && forall v <- uses[1..] :: v in uses;
      WithoutFrom(uses[1..], scope, outer, declared);
    }
  }

  lemma {:induction false} LeavesRecorded(list: seq<Stmt<Var>>)
    ensures forall v <- AllLeave(list) :: v in Records(list)
  {
    if list != [] { LeavesRecorded(list[1..]); }
  }

  lemma {:induction false} ExprScoped(e: Expr<Var>, scope: set<Var>, outer: set<Var>, declared: seq<Var>)
    requires ScopedExpr(e, scope) && Bound(scope, outer, declared)
    ensures From(ExprUses(e, declared), outer)
    decreases e, 0
  {
    match e
    case Name(_) =>
    case Op(_, args) => ExprsScoped(args, scope, outer, declared);
    case Lit(params, _, body) =>
      ListScoped(body, scope + Elements(params), scope, params);
      WithoutFrom(Firsts(Uses(body, params)), scope, outer, declared);
  }

  lemma {:induction false} ExprsScoped(list: seq<Expr<Var>>, scope: set<Var>, outer: set<Var>, declared: seq<Var>)
    requires ScopedExprs(list, scope) && Bound(scope, outer, declared)
    ensures From(ExprsUses(list, declared), outer)
    decreases list, 1
  {
    if list != [] {
      ExprScoped(list[0], scope, outer, declared);
      ExprsScoped(list[1..], scope, outer, declared);
    }
  }

  lemma {:induction false} DestsScoped(list: seq<Dest<Var>>, scope: set<Var>, outer: set<Var>, declared: seq<Var>)
    requires ScopedDests(list, scope) && Bound(scope, outer, declared)
    ensures From(DestUses(list, declared), outer)
    decreases list, 1
  {
    if list != [] {
      DestScoped(list[0], scope, outer, declared);
      DestsScoped(list[1..], scope, outer, declared + DestRecord(list[0]));
    }
  }

  lemma {:induction false} DestScoped(d: Dest<Var>, scope: set<Var>, outer: set<Var>, declared: seq<Var>)
    requires ScopedDest(d, scope) && Bound(scope, outer, declared)
    ensures From(OneDestUses(d, declared), outer)
    decreases d, 1
  {
    if d.To? { ExprScoped(d.e, scope, outer, declared); }
  }

  lemma {:induction false} StmtScoped(s: Stmt<Var>, scope: set<Var>, outer: set<Var>, declared: seq<Var>)
    requires ScopedStmt(s, scope) && Bound(scope, outer, declared)
    ensures From(StmtUses(s, declared), outer)
    decreases s, 0
  {
    match s
    case Assign(lhs, rhs) =>
      DestsScoped(lhs, scope, outer, declared);
      ExprsScoped(rhs, scope, outer, declared + DestRecords(lhs));
    case Block(list) => ListScoped(list, scope, outer, declared);
    case If(init, cond, thn, els) =>
      ListScoped(init, scope, outer, declared);
      LeavesRecorded(init);
      var inner, d1 := scope + AllLeave(init), declared + Records(init);
      ExprScoped(cond, inner, outer, d1);
      ListScoped(thn, inner, outer, d1);
      ListScoped(els, inner, outer, d1 + Records(thn));
    case For(init, test, post, list) =>
      ListScoped(init, scope, outer, declared);
      LeavesRecorded(init);
      var inner, d1 := scope + AllLeave(init), declared + Records(init);
      ExprsScoped(test, inner, outer, d1);
      ListScoped(post, inner, outer, d1);
      ListScoped(list, inner, outer, d1 + Records(post));
    case Range(lhs, x, list) =>
      DestsScoped(lhs, scope, outer, declared);
      var d1 := declared + DestRecords(lhs);
      ExprScoped(x, scope, outer, d1);
      ListScoped(list, scope + Elements(DestRecords(lhs)), outer, d1);
    case Switch(init, tag, clauses) =>
      ListScoped(init, scope, outer, declared);
      LeavesRecorded(init);
      var inner, d1 := scope + AllLeave(init), declared + Records(init);
      ExprsScoped(tag, inner, outer, d1);
      ClausesScoped(clauses, inner, outer, d1);
    case Dropped(_) =>
  }

  lemma {:induction false} ListScoped(list: seq<Stmt<Var>>, scope: set<Var>, outer: set<Var>, declared: seq<Var>)
    requires Scoped(list, scope) && Bound(scope, outer, declared)
    ensures From(Uses(list, declared), outer)
    decreases list, 1
  {
    if list != [] {
      StmtScoped(list[0], scope, outer, declared);
      ListScoped(list[1..], scope + Leaves(list[0]), outer, declared + StmtRecords(list[0]));
    }
  }

  lemma {:induction false} ClausesScoped(clauses: seq<Clause<Var>>, scope: set<Var>, outer: set<Var>, declared: seq<Var>)
    requires ScopedClauses(clauses, scope) && Bound(scope, outer, declared)
    ensures From(ClauseUses(clauses, declared), outer)
    decreases clauses, 2
  {
    if clauses != [] {
      ClauseScoped(clauses[0], scope, outer, declared);
      ClausesScoped(clauses[1..], scope, outer, declared + ClauseRecord(clauses[0]));
    }
  }

  lemma {:induction false} ClauseScoped(c: Clause<Var>, scope: set<Var>, outer: set<Var>, declared: seq<Var>)
    requires ScopedClause(c, scope) && Bound(scope, outer, declared)
    ensures From(OneClauseUses(c, declared), outer)
    decreases c, 1
  {
    ListScoped(c.comm, scope, outer, declared);
    LeavesRecorded(c.comm);
    var d1 := declared + Records(c.comm);
    ExprsScoped(c.exprs, scope, outer, d1);
    ListScoped(c.body, scope + AllLeave(c.comm) + Elements(c.vars), outer, d1 + c.vars);
  }

  /** A well scoped literal captures only what is in scope where it stands, and
      a well scoped declaration captures nothing. */
  lemma CapturesAreOuter(params: seq<Var>, list: seq<Stmt<Var>>, outer: set<Var>)
    requires Scoped(list, outer + Elements(params))
    ensures From(Firsts(Uses(list, params)), outer)
    ensures outer == {} ==> Firsts(Uses(list, params)) == []
  {
    ListScoped(list, outer + Elements(params), outer, params);
    var free := Firsts(Uses(list, params));
    if free != [] { assert free[0] in free && free[0] in outer; }
  }

  /** A capture list is in the order of first use: before the first use of an entry
      no later entry is used. */
  lemma {:induction false} FirstsInOrder(uses: seq<Var>, i: nat, j: nat)
    requires i < j < |Firsts(uses)|
    ensures exists p :: 0 <= p < |uses| && uses[p] == Firsts(uses)[i] && Firsts(uses)[j] !in uses[..p + 1]
  {
    var front := uses[..|uses| - 1];
    if j < |Firsts(front)| {
      FirstsInOrder(front, i, j);
      var p :| 0 <= p < |front| && front[p] == Firsts(front)[i] && Firsts(front)[j] !in front[..p + 1];
      assert uses[..p + 1] == front[..p + 1];
    } else {
      assert Firsts(uses)[i] in front;
      var p :| 0 <= p < |front| && front[p] == Firsts(uses)[i];
      assert forall v :: v in uses[..p + 1] ==> v in front;
    }
  }
}

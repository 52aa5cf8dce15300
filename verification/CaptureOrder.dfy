/** Numbers and the order of what is written: a declaration has its number from
    the place of its record among the others, and a use is of a variable of the
    body exactly if the record stands in front of it (export/bodywrite.go:247-560). */
module CaptureOrder {
  import opened Captures

  /** What is written of a body, as far as it declares or names a variable. */
  datatype Piece = Declares(v: Var) | Names(v: Var)

  function Declaring(vars: seq<Var>): seq<Piece> { seq(|vars|, i requires 0 <= i < |vars| => Declares(vars[i])) }

  function Naming(vars: seq<Var>): seq<Piece> { seq(|vars|, i requires 0 <= i < |vars| => Names(vars[i])) }

  /** The variables that are declared. */
  function Declared(ps: seq<Piece>): seq<Var> {
    if ps == [] then [] else (if ps[0].Declares? then [ps[0].v] else []) + Declared(ps[1..])
  }

  /** The variables that are named and are not declared in front of that. */
  function Outside(ps: seq<Piece>, declared: seq<Var>): seq<Var>
    decreases |ps|
  {
    if ps == [] then []
    else if ps[0].Declares? then Outside(ps[1..], declared + [ps[0].v])
    else (if ps[0].v in declared then [] else [ps[0].v]) + Outside(ps[1..], declared)
  }

  // ----- The order in which a body is written -----

  /** A literal is written as its capture list. */
  function ExprPieces(e: Expr<Var>): seq<Piece>
    decreases e, 0
  {
    match e
    case Name(v) => [Names(v)]
    case Op(_, args) => ExprsPieces(args)
    case Lit(params, _, body) => Naming(Firsts(Outside(Pieces(body), params)))
  }

  function ExprsPieces(list: seq<Expr<Var>>): seq<Piece>
    decreases list, 1
  {
    if list == [] then [] else ExprPieces(list[0]) + ExprsPieces(list[1..])
  }

  function DestPieces(d: Dest<Var>): seq<Piece>
    decreases d, 1
  {
    match d
    case Blank => []
    case New(v) => [Declares(v)]
    case To(e) => ExprPieces(e)
  }

  function DestsPieces(list: seq<Dest<Var>>): seq<Piece>
    decreases list, 2
  {
    if list == [] then [] else DestPieces(list[0]) + DestsPieces(list[1..])
  }

  function StmtPieces(s: Stmt<Var>): seq<Piece>
    decreases s, 0
  {
    match s
    case Assign(lhs, rhs) => DestsPieces(lhs) + ExprsPieces(rhs)
    case Block(list) => Pieces(list)
    case If(init, cond, thn, els) => Pieces(init) + ExprPieces(cond) + Pieces(thn) + Pieces(els)
    case For(init, test, post, list) => Pieces(init) + ExprsPieces(test) + Pieces(post) + Pieces(list)
    case Range(lhs, x, list) => DestsPieces(lhs) + ExprPieces(x) + Pieces(list)
    case Switch(init, tag, clauses) => Pieces(init) + ExprsPieces(tag) + ClausesPieces(clauses)
    case Dropped(_) => []
  }

  function Pieces(list: seq<Stmt<Var>>): seq<Piece>
    decreases list, 1
  {
    if list == [] then [] else StmtPieces(list[0]) + Pieces(list[1..])
  }

  function ClausePieces(c: Clause<Var>): seq<Piece>
    decreases c, 1
  {
    Pieces(c.comm) + ExprsPieces(c.exprs) + Declaring(c.vars) + Pieces(c.body)
  }

  function ClausesPieces(list: seq<Clause<Var>>): seq<Piece>
    decreases list, 2
  {
    if list == [] then [] else ClausePieces(list[0]) + ClausesPieces(list[1..])
  }

  // ----- The numbering is by that order -----

  lemma {:induction false} DeclaredBoth(ps: seq<Piece>, qs: seq<Piece>)
    ensures Declared(ps + qs) == Declared(ps) + Declared(qs)
  {
    if ps == [] {
      assert ps + qs == qs;
    } else {
      assert (ps + qs)[0] == ps[0] && (ps + qs)[1..] == ps[1..] + qs;
      DeclaredBoth(ps[1..], qs);
    }
  }

  lemma {:induction false} OutsideBoth(ps: seq<Piece>, qs: seq<Piece>, declared: seq<Var>)
    ensures Outside(ps + qs, declared) == Outside(ps, declared) + Outside(qs, declared + Declared(ps))
    decreases |ps|
  {
    if ps == [] {
      assert ps + qs == qs && declared + [] == declared;
    } else {
      assert (ps + qs)[0] == ps[0] && (ps + qs)[1..] == ps[1..] + qs;
      if ps[0].Declares? {
        OutsideBoth(ps[1..], qs, declared + [ps[0].v]);
        assert declared + [ps[0].v] + Declared(ps[1..]) == declared + Declared(ps);
      } else {
        OutsideBoth(ps[1..], qs, declared);
        assert Declared(ps) == [] + Declared(ps[1..]) == Declared(ps[1..]);
        var h := if ps[0].v in declared then [] else [ps[0].v];
        var a, b := Outside(ps[1..], declared), Outside(qs, declared + Declared(ps));
        assert h + (a + b) == (h + a) + b;
      }
    }
  }

  lemma {:induction false} NamingIs(vars: seq<Var>, declared: seq<Var>)
    ensures Declared(Naming(vars)) == [] && Outside(Naming(vars), declared) == Without(vars, declared)
  {
    if vars != [] {
      assert Naming(vars)[1..] == Naming(vars[1..]);
      NamingIs(vars[1..], declared);
    }
  }

  lemma {:induction false} DeclaringIs(vars: seq<Var>, declared: seq<Var>)
    ensures Declared(Declaring(vars)) == vars && Outside(Declaring(vars), declared) == []
    decreases |vars|
  {
    if vars != [] {
      assert Declaring(vars)[1..] == Declaring(vars[1..]);
      DeclaringIs(vars[1..], declared + [vars[0]]);
    }
  }

  /** One part declares these variables and names those. */
  ghost predicate Tells(ps: seq<Piece>, declared: seq<Var>, records: seq<Var>, uses: seq<Var>) {
    Declared(ps) == records && Outside(ps, declared) == uses
  }

  lemma TellsBoth(ps: seq<Piece>, qs: seq<Piece>, declared: seq<Var>, r1: seq<Var>, r2: seq<Var>, u1: seq<Var>, u2: seq<Var>)
    requires Tells(ps, declared, r1, u1) && Tells(qs, declared + r1, r2, u2)
    ensures Tells(ps + qs, declared, r1 + r2, u1 + u2)
  {
    DeclaredBoth(ps, qs);
    OutsideBoth(ps, qs, declared);
  }

  lemma {:induction false} ExprTells(e: Expr<Var>, declared: seq<Var>)
    ensures Tells(ExprPieces(e), declared, [], ExprUses(e, declared))
    decreases e, 0
  {
    match e
    case Name(v) => NamingIs([v], declared);
    case Op(_, args) => ExprsTell(args, declared);
    case Lit(params, _, body) =>
      ListTells(body, params);
      NamingIs(Firsts(Outside(Pieces(body), params)), declared);
  }

  lemma {:induction false} ExprsTell(list: seq<Expr<Var>>, declared: seq<Var>)
    ensures Tells(ExprsPieces(list), declared, [], ExprsUses(list, declared))
    decreases list, 1
  {
    if list != [] {
      ExprTells(list[0], declared);
      assert declared + [] == declared;
      ExprsTell(list[1..], declared);
      TellsBoth(ExprPieces(list[0]), ExprsPieces(list[1..]), declared, [], [], ExprUses(list[0], declared), ExprsUses(list[1..], declared));
    }
  }

  lemma {:induction false} DestTells(d: Dest<Var>, declared: seq<Var>)
    ensures Tells(DestPieces(d), declared, DestRecord(d), OneDestUses(d, declared))
    decreases d, 1
  {
    match d
    case Blank =>
    case New(v) => DeclaringIs([v], declared);
    case To(e) => ExprTells(e, declared);
  }

  lemma {:induction false} DestsTell(list: seq<Dest<Var>>, declared: seq<Var>)
    ensures Tells(DestsPieces(list), declared, DestRecords(list), DestUses(list, declared))
    decreases list, 2
  {
    if list != [] {
      var d1 := declared + DestRecord(list[0]);
      DestTells(list[0], declared);
      DestsTell(list[1..], d1);
      TellsBoth(DestPieces(list[0]), DestsPieces(list[1..]), declared, DestRecord(list[0]), DestRecords(list[1..]),
                OneDestUses(list[0], declared), DestUses(list[1..], d1));
    }
  }

  lemma {:induction false} StmtTells(s: Stmt<Var>, declared: seq<Var>)
    ensures Tells(StmtPieces(s), declared, StmtRecords(s), StmtUses(s, declared))
    decreases s, 0
  {
    match s
    case Assign(lhs, rhs) =>
      var d1 := declared + DestRecords(lhs);
      DestsTell(lhs, declared);
      ExprsTell(rhs, d1);
      TellsBoth(DestsPieces(lhs), ExprsPieces(rhs), declared, DestRecords(lhs), [], DestUses(lhs, declared), ExprsUses(rhs, d1));
    case Block(list) => ListTells(list, declared);
    case If(init, cond, thn, els) =>
      var d1 := declared + Records(init);
      var d2 := d1 + Records(thn);
      ListTells(init, declared);
      ExprTells(cond, d1);
      ListTells(thn, d1);
      ListTells(els, d2);
      FourTell(declared, Pieces(init), ExprPieces(cond), Pieces(thn), Pieces(els), Records(init), Records(thn), Records(els),
               Uses(init, declared), ExprUses(cond, d1), Uses(thn, d1), Uses(els, d2));
    case For(init, test, post, list) =>
      var d1 := declared + Records(init);
      var d2 := d1 + Records(post);
      ListTells(init, declared);
      ExprsTell(test, d1);
      ListTells(post, d1);
      ListTells(list, d2);
      FourTell(declared, Pieces(init), ExprsPieces(test), Pieces(post), Pieces(list), Records(init), Records(post), Records(list),
               Uses(init, declared), ExprsUses(test, d1), Uses(post, d1), Uses(list, d2));
    case Range(lhs, x, list) =>
      var d1 := declared + DestRecords(lhs);
      DestsTell(lhs, declared);
      ExprTells(x, d1);
      ListTells(list, d1);
      ThreeTell(declared, DestsPieces(lhs), ExprPieces(x), Pieces(list), DestRecords(lhs), Records(list),
                DestUses(lhs, declared), ExprUses(x, d1), Uses(list, d1));
    case Switch(init, tag, clauses) =>
      var d1 := declared + Records(init);
      ListTells(init, declared);
      ExprsTell(tag, d1);
      ClausesTell(clauses, d1);
      ThreeTell(declared, Pieces(init), ExprsPieces(tag), ClausesPieces(clauses), Records(init), ClauseRecords(clauses),
                Uses(init, declared), ExprsUses(tag, d1), ClauseUses(clauses, d1));
    case Dropped(_) =>
  }

  /** Declarations, then uses only, then declarations. */
  lemma ThreeTell(declared: seq<Var>, p1: seq<Piece>, p2: seq<Piece>, p3: seq<Piece>,
                  r1: seq<Var>, r3: seq<Var>, u1: seq<Var>, u2: seq<Var>, u3: seq<Var>)
    requires Tells(p1, declared, r1, u1) && Tells(p2, declared + r1, [], u2) && Tells(p3, declared + r1, r3, u3)
    ensures Tells(p1 + p2 + p3, declared, r1 + r3, u1 + u2 + u3)
  {
    TellsBoth(p1, p2, declared, r1, [], u1, u2);
    assert r1 + [] == r1;
    TellsBoth(p1 + p2, p3, declared, r1, r3, u1 + u2, u3);
  }

  lemma FourTell(declared: seq<Var>, p1: seq<Piece>, p2: seq<Piece>, p3: seq<Piece>, p4: seq<Piece>,
                 r1: seq<Var>, r3: seq<Var>, r4: seq<Var>, u1: seq<Var>, u2: seq<Var>, u3: seq<Var>, u4: seq<Var>)
    requires Tells(p1, declared, r1, u1) && Tells(p2, declared + r1, [], u2) && Tells(p3, declared + r1, r3, u3)
    requires Tells(p4, declared + r1 + r3, r4, u4)
    ensures Tells(p1 + p2 + p3 + p4, declared, r1 + r3 + r4, u1 + u2 + u3 + u4)
  {
    ThreeTell(declared, p1, p2, p3, r1, r3, u1, u2, u3);
    assert declared + (r1 + r3) == declared + r1 + r3;
    TellsBoth(p1 + p2 + p3, p4, declared, r1 + r3, r4, u1 + u2 + u3, u4);
  }

  lemma {:induction false} ListTells(list: seq<Stmt<Var>>, declared: seq<Var>)
    ensures Tells(Pieces(list), declared, Records(list), Uses(list, declared))
    decreases list, 1
  {
    if list != [] {
      var d1 := declared + StmtRecords(list[0]);
      StmtTells(list[0], declared);
      ListTells(list[1..], d1);
      TellsBoth(StmtPieces(list[0]), Pieces(list[1..]), declared, StmtRecords(list[0]), Records(list[1..]),
                StmtUses(list[0], declared), Uses(list[1..], d1));
    }
  }

  lemma {:induction false} ClauseTells(c: Clause<Var>, declared: seq<Var>)
    ensures Tells(ClausePieces(c), declared, ClauseRecord(c), OneClauseUses(c, declared))
    decreases c, 1
  {
    var d1 := declared + Records(c.comm);
    ListTells(c.comm, declared);
    ExprsTell(c.exprs, d1);
    DeclaringIs(c.vars, d1);
    ListTells(c.body, d1 + c.vars);
    FourTell(declared, Pieces(c.comm), ExprsPieces(c.exprs), Declaring(c.vars), Pieces(c.body), Records(c.comm), c.vars, Records(c.body),
             Uses(c.comm, declared), ExprsUses(c.exprs, d1), [], Uses(c.body, d1 + c.vars));
    assert Uses(c.comm, declared) + ExprsUses(c.exprs, d1) + [] == Uses(c.comm, declared) + ExprsUses(c.exprs, d1);
  }

  lemma {:induction false} ClausesTell(list: seq<Clause<Var>>, declared: seq<Var>)
    ensures Tells(ClausesPieces(list), declared, ClauseRecords(list), ClauseUses(list, declared))
    decreases list, 2
  {
    if list != [] {
      var d1 := declared + ClauseRecord(list[0]);
      ClauseTells(list[0], declared);
      ClausesTell(list[1..], d1);
      TellsBoth(ClausePieces(list[0]), ClausesPieces(list[1..]), declared, ClauseRecord(list[0]), ClauseRecords(list[1..]),
                OneClauseUses(list[0], declared), ClauseUses(list[1..], d1));
    }
  }

  /** The positions of a body are those of its records in what is written, and it
      captures exactly what is named in what is written and not declared before. */
  lemma NumberedAsWritten(params: seq<Var>, list: seq<Stmt<Var>>)
    ensures Records(list) == Declared(Pieces(list)) && Uses(list, params) == Outside(Pieces(list), params)
  {
    ListTells(list, params);
  }
}

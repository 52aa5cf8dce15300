/** The conditions of statements and their static values (export/bodybuild.go). */
module Conditions {
  import opened Wrappers

  datatype State = State(memory: map<nat, int>, log: seq<nat>)

  /** What the parts of a body that are not modelled do: a statement, a condition,
      the tag or a case of a switch, and the choice of a clause by a type switch
      or a select. None is a panic. */
  datatype Machine = Machine(
    act: (nat, State) -> (bool, State),
    test: (nat, State) -> (Option<bool>, State),
    value: (nat, State) -> (Option<nat>, State),
    choose: (nat, State) -> (Option<nat>, State))

  /** Const is any expression the checker has a value for. The operand of a
      parsed `!` that is an `&&` or an `||` is in parentheses. */
  datatype Cond = Const(b: bool) | Prim(id: nat) | Paren(x: Cond) | Not(x: Cond) | And(x: Cond, y: Cond) | Or(x: Cond, y: Cond)

  function Eval(m: Machine, e: Cond, s: State): (Option<bool>, State) {
    match e
    case Const(b) => (Some(b), s)
    case Prim(id) => m.test(id, s)
    case Paren(x) => Eval(m, x, s)
    case Not(x) =>
      var (v, s1) := Eval(m, x, s);
      (if v.Some? then Some(!v.value) else None, s1)
    case And(x, y) =>
      var (v, s1) := Eval(m, x, s);
      if v == Some(true) then Eval(m, y, s1) else (v, s1)
    case Or(x, y) =>
      var (v, s1) := Eval(m, x, s);
      if v == Some(false) then Eval(m, y, s1) else (v, s1)
  }

  /** staticBool: the sign of the condition and the condition it is rewritten to. */
  function StaticBool(e: Cond): (int, Cond) {
    match e
    case Const(b) => (if b then 1 else -1, e)
    case Prim(_) => (0, e)
    case Paren(_) => (0, e)
    case Not(x) =>
      var (sign, x') := StaticBool(x);
      (sign, Not(x'))
    case And(x, y) =>
      var (sx, x') := StaticBool(x);
      if sx < 0 then (sx, x')
      else
        var (sy, y') := StaticBool(y);
        if sx > 0 || sy < 0 then (sy, if x'.Const? then y' else And(x', y')) else (0, And(x', y'))
    case Or(x, y) =>
      var (sx, x') := StaticBool(x);
      if sx > 0 then (sx, x')
      else
        var (sy, y') := StaticBool(y);
        if sx < 0 || sy > 0 then (sy, if x'.Const? then y' else Or(x', y')) else (0, Or(x', y'))
  }

  function Sign(e: Cond): int { StaticBool(e).0 }

  function Rewritten(e: Cond): Cond { StaticBool(e).1 }

  /** What the parser makes: the operand of `!` is a name, a call, a receive, an
      expression in parentheses or another `!`. */
  predicate Parsed(e: Cond) {
    match e
    case Const(_) => true
    case Prim(_) => true
    case Paren(x) => Parsed(x)
    case Not(x) => (x.Prim? || x.Paren? || x.Not?) && Parsed(x)
    case And(x, y) => Parsed(x) && Parsed(y)
    case Or(x, y) => Parsed(x) && Parsed(y)
  }

  /** No `!` that the function looks through stands over an operand it decides. */
  predicate NothingDecidedUnderNot(e: Cond) {
    match e
    case Const(_) => true
    case Prim(_) => true
    case Paren(_) => true
    case Not(x) => Sign(x) == 0 && NothingDecidedUnderNot(x)
    case And(x, y) => NothingDecidedUnderNot(x) && (Sign(x) < 0 || NothingDecidedUnderNot(y))
    case Or(x, y) => NothingDecidedUnderNot(x) && (Sign(x) > 0 || NothingDecidedUnderNot(y))
  }

  /** The sign is the value the condition always has when it has one, and the
      rewritten condition has the same value and the same effects. */
  ghost predicate Right(e: Cond) {
    forall m: Machine, s ::
      && Eval(m, Rewritten(e), s) == Eval(m, e, s)
      && (Eval(m, e, s).0.Some? ==> (Sign(e) > 0 ==> Eval(m, e, s).0.value) && (Sign(e) < 0 ==> !Eval(m, e, s).0.value))
  }

  lemma {:induction false} ParsedIsUndecided(e: Cond)
    requires Parsed(e)
    ensures NothingDecidedUnderNot(e) && (e.Not? ==> Sign(e) == 0)
  {
    match e
    case Const(_) =>
    case Prim(_) =>
    case Paren(_) =>
    case Not(x) =>
      ParsedIsUndecided(x);
      assert Sign(x) == 0;
    case And(x, y) =>
      ParsedIsUndecided(x);
      ParsedIsUndecided(y);
    case Or(x, y) =>
      ParsedIsUndecided(x);
      ParsedIsUndecided(y);
  }

  lemma {:induction false} UndecidedIsRight(e: Cond)
    requires NothingDecidedUnderNot(e)
    ensures Right(e)
  {
    forall m: Machine, s { EvalIsRight(m, e, s); }
  }

  lemma {:induction false} EvalIsRight(m: Machine, e: Cond, s: State)
    requires NothingDecidedUnderNot(e)
    ensures Eval(m, Rewritten(e), s) == Eval(m, e, s)
    ensures Eval(m, e, s).0.Some? ==> (Sign(e) > 0 ==> Eval(m, e, s).0.value) && (Sign(e) < 0 ==> !Eval(m, e, s).0.value)
  {
    match e
    case Const(_) =>
    case Prim(_) =>
    case Paren(_) =>
    case Not(x) => EvalIsRight(m, x, s);
    case And(x, y) =>
      DecidedTwice(x);
      EvalIsRight(m, x, s);
      if Sign(x) >= 0 { EvalIsRight(m, y, Eval(m, x, s).1); }
    case Or(x, y) =>
      DecidedTwice(x);
      EvalIsRight(m, x, s);
      if Sign(x) <= 0 { EvalIsRight(m, y, Eval(m, x, s).1); }
  }

  /** Every condition the parser makes is decided and rewritten correctly. */
  lemma ParsedIsRight(e: Cond)
    requires Parsed(e)
    ensures Right(e)
  {
    ParsedIsUndecided(e);
    UndecidedIsRight(e);
  }

  const STEADY := Machine((_, s) => (true, s), (_, s) => (Some(true), s), (_, s) => (Some(0), s), (_, s) => (Some(0), s))

  lemma {:induction false} SteadyCompletes(e: Cond, s: State)
    ensures Eval(STEADY, e, s).0.Some?
  {
    match e
    case Const(_) =>
    case Prim(_) =>
    case Paren(x) => SteadyCompletes(x, s);
    case Not(x) => SteadyCompletes(x, s);
    case And(x, y) =>
      SteadyCompletes(x, s);
      SteadyCompletes(y, Eval(STEADY, x, s).1);
    case Or(x, y) =>
      SteadyCompletes(x, s);
      SteadyCompletes(y, Eval(STEADY, x, s).1);
  }

  /** Deciding a condition again finds the same sign and changes nothing. */
  lemma {:induction false} DecidedTwice(e: Cond)
    ensures StaticBool(Rewritten(e)) == (Sign(e), Rewritten(e))
  {
    match e
    case Const(_) =>
    case Prim(_) =>
    case Paren(_) =>
    case Not(x) => DecidedTwice(x);
    case And(x, y) =>
      DecidedTwice(x);
      DecidedTwice(y);
    case Or(x, y) =>
      DecidedTwice(x);
      DecidedTwice(y);
  }

  /** A `!` keeps its operand's sign, which is right exactly when there is none:
      over a decided operand the sign is that of the opposite value. */
  lemma NotIsRight(x: Cond)
    requires NothingDecidedUnderNot(x)
    ensures Right(Not(x)) <==> Sign(x) == 0
  {
    if Sign(x) == 0 {
      UndecidedIsRight(Not(x));
    } else {
      var s := State(map[], []);
      SteadyCompletes(x, s);
      EvalIsRight(STEADY, x, s);
      assert Eval(STEADY, Not(x), s).0 == Some(!Eval(STEADY, x, s).0.value);
    }
  }
}

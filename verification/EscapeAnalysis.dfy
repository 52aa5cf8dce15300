/** The answer of `analyse` for one parameter, and what it is worth.

    Two halves. The fixed point loop computes the least solution of the flow
    constraints, and gives up at a leak exactly when there is none. And the
    note written from a solution is true of every run of the body, but for one
    case, which `KeptByAnUndetectedCell` exhibits. */
module EscapeAnalysis {
  import opened IR
  import opened Leaks
  import opened Wrappers
  import opened EscapeWalk
  import opened EscapeConstraints
  import opened EscapeRun
  import opened EscapeSound
  import Quiet = EscapeQuiet
  import Least = EscapeLeast
  import Rounds = EscapeRounds

  type Depths = map<nat, nat>

  function At(R: Depths, i: nat): Bound { Bound(i, if i in R then Some(R[i]) else None) }

  /** `T` and `R` solve the constraints of the body, with the parameter itself
      at no dereferences. */
  ghost predicate Solution(fn: Func, param: Object, T: Taints, R: Depths) {
    && param in T && T[param] == 0
    && forall i: nat :: SolvesAll(fn.results, T, At(R, i), fn.body)
  }

  /** `T`, `R` claims at least every flow that `T'`, `R'` does. */
  ghost predicate ClaimsMore(T: Taints, R: Depths, T': Taints, R': Depths) {
    && (forall o {:trigger o in T'} :: o in T' ==> o in T && T[o] <= T'[o])
    && (forall i {:trigger i in R'} :: i in R' ==> i in R && R[i] <= R'[i])
  }

  // ----- The fixed point -----

  lemma {:induction false} SettledSolves(fn: Func, param: Object, s: State, round: nat, b: Bound)
    requires param in s.tainted && s.tainted[param] == 0
    ensures var r := Iterate(fn, s, round);
            r.Settled? ==>
              && param in r.state.tainted && r.state.tainted[param] == 0 && !r.state.leaked
              && (b.result in r.state.results ==> b.result in s.results || b.result < NUM_RESULTS)
              && (Quiet.Quiet(r.state, b) ==> SolvesAll(fn.results, r.state.tainted, b, fn.body))
    decreases MAX_ROUNDS + 1 - round
  {
    if round <= MAX_ROUNDS {
      var t := Round(fn, s);
      Quiet.WalkAllSolves(fn.results, fn.body, s.(changed := false), b, param);
      if t.changed && !t.leaked { SettledSolves(fn, param, t, round + 1, b); }
    }
  }

  lemma {:induction false} SettledQuiet(fn: Func, s: State, round: nat)
    ensures var r := Iterate(fn, s, round); r.Settled? ==> !r.state.changed
    decreases MAX_ROUNDS + 1 - round
  {
    if round <= MAX_ROUNDS { SettledQuiet(fn, Round(fn, s), round + 1); }
  }

  /** A settled state solves the constraints with any depths that claim no less
      than it recorded. */
  lemma SettledIsSolution(fn: Func, param: Object, R: Depths)
    requires var r := Iterate(fn, Start(param), 0);
             r.Settled? && forall i :: i in r.state.results ==> i in R && R[i] <= r.state.results[i]
    ensures Solution(fn, param, Iterate(fn, Start(param), 0).state.tainted, R)
  {
    var t := Iterate(fn, Start(param), 0).state;
    SettledQuiet(fn, Start(param), 0);
    forall i: nat ensures SolvesAll(fn.results, t.tainted, At(R, i), fn.body) {
      SettledSolves(fn, param, Start(param), 0, At(R, i));
    }
    SettledSolves(fn, param, Start(param), 0, At(R, 0));
  }

  /** A round from below a solution stays below it, and reports no change at
      the solution itself. */
  lemma RoundBelow(fn: Func, s: State, T: Taints, R: Depths)
    requires forall i: nat :: SolvesAll(fn.results, T, At(R, i), fn.body)
    requires !s.leaked && ClaimsMore(T, R, s.tainted, s.results)
    ensures var t := Round(fn, s);
            !t.leaked && ClaimsMore(T, R, t.tainted, t.results) && (s.tainted == T ==> !t.changed)
  {
    var s0, t := s.(changed := false), Round(fn, s);
    forall i: nat ensures Least.Under(t, T, At(R, i)) && Least.Still(s0, t, T) {
      Least.WalkAllBelow(fn.results, fn.body, s0, T, At(R, i));
    }
    assert Least.Under(t, T, At(R, 0)) && Least.Still(s0, t, T);
    forall i | i in t.results ensures i in R && R[i] <= t.results[i] {
      assert Least.Under(t, T, At(R, i));
    }
  }

  lemma {:induction false} IterateBelow(fn: Func, s: State, round: nat, T: Taints, R: Depths)
    requires forall i: nat :: SolvesAll(fn.results, T, At(R, i), fn.body)
    requires !s.leaked && ClaimsMore(T, R, s.tainted, s.results)
    ensures var r := Iterate(fn, s, round);
            !r.Leaked? && (r.Settled? ==> ClaimsMore(T, R, r.state.tainted, r.state.results))
    decreases MAX_ROUNDS + 1 - round
  {
    if round <= MAX_ROUNDS {
      RoundBelow(fn, s, T, R);
      if Round(fn, s).changed { IterateBelow(fn, Round(fn, s), round + 1, T, R); }
    }
  }

  // ----- How many rounds it takes -----

  /** The variables the state has not at the depth `T` gives them. */
  function Unsettled(s: State, T: Taints): set<Object> {
    set o | o in T && !(o in s.tainted && s.tainted[o] == T[o])
  }

  /** Those of them that `T` may give too shallow a depth: all at `d`, the
      least depth of any, and everything left when `d` is the last depth. */
  function Late(s: State, T: Taints, d: nat): set<Object> {
    set o | o in Unsettled(s, T) && (T[o] == d || d == MAX_DEREFS)
  }

  function Deepened(s: State, T: Taints, d: nat): Taints {
    map o | o in T && (o !in Late(s, T, d) || d < MAX_DEREFS) :: if o in Late(s, T, d) then d + 1 else T[o]
  }

  /** `T` is below the state and what the state lacks is at `d` or deeper. */
  ghost predicate Reached(s: State, T: Taints, d: nat) {
    && (forall o {:trigger o in s.tainted} :: o in s.tainted ==> o in T && T[o] <= s.tainted[o] <= MAX_DEREFS)
    && (forall o {:trigger o in Unsettled(s, T)} :: o in Unsettled(s, T) ==> T[o] >= d)
    && (d > MAX_DEREFS ==> Unsettled(s, T) == {})
  }

  lemma DeepenedReached(s: State, T: Taints, d: nat)
    requires Reached(s, T, d) && d <= MAX_DEREFS
    ensures var up := Deepened(s, T, d);
            && Rounds.Near(s, Rounds.Raise(T, up, d))
            && Reached(s, up, d + 1)
            && Unsettled(s, up) <= Unsettled(s, T)
  {
    var up := Deepened(s, T, d);
    forall o | o in up && up[o] <= d ensures o in s.tainted && s.tainted[o] <= up[o] {
      assert o !in Late(s, T, d);
      assert o !in Unsettled(s, T);
    }
    forall o | o in s.tainted ensures o in up && up[o] <= s.tainted[o] {
      if o in Late(s, T, d) { assert o in Unsettled(s, T); }
    }
    forall o | o in Unsettled(s, up) ensures o in Unsettled(s, T) && up[o] >= d + 1 && d < MAX_DEREFS {
      if o !in Late(s, T, d) { assert o in Unsettled(s, T); }
    }
  }

  lemma RoundGrows(fn: Func, s: State)
    ensures var t := Round(fn, s);
            forall o {:trigger o in s.tainted} :: o in s.tainted ==> o in t.tainted && t.tainted[o] <= s.tainted[o]
  {
    forall o | o in s.tainted ensures var t := Round(fn, s); o in t.tainted && t.tainted[o] <= s.tainted[o] {
      Quiet.WalkAllSolves(fn.results, fn.body, s.(changed := false), Bound(0, None), o);
    }
  }

  lemma RoundLifts(fn: Func, s: State, T: Taints, R: Depths, k: Rounds.Raise)
    requires forall i: nat :: SolvesAll(fn.results, T, At(R, i), fn.body)
    requires Rounds.Near(s, k) && k.base == T
    ensures var t := Round(fn, s);
            Rounds.Near(t, k) && (Rounds.Low(t, k) ==> forall i: nat :: SolvesAll(fn.results, k.up, At(R, i), fn.body))
  {
    var s0 := s.(changed := false);
    Rounds.WalkAllLifts(fn.results, fn.body, s0, k, At(R, 0));
    forall i: nat ensures Rounds.Low(Round(fn, s), k) ==> SolvesAll(fn.results, k.up, At(R, i), fn.body) {
      Rounds.WalkAllLifts(fn.results, fn.body, s0, k, At(R, i));
    }
  }

  /** A round gives one more variable the depth `T` has for it, or `T` is not
      the least solution. */
  lemma RoundSettlesOne(fn: Func, s: State, T: Taints, R: Depths, d: nat)
    requires forall i: nat :: SolvesAll(fn.results, T, At(R, i), fn.body)
    requires !s.leaked && ClaimsMore(T, R, s.tainted, s.results)
    requires Reached(s, T, d) && d <= MAX_DEREFS
    ensures var t, up := Round(fn, s), Deepened(s, T, d);
            && Reached(t, T, 0) && Unsettled(t, T) <= Unsettled(s, T)
            && (Unsettled(t, T) < Unsettled(s, T) || forall i: nat :: SolvesAll(fn.results, up, At(R, i), fn.body))
  {
    var t := Round(fn, s);
    var k := Rounds.Raise(T, Deepened(s, T, d), d);
    DeepenedReached(s, T, d);
    RoundBelow(fn, s, T, R);
    RoundGrows(fn, s);
    RoundLifts(fn, s, T, R, k);
    if !Rounds.Low(t, k) {
      var o :| o in t.tainted && o in T && !k.Kept(o) && t.tainted[o] <= d;
      assert o in Late(s, T, d) && o !in Unsettled(t, T);
    }
  }

  lemma AllSettled(s: State, T: Taints)
    requires Reached(s, T, 0) && Unsettled(s, T) == {}
    ensures s.tainted == T
  {
    forall o | o in T ensures o in s.tainted && s.tainted[o] == T[o] {
      assert o !in Unsettled(s, T);
    }
  }

  /** Below a solution the loop settles before its bound, if the variables the
      state lacks are no more than the rounds left. */
  lemma {:induction false} SettlesInTime(fn: Func, s: State, round: nat, T: Taints, R: Depths, d: nat)
    requires forall i: nat :: SolvesAll(fn.results, T, At(R, i), fn.body)
    requires !s.leaked && ClaimsMore(T, R, s.tainted, s.results)
    requires Reached(s, T, d) && d <= MAX_DEREFS + 1
    requires round + |Unsettled(s, T)| <= MAX_ROUNDS
    ensures Iterate(fn, s, round).Settled?
    decreases MAX_ROUNDS - round, MAX_DEREFS + 1 - d
  {
    var t := Round(fn, s);
    RoundBelow(fn, s, T, R);
    if Unsettled(s, T) == {} {
      AllSettled(s, T);
    } else {
      var up := Deepened(s, T, d);
      RoundSettlesOne(fn, s, T, R, d);
      if Unsettled(t, T) < Unsettled(s, T) {
        Fewer(Unsettled(t, T), Unsettled(s, T));
        if t.changed { SettlesInTime(fn, t, round + 1, T, R, 0); }
      } else {
        DeepenedReached(s, T, d);
        NoMore(Unsettled(s, up), Unsettled(s, T));
        SettlesInTime(fn, s, round, up, R, d + 1);
      }
    }
  }

  lemma NoMore<A>(a: set<A>, b: set<A>)
    requires a <= b
    ensures |a| <= |b|
  {
    assert b == a + (b - a);
  }

  lemma Fewer<A>(a: set<A>, b: set<A>)
    requires a < b
    ensures |a| < |b|
  {
    NoMore(a, b);
    assert b == a + (b - a) && b - a != {};
  }

  /** The bound on the rounds is not met by a body whose constraints have a
      solution that taints no more variables than there are rounds. */
  lemma FewVariablesSettle(fn: Func, param: Object, T: Taints, R: Depths)
    requires Solution(fn, param, T, R) && |T| <= MAX_ROUNDS + 1
    ensures Iterate(fn, Start(param), 0).Settled?
  {
    var s := Start(param);
    assert Unsettled(s, T) <= T.Keys - {param};
    NoMore(Unsettled(s, T), T.Keys - {param});
    SettlesInTime(fn, s, 0, T, R, 0);
  }

  // ----- The least solution -----

  /** The loop ends at the least solution, and at a leak only when the
      constraints have none. It runs out of rounds only when no solution taints
      as few variables as there are rounds. */
  lemma LeastSolution(fn: Func, param: Object)
    ensures var r := Iterate(fn, Start(param), 0);
            && (r.Settled? ==>
                  && Solution(fn, param, r.state.tainted, r.state.results)
                  && forall T, R :: Solution(fn, param, T, R) ==> ClaimsMore(T, R, r.state.tainted, r.state.results))
            && (r.Leaked? ==> forall T, R :: !Solution(fn, param, T, R))
            && (r.OutOfRounds? ==> forall T, R :: Solution(fn, param, T, R) ==> |T| > MAX_ROUNDS + 1)
  {
    var s := Iterate(fn, Start(param), 0);
    if s.Settled? { SettledIsSolution(fn, param, s.state.results); }
    forall T, R | Solution(fn, param, T, R)
      ensures var r := Iterate(fn, Start(param), 0);
              && !r.Leaked? && (r.Settled? ==> ClaimsMore(T, R, r.state.tainted, r.state.results))
              && (r.OutOfRounds? ==> |T| > MAX_ROUNDS + 1)
    {
      IterateBelow(fn, Start(param), 0, T, R);
      if |T| <= MAX_ROUNDS + 1 { FewVariablesSettle(fn, param, T, R); }
    }
  }

  lemma {:induction false} SolvesEach(rs: seq<Object>, T: Taints, b: Bound, ns: seq<Node>)
    ensures SolvesAll(rs, T, b, ns) <==> forall n :: n in ns ==> Solves(rs, T, b, n)
  {
    if ns != [] {
      SolvesEach(rs, T, b, ns[1..]);
      assert ns[0] in ns && forall n :: n in ns ==> n == ns[0] || n in ns[1..];
      assert forall n :: n in ns[1..] ==> n in ns;
    }
  }

  lemma SameStatements(fn: Func, body: seq<Node>, param: Object, T: Taints, R: Depths)
    requires forall n :: n in fn.body <==> n in body
    ensures Solution(fn, param, T, R) <==> Solution(fn.(body := body), param, T, R)
  {
    forall i: nat
      ensures SolvesAll(fn.results, T, At(R, i), fn.body) <==> SolvesAll(fn.results, T, At(R, i), body)
    {
      SolvesEach(fn.results, T, At(R, i), fn.body);
      SolvesEach(fn.results, T, At(R, i), body);
    }
  }

  lemma SameMaps<K>(A: map<K, nat>, B: map<K, nat>)
    requires forall k :: k in A ==> k in B && B[k] <= A[k]
    requires forall k :: k in B ==> k in A && A[k] <= B[k]
    ensures A == B
  {
  }

  /** Neither the order of the statements nor their repetition decides the
      answer: two bodies of the same statements settle alike, one cannot leak
      where the other settles, and it settles too unless there are more
      variables than rounds. */
  lemma OrderIsIrrelevant(fn: Func, body: seq<Node>, param: Object)
    requires forall n :: n in fn.body <==> n in body
    ensures var r, r' := Iterate(fn, Start(param), 0), Iterate(fn.(body := body), Start(param), 0);
            && (r.Settled? ==> !r'.Leaked? && (|r.state.tainted| <= MAX_ROUNDS + 1 ==> r'.Settled?))
            && (r.Settled? && r'.Settled? ==> r.state.tainted == r'.state.tainted && r.state.results == r'.state.results)
  {
    var r, r' := Iterate(fn, Start(param), 0), Iterate(fn.(body := body), Start(param), 0);
    LeastSolution(fn, param);
    LeastSolution(fn.(body := body), param);
    if r.Settled? {
      SameStatements(fn, body, param, r.state.tainted, r.state.results);
      if r'.Settled? {
        SameStatements(fn, body, param, r'.state.tainted, r'.state.results);
        SameMaps(r.state.tainted, r'.state.tainted);
        SameMaps(r.state.results, r'.state.results);
      }
    }
  }

  // ----- The note -----

  /** The position of a result, unless a note cannot name it. */
  function ResultIndex(rs: seq<Object>, o: Object): Option<nat> { IndexFrom(rs, o, 0) }

  function IndexFrom(rs: seq<Object>, o: Object, i: nat): (r: Option<nat>)
    requires i <= |rs|
    ensures r.Some? ==> i <= r.value < |rs| && r.value < NUM_RESULTS && rs[r.value] == o
    decreases |rs| - i
  {
    if i == |rs| then None
    else if rs[i] == o then if i >= NUM_RESULTS then None else Some(i)
    else IndexFrom(rs, o, i + 1)
  }

  /** Every variable the walk tainted dies with the frame, or is a result a
      note can name. */
  predicate Describable(rs: seq<Object>, T: Taints) {
    forall o <- T :: !OutlivesFrame(o) && (o.Object? && o.cls.ClassResult? ==> ResultIndex(rs, o).Some?)
  }

  /** The results that tainted named results add to those of the returns. */
  function NamedIn(rs: seq<Object>, T: Taints): set<nat> {
    set i: nat | i < |rs| && rs[i] in T && rs[i].Object? && rs[i].cls.ClassResult? && ResultIndex(rs, rs[i]) == Some(i) :: i
  }

  /** The depths `R` of the returns and those `T` gives the named results `N`. */
  function Merge(rs: seq<Object>, T: Taints, R: Depths, N: set<nat>): (d: Depths)
    requires forall i :: i in N ==> i < |rs| && rs[i] in T
    ensures d.Keys == R.Keys + N
  {
    map i | i in R.Keys + N ::
      if i !in R then T[rs[i]] else if i !in N || R[i] <= T[rs[i]] then R[i] else T[rs[i]]
  }

  /** Every result the value reaches, with the shortest count to it. */
  function Delivered(rs: seq<Object>, s: State): (d: Depths)
    ensures forall i :: i in d <==> i in s.results || i in NamedIn(rs, s.tainted)
  {
    Merge(rs, s.tainted, s.results, NamedIn(rs, s.tainted))
  }

  /** A flow to each result in `d`, at no dereferences. */
  function ResultsNote(d: set<nat>): Flows {
    seq(WIDTH, k requires 0 <= k < WIDTH => if k >= RESULT0 && k - RESULT0 in d then 1 else 0)
  }

  function Conclude(rs: seq<Object>, s: State): Option<seq<Byte>> {
    var d := Delivered(rs, s);
    if !Describable(rs, s.tainted) then None
    else if exists i <- d :: d[i] != 0 then None
    else Some(Encoded(ResultsNote(d.Keys)))
  }

  /** What analyse returns: a note, or nothing proved. */
  function Analyse(fn: Func, param: Object): Option<seq<Byte>> {
    if param.NoObject? || param.typ.NoType? || param.escapes then None else
    var r := Iterate(fn, Start(param), 0);
    if r.Settled? then Conclude(fn.results, r.state) else None
  }

  // ----- What the note is worth -----

  /** Each declared result is an object of its own. */
  predicate Declared(fn: Func) {
    && (forall i :: 0 <= i < |fn.results| && fn.results[i].Object? ==> fn.results[i].cls.ClassResult?)
    && (forall i, j :: 0 <= i < j < |fn.results| && fn.results[i].Object? ==> fn.results[i] != fn.results[j])
  }

  lemma {:induction false} IndexOf(rs: seq<Object>, i: nat, k: nat)
    requires k <= i < |rs| && rs[i].Object?
    requires forall i, j :: 0 <= i < j < |rs| && rs[i].Object? ==> rs[i] != rs[j]
    ensures IndexFrom(rs, rs[i], k) == if i >= NUM_RESULTS then None else Some(i)
    decreases i - k
  {
    if k < i {
      assert rs[k] != rs[i] by { if rs[k].Object? { assert k < i; } }
      IndexOf(rs, i, k + 1);
    }
  }

  /** The claim on result i, as a reader of the note takes it. */
  function ResultClaim(note: seq<Byte>, i: nat): int {
    if i < NUM_RESULTS then Count(Parse(note), RESULT0 + i) else -1
  }

  /** An event keeps to the note: a marked reference leaves only by a result
      the note names at no dereferences, and is not left in a cell. */
  predicate Honest(note: seq<Byte>, e: Event) {
    match e
    case Returned(i, v) => v ==> ResultClaim(note, i) == 0
    case _ => !e.carried
  }

  /** The one way out the walk does not look at: a result that the note names
      and that lives in a heap cell, where the return leaves the value. */
  predicate LeftInCell(fn: Func, note: seq<Byte>, e: Event) {
    && e.Kept? && e.result < |fn.results|
    && fn.results[e.result].Object? && fn.results[e.result].escapes && ResultClaim(note, e.result) == 0
  }

  lemma RunSound(fn: Func, param: Object, choices: seq<nat>, T: Taints, b: Bound)
    requires param in T && SolvesAll(fn.results, T, b, fn.body) && Frame(fn.results, T, b)
    ensures Inv(fn.results, T, b, Run(fn, param, choices))
  {
    ExecListSound(fn.results, fn.body, 0, T, b, Machine({param}, {}, false, [], choices, Running));
  }

  /** The solution behind a note, as the run's invariant needs it. */
  lemma NoteFrame(fn: Func, param: Object, i: nat)
    requires Declared(fn) && Analyse(fn, param).Some?
    ensures var s := Iterate(fn, Start(param), 0).state;
            var b := At(Delivered(fn.results, s), i);
            && param in s.tainted
            && SolvesAll(fn.results, s.tainted, b, fn.body)
            && Frame(fn.results, s.tainted, b)
  {
    var s := Iterate(fn, Start(param), 0).state;
    var rs := fn.results;
    SettledIsSolution(fn, param, Delivered(rs, s));
    if i < |rs| && rs[i] in s.tainted && rs[i].Object? { IndexOf(rs, i, 0); }
  }

  function EventResult(e: Event): nat { if e.Returned? || e.Kept? then e.result else 0 }

  lemma EventIsClean(fn: Func, param: Object, choices: seq<nat>, k: nat)
    requires Declared(fn) && Analyse(fn, param).Some?
    requires k < |Run(fn, param, choices).trace|
    ensures var e := Run(fn, param, choices).trace[k];
            Clean(fn.results, At(Delivered(fn.results, Iterate(fn, Start(param), 0).state), EventResult(e)), e)
  {
    var s := Iterate(fn, Start(param), 0).state;
    var i := EventResult(Run(fn, param, choices).trace[k]);
    NoteFrame(fn, param, i);
    RunSound(fn, param, choices, s.tainted, At(Delivered(fn.results, s), i));
  }

  /** The note reads back as the flows to the delivered results and no other. */
  lemma NoteNames(fn: Func, param: Object, i: nat)
    requires Analyse(fn, param).Some?
    ensures var l := Parse(Analyse(fn, param).value);
            Count(l, HEAP) == -1 && Count(l, MUTATOR) == -1 && Count(l, CALLEE) == -1
    ensures ResultClaim(Analyse(fn, param).value, i)
            == if i in Delivered(fn.results, Iterate(fn, Start(param), 0).state) then 0 else -1
  {
    var s := Iterate(fn, Start(param), 0).state;
    SettledSolves(fn, param, Start(param), 0, At(s.results, i));
    ParseEncoded(ResultsNote(Delivered(fn.results, s).Keys));
  }

  /** Soundness. When analyse proves a note, every run of the body keeps to it:
      no value obtained from the argument is stored beyond the frame, written
      through, called, passed, boxed or allocated, none is under an operation
      the walk does not name, and a result that receives one is a result the
      note names. The exception is a named result's own heap cell. */
  lemma NoteIsSound(fn: Func, param: Object, choices: seq<nat>, k: nat)
    requires Declared(fn) && Analyse(fn, param).Some?
    requires k < |Run(fn, param, choices).trace|
    ensures var note, e := Analyse(fn, param).value, Run(fn, param, choices).trace[k];
            Honest(note, e) || LeftInCell(fn, note, e)
  {
    EventIsClean(fn, param, choices, k);
    NoteNames(fn, param, EventResult(Run(fn, param, choices).trace[k]));
  }

  /** So a note is true of every run when no result it names lives in a cell. */
  lemma NoteIsTrue(fn: Func, param: Object, choices: seq<nat>)
    requires Declared(fn) && Analyse(fn, param).Some?
    requires forall i :: 0 <= i < |fn.results| && fn.results[i].Object? && fn.results[i].escapes ==>
               ResultClaim(Analyse(fn, param).value, i) != 0
    ensures forall e <- Run(fn, param, choices).trace :: Honest(Analyse(fn, param).value, e)
  {
    var run := Run(fn, param, choices);
    forall e | e in run.trace ensures Honest(Analyse(fn, param).value, e) {
      var k :| 0 <= k < |run.trace| && run.trace[k] == e;
      NoteIsSound(fn, param, choices, k);
    }
  }

  /** In particular of every run of a function none of whose results lives in
      a cell, which a caller can see on the declaration. */
  lemma NoResultInCell(fn: Func, param: Object, choices: seq<nat>)
    requires Declared(fn) && forall i :: 0 <= i < |fn.results| && fn.results[i].Object? ==> !fn.results[i].escapes
    ensures Analyse(fn, param).Some? ==> forall e <- Run(fn, param, choices).trace :: Honest(Analyse(fn, param).value, e)
  {
    if Analyse(fn, param).Some? { NoteIsTrue(fn, param, choices); }
  }

  // ----- The exception is real -----

  const PTR_TYPE: Type := Type(Ptr, true, false)
  const ARGUMENT: Object := Object(0, PTR_TYPE, ClassParam, false)
  const CAPTURED: Object := Object(1, PTR_TYPE, ClassResult, true)

  function Variable(o: Object): Node { Node(OLocal, PTR_TYPE, o, NoNode, NoNode, [], [], [], [], []) }

  function Return(o: Object): Node { Node(OReturn, NoType, NoObject, NoNode, NoNode, [Variable(o)], [], [], [], []) }

  /** A deferred literal that captures `o`, which moves `o` to a heap cell. */
  function Captures(o: Object): Node {
    Node(OOther(0), NoType, NoObject, NoNode, NoNode, [Variable(o)], [], [], [], [])
  }

  /** func F(p *T) (r *T) { defer func() { sink = r }(); return p } */
  const RETURNS: Func := Func([ARGUMENT], [CAPTURED], [Captures(CAPTURED), Return(ARGUMENT)])

  /** The walk proves that p flows to result 0 and nowhere else, and the run
      leaves p's value in the cell of r. */
  lemma KeptByAnUndetectedCell()
    ensures Declared(RETURNS)
    ensures Analyse(RETURNS, ARGUMENT) == Some(PREFIX + [0, 0, 0, 1])
    ensures Kept(0, true) in Run(RETURNS, ARGUMENT, []).trace
  {
    KeptByTheRun();
    var s := Start(ARGUMENT);
    RoundOfTheWalk();
    assert Iterate(RETURNS, s, 0) == Settled(s.(results := map[0 := 0]));
    NoteOfTheWalk();
  }

  lemma NoteOfTheWalk()
    ensures Conclude(RETURNS.results, Start(ARGUMENT).(results := map[0 := 0])) == Some(PREFIX + [0, 0, 0, 1])
  {
    var t := Start(ARGUMENT).(results := map[0 := 0]);
    var rs := RETURNS.results;
    assert NamedIn(rs, t.tainted) == {};
    assert Delivered(rs, t) == map[0 := 0];
    assert Delivered(rs, t).Keys == {0};
    assert Describable(rs, t.tainted);
    var l: Flows := ResultsNote({0});
    assert l[3] == 1 && l == [0, 0, 0, 1, 0, 0, 0, 0];
    assert |Trimmed(l)| == 4;
    assert Trimmed(l) == [0, 0, 0, 1];
  }

  lemma CaptureNames()
    ensures !Names(Captures(CAPTURED), {ARGUMENT}) && Objects(Captures(CAPTURED)) == {CAPTURED}
  {
    var v := Variable(CAPTURED);
    assert !Names(v, {ARGUMENT}) && Objects(v) == {CAPTURED};
    assert [v][1..] == [];
    assert !NamesAny([], {ARGUMENT}) && !NamesAny([v], {ARGUMENT}) && !Names(NoNode, {ARGUMENT});
    assert ObjectsAll([v]) == {CAPTURED};
    assert Captures(CAPTURED).args == [v];
    assert !NamesIn(Captures(CAPTURED), {ARGUMENT});
  }

  lemma RoundOfTheWalk()
    ensures var s := Start(ARGUMENT); Round(RETURNS, s) == s.(results := map[0 := 0])
  {
    var s, p, ret, cap := Start(ARGUMENT), Variable(ARGUMENT), Return(ARGUMENT), Captures(CAPTURED);
    var rs := RETURNS.results;
    CaptureNames();
    assert s.tainted.Keys == {ARGUMENT};
    assert Walk(rs, cap, s) == (s, NoRef);
    assert Walk(rs, p, s) == (s, Derived(0));
    var t := s.(results := map[0 := 0]);
    assert WalkResults(rs, [p], 0, s) == t;
    assert Walk(rs, ret, s) == (t, NoRef);
    assert WalkAll(rs, [ret], s) == t;
    assert [cap, ret][1..] == [ret];
    assert WalkAll(rs, [cap, ret], s) == t;
  }

  /** The deferred literal comes first: it holds nothing marked, and lets a
      pointer reach r. */
  lemma CaptureRuns(m: Machine)
    requires m == Machine({ARGUMENT}, {}, false, [], [], Running)
    ensures Eval(RETURNS.results, Captures(CAPTURED), m).0 == Machine({ARGUMENT}, {CAPTURED}, false, [Used(false)], [], Running)
  {
    var rs, cap := RETURNS.results, Captures(CAPTURED);
    CaptureNames();
    assert {} + {CAPTURED} == {CAPTURED};
    var after := Machine({ARGUMENT}, {CAPTURED}, false, [Used(false)], [], Running);
    assert m.trace + [Used(false)] == [Used(false)];
    assert Anything(cap, m).0 == after;
    assert ExecList(rs, [], 0, m) == m;
    assert Exec(rs, cap, m) == after;
    assert Act(rs, cap, m) == (after, false);
  }

  lemma KeptByTheRun()
    ensures Kept(0, true) in Run(RETURNS, ARGUMENT, []).trace
  {
    var rs, p, ret, cap := RETURNS.results, Variable(ARGUMENT), Return(ARGUMENT), Captures(CAPTURED);
    var m0 := Machine({ARGUMENT}, {}, false, [], [], Running);
    var m := Machine({ARGUMENT}, {CAPTURED}, false, [Used(false)], [], Running);
    CaptureRuns(m0);
    ReturnRuns(m);
    assert RETURNS.body == [cap, ret];
    assert ExecFrom(rs, [cap, ret], 1, m) == ExecFrom(rs, [cap, ret], 2, Eval(rs, ret, m).0) == Eval(rs, ret, m).0;
    assert ExecFrom(rs, [cap, ret], 0, m0) == ExecFrom(rs, [cap, ret], 1, m);
    var end := Eval(rs, ret, m).0;
    assert ExecList(rs, [cap, ret], 0, m0) == end;
    assert end.trace[2] == Kept(0, true);
  }

  lemma ReturnRuns(m: Machine)
    requires m == Machine({ARGUMENT}, {CAPTURED}, false, [Used(false)], [], Running)
    ensures var end := Eval(RETURNS.results, Return(ARGUMENT), m).0;
            end.mode.Halted? && end.trace == [Used(false), Returned(0, true), Kept(0, true)]
  {
    var rs, p, ret := RETURNS.results, Variable(ARGUMENT), Return(ARGUMENT);
    assert ExecList(rs, [], 0, m) == m;
    assert Eval(rs, p, m) == (m, true);
    assert Values(rs, [], m) == (m, []) && [true] + [] == [true];
    assert Values(rs, [p], m) == (m, [true]);
    var d := Deliver(rs, 0, true, m);
    assert d.trace == [Used(false), Returned(0, true), Kept(0, true)];
    assert DeliverAll(rs, 0, [true], m) == d;
    assert ExecReturn(rs, ret, m) == d.(mode := Halted);
    assert Act(rs, ret, m) == (ExecReturn(rs, ret, m), false);
    assert ExecList(rs, ret.init, 0, m) == m;
    assert Eval(rs, ret, m).0 == d.(mode := Halted);
  }
}

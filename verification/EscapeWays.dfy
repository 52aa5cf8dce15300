/** Ways in a graph whose edges cost loads, and the fewest loads of any. */
module EscapeWays {

  // The largest count that a byte holds.
  const LARGEST: nat := 255

  /** A count as far as a byte holds it. */
  function Sat(k: nat): nat { if k < LARGEST then k else LARGEST }

  lemma SatSum(j: nat, l: nat)
    ensures Sat(Sat(j) + l) == Sat(j + l)
  {
  }

  /** An edge from one vertex to another, with its loads. */
  type Edges<!V> = (V, V, nat) -> bool

  datatype Hop<V> = Hop(to: V, loads: nat)

  function EndOf<V>(start: V, hops: seq<Hop<V>>): V { if hops == [] then start else hops[|hops| - 1].to }

  function Loads<V>(hops: seq<Hop<V>>): nat { if hops == [] then 0 else Loads(hops[..|hops| - 1]) + hops[|hops| - 1].loads }

  /** Each hop is an edge from where the last one led. */
  ghost predicate Leads<V>(E: Edges<V>, start: V, hops: seq<Hop<V>>) {
    hops == [] ||
      var front, last := hops[..|hops| - 1], hops[|hops| - 1];
      Leads(E, start, front) && E(EndOf(start, front), last.to, last.loads)
  }

  ghost predicate Way<V>(E: Edges<V>, start: V, hops: seq<Hop<V>>, v: V, k: nat) {
    Leads(E, start, hops) && EndOf(start, hops) == v && Loads(hops) == k
  }

  ghost predicate Reaches<V(!new)>(E: Edges<V>, start: V, v: V, k: nat) { exists hops :: Way(E, start, hops, v, k) }

  lemma ReachesStart<V(!new)>(E: Edges<V>, start: V)
    ensures Reaches(E, start, start, 0)
  {
    assert Way(E, start, [], start, 0);
  }

  lemma ReachesNext<V(!new)>(E: Edges<V>, start: V, v: V, j: nat, w: V, l: nat)
    requires Reaches(E, start, v, j) && E(v, w, l)
    ensures Reaches(E, start, w, j + l)
  {
    var hops :| Way(E, start, hops, v, j);
    var more := hops + [Hop(w, l)];
    assert more[..|more| - 1] == hops && more[|more| - 1] == Hop(w, l);
    assert Way(E, start, more, w, j + l);
  }

  /** A map that no edge goes below has no more than the loads of any way. */
  ghost predicate Closed<V(!new)>(E: Edges<V>, start: V, T: map<V, nat>) {
    && start in T && T[start] == 0
    && forall v, w, l {:trigger E(v, w, l)} :: v in T && E(v, w, l) ==> w in T && T[w] <= Sat(T[v] + l)
  }

  lemma {:induction false} WayIsAbove<V(!new)>(E: Edges<V>, start: V, T: map<V, nat>, hops: seq<Hop<V>>)
    requires Closed(E, start, T) && Leads(E, start, hops)
    ensures EndOf(start, hops) in T && T[EndOf(start, hops)] <= Sat(Loads(hops))
  {
    if hops != [] { WayIsAbove(E, start, T, hops[..|hops| - 1]); }
  }

  lemma ReachesIsAbove<V(!new)>(E: Edges<V>, start: V, T: map<V, nat>, v: V, k: nat)
    requires Closed(E, start, T) && Reaches(E, start, v, k)
    ensures v in T && T[v] <= Sat(k)
  {
    var hops :| Way(E, start, hops, v, k);
    WayIsAbove(E, start, T, hops);
  }

  // ----- The fewest loads -----

  /** Some way has no more loads than `d`. */
  ghost predicate Within<V(!new)>(E: Edges<V>, start: V, v: V, d: nat) {
    exists k :: Reaches(E, start, v, k) && Sat(k) <= d
  }

  ghost function Fewest<V(!new)>(E: Edges<V>, start: V, v: V, d: nat): (r: nat)
    requires d <= LARGEST && Within(E, start, v, LARGEST)
    ensures d <= r <= LARGEST && Within(E, start, v, r)
    decreases LARGEST - d
  {
    if Within(E, start, v, d) then d else Fewest(E, start, v, d + 1)
  }

  lemma {:induction false} FewestIsLeast<V(!new)>(E: Edges<V>, start: V, v: V, d: nat, e: nat)
    requires d <= e <= LARGEST && Within(E, start, v, e) && Within(E, start, v, LARGEST)
    ensures Fewest(E, start, v, d) <= e
    decreases e - d
  {
    if d < e && !Within(E, start, v, d) { FewestIsLeast(E, start, v, d + 1, e); }
  }

  ghost function Shortest<V(!new)>(E: Edges<V>, start: V, vertices: set<V>): map<V, nat> {
    map v | v in vertices && Within(E, start, v, LARGEST) :: Fewest(E, start, v, 0)
  }

  lemma ShortestHas<V(!new)>(E: Edges<V>, start: V, vertices: set<V>, v: V, k: nat)
    requires Reaches(E, start, v, k) && v in vertices
    ensures v in Shortest(E, start, vertices) && Shortest(E, start, vertices)[v] <= Sat(k)
  {
    assert Within(E, start, v, LARGEST) && Within(E, start, v, Sat(k));
    FewestIsLeast(E, start, v, 0, Sat(k));
  }

  lemma ShortestIsReached<V(!new)>(E: Edges<V>, start: V, vertices: set<V>, v: V) returns (k: nat)
    requires v in Shortest(E, start, vertices)
    ensures Reaches(E, start, v, k) && Sat(k) == Shortest(E, start, vertices)[v] && v in vertices
  {
    k :| Reaches(E, start, v, k) && Sat(k) <= Shortest(E, start, vertices)[v];
    ShortestHas(E, start, vertices, v, k);
  }

  /** No edge goes below the fewest loads. */
  lemma ShortestIsClosed<V(!new)>(E: Edges<V>, start: V, vertices: set<V>)
    requires start in vertices && forall v, w, l {:trigger E(v, w, l)} :: E(v, w, l) ==> w in vertices
    ensures Closed(E, start, Shortest(E, start, vertices))
  {
    var T := Shortest(E, start, vertices);
    ReachesStart(E, start);
    ShortestHas(E, start, vertices, start, 0);
    forall v, w, l | v in T && E(v, w, l) ensures w in T && T[w] <= Sat(T[v] + l) {
      var j := ShortestIsReached(E, start, vertices, v);
      ReachesNext(E, start, v, j, w, l);
      ShortestHas(E, start, vertices, w, j + l);
      SatSum(j, l);
    }
  }

  // ----- Exits -----

  /** An exit from a vertex, by its number, with its loads. */
  type Exits<!V> = (V, nat, nat) -> bool

  ghost predicate GetsOutBy<V(!new)>(E: Edges<V>, X: Exits<V>, start: V, v: V, j: nat, i: nat, k: nat) {
    Reaches(E, start, v, j) && j <= k && X(v, i, k - j)
  }

  /** A way leads out by exit i. */
  ghost predicate GetsOut<V(!new)>(E: Edges<V>, X: Exits<V>, start: V, i: nat, k: nat) {
    exists v, j :: GetsOutBy(E, X, start, v, j, i, k)
  }

  ghost predicate OutWithin<V(!new)>(E: Edges<V>, X: Exits<V>, start: V, i: nat, d: nat) {
    exists k :: GetsOut(E, X, start, i, k) && Sat(k) <= d
  }

  ghost function FewestOut<V(!new)>(E: Edges<V>, X: Exits<V>, start: V, i: nat, d: nat): (r: nat)
    requires d <= LARGEST && OutWithin(E, X, start, i, LARGEST)
    ensures d <= r <= LARGEST && OutWithin(E, X, start, i, r)
    decreases LARGEST - d
  {
    if OutWithin(E, X, start, i, d) then d else FewestOut(E, X, start, i, d + 1)
  }

  lemma {:induction false} FewestOutIsLeast<V(!new)>(E: Edges<V>, X: Exits<V>, start: V, i: nat, d: nat, e: nat)
    requires d <= e <= LARGEST && OutWithin(E, X, start, i, e) && OutWithin(E, X, start, i, LARGEST)
    ensures FewestOut(E, X, start, i, d) <= e
    decreases e - d
  {
    if d < e && !OutWithin(E, X, start, i, d) { FewestOutIsLeast(E, X, start, i, d + 1, e); }
  }

  ghost function ShortestOut<V(!new)>(E: Edges<V>, X: Exits<V>, start: V, n: nat): map<nat, nat> {
    map i: nat | i < n && OutWithin(E, X, start, i, LARGEST) :: FewestOut(E, X, start, i, 0)
  }

  lemma ShortestOutHas<V(!new)>(E: Edges<V>, X: Exits<V>, start: V, n: nat, i: nat, k: nat)
    requires GetsOut(E, X, start, i, k) && i < n
    ensures i in ShortestOut(E, X, start, n) && ShortestOut(E, X, start, n)[i] <= Sat(k)
  {
    assert OutWithin(E, X, start, i, LARGEST) && OutWithin(E, X, start, i, Sat(k));
    FewestOutIsLeast(E, X, start, i, 0, Sat(k));
  }

  lemma ShortestOutIsReached<V(!new)>(E: Edges<V>, X: Exits<V>, start: V, n: nat, i: nat) returns (k: nat)
    requires i in ShortestOut(E, X, start, n)
    ensures GetsOut(E, X, start, i, k) && Sat(k) == ShortestOut(E, X, start, n)[i] && i < n
  {
    k :| GetsOut(E, X, start, i, k) && Sat(k) <= ShortestOut(E, X, start, n)[i];
    ShortestOutHas(E, X, start, n, i, k);
  }

  /** No exit goes below the fewest loads. */
  lemma ShortestOutIsClosed<V(!new)>(E: Edges<V>, X: Exits<V>, start: V, vertices: set<V>, n: nat, v: V, i: nat, l: nat)
    requires v in Shortest(E, start, vertices) && X(v, i, l) && i < n
    ensures i in ShortestOut(E, X, start, n) && ShortestOut(E, X, start, n)[i] <= Sat(Shortest(E, start, vertices)[v] + l)
  {
    var j := ShortestIsReached(E, start, vertices, v);
    assert GetsOutBy(E, X, start, v, j, i, j + l);
    assert GetsOut(E, X, start, i, j + l);
    ShortestOutHas(E, X, start, n, i, j + l);
    SatSum(j, l);
  }

  ghost predicate ClosedOut<V(!new)>(X: Exits<V>, T: map<V, nat>, R: map<nat, nat>, i: nat) {
    forall v, l {:trigger X(v, i, l)} :: v in T && X(v, i, l) ==> i in R && R[i] <= Sat(T[v] + l)
  }

  lemma OutIsAbove<V(!new)>(E: Edges<V>, X: Exits<V>, start: V, T: map<V, nat>, R: map<nat, nat>, i: nat, k: nat)
    requires Closed(E, start, T) && GetsOut(E, X, start, i, k)
    requires ClosedOut(X, T, R, i)
    ensures i in R && R[i] <= Sat(k)
  {
    var v, j :| GetsOutBy(E, X, start, v, j, i, k);
    ReachesIsAbove(E, start, T, v, j);
    SatSum(j, k - j);
    assert X(v, i, k - j);
  }
}

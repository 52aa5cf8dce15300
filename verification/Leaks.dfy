/** The note of one parameter (escape/leaks.go): the shortest flow to each of
    eight destinations, and its encoding in export data.

    The functions on `seq<Byte>` specify the class. */
module Leaks {
  type Byte = x: int | 0 <= x < 256

  // The destinations: the heap, the pointer of an indirect assignment, the
  // callee of a call, and the first results.
  const HEAP: nat := 0
  const MUTATOR: nat := 1
  const CALLEE: nat := 2
  const RESULT0: nat := 3
  const WIDTH: nat := 8
  const NUM_RESULTS: nat := WIDTH - RESULT0

  const PREFIX: seq<Byte> := [0x65, 0x73, 0x63, 0x3a]  // "esc:"

  type Flows = l: seq<Byte> | |l| == WIDTH witness NOTHING

  const NOTHING: seq<Byte> := [0, 0, 0, 0, 0, 0, 0, 0]

  /** A flow to the heap at no dereferences: what the empty note says. */
  const HEAP_ONLY: seq<Byte> := [1, 0, 0, 0, 0, 0, 0, 0]

  /** The count to destination i, or -1 when nothing flows there. */
  function Count(l: Flows, i: nat): int
    requires i < WIDTH
  {
    (l[i] as int) - 1
  }

  function With(l: Flows, i: nat, derefs: int): Flows
    requires i < WIDTH
  {
    if derefs + 1 < 0 then l[HEAP := 1]
    else if derefs + 1 > 0xff then l[i := 0xff]
    else l[i := derefs + 1]
  }

  function Added(l: Flows, i: nat, derefs: int): Flows
    requires i < WIDTH
  {
    if Count(l, i) < 0 || derefs < Count(l, i) then With(l, i, derefs) else l
  }

  function Optimized(l: Flows): Flows {
    var x := Count(l, HEAP);
    seq(WIDTH, i requires 0 <= i < WIDTH => if x >= 0 && i > 0 && Count(l, i) >= x then 0 else l[i])
  }

  /** The bytes up to the last one that is not zero. */
  function Trimmed(s: seq<Byte>): (r: seq<Byte>)
    ensures |r| <= |s| && r == s[..|r|]
    ensures forall k :: |r| <= k < |s| ==> s[k] == 0
    ensures r != [] ==> r[|r| - 1] != 0
  {
    if s == [] || s[|s| - 1] != 0 then s else Trimmed(s[..|s| - 1])
  }

  function Encoded(l: Flows): seq<Byte> {
    if Count(l, HEAP) == 0 then [] else PREFIX + Trimmed(l)
  }

  /** The reader's half: a note without the prefix is a flow to the heap, and
      the bytes of any other fill the destinations from the first. */
  function Parse(s: seq<Byte>): Flows {
    if PREFIX <= s then
      seq(WIDTH, i requires 0 <= i < WIDTH => if PREFIX_LENGTH + i < |s| then s[PREFIX_LENGTH + i] else 0)
    else HEAP_ONLY
  }

  const PREFIX_LENGTH: nat := 4

  // ----- What a note says -----

  /** The claim on destination j: its count, or the heap's if that is shorter,
      because a reader must then assume the heap. */
  function Claim(l: Flows, j: nat): int
    requires j < WIDTH
  {
    var x, y := Count(l, HEAP), Count(l, j);
    if x >= 0 && (y < 0 || x < y) then x else y
  }

  /** `k` says no less than `l` about every destination. */
  ghost predicate Covers(k: Flows, l: Flows) {
    forall j: nat :: j < WIDTH && Claim(l, j) >= 0 ==> 0 <= Claim(k, j) <= Claim(l, j)
  }

  /** Adding takes the saturated minimum, and leaves the rest alone. */
  lemma AddedIsMinimum(l: Flows, i: nat, derefs: nat)
    requires i < WIDTH
    ensures var d := if derefs > 0xfe then 0xfe else derefs;
            Count(Added(l, i, derefs), i) == if 0 <= Count(l, i) < d then Count(l, i) else d
    ensures forall j: nat :: j < WIDTH && j != i ==> Added(l, i, derefs)[j] == l[j]
  {
  }

  /** The order in which flows are added does not show in the note. */
  lemma AddedCommutes(l: Flows, i: nat, d: nat, j: nat, e: nat)
    requires i < WIDTH && j < WIDTH
    ensures Added(Added(l, i, d), j, e) == Added(Added(l, j, e), i, d)
  {
    var a, b := Added(Added(l, i, d), j, e), Added(Added(l, j, e), i, d);
    forall k: nat | k < WIDTH ensures a[k] == b[k] {
      AddedIsMinimum(l, i, d);
      AddedIsMinimum(Added(l, i, d), j, e);
      AddedIsMinimum(l, j, e);
      AddedIsMinimum(Added(l, j, e), i, d);
    }
  }

  /** Adding never takes a claim back, except for the one count that no caller
      may pass: -1 erases the flow it is added to, unless the heap's flow is as
      short. */
  lemma AddedCovers(l: Flows, i: nat, derefs: int)
    requires i < WIDTH
    ensures Covers(Added(l, i, derefs), l) <==>
            derefs != -1 || Count(l, i) < 0 || (i != HEAP && 0 <= Count(l, HEAP) <= Count(l, i))
  {
    var k := Added(l, i, derefs);
    if derefs == -1 && Count(l, i) >= 0 && !(i != HEAP && 0 <= Count(l, HEAP) <= Count(l, i)) {
      assert Claim(l, i) == Count(l, i) && k[i] == 0;
      assert !(0 <= Claim(k, i) <= Claim(l, i));
    }
  }

  /** Optimizing keeps what is said about every destination, and it leaves one
      form for all notes that say the same. */
  lemma OptimizedKeepsClaims(l: Flows)
    ensures forall j: nat :: j < WIDTH ==> Claim(Optimized(l), j) == Claim(l, j)
  {
  }

  lemma OptimizedIsCanonical(l: Flows, k: Flows)
    requires forall j: nat :: j < WIDTH ==> Claim(k, j) == Claim(l, j)
    ensures Optimized(k) == Optimized(l)
  {
    assert Claim(k, HEAP) == Claim(l, HEAP);
    forall j: nat | j < WIDTH ensures Optimized(k)[j] == Optimized(l)[j] {
      assert Claim(k, j) == Claim(l, j);
    }
  }

  /** What the reader gets back: the flows themselves, or the heap alone when
      the heap is reached at no dereferences. */
  lemma ParseEncoded(l: Flows)
    ensures Parse(Encoded(l)) == if Count(l, HEAP) == 0 then HEAP_ONLY else l
  {
    var s := Encoded(l);
    if Count(l, HEAP) != 0 {
      assert s[..4] == PREFIX;
      assert PREFIX <= s;
      forall i: nat | i < WIDTH ensures Parse(s)[i] == l[i] {
      }
    }
  }

  /** The round trip is exact for every note that was optimized first. */
  lemma ParseEncodedOptimized(l: Flows)
    ensures Parse(Encoded(Optimized(l))) == Optimized(l)
  {
    ParseEncoded(Optimized(l));
    if Count(l, HEAP) == 0 { assert Optimized(l) == HEAP_ONLY; }
  }

  // ----- The array -----

  class Note {
    const bytes: array<Byte>

    ghost predicate Valid() reads this { bytes.Length == WIDTH }

    ghost function Flows(): Flows
      reads this, bytes
      requires Valid()
    {
      bytes[..]
    }

    constructor ()
      ensures Valid() && fresh(bytes) && Flows() == NOTHING
    {
      bytes := new Byte[WIDTH](_ => 0);
    }

    function Get(i: nat): (r: int)
      reads this, bytes
      requires Valid() && i < WIDTH
      ensures r == Count(Flows(), i)
    {
      (bytes[i] as int) - 1
    }

    method Set(i: nat, derefs: int)
      requires Valid() && i < WIDTH
      modifies bytes
      ensures Flows() == With(old(Flows()), i, derefs)
    {
      var v := derefs + 1;
      if v < 0 {
        bytes[HEAP] := 1;
        return;
      }
      if v > 0xff { v := 0xff; }
      bytes[i] := v;
    }

    method Add(i: nat, derefs: int)
      requires Valid() && i < WIDTH
      modifies bytes
      ensures Flows() == Added(old(Flows()), i, derefs)
    {
      var old_ := Get(i);
      if old_ < 0 || derefs < old_ { Set(i, derefs); }
    }

    method Optimize()
      requires Valid()
      modifies bytes
      ensures Flows() == Optimized(old(Flows()))
    {
      var x := Get(HEAP);
      ghost var was := Flows();
      if x >= 0 {
        var i := 1;
        while i < bytes.Length
          invariant 1 <= i <= WIDTH
          invariant forall k :: 0 <= k < i ==> bytes[k] == Optimized(was)[k]
          invariant forall k :: i <= k < WIDTH ==> bytes[k] == was[k]
        {
          if Get(i) >= x { Set(i, -1); }
          i := i + 1;
        }
      }
    }

    method Encode() returns (s: seq<Byte>)
      requires Valid()
      ensures s == Encoded(Flows())
    {
      if Get(HEAP) == 0 { return []; }
      var n := bytes.Length;
      while n > 0 && bytes[n - 1] == 0
        invariant 0 <= n <= WIDTH
        invariant Trimmed(bytes[..]) == Trimmed(bytes[..n])
      {
        assert bytes[..n][..n - 1] == bytes[..n - 1];
        n := n - 1;
      }
      s := PREFIX + bytes[..n];
    }
  }
}

/** What is dropped, rewritten and folded, and what is not
    (export/bodybuild.go:499-520, 742-785, 1000-1045, 1205-1310).

    The definitions say on the source which values a condition can have, which
    statements stop and which clause a switch takes. None of them looks at a
    sign, at what the builder takes for the end of a list, or at what it writes. */
module DeadCodeExact {
  import opened Wrappers
  import opened Conditions
  import opened Statements
  import opened DeadCode

  // ----- Conditions -----

  /** Some choice of values for what the checker has no value for gives the
      condition this value. What stands in parentheses is not looked into. */
  predicate Can(e: Cond, v: bool) {
    match e
    case Const(b) => v == b
    case Prim(_) => true
    case Paren(_) => true
    case Not(x) => Can(x, !v)
    case And(x, y) => if v then Can(x, true) && Can(y, true) else Can(x, false) || Can(y, false)
    case Or(x, y) => if v then Can(x, true) || Can(y, true) else Can(x, false) && Can(y, false)
  }

  lemma {:induction false} CanSome(e: Cond)
    ensures Can(e, true) || Can(e, false)
  {
    match e
    case Const(_) =>
    case Prim(_) =>
    case Paren(_) =>
    case Not(x) => CanSome(x);
    case And(x, y) =>
      CanSome(x);
      CanSome(y);
    case Or(x, y) =>
      CanSome(x);
      CanSome(y);
  }

  /** A condition has a sign exactly when it can have one value only. */
  lemma {:induction false} SignIsForced(e: Cond)
    requires Parsed(e)
    ensures Sign(e) > 0 <==> !Can(e, false)
    ensures Sign(e) < 0 <==> !Can(e, true)
    ensures e.Prim? || e.Paren? || e.Not? ==> Can(e, true) && Can(e, false)
  {
    match e
    case Const(_) =>
    case Prim(_) =>
    case Paren(_) =>
    case Not(x) => SignIsForced(x);
    case And(x, y) =>
      SignIsForced(x);
      SignIsForced(y);
      CanSome(x);
      CanSome(y);
    case Or(x, y) =>
      SignIsForced(x);
      SignIsForced(y);
      CanSome(x);
      CanSome(y);
  }

  /** No left operand is a constant, and none decides the whole. */
  predicate Trimmed(e: Cond) {
    match e
    case Const(_) => true
    case Prim(_) => true
    case Paren(_) => true
    case Not(x) => Trimmed(x)
    case And(x, y) => !x.Const? && Can(x, true) && Trimmed(x) && Trimmed(y)
    case Or(x, y) => !x.Const? && Can(x, false) && Trimmed(x) && Trimmed(y)
  }

  /** What a condition is rewritten to is trimmed and can have the same values. */
  lemma {:induction false} RewrittenIsTrimmed(e: Cond)
    requires Parsed(e)
    ensures Trimmed(Rewritten(e))
    ensures Can(Rewritten(e), true) == Can(e, true) && Can(Rewritten(e), false) == Can(e, false)
  {
    SignIsForced(e);
    match e
    case Const(_) =>
    case Prim(_) =>
    case Paren(_) =>
    case Not(x) => RewrittenIsTrimmed(x);
    case And(x, y) =>
      RewrittenIsTrimmed(x);
      RewrittenIsTrimmed(y);
      SignIsForced(x);
      SignIsForced(y);
      CanSome(x);
    case Or(x, y) =>
      RewrittenIsTrimmed(x);
      RewrittenIsTrimmed(y);
      SignIsForced(x);
      SignIsForced(y);
      CanSome(x);
  }

  // ----- What stops -----

  predicate Stops(st: Stmt)
    decreases st, 0
  {
    match st
    case Goto(_) => true
    case Return(_) => true
    case Panic(_) => true
    case Block(list) => LastStops(list)
    case If(_, cond, thn, els) =>
      && (Can(cond, true) ==> thn.Written? && LastStops(thn.list))
      && (Can(cond, false) ==> els.Written? && LastStops(els.list))
    case Labeled(_, _) => false
    case Empty => false
    case Simple(_) => false
    case Declares(_) => false
    case Break(_) => false
    case Continue(_) => false
    case Fallthrough => false
    case Mark(_) => false
    case For(_, _, _, _) => false
    case Range(_, _) => false
    case Switch(_, _, _) => false
    case Choose(_, _) => false
  }

  /** The last statement that is not the empty one stops. */
  predicate LastStops(list: seq<Stmt>)
    decreases list, 1
  {
    exists i :: 0 <= i < |list| && Stops(list[i]) && EmptyFrom(list, i + 1)
  }

  predicate EmptyFrom(list: seq<Stmt>, i: nat) { forall j :: i <= j < |list| ==> list[j].Empty? }

  predicate NoLabel(list: seq<Stmt>, i: nat) { forall j :: i <= j < |list| ==> !list[j].Labeled? }

  /** The statement is not behind one that stops, or a label follows that. */
  predicate Kept(list: seq<Stmt>, i: nat)
    requires i < |list|
  {
    forall k :: 0 <= k < i && Stops(list[k]) ==> !NoLabel(list, k + 1)
  }

  lemma {:induction false} LastIs(list: seq<Stmt>)
    ensures LastNonEmpty(list).None? ==> EmptyFrom(list, 0)
    ensures LastNonEmpty(list).Some? ==>
              exists i :: 0 <= i < |list| && list[i] == LastNonEmpty(list).value && !list[i].Empty? && EmptyFrom(list, i + 1)
  {
    if list != [] {
      var n := |list| - 1;
      if list[n].Empty? {
        LastIs(list[..n]);
        if LastNonEmpty(list).Some? {
          var i :| 0 <= i < n && list[..n][i] == LastNonEmpty(list).value && !list[i].Empty? && EmptyFrom(list[..n], i + 1);
          assert EmptyFrom(list, i + 1) by {
            forall j | i + 1 <= j < |list| ensures list[j].Empty? { if j < n { assert list[..n][j].Empty?; } }
          }
        } else {
          forall j | 0 <= j < |list| ensures list[j].Empty? { if j < n { assert list[..n][j].Empty?; } }
        }
      } else {
        assert EmptyFrom(list, n + 1);
      }
    }
  }

  /** What the builder takes for a statement that cannot fall through is one
      that stops. */
  lemma {:induction false} TerminatesIs(st: Stmt)
    requires Checked(st)
    ensures Terminates(st) <==> Stops(st)
    decreases st, 0
  {
    if st.Block? {
      EndsDeadIs(st.list);
    } else if st.If? {
      SignIsForced(st.cond);
      EndsDeadIs(st.thn.list);
      EndsDeadIs(st.els.list);
    }
  }

  lemma {:induction false} EndsDeadIs(list: seq<Stmt>)
    requires CheckedList(list)
    ensures EndsDead(list) <==> LastStops(list)
    decreases list, 1
  {
    LastIs(list);
    forall i | 0 <= i < |list| ensures Terminates(list[i]) <==> Stops(list[i]) { TerminatesIs(list[i]); }
    if LastStops(list) {
      var i :| 0 <= i < |list| && Stops(list[i]) && EmptyFrom(list, i + 1);
      assert !list[i].Empty?;
    }
  }

  // ----- What a list is built to -----

  /** The statements of a list, each built on its own, one after the other. */
  function Each(list: seq<Stmt>): seq<Stmt> {
    if list == [] then [] else Built(list[0]) + Each(list[1..])
  }

  /** Nothing is dropped but what stands behind the first statement that stops
      and that no label follows. */
  ghost predicate Cut(list: seq<Stmt>, n: nat) {
    && n <= |list|
    && (n < |list| ==> n > 0 && Stops(list[n - 1]) && NoLabel(list, n))
    && (forall i | 0 <= i < n :: Kept(list, i))
  }

  lemma CutLater(list: seq<Stmt>, n: nat)
    requires list != [] && CheckedList(list) && Cut(list[1..], n) && !(Stops(list[0]) && NoLabel(list, 1))
    ensures Cut(list, n + 1)
  {
    var rest := list[1..];
    if n < |rest| {
      forall j | n + 1 <= j < |list| ensures !list[j].Labeled? { assert !rest[j - 1].Labeled?; }
      assert rest[n - 1] == list[n];
    }
    forall i | 0 <= i < n + 1 ensures Kept(list, i) {
      forall k | 0 <= k < i && Stops(list[k]) ensures !NoLabel(list, k + 1) {
        if k > 0 {
          assert Kept(rest, i - 1) && Stops(rest[k - 1]);
          var j :| k <= j < |rest| && rest[j].Labeled?;
          assert list[j + 1].Labeled?;
        }
      }
    }
  }

  /** A list is built to the statements in front of the cut. */
  lemma {:induction false} BuiltListIsCut(list: seq<Stmt>)
    requires CheckedList(list)
    ensures exists n: nat :: Cut(list, n) && BuiltList(list) == Each(list[..n])
  {
    if list == [] {
      assert Cut(list, 0) && list[..0] == [];
    } else {
      TerminatesIs(list[0]);
      LabelsAre(list);
      if Stops(list[0]) && NoLabel(list, 1) {
        assert Cut(list, 1) && list[..1] == [list[0]] && Each([list[0]]) == Built(list[0]) + [];
      } else {
        CheckedRest(list);
        BuiltListIsCut(list[1..]);
        var n: nat :| Cut(list[1..], n) && BuiltList(list[1..]) == Each(list[1..][..n]);
        CutLater(list, n);
        assert list[..n + 1][0] == list[0] && list[..n + 1][1..] == list[1..][..n];
      }
    }
  }

  lemma CheckedRest(list: seq<Stmt>)
    requires list != [] && CheckedList(list)
    ensures Checked(list[0]) && CheckedList(list[1..])
  {
  }

  // ----- What stands behind a statement that stops, in what is built -----

  /** A built statement that stops. An arm that is not written never runs. */
  predicate Halts(st: Stmt)
    decreases st, 0
  {
    match st
    case Goto(_) => true
    case Return(_) => true
    case Panic(_) => true
    case Block(list) => LastHalts(list)
    case If(_, _, thn, els) => (thn.Written? ==> LastHalts(thn.list)) && (els.Written? ==> LastHalts(els.list))
    case Labeled(_, _) => false
    case Empty => false
    case Simple(_) => false
    case Declares(_) => false
    case Break(_) => false
    case Continue(_) => false
    case Fallthrough => false
    case Mark(_) => false
    case For(_, _, _, _) => false
    case Range(_, _) => false
    case Switch(_, _, _) => false
    case Choose(_, _) => false
  }

  predicate LastHalts(list: seq<Stmt>)
    decreases list, 1
  {
    list != [] && Halts(list[|list| - 1])
  }

  predicate Marked(list: seq<Stmt>) { exists j :: 0 <= j < |list| && list[j].Mark? }

  /** A statement of the list stands behind one that stops, and no label does. */
  predicate Behind(list: seq<Stmt>) { exists i :: 0 <= i < |list| - 1 && Halts(list[i]) && !Marked(list[i + 1..]) }

  // The same, said of the source.

  /** The statements nothing is written for. */
  predicate Vanishes(st: Stmt) { st.Empty? || (st.Declares? && st.ids == []) }

  /** What is written for the statement stops in the end: the statement does, or
      the one behind its label, or what is left of its block or arms. */
  predicate Ends(st: Stmt)
    decreases st, 0
  {
    match st
    case Goto(_) => true
    case Return(_) => true
    case Panic(_) => true
    case Labeled(_, inner) => Ends(inner)
    case Block(list) => LastEnds(list)
    case If(_, cond, thn, els) =>
      && (Can(cond, true) && thn.Written? ==> LastEnds(thn.list))
      && (Can(cond, false) && els.Written? ==> LastEnds(els.list))
    case Empty => false
    case Simple(_) => false
    case Declares(_) => false
    case Break(_) => false
    case Continue(_) => false
    case Fallthrough => false
    case Mark(_) => false
    case For(_, _, _, _) => false
    case Range(_, _) => false
    case Switch(_, _, _) => false
    case Choose(_, _) => false
  }

  /** Of the statements that are kept and do not vanish, the last one ends so. */
  predicate LastEnds(list: seq<Stmt>)
    decreases list, 1
  {
    exists i :: 0 <= i < |list| && EndsAt(list, i)
  }

  predicate EndsAt(list: seq<Stmt>, i: nat)
    requires i < |list|
    decreases list, 0
  {
    Kept(list, i) && Ends(list[i]) && NothingAfter(list, i + 1)
  }

  /** Nothing is written for what is kept from here on. */
  predicate NothingAfter(list: seq<Stmt>, i: nat) { forall j :: i <= j < |list| && Kept(list, j) ==> Vanishes(list[j]) }

  /** A kept statement stops in the end without stopping, no label follows it,
      and something that is kept and written does. */
  predicate Overlooked(list: seq<Stmt>) {
    exists i :: 0 <= i < |list| && OverlookedAt(list, i)
  }

  predicate OverlookedAt(list: seq<Stmt>, i: nat)
    requires i < |list|
  {
    Kept(list, i) && Ends(list[i]) && !Stops(list[i]) && NoLabel(list, i + 1) && !NothingAfter(list, i + 1)
  }

  // ----- The two agree -----

  lemma KeptRest(list: seq<Stmt>, i: nat)
    requires i + 1 < |list|
    ensures Kept(list, i + 1) <==> !(Stops(list[0]) && NoLabel(list, 1)) && Kept(list[1..], i)
  {
    var rest := list[1..];
    if !(Stops(list[0]) && NoLabel(list, 1)) && Kept(rest, i) {
      forall k | 0 <= k < i + 1 && Stops(list[k]) ensures !NoLabel(list, k + 1) {
        if k > 0 {
          NoLabelRest(list, k);
          assert Stops(rest[k - 1]);
        }
      }
    }
    if Kept(list, i + 1) {
      forall k | 0 <= k < i && Stops(rest[k]) ensures !NoLabel(rest, k + 1) {
        NoLabelRest(list, k + 1);
        assert Stops(list[k + 1]);
      }
    }
  }

  lemma NoLabelRest(list: seq<Stmt>, i: nat)
    requires list != []
    ensures NoLabel(list, i + 1) <==> NoLabel(list[1..], i)
  {
    if NoLabel(list, i + 1) {
      forall j | i <= j < |list| - 1 ensures !list[1..][j].Labeled? { assert !list[j + 1].Labeled?; }
    }
    if NoLabel(list[1..], i) {
      forall j | i + 1 <= j < |list| ensures !list[j].Labeled? { assert !list[1..][j - 1].Labeled?; }
    }
  }

  lemma NothingRest(list: seq<Stmt>, i: nat)
    requires list != []
    ensures NothingAfter(list, i + 1) <==> (Stops(list[0]) && NoLabel(list, 1)) || NothingAfter(list[1..], i)
  {
    var rest := list[1..];
    forall j | 0 <= j < |rest| ensures Kept(list, j + 1) <==> !(Stops(list[0]) && NoLabel(list, 1)) && Kept(rest, j) { KeptRest(list, j); }
    if NothingAfter(list, i + 1) && !(Stops(list[0]) && NoLabel(list, 1)) {
      forall j | i <= j < |rest| && Kept(rest, j) ensures Vanishes(rest[j]) { assert Kept(list, j + 1); }
    }
    if NothingAfter(rest, i) {
      forall j | i + 1 <= j < |list| && Kept(list, j) ensures Vanishes(list[j]) { assert Kept(rest, j - 1); }
    }
  }

  lemma EndsAtRest(list: seq<Stmt>, i: nat)
    requires i + 1 < |list|
    ensures EndsAt(list, i + 1) <==> !(Stops(list[0]) && NoLabel(list, 1)) && EndsAt(list[1..], i)
  {
    KeptRest(list, i);
    NothingRest(list, i + 1);
  }

  /** The first statement decides, or the rest does. */
  lemma LastEndsRest(list: seq<Stmt>)
    requires list != []
    ensures LastEnds(list) <==>
            (Ends(list[0]) && NothingAfter(list, 1)) || (!(Stops(list[0]) && NoLabel(list, 1)) && LastEnds(list[1..]))
  {
    assert EndsAt(list, 0) <==> Ends(list[0]) && NothingAfter(list, 1);
    if i :| 0 < i < |list| && EndsAt(list, i) { EndsAtRest(list, i - 1); }
    if i :| 0 <= i < |list| - 1 && EndsAt(list[1..], i) { EndsAtRest(list, i); }
  }

  lemma OverlookedAtRest(list: seq<Stmt>, i: nat)
    requires i + 1 < |list|
    ensures OverlookedAt(list, i + 1) <==> !(Stops(list[0]) && NoLabel(list, 1)) && OverlookedAt(list[1..], i)
  {
    KeptRest(list, i);
    NoLabelRest(list, i + 1);
    NothingRest(list, i + 1);
  }

  lemma OverlookedRest(list: seq<Stmt>)
    requires list != []
    ensures Overlooked(list) <==>
            || (Ends(list[0]) && !Stops(list[0]) && NoLabel(list, 1) && !NothingAfter(list, 1))
            || (!(Stops(list[0]) && NoLabel(list, 1)) && Overlooked(list[1..]))
  {
    assert OverlookedAt(list, 0) <==> Ends(list[0]) && !Stops(list[0]) && NoLabel(list, 1) && !NothingAfter(list, 1);
    if i :| 0 < i < |list| && OverlookedAt(list, i) { OverlookedAtRest(list, i - 1); }
    if i :| 0 <= i < |list| - 1 && OverlookedAt(list[1..], i) { OverlookedAtRest(list, i); }
  }

  // ----- Lists of built statements -----

  lemma MarkedBoth(xs: seq<Stmt>, ys: seq<Stmt>)
    ensures Marked(xs + ys) <==> Marked(xs) || Marked(ys)
  {
    if Marked(xs) {
      var j :| 0 <= j < |xs| && xs[j].Mark?;
      assert (xs + ys)[j].Mark?;
    }
    if Marked(ys) {
      var j :| 0 <= j < |ys| && ys[j].Mark?;
      assert (xs + ys)[|xs| + j].Mark?;
    }
  }

  /** Only the last of the statements can stop. */
  predicate Quiet(xs: seq<Stmt>) { forall i :: 0 <= i < |xs| - 1 ==> !Halts(xs[i]) }

  lemma BehindBoth(xs: seq<Stmt>, ys: seq<Stmt>)
    requires Quiet(xs)
    ensures Behind(xs + ys) <==> (LastHalts(xs) && ys != [] && !Marked(ys)) || Behind(ys)
  {
    var all := xs + ys;
    if Behind(all) { BehindOne(xs, ys); }
    if LastHalts(xs) && ys != [] && !Marked(ys) {
      TailOf(xs, ys, |xs|);
      assert Halts(all[|xs| - 1]) && !Marked(all[|xs| - 1 + 1..]);
    }
    if Behind(ys) {
      var i :| 0 <= i < |ys| - 1 && Halts(ys[i]) && !Marked(ys[i + 1..]);
      TailOf(xs, ys, |xs| + i + 1);
      assert Halts(all[|xs| + i]) && !Marked(all[|xs| + i + 1..]);
    }
  }

  lemma TailOf(xs: seq<Stmt>, ys: seq<Stmt>, i: nat)
    requires |xs| <= i <= |xs| + |ys|
    ensures (xs + ys)[i..] == ys[i - |xs|..]
  {
  }

  lemma BehindOne(xs: seq<Stmt>, ys: seq<Stmt>)
    requires Quiet(xs) && Behind(xs + ys)
    ensures (LastHalts(xs) && ys != [] && !Marked(ys)) || Behind(ys)
  {
    var all := xs + ys;
    var i :| 0 <= i < |all| - 1 && Halts(all[i]) && !Marked(all[i + 1..]);
    assert i < |xs| ==> all[i] == xs[i];
    if i >= |xs| {
      assert ys[i - |xs|] == all[i];
      TailOf(xs, ys, i + 1);
      assert Halts(ys[i - |xs|]) && !Marked(ys[i - |xs| + 1..]);
    } else {
      TailOf(xs, ys, |xs|);
    }
  }

  lemma LastHaltsBoth(xs: seq<Stmt>, ys: seq<Stmt>)
    ensures LastHalts(xs + ys) <==> if ys == [] then LastHalts(xs) else LastHalts(ys)
  {
    if ys == [] { assert xs + ys == xs; }
  }

  // ----- What is built -----

  lemma SimplesAre(ids: seq<nat>)
    ensures Quiet(Simples(ids)) && !LastHalts(Simples(ids)) && !Marked(Simples(ids)) && (Simples(ids) == [] <==> ids == [])
  {
  }

  /** What is written for one statement: nothing exactly if it vanishes, a label
      exactly if it has one, and a stop in the end exactly if it ends so. */
  ghost predicate BuiltAs(st: Stmt) {
    && (Built(st) == [] <==> Vanishes(st))
    && (Marked(Built(st)) <==> st.Labeled?)
    && Quiet(Built(st))
    && (LastHalts(Built(st)) <==> Ends(st))
  }

  /** The same of a list, and whether something stands behind a stop. */
  ghost predicate ListBuiltAs(list: seq<Stmt>) {
    && (BuiltList(list) == [] <==> NothingAfter(list, 0))
    && (Marked(BuiltList(list)) <==> !NoLabel(list, 0))
    && (LastHalts(BuiltList(list)) <==> LastEnds(list))
    && (Behind(BuiltList(list)) <==> Overlooked(list))
  }

  lemma LabelBuiltAs(name: LabelName, inner: Stmt)
    requires BuiltAs(inner)
    ensures BuiltAs(Labeled(name, inner))
  {
    var out := [Mark(name)] + Built(inner);
    assert out[0].Mark?;
    LastHaltsBoth([Mark(name)], Built(inner));
    forall i | 0 <= i < |out| - 1 ensures !Halts(out[i]) {
      if i > 0 { assert out[i] == Built(inner)[i - 1]; }
    }
  }

  lemma {:induction false} StatementBuiltAs(st: Stmt)
    requires Checked(st)
    ensures BuiltAs(st)
    decreases st, 0
  {
    if st.Labeled? {
      StatementBuiltAs(st.stmt);
      LabelBuiltAs(st.name, st.stmt);
    } else if st.Declares? {
      SimplesAre(st.ids);
    } else if st.Block? {
      ListIsBuiltAs(st.list);
    } else if st.If? {
      SignIsForced(st.cond);
      ListIsBuiltAs(st.thn.list);
      ListIsBuiltAs(st.els.list);
    }
  }

  lemma StopIsWritten(st: Stmt)
    requires Checked(st) && Stops(st)
    ensures !Vanishes(st)
  {
  }

  lemma {:induction false} ListIsBuiltAs(list: seq<Stmt>)
    requires CheckedList(list)
    ensures ListBuiltAs(list)
    decreases list, 1
  {
    if list != [] {
      StatementBuiltAs(list[0]);
      CheckedRest(list);
      ListIsBuiltAs(list[1..]);
      ListStep(list);
    }
  }

  lemma ListStep(list: seq<Stmt>)
    requires CheckedList(list) && list != [] && BuiltAs(list[0]) && ListBuiltAs(list[1..])
    ensures ListBuiltAs(list)
  {
    var xs, rest := Built(list[0]), list[1..];
    var cut := Stops(list[0]) && NoLabel(list, 1);
    var ys := if cut then [] else BuiltList(rest);
    TerminatesIs(list[0]);
    LabelsAre(list);
    assert BuiltList(list) == xs + ys;
    NoLabelRest(list, 0);
    NothingRest(list, 0);
    LastEndsRest(list);
    OverlookedRest(list);
    MarkedBoth(xs, ys);
    LastHaltsBoth(xs, ys);
    BehindBoth(xs, ys);
    if Stops(list[0]) { StopIsWritten(list[0]); }
  }

  lemma LabelsAre(list: seq<Stmt>)
    requires list != []
    ensures HasLabel(list[1..]) <==> !NoLabel(list, 1)
  {
    if !NoLabel(list, 1) {
      var j :| 1 <= j < |list| && list[j].Labeled?;
      assert list[1..][j - 1].Labeled?;
    }
  }

  /** What a list is built to has a statement behind one that stops, with no
      label behind that, exactly if the source has one that stops in the end in
      a way the builder does not look for: behind a label of its own, or where
      the tail of a block or an arm is dropped. */
  lemma BehindExactly(list: seq<Stmt>)
    requires CheckedList(list)
    ensures Behind(BuiltList(list)) <==> Overlooked(list)
  {
    ListIsBuiltAs(list);
  }

  /** Where each statement that stops in the end stops, nothing is left behind
      one, unless a label is. */
  lemma NothingBehind(list: seq<Stmt>)
    requires CheckedList(list) && forall i :: 0 <= i < |list| ==> Stops(list[i]) || !Ends(list[i])
    ensures !Behind(BuiltList(list))
  {
    BehindExactly(list);
  }

  lemma BuiltTwo(x: Stmt, y: Stmt)
    ensures BuiltList([x, y]) == Built(x) + if Terminates(x) && !y.Labeled? then [] else Built(y)
    ensures LastNonEmpty([x, y]) == if !y.Empty? then Some(y) else LastNonEmpty([x])
  {
    assert [x, y][1..] == [y] && [y][1..] == [] && [x, y][..1] == [x];
    assert HasLabel([y]) <==> y.Labeled? by { assert [y][0] == y; }
    assert BuiltList([y]) == Built(y) + if Terminates(y) && !HasLabel([]) then [] else BuiltList([]);
  }

  lemma BehindTwo(xs: seq<Stmt>, x: Stmt, y: Stmt)
    requires Halts(x) && !y.Mark?
    ensures Behind(xs + [x, y])
  {
    var all := xs + [x, y];
    assert all[|xs|] == x && all[|xs| + 1..] == [y] && !Marked([y]);
  }

  lemma CheckedTwo(x: Stmt, y: Stmt)
    requires Checked(x) && Checked(y) && !y.Labeled?
    requires forall name :: Names(x, name) ==> Ignores(y, Some(name))
    ensures CheckedList([x, y])
  {
    var list := [x, y];
    assert list[0] == x && list[1] == y;
  }

  /** `L: return; x()`: the call is written. */
  lemma LeftBehindALabel(name: LabelName, r: nat, x: nat)
    ensures var list := [Labeled(name, Return(r)), Simple(x)];
            CheckedList(list) && BuiltList(list) == [Mark(name), Return(r), Simple(x)] && Behind(BuiltList(list))
  {
    CheckedTwo(Labeled(name, Return(r)), Simple(x));
    BuiltTwo(Labeled(name, Return(r)), Simple(x));
    BehindTwo([Mark(name)], Return(r), Simple(x));
    assert [Mark(name)] + [Return(r), Simple(x)] == [Mark(name), Return(r), Simple(x)];
  }

  /** `{ return; x() }; y()`: the last call is written. */
  lemma LeftBehindABlock(r: nat, x: nat, y: nat)
    ensures var list := [Block([Return(r), Simple(x)]), Simple(y)];
            CheckedList(list) && BuiltList(list) == [Block([Return(r)]), Simple(y)] && Behind(BuiltList(list))
  {
    var inner := [Return(r), Simple(x)];
    BuiltTwo(Return(r), Simple(x));
    CheckedTwo(Return(r), Simple(x));
    CheckedTwo(Block(inner), Simple(y));
    assert BuiltList(inner) == [Return(r)] && !EndsDead(inner);
    BuiltTwo(Block(inner), Simple(y));
    assert Built(Block(inner)) == [Block([Return(r)])];
    assert Halts([Return(r)][0]);
    BehindTwo([], Block([Return(r)]), Simple(y));
    assert [] + [Block([Return(r)]), Simple(y)] == [Block([Return(r)]), Simple(y)];
  }

  // ----- Which clause a switch takes -----

  predicate Hits(cases: seq<Case>, v: nat) {
    exists j :: 0 <= j < |cases| && cases[j] == Known(v) && Differ(cases[..j], v)
  }

  predicate Differ(cases: seq<Case>, v: nat) { forall j :: 0 <= j < |cases| ==> cases[j].Known? && cases[j].value != v }

  /** Every case from one clause on to before another is known and is not v. */
  predicate Missed(clauses: seq<Clause>, v: nat, i: nat, j: nat)
    requires j <= |clauses|
  {
    forall k :: i <= k < j ==> Differ(clauses[k].cases, v)
  }

  /** The value v takes the i'th clause, or no clause if that is one past the
      last, and no case has to be computed to see it. */
  predicate Takes(clauses: seq<Clause>, v: nat, i: nat) {
    || (i < |clauses| && Hits(clauses[i].cases, v) && Missed(clauses, v, 0, i))
    || (i <= |clauses| && Missed(clauses, v, 0, |clauses|) && IsDefaultAt(clauses, i))
  }

  /** The clause is the default, or one past the last if there is none. */
  predicate IsDefaultAt(clauses: seq<Clause>, i: nat)
    requires i <= |clauses|
  {
    (forall k :: 0 <= k < i ==> !clauses[k].isDefault) && (i < |clauses| ==> clauses[i].isDefault)
  }

  predicate FallsThrough(list: seq<Stmt>) { exists i :: 0 <= i < |list| && Falling(list[i]) && EmptyFrom(list, i + 1) }

  predicate Falling(st: Stmt) { st.Fallthrough? || (st.Labeled? && Falling(st.stmt)) }

  /** A switch is left with the clause it takes, or with none. */
  predicate Folds(clauses: seq<Clause>, v: nat, i: nat) {
    Takes(clauses, v, i) && (i < |clauses| ==> !FallsThrough(clauses[i].body))
  }

  lemma {:induction false} FallingIs(st: Stmt)
    ensures Unlabeled(st).Fallthrough? <==> Falling(st)
  {
    if st.Labeled? { FallingIs(st.stmt); }
  }

  lemma FallthroughIs(list: seq<Stmt>)
    ensures HasFallthrough(list) <==> FallsThrough(list)
  {
    LastIs(list);
    if LastNonEmpty(list).Some? { FallingIs(LastNonEmpty(list).value); }
    if FallsThrough(list) {
      var i :| 0 <= i < |list| && Falling(list[i]) && EmptyFrom(list, i + 1);
      assert !list[i].Empty?;
      FallingIs(list[i]);
    }
  }

  lemma {:induction false} MatchesIs(cases: seq<Case>, v: nat)
    ensures Matches(cases, v) == Some(true) <==> Hits(cases, v)
    ensures Matches(cases, v) == Some(false) <==> Differ(cases, v)
  {
    if cases != [] {
      MatchesIs(cases[1..], v);
      HitsRest(cases, v);
      assert Differ(cases, v) <==> cases[0].Known? && cases[0].value != v && Differ(cases[1..], v) by {
        if cases[0].Known? && cases[0].value != v && Differ(cases[1..], v) {
          forall j | 0 <= j < |cases| ensures cases[j].Known? && cases[j].value != v { if j > 0 { assert cases[1..][j - 1] == cases[j]; } }
        }
      }
    }
  }

  lemma HitsRest(cases: seq<Case>, v: nat)
    requires cases != []
    ensures Hits(cases, v) <==> cases[0] == Known(v) || (cases[0].Known? && Hits(cases[1..], v))
  {
    if Hits(cases, v) {
      var j :| 0 <= j < |cases| && cases[j] == Known(v) && Differ(cases[..j], v);
      if j > 0 {
        assert cases[0] == cases[..j][0];
        assert cases[1..][..j - 1] == cases[..j][1..] && cases[1..][j - 1] == Known(v);
      }
    }
    if cases[0] == Known(v) { assert cases[..0] == [] && Differ(cases[..0], v); }
    if cases[0].Known? && cases[0].value != v && Hits(cases[1..], v) {
      var j :| 0 <= j < |cases| - 1 && cases[1..][j] == Known(v) && Differ(cases[1..][..j], v);
      assert cases[..j + 1] == [cases[0]] + cases[1..][..j];
      assert cases[j + 1] == Known(v) && Differ(cases[..j + 1], v);
    }
  }

  lemma {:induction false} DefaultIs(clauses: seq<Clause>, k: nat)
    requires k <= |clauses| && forall j :: 0 <= j < k ==> !clauses[j].isDefault
    ensures forall i :: 0 <= i <= |clauses| ==> (Default(clauses, k) == i <==> IsDefaultAt(clauses, i))
    decreases |clauses| - k
  {
    if k < |clauses| && !clauses[k].isDefault { DefaultIs(clauses, k + 1); }
  }

  lemma {:induction false} TargetIs(clauses: seq<Clause>, v: nat, k: nat, i: nat)
    requires k <= |clauses| && Missed(clauses, v, 0, k) && i <= |clauses|
    ensures FoldTarget(clauses, v, k) == Some(i) <==> Takes(clauses, v, i)
    decreases |clauses| - k
  {
    DefaultIs(clauses, 0);
    if k < |clauses| {
      MatchesIs(clauses[k].cases, v);
      if Differ(clauses[k].cases, v) {
        TargetIs(clauses, v, k + 1, i);
      }
    }
  }

  /** A switch is folded to the clause it takes when every case up to the one
      that matches is known and the clause does not fall through, and it is not
      folded otherwise. */
  lemma FoldIs(clauses: seq<Clause>, v: nat)
    ensures Fold(clauses, v).Some? <==> exists i: nat :: Folds(clauses, v, i)
    ensures forall i: nat :: Folds(clauses, v, i) ==>
              Fold(clauses, v) == Some(if i < |clauses| then [Clause(true, [], clauses[i].body)] else [])
    ensures forall i: nat :: Folds(clauses, v, i) ==> FoldTarget(clauses, v, 0) == Some(i)
  {
    forall i: nat | i <= |clauses| ensures FoldTarget(clauses, v, 0) == Some(i) <==> Takes(clauses, v, i) { TargetIs(clauses, v, 0, i); }
    forall i: nat | i < |clauses| ensures HasFallthrough(clauses[i].body) <==> FallsThrough(clauses[i].body) {
      FallthroughIs(clauses[i].body);
    }
    var target := FoldTarget(clauses, v, 0);
    if target.Some? { assert Takes(clauses, v, target.value); }
    if Fold(clauses, v).Some? { assert Folds(clauses, v, target.value); }
  }

  // ----- What a statement becomes -----

  predicate IsValue(tag: Tag, v: nat) { (tag.NoTag? && v == 1) || tag == Tag(Known(v)) }

  /** What is written for a statement. */
  ghost predicate Becomes(st: Stmt, out: seq<Stmt>)
    decreases st, 0
  {
    match st
    case Empty => out == []
    case Declares(ids) => |out| == |ids| && forall i :: 0 <= i < |ids| ==> out[i] == Simple(ids[i])
    case Labeled(name, inner) => out != [] && out[0] == Mark(name) && Becomes(inner, out[1..])
    case Block(list) => |out| == 1 && out[0].Block? && ListBecomes(list, out[0].list)
    case If(init, cond, thn, els) =>
      && |out| == 1 && out[0].If? && ListBecomes(init, out[0].init) && out[0].cond == Rewritten(cond)
      && (out[0].thn.Written? <==> thn.Written? && Can(cond, true))
      && (out[0].thn.Written? ==> ListBecomes(thn.list, out[0].thn.list))
      && (out[0].els.Written? <==> els.Written? && Can(cond, false))
      && (out[0].els.Written? ==> ListBecomes(els.list, out[0].els.list))
    case For(init, test, post, list) =>
      && |out| == 1 && out[0].For? && ListBecomes(init, out[0].init)
      && out[0].test == (if test.Some? then Some(Rewritten(test.value)) else None)
      && if test.Some? && !Can(test.value, true) then out[0].post == [] && out[0].list == []
         else ListBecomes(post, out[0].post) && ListBecomes(list, out[0].list)
    case Range(id, list) => |out| == 1 && out[0].Range? && out[0].id == id && ListBecomes(list, out[0].list)
    case Switch(init, tag, clauses) =>
      && |out| == 1 && out[0].Switch? && ListBecomes(init, out[0].init)
      && (forall v: nat, i: nat :: IsValue(tag, v) && Folds(clauses, v, i) ==>
            && out[0].tag.NoTag? && |out[0].clauses| == (if i < |clauses| then 1 else 0)
            && (i < |clauses| ==>
                  && out[0].clauses[0].isDefault && out[0].clauses[0].cases == []
                  && ListBecomes(clauses[i].body, out[0].clauses[0].body)))
      && ((forall v: nat, i: nat :: IsValue(tag, v) ==> !Folds(clauses, v, i)) ==>
            out[0].tag == tag && ClausesBecome(clauses, out[0].clauses))
    case Choose(id, clauses) => |out| == 1 && out[0].Choose? && out[0].id == id && ClausesBecome(clauses, out[0].clauses)
    case Simple(_) => out == [st]
    case Return(_) => out == [st]
    case Panic(_) => out == [st]
    case Goto(_) => out == [st]
    case Break(_) => out == [st]
    case Continue(_) => out == [st]
    case Fallthrough => out == [st]
    case Mark(_) => out == [st]
  }

  ghost predicate ClausesBecome(clauses: seq<Clause>, out: seq<Clause>)
    decreases clauses, 0
  {
    |out| == |clauses| && forall i :: 0 <= i < |clauses| ==>
      && out[i].isDefault == clauses[i].isDefault && out[i].cases == clauses[i].cases
      && ListBecomes(clauses[i].body, out[i].body)
  }

  /** What is written for a list: what is in front of the cut, each statement on
      its own. */
  ghost predicate ListBecomes(list: seq<Stmt>, out: seq<Stmt>)
    decreases list, 2
  {
    exists n: nat :: Cut(list, n) && PartsBecome(list, 0, n, out)
  }

  ghost predicate PartsBecome(list: seq<Stmt>, i: nat, n: nat, out: seq<Stmt>)
    requires i <= n <= |list|
    decreases list, 1, n - i
  {
    if i == n then out == []
    else exists k :: 0 <= k <= |out| && Becomes(list[i], out[..k]) && PartsBecome(list, i + 1, n, out[k..])
  }

  lemma {:induction false} IsBecome(st: Stmt)
    requires Checked(st)
    ensures Becomes(st, Built(st))
    decreases st, 0
  {
    if st.Labeled? {
      IsBecome(st.stmt);
      assert Built(st)[1..] == Built(st.stmt);
    } else if st.Block? || st.Range? {
      ListIsBecome(st.list);
    } else if st.If? {
      ListIsBecome(st.init);
      ListIsBecome(st.thn.list);
      ListIsBecome(st.els.list);
      SignIsForced(st.cond);
      CanSome(st.cond);
    } else if st.For? {
      ListIsBecome(st.init);
      ListIsBecome(st.post);
      ListIsBecome(st.list);
      if st.test.Some? { SignIsForced(st.test.value); }
    } else if st.Switch? {
      ListIsBecome(st.init);
      ClausesAreBecome(st.clauses);
      SwitchIsBecome(st);
    } else if st.Choose? {
      ClausesAreBecome(st.clauses);
    }
  }

  lemma {:induction false} ClausesAreBecome(clauses: seq<Clause>)
    requires CheckedClauses(clauses)
    ensures ClausesBecome(clauses, BuiltClauses(clauses))
    ensures forall i :: 0 <= i < |clauses| ==> ListBecomes(clauses[i].body, BuiltList(clauses[i].body))
    decreases clauses, 0
  {
    forall i | 0 <= i < |clauses| ensures ListBecomes(clauses[i].body, BuiltList(clauses[i].body)) { ListIsBecome(clauses[i].body); }
  }

  lemma SwitchIsBecome(st: Stmt)
    requires st.Switch? && ListBecomes(st.init, BuiltList(st.init)) && ClausesBecome(st.clauses, BuiltClauses(st.clauses))
    requires forall i :: 0 <= i < |st.clauses| ==> ListBecomes(st.clauses[i].body, BuiltList(st.clauses[i].body))
    ensures Becomes(st, Built(st))
  {
    forall v: nat ensures IsValue(st.tag, v) <==> TagValue(st.tag) == Some(v) { }
    if TagValue(st.tag).Some? { FoldIs(st.clauses, TagValue(st.tag).value); }
  }

  lemma {:induction false} PartsAreBecome(list: seq<Stmt>, i: nat, n: nat)
    requires CheckedList(list) && i <= n <= |list|
    ensures PartsBecome(list, i, n, Each(list[i..n]))
    decreases list, 1, n - i
  {
    if i < n {
      IsBecome(list[i]);
      PartsAreBecome(list, i + 1, n);
      var xs, ys := Built(list[i]), Each(list[i + 1..n]);
      assert list[i..n][0] == list[i] && list[i..n][1..] == list[i + 1..n];
      assert (xs + ys)[..|xs|] == xs && (xs + ys)[|xs|..] == ys;
    }
  }

  /** A list is built to what it becomes. */
  lemma {:induction false} ListIsBecome(list: seq<Stmt>)
    requires CheckedList(list)
    ensures ListBecomes(list, BuiltList(list))
    decreases list, 2
  {
    BuiltListIsCut(list);
    var n: nat :| Cut(list, n) && BuiltList(list) == Each(list[..n]);
    PartsAreBecome(list, 0, n);
    assert list[0..n] == list[..n];
  }
}

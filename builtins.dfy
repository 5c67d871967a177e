/**
  Mode tables of the builtin moded operations (dyna/builtins.py): the upward
  closure of a mode table (infer_modes), the construction of a moded operation
  whose deterministic and nondeterministic tables are disjoint (moded_op,
  check_op), and the tables of add, abs and not with the meaning of their
  handlers.
*/
module Builtins {
  import opened RExprs

  /** k with position i switched from free to bound. */
  function Raise(k: Mode, i: nat): (r: Mode)
    requires i < |k|
    ensures |r| == |k| && r[i] && Leq(k, r)
  {
    k[i := true]
  }

  /** One-step upward closure: raising any free position of a key gives a key. */
  ghost predicate UpClosed(keys: set<Mode>) {
    forall k, i {:trigger Raise(k, i)} :: k in keys && 0 <= i < |k| && !k[i] ==> Raise(k, i) in keys
  }

  /** Every key of r carries the handler of a key of d that is pointwise below it. */
  ghost predicate Inherited<H>(d: map<Mode, H>, r: map<Mode, H>) {
    forall m :: m in r ==> exists k :: k in d && Leq(k, m) && r[m] == d[k]
  }

  /**
    r is the upward closure of the table d: the entries of d are kept, every mode
    above a key of d is a key, and every key takes its handler from a key of d below it.
  */
  ghost predicate ClosureOf<H>(d: map<Mode, H>, r: map<Mode, H>) {
    (forall k {:trigger r[k]} :: k in d ==> k in r && r[k] == d[k]) &&
    (forall k, m :: k in d && Leq(k, m) ==> m in r) &&
    Inherited(d, r)
  }

  /** All modes of length n. */
  ghost function AllModes(n: nat): set<Mode> {
    if n == 0 then {[]} else set m, b | m in AllModes(n - 1) && b in {false, true} :: m + [b]
  }

  lemma {:induction false} AllModesComplete(m: Mode)
    ensures m in AllModes(|m|)
  {
    if |m| > 0 {
      var init, last := m[..|m| - 1], m[|m| - 1];
      AllModesComplete(init);
      assert m == init + [last];
      assert init in AllModes(|m| - 1) && last in {false, true};
    }
  }

  /** bound holds every mode as long as some key of d. */
  ghost predicate Covers<H>(bound: set<Mode>, d: map<Mode, H>) {
    forall k, m :: k in d && |m| == |k| ==> m in bound
  }

  /** A finite set of modes covering d: infer_modes only ever inserts modes from it. */
  lemma BoundOf<H>(d: map<Mode, H>) returns (bound: set<Mode>)
    ensures Covers(bound, d)
  {
    bound := set k, m | k in d && m in AllModes(|k|) :: m;
    forall k, m | k in d && |m| == |k|
      ensures m in bound
    {
      AllModesComplete(m);
    }
  }

  lemma CoveredMode<H>(bound: set<Mode>, d: map<Mode, H>, k: Mode, m: Mode)
    requires Covers(bound, d) && k in d && Leq(k, m)
    ensures m in bound
  {
  }

  lemma LeqTransitive(a: Mode, b: Mode, c: Mode)
    requires Leq(a, b) && Leq(b, c)
    ensures Leq(a, c)
  {
  }

  /** Two distinct modes of the same length differ at some position. */
  lemma DifferAt(k: Mode, m: Mode) returns (i: nat)
    requires |k| == |m| && k != m
    ensures i < |k| && k[i] != m[i]
  {
    i := 0;
    while i < |k| && k[i] == m[i]
      invariant i <= |k| && k[..i] == m[..i]
    {
      i := i + 1;
    }
  }

  /** Raising a free position removes one free position. */
  lemma RaiseCountsDown(k: Mode, i: nat)
    requires i < |k| && !k[i]
    ensures multiset(Raise(k, i))[false] == multiset(k)[false] - 1
  {
    assert k == k[..i] + [k[i]] + k[i + 1..];
  }

  /** A one-step closed set contains everything above its keys. */
  lemma {:induction false} UpClosedContainsAbove(keys: set<Mode>, k: Mode, m: Mode)
    requires UpClosed(keys) && k in keys && Leq(k, m)
    ensures m in keys
    decreases multiset(k)[false]
  {
    if k != m {
      var i := DifferAt(k, m);
      var k' := Raise(k, i);
      assert k' in keys;
      RaiseCountsDown(k, i);
      assert Leq(k', m);
      UpClosedContainsAbove(keys, k', m);
    }
  }

  lemma SubsetCard(a: set<Mode>, b: set<Mode>)
    requires a <= b
    ensures |a| <= |b|
    decreases |a|
  {
    if a != {} {
      var x :| x in a;
      SubsetCard(a - {x}, b - {x});
    }
  }

  /** src names, for every key of r, the key of d it inherited its handler from. */
  ghost predicate Sourced<H>(d: map<Mode, H>, r: map<Mode, H>, src: map<Mode, Mode>) {
    r.Keys <= src.Keys &&
    forall m {:trigger src[m]} :: m in src ==> src[m] in d && Leq(src[m], m) && (m in r ==> r[m] == d[src[m]])
  }

  lemma SourcedInherited<H>(d: map<Mode, H>, r: map<Mode, H>, src: map<Mode, Mode>)
    requires Sourced(d, r, src)
    ensures Inherited(d, r)
  {
    forall m | m in r
      ensures exists k :: k in d && Leq(k, m) && r[m] == d[k]
    {
      assert m in src;
      var k := src[m];
      assert k in d && Leq(k, m) && r[m] == d[k];
    }
  }

  /** What every intermediate dictionary of infer_modes satisfies. */
  ghost predicate Grown<H>(d: map<Mode, H>, bound: set<Mode>, r: map<Mode, H>, src: map<Mode, Mode>) {
    (forall k :: k in d ==> k in r && r[k] == d[k]) &&
    Sourced(d, r, src) && Covers(bound, d) && r.Keys <= bound
  }

  /**
    The inner loop of infer_modes for one key k: every free position of k is
    raised, and the raised key is inserted, with the handler of k, when missing.
  */
  method RaiseKey<H>(k: Mode, r: map<Mode, H>) returns (r': map<Mode, H>, inserted: bool)
    requires k in r
    ensures forall x :: x in r ==> x in r' && r'[x] == r[x]
    ensures forall x :: x in r' && x !in r ==> Leq(k, x) && r'[x] == r[k]
    ensures forall q {:trigger Raise(k, q)} :: 0 <= q < |k| && !k[q] ==> Raise(k, q) in r'
    ensures !inserted ==> r'.Keys == r.Keys
    ensures |r| + (if inserted then 1 else 0) <= |r'|
  {
    r', inserted := r, false;
    var i := 0;
    while i < |k|
      invariant 0 <= i <= |k|
      invariant forall x :: x in r ==> x in r' && r'[x] == r[x]
      invariant forall x :: x in r' && x !in r ==> Leq(k, x) && r'[x] == r[k]
      invariant forall q {:trigger Raise(k, q)} :: 0 <= q < i && !k[q] ==> Raise(k, q) in r'
      invariant !inserted ==> r'.Keys == r.Keys
      invariant |r| + (if inserted then 1 else 0) <= |r'|
    {
      if !k[i] {
        var nk := Raise(k, i);
        if nk !in r' {
          assert Leq(k, nk);
          r' := r'[nk := r'[k]];
          inserted := true;
        }
      }
      i := i + 1;
    }
  }

  /** A pass of RaiseKey keeps Grown, with the raised keys sourced where k was. */
  lemma RaiseKeepsGrown<H>(d: map<Mode, H>, bound: set<Mode>, r: map<Mode, H>, src: map<Mode, Mode>, k: Mode, r': map<Mode, H>)
    returns (src': map<Mode, Mode>)
    requires Grown(d, bound, r, src) && k in r
    requires forall x :: x in r ==> x in r' && r'[x] == r[x]
    requires forall x :: x in r' && x !in r ==> Leq(k, x) && r'[x] == r[k]
    ensures Grown(d, bound, r', src')
  {
    assert k in src;
    src' := map x | x in r'.Keys :: if x in r then src[x] else src[k];
    forall m | m in src'
      ensures src'[m] in d && Leq(src'[m], m) && r'[m] == d[src'[m]]
    {
      if m !in r {
        LeqTransitive(src[k], k, m);
      }
    }
    forall m | m in r'
      ensures m in bound
    {
      if m !in r {
        LeqTransitive(src[k], k, m);
        CoveredMode(bound, d, src[k], m);
      }
    }
  }

  /** A one-step closed dictionary holding the keys of d holds every mode above them. */
  lemma ClosedAbove<H>(d: map<Mode, H>, r: map<Mode, H>)
    requires (forall k :: k in d ==> k in r) && UpClosed(r.Keys)
    ensures forall k, m :: k in d && Leq(k, m) ==> m in r
  {
    forall k, m | k in d && Leq(k, m)
      ensures m in r
    {
      UpClosedContainsAbove(r.Keys, k, m);
    }
  }

  /** RaiseKey for one key of a table that Grown describes, with the table's invariant carried over. */
  method RaiseStep<H>(ghost d: map<Mode, H>, ghost bound: set<Mode>, r: map<Mode, H>, ghost src: map<Mode, Mode>, k: Mode)
    returns (r': map<Mode, H>, ghost src': map<Mode, Mode>, inserted: bool)
    requires Grown(d, bound, r, src) && k in r
    ensures Grown(d, bound, r', src') && r.Keys <= r'.Keys
    ensures RaisedAt(k, r'.Keys)
    ensures !inserted ==> r'.Keys == r.Keys
    ensures |r| + (if inserted then 1 else 0) <= |r'|
  {
    r', inserted := RaiseKey(k, r);
    src' := RaiseKeepsGrown(d, bound, r, src, k, r');
  }

  /** Every free position of k, raised, is in keys. */
  ghost predicate RaisedAt(k: Mode, keys: set<Mode>) {
    forall i {:trigger Raise(k, i)} :: 0 <= i < |k| && !k[i] ==> Raise(k, i) in keys
  }

  lemma RaisedEverywhere(keys: set<Mode>)
    requires forall k :: k in keys ==> RaisedAt(k, keys)
    ensures UpClosed(keys)
  {
    forall k, i | k in keys && 0 <= i < |k| && !k[i]
      ensures Raise(k, i) in keys
    {
      assert RaisedAt(k, keys);
    }
  }

  /** One pass of infer_modes over the keys present at its start (builtins.py:10-17). */
  method RaisePass<H>(ghost d: map<Mode, H>, ghost bound: set<Mode>, r: map<Mode, H>, ghost src: map<Mode, Mode>)
    returns (r': map<Mode, H>, ghost src': map<Mode, Mode>, inserted: bool)
    requires Grown(d, bound, r, src)
    ensures Grown(d, bound, r', src')
    ensures !inserted ==> r'.Keys == r.Keys && UpClosed(r.Keys)
    ensures inserted ==> |r| < |r'|
  {
    r', src', inserted := r, src, false;
    var pending := r.Keys;
    while pending != {}
      invariant pending <= r.Keys <= r'.Keys
      invariant Grown(d, bound, r', src')
      invariant !inserted ==> r'.Keys == r.Keys
      invariant |r| + (if inserted then 1 else 0) <= |r'|
      invariant !inserted ==> forall k :: k in r && k !in pending ==> RaisedAt(k, r.Keys)
      decreases |pending|
    {
      var k :| k in pending;
      var r'', ins;
      r'', src', ins := RaiseStep(d, bound, r', src', k);
      r' := r'';
      pending := pending - {k};
      inserted := inserted || ins;
    }
    if !inserted {
      RaisedEverywhere(r.Keys);
    }
  }

  /**
    infer_modes: closes a mode table upward.  Passes over the keys present at the
    start of the pass repeat until a pass inserts nothing; each inserted key
    copies the handler of the key it was raised from.
  */
  method InferModes<H>(d: map<Mode, H>) returns (r: map<Mode, H>)
    ensures ClosureOf(d, r)
    ensures UpClosed(r.Keys)
  {
    r := d;
    ghost var bound := BoundOf(d);
    ghost var src := map k | k in d :: k;
    SubsetCard(r.Keys, bound);
    var done := false;
    while !done
      invariant Grown(d, bound, r, src)
      invariant done ==> UpClosed(r.Keys)
      invariant |r| <= |bound|
      decreases |bound| - |r| + (if done then 0 else 1)
    {
      var inserted;
      r, src, inserted := RaisePass(d, bound, r, src);
      SubsetCard(r.Keys, bound);
      done := !inserted;
    }
    SourcedInherited(d, r, src);
    ClosedAbove(d, r);
  }

  /** An up-closed table is its own closure. */
  lemma ClosureOfClosed<H>(d: map<Mode, H>, r: map<Mode, H>)
    requires UpClosed(d.Keys) && ClosureOf(d, r)
    ensures r == d
  {
    assert Inherited(d, r);
    forall m | m in r
      ensures m in d
    {
      var k :| k in d && Leq(k, m) && r[m] == d[k];
      UpClosedContainsAbove(d.Keys, k, m);
    }
    forall k | k in d
      ensures k in r
    {
      assert Leq(k, k);
    }
    assert r.Keys == d.Keys;
  }

  /** The closure of a one-entry table: every mode above its key, all with its handler. */
  lemma ClosureOfSingle<H>(k: Mode, h: H, r: map<Mode, H>)
    requires ClosureOf(map[k := h], r)
    ensures forall m :: m in r <==> Leq(k, m)
    ensures forall m :: m in r ==> r[m] == h
  {
    assert Inherited(map[k := h], r);
    forall m | m in r
      ensures Leq(k, m) && r[m] == h
    {
      var k' :| k' in map[k := h] && Leq(k', m) && r[m] == map[k := h][k'];
    }
    assert Leq(k, k);
  }

  /** The variables of a moded operation of the given arity: the result variable, then the arguments. */
  function ModedVars(arity: nat): (vs: seq<Var>)
    ensures |vs| == if arity == 0 then 1 else arity
    ensures vs[0] == Ret && forall i :: 1 <= i < |vs| ==> vs[i] == Arg(i - 1)
  {
    [Ret] + ArgVars(arity - 1)
  }

  lemma ArgVarsOfArity(n: nat)
    ensures n == 2 ==> ModedVars(n) == [Ret, Arg(0)]
    ensures n == 3 ==> ModedVars(n) == [Ret, Arg(0), Arg(1)]
  {
  }

  /** A moded operation: its name, the det and nondet handler tables, and its variables. */
  datatype ModedTable<H> = ModedTable(name: string, det: map<Mode, H>, nondet: map<Mode, H>, vars: seq<Var>)

  /** The deletion loop of moded_op: the nondet keys that det also has are deleted. */
  method DropCovered<H, G>(det: map<Mode, G>, nondet: map<Mode, H>) returns (n: map<Mode, H>)
    ensures forall m :: m in n <==> m in nondet && m !in det
    ensures forall m :: m in n ==> n[m] == nondet[m]
  {
    n := nondet;
    var pending := nondet.Keys;
    while pending != {}
      invariant pending <= nondet.Keys
      invariant forall m :: m in n <==> m in nondet && (m in pending || m !in det)
      invariant forall m :: m in n ==> n[m] == nondet[m]
      decreases |pending|
    {
      var k :| k in pending;
      if k in det {
        n := n - {k};
      }
      pending := pending - {k};
    }
  }

  /** What is left of the closure of nondet once the det keys are dropped. */
  lemma DroppedClosure<H>(nondet: map<Mode, H>, closed: map<Mode, H>, det: set<Mode>, n: map<Mode, H>)
    requires ClosureOf(nondet, closed)
    requires forall m :: m in n <==> m in closed && m !in det
    requires forall m :: m in n ==> n[m] == closed[m]
    ensures Inherited(nondet, n)
    ensures forall k, m :: k in nondet && Leq(k, m) && m !in det ==> m in n
    ensures forall k :: k in nondet && k !in det ==> k in n && n[k] == nondet[k]
  {
    assert Inherited(nondet, closed);
    forall m | m in n
      ensures exists k :: k in nondet && Leq(k, m) && n[m] == nondet[k]
    {
      var k :| k in nondet && Leq(k, m) && closed[m] == nondet[k];
    }
  }

  /**
    moded_op: both tables are closed upward, then every nondet key the det table
    also has is deleted, so that a det handler is always preferred.
  */
  method MakeModedOp<H>(name: string, det: map<Mode, H>, nondet: map<Mode, H>) returns (t: ModedTable<H>)
    requires det.Keys + nondet.Keys != {}
    requires forall k, m :: k in det.Keys + nondet.Keys && m in det.Keys + nondet.Keys ==> |k| == |m|
    ensures t.name == name
    ensures forall k :: k in det.Keys + nondet.Keys ==> t.vars == ModedVars(|k|)
    ensures ClosureOf(det, t.det) && UpClosed(t.det.Keys)
    ensures forall m :: m in t.nondet ==> m !in t.det
    ensures Inherited(nondet, t.nondet)
    ensures forall k, m :: k in nondet && Leq(k, m) && m !in t.det ==> m in t.nondet
    ensures forall k :: k in nondet && k !in t.det ==> k in t.nondet && t.nondet[k] == nondet[k]
  {
    var k0 :| k0 in det.Keys + nondet.Keys;
    var dt := InferModes(det);
    var closed := InferModes(nondet);
    var n := DropCovered(dt, closed);
    DroppedClosure(nondet, closed, dt.Keys, n);
    t := ModedTable(name, dt, n, ModedVars(|k0|));
  }

  /** The one mode of a check operation: result free, every argument bound. */
  function CheckMode(arity: nat): (m: Mode)
    ensures |m| == arity + 1 && !m[0] && forall i :: 1 <= i <= arity ==> m[i]
  {
    [false] + Trues(arity)
  }

  /** The modes above CheckMode(arity) are it and the all-bound mode. */
  lemma AboveCheckMode(arity: nat, m: Mode)
    ensures Leq(CheckMode(arity), m) <==> m == CheckMode(arity) || m == Trues(arity + 1)
  {
    if Leq(CheckMode(arity), m) {
      if m[0] {
        assert forall i :: 0 <= i < |m| ==> m[i] == Trues(arity + 1)[i];
      } else {
        assert forall i :: 0 <= i < |m| ==> m[i] == CheckMode(arity)[i];
      }
    }
  }

  /**
    check_op: an operation usable only when all arguments are bound; after
    inference it also answers the all-bound mode, with the same handler.
  */
  method CheckOp<H>(name: string, arity: nat, f: H) returns (t: ModedTable<H>)
    ensures t.name == name && t.vars == ModedVars(arity + 1)
    ensures t.det == map[CheckMode(arity) := f, Trues(arity + 1) := f]
    ensures t.nondet == map[]
  {
    assert CheckMode(arity) in map[CheckMode(arity) := f];
    t := MakeModedOp(name, map[CheckMode(arity) := f], map[]);
    ClosureOfSingle(CheckMode(arity), f, t.det);
    forall m
      ensures m in t.det <==> m == CheckMode(arity) || m == Trues(arity + 1)
    {
      AboveCheckMode(arity, m);
    }
    assert t.det.Keys == map[CheckMode(arity) := f, Trues(arity + 1) := f].Keys;
  }

  /** A table inherited from an empty one is empty. */
  lemma InheritedFromEmpty<H>(r: map<Mode, H>)
    requires Inherited(map[], r)
    ensures r == map[]
  {
    var empty: map<Mode, H> := map[];
    assert Inherited(empty, r);
    assert r.Keys == {};
  }

  /** Above a two-position mode with one bound position are only itself and the all-bound mode. */
  lemma AboveHalfBound(k: Mode, m: Mode)
    requires |k| == 2 && k[0] != k[1]
    ensures Leq(k, m) <==> m == k || m == [true, true]
  {
    if Leq(k, m) && m != k {
      if k[0] {
        assert m[1] != k[1];
      } else {
        assert m[0] != k[0];
      }
      assert m == [m[0], m[1]];
    }
  }

  // add: the result is the first position, a = b + c.

  /** The handlers of add's four declared modes, named by what they compute (two modes share AddSum). */
  datatype AddHandler = AddSum | AddSolveRight | AddSolveLeft

  /** The add handlers over integers: whatever the mode, the triple returned satisfies r = b + c. */
  function AddApply(h: AddHandler, a: int, b: int, c: int): (r: (int, int, int))
    ensures r.0 == r.1 + r.2
  {
    match h
    case AddSum => (b + c, b, c)
    case AddSolveRight => (a, b, a - b)
    case AddSolveLeft => (a, a - c, c)
  }

  /** The mode table add is declared with. */
  function AddModes(): map<Mode, AddHandler> {
    map[[true, true, true] := AddSum, [true, true, false] := AddSolveRight,
        [true, false, true] := AddSolveLeft, [false, true, true] := AddSum]
  }

  /** The values returned at the bound positions of m equal the inputs. */
  predicate AgreesAt3(m: Mode, a: int, b: int, c: int, r: (int, int, int))
    requires |m| == 3
  {
    (m[0] ==> r.0 == a) && (m[1] ==> r.1 == b) && (m[2] ==> r.2 == c)
  }

  /**
    In every mode of add, the bound arguments are returned unchanged, and the
    returned triple unifies with the bound inputs exactly when, with all three
    bound, a = b + c.
  */
  lemma AddModeMeaning(m: Mode, a: int, b: int, c: int)
    requires m in AddModes()
    ensures var r := AddApply(AddModes()[m], a, b, c);
      (m[1] ==> r.1 == b) && (m[2] ==> r.2 == c) &&
      (AgreesAt3(m, a, b, c, r) <==> (m[0] && m[1] && m[2] ==> a == b + c))
  {
  }

  /** The declared add table is already closed upward. */
  lemma AddModesClosed()
    ensures UpClosed(AddModes().Keys)
  {
    forall k, i | k in AddModes().Keys && 0 <= i < |k| && !k[i]
      ensures Raise(k, i) in AddModes().Keys
    {
      if k == [false, true, true] {
        assert i == 0 && Raise(k, i) == [true, true, true];
      } else if k == [true, true, false] {
        assert i == 2 && Raise(k, i) == [true, true, true];
      } else {
        assert k == [true, false, true];
        assert i == 1 && Raise(k, i) == [true, true, true];
      }
    }
  }

  /** add = moded_op('add', ...): inference adds nothing to its table. */
  method AddOp() returns (t: ModedTable<AddHandler>)
    ensures t.name == "add" && t.vars == [Ret, Arg(0), Arg(1)]
    ensures t.det == AddModes() && t.nondet == map[]
  {
    assert [true, true, true] in AddModes();
    t := MakeModedOp("add", AddModes(), map[]);
    AddModesClosed();
    ClosureOfClosed(AddModes(), t.det);
    InheritedFromEmpty(t.nondet);
    ArgVarsOfArity(3);
  }

  // abs: the result is the first position.

  datatype AbsHandler = AbsOfArg | AbsPreimage

  /** What an abs handler gives: one answer, candidates for the argument, or the error state. */
  datatype AbsAnswer = Answer(ret: int, arg: int) | Candidates(ret: int, args: seq<int>) | AbsError

  function Abs(b: int): (r: nat)
    ensures r == b || r == -b
  {
    if b < 0 then -b else b
  }

  /**
    The abs handlers: from the argument, its absolute value; from the result a,
    the candidates a and -a when a > 0, 0 when a = 0, and the error state when a < 0.
  */
  function AbsApply(h: AbsHandler, a: int, b: int): (r: AbsAnswer)
    ensures h == AbsOfArg ==> r.Answer? && r.arg == b && r.ret >= 0
    ensures h == AbsPreimage ==> (r.AbsError? <==> a < 0) && (!r.AbsError? ==> r.ret == a)
  {
    match h
    case AbsOfArg => Answer(Abs(b), b)
    case AbsPreimage =>
      if a > 0 then Candidates(a, [a, -a])
      else if a == 0 then Answer(a, 0)
      else AbsError
  }

  /** The argument values an answer offers. */
  function ArgChoices(r: AbsAnswer): set<int> {
    match r
    case Answer(_, b) => {b}
    case Candidates(_, bs) => set b | b in bs
    case AbsError => {}
  }

  /** The preimage handler offers exactly the arguments whose absolute value is a. */
  lemma AbsPreimageExact(a: int, b0: int, b: int)
    ensures b in ArgChoices(AbsApply(AbsPreimage, a, b0)) <==> Abs(b) == a
  {
    if a > 0 && Abs(b) == a {
      assert b == [a, -a][0] || b == [a, -a][1];
    }
  }

  /** Every argument the preimage handler offers maps back to a under the forward handler. */
  lemma AbsRoundTrip(a: int, b0: int, b: int)
    requires b in ArgChoices(AbsApply(AbsPreimage, a, b0))
    ensures AbsApply(AbsOfArg, a, b) == Answer(a, b)
  {
    AbsPreimageExact(a, b0, b);
  }

  /** The tables moded_op makes from abs_v's declared tables. */
  lemma AbsTables(det: map<Mode, AbsHandler>, nondet: map<Mode, AbsHandler>)
    requires ClosureOf(map[[false, true] := AbsOfArg], det)
    requires Inherited(map[[true, false] := AbsPreimage], nondet)
    requires forall m :: m in nondet ==> m !in det
    requires [true, false] !in det ==> [true, false] in nondet && nondet[[true, false]] == AbsPreimage
    ensures det == map[[false, true] := AbsOfArg, [true, true] := AbsOfArg]
    ensures nondet == map[[true, false] := AbsPreimage]
  {
    var fwd, back := [false, true], [true, false];
    ClosureOfSingle(fwd, AbsOfArg, det);
    forall m
      ensures m in det <==> m == fwd || m == [true, true]
    {
      AboveHalfBound(fwd, m);
    }
    assert det.Keys == map[fwd := AbsOfArg, [true, true] := AbsOfArg].Keys;
    forall m | m in nondet
      ensures m == back
    {
      var k :| k in map[back := AbsPreimage] && Leq(k, m) && nondet[m] == map[back := AbsPreimage][k];
      AboveHalfBound(back, m);
    }
    assert nondet.Keys == {back};
  }

  /**
    abs_v: the forward handler also answers the all-bound mode; the preimage
    handler's inferred all-bound mode is deleted because det has it.
  */
  method AbsOp() returns (t: ModedTable<AbsHandler>)
    ensures t.name == "abs" && t.vars == [Ret, Arg(0)]
    ensures t.det == map[[false, true] := AbsOfArg, [true, true] := AbsOfArg]
    ensures t.nondet == map[[true, false] := AbsPreimage]
  {
    var fwd := [false, true];
    assert fwd in map[fwd := AbsOfArg];
    t := MakeModedOp("abs", map[fwd := AbsOfArg], map[[true, false] := AbsPreimage]);
    ArgVarsOfArity(2);
    AbsTables(t.det, t.nondet);
  }

  // not: the result is the first position.

  datatype NotHandler = NotOfArg | NotOfResult

  /** The not handlers: from b, (not b, bool(b)); from a, (bool(a), not a).  Both return a negated pair. */
  function NotApply(h: NotHandler, a: Value, b: Value): (r: (Value, Value))
    ensures r.0.Bool? && r.1.Bool? && r.0.b == !r.1.b
  {
    match h
    case NotOfArg => (Bool(!Truthy(b)), Bool(Truthy(b)))
    case NotOfResult => (Bool(Truthy(a)), Bool(!Truthy(a)))
  }

  /**
    With both positions bound to booleans, either handler returns the inputs
    unchanged exactly when a = not b: which of the two answers the all-bound mode
    does not change whether the mode succeeds.
  */
  lemma NotHandlersAgree(h: NotHandler, a: bool, b: bool)
    ensures NotApply(h, Bool(a), Bool(b)) == (Bool(a), Bool(b)) <==> a == !b
  {
  }

  /** The det table moded_op makes from unary_not's declared table. */
  lemma NotTable(det: map<Mode, NotHandler>)
    requires ClosureOf(map[[false, true] := NotOfArg, [true, false] := NotOfResult], det)
    ensures det.Keys == {[false, true], [true, false], [true, true]}
    ensures det[[false, true]] == NotOfArg && det[[true, false]] == NotOfResult
  {
    var fwd, back := [false, true], [true, false];
    var d := map[fwd := NotOfArg, back := NotOfResult];
    assert Inherited(d, det);
    forall m | m in det
      ensures m == fwd || m == back || m == [true, true]
    {
      var k :| k in d && Leq(k, m) && det[m] == d[k];
      AboveHalfBound(k, m);
    }
    assert Leq(fwd, fwd) && Leq(back, back) && Leq(fwd, [true, true]);
    assert det[fwd] == d[fwd] && det[back] == d[back];
  }

  /** unary_not: both declared modes are kept and the all-bound mode is inferred from one of them. */
  method NotOp() returns (t: ModedTable<NotHandler>)
    ensures t.name == "not" && t.vars == [Ret, Arg(0)]
    ensures t.det.Keys == {[false, true], [true, false], [true, true]}
    ensures t.det[[false, true]] == NotOfArg && t.det[[true, false]] == NotOfResult
    ensures t.nondet == map[]
  {
    var d := map[[false, true] := NotOfArg, [true, false] := NotOfResult];
    assert [false, true] in d;
    t := MakeModedOp("not", d, map[]);
    ArgVarsOfArity(2);
    NotTable(t.det);
    InheritedFromEmpty(t.nondet);
  }
}

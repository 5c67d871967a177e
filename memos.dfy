/**
  Memo tables (dyna/memos.py): a container that stores, per key of bound
  values, the R-expression computed for it; the iterator over the values of
  one key position; and the two memo readers, which consult the table only
  when enough of their variables are bound.
*/
module Memos {
  import opened Wrappers
  import opened RExprs

  /** A memo key: the values at the supported positions, in order. */
  type Key = seq<Value>

  /** A memo slot: the sentinel stored while the value is being computed, or the stored result. */
  datatype Slot = Computing | Done(result: RExpr)

  /** A frame: the values of the bound variables. */
  type Frame = map<Var, Value>

  /** Why a lookup raises: the key is being computed, or the sentinel was overwritten during the computation. */
  datatype MemoFault = ReadWhileComputing | Overwritten

  /** The number of supported positions. */
  function CountTrue(mode: Mode): nat {
    if mode == [] then 0 else CountTrue(mode[..|mode| - 1]) + (if mode[|mode| - 1] then 1 else 0)
  }

  /** Every supported position holds a value. */
  predicate BoundAt(mode: Mode, values: seq<Option<Value>>)
    requires |mode| == |values|
  {
    forall i :: 0 <= i < |mode| && mode[i] ==> values[i].Some?
  }

  /** The key of a lookup: the values at the supported positions, in order. */
  function Project(mode: Mode, values: seq<Option<Value>>): (k: Key)
    requires |mode| == |values| && BoundAt(mode, values)
    ensures |k| == CountTrue(mode)
  {
    if mode == [] then []
    else
      var n := |mode| - 1;
      Project(mode[..n], values[..n]) + (if mode[n] then [values[n].value] else [])
  }

  /** The j-th entry of the key is the value at the j-th supported position. */
  lemma {:induction false} ProjectPositions(mode: Mode, values: seq<Option<Value>>, i: nat)
    requires |mode| == |values| && BoundAt(mode, values)
    requires i < |mode| && mode[i]
    ensures CountTrue(mode[..i]) < |Project(mode, values)|
    ensures Project(mode, values)[CountTrue(mode[..i])] == values[i].value
  {
    var n := |mode| - 1;
    assert mode[..n][..i] == mode[..i] by {
      if i < n {
      }
    }
    if i < n {
      ProjectPositions(mode[..n], values[..n], i);
      CountPrefix(mode, i, n);
    } else {
      assert mode[..n] == mode[..i];
    }
  }

  lemma CountPrefix(mode: Mode, i: nat, n: nat)
    requires i <= n <= |mode|
    ensures CountTrue(mode[..i]) <= CountTrue(mode[..n])
    decreases n - i
  {
    if i < n {
      CountPrefix(mode, i, n - 1);
      assert mode[..n][..n - 1] == mode[..n - 1];
    }
  }

  /** The frame compute starts from: every supported variable bound to its value, in order. */
  function SupportedFrame(vars: seq<Var>, mode: Mode, values: seq<Option<Value>>): Frame
    requires |vars| == |mode| == |values| && BoundAt(mode, values)
  {
    if vars == [] then map[]
    else
      var n := |vars| - 1;
      var f := SupportedFrame(vars[..n], mode[..n], values[..n]);
      if mode[n] then f[vars[n] := values[n].value] else f
  }

  /** With distinct variables, compute binds exactly the supported ones, to their values. */
  lemma {:induction false} SupportedFrameBinds(vars: seq<Var>, mode: Mode, values: seq<Option<Value>>)
    requires |vars| == |mode| == |values| && BoundAt(mode, values) && Distinct(vars)
    ensures forall v :: v in SupportedFrame(vars, mode, values) <==> exists i :: 0 <= i < |vars| && vars[i] == v && mode[i]
    ensures forall i :: 0 <= i < |vars| && mode[i] ==> SupportedFrame(vars, mode, values)[vars[i]] == values[i].value
  {
    if vars != [] {
      var n := |vars| - 1;
      SupportedFrameBinds(vars[..n], mode[..n], values[..n]);
      var f := SupportedFrame(vars, mode, values);
      forall v
        ensures v in f <==> exists i :: 0 <= i < |vars| && vars[i] == v && mode[i]
      {
        if v in f && !(mode[n] && v == vars[n]) {
          assert v in SupportedFrame(vars[..n], mode[..n], values[..n]);
          var i :| 0 <= i < n && vars[..n][i] == v && mode[..n][i];
          assert vars[i] == v && mode[i];
        }
        if exists i :: 0 <= i < |vars| && vars[i] == v && mode[i] {
          var i :| 0 <= i < |vars| && vars[i] == v && mode[i];
          if i < n {
            assert vars[..n][i] == v && mode[..n][i];
          }
        }
      }
      forall i | 0 <= i < |vars| && mode[i]
        ensures f[vars[i]] == values[i].value
      {
        if i < n {
          assert vars[..n][i] == vars[i] && mode[..n][i] && values[..n][i] == values[i];
          assert vars[i] != vars[n];
        }
      }
    }
  }

  /**
    The second loop of compute: for each variable in order, a non-supported
    variable the frame binds gets an equality with its value put in front, and
    the variable is unset.  Gives the equalities and what is left of the frame.
  */
  function Unbind(vars: seq<Var>, mode: Mode, f: Frame): (seq<RExpr>, Frame)
    requires |vars| == |mode|
  {
    if vars == [] then ([], f)
    else
      var n := |vars| - 1;
      var (eqs, g) := Unbind(vars[..n], mode[..n], f);
      var v := vars[n];
      if !mode[n] && v in g then ([Unify(v, Constant(g[v]))] + eqs, g - {v})
      else (eqs, g - {v})
  }

  /**
    With distinct variables: the frame left over is the input frame without
    the memo variables, and the equalities are exactly one per non-supported
    variable the frame binds, equating it with its value.
  */
  lemma {:induction false} UnbindMeaning(vars: seq<Var>, mode: Mode, f: Frame)
    requires |vars| == |mode| && Distinct(vars)
    ensures forall v :: v in Unbind(vars, mode, f).1 <==> v in f && v !in vars
    ensures forall v :: v in Unbind(vars, mode, f).1 ==> Unbind(vars, mode, f).1[v] == f[v]
    ensures forall e :: e in Unbind(vars, mode, f).0 <==>
              exists i :: 0 <= i < |vars| && !mode[i] && vars[i] in f && e == Unify(vars[i], Constant(f[vars[i]]))
  {
    if vars != [] {
      var n := |vars| - 1;
      UnbindMeaning(vars[..n], mode[..n], f);
      var (eqs, g) := Unbind(vars[..n], mode[..n], f);
      var v := vars[n];
      assert forall j :: 0 <= j < n ==> vars[..n][j] == vars[j] != v;
      assert v in g <==> v in f;
      forall e
        ensures e in Unbind(vars, mode, f).0 <==>
                exists i :: 0 <= i < |vars| && !mode[i] && vars[i] in f && e == Unify(vars[i], Constant(f[vars[i]]))
      {
        if e in eqs {
          var i :| 0 <= i < n && !mode[..n][i] && vars[..n][i] in f && e == Unify(vars[..n][i], Constant(f[vars[..n][i]]));
          assert !mode[i] && vars[i] in f && e == Unify(vars[i], Constant(f[vars[i]]));
        }
        if exists i :: 0 <= i < |vars| && !mode[i] && vars[i] in f && e == Unify(vars[i], Constant(f[vars[i]])) {
          var i :| 0 <= i < |vars| && !mode[i] && vars[i] in f && e == Unify(vars[i], Constant(f[vars[i]]));
          if i < n {
            assert !mode[..n][i] && vars[..n][i] in f && e == Unify(vars[..n][i], Constant(f[vars[..n][i]]));
          }
        }
      }
      forall u
        ensures u in Unbind(vars, mode, f).1 <==> u in f && u !in vars
      {
        assert u in vars <==> u in vars[..n] || u == v by {
          assert vars == vars[..n] + [v];
        }
      }
    }
  }

  /**
    What compute returns, given what saturate makes of the body and the
    supported frame: the equalities for the non-supported variables saturate
    bound, then the saturated body, intersected; the variables still bound
    are then renamed to constants.
  */
  function ComputeResult(vars: seq<Var>, mode: Mode, body: RExpr, values: seq<Option<Value>>,
                         saturate: (RExpr, Frame) -> (RExpr, Frame), rename: (RExpr, map<Var, Var>) -> RExpr): RExpr
    requires |vars| == |mode| == |values| && BoundAt(mode, values)
  {
    var (b, f) := saturate(body, SupportedFrame(vars, mode, values));
    var (eqs, rest) := Unbind(vars, mode, f);
    var nR := Intersect(eqs + [b]);
    if rest == map[] then nR else rename(nR, map v | v in rest :: Constant(rest[v]))
  }

  /** The slot the last of the writes to k stores, if any writes k. */
  function LastWrite(writes: seq<(Key, Slot)>, k: Key): Option<Slot> {
    if writes == [] then None
    else if writes[|writes| - 1].0 == k then Some(writes[|writes| - 1].1)
    else LastWrite(writes[..|writes| - 1], k)
  }

  /** The dict after the writes, applied in order. */
  function Written(m: map<Key, Slot>, writes: seq<(Key, Slot)>): map<Key, Slot> {
    if writes == [] then m
    else Written(m, writes[..|writes| - 1])[writes[|writes| - 1].0 := writes[|writes| - 1].1]
  }

  /** After the writes, a key is present when it was before or was written, and holds its last write or else its old slot. */
  lemma {:induction false} WrittenLastWrite(m: map<Key, Slot>, writes: seq<(Key, Slot)>)
    ensures forall k :: k in Written(m, writes) <==> k in m || LastWrite(writes, k).Some?
    ensures forall k :: k in Written(m, writes) ==>
              Written(m, writes)[k] == if LastWrite(writes, k).Some? then LastWrite(writes, k).value else m[k]
    decreases |writes|
  {
    if writes != [] {
      WrittenLastWrite(m, writes[..|writes| - 1]);
    }
  }

  /** The iteration order of a dict after the writes: a key written for the first time goes last. */
  function OrderAfter(order: seq<Key>, writes: seq<(Key, Slot)>): (r: seq<Key>)
    ensures order <= r
    ensures Distinct(order) ==> Distinct(r)
    ensures forall k :: k in r <==> k in order || LastWrite(writes, k).Some?
  {
    if writes == [] then order
    else
      var o := OrderAfter(order, writes[..|writes| - 1]);
      if writes[|writes| - 1].0 in o then o else o + [writes[|writes| - 1].0]
  }

  /** The memo table of one memoized term. */
  class MemoContainer {
    const supportedMode: Mode
    const variables: seq<Var>
    const body: RExpr
    /** key -> slot; the Python dict. */
    var memos: map<Key, Slot>
    /** The keys of memos in insertion order (the dict's iteration order). */
    var order: seq<Key>

    ghost predicate Valid()
      reads this
    {
      |supportedMode| == |variables| && Distinct(order) && forall k :: k in memos <==> k in order
    }

    /** __init__: the mode and the variables have the same length; the table starts empty. */
    constructor(supportedMode: Mode, variables: seq<Var>, body: RExpr)
      requires |supportedMode| == |variables|
      ensures Valid() && memos == map[] && order == []
      ensures this.supportedMode == supportedMode && this.variables == variables && this.body == body
    {
      this.supportedMode, this.variables, this.body := supportedMode, variables, body;
      memos, order := map[], [];
    }

    /** memos[k] = s: an existing key keeps its place in the iteration order, a new key goes last. */
    method Store(k: Key, s: Slot)
      requires Valid()
      modifies this
      ensures Valid() && memos == old(memos)[k := s]
      ensures order == if k in old(memos) then old(order) else old(order) + [k]
    {
      if k !in memos {
        order := order + [k];
      }
      memos := memos[k := s];
    }

    /** The writes that code run during compute makes to this table, in order. */
    method StoreAll(writes: seq<(Key, Slot)>)
      requires Valid()
      modifies this
      ensures Valid()
      ensures forall k :: k in memos <==> k in old(memos) || LastWrite(writes, k).Some?
      ensures forall k :: k in memos ==> memos[k] == if LastWrite(writes, k).Some? then LastWrite(writes, k).value else old(memos)[k]
      ensures order == OrderAfter(old(order), writes)
    {
      var i := 0;
      while i < |writes|
        invariant 0 <= i <= |writes| && Valid()
        invariant memos == Written(old(memos), writes[..i])
        invariant order == OrderAfter(old(order), writes[..i])
      {
        Store(writes[i].0, writes[i].1);
        i := i + 1;
        assert writes[..i][..i - 1] == writes[..i - 1];
      }
      assert writes[..i] == writes;
      WrittenLastWrite(old(memos), writes);
    }

    /**
      compute: binds the supported variables, saturates the body (the engine's
      saturate), puts an equality in front for every other variable that
      became bound, and unsets every memo variable.
    */
    method Compute(values: seq<Option<Value>>, saturate: (RExpr, Frame) -> (RExpr, Frame),
                   rename: (RExpr, map<Var, Var>) -> RExpr) returns (r: RExpr)
      requires |supportedMode| == |variables| == |values| && BoundAt(supportedMode, values)
      ensures r == ComputeResult(variables, supportedMode, body, values, saturate, rename)
    {
      var frame: Frame := map[];
      var i := 0;
      while i < |variables|
        invariant 0 <= i <= |variables|
        invariant frame == SupportedFrame(variables[..i], supportedMode[..i], values[..i])
      {
        if supportedMode[i] {
          frame := frame[variables[i] := values[i].value];
        }
        i := i + 1;
        assert variables[..i][..i - 1] == variables[..i - 1];
        assert supportedMode[..i][..i - 1] == supportedMode[..i - 1];
        assert values[..i][..i - 1] == values[..i - 1];
      }
      assert variables[..i] == variables && supportedMode[..i] == supportedMode && values[..i] == values;
      var out := saturate(body, frame);
      var saturated := out.0;
      frame := out.1;
      ghost var after := frame;
      var eqs: seq<RExpr> := [];
      i := 0;
      while i < |variables|
        invariant 0 <= i <= |variables|
        invariant (eqs, frame) == Unbind(variables[..i], supportedMode[..i], after)
      {
        var v := variables[i];
        assert variables[..i + 1][..i] == variables[..i];
        assert supportedMode[..i + 1][..i] == supportedMode[..i];
        assert Unbind(variables[..i + 1], supportedMode[..i + 1], after) ==
          if !supportedMode[i] && v in frame then ([Unify(v, Constant(frame[v]))] + eqs, frame - {v})
          else (eqs, frame - {v});
        if !supportedMode[i] && v in frame {
          eqs := [Unify(v, Constant(frame[v]))] + eqs;
        }
        frame := frame - {v};
        i := i + 1;
      }
      assert variables[..i] == variables && supportedMode[..i] == supportedMode;
      r := Intersect(eqs + [saturated]);
      if frame != map[] {
        r := rename(r, map v | v in frame :: Constant(frame[v]));
      }
    }

    /** The key loop of lookup: the values at the supported positions, in order. */
    method KeyOf(values: seq<Option<Value>>) returns (key: Key)
      requires |supportedMode| == |values| && BoundAt(supportedMode, values)
      ensures key == Project(supportedMode, values)
    {
      key := [];
      var i := 0;
      while i < |values|
        invariant 0 <= i <= |values|
        invariant key == Project(supportedMode[..i], values[..i])
      {
        if supportedMode[i] {
          key := key + [values[i].value];
        }
        i := i + 1;
        assert supportedMode[..i][..i - 1] == supportedMode[..i - 1];
        assert values[..i][..i - 1] == values[..i - 1];
      }
      assert supportedMode[..i] == supportedMode && values[..i] == values;
    }

    /**
      lookup: a hit returns the stored result; a miss returns None when it may
      not compute, and otherwise stores the sentinel, computes (code run during
      the computation makes the writes given), fails if the sentinel is gone,
      and stores the result under the key.
    */
    method Lookup(values: seq<Option<Value>>, computeIfNotSet: bool, saturate: (RExpr, Frame) -> (RExpr, Frame),
                  rename: (RExpr, map<Var, Var>) -> RExpr, writes: seq<(Key, Slot)>) returns (r: Result<Option<RExpr>, MemoFault>)
      requires Valid() && |values| == |variables| && BoundAt(supportedMode, values)
      modifies this
      ensures Valid()
      ensures Project(supportedMode, values) in old(memos) ==>
                memos == old(memos) && order == old(order) &&
                r == if old(memos)[Project(supportedMode, values)].Done?
                     then Ok(Some(old(memos)[Project(supportedMode, values)].result))
                     else Err(ReadWhileComputing)
      ensures Project(supportedMode, values) !in old(memos) && !computeIfNotSet ==>
                memos == old(memos) && order == old(order) && r == Ok(None)
      ensures Project(supportedMode, values) !in old(memos) && computeIfNotSet ==>
                (r.Ok? <==> LastWrite(writes, Project(supportedMode, values)) in {None, Some(Computing)})
      ensures Project(supportedMode, values) !in old(memos) && computeIfNotSet && r.Ok? ==>
                r == Ok(Some(ComputeResult(variables, supportedMode, body, values, saturate, rename))) &&
                Project(supportedMode, values) in memos && memos[Project(supportedMode, values)] == Done(r.value.value)
      ensures Project(supportedMode, values) !in old(memos) && computeIfNotSet && r.Err? ==>
                r == Err(Overwritten) && Project(supportedMode, values) in memos &&
                memos[Project(supportedMode, values)] == LastWrite(writes, Project(supportedMode, values)).value
      ensures Project(supportedMode, values) !in old(memos) && computeIfNotSet ==>
                order == OrderAfter(old(order) + [Project(supportedMode, values)], writes) &&
                forall k :: k != Project(supportedMode, values) ==>
                  (k in memos <==> k in old(memos) || LastWrite(writes, k).Some?) &&
                  (k in memos ==> memos[k] == if LastWrite(writes, k).Some? then LastWrite(writes, k).value else old(memos)[k])
    {
      var key := KeyOf(values);
      if key in memos {
        match memos[key]
        case Done(result) => return Ok(Some(result));
        case Computing => return Err(ReadWhileComputing);
      }
      if !computeIfNotSet {
        return Ok(None);
      }
      Store(key, Computing);
      var nR := Compute(values, saturate, rename);
      StoreAll(writes);
      if key !in memos || memos[key] != Computing {
        return Err(Overwritten);
      }
      Store(key, Done(nR));
      return Ok(Some(nR));
    }
  }

  /** can_run: every position the table supports is bound (positions past the shorter tuple are ignored, as zip does). */
  predicate CanRun(bound: Mode, supported: Mode) {
    forall i :: 0 <= i < |bound| && i < |supported| && supported[i] ==> bound[i]
  }

  /** What a memo reader simplifies to. */
  datatype ReaderOutcome =
    | Unchanged
      /** The reader fails: a null memo without an entry. */
    | Failed
      /** The stored result, to be renamed into the reader's variables and simplified by the engine. */
    | Continue(result: RExpr)

  /** simplify_unkmemo: with too little bound, the reader itself; otherwise the computing lookup. */
  method SimplifyUnkMemo(m: MemoContainer, bound: Mode, values: seq<Option<Value>>,
                         saturate: (RExpr, Frame) -> (RExpr, Frame), rename: (RExpr, map<Var, Var>) -> RExpr,
                         writes: seq<(Key, Slot)>) returns (r: Result<ReaderOutcome, MemoFault>)
    requires m.Valid() && |bound| == |values| == |m.variables|
    requires forall i :: 0 <= i < |bound| ==> (bound[i] <==> values[i].Some?)
    modifies m
    ensures m.Valid()
    ensures !CanRun(bound, m.supportedMode) ==> r == Ok(Unchanged) && m.memos == old(m.memos)
    ensures CanRun(bound, m.supportedMode) ==>
      var key := Project(m.supportedMode, values);
      (key in old(m.memos) && old(m.memos)[key].Done? ==> r == Ok(Continue(old(m.memos)[key].result)) && m.memos == old(m.memos)) &&
      (key in old(m.memos) && !old(m.memos)[key].Done? ==> r == Err(ReadWhileComputing) && m.memos == old(m.memos)) &&
      (key !in old(m.memos) ==> (r.Ok? <==> LastWrite(writes, key) in {None, Some(Computing)})) &&
      (key !in old(m.memos) && r.Ok? ==>
         r == Ok(Continue(ComputeResult(m.variables, m.supportedMode, m.body, values, saturate, rename))) &&
         key in m.memos && m.memos[key] == Done(ComputeResult(m.variables, m.supportedMode, m.body, values, saturate, rename))) &&
      (key !in old(m.memos) && r.Err? ==> r == Err(Overwritten) && key in m.memos && m.memos[key] == LastWrite(writes, key).value) &&
      (key !in old(m.memos) ==>
         m.order == OrderAfter(old(m.order) + [key], writes) &&
         forall k :: k != key ==>
           (k in m.memos <==> k in old(m.memos) || LastWrite(writes, k).Some?) &&
           (k in m.memos ==> m.memos[k] == if LastWrite(writes, k).Some? then LastWrite(writes, k).value else old(m.memos)[k]))
  {
    if !CanRun(bound, m.supportedMode) {
      return Ok(Unchanged);
    }
    var res := m.Lookup(values, true, saturate, rename, writes);
    match res
    case Err(e) => return Err(e);
    case Ok(o) =>
      match o
      case Some(x) => return Ok(Continue(x));
      case None => assert false; return Ok(Unchanged);
  }

  /** simplify_nullmemo: never computes; a key without an entry makes the reader fail. */
  method SimplifyNullMemo(m: MemoContainer, bound: Mode, values: seq<Option<Value>>,
                          saturate: (RExpr, Frame) -> (RExpr, Frame), rename: (RExpr, map<Var, Var>) -> RExpr)
    returns (r: Result<ReaderOutcome, MemoFault>)
    requires m.Valid() && |bound| == |values| == |m.variables|
    requires forall i :: 0 <= i < |bound| ==> (bound[i] <==> values[i].Some?)
    modifies m
    ensures m.memos == old(m.memos) && m.order == old(m.order)
    ensures !CanRun(bound, m.supportedMode) ==> r == Ok(Unchanged)
    ensures CanRun(bound, m.supportedMode) ==>
      var key := Project(m.supportedMode, values);
      (key !in m.memos ==> r == Ok(Failed)) &&
      (key in m.memos ==> r == if m.memos[key].Done? then Ok(Continue(m.memos[key].result)) else Err(ReadWhileComputing))
  {
    if !CanRun(bound, m.supportedMode) {
      return Ok(Unchanged);
    }
    var res := m.Lookup(values, false, saturate, rename, []);
    match res
    case Err(e) => return Err(e);
    case Ok(o) =>
      match o
      case None => return Ok(Failed);
      case Some(x) => return Ok(Continue(x));
  }

  /** The values of a sequence with repeats dropped, each kept where it first occurs. */
  function Dedup(s: seq<Value>): (r: seq<Value>)
    ensures Distinct(r)
    ensures forall v :: v in r <==> v in s
  {
    if s == [] then []
    else
      var d := Dedup(s[..|s| - 1]);
      if s[|s| - 1] in d then d else d + [s[|s| - 1]]
  }

  /** The position at which v first occurs in s. */
  function FirstIndex(s: seq<Value>, v: Value): (i: nat)
    requires v in s
    ensures i < |s| && s[i] == v && forall j :: 0 <= j < i ==> s[j] != v
  {
    if s[0] == v then 0 else 1 + FirstIndex(s[1..], v)
  }

  /** Dedup keeps first-seen order: earlier in the result means first seen earlier. */
  lemma {:induction false} DedupFirstSeenOrder(s: seq<Value>, i: nat, j: nat)
    requires i < j < |Dedup(s)|
    ensures FirstIndex(s, Dedup(s)[i]) < FirstIndex(s, Dedup(s)[j])
  {
    var n := |s| - 1;
    var d := Dedup(s[..n]);
    FirstIndexPrefix(s, n);
    if j < |d| {
      DedupFirstSeenOrder(s[..n], i, j);
    } else {
      assert Dedup(s)[j] == s[n] && s[n] !in s[..n];
      assert FirstIndex(s, s[n]) == n;
    }
  }

  /** A value of the prefix is first seen at the same place in the whole sequence. */
  lemma FirstIndexPrefix(s: seq<Value>, n: nat)
    requires n <= |s|
    ensures forall v :: v in s[..n] ==> FirstIndex(s, v) == FirstIndex(s[..n], v)
  {
    forall v | v in s[..n]
      ensures FirstIndex(s, v) == FirstIndex(s[..n], v)
    {
      assert forall j :: 0 <= j < n ==> s[..n][j] == s[j];
    }
  }

  /** The values at position pos of the given keys, in order. */
  function Column(keys: seq<Key>, pos: nat): (c: seq<Value>)
    requires forall k :: k in keys ==> pos < |k|
    ensures |c| == |keys| && forall i :: 0 <= i < |keys| ==> c[i] == keys[i][pos]
  {
    if keys == [] then [] else Column(keys[..|keys| - 1], pos) + [keys[|keys| - 1][pos]]
  }

  lemma DedupNext(keys: seq<Key>, i: nat, pos: nat)
    requires i < |keys| && forall k :: k in keys ==> pos < |k|
    ensures var d := Dedup(Column(keys[..i], pos));
      Dedup(Column(keys[..i + 1], pos)) == if keys[i][pos] in d then d else d + [keys[i][pos]]
  {
    assert keys[..i + 1][..i] == keys[..i];
  }

  /** An iterator over the values a memo table holds at one key position. */
  class MemoIterator {
    const variable: Var
    const pos: nat
    const memos: MemoContainer

    constructor(variable: Var, pos: nat, memos: MemoContainer)
      ensures this.variable == variable && this.pos == pos && this.memos == memos
    {
      this.variable, this.pos, this.memos := variable, pos, memos;
    }

    /** bind_iterator: whether some key holds value at pos. */
    method BindIterator(value: Value) returns (found: bool)
      requires memos.Valid() && forall k :: k in memos.memos ==> pos < |k|
      ensures found <==> exists k :: k in memos.memos && k[pos] == value
    {
      var keys := memos.order;
      var i := 0;
      while i < |keys|
        invariant 0 <= i <= |keys|
        invariant forall j :: 0 <= j < i ==> keys[j][pos] != value
      {
        if keys[i][pos] == value {
          return true;
        }
        i := i + 1;
      }
      forall k | k in memos.memos
        ensures k[pos] != value
      {
        var j :| 0 <= j < |keys| && keys[j] == k;
      }
      return false;
    }

    /**
      run: each distinct value at pos once, in the order the keys were first
      inserted; each is yielded as the binding of variable.
    */
    method Run() returns (emitted: seq<Value>)
      requires memos.Valid() && forall k :: k in memos.memos ==> pos < |k|
      ensures emitted == Dedup(Column(memos.order, pos))
    {
      var keys := memos.order;
      emitted := [];
      var seen: set<Value> := {};
      var i := 0;
      while i < |keys|
        invariant 0 <= i <= |keys|
        invariant emitted == Dedup(Column(keys[..i], pos))
        invariant forall v :: v in seen <==> v in emitted
      {
        var v := keys[i][pos];
        DedupNext(keys, i, pos);
        if v !in seen {
          seen := seen + {v};
          emitted := emitted + [v];
        }
        i := i + 1;
      }
      assert keys[..i] == keys;
    }
  }

  /** run yields every value held at pos by some key, and only those, each exactly once. */
  lemma RunYieldsColumn(keys: seq<Key>, memos: map<Key, Slot>, pos: nat)
    requires forall k :: k in memos <==> k in keys
    requires forall k :: k in keys ==> pos < |k|
    ensures Distinct(Dedup(Column(keys, pos)))
    ensures forall v :: v in Dedup(Column(keys, pos)) <==> exists k :: k in memos && k[pos] == v
  {
    forall v
      ensures v in Column(keys, pos) <==> exists k :: k in memos && k[pos] == v
    {
      if exists k :: k in memos && k[pos] == v {
        var k :| k in memos && k[pos] == v;
        var j :| 0 <= j < |keys| && keys[j] == k;
        assert Column(keys, pos)[j] == v;
      }
    }
  }

  /** __eq__: the same container, or equal body, variables, supported mode and table. */
  predicate SameTable(a: MemoContainer, b: MemoContainer)
    reads a, b
  {
    a == b || (a.body == b.body && a.variables == b.variables && a.supportedMode == b.supportedMode && a.memos == b.memos)
  }

  /** Container equality is an equivalence: reflexive, symmetric and transitive. */
  lemma SameTableEquivalence(a: MemoContainer, b: MemoContainer, c: MemoContainer)
    ensures SameTable(a, a)
    ensures SameTable(a, b) ==> SameTable(b, a)
    ensures SameTable(a, b) && SameTable(b, c) ==> SameTable(a, c)
  {
  }
}

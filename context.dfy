/**
  The term registry (SystemContext in dyna/context.py): the layered per-term
  maps (as defined, as optimized, as memoized, as compiled), the order in which
  a lookup resolves a term and the assumption that wraps the result, the
  rotation of assumptions when a term changes, interning of merged and
  compiled expressions, and the emptiness oracle check_basecases.
*/
module Context {
  import opened Wrappers
  import opened RExprs
  import Agenda
  import SafetyPlanner

  // ---------------------------------------------------------------------------
  // Assumptions
  // ---------------------------------------------------------------------------

  /** Which assumption of which term an arena cell is: the term assumption or the defined-assumption. */
  datatype Label = TermLabel(name: TermId) | DefinedLabel(name: TermId)

  /** What an assumption notifies: another assumption, or a response that re-optimizes a term. */
  datatype Tracker = Tracks(assumption: nat) | Reoptimize(term: TermId)

  /** An assumption: a validity flag and the trackers registered with it, in registration order. */
  datatype Assumption = Assumption(owner: Label, valid: bool, trackers: seq<Tracker>)

  /** Every cell of a survives in a' with its owner, its flag (unless listed in dropped) and its trackers as a prefix. */
  ghost predicate ArenaKept(a: seq<Assumption>, a': seq<Assumption>, dropped: set<nat>) {
    |a| <= |a'| &&
    forall i :: 0 <= i < |a| ==>
      a'[i].owner == a[i].owner && a[i].trackers <= a'[i].trackers &&
      (i !in dropped ==> a'[i].valid == a[i].valid)
  }

  /** Every entry of m is still in m'. */
  ghost predicate MapKept<K, V>(m: map<K, V>, m': map<K, V>) {
    forall k :: k in m ==> k in m' && m'[k] == m[k]
  }

  /**
    The assumption bookkeeping of the registry: the current term assumption
    and defined-assumption of each term (term_assumptions and
    terms_as_defined_assumptions), over the arena of every assumption made.
  */
  datatype Ledger = Ledger(term: map<TermId, nat>, defined: map<TermId, nat>, arena: seq<Assumption>)

  /**
    Each current assumption is a valid cell owned by its term, and every term
    with a term assumption has a defined-assumption that tracks it.
  */
  ghost predicate LedgerOk(b: Ledger) {
    (forall t :: t in b.defined ==>
      b.defined[t] < |b.arena| && b.arena[b.defined[t]].owner == DefinedLabel(t) && b.arena[b.defined[t]].valid) &&
    (forall t :: t in b.term ==>
      t in b.defined && b.term[t] < |b.arena| && b.arena[b.term[t]].owner == TermLabel(t) &&
      b.arena[b.term[t]].valid && Tracks(b.term[t]) in b.arena[b.defined[t]].trackers)
  }

  /** The arena with tr registered at the end of cell holder's trackers (Assumption.track). */
  function Tracked(arena: seq<Assumption>, holder: nat, tr: Tracker): seq<Assumption> {
    if holder < |arena| then arena[holder := arena[holder].(trackers := arena[holder].trackers + [tr])] else arena
  }

  /** The arena with cell id marked invalid (Assumption.invalidate, without notifying its trackers). */
  function Invalidated(arena: seq<Assumption>, id: nat): seq<Assumption> {
    if id < |arena| then arena[id := arena[id].(valid := false)] else arena
  }

  /** A new valid assumption without trackers keeps the bookkeeping well formed. */
  lemma AppendKeepsOk(b: Ledger, owner: Label)
    requires LedgerOk(b)
    ensures LedgerOk(b.(arena := b.arena + [Assumption(owner, true, [])]))
  {
    var a := b.arena + [Assumption(owner, true, [])];
    assert forall i :: 0 <= i < |b.arena| ==> a[i] == b.arena[i];
  }

  /** Registering a tracker keeps the bookkeeping well formed. */
  lemma TrackKeepsOk(b: Ledger, holder: nat, tr: Tracker)
    requires LedgerOk(b)
    ensures LedgerOk(b.(arena := Tracked(b.arena, holder, tr)))
  {
    var arena := Tracked(b.arena, holder, tr);
    forall t | t in b.term
      ensures Tracks(b.term[t]) in arena[b.defined[t]].trackers
    {
      assert b.arena[b.defined[t]].trackers <= arena[b.defined[t]].trackers;
    }
  }

  /** Making the valid cell a the term assumption of name, tracked by its defined-assumption, keeps the bookkeeping well formed. */
  lemma InstallTermOk(b: Ledger, name: TermId, a: nat)
    requires LedgerOk(b) && name in b.defined && a < |b.arena|
    requires b.arena[a].owner == TermLabel(name) && b.arena[a].valid
    ensures LedgerOk(Ledger(b.term[name := a], b.defined, Tracked(b.arena, b.defined[name], Tracks(a))))
  {
    var arena := Tracked(b.arena, b.defined[name], Tracks(a));
    forall t | t in b.term && t != name
      ensures Tracks(b.term[t]) in arena[b.defined[t]].trackers
    {
      assert b.arena[b.defined[t]].trackers <= arena[b.defined[t]].trackers;
    }
  }

  /** Invalidating a cell that no term currently uses keeps the bookkeeping well formed. */
  lemma InvalidateUnusedKeepsOk(b: Ledger, id: nat)
    requires LedgerOk(b)
    requires forall t :: t in b.term ==> b.term[t] != id
    requires forall t :: t in b.defined ==> b.defined[t] != id
    ensures LedgerOk(b.(arena := Invalidated(b.arena, id)))
  {
  }

  /**
    term_as_defined_assumption (context.py:71-74): the existing
    defined-assumption, or a fresh valid cell registered for name; the term
    assumptions are untouched.
  */
  function DefinedOf(b: Ledger, name: TermId): (r: (Ledger, nat))
    ensures name in r.0.defined && r.0.defined[name] == r.1 && r.0.term == b.term
    ensures name in b.defined ==> r == (b, b.defined[name])
    ensures name !in b.defined ==> r.1 == |b.arena| && r.0.arena == b.arena + [Assumption(DefinedLabel(name), true, [])]
  {
    if name in b.defined then (b, b.defined[name])
    else (Ledger(b.term, b.defined[name := |b.arena|], b.arena + [Assumption(DefinedLabel(name), true, [])]), |b.arena|)
  }

  lemma DefinedOfOk(b: Ledger, name: TermId)
    requires LedgerOk(b)
    ensures LedgerOk(DefinedOf(b, name).0)
  {
    if name !in b.defined {
      AppendKeepsOk(b, DefinedLabel(name));
    }
  }

  /**
    term_assumption (context.py:76-81): the existing term assumption, or a
    fresh cell that the term's defined-assumption (made if need be) tracks.
  */
  function TermOf(b: Ledger, name: TermId): (r: (Ledger, nat))
    ensures name in r.0.term && r.0.term[name] == r.1 && r.0.term == b.term[name := r.1]
    ensures name in b.defined ==> r.0.defined == b.defined
    ensures name in b.term ==> r == (b, b.term[name])
    ensures name !in b.term ==> r.1 == |b.arena| && |r.0.arena| > |b.arena|
  {
    if name in b.term then (b, b.term[name])
    else
      var p := DefinedOf(b.(arena := b.arena + [Assumption(TermLabel(name), true, [])]), name);
      (Ledger(p.0.term[name := |b.arena|], p.0.defined, Tracked(p.0.arena, p.1, Tracks(|b.arena|))), |b.arena|)
  }

  lemma TermOfOk(b: Ledger, name: TermId)
    requires LedgerOk(b)
    ensures LedgerOk(TermOf(b, name).0)
  {
    if name !in b.term {
      var b1 := b.(arena := b.arena + [Assumption(TermLabel(name), true, [])]);
      AppendKeepsOk(b, TermLabel(name));
      DefinedOfOk(b1, name);
      var p := DefinedOf(b1, name);
      assert p.0.arena[|b.arena|] == Assumption(TermLabel(name), true, []);
      InstallTermOk(p.0, name, |b.arena|);
    }
  }

  /**
    The bookkeeping half of invalidate_term_assumption (context.py:83-95):
    a fresh term assumption, tracked by the defined-assumption, replaces the
    current one (made first if need be), which is then invalidated.
  */
  function Rotated(b: Ledger, name: TermId): (r: (Ledger, nat))
    ensures r.0.term == b.term[name := r.1] && r.1 >= |b.arena|
    ensures name in b.defined ==> r.0.defined == b.defined
  {
    var p := TermOf(b, name);
    var n := |p.0.arena|;
    var d := if name in p.0.defined then p.0.defined[name] else n + 1;
    var arena := Tracked(p.0.arena + [Assumption(TermLabel(name), true, [])], d, Tracks(n));
    (Ledger(p.0.term[name := n], p.0.defined, Invalidated(arena, p.1)), n)
  }

  /**
    Rotation keeps the bookkeeping well formed, so the new term assumption is
    valid and tracked by the term's defined-assumption; the old term
    assumption is invalid afterwards.
  */
  lemma {:induction false} RotationSpec(b: Ledger, name: TermId)
    requires LedgerOk(b)
    ensures var r := Rotated(b, name);
      LedgerOk(r.0) &&
      (name in b.term ==> !r.0.arena[b.term[name]].valid)
  {
    var p := TermOf(b, name);
    TermOfOk(b, name);
    var n, d, a := |p.0.arena|, p.0.defined[name], p.1;
    var b2 := p.0.(arena := p.0.arena + [Assumption(TermLabel(name), true, [])]);
    var b4 := Ledger(p.0.term[name := n], p.0.defined, Tracked(b2.arena, d, Tracks(n)));
    assert Rotated(b, name).0 == b4.(arena := Invalidated(b4.arena, a));
    AppendKeepsOk(p.0, TermLabel(name));
    assert b2.arena[n] == Assumption(TermLabel(name), true, []);
    InstallTermOk(b2, name, n);
    InvalidateUnusedKeepsOk(b4, a);
    if name !in b.term {
      assert p.0.term == DefinedOf(b.(arena := b.arena + [Assumption(TermLabel(name), true, [])]), name).0.term[name := a];
    }
  }

  /**
    The bookkeeping half of invalidate_term_as_defined_assumption
    (context.py:101-108): a fresh defined-assumption tracking a fresh term
    assumption replaces both current ones, and the old defined-assumption
    (made first if need be) is invalidated.
  */
  function RotatedDefined(b: Ledger, name: TermId): (r: (Ledger, nat))
    ensures r.0.defined == b.defined[name := r.1] && r.0.term == b.term[name := r.1 + 1] && r.1 >= |b.arena|
  {
    var p := DefinedOf(b, name);
    var n := |p.0.arena|;
    var arena := p.0.arena + [Assumption(DefinedLabel(name), true, [Tracks(n + 1)]), Assumption(TermLabel(name), true, [])];
    (Ledger(p.0.term[name := n + 1], p.0.defined[name := n], Invalidated(arena, p.1)), n)
  }

  /**
    The defined rotation keeps the bookkeeping well formed; the old
    defined-assumption is invalid afterwards.
  */
  lemma RotationDefinedSpec(b: Ledger, name: TermId)
    requires LedgerOk(b)
    ensures var r := RotatedDefined(b, name);
      LedgerOk(r.0) &&
      (name in b.defined ==> !r.0.arena[b.defined[name]].valid)
  {
    var p := DefinedOf(b, name);
    var n, a := |p.0.arena|, p.1;
    var arena := p.0.arena + [Assumption(DefinedLabel(name), true, [Tracks(n + 1)]), Assumption(TermLabel(name), true, [])];
    var b2 := Ledger(p.0.term[name := n + 1], p.0.defined[name := n], arena);
    assert RotatedDefined(b, name).0 == b2.(arena := Invalidated(arena, a));
    DefinedOfOk(b, name);
    InstallPairOk(p.0, name);
    InvalidateUnusedKeepsOk(b2, a);
  }

  /** A fresh defined-assumption tracking a fresh term assumption, both installed for name, keeps the bookkeeping well formed. */
  lemma InstallPairOk(b: Ledger, name: TermId)
    requires LedgerOk(b)
    ensures var n := |b.arena|;
      LedgerOk(Ledger(b.term[name := n + 1], b.defined[name := n],
        b.arena + [Assumption(DefinedLabel(name), true, [Tracks(n + 1)]), Assumption(TermLabel(name), true, [])]))
  {
    var n := |b.arena|;
    var arena := b.arena + [Assumption(DefinedLabel(name), true, [Tracks(n + 1)]), Assumption(TermLabel(name), true, [])];
    var b2 := Ledger(b.term[name := n + 1], b.defined[name := n], arena);
    forall t | t in b2.defined
      ensures b2.defined[t] < |arena| && arena[b2.defined[t]].owner == DefinedLabel(t) && arena[b2.defined[t]].valid
    {
      if t != name {
        assert arena[b.defined[t]] == b.arena[b.defined[t]];
      }
    }
    forall t | t in b2.term
      ensures t in b2.defined && b2.term[t] < |arena| && arena[b2.term[t]].owner == TermLabel(t) &&
        arena[b2.term[t]].valid && Tracks(b2.term[t]) in arena[b2.defined[t]].trackers
    {
      if t != name {
        assert arena[b.defined[t]] == b.arena[b.defined[t]];
        assert arena[b.term[t]] == b.arena[b.term[t]];
      }
    }
  }

  // ---------------------------------------------------------------------------
  // Lookup resolution
  // ---------------------------------------------------------------------------

  /** The four per-term layers and the interned merged expressions, each with its exposed variables. */
  datatype Layers = Layers(
    defined: map<TermId, RExpr>,
    optimized: map<TermId, RExpr>,
    memoized: map<TermId, RExpr>,
    compiled: map<TermId, CompiledExpression>,
    merged: map<RExpr, set<Var>>)

  /** `$` of any arity names a tuple constructor rather than a registered term. */
  predicate IsTuple(name: TermId) {
    name.Functor? && name.name == "$"
  }

  /**
    The body lookup_term finds for name before it wraps it
    (context.py:257-282): the tuple constructor, then the memo, compiled,
    optimized and defined layers, each skipped when ignore names it, then a
    registered merged expression; an unregistered merged expression fails the
    source's assertion, and any other unknown name is the failure leaf.
  */
  function Resolve(l: Layers, name: TermId, ignore: set<string>): (r: Result<RExpr, string>)
    ensures r.Err? <==>
      !IsTuple(name) && name.Merged? && name.expression !in l.merged &&
      name !in l.defined && (name !in l.memoized || "memo" in ignore) &&
      (name !in l.compiled || "compile" in ignore) && (name !in l.optimized || "optimized" in ignore)
  {
    if IsTuple(name) then Ok(BuildStructure("$", Ret, ArgVars(name.arity)))
    else if name in l.memoized && "memo" !in ignore then Ok(l.memoized[name])
    else if name in l.compiled && "compile" !in ignore then Ok(EnterCompiledCode(l.compiled[name]))
    else if name in l.optimized && "optimized" !in ignore then Ok(l.optimized[name])
    else if name in l.defined then Ok(l.defined[name])
    else if name.Merged? && name.expression in l.merged then Ok(name.expression)
    else if name.Merged? then Err("lookup of an unregistered merged expression")
    else Ok(Failure)
  }

  /** A tuple or a memoized body is returned as it is; every other body is wrapped in an assumption. */
  predicate Unwrapped(l: Layers, name: TermId, ignore: set<string>) {
    IsTuple(name) || (name in l.memoized && "memo" !in ignore)
  }

  /**
    A layer that ignore does not name hides every layer after it, in the order
    memo, compiled, optimized, defined; a registered merged expression is used
    only when none of the layers in play holds the name, and any other unknown
    name is the failure leaf.
  */
  lemma ResolveOrder(l: Layers, name: TermId, ignore: set<string>)
    requires !IsTuple(name)
    ensures name in l.memoized && "memo" !in ignore ==> Resolve(l, name, ignore) == Ok(l.memoized[name])
    ensures (name in l.defined && (name !in l.memoized || "memo" in ignore) &&
             (name !in l.compiled || "compile" in ignore) && (name !in l.optimized || "optimized" in ignore))
      ==> Resolve(l, name, ignore) == Ok(l.defined[name])
    ensures (name in l.compiled && "compile" !in ignore && (name !in l.memoized || "memo" in ignore))
      ==> Resolve(l, name, ignore) == Ok(EnterCompiledCode(l.compiled[name]))
    ensures (name in l.optimized && "optimized" !in ignore && (name !in l.memoized || "memo" in ignore) &&
             (name !in l.compiled || "compile" in ignore))
      ==> Resolve(l, name, ignore) == Ok(l.optimized[name])
    ensures (name.Merged? && name.expression in l.merged && name !in l.defined &&
             (name !in l.memoized || "memo" in ignore) && (name !in l.compiled || "compile" in ignore) &&
             (name !in l.optimized || "optimized" in ignore))
      ==> Resolve(l, name, ignore) == Ok(name.expression)
    ensures (name !in l.defined && (name !in l.memoized || "memo" in ignore) &&
             (name !in l.compiled || "compile" in ignore) && (name !in l.optimized || "optimized" in ignore) &&
             !name.Merged?)
      ==> Resolve(l, name, ignore) == Ok(Failure)
  {
  }

  /** The ignore set the registry hands the safety planner (context.py:53), as written. */
  const PlannerIgnoreAsWritten: set<string> := {"memos", "compile"}

  /** The ignore set the planner needs: the memo and compiled layers are both skipped. */
  const PlannerIgnore: set<string> := {"memo", "compile"}

  /**
    As written, the planner's ignore set names "memos", which lookup_term never
    tests, so the planner is handed a memoized term's memo reader instead of
    its definition.
  */
  lemma PlannerSeesMemoAsWritten(l: Layers, name: TermId)
    requires !IsTuple(name) && name in l.memoized
    ensures Resolve(l, name, PlannerIgnoreAsWritten) == Ok(l.memoized[name])
    ensures name in l.defined && name !in l.optimized && l.memoized[name] != l.defined[name] ==>
      Resolve(l, name, PlannerIgnoreAsWritten) != Resolve(l, name, PlannerIgnore)
  {
  }

  /** With "memo" in the set, the planner's view does not depend on the memo and compiled layers at all. */
  lemma PlannerIgnoresMemo(l: Layers, l': Layers, name: TermId)
    requires l'.defined == l.defined && l'.optimized == l.optimized && l'.merged == l.merged
    ensures Resolve(l', name, PlannerIgnore) == Resolve(l, name, PlannerIgnore)
  {
  }

  /**
    lookup_term (context.py:252-298) on the layers l and the bookkeeping b:
    the result and the bookkeeping afterwards.  A refused or unwrapped body is
    returned as it is; any other body is wrapped in the term assumption, or,
    when "assumption" is ignored, in the defined-assumption (either made if
    need be); with both ignored the bare body is returned.
  */
  function Lookup(l: Layers, b: Ledger, name: TermId, ignore: set<string>): (r: (Result<RExpr, string>, Ledger))
    ensures r.0.Err? <==> Resolve(l, name, ignore).Err?
    ensures r.0.Err? || Unwrapped(l, name, ignore) ==> r == (Resolve(l, name, ignore), b)
  {
    var res := Resolve(l, name, ignore);
    if res.Err? || Unwrapped(l, name, ignore) then (res, b)
    else Wrapped(b, name, res.value, ignore)
  }

  /** The wrapping step of lookup_term (context.py:284-296). */
  function Wrapped(b: Ledger, name: TermId, body: RExpr, ignore: set<string>): (r: (Result<RExpr, string>, Ledger))
    ensures r.0.Ok?
  {
    if "assumption" !in ignore then
      var p := TermOf(b, name);
      (Ok(AssumptionWrapper(p.1, body)), p.0)
    else if "assumption_defined" !in ignore then
      var p := DefinedOf(b, name);
      (Ok(AssumptionWrapper(p.1, body)), p.0)
    else (Ok(body), b)
  }

  /**
    A lookup keeps the bookkeeping well formed, and a wrapped body is wrapped
    in a valid assumption of the looked-up name: its term assumption unless
    "assumption" is ignored, its defined-assumption otherwise.  The body inside
    is the one Resolve finds.
  */
  lemma LookupWrapsValid(l: Layers, b: Ledger, name: TermId, ignore: set<string>)
    requires LedgerOk(b)
    ensures var r := Lookup(l, b, name, ignore);
      LedgerOk(r.1) &&
      (r.0.Ok? && !Unwrapped(l, name, ignore) && ("assumption" !in ignore || "assumption_defined" !in ignore) ==>
        r.0.value.AssumptionWrapper? && r.0.value.wrapped == Resolve(l, name, ignore).value &&
        r.0.value.assumption < |r.1.arena| && r.1.arena[r.0.value.assumption].valid &&
        r.1.arena[r.0.value.assumption].owner == (if "assumption" !in ignore then TermLabel(name) else DefinedLabel(name)))
  {
    TermOfOk(b, name);
    DefinedOfOk(b, name);
  }

  // ---------------------------------------------------------------------------
  // check_basecases
  // ---------------------------------------------------------------------------

  function Max(a: nat, b: nat): nat { if a < b then b else a }
  function Min(a: nat, b: nat): nat { if a < b then a else b }

  lemma FewerUnvisited(keys: set<TermId>, stack: set<TermId>, ref: TermId)
    requires ref in keys && ref !in stack
    ensures |keys - (stack + {ref})| < |keys - stack|
  {
    assert keys - (stack + {ref}) == (keys - stack) - {ref};
  }

  /**
    check_basecases (context.py:504-546) over the resolved bodies defs:
    0 means the expression never reaches a base case, 1 that it is unsure
    (an Evaluate), 2 that it is recursive but has base cases, 3 that no
    recursion was found.  A call resolves through defs; a name defs does not
    know resolves to the failure leaf, which scores 3.
  */
  function Basecases(r: RExpr, stack: set<TermId>, defs: map<TermId, RExpr>): (b: nat)
    ensures b <= 3
    decreases |defs.Keys - stack|, r
  {
    match r
    case Evaluate(_, _, _) => 1
    case EvaluateReflect(_, _) => 1
    case Partition(_, bs) =>
      var p := BranchScores(bs, stack, defs);
      if p.1 == 3 then 3 else Min(p.0, 2)
    case CallTerm(ref, _) =>
      if ref in stack then 0
      else if ref in defs then
        FewerUnvisited(defs.Keys, stack, ref);
        Basecases(defs[ref], stack + {ref}, defs)
      else 3
    case Intersect(cs) => ListScores(cs, stack, defs).1
    case Aggregator(_, _, _, _, body) => Basecases(body, stack, defs)
    case AssumptionWrapper(_, w) => Basecases(w, stack, defs)
    case _ => 3
  }

  /** The maximum (from 0) and the minimum (from 3) of the scores of cs. */
  function ListScores(cs: seq<RExpr>, stack: set<TermId>, defs: map<TermId, RExpr>): (p: (nat, nat))
    ensures p.0 <= 3 && p.1 <= 3
    decreases |defs.Keys - stack|, cs
  {
    if cs == [] then (0, 3)
    else
      var y := Basecases(cs[0], stack, defs);
      var rest := ListScores(cs[1..], stack, defs);
      (Max(y, rest.0), Min(y, rest.1))
  }

  /** The maximum and the minimum of the scores of every R-expression of every branch. */
  function BranchScores(bs: seq<Branch>, stack: set<TermId>, defs: map<TermId, RExpr>): (p: (nat, nat))
    ensures p.0 <= 3 && p.1 <= 3
    decreases |defs.Keys - stack|, bs
  {
    if bs == [] then (0, 3)
    else
      var first := ListScores(bs[0].rexprs, stack, defs);
      var rest := BranchScores(bs[1..], stack, defs);
      (Max(first.0, rest.0), Min(first.1, rest.1))
  }

  /** ListScores is the maximum and minimum: it bounds every score and is attained (or is the start value). */
  lemma {:induction false} ListScoresSpec(cs: seq<RExpr>, stack: set<TermId>, defs: map<TermId, RExpr>)
    ensures var p := ListScores(cs, stack, defs);
      (forall i :: 0 <= i < |cs| ==> p.1 <= Basecases(cs[i], stack, defs) <= p.0) &&
      (p.0 == 0 || exists i :: 0 <= i < |cs| && Basecases(cs[i], stack, defs) == p.0) &&
      (p.1 == 3 || exists i :: 0 <= i < |cs| && Basecases(cs[i], stack, defs) == p.1)
  {
    if cs != [] {
      ListScoresSpec(cs[1..], stack, defs);
      var p := ListScores(cs[1..], stack, defs);
      if p.0 != 0 && Basecases(cs[0], stack, defs) < p.0 {
        var i :| 0 <= i < |cs[1..]| && Basecases(cs[1..][i], stack, defs) == p.0;
        assert cs[i + 1] == cs[1..][i];
      }
      if p.1 != 3 && p.1 < Basecases(cs[0], stack, defs) {
        var i :| 0 <= i < |cs[1..]| && Basecases(cs[1..][i], stack, defs) == p.1;
        assert cs[i + 1] == cs[1..][i];
      }
      forall i | 1 <= i < |cs|
        ensures ListScores(cs, stack, defs).1 <= Basecases(cs[i], stack, defs) <= ListScores(cs, stack, defs).0
      {
        assert cs[i] == cs[1..][i - 1];
      }
    }
  }

  /** BranchScores bounds the score of every R-expression of every branch. */
  lemma {:induction false} BranchScoresBound(bs: seq<Branch>, stack: set<TermId>, defs: map<TermId, RExpr>)
    ensures forall i, j :: 0 <= i < |bs| && 0 <= j < |bs[i].rexprs| ==>
      BranchScores(bs, stack, defs).1 <= Basecases(bs[i].rexprs[j], stack, defs) <= BranchScores(bs, stack, defs).0
  {
    if bs != [] {
      ListScoresSpec(bs[0].rexprs, stack, defs);
      BranchScoresBound(bs[1..], stack, defs);
      forall i, j | 1 <= i < |bs| && 0 <= j < |bs[i].rexprs|
        ensures BranchScores(bs, stack, defs).1 <= Basecases(bs[i].rexprs[j], stack, defs) <= BranchScores(bs, stack, defs).0
      {
        assert bs[i] == bs[1..][i - 1];
      }
    }
  }

  /** The maximum is 0 or the score of some R-expression, and the minimum is 3 or the score of some R-expression. */
  lemma {:induction false} BranchScoresAttained(bs: seq<Branch>, stack: set<TermId>, defs: map<TermId, RExpr>)
    ensures var p := BranchScores(bs, stack, defs);
      (p.0 == 0 || exists i, j :: 0 <= i < |bs| && 0 <= j < |bs[i].rexprs| && Basecases(bs[i].rexprs[j], stack, defs) == p.0) &&
      (p.1 == 3 || exists i, j :: 0 <= i < |bs| && 0 <= j < |bs[i].rexprs| && Basecases(bs[i].rexprs[j], stack, defs) == p.1)
  {
    if bs != [] {
      ListScoresSpec(bs[0].rexprs, stack, defs);
      BranchScoresAttained(bs[1..], stack, defs);
      var first := ListScores(bs[0].rexprs, stack, defs);
      var p := BranchScores(bs[1..], stack, defs);
      if p.0 != 0 && first.0 < p.0 {
        var i, j :| 0 <= i < |bs[1..]| && 0 <= j < |bs[1..][i].rexprs| && Basecases(bs[1..][i].rexprs[j], stack, defs) == p.0;
        assert bs[i + 1] == bs[1..][i];
      }
      if p.1 != 3 && p.1 < first.1 {
        var i, j :| 0 <= i < |bs[1..]| && 0 <= j < |bs[1..][i].rexprs| && Basecases(bs[1..][i].rexprs[j], stack, defs) == p.1;
        assert bs[i + 1] == bs[1..][i];
      }
    }
  }

  /**
    A partition reports no recursion exactly when none of its R-expressions
    does (in particular when it has none), and never reaches a base case
    exactly when it has some R-expression and none of them does.
  */
  lemma PartitionBasecases(u: seq<Var>, bs: seq<Branch>, stack: set<TermId>, defs: map<TermId, RExpr>)
    ensures Basecases(Partition(u, bs), stack, defs) == 3 <==>
      forall i, j :: 0 <= i < |bs| && 0 <= j < |bs[i].rexprs| ==> Basecases(bs[i].rexprs[j], stack, defs) == 3
    ensures Basecases(Partition(u, bs), stack, defs) == 0 <==>
      (exists i :: 0 <= i < |bs| && bs[i].rexprs != []) &&
      forall i, j :: 0 <= i < |bs| && 0 <= j < |bs[i].rexprs| ==> Basecases(bs[i].rexprs[j], stack, defs) == 0
  {
    BranchScoresBound(bs, stack, defs);
    BranchScoresAttained(bs, stack, defs);
    var p := BranchScores(bs, stack, defs);
    if p.1 != 3 {
      var i, j :| 0 <= i < |bs| && 0 <= j < |bs[i].rexprs| && Basecases(bs[i].rexprs[j], stack, defs) == p.1;
      assert bs[i].rexprs != [];
    }
    if exists i :: 0 <= i < |bs| && bs[i].rexprs != [] {
      var i :| 0 <= i < |bs| && bs[i].rexprs != [];
      assert p.1 <= Basecases(bs[i].rexprs[0], stack, defs);
    }
  }

  /**
    An intersection never reaches a base case as soon as one conjunct does
    not, and reports no recursion only when every conjunct reports none.
  */
  lemma IntersectBasecases(cs: seq<RExpr>, stack: set<TermId>, defs: map<TermId, RExpr>)
    ensures Basecases(Intersect(cs), stack, defs) == 0 <==>
      exists i :: 0 <= i < |cs| && Basecases(cs[i], stack, defs) == 0
    ensures Basecases(Intersect(cs), stack, defs) == 3 <==>
      forall i :: 0 <= i < |cs| ==> Basecases(cs[i], stack, defs) == 3
  {
    ListScoresSpec(cs, stack, defs);
  }

  /** An expression with no call anywhere in it. */
  predicate NoCalls(r: RExpr) {
    match r
    case CallTerm(_, _) => false
    case Intersect(cs) => NoCallsList(cs)
    case Partition(_, bs) => NoCallsBranches(bs)
    case Aggregator(_, _, _, _, body) => NoCalls(body)
    case AssumptionWrapper(_, w) => NoCalls(w)
    case _ => true
  }

  predicate NoCallsList(cs: seq<RExpr>) {
    forall i :: 0 <= i < |cs| ==> NoCalls(cs[i])
  }

  predicate NoCallsBranches(bs: seq<Branch>) {
    forall i :: 0 <= i < |bs| ==> NoCallsList(bs[i].rexprs)
  }

  /** An expression with no Evaluate anywhere in it. */
  predicate NoEvaluates(r: RExpr) {
    match r
    case Evaluate(_, _, _) => false
    case EvaluateReflect(_, _) => false
    case Intersect(cs) => forall i :: 0 <= i < |cs| ==> NoEvaluates(cs[i])
    case Partition(_, bs) => forall i, j :: 0 <= i < |bs| && 0 <= j < |bs[i].rexprs| ==> NoEvaluates(bs[i].rexprs[j])
    case Aggregator(_, _, _, _, body) => NoEvaluates(body)
    case AssumptionWrapper(_, w) => NoEvaluates(w)
    case _ => true
  }

  /**
    Only a call can make an expression hopeless: without calls the score is
    at least 1, and without calls and Evaluates it is 3 (no recursion).
  */
  lemma {:induction false} NoCallsBasecases(r: RExpr, stack: set<TermId>, defs: map<TermId, RExpr>)
    requires NoCalls(r)
    ensures Basecases(r, stack, defs) >= 1
    ensures NoEvaluates(r) ==> Basecases(r, stack, defs) == 3
    decreases r
  {
    match r
    case Intersect(cs) =>
      ListScoresSpec(cs, stack, defs);
      forall i | 0 <= i < |cs|
        ensures Basecases(cs[i], stack, defs) >= 1 && (NoEvaluates(r) ==> Basecases(cs[i], stack, defs) == 3)
      {
        NoCallsBasecases(cs[i], stack, defs);
      }
    case Partition(u, bs) =>
      BranchScoresBound(bs, stack, defs);
      BranchScoresAttained(bs, stack, defs);
      forall i, j | 0 <= i < |bs| && 0 <= j < |bs[i].rexprs|
        ensures Basecases(bs[i].rexprs[j], stack, defs) >= 1 &&
          (NoEvaluates(r) ==> Basecases(bs[i].rexprs[j], stack, defs) == 3)
      {
        assert NoCallsList(bs[i].rexprs);
        NoCallsBasecases(bs[i].rexprs[j], stack, defs);
      }
    case Aggregator(_, _, _, _, body) => NoCallsBasecases(body, stack, defs);
    case AssumptionWrapper(_, w) => NoCallsBasecases(w, stack, defs);
    case _ =>
  }

  /**
    A partition with at least one R-expression, in which every R-expression of every branch is an
    intersection with a conjunct that calls back into a term on the stack
    never reaches a base case.
  */
  lemma HopelessPartition(u: seq<Var>, bs: seq<Branch>, stack: set<TermId>, defs: map<TermId, RExpr>)
    requires forall i, j :: 0 <= i < |bs| && 0 <= j < |bs[i].rexprs| ==>
      bs[i].rexprs[j].Intersect? &&
      exists k :: 0 <= k < |bs[i].rexprs[j].children| &&
        bs[i].rexprs[j].children[k].CallTerm? && bs[i].rexprs[j].children[k].termRef in stack
    requires exists i :: 0 <= i < |bs| && bs[i].rexprs != []
    ensures Basecases(Partition(u, bs), stack, defs) == 0
  {
    forall i, j | 0 <= i < |bs| && 0 <= j < |bs[i].rexprs|
      ensures Basecases(bs[i].rexprs[j], stack, defs) == 0
    {
      var cs := bs[i].rexprs[j].children;
      var k :| 0 <= k < |cs| && cs[k].CallTerm? && cs[k].termRef in stack;
      IntersectBasecases(cs, stack, defs);
    }
    PartitionBasecases(u, bs, stack, defs);
  }

  // ---------------------------------------------------------------------------
  // add_to_term: merging the branch maps of two partitions
  // ---------------------------------------------------------------------------

  /** The list of R-expressions stored under key k in a branch map, or [] when k is absent. */
  function ListOf(bs: seq<Branch>, k: PartKey): seq<RExpr> {
    if bs == [] then [] else if bs[0].key == k then bs[0].rexprs else ListOf(bs[1..], k)
  }

  predicate HasKey(bs: seq<Branch>, k: PartKey) {
    exists i :: 0 <= i < |bs| && bs[i].key == k
  }

  /** A Python dict's keys: no key occurs twice. */
  predicate KeysDistinct(bs: seq<Branch>) {
    forall i, j :: 0 <= i < j < |bs| ==> bs[i].key != bs[j].key
  }

  /**
    mt.setdefault(k, []).extend(vals) (context.py:165-166): the list under k
    gets vals appended, a missing k is added at the end, and every other key
    keeps its list and its position.
  */
  function Extend(bs: seq<Branch>, k: PartKey, vals: seq<RExpr>): (r: seq<Branch>)
    ensures |bs| <= |r| <= |bs| + 1 && (HasKey(bs, k) ==> |r| == |bs|)
    ensures forall i :: 0 <= i < |bs| ==> r[i].key == bs[i].key
    ensures |r| == |bs| + 1 ==> r[|bs|] == Branch(k, vals)
    ensures ListOf(r, k) == ListOf(bs, k) + vals
    ensures forall k' :: k' != k ==> ListOf(r, k') == ListOf(bs, k')
  {
    if bs == [] then [Branch(k, vals)]
    else if bs[0].key == k then [Branch(k, bs[0].rexprs + vals)] + bs[1..]
    else
      var rest := Extend(bs[1..], k, vals);
      assert forall i :: 1 <= i < |bs| ==> bs[i] == bs[1..][i - 1];
      [bs[0]] + rest
  }

  /** The branch map after the merge loop over the new branches nw (context.py:164-166). */
  function MergedBranches(mt: seq<Branch>, nw: seq<Branch>): (r: seq<Branch>)
    ensures |mt| <= |r| && forall i :: 0 <= i < |mt| ==> r[i].key == mt[i].key
  {
    if nw == [] then mt
    else Extend(MergedBranches(mt, nw[..|nw| - 1]), nw[|nw| - 1].key, nw[|nw| - 1].rexprs)
  }

  lemma {:induction false} ListOfAbsent(bs: seq<Branch>, k: PartKey)
    requires !HasKey(bs, k)
    ensures ListOf(bs, k) == []
  {
    if bs != [] {
      forall i | 0 <= i < |bs[1..]|
        ensures bs[1..][i].key != k
      {
        assert bs[1..][i] == bs[i + 1];
      }
      ListOfAbsent(bs[1..], k);
    }
  }

  lemma {:induction false} ListOfSnoc(bs: seq<Branch>, b: Branch, k: PartKey)
    ensures ListOf(bs + [b], k) == if HasKey(bs, k) then ListOf(bs, k) else if b.key == k then b.rexprs else []
  {
    if bs != [] {
      assert (bs + [b])[1..] == bs[1..] + [b];
      ListOfSnoc(bs[1..], b, k);
      if bs[0].key != k && HasKey(bs, k) {
        var i :| 0 <= i < |bs| && bs[i].key == k;
        assert bs[1..][i - 1] == bs[i];
      }
      if HasKey(bs[1..], k) {
        var i :| 0 <= i < |bs[1..]| && bs[1..][i].key == k;
        assert bs[i + 1] == bs[1..][i];
      }
    }
  }

  /**
    The merge appends: under every key, the merged map holds the old list
    followed by the new list; a key only in the old map keeps its list, and a
    key only in the new map gets the new list.
  */
  lemma {:induction false} MergedBranchesAppend(mt: seq<Branch>, nw: seq<Branch>, k: PartKey)
    requires KeysDistinct(nw)
    ensures ListOf(MergedBranches(mt, nw), k) == ListOf(mt, k) + ListOf(nw, k)
  {
    if nw != [] {
      var init, last := nw[..|nw| - 1], nw[|nw| - 1];
      assert nw == init + [last];
      assert KeysDistinct(init);
      MergedBranchesAppend(mt, init, k);
      ListOfSnoc(init, last, k);
      forall i | 0 <= i < |init|
        ensures init[i].key != last.key
      {
        assert init[i] == nw[i];
      }
      if !HasKey(init, k) {
        ListOfAbsent(init, k);
      }
    }
  }

  /**
    The renaming map of add_to_term (context.py:151-156): the new head
    variables to the stored ones (pairs beyond the shorter list are dropped,
    a later pair wins), then the result and body-result variables.
  */
  function RenameMap(prev: RExpr, rexpr: RExpr): (nm: map<Var, Var>)
    requires prev.Aggregator? && rexpr.Aggregator?
    ensures rexpr.result in nm && rexpr.bodyRes in nm && nm[rexpr.bodyRes] == prev.bodyRes
    ensures rexpr.result != rexpr.bodyRes ==> nm[rexpr.result] == prev.result
    ensures forall i :: 0 <= i < |rexpr.headVars| && i < |prev.headVars| ==> rexpr.headVars[i] in nm
  {
    ZipMap(rexpr.headVars, prev.headVars)[rexpr.result := prev.result][rexpr.bodyRes := prev.bodyRes]
  }

  /** dict(zip(ks, vs)): each key of the shorter prefix, mapped to the value paired with its last occurrence. */
  function ZipMap(ks: seq<Var>, vs: seq<Var>): (m: map<Var, Var>)
    ensures forall i :: 0 <= i < |ks| && i < |vs| ==> ks[i] in m
    ensures forall i :: 0 <= i < |ks| && i < |vs| && (forall j :: i < j < |ks| && j < |vs| ==> ks[j] != ks[i]) ==> m[ks[i]] == vs[i]
  {
    if |ks| == 0 || |vs| == 0 then map[]
    else if |ks| > |vs| then ZipMap(ks[..|vs|], vs)
    else if |vs| > |ks| then ZipMap(ks, vs[..|ks|])
    else ZipMap(ks[..|ks| - 1], vs[..|vs| - 1])[ks[|ks| - 1] := vs[|vs| - 1]]
  }

  /**
    What add_to_term stores for a term whose defined body was prev
    (context.py:137-166): the new body when there was none; otherwise an
    error when either is not an Aggregator or the aggregators differ, when the
    renamed body is not a partition over the same unioned variables, and
    else the stored aggregator with the branch maps merged.
  */
  function AddOutcome(prev: Option<RExpr>, rexpr: RExpr, renameVars: (RExpr, map<Var, Var>) -> RExpr): (r: Result<RExpr, string>)
    ensures prev.None? ==> r == Ok(rexpr)
    ensures prev.Some? && (!prev.value.Aggregator? || !rexpr.Aggregator? || prev.value.aggregator != rexpr.aggregator) ==> r.Err?
    ensures prev.Some? && r.Ok? ==>
      prev.value.Aggregator? && prev.value.body.Partition? && r.value.Aggregator? && r.value.body.Partition? &&
      r.value == prev.value.(body := r.value.body) && r.value.body.unionedVars == prev.value.body.unionedVars
  {
    match prev
    case None => Ok(rexpr)
    case Some(p) =>
      if !p.Aggregator? || !rexpr.Aggregator? || p.aggregator != rexpr.aggregator then Err("mismatch aggregator")
      else
        var nr := renameVars(rexpr, RenameMap(p, rexpr));
        if !p.body.Partition? || !nr.Aggregator? || !nr.body.Partition? then Err("merged bodies are not partitions")
        else if p.body.unionedVars != nr.body.unionedVars then Err("unioned variables differ")
        else Ok(p.(body := p.body.(branches := MergedBranches(p.body.branches, nr.body.branches))))
  }

  /** add_to_term's merge keeps every old list and appends the renamed new list under each key. */
  lemma AddAppendsBranches(p: RExpr, rexpr: RExpr, renameVars: (RExpr, map<Var, Var>) -> RExpr, k: PartKey)
    requires AddOutcome(Some(p), rexpr, renameVars).Ok?
    requires KeysDistinct(renameVars(rexpr, RenameMap(p, rexpr)).body.branches)
    ensures var nr := renameVars(rexpr, RenameMap(p, rexpr));
      ListOf(AddOutcome(Some(p), rexpr, renameVars).value.body.branches, k)
        == ListOf(p.body.branches, k) + ListOf(nr.body.branches, k)
  {
    var nr := renameVars(rexpr, RenameMap(p, rexpr));
    MergedBranchesAppend(p.body.branches, nr.body.branches, k);
  }

  /** The merge loop of add_to_term (context.py:164-166), one new branch at a time. */
  method MergeBranches(mt: seq<Branch>, nw: seq<Branch>) returns (r: seq<Branch>)
    ensures r == MergedBranches(mt, nw)
  {
    r := mt;
    var i := 0;
    while i < |nw|
      invariant 0 <= i <= |nw| && r == MergedBranches(mt, nw[..i])
    {
      assert nw[..i + 1][..i] == nw[..i];
      r := Extend(r, nw[i].key, nw[i].rexprs);
      i := i + 1;
    }
    assert nw[..|nw|] == nw;
  }

  // ---------------------------------------------------------------------------
  // add_to_term: refreshing memo tables
  // ---------------------------------------------------------------------------

  /** The memo tables read anywhere in r, in pre-order (all_children filtered to memo readers). */
  function MemoTables(r: RExpr): seq<nat> {
    match r
    case MemoRead(_, _, t) => [t]
    case Intersect(cs) => MemoTablesList(cs)
    case Partition(_, bs) => MemoTablesBranches(bs)
    case Aggregator(_, _, _, _, body) => MemoTables(body)
    case AssumptionWrapper(_, w) => MemoTables(w)
    case _ => []
  }

  function MemoTablesList(cs: seq<RExpr>): seq<nat> {
    if cs == [] then [] else MemoTables(cs[0]) + MemoTablesList(cs[1..])
  }

  function MemoTablesBranches(bs: seq<Branch>): seq<nat> {
    if bs == [] then [] else MemoTablesList(bs[0].rexprs) + MemoTablesBranches(bs[1..])
  }

  /** The (table, key) messages of the nested loops at context.py:170-175, in loop order. */
  function RefreshPairs(tables: seq<nat>, keys: seq<PartKey>): (ps: seq<(nat, PartKey)>)
    ensures forall p :: p in ps <==> p.0 in tables && p.1 in keys
    ensures tables != [] && keys != [] ==> ps != [] && ps[|ps| - 1] == (tables[|tables| - 1], keys[|keys| - 1])
  {
    if tables == [] then []
    else
      var row := seq(|keys|, j requires 0 <= j < |keys| => (tables[0], keys[j]));
      assert forall k :: k in keys ==> (tables[0], k) in row by {
        forall k | k in keys
          ensures (tables[0], k) in row
        {
          var j :| 0 <= j < |keys| && keys[j] == k;
          assert row[j] == (tables[0], k);
        }
      }
      row + RefreshPairs(tables[1..], keys)
  }

  function KeysOfBranches(bs: seq<Branch>): (ks: seq<PartKey>)
    ensures |ks| == |bs| && forall i :: 0 <= i < |bs| ==> ks[i] == bs[i].key
  {
    seq(|bs|, i requires 0 <= i < |bs| => bs[i].key)
  }

  /** One refresh closure per message, with consecutive fresh ids from first, each bound to its own message. */
  function RefreshTasks(first: nat, ps: seq<(nat, PartKey)>): (ts: seq<Agenda.Task>)
    ensures |ts| == |ps|
    ensures forall i :: 0 <= i < |ps| ==> ts[i] == Agenda.Closure(first + i, Agenda.RefreshMemo(ps[i].0, ps[i].1))
  {
    seq(|ps|, i requires 0 <= i < |ps| => Agenda.Closure(first + i, Agenda.RefreshMemo(ps[i].0, ps[i].1)))
  }

  /**
    The closures as written: each lambda reads the loop variable msg when it
    runs, after the loops have finished, so every one refreshes the last message.
  */
  function RefreshTasksAsWritten(first: nat, ps: seq<(nat, PartKey)>): (ts: seq<Agenda.Task>)
    requires ps != []
    ensures |ts| == |ps|
  {
    var last := ps[|ps| - 1];
    seq(|ps|, i requires 0 <= i < |ps| => Agenda.Closure(first + i, Agenda.RefreshMemo(last.0, last.1)))
  }

  /** Corrected: every (table, key) pair of the loops is refreshed by a task of its own. */
  lemma RefreshTasksCoverPairs(first: nat, tables: seq<nat>, keys: seq<PartKey>, t: nat, k: PartKey)
    requires t in tables && k in keys
    ensures exists i ::
      (0 <= i < |RefreshPairs(tables, keys)| &&
       RefreshTasks(first, RefreshPairs(tables, keys))[i] == Agenda.Closure(first + i, Agenda.RefreshMemo(t, k)))
  {
    var ps := RefreshPairs(tables, keys);
    assert (t, k) in ps;
    var i :| 0 <= i < |ps| && ps[i] == (t, k);
    assert RefreshTasks(first, ps)[i] == Agenda.Closure(first + i, Agenda.RefreshMemo(t, k));
  }

  /**
    As written, when the new branches have two different keys, no task
    refreshes the first key of the first memo table: every task refreshes the
    last (table, key) message, while the corrected tasks do refresh it.
  */
  lemma LateBindingDropsKeys(first: nat, tables: seq<nat>, keys: seq<PartKey>)
    requires |tables| > 0 && |keys| >= 2 && keys[0] != keys[|keys| - 1]
    ensures forall t :: t in RefreshTasksAsWritten(first, RefreshPairs(tables, keys)) ==>
      t.action != Agenda.RefreshMemo(tables[0], keys[0])
    ensures exists t :: t in RefreshTasks(first, RefreshPairs(tables, keys)) && t.action == Agenda.RefreshMemo(tables[0], keys[0])
  {
    var ps := RefreshPairs(tables, keys);
    assert (tables[0], keys[0]) in ps;
    var i :| 0 <= i < |ps| && ps[i] == (tables[0], keys[0]);
    assert RefreshTasks(first, ps)[i].action == Agenda.RefreshMemo(tables[0], keys[0]);
  }

  /**
    The refresh closures add_to_term pushes (context.py:169-176), corrected:
    when a stored body was merged and the term is memoized, one closure per
    memo table of the memoized body and per key of the renamed new branches.
  */
  function AddRefreshes(prev: Option<RExpr>, rexpr: RExpr, renameVars: (RExpr, map<Var, Var>) -> RExpr,
                        memo: Option<RExpr>, first: nat): (ts: seq<Agenda.Task>)
    ensures forall t :: t in ts ==> t.Closure? && t.action.RefreshMemo?
    ensures |ts| > 0 ==> prev.Some? && memo.Some? && AddOutcome(prev, rexpr, renameVars).Ok?
  {
    if prev.Some? && memo.Some? && AddOutcome(prev, rexpr, renameVars).Ok? then
      var nr := renameVars(rexpr, RenameMap(prev.value, rexpr));
      RefreshTasks(first, RefreshPairs(MemoTables(memo.value), KeysOfBranches(nr.body.branches)))
    else []
  }

  // ---------------------------------------------------------------------------
  // _optimize_term: the decision
  // ---------------------------------------------------------------------------

  /** Some node of r calls `$reflect` of arity 3 or 4. */
  predicate CallsReflect(r: RExpr) {
    match r
    case CallTerm(ref, _) => ref == Functor("$reflect", 3) || ref == Functor("$reflect", 4)
    case Intersect(cs) => exists i :: 0 <= i < |cs| && CallsReflect(cs[i])
    case Partition(_, bs) => exists i, j :: 0 <= i < |bs| && 0 <= j < |bs[i].rexprs| && CallsReflect(bs[i].rexprs[j])
    case Aggregator(_, _, _, _, body) => CallsReflect(body)
    case AssumptionWrapper(_, w) => CallsReflect(w)
    case _ => false
  }

  /**
    The decision of _optimize_term (context.py:377-397) once the new
    expression rr is known: whether rr is stored as the optimized body, and
    whether the term assumption is rotated.  possiblyEqual and empty are the
    engine's answers for rr; reflectAssumed says whether the optimizer relied
    on a `$reflect` term.
  */
  function OptimizeOutcome(popt: Option<RExpr>, rr: RExpr, possiblyEqual: bool, empty: bool, reflectAssumed: bool):
    (o: (bool, bool))
    ensures o.1 ==> o.0
    ensures popt.Some? && possiblyEqual ==> o == (false, false)
    ensures popt.Some? && !possiblyEqual ==> o == (true, true)
    ensures popt.None? ==> o.0 && (o.1 <==> empty || (reflectAssumed && !CallsReflect(rr)))
  {
    if popt.None? || !possiblyEqual then
      (true, empty || popt.Some? || (reflectAssumed && !CallsReflect(rr)))
    else (false, false)
  }

  /** The names the layers know: every key of the four layers and every registered merged expression. */
  function KnownNames(l: Layers): set<TermId> {
    l.defined.Keys + l.optimized.Keys + l.memoized.Keys + l.compiled.Keys + set e | e in l.merged.Keys :: Merged(e)
  }

  /**
    The bodies check_basecases reaches through lookup_term with nothing
    ignored, for every known name; an unknown name resolves to the failure
    leaf, which Basecases scores without a definition.
  */
  function BasecaseDefs(l: Layers): (defs: map<TermId, RExpr>)
    ensures defs.Keys == KnownNames(l)
    ensures forall t :: t in defs ==> Resolve(l, t, {}) == Ok(defs[t])
  {
    map t | t in KnownNames(l) :: Resolve(l, t, {}).value
  }

  /**
    The body _optimize_term hands the optimizer and the variables it exposes
    (context.py:350-358): a merged expression's own expression and exposed
    variables, or the defined body with the result variable and the
    arguments; a term that is not defined has nothing to optimize.
  */
  function OptimizeInput(l: Layers, term: TermId): (r: Result<(RExpr, set<Var>), string>)
    ensures r.Ok? <==> (if term.Merged? then term.expression in l.merged else term in l.defined)
    ensures r.Ok? && term.Functor? ==> r.value == (l.defined[term], {Ret} + set i | 0 <= i < term.arity :: Arg(i))
  {
    if term.Merged? then
      if term.expression in l.merged then Ok((term.expression, l.merged[term.expression]))
      else Err("merged expression is not registered")
    else if term in l.defined then Ok((l.defined[term], {Ret} + set i | 0 <= i < term.arity :: Arg(i)))
    else Err("term is not defined")
  }

  /** The optimizer's result, or the failure leaf when it never reaches a base case from term (context.py:365-368). */
  function Pruned(rr: RExpr, term: TermId, l: Layers): (r: RExpr)
    ensures Basecases(rr, {term}, BasecaseDefs(l)) == 0 ==> r == Failure
    ensures Basecases(rr, {term}, BasecaseDefs(l)) != 0 ==> r == rr
  {
    if Basecases(rr, {term}, BasecaseDefs(l)) == 0 then Failure else rr
  }

  /**
    The assumptions _optimize_term tracks (context.py:360-362): those the
    optimizer used and the defined-assumption d, without the term assumption
    a; ids outside the arena name no assumption.
  */
  function UsedAssumptions(used: set<nat>, d: nat, a: nat, n: nat): (ids: set<nat>)
    ensures forall x :: x in ids ==> x < n && x != a
  {
    set x | x in used + {d} && x < n && x != a
  }

  /** The arena with tr registered once with every cell in ids. */
  function TrackedAll(arena: seq<Assumption>, ids: set<nat>, tr: Tracker): (r: seq<Assumption>)
    ensures |r| == |arena|
  {
    seq(|arena|, i requires 0 <= i < |arena| =>
      if i in ids then arena[i].(trackers := arena[i].trackers + [tr]) else arena[i])
  }

  /** Registering a tracker with every cell of ids keeps the bookkeeping well formed and every flag. */
  lemma TrackedAllOk(b: Ledger, ids: set<nat>, tr: Tracker)
    requires LedgerOk(b)
    ensures LedgerOk(b.(arena := TrackedAll(b.arena, ids, tr)))
    ensures ArenaKept(b.arena, TrackedAll(b.arena, ids, tr), {})
  {
    var arena := TrackedAll(b.arena, ids, tr);
    forall t | t in b.term
      ensures Tracks(b.term[t]) in arena[b.defined[t]].trackers
    {
      assert b.arena[b.defined[t]].trackers <= arena[b.defined[t]].trackers;
    }
  }

  /** One more cell tracked: the step of the tracking loop. */
  lemma TrackedAllStep(arena: seq<Assumption>, done: set<nat>, x: nat, tr: Tracker)
    requires x !in done
    ensures TrackedAll(arena, done + {x}, tr) == Tracked(TrackedAll(arena, done, tr), x, tr)
  {
  }

  lemma ArenaKeptTrans(a: seq<Assumption>, a': seq<Assumption>, a'': seq<Assumption>, d: set<nat>, d': set<nat>)
    requires ArenaKept(a, a', d) && ArenaKept(a', a'', d')
    ensures ArenaKept(a, a'', d + d')
  {
    forall i | 0 <= i < |a|
      ensures a''[i].owner == a[i].owner && a[i].trackers <= a''[i].trackers
    {
      assert a[i].trackers <= a'[i].trackers <= a''[i].trackers;
    }
  }

  /** Making a term assumption only appends cells and registers trackers. */
  lemma TermOfKeeps(b: Ledger, name: TermId)
    ensures ArenaKept(b.arena, TermOf(b, name).0.arena, {})
  {
  }

  /**
    The `$reflect` test of _optimize_term (context.py:383-391): the term
    assumption of `$reflect`/3 and then, only when that one is not in ids,
    of `$reflect`/4 (each made if need be); whether one of them is in ids.
  */
  function ReflectTest(b: Ledger, ids: set<nat>): (r: (bool, Ledger))
    ensures r.0 <==> (TermOf(b, Functor("$reflect", 3)).1 in ids ||
                      TermOf(TermOf(b, Functor("$reflect", 3)).0, Functor("$reflect", 4)).1 in ids)
  {
    var p := TermOf(b, Functor("$reflect", 3));
    if p.1 in ids then (true, p.0)
    else
      var q := TermOf(p.0, Functor("$reflect", 4));
      (q.1 in ids, q.0)
  }

  lemma ReflectTestOk(b: Ledger, ids: set<nat>)
    requires LedgerOk(b)
    ensures LedgerOk(ReflectTest(b, ids).1)
  {
    var p := TermOf(b, Functor("$reflect", 3));
    TermOfOk(b, Functor("$reflect", 3));
    TermOfOk(p.0, Functor("$reflect", 4));
  }

  /** The `$reflect` test only appends cells and registers trackers, and keeps every existing term assumption. */
  lemma ReflectTestKeeps(b: Ledger, ids: set<nat>)
    ensures ArenaKept(b.arena, ReflectTest(b, ids).1.arena, {})
    ensures forall t :: t in b.term ==> t in ReflectTest(b, ids).1.term && ReflectTest(b, ids).1.term[t] == b.term[t]
  {
    var p := TermOf(b, Functor("$reflect", 3));
    TermOfKeeps(b, Functor("$reflect", 3));
    if p.1 !in ids {
      var q := TermOf(p.0, Functor("$reflect", 4));
      TermOfKeeps(p.0, Functor("$reflect", 4));
      ArenaKeptTrans(b.arena, p.0.arena, q.0.arena, {}, {});
    }
  }

  /** What one run of _optimize_term leaves: its outcome, the optimized layer, the bookkeeping, and whether the term assumption was rotated. */
  datatype OptimizeRun = OptimizeRun(result: Result<(), string>, optimized: map<TermId, RExpr>, book: Ledger, rotated: bool)

  /**
    The end of _optimize_term (context.py:394-401) once the decision is made:
    when a rotation is due, an invalid tracked assumption fails the run
    (the source's assertion); otherwise the term assumption is rotated if
    due, and the re-optimize response is registered with every tracked
    assumption.
  */
  function Finished(optimized: map<TermId, RExpr>, b: Ledger, term: TermId, ids: set<nat>, due: bool): (run: OptimizeRun)
    ensures run.optimized == optimized && (run.rotated ==> due)
  {
    if due && exists x :: x in ids && x < |b.arena| && !b.arena[x].valid then
      OptimizeRun(Err("an assumption the optimizer used is invalid"), optimized, b, false)
    else
      var b2 := if due then Rotated(b, term).0 else b;
      OptimizeRun(Ok(()), optimized, b2.(arena := TrackedAll(b2.arena, ids, Reoptimize(term))), due)
  }

  /** The end keeps the bookkeeping well formed and only the old term assumption's flag may change. */
  lemma FinishedOk(optimized: map<TermId, RExpr>, b: Ledger, term: TermId, ids: set<nat>, due: bool)
    requires LedgerOk(b) && term in b.term
    ensures LedgerOk(Finished(optimized, b, term, ids, due).book)
    ensures ArenaKept(b.arena, Finished(optimized, b, term, ids, due).book.arena, {b.term[term]})
  {
    var run := Finished(optimized, b, term, ids, due);
    if run.result.Ok? {
      var b2 := if due then Rotated(b, term).0 else b;
      if due {
        RotationSpec(b, term);
        RotatedKeeps(b, term);
      }
      TrackedAllOk(b2, ids, Reoptimize(term));
      ArenaKeptTrans(b.arena, b2.arena, run.book.arena, if due then {b.term[term]} else {}, {});
    }
  }

  /**
    The end fails exactly when a rotation is due and a tracked assumption is
    invalid; a rotation leaves the old term assumption invalid and a fresh
    one in its place; a successful end leaves the re-optimize response with
    every tracked assumption.
  */
  lemma FinishedSpec(optimized: map<TermId, RExpr>, b: Ledger, term: TermId, ids: set<nat>, due: bool)
    requires LedgerOk(b) && term in b.term && forall x :: x in ids ==> x < |b.arena|
    ensures var run := Finished(optimized, b, term, ids, due);
      (run.result.Err? <==> due && exists x :: x in ids && !b.arena[x].valid) &&
      (run.rotated <==> run.result.Ok? && due) &&
      (run.rotated ==> run.book.term[term] >= |b.arena| && !run.book.arena[b.term[term]].valid) &&
      (!run.rotated ==> run.book.term == b.term) &&
      (run.result.Ok? ==> forall x :: x in ids ==> Reoptimize(term) in run.book.arena[x].trackers)
  {
    var run := Finished(optimized, b, term, ids, due);
    if run.result.Ok? {
      var b2 := if due then Rotated(b, term).0 else b;
      if due {
        RotationSpec(b, term);
      }
      forall x | x in ids
        ensures Reoptimize(term) in run.book.arena[x].trackers
      {
        assert run.book.arena[x].trackers == b2.arena[x].trackers + [Reoptimize(term)];
      }
    }
  }

  /**
    The second half of _optimize_term (context.py:377-401), from the pruned
    expression rr, the tracked assumptions ids, and the engine's answers
    (possiblyEqual: rr may equal the stored optimized body; empty: rr is
    empty): the `$reflect` test when it is reached, the store, and the end.
  */
  function Settled(optimized: map<TermId, RExpr>, b: Ledger, term: TermId, rr: RExpr, ids: set<nat>,
                   possiblyEqual: bool, empty: bool): (run: OptimizeRun)
    ensures Get(optimized, term).Some? && possiblyEqual ==> run.optimized == optimized && !run.rotated
    ensures Get(optimized, term).None? || !possiblyEqual ==> run.optimized == optimized[term := rr]
  {
    var d := Decided(optimized, b, term, rr, ids, possiblyEqual, empty);
    Finished(d.0, d.1, term, ids, d.2)
  }

  /**
    The decision of _optimize_term (context.py:377-392): the optimized layer
    after the store, the bookkeeping after the `$reflect` test (reached only
    for a first, non-empty result), and whether a rotation is due.
  */
  function Decided(optimized: map<TermId, RExpr>, b: Ledger, term: TermId, rr: RExpr, ids: set<nat>,
                   possiblyEqual: bool, empty: bool): (d: (map<TermId, RExpr>, Ledger, bool))
    ensures Get(optimized, term).Some? && possiblyEqual ==> d.0 == optimized && d.1 == b && !d.2
    ensures Get(optimized, term).None? || !possiblyEqual ==> d.0 == optimized[term := rr]
  {
    var popt := Get(optimized, term);
    var refl := if popt.None? && !empty then ReflectTest(b, ids) else (false, b);
    var o := OptimizeOutcome(popt, rr, possiblyEqual, empty, refl.0);
    (if o.0 then optimized[term := rr] else optimized, refl.1, o.1)
  }

  /**
    A rotation is due exactly when the stored body changes, or is made for
    the first time and is empty or no longer calls `$reflect` although the
    optimizer relied on it; the `$reflect` test keeps the bookkeeping well
    formed and every existing cell and term assumption.
  */
  lemma DecidedSpec(optimized: map<TermId, RExpr>, b: Ledger, term: TermId, rr: RExpr, ids: set<nat>,
                    possiblyEqual: bool, empty: bool)
    requires LedgerOk(b)
    ensures var d := Decided(optimized, b, term, rr, ids, possiblyEqual, empty);
      var popt := Get(optimized, term);
      (d.2 <==> (popt.Some? && !possiblyEqual) || (popt.None? && (empty || (ReflectTest(b, ids).0 && !CallsReflect(rr))))) &&
      LedgerOk(d.1) && ArenaKept(b.arena, d.1.arena, {}) &&
      (forall t :: t in b.term ==> t in d.1.term && d.1.term[t] == b.term[t])
  {
    ReflectTestOk(b, ids);
    ReflectTestKeeps(b, ids);
  }

  /** Rotation keeps every cell but the old term assumption's flag, and appends. */
  lemma RotatedKeeps(b: Ledger, name: TermId)
    requires LedgerOk(b) && name in b.term
    ensures ArenaKept(b.arena, Rotated(b, name).0.arena, {b.term[name]})
  {
  }

  /**
    _optimize_term (context.py:346-401) on the layers l and the bookkeeping
    b: the term and defined-assumptions are made first; a term with nothing
    to optimize fails; otherwise the optimizer's result, pruned by
    check_basecases, settles with the used assumptions and the
    defined-assumption tracked.
  */
  function OptimizeRunOf(l: Layers, b: Ledger, term: TermId, optimizer: (RExpr, set<Var>) -> (RExpr, set<nat>),
                         possiblyEqual: (RExpr, RExpr) -> bool, isEmpty: RExpr -> bool): OptimizeRun
  {
    var p := Prepared(b, term);
    var input := OptimizeInput(l, term);
    if input.Err? then OptimizeRun(Err(input.error), l.optimized, p.0, false)
    else
      var out := optimizer(input.value.0, input.value.1);
      var rr := Pruned(out.0, term, l);
      var popt := Get(l.optimized, term);
      Settled(l.optimized, p.0, term, rr, UsedAssumptions(out.1, p.2, p.1, |p.0.arena|),
        popt.Some? && possiblyEqual(rr, popt.value), isEmpty(rr))
  }

  /**
    The assumptions _optimize_term makes first (context.py:348-349): the
    bookkeeping afterwards, the term assumption and the defined-assumption.
  */
  function Prepared(b: Ledger, term: TermId): (r: (Ledger, nat, nat))
    ensures term in r.0.term && r.0.term[term] == r.1 && term in r.0.defined && r.0.defined[term] == r.2
  {
    var pa := TermOf(b, term);
    var pd := DefinedOf(pa.0, term);
    (pd.0, pa.1, pd.1)
  }

  /**
    What a run does to the optimized layer: a term with nothing to optimize
    fails and changes nothing; otherwise the pruned result is stored unless
    the engine finds it may equal the stored body, and a stored result that
    never reaches a base case is the failure leaf.
  */
  lemma OptimizeRunStores(l: Layers, b: Ledger, term: TermId, optimizer: (RExpr, set<Var>) -> (RExpr, set<nat>),
                          possiblyEqual: (RExpr, RExpr) -> bool, isEmpty: RExpr -> bool)
    ensures var run := OptimizeRunOf(l, b, term, optimizer, possiblyEqual, isEmpty);
      (OptimizeInput(l, term).Err? ==> run.result.Err? && run.optimized == l.optimized && !run.rotated) &&
      (OptimizeInput(l, term).Ok? ==>
        var input := OptimizeInput(l, term).value;
        var rr := optimizer(input.0, input.1).0;
        var stored := Pruned(rr, term, l);
        (term in l.optimized && possiblyEqual(stored, l.optimized[term]) ==> run.optimized == l.optimized && !run.rotated) &&
        (term !in l.optimized || !possiblyEqual(stored, l.optimized[term]) ==>
          run.optimized == l.optimized[term := stored] &&
          (Basecases(rr, {term}, BasecaseDefs(l)) == 0 ==> run.optimized[term] == Failure)))
  {
  }

  // ---------------------------------------------------------------------------
  // The registry
  // ---------------------------------------------------------------------------

  /**
    The safety planner after invalidate_term of every plan key of ref: the
    cache is unchanged, every cached mode of such a key is scheduled, and
    nothing else is added to the worklist.
  */
  ghost predicate Replanned(s0: SafetyPlanner.PlanState, s: SafetyPlanner.PlanState, ref: TermId) {
    s.cache == s0.cache && s.order == s0.order && s0.agenda <= s.agenda &&
    (forall t, m {:trigger m in s.cache[t]} ::
      t in s.cache && t.PlanKey? && t.ref == ref && m in s.cache[t] ==> SafetyPlanner.Name(t, m) in s.agenda) &&
    (forall n :: n in s.agenda ==> n in s0.agenda || (n.term.PlanKey? && n.term.ref == ref))
  }

  /** The dictionary's get: the entry under k, if any. */
  function Get<K, V>(m: map<K, V>, k: K): (r: Option<V>)
    ensures r.Some? <==> k in m
  {
    if k in m then Some(m[k]) else None
  }

  /** Once a name is gone from the four layers, every lookup of it finds the failure leaf. */
  lemma DeletedResolvesToFailure(l: Layers, name: TermId, ignore: set<string>)
    requires name.Functor? && !IsTuple(name)
    requires name !in l.defined && name !in l.optimized && name !in l.memoized && name !in l.compiled
    ensures Resolve(l, name, ignore) == Ok(Failure)
  {
  }

  /** SystemContext (context.py:20-443): the layers, the assumption bookkeeping, the agenda and the safety planner. */
  class SystemContext {
    var termsAsDefined: map<TermId, RExpr>
    var termsAsOptimized: map<TermId, RExpr>
    var termsAsMemoized: map<TermId, RExpr>
    var termsAsCompiled: map<TermId, CompiledExpression>
    /** The interned merged expressions, each with its exposed variables. */
    var mergedExpressions: map<RExpr, set<Var>>
    var termAssumptions: map<TermId, nat>
    var definedAssumptions: map<TermId, nat>
    /** Every assumption ever made, addressed by position. */
    var arena: seq<Assumption>
    /** The identity the next closure pushed on the agenda gets. */
    var nextClosure: nat
    const agenda: Agenda.Agenda<Agenda.Task>
    const planner: SafetyPlanner.SafetyPlanner

    function View(): Layers
      reads this`termsAsDefined, this`termsAsOptimized, this`termsAsMemoized, this`termsAsCompiled, this`mergedExpressions
    {
      Layers(termsAsDefined, termsAsOptimized, termsAsMemoized, termsAsCompiled, mergedExpressions)
    }

    function Book(): Ledger
      reads this`termAssumptions, this`definedAssumptions, this`arena
    {
      Ledger(termAssumptions, definedAssumptions, arena)
    }

    ghost predicate Valid()
      reads this`termAssumptions, this`definedAssumptions, this`arena, this`nextClosure, agenda
    {
      agenda.Valid() && LedgerOk(Book()) &&
      forall t :: t in agenda.queue && t.Closure? ==> t.id < nextClosure
    }

    /** An empty registry with an empty agenda and planner; loading the builtins and the prelude is not modelled. */
    constructor ()
      ensures Valid() && planner.Valid() && fresh(agenda) && fresh(planner)
      ensures View() == Layers(map[], map[], map[], map[], map[]) && Book() == Ledger(map[], map[], [])
      ensures agenda.queue == [] && planner.State() == SafetyPlanner.PlanState(map[], map[], [])
    {
      termsAsDefined, termsAsOptimized, termsAsMemoized := map[], map[], map[];
      termsAsCompiled, mergedExpressions := map[], map[];
      termAssumptions, definedAssumptions, arena := map[], map[], [];
      nextClosure := 0;
      agenda := new Agenda.Agenda<Agenda.Task>();
      planner := new SafetyPlanner.SafetyPlanner();
    }

    /** Installs the bookkeeping b (the dictionary and arena updates of one step). */
    method SetBook(b: Ledger)
      requires Valid() && LedgerOk(b)
      modifies this`termAssumptions, this`definedAssumptions, this`arena
      ensures Valid() && Book() == b
    {
      termAssumptions, definedAssumptions, arena := b.term, b.defined, b.arena;
    }

    /** term_as_defined_assumption (context.py:71-74). */
    method TermAsDefinedAssumption(name: TermId) returns (a: nat)
      requires Valid()
      modifies this`definedAssumptions, this`arena
      ensures Valid() && (Book(), a) == DefinedOf(old(Book()), name)
    {
      DefinedOfOk(Book(), name);
      if name in definedAssumptions {
        a := definedAssumptions[name];
      } else {
        a := |arena|;
        arena := arena + [Assumption(DefinedLabel(name), true, [])];
        definedAssumptions := definedAssumptions[name := a];
      }
    }

    /** term_assumption (context.py:76-81). */
    method TermAssumption(name: TermId) returns (a: nat)
      requires Valid()
      modifies this`termAssumptions, this`definedAssumptions, this`arena
      ensures Valid() && (Book(), a) == TermOf(old(Book()), name)
    {
      if name in termAssumptions {
        a := termAssumptions[name];
      } else {
        TermOfOk(Book(), name);
        var p := TermOf(Book(), name);
        SetBook(p.0);
        a := p.1;
      }
    }

    /** The safety planner's invalidate_term for every plan key of name (context.py:98, 109; see Findings). */
    method Replan(name: TermId)
      requires Valid() && planner.Valid()
      modifies planner
      ensures Valid() && planner.Valid() && Replanned(old(planner.State()), planner.State(), name)
    {
      planner.InvalidateTermRef(name);
    }

    /** invalidate_term_assumption (context.py:83-99). */
    method InvalidateTermAssumption(name: TermId) returns (n: nat)
      requires Valid() && planner.Valid()
      modifies this`termAssumptions, this`definedAssumptions, this`arena, planner
      ensures Valid() && planner.Valid() && (Book(), n) == Rotated(old(Book()), name)
      ensures Replanned(old(planner.State()), planner.State(), name)
    {
      RotationSpec(Book(), name);
      var p := Rotated(Book(), name);
      SetBook(p.0);
      n := p.1;
      Replan(name);
    }

    /** invalidate_term_as_defined_assumption (context.py:101-110). */
    method InvalidateTermAsDefinedAssumption(name: TermId) returns (n: nat)
      requires Valid() && planner.Valid()
      modifies this`termAssumptions, this`definedAssumptions, this`arena, planner
      ensures Valid() && planner.Valid() && (Book(), n) == RotatedDefined(old(Book()), name)
      ensures Replanned(old(planner.State()), planner.State(), name)
    {
      RotationDefinedSpec(Book(), name);
      var p := RotatedDefined(Book(), name);
      SetBook(p.0);
      n := p.1;
      Replan(name);
    }

    /** The four layer deletions of delete_term. */
    method DropLayers(a: TermId)
      modifies this`termsAsDefined, this`termsAsOptimized, this`termsAsMemoized, this`termsAsCompiled
      ensures termsAsDefined == old(termsAsDefined) - {a} && termsAsOptimized == old(termsAsOptimized) - {a}
      ensures termsAsMemoized == old(termsAsMemoized) - {a} && termsAsCompiled == old(termsAsCompiled) - {a}
    {
      termsAsDefined, termsAsOptimized := termsAsDefined - {a}, termsAsOptimized - {a};
      termsAsMemoized, termsAsCompiled := termsAsMemoized - {a}, termsAsCompiled - {a};
    }

    /**
      delete_term (context.py:112-126): the name leaves the four layers, then
      its term assumption is rotated.  The merged-expression table is keyed by
      expressions, which never equal a (name, arity) pair, so it is unchanged.
    */
    method DeleteTerm(name: string, arity: nat)
      requires Valid() && planner.Valid()
      modifies this`termsAsDefined, this`termsAsOptimized, this`termsAsMemoized, this`termsAsCompiled
      modifies this`termAssumptions, this`definedAssumptions, this`arena, planner
      ensures Valid() && planner.Valid()
      ensures var a := Functor(name, arity);
        termsAsDefined == old(termsAsDefined) - {a} && termsAsOptimized == old(termsAsOptimized) - {a} &&
        termsAsMemoized == old(termsAsMemoized) - {a} && termsAsCompiled == old(termsAsCompiled) - {a}
      ensures Book() == Rotated(old(Book()), Functor(name, arity)).0
      ensures Replanned(old(planner.State()), planner.State(), Functor(name, arity))
    {
      var a := Functor(name, arity);
      DropLayers(a);
      var _ := InvalidateTermAssumption(a);
    }

    /**
      define_term (context.py:132-135): refused when the term is already
      defined and redefine is not set; otherwise the body is stored and only
      the term assumption is rotated.
    */
    method DefineTerm(name: string, arity: nat, rexpr: RExpr, redefine: bool) returns (r: Result<(), string>)
      requires Valid() && planner.Valid()
      modifies this`termsAsDefined, this`termAssumptions, this`definedAssumptions, this`arena, planner
      ensures Valid() && planner.Valid()
      ensures r.Err? <==> Functor(name, arity) in old(termsAsDefined) && !redefine
      ensures r.Err? ==> termsAsDefined == old(termsAsDefined) && Book() == old(Book()) && planner.State() == old(planner.State())
      ensures r.Ok? ==>
        termsAsDefined == old(termsAsDefined)[Functor(name, arity) := rexpr] &&
        Book() == Rotated(old(Book()), Functor(name, arity)).0 &&
        Replanned(old(planner.State()), planner.State(), Functor(name, arity))
    {
      var a := Functor(name, arity);
      if a in termsAsDefined && !redefine {
        return Err("term already defined");
      }
      termsAsDefined := termsAsDefined[a := rexpr];
      var _ := InvalidateTermAssumption(a);
      r := Ok(());
    }

    /** Pushes one refresh closure per (table, key) message, each with a fresh identity. */
    method PushRefreshes(ps: seq<(nat, PartKey)>)
      requires Valid()
      modifies agenda, this`nextClosure
      ensures Valid() && nextClosure == old(nextClosure) + |ps|
      ensures agenda.queue == old(agenda.queue) + RefreshTasks(old(nextClosure), ps)
    {
      ghost var q0, first := agenda.queue, nextClosure;
      var i := 0;
      while i < |ps|
        invariant 0 <= i <= |ps| && nextClosure == first + i
        invariant Valid() && agenda.queue == q0 + RefreshTasks(first, ps[..i])
      {
        var t := Agenda.Closure(nextClosure, Agenda.RefreshMemo(ps[i].0, ps[i].1));
        Agenda.FreshClosureAppended(agenda.queue, nextClosure, t.action);
        agenda.Push(t);
        assert RefreshTasks(first, ps[..i + 1]) == RefreshTasks(first, ps[..i]) + [t];
        nextClosure := nextClosure + 1;
        i := i + 1;
      }
      assert ps[..|ps|] == ps;
    }

    /**
      The merge half of add_to_term (context.py:141-176): a new term stores
      rexpr; otherwise every refusal happens before any change, the stored
      aggregator gets the merged branch map, and a memoized term gets its
      refresh closures.
    */
    method MergeIntoDefined(a: TermId, rexpr: RExpr, renameVars: (RExpr, map<Var, Var>) -> RExpr)
      returns (r: Result<(), string>)
      requires Valid()
      modifies this`termsAsDefined, this`nextClosure, agenda
      ensures Valid()
      ensures r.Err? <==> AddOutcome(Get(old(termsAsDefined), a), rexpr, renameVars).Err?
      ensures r.Err? ==> unchanged(this, agenda)
      ensures r.Ok? ==> termsAsDefined == old(termsAsDefined)[a := AddOutcome(Get(old(termsAsDefined), a), rexpr, renameVars).value]
      ensures r.Ok? ==>
        var ts := AddRefreshes(Get(old(termsAsDefined), a), rexpr, renameVars, Get(termsAsMemoized, a), old(nextClosure));
        agenda.queue == old(agenda.queue) + ts && nextClosure == old(nextClosure) + |ts|
    {
      if a !in termsAsDefined {
        termsAsDefined := termsAsDefined[a := rexpr];
        return Ok(());
      }
      var p := termsAsDefined[a];
      if !p.Aggregator? || !rexpr.Aggregator? || p.aggregator != rexpr.aggregator {
        return Err("mismatch aggregator");
      }
      var nr := renameVars(rexpr, RenameMap(p, rexpr));
      if !p.body.Partition? || !nr.Aggregator? || !nr.body.Partition? {
        return Err("merged bodies are not partitions");
      }
      if p.body.unionedVars != nr.body.unionedVars {
        return Err("unioned variables differ");
      }
      var merged := MergeBranches(p.body.branches, nr.body.branches);
      termsAsDefined := termsAsDefined[a := p.(body := p.body.(branches := merged))];
      if a in termsAsMemoized {
        PushRefreshes(RefreshPairs(MemoTables(termsAsMemoized[a]), KeysOfBranches(nr.body.branches)));
      }
      r := Ok(());
    }

    /**
      add_to_term (context.py:137-180): the merge, then the rotation of both
      assumptions of the term; a refused merge changes nothing.
    */
    method AddToTerm(name: string, arity: nat, rexpr: RExpr, renameVars: (RExpr, map<Var, Var>) -> RExpr)
      returns (r: Result<(), string>)
      requires Valid() && planner.Valid()
      modifies this`termsAsDefined, this`nextClosure, agenda
      modifies this`termAssumptions, this`definedAssumptions, this`arena, planner
      ensures Valid() && planner.Valid()
      ensures var a := Functor(name, arity);
        r.Err? <==> AddOutcome(Get(old(termsAsDefined), a), rexpr, renameVars).Err?
      ensures r.Err? ==> unchanged(this, agenda, planner)
      ensures var a := Functor(name, arity);
        r.Ok? ==> termsAsDefined == old(termsAsDefined)[a := AddOutcome(Get(old(termsAsDefined), a), rexpr, renameVars).value]
      ensures var a := Functor(name, arity);
        r.Ok? ==>
          agenda.queue == old(agenda.queue) + AddRefreshes(Get(old(termsAsDefined), a), rexpr, renameVars, Get(termsAsMemoized, a), old(nextClosure))
      ensures var a := Functor(name, arity);
        r.Ok? ==> Book() == RotatedDefined(old(Book()), a).0 && Replanned(old(planner.State()), planner.State(), a)
    {
      var a := Functor(name, arity);
      r := MergeIntoDefined(a, rexpr, renameVars);
      if r.Err? {
        return;
      }
      var _ := InvalidateTermAsDefinedAssumption(a);
    }

    /** lookup_term (context.py:252-298); the parent context is not part of this model. */
    method LookupTerm(name: TermId, ignore: set<string>) returns (r: Result<RExpr, string>)
      requires Valid()
      modifies this`termAssumptions, this`definedAssumptions, this`arena
      ensures Valid() && (r, Book()) == Lookup(View(), old(Book()), name, ignore)
    {
      r := Resolve(View(), name, ignore);
      if r.Err? || Unwrapped(View(), name, ignore) {
        return;
      }
      r := Wrap(name, r.value, ignore);
    }

    /** The wrapping step of lookup_term (context.py:284-296). */
    method Wrap(name: TermId, body: RExpr, ignore: set<string>) returns (r: Result<RExpr, string>)
      requires Valid()
      modifies this`termAssumptions, this`definedAssumptions, this`arena
      ensures Valid() && (r, Book()) == Wrapped(old(Book()), name, body, ignore)
    {
      if "assumption" !in ignore {
        var a := TermAssumption(name);
        r := Ok(AssumptionWrapper(a, body));
      } else if "assumption_defined" !in ignore {
        var a := TermAsDefinedAssumption(name);
        r := Ok(AssumptionWrapper(a, body));
      } else {
        r := Ok(body);
      }
    }

    /** optimize_term (context.py:343-344): a closure that optimizes term is pushed with a fresh identity. */
    method OptimizeTerm(term: TermId)
      requires Valid()
      modifies agenda, this`nextClosure
      ensures Valid() && nextClosure == old(nextClosure) + 1
      ensures agenda.queue == old(agenda.queue) + [Agenda.Closure(old(nextClosure), Agenda.OptimizeTerm(term))]
    {
      Agenda.FreshClosureAppended(agenda.queue, nextClosure, Agenda.OptimizeTerm(term));
      agenda.Push(Agenda.Closure(nextClosure, Agenda.OptimizeTerm(term)));
      nextClosure := nextClosure + 1;
    }

    /**
      create_merged_expression (context.py:316-332): merged expressions are
      interned by their expression.  A new one is registered with its exposed
      variables and scheduled for optimization; a known one with the same
      exposed variables is returned without scheduling anything; a known one
      with other exposed variables is refused (the source's assertion).
    */
    method CreateMergedExpression(expr: RExpr, exposed: set<Var>) returns (r: Result<TermId, string>)
      requires Valid()
      modifies this`mergedExpressions, this`nextClosure, agenda
      ensures Valid()
      ensures r.Ok? ==> r.value == Merged(expr) && expr in mergedExpressions && mergedExpressions[expr] == exposed
      ensures expr in old(mergedExpressions) ==>
        (r.Ok? <==> old(mergedExpressions)[expr] == exposed) && unchanged(this, agenda)
      ensures expr !in old(mergedExpressions) ==>
        r.Ok? && mergedExpressions == old(mergedExpressions)[expr := exposed] && nextClosure == old(nextClosure) + 1 &&
        agenda.queue == old(agenda.queue) + [Agenda.Closure(old(nextClosure), Agenda.OptimizeTerm(Merged(expr)))]
    {
      if expr in mergedExpressions {
        if mergedExpressions[expr] != exposed {
          return Err("merged expression registered with other exposed variables");
        }
        return Ok(Merged(expr));
      }
      mergedExpressions := mergedExpressions[expr := exposed];
      OptimizeTerm(Merged(expr));
      r := Ok(Merged(expr));
    }

    /**
      create_compiled_expression (context.py:334-341) with the
      CompiledExpression constructor (context.py:487-493): compiled
      expressions are interned by term; a known one is returned when the
      exposed variables agree as sets and refused otherwise; a new one,
      whose variable order is the exposed variables in the given order, is
      refused when a constant variable is exposed.
    */
    method CreateCompiledExpression(termRef: TermId, exposed: seq<Var>) returns (r: Result<CompiledExpression, string>)
      modifies this`termsAsCompiled
      ensures termRef in old(termsAsCompiled) ==>
        termsAsCompiled == old(termsAsCompiled) &&
        (r.Ok? <==> (set v | v in old(termsAsCompiled)[termRef].exposedVars) == (set v | v in exposed)) &&
        (r.Ok? ==> r.value == old(termsAsCompiled)[termRef])
      ensures termRef !in old(termsAsCompiled) ==>
        (r.Err? <==> exists i :: 0 <= i < |exposed| && exposed[i].Constant?) &&
        (r.Err? ==> termsAsCompiled == old(termsAsCompiled)) &&
        (r.Ok? ==> r.value == CompiledExpression(termRef, exposed, exposed) && termsAsCompiled == old(termsAsCompiled)[termRef := r.value])
    {
      if termRef in termsAsCompiled {
        var c := termsAsCompiled[termRef];
        if (set v | v in c.exposedVars) != (set v | v in exposed) {
          return Err("compiled expression registered with other exposed variables");
        }
        return Ok(c);
      }
      if exists i :: 0 <= i < |exposed| && exposed[i].Constant? {
        return Err("a constant variable cannot be exposed");
      }
      r := Ok(CompiledExpression(termRef, exposed, exposed));
      termsAsCompiled := termsAsCompiled[termRef := r.value];
    }

    /** Registers tr once with every cell of ids (the tracking loop of _optimize_term, context.py:400-401). */
    method TrackAll(ids: set<nat>, tr: Tracker)
      requires Valid()
      modifies this`arena
      ensures Valid() && arena == TrackedAll(old(arena), ids, tr)
    {
      ghost var a0 := arena;
      assert TrackedAll(a0, {}, tr) == a0;
      var rest := ids;
      while rest != {}
        invariant rest <= ids && Valid()
        invariant arena == TrackedAll(a0, ids - rest, tr)
        decreases |rest|
      {
        var x :| x in rest;
        TrackKeepsOk(Book(), x, tr);
        TrackedAllStep(a0, ids - rest, x, tr);
        assert ids - (rest - {x}) == (ids - rest) + {x};
        arena := Tracked(arena, x, tr);
        rest := rest - {x};
      }
    }

    /** The `$reflect` test of _optimize_term (context.py:383-391). */
    method ReflectAssumed(ids: set<nat>) returns (found: bool)
      requires Valid()
      modifies this`termAssumptions, this`definedAssumptions, this`arena
      ensures Valid() && (found, Book()) == ReflectTest(old(Book()), ids)
    {
      var a3 := TermAssumption(Functor("$reflect", 3));
      if a3 in ids {
        return true;
      }
      var a4 := TermAssumption(Functor("$reflect", 4));
      found := a4 in ids;
    }

    /** The end of _optimize_term (context.py:394-401). */
    method Finish(term: TermId, ids: set<nat>, due: bool) returns (r: Result<(), string>)
      requires Valid() && planner.Valid()
      modifies this`termAssumptions, this`definedAssumptions, this`arena, planner
      ensures Valid() && planner.Valid()
      ensures var run := Finished(termsAsOptimized, old(Book()), term, ids, due);
        r == run.result && Book() == run.book
      ensures var run := Finished(termsAsOptimized, old(Book()), term, ids, due);
        if run.rotated then Replanned(old(planner.State()), planner.State(), term) else planner.State() == old(planner.State())
    {
      if due && exists x :: x in ids && x < |arena| && !arena[x].valid {
        return Err("an assumption the optimizer used is invalid");
      }
      if due {
        var _ := InvalidateTermAssumption(term);
      }
      TrackAll(ids, Reoptimize(term));
      r := Ok(());
    }

    /** The term assumption, then the defined-assumption, of _optimize_term (context.py:348-349). */
    method Prepare(term: TermId) returns (a: nat, d: nat)
      requires Valid()
      modifies this`termAssumptions, this`definedAssumptions, this`arena
      ensures Valid() && (Book(), a, d) == Prepared(old(Book()), term)
    {
      a := TermAssumption(term);
      d := TermAsDefinedAssumption(term);
    }

    /** The `$reflect` test and the store of _optimize_term (context.py:377-392). */
    method Decide(term: TermId, rr: RExpr, ids: set<nat>, possiblyEqual: bool, empty: bool) returns (due: bool)
      requires Valid()
      modifies this`termsAsOptimized, this`termAssumptions, this`definedAssumptions, this`arena
      ensures Valid() && (termsAsOptimized, Book(), due) == Decided(old(termsAsOptimized), old(Book()), term, rr, ids, possiblyEqual, empty)
    {
      var popt := Get(termsAsOptimized, term);
      var reflectAssumed := false;
      if popt.None? && !empty {
        reflectAssumed := ReflectAssumed(ids);
      }
      var o := OptimizeOutcome(popt, rr, possiblyEqual, empty, reflectAssumed);
      if o.0 {
        termsAsOptimized := termsAsOptimized[term := rr];
      }
      due := o.1;
    }

    /** The store and the end of _optimize_term (context.py:377-401). */
    method SettleRun(term: TermId, rr: RExpr, ids: set<nat>, possiblyEqual: bool, empty: bool) returns (r: Result<(), string>)
      requires Valid() && planner.Valid()
      modifies this`termsAsOptimized, this`termAssumptions, this`definedAssumptions, this`arena, planner
      ensures Valid() && planner.Valid()
      ensures var run := Settled(old(termsAsOptimized), old(Book()), term, rr, ids, possiblyEqual, empty);
        r == run.result && termsAsOptimized == run.optimized && Book() == run.book
      ensures var run := Settled(old(termsAsOptimized), old(Book()), term, rr, ids, possiblyEqual, empty);
        if run.rotated then Replanned(old(planner.State()), planner.State(), term) else planner.State() == old(planner.State())
    {
      var due := Decide(term, rr, ids, possiblyEqual, empty);
      r := Finish(term, ids, due);
    }

    /**
      _optimize_term (context.py:346-401), with the optimizer, the engine's
      possibly_equal and isEmpty as parameters: the run OptimizeRunOf
      describes, and the safety planner is told about a rotation.
    */
    method OptimizeTermNow(term: TermId, optimizer: (RExpr, set<Var>) -> (RExpr, set<nat>),
                           possiblyEqual: (RExpr, RExpr) -> bool, isEmpty: RExpr -> bool) returns (r: Result<(), string>)
      requires Valid() && planner.Valid()
      modifies this`termsAsOptimized, this`termAssumptions, this`definedAssumptions, this`arena, planner
      ensures Valid() && planner.Valid()
      ensures var run := OptimizeRunOf(old(View()), old(Book()), term, optimizer, possiblyEqual, isEmpty);
        r == run.result && termsAsOptimized == run.optimized && Book() == run.book
      ensures var run := OptimizeRunOf(old(View()), old(Book()), term, optimizer, possiblyEqual, isEmpty);
        if run.rotated then Replanned(old(planner.State()), planner.State(), term) else planner.State() == old(planner.State())
    {
      var assumpt, assumptD := Prepare(term);
      var input := OptimizeInput(View(), term);
      if input.Err? {
        return Err(input.error);
      }
      var out := optimizer(input.value.0, input.value.1);
      var rr := Pruned(out.0, term, View());
      var popt := Get(termsAsOptimized, term);
      r := SettleRun(term, rr, UsedAssumptions(out.1, assumptD, assumpt, |arena|), popt.Some? && possiblyEqual(rr, popt.value), isEmpty(rr));
    }
  }
}

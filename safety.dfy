/**
  The safety planner (dyna/safety_planner.py).  For every planned term and
  in-mode the mode cache holds a verdict (which exposed variables come back
  bound, whether delayed constraints may remain, whether the term is
  basically finite) and the set of entries that read it.  Entries are
  re-planned through a last-in first-out worklist until nothing changes.
*/
module SafetyPlanner {
  import opened Wrappers
  import opened RExprs
  import Agenda

  /**
    A key of the mode cache: a term reference packed with its exposed
    variables (safety_planner.py:35).  TermName is a bare term reference
    used as a key, which is what the term registry passes when it
    invalidates a term; the planner itself never stores such a key.
  */
  datatype PlanKey = PlanKey(ref: TermId, args: seq<Var>) | TermName(name: TermId)

  /** A worklist entry and a dependent: a term of the cache and one of its in-modes. */
  datatype Name = Name(term: PlanKey, mode: Mode)

  /** What planning concludes for one in-mode. */
  datatype Verdict = Verdict(outMode: Mode, delayed: bool, finite: bool)

  /** A cache entry: the verdict and the entries whose planning read it. */
  datatype Entry = Entry(verdict: Verdict, dependents: set<Name>)

  type Cache = map<PlanKey, map<Mode, Entry>>

  /** The optimistic entry: everything comes back bound, nothing delayed, not known finite. */
  function Guess(n: nat): (e: Entry)
    ensures e.verdict.outMode == Trues(n) && !e.verdict.delayed && !e.verdict.finite && e.dependents == {}
  {
    Entry(Verdict(Trues(n), false, false), {})
  }

  /** The planner's state: the cache, the insertion order of each term's modes, and the worklist. */
  datatype PlanState = PlanState(cache: Cache, order: map<PlanKey, seq<Mode>>, agenda: seq<Name>)

  ghost predicate CachedIn(c: Cache, n: Name) {
    n.term in c && n.mode in c[n.term]
  }

  /** The modes of one term: listed once each in insertion order, all of the term's arity. */
  ghost predicate TableOk(t: PlanKey, tab: map<Mode, Entry>, order: seq<Mode>) {
    t.PlanKey? && Distinct(order) && (forall m :: m in tab <==> m in order) &&
    forall m {:trigger m in tab} :: m in tab ==> |m| == |t.args| && |tab[m].verdict.outMode| == |m|
  }

  /** Every dependent and every worklist entry names an entry of the cache; the worklist has no repeats. */
  ghost predicate StateOk(s: PlanState) {
    s.cache.Keys == s.order.Keys &&
    (forall t {:trigger t in s.cache} :: t in s.cache ==> TableOk(t, s.cache[t], s.order[t])) &&
    (forall t, m, d {:trigger d in s.cache[t][m].dependents} ::
       t in s.cache && m in s.cache[t] && d in s.cache[t][m].dependents ==> CachedIn(s.cache, d)) &&
    Distinct(s.agenda) && (forall n {:trigger n in s.agenda} :: n in s.agenda ==> CachedIn(s.cache, n))
  }

  /** c' keeps every entry of c with its verdict, and at least its dependents. */
  ghost predicate Extends(c: Cache, c': Cache) {
    forall t {:trigger t in c} :: t in c ==>
      t in c' &&
      forall m {:trigger m in c[t]} :: m in c[t] ==>
        m in c'[t] && c'[t][m].verdict == c[t][m].verdict && c[t][m].dependents <= c'[t][m].dependents
  }

  /** n, when cached in c, is still cached in c' with the same verdict. */
  ghost predicate SameVerdict(c: Cache, c': Cache, n: Name) {
    CachedIn(c, n) ==> CachedIn(c', n) && c'[n.term][n.mode].verdict == c[n.term][n.mode].verdict
  }

  /** n is cached in c with a verdict that binds at least what n's in-mode binds. */
  ghost predicate Replanned(c: Cache, n: Name) {
    CachedIn(c, n) && |c[n.term][n.mode].verdict.outMode| == |n.mode| &&
    forall i :: 0 <= i < |n.mode| && n.mode[i] ==> c[n.term][n.mode].verdict.outMode[i]
  }

  /**
    One re-plan of p, which changes no other verdict, keeps the verdicts of the
    names never re-planned and the re-plans already done.
  */
  lemma ReplannedKept(c0: Cache, c: Cache, c': Cache, done: seq<Name>, p: Name)
    requires forall n :: n != p ==> SameVerdict(c, c', n)
    requires forall n :: n !in done ==> SameVerdict(c0, c, n)
    requires forall n :: n in done ==> Replanned(c, n)
    requires Replanned(c', p)
    ensures forall n :: n !in done + [p] ==> SameVerdict(c0, c', n)
    ensures forall n :: n in done + [p] ==> Replanned(c', n)
  {
    forall n | n !in done + [p]
      ensures SameVerdict(c0, c', n)
    {
      assert n != p && n !in done;
      assert SameVerdict(c0, c, n) && SameVerdict(c, c', n);
    }
    forall n | n in done + [p]
      ensures Replanned(c', n)
    {
      if n != p {
        assert n in done;
        assert SameVerdict(c, c', n);
      }
    }
  }

  /** Replacing the entry of one name, or leaving the cache alone, keeps the verdicts of all other names. */
  lemma SameVerdictElsewhere(c: Cache, c': Cache, term: PlanKey, mode: Mode, e: Entry)
    requires term in c
    requires c' == c || c' == c[term := c[term][mode := e]]
    ensures forall n :: n != Name(term, mode) ==> SameVerdict(c, c', n)
  {
  }

  /** A change that keeps every verdict but x's, after one that keeps every verdict, keeps every verdict but x's. */
  lemma SameVerdictAfterExtends(c0: Cache, c1: Cache, c2: Cache, x: Name)
    requires Extends(c0, c1)
    requires forall n :: n != x ==> SameVerdict(c1, c2, n)
    ensures forall n :: n != x ==> SameVerdict(c0, c2, n)
  {
    forall n | n != x
      ensures SameVerdict(c0, c2, n)
    {
      assert SameVerdict(c1, c2, n);
    }
  }

  /**
    A stack discipline: the i-th name re-planned is the last of worklists[i],
    the worklist as the i-th pop saw it, and what that pop left stays beneath
    the next worklist (or beneath rest, the worklist at the end).
  */
  ghost predicate PoppedLast(processed: seq<Name>, worklists: seq<seq<Name>>, rest: seq<Name>) {
    |worklists| == |processed| && forall i :: 0 <= i < |processed| ==> PoppedAt(processed, worklists, rest, i)
  }

  ghost predicate PoppedAt(processed: seq<Name>, worklists: seq<seq<Name>>, rest: seq<Name>, i: int)
    requires |worklists| == |processed| && 0 <= i < |processed|
  {
    worklists[i] != [] && processed[i] == worklists[i][|worklists[i]| - 1] &&
    worklists[i][..|worklists[i]| - 1] <= if i + 1 < |processed| then worklists[i + 1] else rest
  }

  /** Popping the last name of w, then scheduling more work on top of what is left, extends the discipline. */
  lemma PoppedLastStep(processed: seq<Name>, worklists: seq<seq<Name>>, w: seq<Name>, rest: seq<Name>)
    requires PoppedLast(processed, worklists, w)
    requires w != [] && w[..|w| - 1] <= rest
    ensures PoppedLast(processed + [w[|w| - 1]], worklists + [w], rest)
  {
    var processed', worklists' := processed + [w[|w| - 1]], worklists + [w];
    forall i | 0 <= i < |processed'|
      ensures PoppedAt(processed', worklists', rest, i)
    {
      if i < |processed| {
        assert PoppedAt(processed, worklists, w, i);
        assert worklists'[i] == worklists[i] && processed'[i] == processed[i];
        assert worklists'[i + 1] == if i + 1 < |processed| then worklists[i + 1] else w;
      } else {
        assert worklists'[i] == w && processed'[i] == w[|w| - 1];
      }
    }
  }

  lemma ExtendsTransitive(a: Cache, b: Cache, c: Cache)
    requires Extends(a, b) && Extends(b, c)
    ensures Extends(a, c)
  {
  }

  /**
    The reuse test of _lookup (safety_planner.py:53-55): every position the
    cached mode kk needed bound is bound in the request, and the cached entry
    binds everything.  Positions are compared pairwise up to the shorter mode.
  */
  predicate Reusable(mode: Mode, kk: Mode, v: Entry) {
    (forall i :: 0 <= i < |mode| && i < |kk| ==> mode[i] || !kk[i]) &&
    forall i :: 0 <= i < |v.verdict.outMode| ==> v.verdict.outMode[i]
  }

  /** Between modes of equal length, reuse means kk is below the request and the entry binds everything. */
  lemma ReusableMeansBelow(mode: Mode, kk: Mode, v: Entry)
    requires |mode| == |kk| == |v.verdict.outMode|
    ensures Reusable(mode, kk, v) <==> Leq(kk, mode) && v.verdict.outMode == Trues(|mode|)
  {
    if v.verdict.outMode == Trues(|mode|) {
      assert forall i :: 0 <= i < |v.verdict.outMode| ==> v.verdict.outMode[i];
    }
  }

  /** The first mode in order whose entry can be reused for the request. */
  function FirstReusable(order: seq<Mode>, tab: map<Mode, Entry>, mode: Mode): (r: Option<Mode>)
    requires forall k :: k in order ==> k in tab
    ensures r.Some? ==> r.value in order && Reusable(mode, r.value, tab[r.value])
    ensures r.None? <==> forall k :: k in order ==> !Reusable(mode, k, tab[k])
  {
    if order == [] then None
    else if Reusable(mode, order[0], tab[order[0]]) then Some(order[0])
    else FirstReusable(order[1..], tab, mode)
  }

  /** The loop of _lookup over the cached modes in insertion order (safety_planner.py:53-55). */
  method FindReusable(order: seq<Mode>, tab: map<Mode, Entry>, mode: Mode) returns (r: Option<Mode>)
    requires forall k :: k in order ==> k in tab
    ensures r == FirstReusable(order, tab, mode)
  {
    r := None;
    var i := 0;
    while i < |order|
      invariant 0 <= i <= |order|
      invariant FirstReusable(order[i..], tab, mode) == FirstReusable(order, tab, mode)
    {
      if Reusable(mode, order[i], tab[order[i]]) {
        r := Some(order[i]);
        return;
      }
      assert order[i..][1..] == order[i + 1..];
      i := i + 1;
    }
  }

  /** The state after the first lookup of term: the all-free mode holds the guess and is scheduled. */
  ghost function Seeded(s: PlanState, term: PlanKey, n: nat): (r: PlanState)
    ensures term in r.cache && s.cache.Keys <= r.cache.Keys && s.agenda <= r.agenda
  {
    if term in s.cache then s
    else PlanState(s.cache[term := map[Falses(n) := Guess(n)]], s.order[term := [Falses(n)]],
                   Agenda.Pushed(s.agenda, Name(term, Falses(n))))
  }

  /** The entries of term in c are kept in tab with their verdicts and at least their dependents. */
  ghost predicate KeepsEntries(c: Cache, term: PlanKey, tab: map<Mode, Entry>) {
    term in c ==>
      forall m {:trigger m in c[term]} :: m in c[term] ==>
        m in tab && tab[m].verdict == c[term][m].verdict && c[term][m].dependents <= tab[m].dependents
  }

  /**
    Growing the table of one term keeps the state well formed: the new table
    is well formed and keeps the old entries, and every new dependent and
    worklist entry names an entry of the new cache.
  */
  lemma GrowOk(s: PlanState, term: PlanKey, tab: map<Mode, Entry>, ord: seq<Mode>, ag: seq<Name>)
    requires StateOk(s) && TableOk(term, tab, ord) && KeepsEntries(s.cache, term, tab)
    requires forall m, d :: m in tab && d in tab[m].dependents ==>
      (term in s.cache && m in s.cache[term] && d in s.cache[term][m].dependents) ||
      CachedIn(s.cache, d) || (d.term == term && d.mode in tab)
    requires Distinct(ag) && forall n :: n in ag ==> n in s.agenda || CachedIn(s.cache, n) || (n.term == term && n.mode in tab)
    ensures StateOk(PlanState(s.cache[term := tab], s.order[term := ord], ag))
    ensures Extends(s.cache, s.cache[term := tab])
  {
    var c' := s.cache[term := tab];
    var o' := s.order[term := ord];
    forall n | CachedIn(s.cache, n)
      ensures CachedIn(c', n)
    {
      if n.term != term && n.term in s.cache {
        assert c'[n.term] == s.cache[n.term];
      }
    }
    forall t | t in c'
      ensures TableOk(t, c'[t], o'[t])
    {
      if t != term {
        assert c'[t] == s.cache[t] && o'[t] == s.order[t];
      }
    }
    forall t, m, d | t in c' && m in c'[t] && d in c'[t][m].dependents
      ensures CachedIn(c', d)
    {
      if t != term {
        assert c'[t] == s.cache[t];
        assert CachedIn(s.cache, d);
      } else if term in s.cache && m in s.cache[term] && d in s.cache[term][m].dependents {
        assert CachedIn(s.cache, d);
      }
    }
    forall n | n in ag
      ensures CachedIn(c', n)
    {
      if n in s.agenda {
        assert CachedIn(s.cache, n);
      }
    }
    forall t | t in s.cache
      ensures t in c' && forall m :: m in s.cache[t] ==>
        m in c'[t] && c'[t][m].verdict == s.cache[t][m].verdict && s.cache[t][m].dependents <= c'[t][m].dependents
    {
      if t != term {
        assert c'[t] == s.cache[t];
      }
    }
  }

  lemma SeededOk(s: PlanState, term: PlanKey, n: nat)
    requires StateOk(s) && term.PlanKey? && |term.args| == n
    ensures StateOk(Seeded(s, term, n))
    ensures Extends(s.cache, Seeded(s, term, n).cache) && s.agenda <= Seeded(s, term, n).agenda
    ensures term in Seeded(s, term, n).cache
  {
    if term !in s.cache {
      var tab := map[Falses(n) := Guess(n)];
      assert TableOk(term, tab, [Falses(n)]);
      GrowOk(s, term, tab, [Falses(n)], Agenda.Pushed(s.agenda, Name(term, Falses(n))));
    }
  }

  /**
    _lookup (safety_planner.py:32-64) on a state: the new state and the mode
    whose entry answers the request, or None.
  */
  ghost function LookupResult(s: PlanState, term: PlanKey, mode: Mode, pushComputes: bool): (PlanState, Option<Mode>)
    requires StateOk(s) && term.PlanKey? && |term.args| == |mode|
  {
    SeededOk(s, term, |mode|);
    var s1 := Seeded(s, term, |mode|);
    var tab := s1.cache[term];
    if mode in tab then (s1, Some(mode))
    else match FirstReusable(s1.order[term], tab, mode)
      case Some(kk) => (s1, Some(kk))
      case None =>
        if pushComputes then
          (PlanState(s1.cache[term := tab[mode := Guess(|mode|)]], s1.order[term := s1.order[term] + [mode]],
                     Agenda.Pushed(s1.agenda, Name(term, mode))), Some(mode))
        else (s1, None)
  }

  /** A lookup keeps the state well formed, keeps every entry's verdict, and only appends to the worklist. */
  lemma LookupOk(s: PlanState, term: PlanKey, mode: Mode, pushComputes: bool)
    requires StateOk(s) && term.PlanKey? && |term.args| == |mode|
    ensures var (s', r) := LookupResult(s, term, mode, pushComputes);
      StateOk(s') && Extends(s.cache, s'.cache) && s.agenda <= s'.agenda && term in s'.cache &&
      (r.Some? ==> r.value in s'.cache[term])
  {
    SeededOk(s, term, |mode|);
    var s1 := Seeded(s, term, |mode|);
    var tab := s1.cache[term];
    if mode !in tab && FirstReusable(s1.order[term], tab, mode).None? && pushComputes {
      var tab' := tab[mode := Guess(|mode|)];
      var ord' := s1.order[term] + [mode];
      assert TableOk(term, tab, s1.order[term]);
      assert TableOk(term, tab', ord');
      GrowOk(s1, term, tab', ord', Agenda.Pushed(s1.agenda, Name(term, mode)));
      ExtendsTransitive(s.cache, s1.cache, s1.cache[term := tab']);
    }
  }

  /** The first lookup of a term seeds the all-free mode with the guess and schedules it. */
  lemma LookupSeeds(s: PlanState, term: PlanKey, mode: Mode, pushComputes: bool)
    requires StateOk(s) && term.PlanKey? && |term.args| == |mode| && term !in s.cache
    ensures var s' := LookupResult(s, term, mode, pushComputes).0;
      term in s'.cache && Falses(|mode|) in s'.cache[term] &&
      s'.cache[term][Falses(|mode|)] == Guess(|mode|) && Name(term, Falses(|mode|)) in s'.agenda
  {
    var s1 := Seeded(s, term, |mode|);
    var f := Falses(|mode|);
    assert s1.cache[term] == map[f := Guess(|mode|)] && Name(term, f) in s1.agenda;
    var s' := LookupResult(s, term, mode, pushComputes).0;
    if s' != s1 {
      assert mode != f && s'.cache[term] == s1.cache[term][mode := Guess(|mode|)];
      assert s'.agenda == Agenda.Pushed(s1.agenda, Name(term, mode));
    }
  }

  /** A mode already cached is answered by its own entry and nothing changes. */
  lemma LookupExactHit(s: PlanState, term: PlanKey, mode: Mode, pushComputes: bool)
    requires StateOk(s) && term.PlanKey? && |term.args| == |mode|
    requires term in s.cache && mode in s.cache[term]
    ensures LookupResult(s, term, mode, pushComputes) == (s, Some(mode))
  {
  }

  /**
    Another entry answers the request only when every position it needed bound
    is bound in the request and it binds every exposed variable; the lookup
    then changes nothing beyond the seeding.
  */
  lemma LookupReuse(s: PlanState, term: PlanKey, mode: Mode, pushComputes: bool)
    requires StateOk(s) && term.PlanKey? && |term.args| == |mode|
    ensures var (s', r) := LookupResult(s, term, mode, pushComputes);
      r.Some? && r.value != mode ==>
        s' == Seeded(s, term, |mode|) && r.value in s'.cache[term] &&
        Leq(r.value, mode) && s'.cache[term][r.value].verdict.outMode == Trues(|mode|)
  {
    SeededOk(s, term, |mode|);
    var s1 := Seeded(s, term, |mode|);
    var (s', r) := LookupResult(s, term, mode, pushComputes);
    if r.Some? && r.value != mode {
      var kk := r.value;
      assert TableOk(term, s1.cache[term], s1.order[term]);
      ReusableMeansBelow(mode, kk, s1.cache[term][kk]);
    }
  }

  /**
    A request that nothing answers: without pushComputes the lookup answers
    None and adds nothing; with it, the guess is stored for the request and
    the request is scheduled.
  */
  lemma LookupMiss(s: PlanState, term: PlanKey, mode: Mode, pushComputes: bool)
    requires StateOk(s) && term.PlanKey? && |term.args| == |mode|
    requires term in s.cache && mode !in s.cache[term]
    requires forall k :: k in s.cache[term] ==> !Reusable(mode, k, s.cache[term][k])
    ensures var (s', r) := LookupResult(s, term, mode, pushComputes);
      (!pushComputes ==> s' == s && r == None) &&
      (pushComputes ==> r == Some(mode) && s'.cache == s.cache[term := s.cache[term][mode := Guess(|mode|)]] &&
                        s'.agenda == Agenda.Pushed(s.agenda, Name(term, mode)))
  {
    assert TableOk(term, s.cache[term], s.order[term]);
  }

  /** The names of a term's modes, in order. */
  function NamesOf(term: PlanKey, modes: seq<Mode>): (ns: seq<Name>)
    ensures |ns| == |modes| && forall i :: 0 <= i < |modes| ==> ns[i] == Name(term, modes[i])
  {
    seq(|modes|, i requires 0 <= i < |modes| => Name(term, modes[i]))
  }

  /** Pushing the names of one more mode extends PushAll by one step. */
  lemma PushAllSnoc(q: seq<Name>, term: PlanKey, modes: seq<Mode>, i: nat)
    requires i < |modes|
    ensures Agenda.PushAll(q, NamesOf(term, modes[..i + 1]))
         == Agenda.Pushed(Agenda.PushAll(q, NamesOf(term, modes[..i])), Name(term, modes[i]))
  {
    assert NamesOf(term, modes[..i + 1])[..i] == NamesOf(term, modes[..i]);
  }

  /** The loop of invalidate_term (safety_planner.py:250-251): push every mode of modes, in order, onto q. */
  method ScheduleModes(q: seq<Name>, term: PlanKey, modes: seq<Mode>) returns (q': seq<Name>)
    ensures q' == Agenda.PushAll(q, NamesOf(term, modes))
  {
    var i := 0;
    q' := q;
    while i < |modes|
      invariant 0 <= i <= |modes|
      invariant q' == Agenda.PushAll(q, NamesOf(term, modes[..i]))
    {
      PushAllSnoc(q, term, modes, i);
      q' := Agenda.Pushed(q', Name(term, modes[i]));
      i := i + 1;
    }
    assert modes[..i] == modes;
  }

  /** The worklist after invalidate_term(term) (safety_planner.py:246-257). */
  ghost function Rescheduled(s: PlanState, term: PlanKey): (r: seq<Name>)
    requires s.cache.Keys == s.order.Keys
    ensures s.agenda <= r
  {
    if term in s.cache then Agenda.PushAll(s.agenda, NamesOf(term, s.order[term])) else s.agenda
  }

  /** Invalidating a term schedules every cached mode of it and keeps what was scheduled. */
  lemma RescheduledCoversModes(s: PlanState, term: PlanKey)
    requires StateOk(s) && term in s.cache
    ensures s.agenda <= Rescheduled(s, term)
    ensures forall m :: m in s.cache[term] ==> Name(term, m) in Rescheduled(s, term)
    ensures forall n :: n in Rescheduled(s, term) ==> n in s.agenda || (n.term == term && n.mode in s.cache[term])
    ensures Distinct(Rescheduled(s, term))
  {
    var ns := NamesOf(term, s.order[term]);
    Agenda.PushAllContents(s.agenda, ns);
    Agenda.PushAllDistinct(s.agenda, ns);
    assert TableOk(term, s.cache[term], s.order[term]);
    forall m | m in s.cache[term]
      ensures Name(term, m) in Rescheduled(s, term)
    {
      var i :| 0 <= i < |s.order[term]| && s.order[term][i] == m;
      assert ns[i] == Name(term, m);
    }
  }

  /**
    Progress of invalidation by term reference: q extends the worklist of s
    with every mode of the keys of ref already handled, and nothing else.
  */
  ghost predicate RefProgress(s: PlanState, ref: TermId, keys: set<PlanKey>, q: seq<Name>)
    requires StateOk(s)
  {
    keys <= KeysOf(s.cache, ref) && s.agenda <= q && Distinct(q) &&
    (forall n :: n in q ==> n in s.agenda || (n.term in KeysOf(s.cache, ref) && n.mode in s.cache[n.term])) &&
    forall t, m {:trigger m in s.cache[t]} ::
      t in KeysOf(s.cache, ref) - keys && m in s.cache[t] ==> Name(t, m) in q
  }

  /** Handling one more key of ref keeps RefProgress. */
  lemma RefStep(s: PlanState, ref: TermId, keys: set<PlanKey>, q: seq<Name>, t: PlanKey)
    requires StateOk(s) && RefProgress(s, ref, keys, q) && t in keys
    ensures RefProgress(s, ref, keys - {t}, Agenda.PushAll(q, NamesOf(t, s.order[t])))
  {
    AgendaOk(s, q);
    RescheduledCoversModes(PlanState(s.cache, s.order, q), t);
  }

  /**
    Invalidation with a bare term name, as the registry calls it, never finds
    an entry: nothing is scheduled even when modes of that term are cached.
  */
  lemma BareNameSchedulesNothing(s: PlanState, ref: TermId, args: seq<Var>, m: Mode)
    requires StateOk(s) && PlanKey(ref, args) in s.cache && m in s.cache[PlanKey(ref, args)]
    requires Name(PlanKey(ref, args), m) !in s.agenda
    ensures Rescheduled(s, TermName(ref)) == s.agenda
    ensures Name(PlanKey(ref, args), m) !in Rescheduled(s, TermName(ref))
    ensures Name(PlanKey(ref, args), m) in Rescheduled(s, PlanKey(ref, args))
  {
    assert TermName(ref) !in s.cache;
    RescheduledCoversModes(s, PlanKey(ref, args));
  }

  /** Replacing the verdict of a cached entry and clearing its dependents keeps the state well formed. */
  lemma ReplaceOk(s: PlanState, term: PlanKey, mode: Mode, v: Verdict)
    requires StateOk(s) && CachedIn(s.cache, Name(term, mode)) && |v.outMode| == |mode|
    ensures var c' := s.cache[term := s.cache[term][mode := Entry(v, {})]];
      StateOk(PlanState(c', s.order, s.agenda)) && forall n :: CachedIn(c', n) <==> CachedIn(s.cache, n)
  {
    var c' := s.cache[term := s.cache[term][mode := Entry(v, {})]];
    forall n
      ensures CachedIn(c', n) <==> CachedIn(s.cache, n)
    {
      if n.term != term && n.term in s.cache {
        assert c'[n.term] == s.cache[n.term];
      }
    }
    forall t | t in c'
      ensures TableOk(t, c'[t], s.order[t])
    {
      if t != term {
        assert c'[t] == s.cache[t];
      } else {
        assert TableOk(t, s.cache[t], s.order[t]);
      }
    }
    forall t, m, d | t in c' && m in c'[t] && d in c'[t][m].dependents
      ensures CachedIn(c', d)
    {
      assert CachedIn(s.cache, d);
    }
  }

  /** Scheduling a cached entry keeps the state well formed. */
  lemma PushOk(s: PlanState, n: Name)
    requires StateOk(s) && CachedIn(s.cache, n)
    ensures StateOk(PlanState(s.cache, s.order, Agenda.Pushed(s.agenda, n)))
  {
  }

  /** Any worklist of distinct cached entries fits a well-formed state. */
  lemma AgendaOk(s: PlanState, q: seq<Name>)
    requires StateOk(s) && Distinct(q) && forall n :: n in q ==> CachedIn(s.cache, n)
    ensures StateOk(PlanState(s.cache, s.order, q))
  {
  }

  /** Taking the last entry off the worklist keeps the state well formed. */
  lemma PopOk(s: PlanState)
    requires StateOk(s) && s.agenda != []
    ensures StateOk(PlanState(s.cache, s.order, s.agenda[..|s.agenda| - 1]))
    ensures CachedIn(s.cache, s.agenda[|s.agenda| - 1])
  {
    assert s.agenda[|s.agenda| - 1] in s.agenda;
    forall n | n in s.agenda[..|s.agenda| - 1]
      ensures CachedIn(s.cache, n)
    {
      assert n in s.agenda;
    }
  }

  /** The cached keys of the term ref, whatever their exposed variables. */
  function KeysOf(c: Cache, ref: TermId): (ks: set<PlanKey>)
    ensures forall t :: t in ks <==> t in c && t.PlanKey? && t.ref == ref
  {
    set t | t in c && t.PlanKey? && t.ref == ref
  }

  /** Whether v is bound in the frame; a constant variable is always bound. */
  predicate IsBound(v: Var, bound: set<Var>) {
    v.Constant? || v in bound
  }

  /** The binding pattern of vs in the frame. */
  function ModeOf(vs: seq<Var>, bound: set<Var>): (m: Mode)
    ensures |m| == |vs| && forall i :: 0 <= i < |vs| ==> (m[i] <==> IsBound(vs[i], bound))
  {
    seq(|vs|, i requires 0 <= i < |vs| => IsBound(vs[i], bound))
  }

  /** track_set: a constant cannot be set and stays as it is. */
  function Track(bound: set<Var>, v: Var): (r: set<Var>)
    ensures IsBound(v, r) && bound <= r <= bound + {v}
  {
    if v.Constant? then bound else bound + {v}
  }

  /** The non-constant variables of vs. */
  function Settable(vs: seq<Var>): set<Var> {
    set v | v in vs && !v.Constant?
  }

  /** The variables vs[j] for which keep[j] is false, for j below both lengths. */
  function Dropped(vs: seq<Var>, keep: seq<bool>): set<Var> {
    set j | 0 <= j < |vs| && j < |keep| && !keep[j] :: vs[j]
  }

  /** A frame variable that no dropped position names is kept. */
  lemma DroppedMisses(vs: seq<Var>, keep: seq<bool>, b0: set<Var>)
    requires forall j :: 0 <= j < |vs| && j < |keep| && !keep[j] ==> !IsBound(vs[j], b0)
    ensures forall v :: v in b0 ==> v !in Dropped(vs, keep)
  {
  }

  /** The effect of any step on the frame: nothing bound before is lost, only vars gets bound. */
  ghost predicate Grows(b0: set<Var>, b: set<Var>, vars: set<Var>) {
    b0 <= b && b <= b0 + vars
  }

  lemma StrictGrowth(u: set<Var>, a: set<Var>, b: set<Var>)
    requires a <= b <= u && a != b
    ensures |u - b| < |u - a|
  {
    assert u - a == (u - b) + (b - a);
    assert (u - b) * (b - a) == {};
    var x :| x in b && x !in a;
    assert x in b - a;
  }

  /**
    The rule of a node that binds on its own (safety_planner.py:121-137,
    161-167, 180-199): the new frame, or blocked when the node must stay a
    delayed constraint.  A ModedOp binds all its variables exactly when the
    current mode is one of its det or nondet modes; Unify binds either side
    from the other; BuildStructure binds the arguments from the result or the
    result from the arguments.  Evaluate and ReflectStructure always block.
  */
  method LocalStep(r: RExpr, bound: set<Var>) returns (bound': set<Var>, blocked: bool)
    requires r.ModedOp? || r.BuildStructure? || r.Unify? || r.Evaluate? || r.ReflectStructure?
    ensures Grows(bound, bound', VarsOf(r))
    ensures blocked ==> bound' == bound
    ensures r.ModedOp? ==>
      (blocked <==> ModeOf(r.vars, bound) !in r.det && ModeOf(r.vars, bound) !in r.nondet) &&
      (!blocked ==> bound' == bound + Settable(r.vars))
    ensures r.Unify? ==>
      (blocked <==> !IsBound(r.v1, bound) && !IsBound(r.v2, bound)) &&
      (!blocked ==> IsBound(r.v1, bound') && IsBound(r.v2, bound') && bound' <= bound + {r.v1, r.v2})
    ensures r.BuildStructure? ==>
      (blocked <==> !IsBound(r.result, bound) && exists v :: v in r.arguments && !IsBound(v, bound)) &&
      (!blocked ==> IsBound(r.result, bound') && forall v :: v in r.arguments ==> IsBound(v, bound'))
    ensures r.Evaluate? || r.ReflectStructure? ==> blocked
  {
    match r
    case ModedOp(_, vs, det, nondet) =>
      var m := ModeOf(vs, bound);
      if m in det || m in nondet {
        bound' := BindAll(vs, bound);
        blocked := false;
      } else {
        bound', blocked := bound, true;
      }
    case BuildStructure(_, res, args) =>
      if IsBound(res, bound) {
        bound' := BindAll(args, bound);
        blocked := false;
      } else if forall v :: v in args ==> IsBound(v, bound) {
        bound', blocked := Track(bound, res), false;
      } else {
        bound', blocked := bound, true;
      }
    case Unify(v1, v2) =>
      if IsBound(v1, bound) {
        bound', blocked := Track(bound, v2), false;
      } else if IsBound(v2, bound) {
        bound', blocked := Track(bound, v1), false;
      } else {
        bound', blocked := bound, true;
      }
    case Evaluate(_, _, _) =>
      bound', blocked := bound, true;
    case ReflectStructure(_, _, _) =>
      bound', blocked := bound, true;
  }

  /** track_set on each of vs in turn. */
  method BindAll(vs: seq<Var>, bound: set<Var>) returns (r: set<Var>)
    ensures r == bound + Settable(vs)
    ensures forall v :: v in vs ==> IsBound(v, r)
  {
    r := bound;
    var i := 0;
    while i < |vs|
      invariant 0 <= i <= |vs|
      invariant r == bound + Settable(vs[..i])
    {
      assert vs[..i + 1] == vs[..i] + [vs[i]];
      r := Track(r, vs[i]);
      i := i + 1;
    }
    assert vs[..i] == vs;
  }

  /** The non-constant variables vs[j] with m[j] set, pairing positions up to the shorter length. */
  function Marked(vs: seq<Var>, m: Mode): set<Var> {
    set j | 0 <= j < |vs| && j < |m| && m[j] && !vs[j].Constant? :: vs[j]
  }

  /** track_set on vs[j] for every j where m[j] holds, pairing positions up to the shorter length. */
  method BindWhere(vs: seq<Var>, m: Mode, bound: set<Var>) returns (r: set<Var>)
    ensures r == bound + Marked(vs, m)
    ensures forall j :: 0 <= j < |vs| && j < |m| && m[j] ==> IsBound(vs[j], r)
  {
    r := bound;
    var i := 0;
    while i < |vs| && i < |m|
      invariant 0 <= i <= |vs| && i <= |m|
      invariant r == bound + set j | 0 <= j < i && m[j] && !vs[j].Constant? :: vs[j]
    {
      if m[i] {
        r := Track(r, vs[i]);
      }
      i := i + 1;
    }
  }

  /**
    Sets vs[j] where keep[j] holds and unsets it otherwise, in order, pairing
    positions up to the shorter length; the partition uses it to install a
    branch key and to settle the unioned variables (safety_planner.py:107-111, 116-120).
  */
  method Settle(vs: seq<Var>, keep: seq<bool>, bound: set<Var>) returns (r: set<Var>)
    ensures r <= bound + (set v | v in vs)
    ensures forall v :: v in bound && v !in Dropped(vs, keep) ==> v in r
    ensures Distinct(vs) ==> forall j :: 0 <= j < |vs| && j < |keep| ==> (IsBound(vs[j], r) <==> keep[j] || vs[j].Constant?)
  {
    r := bound;
    var i := 0;
    while i < |vs| && i < |keep|
      invariant 0 <= i <= |vs| && i <= |keep|
      invariant r <= bound + (set v | v in vs)
      invariant forall v :: v in bound && v !in Dropped(vs, keep) ==> v in r
      invariant Distinct(vs) ==> forall j :: 0 <= j < i ==> (IsBound(vs[j], r) <==> keep[j] || vs[j].Constant?)
      invariant Distinct(vs) ==> forall j :: i <= j < |vs| ==> (vs[j] in r <==> vs[j] in bound)
    {
      if keep[i] {
        r := Track(r, vs[i]);
      } else {
        assert vs[i] in Dropped(vs, keep);
        r := r - {vs[i]};
      }
      i := i + 1;
    }
  }

  /** The unioned positions still bound after a branch child: um[j] and vs[j] bound (safety_planner.py:113-115). */
  method MarkUnbound(vs: seq<Var>, bound: set<Var>, um: seq<bool>) returns (um': seq<bool>)
    requires |um| == |vs|
    ensures |um'| == |vs| && forall j :: 0 <= j < |vs| ==> (um'[j] <==> um[j] && IsBound(vs[j], bound))
  {
    um' := um;
    var i := 0;
    while i < |vs|
      invariant 0 <= i <= |vs| && |um'| == |vs|
      invariant forall j :: 0 <= j < i ==> (um'[j] <==> um[j] && IsBound(vs[j], bound))
      invariant forall j :: i <= j < |vs| ==> um'[j] == um[j]
    {
      if !IsBound(vs[i], bound) {
        um' := um'[i := false];
      }
      i := i + 1;
    }
  }

  /** The caller's variables of a call, in the callee's sorted variable order. */
  function Callers(vm: seq<(Var, Var)>): (vs: seq<Var>)
    ensures |vs| == |vm| && forall i :: 0 <= i < |vm| ==> vs[i] == vm[i].1
  {
    seq(|vm|, i requires 0 <= i < |vm| => vm[i].1)
  }

  /** The callee's exposed variables of a call, sorted. */
  function Callees(vm: seq<(Var, Var)>): (vs: seq<Var>)
    ensures |vs| == |vm| && forall i :: 0 <= i < |vm| ==> vs[i] == vm[i].0
  {
    seq(|vm|, i requires 0 <= i < |vm| => vm[i].0)
  }

  lemma CallersMentioned(vm: seq<(Var, Var)>)
    ensures (set v | v in Callers(vm)) <= VarsOf(CallTerm(TermId.Functor("", 0), vm))
  {
    forall v | v in Callers(vm)
      ensures v in VarsOf(CallTerm(TermId.Functor("", 0), vm))
    {
      var i :| 0 <= i < |vm| && Callers(vm)[i] == v;
      assert vm[i] in vm;
    }
  }

  class SafetyPlanner {
    var modeCache: Cache
    /** The insertion order of each term's modes, which is the order a Python dict iterates them. */
    var modeOrder: map<PlanKey, seq<Mode>>
    var agenda: seq<Name>

    function State(): PlanState
      reads this
    {
      PlanState(modeCache, modeOrder, agenda)
    }

    ghost predicate Valid()
      reads this
    {
      StateOk(State())
    }

    /** An empty cache and an empty worklist (safety_planner.py:26-30). */
    constructor ()
      ensures Valid() && modeCache == map[] && modeOrder == map[] && agenda == []
    {
      modeCache := map[];
      modeOrder := map[];
      agenda := [];
    }

    /** _push_agenda (safety_planner.py:233-235): n is appended unless it is already scheduled. */
    method PushAgenda(n: Name)
      modifies this
      ensures agenda == Agenda.Pushed(old(agenda), n)
      ensures modeCache == old(modeCache) && modeOrder == old(modeOrder)
    {
      if n !in agenda {
        agenda := agenda + [n];
      }
    }

    /** _lookup (safety_planner.py:32-64): the mode whose entry answers the request, or None. */
    method Lookup(term: PlanKey, mode: Mode, pushComputes: bool) returns (r: Option<Mode>)
      requires Valid() && term.PlanKey? && |term.args| == |mode|
      modifies this
      ensures (State(), r) == LookupResult(old(State()), term, mode, pushComputes)
      ensures Valid() && Extends(old(modeCache), modeCache) && old(agenda) <= agenda
      ensures term in modeCache && (r.Some? ==> r.value in modeCache[term])
    {
      ghost var s0 := State();
      LookupOk(s0, term, mode, pushComputes);
      SeededOk(s0, term, |mode|);
      var n := |mode|;
      if term !in modeCache {
        modeCache := modeCache[term := map[Falses(n) := Guess(n)]];
        modeOrder := modeOrder[term := [Falses(n)]];
        PushAgenda(Name(term, Falses(n)));
      }
      assert State() == Seeded(s0, term, n);
      var tab := modeCache[term];
      if mode in tab {
        r := Some(mode);
      } else {
        var order := modeOrder[term];
        assert TableOk(term, tab, order);
        r := FindReusable(order, tab, mode);
        if r.None? && pushComputes {
          modeCache := modeCache[term := tab[mode := Guess(n)]];
          modeOrder := modeOrder[term := order + [mode]];
          PushAgenda(Name(term, mode));
          r := Some(mode);
        }
      }
    }

    /** tracking.add(name): n becomes a dependent of the entry for mode k of key (safety_planner.py:148-149). */
    method AddDependent(key: PlanKey, k: Mode, n: Name)
      requires Valid() && key in modeCache && k in modeCache[key] && CachedIn(modeCache, n)
      modifies this
      ensures var e := old(modeCache)[key][k];
        modeCache == old(modeCache)[key := old(modeCache)[key][k := Entry(e.verdict, e.dependents + {n})]]
      ensures modeOrder == old(modeOrder) && agenda == old(agenda)
      ensures Valid() && Extends(old(modeCache), modeCache)
    {
      var e := modeCache[key][k];
      var tab := modeCache[key][k := Entry(e.verdict, e.dependents + {n})];
      assert TableOk(key, modeCache[key], modeOrder[key]);
      GrowOk(State(), key, tab, modeOrder[key], agenda);
      modeCache := modeCache[key := tab];
    }

    /**
      One walk of an R-expression (the walker of safety_planner.py:99-202):
      the frame only grows, and only by variables the expression mentions;
      the delayed flag is only ever set and the finite flag only ever cleared.
    */
    method Walk(r: RExpr, bound: set<Var>, delayed: bool, finite: bool, pushComputes: bool, name: Option<Name>)
      returns (bound': set<Var>, delayed': bool, finite': bool)
      requires Valid() && (name.Some? ==> CachedIn(modeCache, name.value))
      modifies this
      ensures Valid() && Extends(old(modeCache), modeCache) && old(agenda) <= agenda
      ensures Grows(bound, bound', VarsOf(r))
      ensures (delayed ==> delayed') && (finite' ==> finite)
      ensures r.Aggregator? ==> IsBound(r.result, bound') || delayed'
      decreases r, 1
    {
      if r.ModedOp? || r.BuildStructure? || r.Unify? || r.Evaluate? || r.ReflectStructure? {
        var blocked;
        bound', blocked := LocalStep(r, bound);
        delayed', finite' := delayed || blocked, finite;
      } else if r.Partition? {
        ghost var frames;
        bound', delayed', finite', frames := WalkPartition(r, bound, delayed, finite, pushComputes, name);
      } else if r.CallTerm? {
        var used;
        bound', delayed', finite', used := WalkCall(r, bound, delayed, finite, pushComputes, name);
      } else if r.Aggregator? {
        bound', delayed', finite' := Walk(r.body, bound, delayed, finite, pushComputes, name);
        if IsBound(r.bodyRes, bound') {
          bound' := Track(bound', r.result);
        } else {
          delayed' := true;
        }
      } else if r.AssumptionWrapper? {
        bound', delayed', finite' := Walk(r.wrapped, bound, delayed, finite, pushComputes, name);
      } else if r.Intersect? {
        bound', delayed', finite' := bound, delayed, finite;
        var i := 0;
        while i < |r.children|
          invariant 0 <= i <= |r.children|
          invariant Valid() && Extends(old(modeCache), modeCache) && old(agenda) <= agenda
          invariant name.Some? ==> CachedIn(modeCache, name.value)
          invariant Grows(bound, bound', VarsOf(r))
          invariant (delayed ==> delayed') && (finite' ==> finite)
        {
          ghost var c0 := modeCache;
          VarsOfListContains(r.children, i);
          bound', delayed', finite' := Walk(r.children[i], bound', delayed', finite', pushComputes, name);
          ExtendsTransitive(old(modeCache), c0, modeCache);
          i := i + 1;
        }
      } else {
        bound', delayed', finite' := bound, delayed, finite;
      }
    }

    /**
      The partition case (safety_planner.py:101-120): each branch child is
      walked with the unioned variables bound where the branch key is a
      constant or they were bound on entry; afterwards a unioned variable
      stays bound only if it was bound on entry or after every child.  frames
      holds the frame left by each child walk, in order.
    */
    method WalkPartition(r: RExpr, bound: set<Var>, delayed: bool, finite: bool, pushComputes: bool, name: Option<Name>)
      returns (bound': set<Var>, delayed': bool, finite': bool, ghost frames: seq<set<Var>>)
      requires r.Partition?
      requires Valid() && (name.Some? ==> CachedIn(modeCache, name.value))
      modifies this
      ensures Valid() && Extends(old(modeCache), modeCache) && old(agenda) <= agenda
      ensures Grows(bound, bound', VarsOf(r))
      ensures (delayed ==> delayed') && (finite' ==> finite)
      ensures Distinct(r.unionedVars) ==> forall k :: 0 <= k < |r.unionedVars| ==>
                (IsBound(r.unionedVars[k], bound') <==>
                 IsBound(r.unionedVars[k], bound) || forall f :: f in frames ==> IsBound(r.unionedVars[k], f))
      decreases r, 0
    {
      var u, bs := r.unionedVars, r.branches;
      var imode := ModeOf(u, bound);
      var um := Trues(|u|);
      bound', delayed', finite' := bound, delayed, finite;
      frames := [];
      var i := 0;
      while i < |bs|
        invariant 0 <= i <= |bs| && |um| == |u|
        invariant Valid() && Extends(old(modeCache), modeCache) && old(agenda) <= agenda
        invariant name.Some? ==> CachedIn(modeCache, name.value)
        invariant Grows(bound, bound', VarsOf(r))
        invariant (delayed ==> delayed') && (finite' ==> finite)
        invariant forall k :: 0 <= k < |u| ==> (um[k] <==> forall f :: f in frames ==> IsBound(u[k], f))
      {
        var cc := bs[i].rexprs;
        var j := 0;
        while j < |cc|
          invariant 0 <= j <= |cc| && |um| == |u|
          invariant Valid() && Extends(old(modeCache), modeCache) && old(agenda) <= agenda
          invariant name.Some? ==> CachedIn(modeCache, name.value)
          invariant Grows(bound, bound', VarsOf(r))
          invariant (delayed ==> delayed') && (finite' ==> finite)
          invariant forall k :: 0 <= k < |u| ==> (um[k] <==> forall f :: f in frames ==> IsBound(u[k], f))
        {
          var keep := seq(if |bs[i].key| < |u| then |bs[i].key| else |u|,
                          k requires 0 <= k < |bs[i].key| && k < |u| => bs[i].key[k].Some? || imode[k]);
          DroppedMisses(u, keep, bound);
          bound' := Settle(u, keep, bound');
          ghost var c0 := modeCache;
          assert cc[j] in bs[i].rexprs && bs[i] in bs;
          VarsOfBranchesContains(bs, i, j);
          bound', delayed', finite' := Walk(cc[j], bound', delayed', finite', pushComputes, name);
          ExtendsTransitive(old(modeCache), c0, modeCache);
          um := MarkUnbound(u, bound', um);
          frames := frames + [bound'];
          j := j + 1;
        }
        i := i + 1;
      }
      var keep := seq(|u|, k requires 0 <= k < |u| => imode[k] || um[k]);
      DroppedMisses(u, keep, bound);
      bound' := Settle(u, keep, bound');
    }

    /**
      The call case (safety_planner.py:138-160): the callee's entry for the
      caller's binding pattern is looked up; when there is one, the caller
      records itself as a dependent, inherits the delayed and finite flags and
      binds the variables the entry binds; otherwise the call stays delayed.
    */
    method WalkCall(r: RExpr, bound: set<Var>, delayed: bool, finite: bool, pushComputes: bool, name: Option<Name>)
      returns (bound': set<Var>, delayed': bool, finite': bool, used: Option<Mode>)
      requires r.CallTerm?
      requires Valid() && (name.Some? ==> CachedIn(modeCache, name.value))
      modifies this
      ensures Valid() && Extends(old(modeCache), modeCache) && old(agenda) <= agenda
      ensures Grows(bound, bound', VarsOf(r))
      ensures var key := PlanKey(r.termRef, Callees(r.varMap));
        used == LookupResult(old(State()), key, ModeOf(Callers(r.varMap), bound), pushComputes).1 &&
        (used.None? ==> bound' == bound && delayed' && finite' == finite) &&
        (used.Some? ==>
          key in modeCache && used.value in modeCache[key] &&
          var v := modeCache[key][used.value].verdict;
          delayed' == (delayed || v.delayed) && finite' == (finite && v.finite) &&
          (forall j :: 0 <= j < |r.varMap| && j < |v.outMode| && v.outMode[j] ==> IsBound(r.varMap[j].1, bound')) &&
          (name.Some? ==> name.value in modeCache[key][used.value].dependents))
    {
      var callers := Callers(r.varMap);
      var key := PlanKey(r.termRef, Callees(r.varMap));
      var mode := ModeOf(callers, bound);
      CallersMentioned(r.varMap);
      used := Lookup(key, mode, pushComputes);
      if used.Some? {
        var v := modeCache[key][used.value].verdict;
        if name.Some? {
          ghost var c0 := modeCache;
          AddDependent(key, used.value, name.value);
          ExtendsTransitive(old(modeCache), c0, modeCache);
        }
        delayed' := delayed || v.delayed;
        finite' := finite && v.finite;
        bound' := BindWhere(callers, v.outMode, bound);
        assert Marked(callers, v.outMode) <= (set v | v in callers);
      } else {
        bound', delayed', finite' := bound, true, finite;
      }
    }

    /** One round of _compute_R's loop body: two walks of r (safety_planner.py:93-94, 100-101). */
    method WalkTwice(r: RExpr, bound: set<Var>, delayed: bool, finite: bool, pushComputes: bool, name: Option<Name>)
      returns (bound': set<Var>, delayed': bool, finite': bool)
      requires Valid() && (name.Some? ==> CachedIn(modeCache, name.value))
      modifies this
      ensures Valid() && Extends(old(modeCache), modeCache) && old(agenda) <= agenda
      ensures name.Some? ==> CachedIn(modeCache, name.value)
      ensures Grows(bound, bound', VarsOf(r))
    {
      bound', delayed', finite' := Walk(r, bound, delayed, finite, pushComputes, name);
      ghost var c0 := modeCache;
      bound', delayed', finite' := Walk(r, bound', delayed', finite', pushComputes, name);
      ExtendsTransitive(old(modeCache), c0, modeCache);
    }

    /**
      _compute_R (safety_planner.py:80-226): walk the expression twice at a
      time until the frame stops growing, then twice more with delayed flags
      reset and pushComputes set, and read the out-mode off the exposed
      variables.  Every exposed variable bound on entry comes back bound; one
      comes back bound only if it was bound on entry or the expression
      mentions it.
    */
    method ComputeR(r: RExpr, exposed: seq<Var>, inMode: Mode, name: Option<Name>) returns (v: Verdict)
      requires Valid() && (name.Some? ==> CachedIn(modeCache, name.value))
      modifies this
      ensures Valid() && Extends(old(modeCache), modeCache) && old(agenda) <= agenda
      ensures |v.outMode| == |exposed|
      ensures forall i :: 0 <= i < |exposed| && i < |inMode| && inMode[i] ==> v.outMode[i]
      ensures forall i :: 0 <= i < |exposed| && v.outMode[i] ==>
        IsBound(exposed[i], Marked(exposed, inMode)) || exposed[i] in VarsOf(r)
    {
      var bound := BindWhere(exposed, inMode, {});
      ghost var b0 := bound;
      ghost var universe := b0 + VarsOf(r);
      var delayed, finite := false, true;
      var pushComputes := false;
      while true
        invariant Valid() && Extends(old(modeCache), modeCache) && old(agenda) <= agenda
        invariant name.Some? ==> CachedIn(modeCache, name.value)
        invariant Grows(b0, bound, VarsOf(r))
        decreases |universe - bound|
      {
        var last := bound;
        ghost var c0 := modeCache;
        bound, delayed, finite := WalkTwice(r, bound, delayed, finite, pushComputes, name);
        ExtendsTransitive(old(modeCache), c0, modeCache);
        if last == bound {
          break;
        }
        StrictGrowth(universe, last, bound);
      }
      delayed := false;
      pushComputes := true;
      ghost var c0 := modeCache;
      bound, delayed, finite := WalkTwice(r, bound, delayed, finite, pushComputes, name);
      ExtendsTransitive(old(modeCache), c0, modeCache);
      v := Verdict(ModeOf(exposed, bound), delayed, finite);
    }

    /**
      The end of _compute (safety_planner.py:75-78): an unchanged verdict
      changes nothing; a changed one replaces the entry with no dependents and
      schedules every old dependent.
    */
    method Refresh(term: PlanKey, mode: Mode, v: Verdict)
      requires Valid() && CachedIn(modeCache, Name(term, mode)) && |v.outMode| == |mode|
      modifies this
      ensures Valid() && modeOrder == old(modeOrder)
      ensures var e := old(modeCache)[term][mode];
        (e.verdict == v ==> modeCache == old(modeCache) && agenda == old(agenda)) &&
        (e.verdict != v ==>
          modeCache == old(modeCache)[term := old(modeCache)[term][mode := Entry(v, {})]] &&
          old(agenda) <= agenda && forall n :: n in agenda <==> n in old(agenda) || n in e.dependents)
      ensures forall n :: CachedIn(modeCache, n) <==> CachedIn(old(modeCache), n)
    {
      var e := modeCache[term][mode];
      if e.verdict != v {
        ReplaceOk(State(), term, mode, v);
        assert forall d :: d in e.dependents ==> CachedIn(modeCache, d);
        modeCache := modeCache[term := modeCache[term][mode := Entry(v, {})]];
        PushEach(e.dependents);
      }
    }

    /** Schedule every name of ds, in an arbitrary order (iteration over a Python set). */
    method PushEach(ds: set<Name>)
      requires Valid() && forall d :: d in ds ==> CachedIn(modeCache, d)
      modifies this
      ensures Valid() && modeCache == old(modeCache) && modeOrder == old(modeOrder)
      ensures old(agenda) <= agenda && forall n :: n in agenda <==> n in old(agenda) || n in ds
    {
      var q, pending := agenda, ds;
      while pending != {}
        invariant pending <= ds && agenda <= q && Distinct(q)
        invariant forall n :: n in q <==> n in agenda || n in ds - pending
        decreases |pending|
      {
        var d :| d in pending;
        q := Agenda.Pushed(q, d);
        pending := pending - {d};
      }
      AgendaOk(State(), q);
      agenda := q;
    }

    /**
      _compute (safety_planner.py:66-78): re-plan one cached entry.  verdict is
      the fresh plan; when it differs from the cached one, the entry loses its
      dependents and every one of them is scheduled.
    */
    method Compute(term: PlanKey, mode: Mode, getRExpr: TermId -> RExpr) returns (ghost verdict: Verdict)
      requires Valid() && CachedIn(modeCache, Name(term, mode))
      modifies this
      ensures Valid() && CachedIn(modeCache, Name(term, mode)) && old(agenda) <= agenda
      ensures forall n :: CachedIn(old(modeCache), n) ==> CachedIn(modeCache, n)
      ensures modeCache[term][mode].verdict == verdict
      ensures forall i :: 0 <= i < |mode| && mode[i] ==> verdict.outMode[i]
      ensures forall n :: n != Name(term, mode) ==> SameVerdict(old(modeCache), modeCache, n)
      ensures var e := old(modeCache)[term][mode];
        (verdict == e.verdict ==> e.dependents <= modeCache[term][mode].dependents) &&
        (verdict != e.verdict ==>
          modeCache[term][mode].dependents == {} && forall d :: d in e.dependents ==> d in agenda)
    {
      assert TableOk(term, modeCache[term], modeOrder[term]);
      var v := ComputeR(getRExpr(term.ref), term.args, mode, Some(Name(term, mode)));
      ghost var planned := modeCache;
      Refresh(term, mode, v);
      SameVerdictElsewhere(planned, modeCache, term, mode, Entry(v, {}));
      SameVerdictAfterExtends(old(modeCache), planned, modeCache, Name(term, mode));
      verdict := v;
    }

    /**
      _process_agenda (safety_planner.py:228-231): re-plan the most recently
      scheduled entry first, until the worklist is empty or fuel entries have
      been re-planned.
    */
    method ProcessAgenda(fuel: nat, getRExpr: TermId -> RExpr) returns (processed: seq<Name>, ghost worklists: seq<seq<Name>>)
      requires Valid()
      modifies this
      ensures Valid()
      ensures |processed| <= fuel && (|processed| < fuel ==> agenda == [])
      ensures PoppedLast(processed, worklists, agenda) && (processed != [] ==> worklists[0] == old(agenda))
      ensures old(agenda) != [] && fuel > 0 ==> processed != [] && processed[0] == old(agenda)[|old(agenda)| - 1]
      ensures forall n :: CachedIn(old(modeCache), n) ==> CachedIn(modeCache, n)
      ensures forall n :: n !in processed ==> SameVerdict(old(modeCache), modeCache, n)
      ensures forall n :: n in processed ==> Replanned(modeCache, n)
    {
      processed, worklists := [], [];
      while agenda != [] && |processed| < fuel
        invariant Valid() && |processed| <= fuel
        invariant processed == [] ==> agenda == old(agenda)
        invariant PoppedLast(processed, worklists, agenda) && (processed != [] ==> worklists[0] == old(agenda))
        invariant forall n :: CachedIn(old(modeCache), n) ==> CachedIn(modeCache, n)
        invariant forall n :: n !in processed ==> SameVerdict(old(modeCache), modeCache, n)
        invariant forall n :: n in processed ==> Replanned(modeCache, n)
        decreases fuel - |processed|
      {
        ghost var before := modeCache;
        var p, w := PopAndCompute(getRExpr);
        ReplannedKept(old(modeCache), before, modeCache, processed, p);
        PoppedLastStep(processed, worklists, w, agenda);
        processed, worklists := processed + [p], worklists + [w];
      }
      if processed != [] {
        assert PoppedAt(processed, worklists, agenda, 0);
      }
    }

    /**
      One turn of _process_agenda (safety_planner.py:229-231): pop the most
      recently scheduled name and re-plan it.  Only its verdict may change,
      and whatever the re-plan schedules goes on top of what the pop left.
    */
    method PopAndCompute(getRExpr: TermId -> RExpr) returns (p: Name, ghost w: seq<Name>)
      requires Valid() && agenda != []
      modifies this
      ensures Valid() && w == old(agenda) && p == w[|w| - 1] && w[..|w| - 1] <= agenda
      ensures forall n :: CachedIn(old(modeCache), n) ==> CachedIn(modeCache, n)
      ensures forall n :: n != p ==> SameVerdict(old(modeCache), modeCache, n)
      ensures Replanned(modeCache, p)
    {
      PopOk(State());
      w := agenda;
      p := agenda[|agenda| - 1];
      agenda := agenda[..|agenda| - 1];
      ghost var verdict := Compute(p.term, p.mode, getRExpr);
    }

    /**
      __call__ (safety_planner.py:237-244): plan r, and while that scheduled
      work, drain the worklist and plan again; fuel bounds the rounds and each
      drain.  A completed call leaves the worklist empty.
    */
    method Call(r: RExpr, exposed: seq<Var>, inMode: Mode, fuel: nat, getRExpr: TermId -> RExpr)
      returns (v: Verdict, completed: bool)
      requires Valid()
      modifies this
      ensures Valid()
      ensures completed ==> agenda == []
      ensures |v.outMode| == |exposed| && forall i :: 0 <= i < |exposed| && i < |inMode| && inMode[i] ==> v.outMode[i]
    {
      var rounds := fuel;
      while true
        invariant Valid()
        decreases rounds
      {
        v := ComputeR(r, exposed, inMode, None);
        if agenda == [] {
          completed := true;
          return;
        }
        if rounds == 0 {
          completed := false;
          return;
        }
        rounds := rounds - 1;
        var _, _ := ProcessAgenda(fuel, getRExpr);
      }
    }

    /**
      invalidate_term (safety_planner.py:246-257): schedule every cached mode
      of term in insertion order, without draining the worklist.
    */
    method InvalidateTerm(term: PlanKey)
      requires Valid()
      modifies this
      ensures Valid() && modeCache == old(modeCache) && modeOrder == old(modeOrder)
      ensures agenda == Rescheduled(old(State()), term)
    {
      if term in modeCache {
        var q := ScheduleModes(agenda, term, modeOrder[term]);
        RescheduledCoversModes(State(), term);
        AgendaOk(State(), q);
        agenda := q;
      }
    }

    /**
      Invalidation by term reference: every cached key of the term, whatever
      its exposed variables, has all its modes scheduled.
    */
    method InvalidateTermRef(ref: TermId)
      requires Valid()
      modifies this
      ensures Valid() && modeCache == old(modeCache) && modeOrder == old(modeOrder)
      ensures old(agenda) <= agenda
      ensures forall t, m {:trigger m in modeCache[t]} ::
        t in modeCache && t.PlanKey? && t.ref == ref && m in modeCache[t] ==> Name(t, m) in agenda
      ensures forall n :: n in agenda ==> n in old(agenda) || (n.term.PlanKey? && n.term.ref == ref)
    {
      ghost var s0 := State();
      var keys := KeysOf(modeCache, ref);
      var q := agenda;
      while keys != {}
        invariant State() == s0 && RefProgress(s0, ref, keys, q)
        decreases |keys|
      {
        var t :| t in keys;
        RefStep(s0, ref, keys, q, t);
        q := ScheduleModes(q, t, modeOrder[t]);
        keys := keys - {t};
      }
      AgendaOk(s0, q);
      agenda := q;
    }
  }
}

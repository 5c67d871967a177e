/**
  The work agenda (dyna/agenda.py): a first-in first-out queue of tasks that
  never holds two equal tasks, with listeners that are notified every time
  the queue has been drained.
*/
module Agenda {
  import opened Wrappers
  import opened RExprs

  /** What a closure pushed by the term registry does when it runs. */
  datatype Action =
    | OptimizeTerm(term: TermId)
    | RefreshMemo(table: nat, key: PartKey)

  /**
    A task.  A Python lambda is equal only to itself: every closure created gets
    a fresh id, so two closures never compare equal.  An AgendaWork is equal to
    every AgendaWork with an equal function and equal work (agenda.py:45-48).
  */
  datatype Task = Closure(id: nat, action: Action) | AgendaWork(func: string, work: Value)

  /** A callable registered to be told that the agenda has drained. */
  datatype Listener = Listener(id: nat)

  /** What a run does, step by step: run the task at the front, or notify every listener of a drain. */
  datatype Event<T> = Ran(task: T) | Drained

  /** The queue after push(t): t is appended only when it is not already pending. */
  function Pushed<T(==,!new)>(q: seq<T>, t: T): (r: seq<T>)
    ensures q <= r && t in r
    ensures forall x :: x in r <==> x in q || x == t
    ensures Distinct(q) ==> Distinct(r)
    ensures t in q ==> r == q
    ensures t !in q ==> |r| == |q| + 1
  {
    if t in q then q else q + [t]
  }

  /** The queue after pushing each of ts in order. */
  function PushAll<T(==,!new)>(q: seq<T>, ts: seq<T>): (r: seq<T>)
    ensures q <= r
  {
    if ts == [] then q else Pushed(PushAll(q, ts[..|ts| - 1]), ts[|ts| - 1])
  }

  /** Pushing never queues a task twice. */
  lemma {:induction false} PushAllDistinct<T(!new)>(q: seq<T>, ts: seq<T>)
    ensures Distinct(q) ==> Distinct(PushAll(q, ts))
    decreases |ts|
  {
    if ts != [] {
      PushAllDistinct(q, ts[..|ts| - 1]);
    }
  }

  /** PushAll queues exactly the pending tasks and the pushed ones. */
  lemma {:induction false} PushAllContents<T(!new)>(q: seq<T>, ts: seq<T>)
    ensures forall x :: x in PushAll(q, ts) <==> x in q || x in ts
    decreases |ts|
  {
    if ts != [] {
      var init := ts[..|ts| - 1];
      PushAllContents(q, init);
      assert ts == init + [ts[|ts| - 1]];
    }
  }

  /**
    Tasks and listeners are closures that may keep state of their own, so what
    one pushes may differ from one call to the next: effect(n, t) is what task t
    pushes when it runs as event n of a run, and notify(n, l) what listener l
    pushes at the drain that is event n.
  */
  type Effect<!T> = (nat, T) -> seq<T>
  type Notify<T> = (nat, Listener) -> seq<T>

  /** The queue after each listener, in order, has pushed what it pushes at event n. */
  function Notified<T(==,!new)>(q: seq<T>, n: nat, ls: seq<Listener>, notify: Notify<T>): (r: seq<T>)
    ensures q <= r
    ensures Distinct(q) ==> Distinct(r)
  {
    if ls == [] then q
    else
      var p := Notified(q, n, ls[..|ls| - 1], notify);
      PushAllDistinct(p, notify(n, ls[|ls| - 1]));
      PushAll(p, notify(n, ls[|ls| - 1]))
  }

  /** The queue after its front task, run as event n, has pushed what it pushes. */
  function RunFirst<T(==,!new)>(q: seq<T>, n: nat, effect: Effect<T>): (r: seq<T>)
    requires q != []
    ensures q[1..] <= r
  {
    PushAll(q[1..], effect(n, q[0]))
  }

  /**
    Event n of a run from queue q: a task may run only from the front of the
    queue, and the listeners are notified only when the queue is empty.
  */
  function Step<T(==,!new)>(q: seq<T>, n: nat, e: Event, listeners: seq<Listener>,
                effect: Effect<T>, notify: Notify<T>): (r: Option<seq<T>>)
    ensures r.Some? && e.Ran? ==> q != [] && q[0] == e.task && q[1..] <= r.value
    ensures r.Some? && e.Drained? ==> q == []
  {
    match e
    case Ran(t) => if q != [] && q[0] == t then Some(RunFirst(q, n, effect)) else None
    case Drained => if q == [] then Some(Notified([], n, listeners, notify)) else None
  }

  /** The queue a run that produced log leaves behind, or None when log is not a possible run. */
  function Replay<T(==,!new)>(q: seq<T>, log: seq<Event<T>>, listeners: seq<Listener>,
                  effect: Effect<T>, notify: Notify<T>): Option<seq<T>>
  {
    if log == [] then Some(q)
    else
      var before := Replay(q, log[..|log| - 1], listeners, effect, notify);
      if before.None? then None else Step(before.value, |log| - 1, log[|log| - 1], listeners, effect, notify)
  }

  /** Whether the first i + 1 events of log leave the queue empty. */
  ghost predicate EmptiedAt<T(!new)>(q: seq<T>, log: seq<Event<T>>, i: int, listeners: seq<Listener>,
                            effect: Effect<T>, notify: Notify<T>) {
    0 <= i < |log| && Replay(q, log[..i + 1], listeners, effect, notify) == Some([])
  }

  /**
    Along log, every task that left the queue empty is followed by the
    notification of the listeners, except possibly the last event.
  */
  ghost predicate DrainsNotified<T(!new)>(q: seq<T>, log: seq<Event<T>>, listeners: seq<Listener>,
                                 effect: Effect<T>, notify: Notify<T>)
    decreases |log|
  {
    |log| <= 1 ||
    (DrainsNotified(q, log[..|log| - 1], listeners, effect, notify) &&
     (log[|log| - 2].Ran? && Replay(q, log[..|log| - 1], listeners, effect, notify) == Some([]) ==>
        log[|log| - 1] == Drained))
  }

  /** The tasks a log ran, in order. */
  function RanTasks<T>(log: seq<Event<T>>): seq<T> {
    if log == [] then []
    else RanTasks(log[..|log| - 1]) + (if log[|log| - 1].Ran? then [log[|log| - 1].task] else [])
  }

  /** The queue never holds two equal tasks along a run. */
  lemma {:induction false} ReplayDistinct<T(!new)>(q: seq<T>, log: seq<Event<T>>, listeners: seq<Listener>,
                                          effect: Effect<T>, notify: Notify<T>)
    requires Distinct(q) && Replay(q, log, listeners, effect, notify).Some?
    ensures Distinct(Replay(q, log, listeners, effect, notify).value)
  {
    if log != [] {
      ReplayDistinct(q, log[..|log| - 1], listeners, effect, notify);
      var q' := Replay(q, log[..|log| - 1], listeners, effect, notify).value;
      if q' != [] {
        assert Distinct(q'[1..]);
        PushAllDistinct(q'[1..], effect(|log| - 1, q'[0]));
      }
    }
  }

  /**
    First in, first out: the tasks pending when a run starts are run before
    anything pushed during the run, in their queue order; those not yet run are
    still at the front of the queue.
  */
  lemma {:induction false} PendingRunFirst<T(!new)>(q: seq<T>, log: seq<Event<T>>, listeners: seq<Listener>,
                                           effect: Effect<T>, notify: Notify<T>)
    requires Replay(q, log, listeners, effect, notify).Some?
    ensures q <= RanTasks(log) + Replay(q, log, listeners, effect, notify).value
  {
    if log != [] {
      var init := log[..|log| - 1];
      PendingRunFirst(q, init, listeners, effect, notify);
      var q' := Replay(q, init, listeners, effect, notify).value;
      var e := log[|log| - 1];
      if e.Ran? {
        var pushed := RunFirst(q', |log| - 1, effect);
        assert Replay(q, log, listeners, effect, notify).value == pushed;
        assert RanTasks(log) == RanTasks(init) + [q'[0]];
        PrefixGrows(q, RanTasks(init), q', pushed);
      } else {
        assert RanTasks(log) == RanTasks(init) == RanTasks(init) + q';
      }
    }
  }

  /** Listeners are notified only after a full drain: before every Drained event the queue is empty. */
  lemma {:induction false} ListenersAfterFullDrain<T(!new)>(q: seq<T>, log: seq<Event<T>>, i: nat, listeners: seq<Listener>,
                                                   effect: Effect<T>, notify: Notify<T>)
    requires Replay(q, log, listeners, effect, notify).Some?
    requires i < |log| && log[i] == Drained
    ensures Replay(q, log[..i], listeners, effect, notify) == Some([])
  {
    var init := log[..|log| - 1];
    if i == |log| - 1 {
      assert log[..i] == init;
    } else {
      assert init[i] == Drained && init[..i] == log[..i];
      ListenersAfterFullDrain(q, init, i, listeners, effect, notify);
    }
  }

  /** Moving the front of the queue to the ran tasks and pushing behind keeps q a prefix. */
  lemma PrefixGrows<T(!new)>(q: seq<T>, ran: seq<T>, pending: seq<T>, pushed: seq<T>)
    requires pending != [] && q <= ran + pending && pending[1..] <= pushed
    ensures q <= (ran + [pending[0]]) + pushed
  {
    assert ran + pending == (ran + [pending[0]]) + pending[1..];
  }

  /**
    The queue after the inner loop of run has run k tasks from queue q, the
    first of them as event n: each run takes the front task and appends what
    it pushes.  An emptied queue stays empty.
  */
  function AfterRuns<T(==,!new)>(q: seq<T>, n: nat, k: nat, effect: Effect<T>): seq<T>
    decreases k
  {
    if k == 0 then q
    else
      var p := AfterRuns(q, n, k - 1, effect);
      if p == [] then [] else RunFirst(p, n + k - 1, effect)
  }

  /** steps is what the inner loop of run records from queue q, the first step as event n: each runs the front task of a nonempty queue. */
  ghost predicate RunsFront<T(!new)>(q: seq<T>, n: nat, steps: seq<Event<T>>, effect: Effect<T>)
    decreases |steps|
  {
    steps == [] ||
    (RunsFront(q, n, steps[..|steps| - 1], effect) &&
     AfterRuns(q, n, |steps| - 1, effect) != [] &&
     steps[|steps| - 1] == Ran(AfterRuns(q, n, |steps| - 1, effect)[0]))
  }

  class Agenda<T(==,!new)> {
    /** The pending tasks, front first. */
    var queue: seq<T>
    /** The pending tasks as a set, for the membership test of push. */
    var contains: set<T>
    /** Called, in order, each time the queue has been drained. */
    var listeners: seq<Listener>

    ghost predicate Valid()
      reads this
    {
      Distinct(queue) && forall t :: t in contains <==> t in queue
    }

    constructor()
      ensures Valid() && queue == [] && contains == {} && listeners == []
    {
      queue, contains, listeners := [], {}, [];
    }

    /** push: a task already pending is not queued again. */
    method Push(t: T)
      requires Valid()
      modifies this
      ensures Valid() && listeners == old(listeners)
      ensures queue == Pushed(old(queue), t) && contains == old(contains) + {t}
    {
      if t !in contains {
        queue := queue + [t];
        contains := contains + {t};
      }
    }

    /** Pushes each of ts in order. */
    method PushEach(ts: seq<T>)
      requires Valid()
      modifies this
      ensures Valid() && listeners == old(listeners)
      ensures queue == PushAll(old(queue), ts)
    {
      var i := 0;
      while i < |ts|
        invariant 0 <= i <= |ts|
        invariant Valid() && listeners == old(listeners)
        invariant queue == PushAll(old(queue), ts[..i])
      {
        Push(ts[i]);
        assert ts[..i + 1][..i] == ts[..i];
        i := i + 1;
      }
      assert ts[..i] == ts;
    }

    /**
      pop: the front task, removed from the queue and from the set, so that an
      equal task can be pushed again; None, with nothing changed, on an empty queue.
    */
    method Pop() returns (r: Option<T>)
      requires Valid()
      modifies this
      ensures Valid() && listeners == old(listeners)
      ensures old(queue) == [] ==> r == None && queue == [] && contains == old(contains)
      ensures old(queue) != [] ==> r == Some(old(queue)[0]) && queue == old(queue)[1..] && r.value !in contains
    {
      if queue == [] {
        return None;
      }
      var t := queue[0];
      queue := queue[1..];
      contains := contains - {t};
      assert forall x :: x in contains <==> x in queue by {
        forall x
          ensures x in queue <==> x in old(queue) && x != t
        {
          if x in queue {
            var j :| 0 <= j < |queue| && queue[j] == x;
            assert old(queue)[j + 1] == x;
          }
          if x in old(queue) && x != t {
            var j :| 0 <= j < |old(queue)| && old(queue)[j] == x;
            assert j != 0 && queue[j - 1] == x;
          }
        }
      }
      return Some(t);
    }

    /** __bool__: whether some task is pending. */
    function NonEmpty(): (b: bool)
      requires Valid()
      reads this
      ensures b <==> contains != {}
    {
      assert queue != [] ==> queue[0] in contains;
      queue != []
    }

    /**
      The inner loop of run, from event n: runs the front task until the queue
      is empty or budget tasks have run.
    */
    method Drain(budget: nat, n: nat, effect: Effect<T>) returns (steps: seq<Event<T>>)
      requires Valid()
      modifies this
      ensures Valid() && listeners == old(listeners)
      ensures RunsFront(old(queue), n, steps, effect) && queue == AfterRuns(old(queue), n, |steps|, effect)
      ensures forall k :: 0 <= k < |steps| ==> steps[k].Ran?
      ensures |steps| <= budget && (queue == [] || |steps| == budget)
    {
      steps := [];
      while queue != [] && |steps| < budget
        invariant Valid() && listeners == old(listeners) && |steps| <= budget
        invariant RunsFront(old(queue), n, steps, effect) && queue == AfterRuns(old(queue), n, |steps|, effect)
        invariant forall k :: 0 <= k < |steps| ==> steps[k].Ran?
        decreases budget - |steps|
      {
        ghost var before := queue;
        var r := Pop();
        var t := r.value;
        PushEach(effect(n + |steps|, t));
        RunFrontStep(old(queue), n, steps, before, effect);
        steps := steps + [Ran(t)];
      }
    }

    /** The for loop of run: every listener, in order, pushes what it pushes at event n. */
    method NotifyListeners(n: nat, notify: Notify<T>)
      requires Valid()
      modifies this
      ensures Valid() && listeners == old(listeners)
      ensures queue == Notified(old(queue), n, listeners, notify)
    {
      var i := 0;
      while i < |listeners|
        invariant 0 <= i <= |listeners|
        invariant Valid() && listeners == old(listeners)
        invariant queue == Notified(old(queue), n, listeners[..i], notify)
      {
        PushEach(notify(n, listeners[i]));
        assert listeners[..i + 1][..i] == listeners[..i];
        i := i + 1;
      }
      assert listeners[..i] == listeners;
    }

    /**
      run: drains the queue, running the front task each time, then notifies
      every listener, and starts over while the listeners left work behind.  At
      most fuel tasks are run; completed says the queue was left empty.  Every
      task that leaves the queue empty is followed by the notification of the
      listeners.
    */
    method Run(fuel: nat, effect: Effect<T>, notify: Notify<T>) returns (completed: bool, log: seq<Event<T>>)
      requires Valid()
      modifies this
      ensures Valid() && listeners == old(listeners)
      ensures Replay(old(queue), log, listeners, effect, notify) == Some(queue)
      ensures completed ==> queue == []
      ensures |RanTasks(log)| <= fuel && (!completed ==> |RanTasks(log)| == fuel)
      ensures old(queue) == [] ==> completed && log == []
      ensures forall i :: EmptiedAt(old(queue), log, i, listeners, effect, notify) && log[i].Ran? ==>
                i + 1 < |log| && log[i + 1] == Drained
      ensures forall i :: 0 <= i < |log| && log[i].Drained? ==> 0 < i && log[i - 1].Ran?
    {
      log := [];
      var budget: nat := fuel;
      while queue != [] && budget > 0
        invariant Valid() && listeners == old(listeners)
        invariant Replay(old(queue), log, listeners, effect, notify) == Some(queue)
        invariant DrainsNotified(old(queue), log, listeners, effect, notify)
        invariant budget + |RanTasks(log)| == fuel
        invariant old(queue) == [] ==> log == []
        invariant log != [] && log[|log| - 1].Ran? ==> queue != []
        invariant forall i :: 0 <= i < |log| && log[i].Drained? ==> 0 < i && log[i - 1].Ran?
        decreases budget
      {
        ghost var pending := queue;
        var steps := Drain(budget, |log|, effect);
        RanBeforeDrained(log, steps);
        DrainReplays(old(queue), log, pending, steps, listeners, effect, notify);
        DrainKeepsDiscipline(old(queue), log, pending, steps, listeners, effect, notify);
        OnlyRan(steps);
        RanTasksConcat(log, steps);
        log := log + steps;
        budget := budget - |steps|;
        if queue == [] {
          DrainedStep(old(queue), log, listeners, effect, notify);
          NotifyListeners(|log|, notify);
          log := log + [Drained];
        }
      }
      completed := queue == [];
      NotifiedAfterEmptying(old(queue), log, listeners, effect, notify);
    }
  }

  /** Running the front task of the queue AfterRuns gives extends what the inner loop of run records by one step. */
  lemma RunFrontStep<T(!new)>(q: seq<T>, n: nat, steps: seq<Event<T>>, p: seq<T>, effect: Effect<T>)
    requires RunsFront(q, n, steps, effect) && p == AfterRuns(q, n, |steps|, effect) && p != []
    ensures RunsFront(q, n, steps + [Ran(p[0])], effect)
    ensures AfterRuns(q, n, |steps| + 1, effect) == RunFirst(p, n + |steps|, effect)
  {
    assert (steps + [Ran(p[0])])[..|steps|] == steps;
  }


  /**
    The inner loop of run continues a possible run: after log, which left q,
    the tasks it runs leave the queue AfterRuns gives.
  */
  lemma {:induction false} DrainReplays<T(!new)>(q0: seq<T>, log: seq<Event<T>>, q: seq<T>, steps: seq<Event<T>>,
                                                listeners: seq<Listener>, effect: Effect<T>, notify: Notify<T>)
    requires Replay(q0, log, listeners, effect, notify) == Some(q)
    requires RunsFront(q, |log|, steps, effect)
    ensures Replay(q0, log + steps, listeners, effect, notify) == Some(AfterRuns(q, |log|, |steps|, effect))
    decreases |steps|
  {
    if steps == [] {
      assert log + steps == log;
      assert AfterRuns(q, |log|, |steps|, effect) == q;
    } else {
      var init := steps[..|steps| - 1];
      RunsFrontLast(q, |log|, steps, init, effect);
      DrainReplays(q0, log, q, init, listeners, effect, notify);
      DrainStep(q0, log, q, init, steps, AfterRuns(q, |log|, |init|, effect), |log|, |init|, listeners, effect, notify);
    }
  }

  /** One more step of the inner loop of run, after the k earlier steps (from event n on) left p. */
  lemma DrainStep<T(!new)>(q0: seq<T>, log: seq<Event<T>>, q: seq<T>, init: seq<Event<T>>, steps: seq<Event<T>>, p: seq<T>,
                           n: nat, k: nat, listeners: seq<Listener>, effect: Effect<T>, notify: Notify<T>)
    requires n == |log| && k == |init|
    requires Replay(q0, log + init, listeners, effect, notify) == Some(p)
    requires p == AfterRuns(q, n, k, effect) && p != []
    requires steps == init + [Ran(p[0])]
    ensures Replay(q0, log + steps, listeners, effect, notify) == Some(AfterRuns(q, n, k + 1, effect))
  {
    AfterRunsNext(q, n, k, k + 1, effect);
    RanAppended(q0, log, init, steps, p, n + k, listeners, effect, notify);
  }

  /** A Ran event appended to a run that left p, with the log split as the inner loop of run builds it. */
  lemma RanAppended<T(!new)>(q0: seq<T>, log: seq<Event<T>>, init: seq<Event<T>>, steps: seq<Event<T>>, p: seq<T>, m: nat,
                             listeners: seq<Listener>, effect: Effect<T>, notify: Notify<T>)
    requires Replay(q0, log + init, listeners, effect, notify) == Some(p) && p != [] && m == |log| + |init|
    requires steps == init + [Ran(p[0])]
    ensures Replay(q0, log + steps, listeners, effect, notify) == Some(RunFirst(p, m, effect))
  {
    AppendAssoc(log, init, [Ran(p[0])]);
    RanStep(q0, log + init, log + steps, m, p, listeners, effect, notify);
  }

  /** The inner loop of run keeps the notification discipline: it runs tasks only from a nonempty queue. */
  lemma {:induction false} DrainKeepsDiscipline<T(!new)>(q0: seq<T>, log: seq<Event<T>>, q: seq<T>, steps: seq<Event<T>>,
                                                        listeners: seq<Listener>, effect: Effect<T>, notify: Notify<T>)
    requires Replay(q0, log, listeners, effect, notify) == Some(q)
    requires DrainsNotified(q0, log, listeners, effect, notify)
    requires RunsFront(q, |log|, steps, effect)
    ensures DrainsNotified(q0, log + steps, listeners, effect, notify)
    decreases |steps|
  {
    if steps == [] {
      assert log + steps == log;
    } else {
      var init := steps[..|steps| - 1];
      RunsFrontLast(q, |log|, steps, init, effect);
      DrainKeepsDiscipline(q0, log, q, init, listeners, effect, notify);
      DrainReplays(q0, log, q, init, listeners, effect, notify);
      var p := AfterRuns(q, |log|, |init|, effect);
      RanKeepsDiscipline(q0, log + init, p, listeners, effect, notify);
      AppendAssoc(log, init, [Ran(p[0])]);
    }
  }

  /** The last step the inner loop of run records ran the front task of the queue the earlier steps left. */
  lemma RunsFrontLast<T(!new)>(q: seq<T>, n: nat, steps: seq<Event<T>>, init: seq<Event<T>>, effect: Effect<T>)
    requires RunsFront(q, n, steps, effect) && steps != [] && init == steps[..|steps| - 1]
    ensures RunsFront(q, n, init, effect) && AfterRuns(q, n, |init|, effect) != []
    ensures steps == init + [Ran(AfterRuns(q, n, |init|, effect)[0])] && |steps| == |init| + 1
  {
    SplitLast(steps);
  }

  /** One more run of the inner loop of run takes the front task and appends what it pushes. */
  lemma AfterRunsNext<T(!new)>(q: seq<T>, n: nat, k: nat, k': nat, effect: Effect<T>)
    requires AfterRuns(q, n, k, effect) != [] && k' == k + 1
    ensures AfterRuns(q, n, k', effect) ==
              RunFirst(AfterRuns(q, n, k, effect), n + k, effect)
  {
  }

  lemma AppendAssoc<T>(a: seq<T>, b: seq<T>, c: seq<T>)
    ensures (a + b) + c == a + (b + c)
  {
  }

  lemma SplitLast<T>(s: seq<T>)
    requires s != []
    ensures s[..|s| - 1] + [s[|s| - 1]] == s
  {
  }

  /**
    Appending a nonempty run of tasks keeps every notification right after a
    task run, and a notification appended next follows a task run too.
  */
  lemma RanBeforeDrained<T>(log: seq<Event<T>>, steps: seq<Event<T>>)
    requires forall i :: 0 <= i < |log| && log[i].Drained? ==> 0 < i && log[i - 1].Ran?
    requires steps != [] && forall k :: 0 <= k < |steps| ==> steps[k].Ran?
    ensures forall i :: 0 <= i < |log + steps| && (log + steps)[i].Drained? ==> 0 < i && (log + steps)[i - 1].Ran?
    ensures forall i :: 0 <= i < |log + steps + [Drained]| && (log + steps + [Drained])[i].Drained? ==>
              0 < i && (log + steps + [Drained])[i - 1].Ran?
  {
  }

  /** A log of task runs only runs one task per event. */
  lemma {:induction false} OnlyRan<T>(log: seq<Event<T>>)
    requires forall k :: 0 <= k < |log| ==> log[k].Ran?
    ensures |RanTasks(log)| == |log|
    decreases |log|
  {
    if log != [] {
      OnlyRan(log[..|log| - 1]);
    }
  }

  /** One Ran event on a nonempty queue, as Replay sees it. */
  lemma RanStep<T(!new)>(q0: seq<T>, before: seq<Event<T>>, after: seq<Event<T>>, n: nat, pending: seq<T>,
                         listeners: seq<Listener>, effect: Effect<T>, notify: Notify<T>)
    requires Replay(q0, before, listeners, effect, notify) == Some(pending) && pending != [] && n == |before|
    requires after == before + [Ran(pending[0])]
    ensures Replay(q0, after, listeners, effect, notify) == Some(RunFirst(pending, n, effect))
  {
    assert after[..|before|] == before;
  }

  /** Running the front task of a nonempty queue keeps the notification discipline. */
  lemma RanKeepsDiscipline<T(!new)>(q0: seq<T>, before: seq<Event<T>>, pending: seq<T>,
                                    listeners: seq<Listener>, effect: Effect<T>, notify: Notify<T>)
    requires Replay(q0, before, listeners, effect, notify) == Some(pending) && pending != []
    requires DrainsNotified(q0, before, listeners, effect, notify)
    ensures DrainsNotified(q0, before + [Ran(pending[0])], listeners, effect, notify)
  {
    assert (before + [Ran(pending[0])])[..|before|] == before;
  }

  /** Notifying the listeners after a full drain extends a run by one event and keeps the discipline. */
  lemma DrainedStep<T(!new)>(q0: seq<T>, log: seq<Event<T>>, listeners: seq<Listener>, effect: Effect<T>, notify: Notify<T>)
    requires Replay(q0, log, listeners, effect, notify) == Some([])
    requires DrainsNotified(q0, log, listeners, effect, notify)
    ensures Replay(q0, log + [Drained], listeners, effect, notify) == Some(Notified([], |log|, listeners, notify))
    ensures DrainsNotified(q0, log + [Drained], listeners, effect, notify)
    ensures RanTasks(log + [Drained]) == RanTasks(log)
  {
    assert (log + [Drained])[..|log|] == log;
  }

  /** Extending a log does not change what its first events leave behind. */
  lemma EmptiedAtPrefix<T(!new)>(q: seq<T>, log: seq<Event<T>>, ext: seq<Event<T>>, i: int, listeners: seq<Listener>,
                        effect: Effect<T>, notify: Notify<T>)
    requires 0 <= i < |log|
    ensures EmptiedAt(q, log + ext, i, listeners, effect, notify) == EmptiedAt(q, log, i, listeners, effect, notify)
  {
    assert (log + ext)[..i + 1] == log[..i + 1];
  }

  /** Under the discipline, a task that emptied the queue and is not the last event is followed by a drain. */
  lemma {:induction false} DrainsNotifiedBefore<T(!new)>(q: seq<T>, log: seq<Event<T>>, listeners: seq<Listener>,
                                                effect: Effect<T>, notify: Notify<T>)
    requires DrainsNotified(q, log, listeners, effect, notify)
    ensures forall i :: EmptiedAt(q, log, i, listeners, effect, notify) && i < |log| - 1 && log[i].Ran? ==>
              log[i + 1] == Drained
    decreases |log|
  {
    if |log| > 1 {
      var init := log[..|log| - 1];
      DrainsNotifiedBefore(q, init, listeners, effect, notify);
      forall i | EmptiedAt(q, log, i, listeners, effect, notify) && i < |log| - 1 && log[i].Ran?
        ensures log[i + 1] == Drained
      {
        assert log == init + [log[|log| - 1]];
        EmptiedAtPrefix(q, init, [log[|log| - 1]], i, listeners, effect, notify);
        if i == |init| - 1 {
          assert init[..i + 1] == init;
        }
      }
    }
  }

  /**
    A run that ends with a drain, or with a task after which work is pending,
    has every task that emptied the queue followed by the notification of the
    listeners.
  */
  lemma NotifiedAfterEmptying<T(!new)>(q: seq<T>, log: seq<Event<T>>, listeners: seq<Listener>, effect: Effect<T>, notify: Notify<T>)
    requires DrainsNotified(q, log, listeners, effect, notify)
    requires log != [] && log[|log| - 1].Ran? ==> Replay(q, log, listeners, effect, notify) != Some([])
    ensures forall i :: EmptiedAt(q, log, i, listeners, effect, notify) && log[i].Ran? ==>
              i + 1 < |log| && log[i + 1] == Drained
  {
    DrainsNotifiedBefore(q, log, listeners, effect, notify);
    if log != [] {
      assert log[..|log|] == log;
    }
  }

  lemma {:induction false} RanTasksConcat<T>(a: seq<Event<T>>, b: seq<Event<T>>)
    ensures RanTasks(a + b) == RanTasks(a) + RanTasks(b)
    decreases |b|
  {
    if b == [] {
      assert a + b == a;
    } else {
      RanTasksConcat(a, b[..|b| - 1]);
      assert (a + b)[..|a + b| - 1] == a + b[..|b| - 1];
    }
  }

  /** Pushing a task twice is pushing it once. */
  lemma PushIdempotent(q: seq<Task>, t: Task)
    ensures Pushed(Pushed(q, t), t) == Pushed(q, t)
  {
  }

  /** Work items are deduplicated by value: an AgendaWork equal in function and work is not queued again. */
  lemma EqualWorkDeduplicated(q: seq<Task>, f: string, w: Value, f': string, w': Value)
    requires f == f' && w == w'
    ensures Pushed(Pushed(q, AgendaWork(f, w)), AgendaWork(f', w')) == Pushed(q, AgendaWork(f, w))
  {
  }

  /** A closure with an id no pending task has is always appended. */
  lemma FreshClosureAppended(q: seq<Task>, id: nat, a: Action)
    requires forall t :: t in q && t.Closure? ==> t.id != id
    ensures Pushed(q, Closure(id, a)) == q + [Closure(id, a)]
  {
  }
}

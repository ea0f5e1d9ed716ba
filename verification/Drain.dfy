/** With no new event of the informer, the queue drains however its steps are scheduled and fail. */
module Drain {
  import opened WorkQueue

  predicate Quiet<V>(l: Step<V>) {
    !l.Change? && !l.Remove?
  }

  predicate Drained<V>(s: State<V>) {
    s.announced.None? && s.q.queue == [] && s.q.delayed == {} && s.workers == map[]
  }

  /** All the items that the controller has to do with are among these. */
  ghost predicate Within<V(!new)>(s: State<V>, u: set<Item>) {
    && s.q.dirty <= u && s.q.delayed <= u && s.q.processing <= u
    && (s.announced.Some? ==> s.announced.value in u)
  }

  /** The workers that may still fail or succeed. */
  ghost function Busy<V(!new)>(s: State<V>): set<nat> {
    set w | w in s.workers && !s.workers[w].Leaving?
  }

  /** The workers that have not read their object. */
  ghost function Unread<V(!new)>(s: State<V>): set<nat> {
    set w | w in s.workers && s.workers[w].Got?
  }

  /** The retries that these items have left. */
  ghost function RetriesLeft(q: Queue, u: set<Item>): set<(Item, nat)> {
    set i, c: nat | i in u && q.NumRequeues(i) <= c < NUM_RETRIES :: (i, c)
  }

  ghost function Announced<V(!new)>(s: State<V>): nat {
    if s.announced.Some? then 1 else 0
  }

  /** The occurrences of items that still have to be carried out. */
  ghost function Copies<V(!new)>(s: State<V>): nat {
    Announced(s) + |s.q.delayed| + |s.q.dirty| + |Busy(s)|
  }

  ghost function Position<V(!new)>(s: State<V>): nat {
    5 * Announced(s) + 5 * |s.q.delayed| + 4 * |s.q.dirty| + |s.workers| + |Busy(s)| + |Unread(s)|
  }

  /** What is left to do: each copy outweighs five retries, each retry the way back to the queue. */
  ghost function LeftToDo<V(!new)>(s: State<V>, u: set<Item>): nat {
    20 * Copies(s) + 4 * |RetriesLeft(s.q, u)| + Position(s)
  }

  // ---- One step ----

  lemma AddOne<T>(a: set<T>, x: T)
    ensures |a + {x}| == |a| + if x in a then 0 else 1
  {
    if x in a {
      assert a + {x} == a;
    } else {
      assert a !! {x};
    }
  }

  lemma RemoveOne<T>(a: set<T>, x: T)
    ensures |a - {x}| == |a| - if x in a then 1 else 0
  {
    if x in a {
      assert a == (a - {x}) + {x};
    } else {
      assert a - {x} == a;
    }
  }

  lemma RemoveWorker<V>(m: map<nat, Stage<V>>, w: nat)
    requires w in m
    ensures |m - {w}| == |m| - 1
  {
    assert (m - {w}).Keys == m.Keys - {w};
    RemoveOne(m.Keys, w);
  }

  lemma AddWorker<V>(m: map<nat, Stage<V>>, w: nat, st: Stage<V>)
    ensures |m[w := st]| == |m| + if w in m then 0 else 1
  {
    assert m[w := st].Keys == m.Keys + {w};
    AddOne(m.Keys, w);
  }

  /** One more failure takes a retry. */
  lemma FailureTakesRetry(q: Queue, u: set<Item>, item: Item)
    requires item in u && q.NumRequeues(item) < NUM_RETRIES
    ensures |RetriesLeft(q.AddRateLimited(item), u)| == |RetriesLeft(q, u)| - 1
  {
    var taken := (item, q.NumRequeues(item));
    assert RetriesLeft(q.AddRateLimited(item), u) == RetriesLeft(q, u) - {taken} by {
      forall i ensures q.AddRateLimited(item).NumRequeues(i) == q.NumRequeues(i) + if i == item then 1 else 0 {
      }
    }
    RemoveOne(RetriesLeft(q, u), taken);
  }

  /** Forgetting the failures of an item gives back five retries at most. */
  lemma ForgettingGivesRetries(q: Queue, u: set<Item>, item: Item)
    ensures |RetriesLeft(q.Forget(item), u)| <= |RetriesLeft(q, u)| + NUM_RETRIES
  {
    var five := set c: nat | c < NUM_RETRIES :: (item, c);
    assert five == {(item, 0), (item, 1), (item, 2), (item, 3), (item, 4)};
    assert RetriesLeft(q.Forget(item), u) <= RetriesLeft(q, u) + five;
    Sizes(RetriesLeft(q.Forget(item), u), RetriesLeft(q, u), five);
  }

  lemma Sizes<T>(a: set<T>, b: set<T>, c: set<T>)
    requires a <= b + c
    ensures |a| <= |b| + |c|
  {
    Subset(a, b + c);
  }

  lemma {:induction false} Subset<T>(a: set<T>, b: set<T>)
    requires a <= b
    ensures |a| <= |b|
  {
    if a != {} {
      var x :| x in a;
      Subset(a - {x}, b - {x});
    }
  }

  lemma StepStaysWithin<V(!new)>(s: State<V>, l: Step<V>, u: set<Item>)
    requires WF(s) && Enabled(s, l) && Quiet(l) && Within(s, u)
    ensures Within(Next(s, l), u)
  {
    assert l.Get? ==> s.q.queue[0] in s.q.queue;
  }

  lemma SameRetries(q: Queue, q': Queue, u: set<Item>)
    requires q'.requeues == q.requeues
    ensures RetriesLeft(q', u) == RetriesLeft(q, u)
  {
  }

  lemma SameWorkers<V(!new)>(s: State<V>, s': State<V>)
    requires s'.workers == s.workers
    ensures Busy(s') == Busy(s) && Unread(s') == Unread(s)
  {
  }

  lemma NewWorker<V(!new)>(s: State<V>, s': State<V>, w: nat, item: Item)
    requires w !in s.workers && s'.workers == s.workers[w := Got(item)]
    ensures |Busy(s')| == |Busy(s)| + 1 && |Unread(s')| == |Unread(s)| + 1 && |s'.workers| == |s.workers| + 1
  {
    AddWorker(s.workers, w, Got(item));
    assert Busy(s') == Busy(s) + {w} && Unread(s') == Unread(s) + {w};
  }

  lemma LeavingWorker<V(!new)>(s: State<V>, s': State<V>, w: nat)
    requires w in s.workers && !s.workers[w].Leaving? && s'.workers == s.workers[w := Leaving(s.workers[w].item)]
    ensures |Busy(s')| == |Busy(s)| - 1 && |s'.workers| == |s.workers|
    ensures |Unread(s')| == |Unread(s)| - if s.workers[w].Got? then 1 else 0
  {
    AddWorker(s.workers, w, s'.workers[w]);
    assert Busy(s') == Busy(s) - {w} && Unread(s') == Unread(s) - {w};
    RemoveOne(Busy(s), w);
    RemoveOne(Unread(s), w);
  }

  lemma AnnounceShrinks<V(!new)>(s: State<V>, u: set<Item>)
    requires Enabled(s, Announce)
    ensures LeftToDo(Next(s, Announce), u) < LeftToDo(s, u)
  {
    var s' := Next(s, Announce);
    AddOne(s.q.dirty, s.announced.value);
    SameRetries(s.q, s'.q, u);
    SameWorkers(s, s');
  }

  lemma ReadyShrinks<V(!new)>(s: State<V>, item: Item, u: set<Item>)
    requires Enabled(s, Ready(item))
    ensures LeftToDo(Next(s, Ready(item)), u) < LeftToDo(s, u)
  {
    var s' := Next(s, Ready(item));
    RemoveOne(s.q.delayed, item);
    AddOne(s.q.dirty, item);
    SameRetries(s.q, s'.q, u);
    SameWorkers(s, s');
  }

  lemma GetShrinks<V(!new)>(s: State<V>, w: nat, u: set<Item>)
    requires WF(s) && Enabled(s, Get(w))
    ensures LeftToDo(Next(s, Get(w)), u) < LeftToDo(s, u)
  {
    var s', first := Next(s, Get(w)), s.q.queue[0];
    assert first in s.q.queue;
    RemoveOne(s.q.dirty, first);
    NewWorker(s, s', w, first);
    SameRetries(s.q, s'.q, u);
  }

  lemma ReadShrinks<V(!new)>(s: State<V>, w: nat, u: set<Item>)
    requires Enabled(s, Read(w))
    ensures LeftToDo(Next(s, Read(w)), u) < LeftToDo(s, u)
  {
    var s' := Next(s, Read(w));
    AddWorker(s.workers, w, s'.workers[w]);
    assert Busy(s') == Busy(s) && Unread(s') == Unread(s) - {w};
    RemoveOne(Unread(s), w);
  }

  /** A worker that is to try its item again leaves it delayed. */
  lemma RetryShrinks<V(!new)>(s: State<V>, w: nat, u: set<Item>)
    requires Enabled(s, ReadFails(w)) && s.workers[w].item in u && s.q.NumRequeues(s.workers[w].item) < NUM_RETRIES
    ensures LeftToDo(Next(s, ReadFails(w)), u) < LeftToDo(s, u)
  {
    var s', item := Next(s, ReadFails(w)), s.workers[w].item;
    LeavingWorker(s, s', w);
    AddOne(s.q.delayed, item);
    FailureTakesRetry(s.q, u, item);
  }

  /** A worker that is through with its item, one way or the other, makes the queue forget it. */
  lemma ForgetShrinks<V(!new)>(s: State<V>, l: Step<V>, u: set<Item>)
    requires l.Handle? || l.ReadFails?
    requires Enabled(s, l) && (l.ReadFails? ==> s.q.NumRequeues(s.workers[l.w].item) >= NUM_RETRIES)
    ensures LeftToDo(Next(s, l), u) < LeftToDo(s, u)
  {
    var s', item := Next(s, l), s.workers[l.w].item;
    LeavingWorker(s, s', l.w);
    ForgettingGivesRetries(s.q, u, item);
  }

  lemma FinishShrinks<V(!new)>(s: State<V>, w: nat, u: set<Item>)
    requires Enabled(s, Finish(w))
    ensures LeftToDo(Next(s, Finish(w)), u) < LeftToDo(s, u)
  {
    var s' := Next(s, Finish(w));
    RemoveWorker(s.workers, w);
    assert Busy(s') == Busy(s) && Unread(s') == Unread(s);
    SameRetries(s.q, s'.q, u);
  }

  /** Every step but a change of the store leaves less to do. */
  lemma StepShrinks<V(!new)>(s: State<V>, l: Step<V>, u: set<Item>)
    requires WF(s) && Enabled(s, l) && Quiet(l) && Within(s, u)
    ensures LeftToDo(Next(s, l), u) < LeftToDo(s, u)
  {
    match l
    case Get(w) => GetShrinks(s, w, u);
    case Read(w) => ReadShrinks(s, w, u);
    case Finish(w) => FinishShrinks(s, w, u);
    case Announce => AnnounceShrinks(s, u);
    case Ready(item) => ReadyShrinks(s, item, u);
    case Handle(w) => ForgetShrinks(s, l, u);
    case ReadFails(w) =>
      if s.q.NumRequeues(s.workers[w].item) < NUM_RETRIES {
        RetryShrinks(s, w, u);
      } else {
        ForgetShrinks(s, l, u);
      }
  }

  // ---- Whole runs ----

  /** Without changes of the store a run cannot be longer than what was left to do at its start. */
  lemma {:induction false} QuietRunsAreShort<V(!new)>(s: State<V>, ls: seq<Step<V>>, s': State<V>, u: set<Item>)
    requires WF(s) && Within(s, u) && Reaches(s, ls, s') && forall l :: l in ls ==> Quiet(l)
    ensures WF(s') && Within(s', u) && |ls| + LeftToDo(s', u) <= LeftToDo(s, u)
    decreases |ls|
  {
    if ls != [] {
      var init, l := ls[..|ls| - 1], ls[|ls| - 1];
      var before := StateAfter(s, init).value;
      QuietRunsAreShort(s, init, before, u);
      StepKeepsWF(before, l);
      StepStaysWithin(before, l, u);
      StepShrinks(before, l, u);
    }
  }

  /** As long as the queue is not drained, some step other than a change of the store is possible. */
  lemma SomethingToDo<V(!new)>(s: State<V>)
    requires WF(s) && s.numWorkers > 0
    ensures !Drained(s) <==> exists l :: Quiet(l) && Enabled(s, l)
  {
    if s.announced.Some? {
      assert Enabled(s, Announce);
    } else if s.workers != map[] {
      var w :| w in s.workers;
      var l := match s.workers[w] case Got(_) => Read(w) case Holding(_, _) => Handle(w) case Leaving(_) => Finish(w);
      assert Quiet(l) && Enabled(s, l);
    } else if s.q.delayed != {} {
      var item :| item in s.q.delayed;
      assert Enabled(s, Ready(item));
    } else if s.q.queue != [] {
      assert Enabled(s, Get(0));
    } else {
      assert forall l :: Quiet(l) ==> !Enabled(s, l);
    }
  }

  /** Nothing is left over in a drained queue. */
  lemma DrainedIsEmpty<V(!new)>(s: State<V>)
    requires WF(s) && Drained(s)
    ensures s.q.dirty == {} && s.q.processing == {}
  {
    if i :| i in s.q.processing {
      assert false;
    }
  }
}

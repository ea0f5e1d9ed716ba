/**
 The rate-limited work queue of client-go, as documented there, and the controller that keeps a
 store of Kubernetes objects and handles its events (internal/factory/k8swatcher.go).
 */
module WorkQueue {
  import opened Wrappers

  const NUM_RETRIES: nat := 5
  const NUM_CONFIG_MAP_WORKERS: nat := 1

  datatype Item = Item(key: string, eventType: string)

  // ---- The queue ----

  /** `dirty` are the items to be processed, `delayed` those put back for later. An item that becomes
      dirty while it is processed is queued again only when that is done. */
  datatype Queue = Queue(queue: seq<Item>, dirty: set<Item>, processing: set<Item>, delayed: set<Item>,
                         requeues: map<Item, nat>)
  {
    function Add(item: Item): Queue {
      if item in dirty then this
      else if item in processing then this.(dirty := dirty + {item})
      else this.(dirty := dirty + {item}, queue := queue + [item])
    }

    function Get(): Queue
      requires queue != []
    {
      this.(queue := queue[1..], dirty := dirty - {queue[0]}, processing := processing + {queue[0]})
    }

    function Done(item: Item): Queue {
      this.(processing := processing - {item}, queue := if item in dirty then queue + [item] else queue)
    }

    function NumRequeues(item: Item): nat {
      if item in requeues then requeues[item] else 0
    }

    function Forget(item: Item): Queue {
      this.(requeues := requeues - {item})
    }

    function AddRateLimited(item: Item): Queue {
      this.(requeues := requeues[item := NumRequeues(item) + 1], delayed := delayed + {item})
    }

    /** The delay of an item is over. */
    function Ready(item: Item): Queue {
      this.(delayed := delayed - {item}).Add(item)
    }

    ghost predicate Valid() {
      && (forall i, j :: 0 <= i < j < |queue| ==> queue[i] != queue[j])
      && (forall i :: i in queue <==> i in dirty && i !in processing)
      && (forall i :: i in requeues ==> 1 <= requeues[i] <= NUM_RETRIES)
    }
  }

  // ---- The controller ----

  /** How far a worker has come with its item: it has not read the object yet, it has, or it has only
      to hand the item back. */
  datatype Stage<V> = Got(item: Item) | Holding(item: Item, obj: Option<V>) | Leaving(item: Item)

  datatype Outcome<V> = Handled(item: Item, obj: Option<V>) | Requeued(item: Item) | Dropped(item: Item)

  /** `announced` is the event that the informer has stored but not queued yet. */
  datatype State<V> = State(
    namespace: string,
    numWorkers: nat,
    store: map<string, V>,
    announced: Option<Item>,
    q: Queue,
    workers: map<nat, Stage<V>>,
    log: seq<Outcome<V>>)

  datatype Step<V> =
    | Change(name: string, v: V)
    | Remove(name: string)
    | Announce
    | Ready(item: Item)
    | Get(w: nat)
    | Read(w: nat)
    | ReadFails(w: nat)
    | Handle(w: nat)
    | Finish(w: nat)

  function Key(namespace: string, name: string): string {
    namespace + "/" + name
  }

  predicate InNamespace(namespace: string, key: string) {
    Key(namespace, "") <= key
  }

  /** The key without its namespace prefix. */
  function LocalName(namespace: string, key: string): (name: string)
    requires InNamespace(namespace, key)
    ensures key == Key(namespace, name)
  {
    key[|namespace| + 1..]
  }

  lemma SameLocalName(namespace: string, key: string, name: string)
    requires InNamespace(namespace, key)
    ensures LocalName(namespace, key) == name <==> key == Key(namespace, name)
  {
    assert Key(namespace, name)[|namespace| + 1..] == name;
  }

  function Current<V>(s: State<V>, key: string): Option<V> {
    if key in s.store then Some(s.store[key]) else None
  }

  ghost predicate WF<V(!new)>(s: State<V>) {
    && s.q.Valid()
    && WorkersOk(s)
    && InsideNamespace(s)
  }

  /** Each worker has an item of its own, and those are the items being processed. */
  ghost predicate WorkersOk<V(!new)>(s: State<V>) {
    && (forall w :: w in s.workers ==> w < s.numWorkers && s.workers[w].item in s.q.processing)
    && (forall i :: i in s.q.processing ==> exists w :: w in s.workers && s.workers[w].item == i)
    && (forall w, x :: w in s.workers && x in s.workers && w != x ==> s.workers[w].item != s.workers[x].item)
  }

  ghost predicate InsideNamespace<V(!new)>(s: State<V>) {
    && (s.announced.Some? ==> InNamespace(s.namespace, s.announced.value.key))
    && (forall i :: i in s.q.dirty || i in s.q.processing || i in s.q.delayed ==> InNamespace(s.namespace, i.key))
    && (forall o :: o in s.log ==> InNamespace(s.namespace, o.item.key))
  }

  predicate Enabled<V>(s: State<V>, l: Step<V>) {
    match l
    case Change(name, v) => s.announced.None?
    case Remove(name) => s.announced.None? && Key(s.namespace, name) in s.store
    case Announce => s.announced.Some?
    case Ready(item) => item in s.q.delayed
    case Get(w) => w < s.numWorkers && w !in s.workers && s.q.queue != []
    case Read(w) => w in s.workers && s.workers[w].Got?
    case ReadFails(w) => w in s.workers && s.workers[w].Got?
    case Handle(w) => w in s.workers && s.workers[w].Holding?
    case Finish(w) => w in s.workers && s.workers[w].Leaving?
  }

  function Next<V>(s: State<V>, l: Step<V>): State<V>
    requires Enabled(s, l)
  {
    match l
    case Change(name, v) =>
      var key := Key(s.namespace, name);
      s.(store := s.store[key := v], announced := Some(Item(key, if key in s.store then "update" else "create")))
    case Remove(name) =>
      var key := Key(s.namespace, name);
      s.(store := s.store - {key}, announced := Some(Item(key, "delete")))
    case Announce => s.(announced := None, q := s.q.Add(s.announced.value))
    case Ready(item) => s.(q := s.q.Ready(item))
    case Get(w) => s.(q := s.q.Get(), workers := s.workers[w := Got(s.q.queue[0])])
    case Read(w) =>
      var item := s.workers[w].item;
      s.(workers := s.workers[w := Holding(item, Current(s, item.key))])
    case ReadFails(w) =>
      var item := s.workers[w].item;
      var retry := s.q.NumRequeues(item) < NUM_RETRIES;
      s.(q := if retry then s.q.AddRateLimited(item) else s.q.Forget(item),
         log := s.log + [if retry then Requeued(item) else Dropped(item)],
         workers := s.workers[w := Leaving(item)])
    case Handle(w) =>
      var item := s.workers[w].item;
      s.(q := s.q.Forget(item),
         log := s.log + [Handled(item, s.workers[w].obj)],
         workers := s.workers[w := Leaving(item)])
    case Finish(w) => s.(q := s.q.Done(s.workers[w].item), workers := s.workers - {w})
  }

  function Init<V>(namespace: string, numWorkers: nat): State<V> {
    State(namespace, numWorkers, map[], None, Queue([], {}, {}, {}, map[]), map[], [])
  }

  /** The state after some steps, if they are possible. */
  function StateAfter<V>(s: State<V>, ls: seq<Step<V>>): Option<State<V>> {
    if ls == [] then Some(s)
    else
      var before, l := StateAfter(s, ls[..|ls| - 1]), ls[|ls| - 1];
      if before.Some? && Enabled(before.value, l) then Some(Next(before.value, l)) else None
  }

  ghost predicate Reaches<V(!new)>(s: State<V>, ls: seq<Step<V>>, s': State<V>) {
    StateAfter(s, ls) == Some(s')
  }

  ghost predicate Reachable<V(!new)>(s: State<V>) {
    exists ls :: Reaches(Init(s.namespace, s.numWorkers), ls, s)
  }

  lemma InitReachable<V(!new)>(namespace: string, numWorkers: nat)
    ensures Reachable(Init<V>(namespace, numWorkers))
  {
    var none: seq<Step<V>> := [];
    assert Reaches(Init<V>(namespace, numWorkers), none, Init<V>(namespace, numWorkers));
  }

  lemma NextReachable<V(!new)>(s: State<V>, l: Step<V>)
    requires Reachable(s) && Enabled(s, l)
    ensures Reachable(Next(s, l))
  {
    var start: State<V> := Init(s.namespace, s.numWorkers);
    var ls :| Reaches(start, ls, s);
    assert (ls + [l])[..|ls|] == ls;
    assert Reaches(start, ls + [l], Next(s, l));
  }

  // ---- Well-formedness ----

  lemma StepKeepsQueue<V(!new)>(s: State<V>, l: Step<V>)
    requires WF(s) && Enabled(s, l)
    ensures Next(s, l).q.Valid()
  {
  }

  lemma GetKeepsWorkers<V(!new)>(s: State<V>, w: nat)
    requires WF(s) && Enabled(s, Get(w))
    ensures WorkersOk(Next(s, Get(w)))
  {
    var s', first := Next(s, Get(w)), s.q.queue[0];
    assert first in s.q.queue && first !in s.q.processing && s'.workers[w].item == first;
    forall i | i in s.q.processing ensures exists x :: x in s'.workers && s'.workers[x].item == i {
      var x :| x in s.workers && s.workers[x].item == i;
      assert s'.workers[x].item == i;
    }
  }

  lemma SameItemsKeepWorkers<V(!new)>(s: State<V>, s': State<V>, w: nat)
    requires WF(s) && w in s.workers && s'.numWorkers == s.numWorkers
    requires (s'.workers == s.workers - {w} && s'.q.processing == s.q.processing - {s.workers[w].item}) ||
             (w in s'.workers && s'.workers == s.workers[w := s'.workers[w]] &&
              s'.workers[w].item == s.workers[w].item &&
              s'.q.processing == s.q.processing)
    ensures WorkersOk(s')
  {
    forall i | i in s'.q.processing ensures exists x :: x in s'.workers && s'.workers[x].item == i {
      var x :| x in s.workers && s.workers[x].item == i;
      assert s'.workers[x].item == i;
    }
  }

  lemma StepKeepsWorkers<V(!new)>(s: State<V>, l: Step<V>)
    requires WF(s) && Enabled(s, l)
    ensures WorkersOk(Next(s, l))
  {
    if l.Get? {
      GetKeepsWorkers(s, l.w);
    } else if l.Read? || l.ReadFails? || l.Handle? || l.Finish? {
      SameItemsKeepWorkers(s, Next(s, l), l.w);
    }
  }

  lemma StepKeepsNamespace<V(!new)>(s: State<V>, l: Step<V>)
    requires WF(s) && Enabled(s, l)
    ensures InsideNamespace(Next(s, l))
  {
  }

  lemma StepKeepsWF<V(!new)>(s: State<V>, l: Step<V>)
    requires WF(s) && Enabled(s, l)
    ensures WF(Next(s, l))
  {
    StepKeepsQueue(s, l);
    StepKeepsWorkers(s, l);
    StepKeepsNamespace(s, l);
  }

  lemma ReachableIsWF<V(!new)>(s: State<V>)
    requires Reachable(s)
    ensures WF(s)
  {
    var ls :| Reaches(Init(s.namespace, s.numWorkers), ls, s);
    RunKeepsWF(Init(s.namespace, s.numWorkers), ls, s);
  }

  lemma {:induction false} RunKeepsWF<V(!new)>(s: State<V>, ls: seq<Step<V>>, s': State<V>)
    requires WF(s) && Reaches(s, ls, s')
    ensures WF(s')
    decreases |ls|
  {
    if ls != [] {
      var init, l := ls[..|ls| - 1], ls[|ls| - 1];
      var before := StateAfter(s, init).value;
      RunKeepsWF(s, init, before);
      StepKeepsWF(before, l);
    }
  }

  // ---- The order of the queue ----

  function Gets<V>(ls: seq<Step<V>>): nat {
    if ls == [] then 0 else Gets(ls[..|ls| - 1]) + if ls[|ls| - 1].Get? then 1 else 0
  }

  lemma StepKeepsOrder<V(!new)>(s: State<V>, l: Step<V>)
    requires Enabled(s, l)
    ensures var s' := Next(s, l);
            if l.Get? then s'.q.queue == s.q.queue[1..] && s'.workers[l.w] == Got(s.q.queue[0])
            else s.q.queue <= s'.q.queue
  {
  }

  /** No item overtakes another: over any run, an item that `p` others were before has moved up by the
      items taken since, until it is taken itself. */
  lemma {:induction false} NoOvertaking<V(!new)>(s: State<V>, ls: seq<Step<V>>, s': State<V>, p: nat)
    requires Reaches(s, ls, s') && Gets(ls) <= p < |s.q.queue|
    ensures p - Gets(ls) < |s'.q.queue| && s'.q.queue[p - Gets(ls)] == s.q.queue[p]
    decreases |ls|
  {
    if ls != [] {
      var init, l := ls[..|ls| - 1], ls[|ls| - 1];
      var before := StateAfter(s, init).value;
      NoOvertaking(s, init, before, p);
      StepKeepsOrder(before, l);
    }
  }
}

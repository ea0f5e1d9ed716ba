/** The controller as the source has it: fields that its callbacks and its workers overwrite
    (internal/factory/k8swatcher.go). */
module Controllers {
  import opened Wrappers
  import opened WorkQueue
  import opened Drain
  import opened Convergence

  class Controller<V(==,!new)> {
    const namespace: string
    const numWorkers: nat

    var indexer: map<string, V>
    // The variable that the callbacks of the informer share.
    var event: Option<Item>
    var queue: Queue
    // How far each worker has come.
    var workers: map<nat, Stage<V>>

    ghost var log: seq<Outcome<V>>

    ghost function Value(): State<V>
      reads this
    {
      State(namespace, numWorkers, indexer, event, queue, workers, log)
    }

    constructor (namespace: string, numWorkers: nat)
      ensures Value() == Init(namespace, numWorkers)
    {
      this.namespace, this.numWorkers := namespace, numWorkers;
      indexer, event, queue, workers, log := map[], None, Queue([], {}, {}, {}, map[]), map[], [];
    }

    // ---- The informer ----

    // k8swatcher.go:92-105: the informer stores the object and tells whether it knew it.
    method AddOrUpdate(name: string, v: V)
      requires event.None?
      modifies this`indexer, this`event
      ensures Value() == Next(old(Value()), Change(name, v))
      ensures event == Some(Item(namespace + "/" + name,
                                 if namespace + "/" + name in old(indexer) then "update" else "create"))
      ensures indexer == old(indexer)[namespace + "/" + name := v]
    {
      var key := namespace + "/" + name;
      event := Some(Item(key, if key in indexer then "update" else "create"));
      indexer := indexer[key := v];
    }

    // k8swatcher.go:106-114
    method Delete(name: string)
      requires event.None? && Key(namespace, name) in indexer
      modifies this`indexer, this`event
      ensures Value() == Next(old(Value()), Remove(name))
      ensures event == Some(Item(namespace + "/" + name, "delete"))
      ensures indexer == old(indexer) - {namespace + "/" + name}
    {
      var key := namespace + "/" + name;
      indexer := indexer - {key};
      event := Some(Item(key, "delete"));
    }

    // k8swatcher.go:96,103,112
    method AddToQueue()
      requires event.Some?
      modifies this`event, this`queue
      ensures Value() == Next(old(Value()), Announce)
    {
      queue := queue.Add(event.value);
      event := None;
    }

    method DelayIsOver(item: Item)
      requires item in queue.delayed
      modifies this`queue
      ensures Value() == Next(old(Value()), Ready(item))
    {
      queue := queue.Ready(item);
    }

    // ---- The workers ----

    // k8swatcher.go:220
    method Take(w: nat) returns (e: Item)
      requires w < numWorkers && w !in workers && queue.queue != []
      modifies this`queue, this`workers
      ensures Value() == Next(old(Value()), Get(w))
      ensures w in workers && workers[w] == Got(e)
    {
      e := queue.queue[0];
      queue := queue.Get();
      workers := workers[w := Got(e)];
    }

    // k8swatcher.go:185-194: reading the store may fail.
    method Fetch(w: nat, readable: bool) returns (found: Option<(string, Option<V>)>)
      requires w in workers && workers[w].Got? && InNamespace(namespace, workers[w].item.key)
      modifies this`workers
      ensures readable ==> Value() == Next(old(Value()), Read(w)) && found.Some?
      ensures readable ==> Key(namespace, found.value.0) == workers[w].item.key && workers[w].obj == found.value.1
      ensures !readable ==> Value() == old(Value()) && found.None?
    {
      var e := workers[w].item;
      if !readable {
        return None;
      }
      var obj := if e.key in indexer then Some(indexer[e.key]) else None;
      var localName := LocalName(namespace, e.key);
      workers := workers[w := Holding(e, obj)];
      found := Some((localName, obj));
    }

    // k8swatcher.go:201-217
    method HandleErr(w: nat)
      requires w in workers && workers[w].Got?
      modifies this`queue, this`workers, this`log
      ensures Value() == Next(old(Value()), ReadFails(w))
    {
      var e := workers[w].item;
      workers := workers[w := Leaving(e)];
      if queue.NumRequeues(e) < NUM_RETRIES {
        queue := queue.AddRateLimited(e);
        log := log + [Requeued(e)];
        return;
      }
      queue := queue.Forget(e);
      log := log + [Dropped(e)];
    }

    // k8swatcher.go:195,229: the handler gets the object, and the queue forgets the failures.
    method HandleEvent(w: nat)
      requires w in workers && workers[w].Holding?
      modifies this`queue, this`workers, this`log
      ensures Value() == Next(old(Value()), Handle(w))
    {
      var e := workers[w].item;
      log := log + [Handled(e, workers[w].obj)];
      queue := queue.Forget(e);
      workers := workers[w := Leaving(e)];
    }

    // k8swatcher.go:224
    method Release(w: nat)
      requires w in workers && workers[w].Leaving?
      modifies this`queue, this`workers
      ensures Value() == Next(old(Value()), Finish(w))
    {
      queue := queue.Done(workers[w].item);
      workers := workers - {w};
    }

    // k8swatcher.go:219-233, by a worker that nothing else interleaves with.
    method ProcessNextItem(w: nat, readable: bool)
      requires WF(Value()) && w < numWorkers && w !in workers && queue.queue != []
      modifies this`queue, this`workers, this`log
      ensures Value() == Processed(old(Value()), w, readable)
    {
      StepKeepsWF(Value(), Get(w));
      var e := Take(w);
      var found := Fetch(w, readable);
      if found.Some? {
        HandleEvent(w);
      } else {
        HandleErr(w);
      }
      Release(w);
    }

    // ---- Draining ----

    // One step of a worker; its read may fail or not.
    method StepOfWorker(w: nat) returns (ghost l: Step<V>)
      requires WF(Value()) && w in workers
      modifies this`queue, this`workers, this`log
      ensures Enabled(old(Value()), l) && Quiet(l) && Value() == Next(old(Value()), l)
    {
      match workers[w]
      case Got(item) =>
        var readable := *;
        var found := Fetch(w, readable);
        if found.None? {
          l := ReadFails(w);
          HandleErr(w);
        } else {
          l := Read(w);
        }
      case Holding(_, _) =>
        l := Handle(w);
        HandleEvent(w);
      case Leaving(_) =>
        l := Finish(w);
        Release(w);
    }

    // Without changes of the store the queue drains, whatever step is taken next wherever there is a
    // choice: which worker goes on, which idle one takes an item, when a delay is over, what can be read.
    method DrainQueue()
      requires Reachable(Value()) && numWorkers > 0
      modifies this`event, this`queue, this`workers, this`log
      ensures Reachable(Value()) && Drained(Value())
      ensures numWorkers == 1 ==> forall key :: InSync(Value(), key) || GaveUpLast(log, key)
    {
      ghost var u := queue.dirty + queue.processing + queue.delayed + if event.Some? then {event.value} else {};
      ReachableIsWF(Value());
      while
        invariant Reachable(Value()) && WF(Value()) && Within(Value(), u)
        decreases LeftToDo(Value(), u)
      {
        case event.Some? =>
          ghost var s := Value();
          AddToQueue();
          StepTaken(s, Announce, Value(), u);
        case workers != map[] =>
          ghost var s := Value();
          var w :| w in workers;
          ghost var l := StepOfWorker(w);
          StepTaken(s, l, Value(), u);
        case queue.queue != [] && exists w: nat :: w < numWorkers && w !in workers =>
          ghost var s := Value();
          var w: nat :| w < numWorkers && w !in workers;
          var _ := Take(w);
          StepTaken(s, Get(w), Value(), u);
        case queue.delayed != {} =>
          ghost var s := Value();
          var item :| item in queue.delayed;
          DelayIsOver(item);
          StepTaken(s, Ready(item), Value(), u);
      }
      assert 0 < numWorkers && 0 !in workers;
      DrainedReachable(Value());
    }
  }

  /** The state after one worker has processed the first item. */
  function Processed<V>(s: State<V>, w: nat, readable: bool): State<V>
    requires Enabled(s, Get(w))
  {
    var taken := Next(s, Get(w));
    var tried := if readable then Next(Next(taken, Read(w)), Handle(w)) else Next(taken, ReadFails(w));
    Next(tried, Finish(w))
  }

  lemma StepTaken<V(!new)>(s: State<V>, l: Step<V>, s': State<V>, u: set<Item>)
    requires Reachable(s) && WF(s) && Enabled(s, l) && Quiet(l) && Within(s, u) && s' == Next(s, l)
    ensures Reachable(s') && WF(s') && Within(s', u) && LeftToDo(s', u) < LeftToDo(s, u)
  {
    NextReachable(s, l);
    StepKeepsWF(s, l);
    StepStaysWithin(s, l, u);
    StepShrinks(s, l, u);
  }

  lemma DrainedReachable<V(!new)>(s: State<V>)
    requires Reachable(s) && Drained(s)
    ensures s.numWorkers == 1 ==> forall key :: InSync(s, key) || GaveUpLast(s.log, key)
  {
    var start: State<V> := Init(s.namespace, s.numWorkers);
    var ls :| Reaches(start, ls, s);
    if s.numWorkers == 1 {
      forall key ensures InSync(s, key) || GaveUpLast(s.log, key) {
        if !GaveUpLast(s.log, key) {
          DrainedIsInSync(start, ls, s, key);
        }
      }
    }
  }
}

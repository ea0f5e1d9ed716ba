/** What the handlers have seen when the queue has drained. */
module Convergence {
  import opened Wrappers
  import opened WorkQueue
  import opened Drain

  /** The object that was handled last under the key; none also if nothing was handled under it. */
  function LastHandled<V>(log: seq<Outcome<V>>, key: string): Option<V> {
    if log == [] then None
    else
      var last := log[|log| - 1];
      if last.Handled? && last.item.key == key then last.obj else LastHandled(log[..|log| - 1], key)
  }

  predicate InSync<V(==)>(s: State<V>, key: string) {
    LastHandled(s.log, key) == Current(s, key)
  }

  /** The last event for the key that was not to be tried again was dropped. */
  predicate GaveUpLast<V>(log: seq<Outcome<V>>, key: string) {
    log != [] &&
      var last := log[|log| - 1];
      if last.item.key == key && !last.Requeued? then last.Dropped? else GaveUpLast(log[..|log| - 1], key)
  }

  /** An event for the key is announced, queued or delayed. */
  ghost predicate Due<V(!new)>(s: State<V>, key: string) {
    || (s.announced.Some? && s.announced.value.key == key)
    || exists item :: item in s.q.dirty + s.q.delayed && item.key == key
  }

  /** A worker is about to read the key's object, or holds the current one. */
  predicate UpToDate<V(==)>(s: State<V>, key: string, stage: Stage<V>) {
    stage.item.key == key && (stage.Got? || (stage.Holding? && stage.obj == Current(s, key)))
  }

  // ---- One worker ----

  /** Out of sync means that an event for the key is due or not yet read, or that the current object
      is being handled, or that the last event was dropped; and while an object is handled that was
      read before the last change, an event is due. */
  ghost predicate Synchronising<V(!new)>(s: State<V>, key: string) {
    || Due(s, key)
    || (0 in s.workers && UpToDate(s, key, s.workers[0]))
    || ((InSync(s, key) || GaveUpLast(s.log, key)) &&
        !(0 in s.workers && s.workers[0].Holding? && s.workers[0].item.key == key))
  }

  lemma LogGrows<V(!new)>(log: seq<Outcome<V>>, o: Outcome<V>, key: string)
    ensures LastHandled(log + [o], key) == if o.Handled? && o.item.key == key then o.obj else LastHandled(log, key)
    ensures GaveUpLast(log + [o], key) <==>
            if o.item.key == key && !o.Requeued? then o.Dropped? else GaveUpLast(log, key)
  {
    assert (log + [o])[..|log|] == log;
  }

  /** A change of an object is announced. */
  lemma ChangeSynchronises<V(!new)>(s: State<V>, l: Step<V>, key: string)
    requires Enabled(s, l) && (l.Change? || l.Remove?) && Synchronising(s, key)
    ensures Synchronising(Next(s, l), key)
  {
    var s' := Next(s, l);
    if key != Key(s.namespace, l.name) {
      assert Current(s', key) == Current(s, key);
      assert Due(s, key) ==> Due(s', key);
    }
  }

  /** A due item is due until a worker takes it. */
  lemma DueUntilTaken<V(!new)>(s: State<V>, l: Step<V>, key: string)
    requires WF(s) && Enabled(s, l) && Quiet(l) && Due(s, key)
    ensures var s' := Next(s, l);
            Due(s', key) || (l.Get? && l.w in s'.workers && s'.workers[l.w].Got? && s'.workers[l.w].item.key == key)
  {
    var s' := Next(s, l);
    if s.announced.Some? && s.announced.value.key == key {
      if l.Announce? {
        assert s.announced.value in s'.q.dirty;
      }
    } else {
      var item :| item in s.q.dirty + s.q.delayed && item.key == key;
      if item !in s'.q.dirty + s'.q.delayed {
        assert l.Get? && item == s.q.queue[0];
      }
    }
  }

  lemma QuietSynchronises<V(!new)>(s: State<V>, l: Step<V>, key: string)
    requires WF(s) && s.numWorkers == 1 && Enabled(s, l) && Quiet(l) && Synchronising(s, key)
    ensures Synchronising(Next(s, l), key)
  {
    var s' := Next(s, l);
    assert Current(s', key) == Current(s, key);
    if l.ReadFails? || l.Handle? {
      LogGrows(s.log, s'.log[|s.log|], key);
    }
    if Due(s, key) {
      DueUntilTaken(s, l, key);
    } else if l.ReadFails? && s.workers[0].item.key == key && s'.log[|s.log|].Requeued? {
      assert s.workers[0].item in s'.q.dirty + s'.q.delayed;
    }
  }

  lemma {:induction false} Synchronised<V(!new)>(start: State<V>, ls: seq<Step<V>>, s: State<V>, key: string)
    requires start == Init(start.namespace, 1) && Reaches(start, ls, s)
    ensures WF(s) && s.numWorkers == 1 && Synchronising(s, key)
    decreases |ls|
  {
    if ls != [] {
      var init, l := ls[..|ls| - 1], ls[|ls| - 1];
      var before := StateAfter(start, init).value;
      Synchronised(start, init, before, key);
      StepKeepsWF(before, l);
      if Quiet(l) {
        QuietSynchronises(before, l, key);
      } else {
        ChangeSynchronises(before, l, key);
      }
    }
  }

  lemma NothingDue<V(!new)>(s: State<V>, key: string)
    requires WF(s) && Drained(s)
    ensures !Due(s, key)
  {
    DrainedIsEmpty(s);
  }

  /** With one worker, once the queue has drained, what was handled last under each key is the object
      now in the store, or its absence; unless the last event for the key was dropped. */
  lemma DrainedIsInSync<V(!new)>(start: State<V>, ls: seq<Step<V>>, s: State<V>, key: string)
    requires start == Init(start.namespace, 1) && Reaches(start, ls, s)
    requires Drained(s) && !GaveUpLast(s.log, key)
    ensures InSync(s, key)
  {
    Synchronised(start, ls, s, key);
    NothingDue(s, key);
  }

  // ---- Any number of workers ----

  /** The current object, or its absence, was handled; or there never was one. */
  ghost predicate Met<V(!new)>(s: State<V>, key: string) {
    || (exists o :: o in s.log && o.Handled? && o.item.key == key && o.obj == Current(s, key))
    || (Untouched(s, key) && Current(s, key) == None)
  }

  ghost predicate GivenUp<V(!new)>(log: seq<Outcome<V>>, key: string) {
    exists o :: o in log && o.Dropped? && o.item.key == key
  }

  ghost predicate Untouched<V(!new)>(s: State<V>, key: string) {
    && (forall o :: o in s.log && o.Handled? && o.item.key == key ==> o.obj == None)
    && (forall w :: w in s.workers && s.workers[w].Holding? && s.workers[w].item.key == key ==>
          s.workers[w].obj == None)
  }

  ghost predicate Meeting<V(!new)>(s: State<V>, key: string) {
    || Due(s, key)
    || GivenUp(s.log, key)
    || (exists w :: w in s.workers && UpToDate(s, key, s.workers[w]))
    || Met(s, key)
  }

  lemma ChangeMeets<V(!new)>(s: State<V>, l: Step<V>, key: string)
    requires Enabled(s, l) && (l.Change? || l.Remove?) && Meeting(s, key)
    ensures Meeting(Next(s, l), key)
  {
    var s' := Next(s, l);
    if key != Key(s.namespace, l.name) {
      assert Current(s', key) == Current(s, key);
      assert Due(s, key) ==> Due(s', key);
      assert Met(s, key) ==> Met(s', key);
      if w :| w in s.workers && UpToDate(s, key, s.workers[w]) {
        assert UpToDate(s', key, s'.workers[w]);
      }
    }
  }

  /** A worker that was up to date stays so, or its item is due, given up or handled. */
  lemma UpToDateUntilHandled<V(!new)>(s: State<V>, l: Step<V>, key: string, w: nat)
    requires WF(s) && Enabled(s, l) && Quiet(l) && w in s.workers && UpToDate(s, key, s.workers[w])
    ensures Meeting(Next(s, l), key)
  {
    var s', item := Next(s, l), s.workers[w].item;
    assert Current(s', key) == Current(s, key);
    if (l.ReadFails? || l.Handle?) && l.w == w {
      var o := s'.log[|s.log|];
      assert o in s'.log;
      if o.Requeued? {
        assert item in s'.q.dirty + s'.q.delayed;
      } else if o.Handled? {
        assert Met(s', key);
      }
    } else {
      assert w in s'.workers && UpToDate(s', key, s'.workers[w]);
    }
  }

  lemma MetStaysMet<V(!new)>(s: State<V>, l: Step<V>, key: string)
    requires Enabled(s, l) && Quiet(l) && Met(s, key)
    ensures Met(Next(s, l), key)
  {
    var s' := Next(s, l);
    assert Current(s', key) == Current(s, key);
    assert forall o :: o in s.log ==> o in s'.log;
    if Untouched(s, key) && Current(s, key) == None {
      assert Untouched(s', key);
    }
  }

  lemma QuietMeets<V(!new)>(s: State<V>, l: Step<V>, key: string)
    requires WF(s) && Enabled(s, l) && Quiet(l) && Meeting(s, key)
    ensures Meeting(Next(s, l), key)
  {
    var s' := Next(s, l);
    if Due(s, key) {
      DueUntilTaken(s, l, key);
      if !Due(s', key) {
        assert UpToDate(s', key, s'.workers[l.w]);
      }
    } else if GivenUp(s.log, key) {
      assert forall o :: o in s.log ==> o in s'.log;
    } else if w :| w in s.workers && UpToDate(s, key, s.workers[w]) {
      UpToDateUntilHandled(s, l, key, w);
    } else {
      MetStaysMet(s, l, key);
    }
  }

  lemma {:induction false} AllMeeting<V(!new)>(start: State<V>, ls: seq<Step<V>>, s: State<V>, key: string)
    requires start == Init(start.namespace, start.numWorkers) && Reaches(start, ls, s)
    ensures WF(s) && Meeting(s, key)
    decreases |ls|
  {
    if ls != [] {
      var init, l := ls[..|ls| - 1], ls[|ls| - 1];
      var before := StateAfter(start, init).value;
      AllMeeting(start, init, before, key);
      StepKeepsWF(before, l);
      if Quiet(l) {
        QuietMeets(before, l, key);
      } else {
        ChangeMeets(before, l, key);
      }
    } else {
      assert Met(s, key);
    }
  }

  /** With any number of workers, once the queue has drained, the object now in the store was handled
      at some time, or its absence was, under each key that was not given up. */
  lemma DrainedHasMetAll<V(!new)>(start: State<V>, ls: seq<Step<V>>, s: State<V>, key: string)
    requires start == Init(start.namespace, start.numWorkers) && Reaches(start, ls, s)
    requires Drained(s) && !GivenUp(s.log, key)
    ensures Met(s, key)
  {
    AllMeeting(start, ls, s, key);
    NothingDue(s, key);
  }

  // ---- Why there is one worker ----

  /** With more workers than one, no step failing, the queue can drain although what was handled last
      is not the current version: two events of one object can be handled at the same time. */
  lemma SeveralWorkersMayEndOutOfDate<V(!new)>(namespace: string, numWorkers: nat, name: string, v: V, w: V)
      returns (s: State<V>)
    requires numWorkers >= 2 && v != w
    ensures Reachable(s) && s.namespace == namespace && s.numWorkers == numWorkers && Drained(s)
    ensures (forall o :: o in s.log ==> o.Handled?) && !InSync(s, Key(namespace, name))
  {
    var key := Key(namespace, name);
    InitReachable<V>(namespace, numWorkers);
    s := Taken(Init<V>(namespace, numWorkers), name, v, 0, Item(key, "create"));
    s := Taken(s, name, w, 1, Item(key, "update"));
    s := HandledAndLeft(s, 1);
    s := HandledAndLeft(s, 0);
    assert s.log == [Handled(Item(key, "update"), Some(w)), Handled(Item(key, "create"), Some(v))];
    assert s.workers == map[];
  }

  /** Whatever drained state the controller reaches, it is in sync under each key whose last event was
      not dropped. */
  ghost predicate EndsInSync<V(!new)>(namespace: string, numWorkers: nat) {
    forall s: State<V>, key | Reachable(s) && s.namespace == namespace && s.numWorkers == numWorkers ::
      Drained(s) && !GaveUpLast(s.log, key) ==> InSync(s, key)
  }

  /** The number of workers for which that holds is one. */
  lemma OneWorkerExactly<V(!new)>(namespace: string, numWorkers: nat, v: V, w: V)
    requires numWorkers >= 1 && v != w
    ensures EndsInSync<V>(namespace, numWorkers) <==> numWorkers == 1
  {
    if numWorkers == 1 {
      forall s: State<V>, key | Reachable(s) && s.namespace == namespace && s.numWorkers == 1 && Drained(s) &&
                                !GaveUpLast(s.log, key)
        ensures InSync(s, key)
      {
        var ls :| Reaches(Init(s.namespace, s.numWorkers), ls, s);
        DrainedIsInSync(Init(namespace, 1), ls, s, key);
      }
    } else {
      var s := SeveralWorkersMayEndOutOfDate(namespace, numWorkers, "a", v, w);
      NothingDropped(s.log, Key(namespace, "a"));
    }
  }

  lemma {:induction false} NothingDropped<V>(log: seq<Outcome<V>>, key: string)
    requires forall o :: o in log ==> o.Handled?
    ensures !GaveUpLast(log, key)
  {
    if log != [] {
      NothingDropped(log[..|log| - 1], key);
      assert log[|log| - 1] in log;
    }
  }

  /** An object is stored, its event queued, and a worker takes and reads it. */
  lemma Taken<V(!new)>(s: State<V>, name: string, v: V, w: nat, item: Item) returns (s': State<V>)
    requires Reachable(s) && s.announced.None? && s.q.queue == [] && w < s.numWorkers && w !in s.workers
    requires item == Item(Key(s.namespace, name), if Key(s.namespace, name) in s.store then "update" else "create")
    requires item !in s.q.dirty && item !in s.q.processing
    ensures Reachable(s')
    ensures s' == s.(store := s.store[item.key := v], workers := s.workers[w := Holding(item, Some(v))],
                     q := s.q.(processing := s.q.processing + {item}))
  {
    var s1 := Next(s, Change(name, v));
    NextReachable(s, Change(name, v));
    var s2 := Next(s1, Announce);
    NextReachable(s1, Announce);
    var s3 := Next(s2, Get(w));
    NextReachable(s2, Get(w));
    s' := Next(s3, Read(w));
    NextReachable(s3, Read(w));
    assert s'.q.queue == [] && s'.q.dirty == s.q.dirty;
    assert s'.workers == s.workers[w := Holding(item, Some(v))];
  }

  lemma HandledAndLeft<V(!new)>(s: State<V>, w: nat) returns (s': State<V>)
    requires Reachable(s) && w in s.workers && s.workers[w].Holding? && s.workers[w].item !in s.q.dirty
    requires s.workers[w].item !in s.q.requeues
    ensures Reachable(s')
    ensures s' == s.(workers := s.workers - {w}, log := s.log + [Handled(s.workers[w].item, s.workers[w].obj)],
                     q := s.q.(processing := s.q.processing - {s.workers[w].item}))
  {
    var s1 := Next(s, Handle(w));
    NextReachable(s, Handle(w));
    s' := Next(s1, Finish(w));
    NextReachable(s1, Finish(w));
    assert s'.workers == s.workers - {w};
    assert s'.q.requeues == s.q.requeues;
  }
}

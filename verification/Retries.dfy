/** How often the controller tries an item. */
module Retries {
  import opened WorkQueue

  /** Failed tries of the item in a row: since it was handled or dropped last. */
  function Row<V(==)>(log: seq<Outcome<V>>, item: Item): nat {
    if log == [] then 0
    else
      var last := log[|log| - 1];
      if last.item != item then Row(log[..|log| - 1], item)
      else if last.Requeued? then Row(log[..|log| - 1], item) + 1
      else 0
  }

  /** A failed try is the last one exactly if five others precede it in a row. */
  ghost predicate FiveRetries<V(!new)>(log: seq<Outcome<V>>) {
    forall p :: 0 <= p < |log| && !log[p].Handled? ==> GivesUpInTime(log, p)
  }

  predicate GivesUpInTime<V(==)>(log: seq<Outcome<V>>, p: nat)
    requires p < |log|
  {
    var row := Row(log[..p], log[p].item);
    row <= 5 && (log[p].Dropped? <==> row == 5)
  }

  /** The requeue counters say how often each item failed in a row. */
  ghost predicate Tallied<V(!new)>(s: State<V>) {
    && (forall i :: s.q.NumRequeues(i) == Row(s.log, i) && Row(s.log, i) <= 5)
    && FiveRetries(s.log)
  }

  lemma RowAfter<V>(log: seq<Outcome<V>>, o: Outcome<V>, item: Item)
    ensures Row(log + [o], item) ==
            if o.item != item then Row(log, item) else if o.Requeued? then Row(log, item) + 1 else 0
  {
    assert (log + [o])[..|log|] == log;
  }

  lemma FiveRetriesAfter<V(!new)>(log: seq<Outcome<V>>, o: Outcome<V>)
    requires FiveRetries(log)
    requires o.Handled? || (Row(log, o.item) <= 5 && (o.Dropped? <==> Row(log, o.item) == 5))
    ensures FiveRetries(log + [o])
  {
    var more := log + [o];
    forall p | 0 <= p < |more| && !more[p].Handled? ensures GivesUpInTime(more, p) {
      assert more[..p] == log[..p];
      if p < |log| {
        assert GivesUpInTime(log, p);
      } else {
        assert log[..p] == log;
      }
    }
  }

  lemma StepTallies<V(!new)>(s: State<V>, l: Step<V>)
    requires Enabled(s, l) && Tallied(s)
    ensures Tallied(Next(s, l))
  {
    var s' := Next(s, l);
    if l.ReadFails? || l.Handle? {
      OutcomeTallies(s, s', s'.log[|s.log|]);
    } else {
      assert s'.q.requeues == s.q.requeues;
    }
  }

  lemma OutcomeTallies<V(!new)>(s: State<V>, s': State<V>, o: Outcome<V>)
    requires Tallied(s) && s'.log == s.log + [o]
    requires o.Handled? || (o.Dropped? <==> s.q.NumRequeues(o.item) == 5)
    requires s'.q.requeues == if o.Requeued? then s.q.requeues[o.item := s.q.NumRequeues(o.item) + 1]
                              else s.q.requeues - {o.item}
    ensures Tallied(s')
  {
    FiveRetriesAfter(s.log, o);
    forall i ensures s'.q.NumRequeues(i) == Row(s'.log, i) {
      RowAfter(s.log, o, i);
    }
  }

  /** In every reachable state each requeue counter is the number of failures in a row, between 0 and
      5, and of the failed tries of an item exactly the sixth in a row made the controller drop it. */
  lemma {:induction false} SixTriesAtMost<V(!new)>(start: State<V>, ls: seq<Step<V>>, s: State<V>)
    requires start == Init(start.namespace, start.numWorkers) && Reaches(start, ls, s)
    ensures Tallied(s)
    decreases |ls|
  {
    if ls != [] {
      var init, l := ls[..|ls| - 1], ls[|ls| - 1];
      var before := StateAfter(start, init).value;
      SixTriesAtMost(start, init, before);
      StepTallies(before, l);
    }
  }
}

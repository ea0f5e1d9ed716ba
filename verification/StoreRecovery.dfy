/**
 Recovery with the informer in front of it: after a restart the store fills with the Pods there are,
 any number of workers hand their events to the factory, and the queue drains.
 */
module StoreRecovery {
  import opened Wrappers
  import opened Records
  import opened Protocol
  import opened Recovery
  import WQ = WorkQueue
  import Drain
  import Convergence

  type Store = WQ.State<Pod>
  type Seen = WQ.Outcome<Pod>

  // ---- What the workers hand over ----

  /** The object is an unfinished Pod of the cluster, as the earlier run created it. */
  predicate ShownAt(pods: Cluster, namespace: string, key: string, obj: Option<Pod>) {
    && WQ.InNamespace(namespace, key) && obj.Some?
    && Shows(pods, WQ.LocalName(namespace, key), obj.value)
  }

  /** No Pod is deleted, and none that is stored or changed has finished. */
  predicate ShowsOnly(pods: Cluster, l: WQ.Step<Pod>) {
    match l
    case Change(name, pod) => Shows(pods, name, pod)
    case Remove(_) => false
    case _ => true
  }

  predicate SeenAt(pods: Cluster, namespace: string, o: Seen) {
    o.Handled? ==> ShownAt(pods, namespace, o.item.key, o.obj)
  }

  predicate HeldAt(pods: Cluster, w: Store, stage: WQ.Stage<Pod>) {
    && stage.item.key in w.store
    && (stage.Holding? ==> ShownAt(pods, w.namespace, stage.item.key, stage.obj))
  }

  /** Whatever is stored, held by a worker or handled is an unfinished Pod of the cluster, and no event
      is on its way for anything that is not stored. */
  ghost predicate Showing(w: Store, pods: Cluster) {
    && (forall key | key in w.store :: ShownAt(pods, w.namespace, key, Some(w.store[key])))
    && (w.announced.Some? ==> w.announced.value.key in w.store)
    && (forall i | i in w.q.dirty || i in w.q.delayed :: i.key in w.store)
    && (forall n | n in w.workers :: HeldAt(pods, w, w.workers[n]))
    && (forall o | o in w.log :: SeenAt(pods, w.namespace, o))
  }

  lemma StepShows(w: Store, l: WQ.Step<Pod>, pods: Cluster)
    requires WQ.WF(w) && WQ.Enabled(w, l) && Showing(w, pods) && ShowsOnly(pods, l)
    ensures Showing(WQ.Next(w, l), pods)
  {
    if l.Change? {
      ChangeShows(w, l.name, l.v, pods);
    } else if l.ReadFails? || l.Handle? {
      HandlingShows(w, l, pods);
    } else if l.Announce? || l.Ready? {
      QueueingShows(w, l, pods);
    } else {
      WorkerShows(w, l, pods);
    }
  }

  lemma QueueingShows(w: Store, l: WQ.Step<Pod>, pods: Cluster)
    requires WQ.Enabled(w, l) && Showing(w, pods) && (l.Announce? || l.Ready?)
    ensures Showing(WQ.Next(w, l), pods)
  {
  }

  lemma WorkerShows(w: Store, l: WQ.Step<Pod>, pods: Cluster)
    requires WQ.WF(w) && WQ.Enabled(w, l) && Showing(w, pods) && (l.Get? || l.Read? || l.Finish?)
    ensures Showing(WQ.Next(w, l), pods)
  {
    var w' := WQ.Next(w, l);
    if l.Get? {
      assert w.q.queue[0] in w.q.queue;
    } else {
      assert HeldAt(pods, w, w.workers[l.w]);
    }
    forall n | n in w'.workers && n != l.w ensures HeldAt(pods, w', w'.workers[n]) {
      assert HeldAt(pods, w, w.workers[n]);
    }
  }

  lemma ChangeShows(w: Store, name: string, pod: Pod, pods: Cluster)
    requires Showing(w, pods) && Shows(pods, name, pod) && WQ.Enabled(w, WQ.Change(name, pod))
    ensures Showing(WQ.Next(w, WQ.Change(name, pod)), pods)
  {
    var key := WQ.Key(w.namespace, name);
    WQ.SameLocalName(w.namespace, key, name);
    assert ShownAt(pods, w.namespace, key, Some(pod));
  }

  lemma HandlingShows(w: Store, l: WQ.Step<Pod>, pods: Cluster)
    requires WQ.Enabled(w, l) && Showing(w, pods) && (l.ReadFails? || l.Handle?)
    ensures Showing(WQ.Next(w, l), pods)
  {
    var w', held := WQ.Next(w, l), w.workers[l.w];
    assert HeldAt(pods, w, held) && HeldAt(pods, w', w'.workers[l.w]);
    assert SeenAt(pods, w.namespace, w'.log[|w.log|]) && w'.log == w.log + [w'.log[|w.log|]];
  }

  lemma {:induction false} RunShows(start: Store, steps: seq<WQ.Step<Pod>>, w: Store, pods: Cluster)
    requires start == WQ.Init(start.namespace, start.numWorkers) && WQ.Reaches(start, steps, w)
    requires forall l :: l in steps ==> ShowsOnly(pods, l)
    ensures WQ.WF(w) && Showing(w, pods) && w.namespace == start.namespace
    decreases |steps|
  {
    if steps != [] {
      var init, l := steps[..|steps| - 1], steps[|steps| - 1];
      var before := WQ.StateAfter(start, init).value;
      RunShows(start, init, before, pods);
      StepShows(before, l, pods);
      WQ.StepKeepsWF(before, l);
    }
  }

  // ---- The factory behind the workers ----

  predicate EventFor(namespace: string, l: Label, o: Seen) {
    o.Handled? && l.PodEvent? && o.item.key == WQ.Key(namespace, l.name) && o.obj == l.obj
  }

  /** The factory's Pod events are those that the workers hand over. */
  ghost predicate HandsOver(namespace: string, log: seq<Seen>, ls: seq<Label>) {
    && (forall o | o in log && o.Handled? :: exists k :: 0 <= k < |ls| && EventFor(namespace, ls[k], o))
    && (forall k | 0 <= k < |ls| && ls[k].PodEvent? :: exists o :: o in log && EventFor(namespace, ls[k], o))
  }

  /** With Pod events only from the workers and no requests, it is a recovery. */
  lemma HandedOverRecovers(ss: seq<State>, ls: seq<Label>, w: Store, pods: Cluster)
    requires IsHistory(ss, ls) && Showing(w, pods) && HandsOver(w.namespace, w.log, ls)
    requires forall l :: l in ls ==> !l.Request?
    ensures IsRecovery(ss, ls, pods)
  {
    forall k | 0 <= k < |ls| ensures Recovers(pods, ls[k]) {
      assert ls[k] in ls;
      if ls[k].PodEvent? {
        HandedOverIsShown(ls[k], w, pods) by {
          assert exists o :: o in w.log && EventFor(w.namespace, ls[k], o);
        }
      }
    }
  }

  lemma HandedOverIsShown(l: Label, w: Store, pods: Cluster)
    requires Showing(w, pods) && l.PodEvent? && exists o :: o in w.log && EventFor(w.namespace, l, o)
    ensures Recovers(pods, l)
  {
    var o :| o in w.log && EventFor(w.namespace, l, o);
    assert SeenAt(pods, w.namespace, o);
    WQ.SameLocalName(w.namespace, o.item.key, l.name);
  }

  /** A stored Pod that was met was shown to the factory as it is stored. */
  lemma StoredIsShown(w: Store, ls: seq<Label>, pods: Cluster, name: string)
    requires Showing(w, pods) && HandsOver(w.namespace, w.log, ls)
    requires Convergence.Met(w, WQ.Key(w.namespace, name)) && WQ.Key(w.namespace, name) in w.store
    ensures Delivered(ls, name, w.store[WQ.Key(w.namespace, name)].phase.Running?)
  {
    var key := WQ.Key(w.namespace, name);
    var o := MetStored(w, key);
    var k :| 0 <= k < |ls| && EventFor(w.namespace, ls[k], o);
    WQ.SameLocalName(w.namespace, key, ls[k].name);
    WQ.SameLocalName(w.namespace, key, name);
    assert EventOf(ls[k], name, w.store[key].phase.Running?);
  }

  lemma MetStored(w: Store, key: string) returns (o: Seen)
    requires Convergence.Met(w, key) && key in w.store
    ensures o in w.log && o.Handled? && o.item.key == key && o.obj == Some(w.store[key])
  {
    o :| o in w.log && o.Handled? && o.item.key == key && o.obj == WQ.Current(w, key);
  }

  lemma HandedOver(namespace: string, log: seq<Seen>, ls: seq<Label>, k: nat) returns (o: Seen)
    requires HandsOver(namespace, log, ls) && k < |ls| && ls[k].PodEvent?
    ensures o in log && EventFor(namespace, ls[k], o)
  {
    o :| o in log && EventFor(namespace, ls[k], o);
  }

  /** Once met, only stored Pods were shown to the factory. */
  lemma ShownIsStored(w: Store, ls: seq<Label>, pods: Cluster, name: string, k: nat)
    requires Showing(w, pods) && HandsOver(w.namespace, w.log, ls)
    requires Convergence.Met(w, WQ.Key(w.namespace, name)) && k < |ls| && EventOf(ls[k], name, false)
    ensures WQ.Key(w.namespace, name) in w.store
  {
    var o := HandedOver(w.namespace, w.log, ls, k);
    MetIsStored(w, pods, WQ.Key(w.namespace, name), o);
  }

  /** A key that was met and handled is in the store: the handled object was a Pod, not its absence. */
  lemma MetIsStored(w: Store, pods: Cluster, key: string, o: Seen)
    requires Showing(w, pods) && Convergence.Met(w, key)
    requires o in w.log && o.Handled? && o.item.key == key
    ensures key in w.store
  {
    assert SeenAt(pods, w.namespace, o);
    if p :| p in w.log && p.Handled? && p.item.key == key && p.obj == WQ.Current(w, key) {
      assert SeenAt(pods, w.namespace, p);
    }
  }

  lemma ShownSomehow(ls: seq<Label>, name: string, running: bool)
    requires Delivered(ls, name, running)
    ensures Delivered(ls, name, false)
  {
    var k :| 0 <= k < |ls| && EventOf(ls[k], name, running);
    assert EventOf(ls[k], name, false);
  }

  /** A worker handled the key's Pod as running with these addresses. */
  ghost predicate HandledRunning(w: Store, key: string, ips: seq<string>) {
    exists o :: o in w.log && o.Handled? && o.item.key == key && o.obj.Some? && o.obj.value.phase.Running? &&
                o.obj.value.ips == ips
  }

  lemma ShownWasHandled(w: Store, ls: seq<Label>, name: string, ips: seq<string>)
    requires HandsOver(w.namespace, w.log, ls) && ShownWith(ls, name, ips)
    ensures HandledRunning(w, WQ.Key(w.namespace, name), ips)
  {
    var k :| 0 <= k < |ls| && EventOf(ls[k], name, true) && ls[k].obj.value.ips == ips;
    var o := HandedOver(w.namespace, w.log, ls, k);
  }

  lemma ReadyWasHandled(w: Store, ls: seq<Label>, name: string, r: Odp)
    requires HandsOver(w.namespace, w.log, ls) && (Delivered(ls, name, true) ==> ShownWith(ls, name, r.podIPs))
    ensures Delivered(ls, name, true) ==> HandledRunning(w, WQ.Key(w.namespace, name), r.podIPs)
  {
    if Delivered(ls, name, true) {
      ShownWasHandled(w, ls, name, r.podIPs);
    }
  }

  /** After a restart, with any number of workers: once the queue has drained, every handler has finished
      and no event for the Pod's key was dropped, there is a record of that name if and only if the Pod
      is in the store. It is the only one, with the fields of the record the Pod was created from, no
      error, the data GetToken returned, and Ready if the stored Pod is running; a ready record has addresses
      with which its Pod was handled as running. */
  lemma StoreIsRecovered(ss: seq<State>, ls: seq<Label>, start: Store, steps: seq<WQ.Step<Pod>>, w: Store,
                         pods: Cluster, name: string)
    requires IsHistory(ss, ls) && forall l :: l in ls ==> !l.Request?
    requires start == WQ.Init(start.namespace, start.numWorkers) && WQ.Reaches(start, steps, w)
    requires forall l :: l in steps ==> ShowsOnly(pods, l)
    requires HandsOver(start.namespace, w.log, ls)
    requires Drain.Drained(w) && !Convergence.GivenUp(w.log, WQ.Key(start.namespace, name))
    requires forall t | t in ss[|ls|].threads && ss[|ls|].threads[t].Handling? :: ss[|ls|].threads[t].at == Handled
    ensures name in ss[|ls|].odps <==> WQ.Key(start.namespace, name) in w.store
    ensures forall i: nat | i < |ss[|ls|].recs| && ss[|ls|].recs[i].podName == name ::
              name in ss[|ls|].odps && ss[|ls|].odps[name] == i
    ensures name in ss[|ls|].odps ==>
              var s, i := ss[|ls|], ss[|ls|].odps[name];
              && name in pods && Same(pods[name], s.recs[i]) && s.recs[i].error.None? && s.recs[i].errorTime.None?
              && s.recs[i].resultCode == (if Delivered(ls, name, true) then READY else CREATING)
              && (w.store[WQ.Key(start.namespace, name)].phase.Running? ==> s.recs[i].resultCode == READY)
              && (s.recs[i].resultCode == READY ==>
                    HandledRunning(w, WQ.Key(start.namespace, name), s.recs[i].podIPs))
              && (s.recs[i].tokenName == "" ==> s.recs[i].tokenData == map[])
              && (s.recs[i].tokenName != "" ==>
                    s.origin[i].ByEvent? && DataOk(s.log, s.origin[i].handler, i, s.recs[i]))
  {
    RunShows(start, steps, w, pods);
    Convergence.DrainedHasMetAll(start, steps, w, WQ.Key(start.namespace, name));
    HandedOverRecovers(ss, ls, w, pods);
    RecoveryIsComplete(ss, ls, pods, name);
    if WQ.Key(w.namespace, name) in w.store {
      StoredIsShown(w, ls, pods, name);
      ShownSomehow(ls, name, w.store[WQ.Key(w.namespace, name)].phase.Running?);
    }
    if Delivered(ls, name, false) {
      var k :| 0 <= k < |ls| && EventOf(ls[k], name, false);
      ShownIsStored(w, ls, pods, name, k);
    }
    if name in ss[|ls|].odps {
      ReadyWasHandled(w, ls, name, ss[|ls|].recs[ss[|ls|].odps[name]]);
    }
  }
}

/** The template index follows the ConfigMaps in the store. */
module TemplateSync {
  import opened Wrappers
  import opened Records
  import opened WorkQueue
  import opened Drain
  import opened Convergence
  import TI = TemplateIndex
  import opened TemplateHistory

  type Log = seq<Outcome<TI.ConfigMap>>

  ghost predicate AllInNamespace(namespace: string, log: Log) {
    forall o :: o in log ==> InNamespace(namespace, o.item.key)
  }

  /** What reached the handler, under the local name of its ConfigMap. */
  function EventOf(namespace: string, o: Outcome<TI.ConfigMap>, parses: TI.Parser): Option<TI.Event>
    requires InNamespace(namespace, o.item.key)
  {
    var name := LocalName(namespace, o.item.key);
    match o
    case Handled(_, None) => Some(TI.Deleted(name))
    case Handled(_, Some(cm)) => Some(TI.Changed(name, TI.Load(name, cm, parses)))
    case _ => None
  }

  ghost function EventsOf(namespace: string, log: Log, parses: TI.Parser): seq<TI.Event>
    requires AllInNamespace(namespace, log)
  {
    if log == [] then []
    else
      var e := EventOf(namespace, log[|log| - 1], parses);
      EventsOf(namespace, log[..|log| - 1], parses) + if e.Some? then [e.value] else []
  }

  ghost function IndexOf(namespace: string, log: Log, parses: TI.Parser): TI.Index
    requires AllInNamespace(namespace, log)
  {
    IndexAfter(EventsOf(namespace, log, parses))
  }

  lemma IndexOfMore(namespace: string, init: Log, o: Outcome<TI.ConfigMap>, parses: TI.Parser)
    requires AllInNamespace(namespace, init) && InNamespace(namespace, o.item.key)
    ensures AllInNamespace(namespace, init + [o])
    ensures IndexOf(namespace, init + [o], parses) ==
            var e, before := EventOf(namespace, o, parses), IndexOf(namespace, init, parses);
            if e.Some? then TI.Apply(before, e.value) else before
  {
    var e, es := EventOf(namespace, o, parses), EventsOf(namespace, init, parses);
    assert (init + [o])[..|init|] == init;
    if e.Some? {
      assert (es + [e.value])[..|es|] == es;
    } else {
      assert es + [] == es;
    }
  }

  /** The map by name holds the load of a ConfigMap as handled last, and nothing for one handled
      last as absent. */
  ghost predicate Follows(byName: map<string, Template>, name: string, last: Option<TI.ConfigMap>, parses: TI.Parser) {
    match last
    case None => name !in byName
    case Some(cm) => TI.Load(name, cm, parses).Some? ==> name in byName &&
                                                         byName[name] == TI.Load(name, cm, parses).value
  }

  lemma {:induction false} IndexFollowsLog(namespace: string, log: Log, parses: TI.Parser, name: string)
    requires AllInNamespace(namespace, log)
    ensures Follows(IndexOf(namespace, log, parses).byName, name, LastHandled(log, Key(namespace, name)), parses)
  {
    if log != [] {
      var init, last := log[..|log| - 1], log[|log| - 1];
      IndexFollowsLog(namespace, init, parses, name);
      assert log == init + [last];
      IndexOfMore(namespace, init, last, parses);
      EventFollows(namespace, IndexOf(namespace, init, parses), last, parses, name,
                   LastHandled(init, Key(namespace, name)));
    }
  }

  lemma EventFollows(namespace: string, before: TI.Index, o: Outcome<TI.ConfigMap>, parses: TI.Parser, name: string,
                     last: Option<TI.ConfigMap>)
    requires InNamespace(namespace, o.item.key) && Follows(before.byName, name, last, parses)
    ensures var e := EventOf(namespace, o, parses);
            Follows((if e.Some? then TI.Apply(before, e.value) else before).byName, name,
                    if o.Handled? && o.item.key == Key(namespace, name) then o.obj else last, parses)
  {
    SameLocalName(namespace, o.item.key, name);
  }

  /** With the single ConfigMap worker, once the queue has drained and unless the last event for a
      ConfigMap was dropped, the index holds the load of its current version if that can be loaded,
      and nothing if the ConfigMap is gone. */
  lemma DrainedIndexFollowsStore(start: State<TI.ConfigMap>, ls: seq<Step<TI.ConfigMap>>, s: State<TI.ConfigMap>,
                                 parses: TI.Parser, name: string)
    requires start == Init(start.namespace, NUM_CONFIG_MAP_WORKERS) && Reaches(start, ls, s)
    requires Drained(s) && !GaveUpLast(s.log, Key(s.namespace, name))
    ensures AllInNamespace(s.namespace, s.log)
    ensures Follows(IndexOf(s.namespace, s.log, parses).byName, name, Current(s, Key(s.namespace, name)), parses)
  {
    var key := Key(s.namespace, name);
    Synchronised(start, ls, s, key);
    DrainedIsInSync(start, ls, s, key);
    IndexFollowsLog(s.namespace, s.log, parses, name);
  }

  // ---- The map that create runs read ----

  lemma {:induction false} EventsAreOk(namespace: string, log: Log, parses: TI.Parser)
    requires AllInNamespace(namespace, log)
    ensures AllOk(EventsOf(namespace, log, parses))
  {
    if log != [] {
      EventsAreOk(namespace, log[..|log| - 1], parses);
    }
  }

  /** The map by application holds the load of each loadable ConfigMap, and whatever it holds is the
      load of a ConfigMap that is there, of its current version if that can be loaded. */
  ghost predicate ApplicationsFollow(byApplication: map<string, Template>, s: State<TI.ConfigMap>, parses: TI.Parser) {
    && (forall name | Key(s.namespace, name) in s.store ::
          var loaded := TI.Load(name, s.store[Key(s.namespace, name)], parses);
          loaded.Some? ==>
            loaded.value.application in byApplication && byApplication[loaded.value.application] == loaded.value)
    && (forall a | a in byApplication ::
          var name := byApplication[a].configMapName;
          && Key(s.namespace, name) in s.store && byApplication[a].application == a
          && var loaded := TI.Load(name, s.store[Key(s.namespace, name)], parses);
             loaded.Some? ==> byApplication[a] == loaded.value)
  }

  /** The same for the map by application, if no handled event clashed with what the index held. */
  lemma DrainedApplicationsFollowStore(start: State<TI.ConfigMap>, ls: seq<Step<TI.ConfigMap>>, s: State<TI.ConfigMap>,
                                       parses: TI.Parser)
    requires start == Init(start.namespace, NUM_CONFIG_MAP_WORKERS) && Reaches(start, ls, s) && Drained(s)
    requires forall key :: !GaveUpLast(s.log, key)
    ensures AllInNamespace(s.namespace, s.log)
    ensures ClashFree(EventsOf(s.namespace, s.log, parses)) ==>
              ApplicationsFollow(IndexOf(s.namespace, s.log, parses).byApplication, s, parses)
  {
    Synchronised(start, ls, s, "");
    var es := EventsOf(s.namespace, s.log, parses);
    EventsAreOk(s.namespace, s.log, parses);
    HistoryOk(es);
    MapsAgreeThroughout(es);
    assert es[..|es|] == es;
    if ClashFree(es) {
      assert Rekeyed(IndexAfter(es[..|es|]));
      forall name ensures Follows(IndexAfter(es).byName, name, Current(s, Key(s.namespace, name)), parses) {
        DrainedIndexFollowsStore(start, ls, s, parses, name);
      }
      RekeyedFollows(IndexAfter(es), s, parses);
    }
  }

  lemma RekeyedFollows(ix: TI.Index, s: State<TI.ConfigMap>, parses: TI.Parser)
    requires Rekeyed(ix) && TI.IndexOk(ix)
    requires forall name :: Follows(ix.byName, name, Current(s, Key(s.namespace, name)), parses)
    ensures ApplicationsFollow(ix.byApplication, s, parses)
  {
    forall name | Key(s.namespace, name) in s.store
      ensures var loaded := TI.Load(name, s.store[Key(s.namespace, name)], parses);
              loaded.Some? ==>
                loaded.value.application in ix.byApplication &&
                ix.byApplication[loaded.value.application] == loaded.value
    {
      assert Follows(ix.byName, name, Current(s, Key(s.namespace, name)), parses);
    }
    forall a | a in ix.byApplication
      ensures var name := ix.byApplication[a].configMapName;
              && Key(s.namespace, name) in s.store
              && var loaded := TI.Load(name, s.store[Key(s.namespace, name)], parses);
                 loaded.Some? ==> ix.byApplication[a] == loaded.value
    {
      var name := ix.byApplication[a].configMapName;
      assert Follows(ix.byName, name, Current(s, Key(s.namespace, name)), parses);
    }
  }
}

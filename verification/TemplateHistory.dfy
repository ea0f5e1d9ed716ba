/** The two template maps as a function of the events handled so far. */
module TemplateHistory {
  import opened Wrappers
  import opened Records
  import opened TemplateIndex

  function IndexAfter(es: seq<Event>): Index {
    if es == [] then EMPTY else Apply(IndexAfter(es[..|es| - 1]), es[|es| - 1])
  }

  predicate AllOk(es: seq<Event>) {
    forall e | e in es :: EventOk(e)
  }

  predicate Loads(e: Event, n: string) {
    e.Changed? && e.name == n && e.loaded.Some?
  }

  predicate LoadsFor(e: Event, a: string) {
    e.Changed? && e.loaded.Some? && e.loaded.value.application == a
  }

  /** The event deletes a ConfigMap that stood for this application at that time. */
  predicate Erases(es: seq<Event>, q: nat, a: string)
    requires q < |es|
  {
    && es[q].Deleted? && es[q].name in IndexAfter(es[..q]).byName
    && IndexAfter(es[..q]).byName[es[q].name].application == a
  }

  /** `t` is the last successful load of the ConfigMap, and it was not deleted since. */
  ghost predicate LastLoad(es: seq<Event>, n: string, t: Template, p: nat) {
    && p < |es| && Loads(es[p], n) && es[p].loaded.value == t
    && forall q | p < q < |es| :: es[q] != Deleted(n) && !Loads(es[q], n)
  }

  /** `t` is the last load for the application, and no ConfigMap then standing for it was deleted since. */
  ghost predicate LastLoadFor(es: seq<Event>, a: string, t: Template, p: nat) {
    && p < |es| && LoadsFor(es[p], a) && es[p].loaded.value == t
    && forall q: nat | p < q < |es| :: !LoadsFor(es[q], a) && !Erases(es, q, a)
  }

  lemma ErasesLater(es: seq<Event>, e: Event, q: nat, a: string)
    requires q < |es|
    ensures Erases(es + [e], q, a) <==> Erases(es, q, a)
  {
    assert (es + [e])[..q] == es[..q];
  }

  /** The map by name holds exactly the last successful load of each ConfigMap since its last delete. */
  lemma {:induction false} ByNameIsLastLoad(es: seq<Event>, n: string, t: Template)
    ensures n in IndexAfter(es).byName && IndexAfter(es).byName[n] == t <==> exists p: nat :: LastLoad(es, n, t, p)
  {
    if es == [] {
    } else {
      var init, e := es[..|es| - 1], es[|es| - 1];
      ByNameIsLastLoad(init, n, t);
      if e == Deleted(n) {
      } else if Loads(e, n) {
        assert e.loaded.value == t ==> LastLoad(es, n, t, |init|);
      } else {
        forall p: nat ensures LastLoad(es, n, t, p) <==> LastLoad(init, n, t, p) {
          if LastLoad(init, n, t, p) {
            forall q | p < q < |es| ensures es[q] != Deleted(n) && !Loads(es[q], n) {
              assert q < |init| ==> es[q] == init[q];
            }
          }
          if LastLoad(es, n, t, p) {
            forall q | p < q < |init| ensures init[q] != Deleted(n) && !Loads(init[q], n) {
              assert es[q] == init[q];
            }
          }
        }
      }
    }
  }

  /** The map by application holds exactly the last load for each application that was not followed
      by the delete of a ConfigMap then indexed under it. */
  lemma {:induction false} ByApplicationIsLastLoad(es: seq<Event>, a: string, t: Template)
    ensures a in IndexAfter(es).byApplication && IndexAfter(es).byApplication[a] == t <==>
            exists p: nat :: LastLoadFor(es, a, t, p)
  {
    if es == [] {
    } else {
      var init, e := es[..|es| - 1], es[|es| - 1];
      assert es == init + [e];
      ByApplicationIsLastLoad(init, a, t);
      if Erases(es, |init|, a) {
        ErasedAtLast(es, a);
      } else if LoadsFor(e, a) {
        assert es[|init|] == e;
        assert e.loaded.value == t ==> LastLoadFor(es, a, t, |init|);
      } else {
        forall p: nat ensures LastLoadFor(es, a, t, p) <==> LastLoadFor(init, a, t, p) {
          SameLastLoadFor(init, e, a, t, p);
        }
      }
    }
  }

  lemma ErasedAtLast(es: seq<Event>, a: string)
    requires es != [] && Erases(es, |es| - 1, a)
    ensures a !in IndexAfter(es).byApplication
    ensures forall t, p: nat :: !LastLoadFor(es, a, t, p)
  {
  }

  lemma SameLastLoadFor(init: seq<Event>, e: Event, a: string, t: Template, p: nat)
    requires !LoadsFor(e, a) && !Erases(init + [e], |init|, a)
    ensures LastLoadFor(init + [e], a, t, p) <==> LastLoadFor(init, a, t, p)
  {
    var es := init + [e];
    forall q: nat | q < |init| ensures es[q] == init[q] && (Erases(es, q, a) <==> Erases(init, q, a)) {
      ErasesLater(init, e, q, a);
    }
  }

  // ---- When the two maps are one ----

  /** The map by application is the map by name, keyed by application. */
  ghost predicate Rekeyed(ix: Index) {
    && (forall n | n in ix.byName ::
          && ix.byName[n].application in ix.byApplication
          && ix.byApplication[ix.byName[n].application] == ix.byName[n])
    && (forall a | a in ix.byApplication ::
          && ix.byApplication[a].configMapName in ix.byName
          && ix.byName[ix.byApplication[a].configMapName] == ix.byApplication[a])
  }

  /** A load that moves its ConfigMap from another application, or takes the application of another
      ConfigMap. */
  predicate Clashes(ix: Index, e: Event) {
    e.Changed? && e.loaded.Some? &&
      var a := e.loaded.value.application;
      || (e.name in ix.byName && ix.byName[e.name].application != a)
      || (a in ix.byApplication && ix.byApplication[a].configMapName != e.name)
  }

  /** An event leaves the maps one exactly if it does not clash with what they held before. */
  lemma StepRekeys(ix: Index, e: Event)
    requires EventOk(e) && IndexOk(ix) && Rekeyed(ix)
    ensures Rekeyed(Apply(ix, e)) <==> !Clashes(ix, e)
  {
    if Clashes(ix, e) {
      ClashSplits(ix, e.name, e.loaded.value);
    }
  }

  lemma ClashSplits(ix: Index, c: string, t: Template)
    requires t.configMapName == c && IndexOk(ix) && Rekeyed(ix) && Clashes(ix, Changed(c, Some(t)))
    ensures !Rekeyed(Apply(ix, Changed(c, Some(t))))
  {
    var ix', a := Apply(ix, Changed(c, Some(t))), t.application;
    if c in ix.byName && ix.byName[c].application != a {
      var former := ix.byName[c].application;
      assert former in ix'.byApplication && ix'.byApplication[former].configMapName == c && ix'.byName[c] == t;
    } else {
      var other := ix.byApplication[a].configMapName;
      assert other in ix'.byName && ix'.byName[other].application == a && ix'.byApplication[a] == t;
    }
  }

  lemma {:induction false} HistoryOk(es: seq<Event>)
    requires AllOk(es)
    ensures IndexOk(IndexAfter(es))
  {
    if es != [] {
      var init, e := es[..|es| - 1], es[|es| - 1];
      assert es == init + [e];
      assert AllOk(init) && EventOk(e);
      HistoryOk(init);
    }
  }

  ghost predicate ClashFree(es: seq<Event>) {
    forall k: nat | k < |es| :: !Clashes(IndexAfter(es[..k]), es[k])
  }

  ghost predicate AlwaysRekeyed(es: seq<Event>) {
    forall k: nat | k <= |es| :: Rekeyed(IndexAfter(es[..k]))
  }

  lemma Prefixes<T>(init: seq<T>, e: T)
    ensures forall k: nat | k <= |init| :: (init + [e])[..k] == init[..k]
    ensures (init + [e])[..|init| + 1] == init + [e] && init[..|init|] == init
  {
  }

  lemma ClashFreeMore(init: seq<Event>, e: Event)
    ensures ClashFree(init + [e]) <==> ClashFree(init) && !Clashes(IndexAfter(init), e)
  {
    var es := init + [e];
    Prefixes(init, e);
    assert es[|init|] == e;
    if ClashFree(es) {
      forall k: nat | k < |init| ensures !Clashes(IndexAfter(init[..k]), init[k]) {
        assert !Clashes(IndexAfter(es[..k]), es[k]);
      }
    }
  }

  lemma AlwaysRekeyedMore(init: seq<Event>, e: Event)
    ensures AlwaysRekeyed(init + [e]) <==> AlwaysRekeyed(init) && Rekeyed(IndexAfter(init + [e]))
  {
    var es := init + [e];
    Prefixes(init, e);
    if AlwaysRekeyed(es) {
      forall k: nat | k <= |init| ensures Rekeyed(IndexAfter(init[..k])) {
        assert Rekeyed(IndexAfter(es[..k]));
      }
    }
  }

  /** Over any sequence of events the maps are one throughout if and only if no event clashes. */
  lemma {:induction false} MapsAgreeThroughout(es: seq<Event>)
    requires AllOk(es)
    ensures AlwaysRekeyed(es) <==> ClashFree(es)
  {
    if es == [] {
      assert es[..0] == es;
    } else {
      var init, e := es[..|es| - 1], es[|es| - 1];
      assert es == init + [e];
      assert AllOk(init) && EventOk(e);
      MapsAgreeThroughout(init);
      ClashFreeMore(init, e);
      AlwaysRekeyedMore(init, e);
      HistoryOk(init);
      assert init[..|init|] == init;
      if AlwaysRekeyed(init) {
        assert Rekeyed(IndexAfter(init[..|init|]));
        StepRekeys(IndexAfter(init), e);
      }
    }
  }

  // ---- A condition on the ConfigMaps alone ----

  /** Each ConfigMap keeps one application, and no two share one. */
  ghost predicate OneToOne(es: seq<Event>) {
    forall e, f | e in es && f in es && e.Changed? && f.Changed? && e.loaded.Some? && f.loaded.Some? ::
      e.name == f.name <==> e.loaded.value.application == f.loaded.value.application
  }

  predicate WasLoaded(es: seq<Event>, n: string, t: Template) {
    Changed(n, Some(t)) in es
  }

  /** Everything in the maps was loaded, and is filed where it belongs. */
  ghost predicate FromLoads(es: seq<Event>, ix: Index) {
    && (forall n | n in ix.byName :: WasLoaded(es, n, ix.byName[n]) && ix.byName[n].configMapName == n)
    && (forall a | a in ix.byApplication ::
          && ix.byApplication[a].application == a
          && WasLoaded(es, ix.byApplication[a].configMapName, ix.byApplication[a]))
  }

  lemma {:induction false} Indexed(es: seq<Event>)
    requires AllOk(es)
    ensures FromLoads(es, IndexAfter(es))
  {
    if es != [] {
      var init, e := es[..|es| - 1], es[|es| - 1];
      assert es == init + [e];
      assert AllOk(init) && EventOk(e);
      Indexed(init);
      StepFromLoads(init, e, IndexAfter(init));
    }
  }

  lemma StepFromLoads(init: seq<Event>, e: Event, ix: Index)
    requires EventOk(e) && FromLoads(init, ix)
    ensures FromLoads(init + [e], Apply(ix, e))
  {
    forall n, t | WasLoaded(init, n, t) ensures WasLoaded(init + [e], n, t) {
    }
    assert e in init + [e];
  }

  /** Then no event can clash, and the maps are one throughout. */
  lemma MapsAgree(es: seq<Event>)
    requires AllOk(es) && OneToOne(es)
    ensures AlwaysRekeyed(es) && Rekeyed(IndexAfter(es))
  {
    forall k: nat | k < |es| ensures !Clashes(IndexAfter(es[..k]), es[k]) {
      OneToOneNeverClashes(es, k);
    }
    MapsAgreeThroughout(es);
    assert es[..|es|] == es;
  }

  lemma OneToOneNeverClashes(es: seq<Event>, k: nat)
    requires AllOk(es) && OneToOne(es) && k < |es|
    ensures !Clashes(IndexAfter(es[..k]), es[k])
  {
    var before := es[..k];
    assert forall e :: e in before ==> e in es;
    assert es[k] in es;
    Indexed(before);
    forall n, t | WasLoaded(before, n, t) ensures WasLoaded(es, n, t) {
    }
  }

  /** Clashes of both kinds: a ConfigMap that changes its application stays indexed under the old
      one as well, and deleting one of two ConfigMaps that share an application hides the other. */
  lemma MapsMayDiffer(t1: Template, t2: Template, t3: Template)
    requires t1.configMapName == "a" && t2.configMapName == "a" && t3.configMapName == "b"
    requires t1.application == "x" && t2.application == "y" && t3.application == "x"
    ensures var moved := IndexAfter([Changed("a", Some(t1)), Changed("a", Some(t2))]);
            "x" in moved.byApplication && moved.byApplication["x"] != moved.byName["a"]
    ensures var shared := IndexAfter([Changed("a", Some(t1)), Changed("b", Some(t3)), Deleted("a")]);
            "b" in shared.byName && shared.byName["b"].application !in shared.byApplication
  {
    var e1, e2, e3, e4 := Changed("a", Some(t1)), Changed("a", Some(t2)), Changed("b", Some(t3)), Deleted("a");
    assert [e1][..0] == [];
    assert IndexAfter([e1]) == Apply(EMPTY, e1);
    assert [e1, e2][..1] == [e1];
    assert [e1, e3][..1] == [e1];
    assert IndexAfter([e1, e3]) == Apply(IndexAfter([e1]), e3);
    assert [e1, e3, e4][..2] == [e1, e3];
  }
}

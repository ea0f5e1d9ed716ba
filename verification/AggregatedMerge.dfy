/** Merging annotation and label sources (templates/common/_aggregated-merge.tpl). */
module AggregatedMerge {
  import opened Wrappers

  datatype Value = Str(s: string) | NotString

  type Source = map<string, Value>

  /** `merged` takes over every entry of the source, unless one is not a string or contradicts it. */
  function AddSource(merged: map<string, string>, source: Source): Option<map<string, string>> {
    if forall k :: k in source ==> source[k].Str? && (k in merged ==> merged[k] == source[k].s)
    then Some(merged + map k | k in source :: if source[k].Str? then source[k].s else "")
    else None
  }

  function Merged(sources: seq<Source>): Option<map<string, string>> {
    if sources == [] then Some(map[])
    else
      match Merged(sources[..|sources| - 1])
      case None => None
      case Some(merged) => AddSource(merged, sources[|sources| - 1])
  }

  /** `None` where the template fails. The entries of one source may be taken in any order. */
  method Merge(sources: seq<Source>) returns (result: Option<map<string, string>>)
    ensures result == Merged(sources)
  {
    var merged: map<string, string> := map[];
    for i := 0 to |sources|
      invariant Merged(sources[..i]) == Some(merged)
    {
      assert sources[..i + 1][..i] == sources[..i];
      var source, before, left := sources[i], merged, sources[i].Keys;
      while left != {}
        invariant left <= source.Keys
        invariant merged.Keys == before.Keys + (source.Keys - left)
        invariant forall k :: k in source && k !in left ==> source[k] == Str(merged[k])
        invariant forall k :: k in before ==> merged[k] == before[k]
      {
        var key :| key in left;
        left := left - {key};
        if !source[key].Str? || (key in merged && merged[key] != source[key].s) {
          FailsForGood(sources, i + 1);
          return None;
        }
        merged := merged[key := source[key].s];
      }
      forall k | k in source ensures source[k] == Str(merged[k]) && (k in before ==> before[k] == source[k].s) {
      }
      assert merged == before + map k | k in source :: if source[k].Str? then source[k].s else "";
    }
    assert sources[..|sources|] == sources;
    result := Some(merged);
  }

  lemma {:induction false} FailsForGood(sources: seq<Source>, n: nat)
    requires n <= |sources| && Merged(sources[..n]) == None
    ensures Merged(sources) == None
    decreases |sources|
  {
    if n < |sources| {
      assert sources[..|sources| - 1][..n] == sources[..n];
      FailsForGood(sources[..|sources| - 1], n);
    } else {
      assert sources[..n] == sources;
    }
  }

  // ---- Which sources merge, and into what ----

  ghost predicate Mergeable(sources: seq<Source>) {
    && (forall i, k :: 0 <= i < |sources| && k in sources[i] ==> sources[i][k].Str?)
    && (forall i, j, k :: 0 <= i < |sources| && 0 <= j < |sources| && k in sources[i] && k in sources[j] ==>
          sources[i][k] == sources[j][k])
  }

  /** Some source holds this entry. */
  ghost predicate Holds(sources: seq<Source>, k: string, v: Value) {
    exists i :: 0 <= i < |sources| && k in sources[i] && sources[i][k] == v
  }

  ghost predicate IsUnion(merged: map<string, string>, sources: seq<Source>) {
    && (forall k :: k in merged ==> Holds(sources, k, Str(merged[k])))
    && (forall i, k :: 0 <= i < |sources| && k in sources[i] ==> k in merged && sources[i][k] == Str(merged[k]))
  }

  /** The merge succeeds exactly if all values are strings and all sources agree on shared keys, and
      then holds exactly the entries of the sources. */
  lemma {:induction false} MergedIsTheUnion(sources: seq<Source>)
    ensures Merged(sources).Some? <==> Mergeable(sources)
    ensures Merged(sources).Some? ==> IsUnion(Merged(sources).value, sources)
  {
    if sources != [] {
      var init, last := sources[..|sources| - 1], sources[|sources| - 1];
      MergedIsTheUnion(init);
      assert sources == init + [last];
      if Mergeable(sources) {
        assert Mergeable(init);
        var merged := Merged(init).value;
        forall k | k in last && k in merged ensures last[k] == Str(merged[k]) {
          var i :| 0 <= i < |init| && k in init[i] && init[i][k] == Str(merged[k]);
          assert sources[i] == init[i];
        }
        UnionGrows(merged, init, last);
      } else if Merged(sources).Some? {
        UnionGrows(Merged(init).value, init, last);
        UnionMeansMergeable(Merged(sources).value, sources);
      }
    }
  }

  lemma UnionGrows(merged: map<string, string>, init: seq<Source>, last: Source)
    requires IsUnion(merged, init) && AddSource(merged, last).Some?
    ensures IsUnion(AddSource(merged, last).value, init + [last])
  {
    var sources, more := init + [last], AddSource(merged, last).value;
    forall k | k in more ensures Holds(sources, k, Str(more[k])) {
      if k in last {
        assert sources[|init|] == last;
      } else {
        var i :| 0 <= i < |init| && k in init[i] && init[i][k] == Str(merged[k]);
        assert sources[i] == init[i];
      }
    }
  }

  lemma UnionMeansMergeable(merged: map<string, string>, sources: seq<Source>)
    requires IsUnion(merged, sources)
    ensures Mergeable(sources)
  {
    forall i, k | 0 <= i < |sources| && k in sources[i] ensures sources[i][k].Str? {
      assert sources[i][k] == Str(merged[k]);
    }
    forall i, j, k | 0 <= i < |sources| && 0 <= j < |sources| && k in sources[i] && k in sources[j]
      ensures sources[i][k] == sources[j][k]
    {
      assert sources[i][k] == Str(merged[k]) && sources[j][k] == Str(merged[k]);
    }
  }

  /** Only the set of sources matters: neither their order nor repetition. */
  lemma OrderAndRepetitionDoNotMatter(a: seq<Source>, b: seq<Source>)
    requires forall source :: source in a <==> source in b
    ensures Merged(a) == Merged(b)
  {
    MergedIsTheUnion(a);
    MergedIsTheUnion(b);
    if Mergeable(a) {
      SameMergeable(a, b);
      SubUnion(Merged(a).value, a, Merged(b).value, b);
      SubUnion(Merged(b).value, b, Merged(a).value, a);
      assert Merged(a).value == Merged(b).value;
    } else if Mergeable(b) {
      SameMergeable(b, a);
    }
  }

  lemma SameMergeable(a: seq<Source>, b: seq<Source>)
    requires Mergeable(a) && forall source :: source in b ==> source in a
    ensures Mergeable(b)
  {
    forall i, k | 0 <= i < |b| && k in b[i] ensures b[i][k].Str? {
      assert b[i] in a;
    }
    forall i, j, k | 0 <= i < |b| && 0 <= j < |b| && k in b[i] && k in b[j] ensures b[i][k] == b[j][k] {
      assert b[i] in a && b[j] in a;
    }
  }

  lemma SubUnion(m: map<string, string>, a: seq<Source>, n: map<string, string>, b: seq<Source>)
    requires IsUnion(m, a) && IsUnion(n, b) && forall source :: source in a ==> source in b
    ensures forall k :: k in m ==> k in n && n[k] == m[k]
  {
    forall k | k in m ensures k in n && n[k] == m[k] {
      var i :| 0 <= i < |a| && k in a[i] && a[i][k] == Str(m[k]);
      assert a[i] in b;
    }
  }
}

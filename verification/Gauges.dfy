/** The four gauges over the records the factory knows (internal/factory/metrics.go:221-235). */
module Gauges {
  import opened Wrappers
  import opened Records
  import opened Protocol
  import opened Coherence
  import opened Provenance

  datatype Gauge = All | CreatingGauge | ReadyGauge | ErroredGauge

  predicate Matches(g: Gauge, code: int) {
    match g
    case All => true
    case CreatingGauge => code == CREATING
    case ReadyGauge => code == READY
    case ErroredGauge => code > READY
  }

  /** The names counted by a gauge. */
  function Counted(s: State, g: Gauge): set<string>
    requires WF(s)
  {
    set n | n in s.odps && Matches(g, s.recs[s.odps[n]].resultCode)
  }

  /** Counting one name more. */
  lemma CountOneMore(counted: set<string>, seen: set<string>, name: string)
    requires name !in seen
    ensures |counted * (seen + {name})| == |counted * seen| + if name in counted then 1 else 0
  {
    if name in counted {
      assert counted * (seen + {name}) == counted * seen + {name};
    } else {
      assert counted * (seen + {name}) == counted * seen;
    }
  }

  /** In every reachable state the three gauges split the records known, and All counts them. */
  lemma GaugesPartition(ss: seq<State>, ls: seq<Label>, k: nat)
    requires IsHistory(ss, ls) && k < |ss|
    ensures var s := ss[k];
            && |Counted(s, All)| == |Counted(s, CreatingGauge)| + |Counted(s, ReadyGauge)| + |Counted(s, ErroredGauge)|
            && |Counted(s, All)| == |s.odps|
  {
    RunGrows(ss, ls, k, k);
    Partition(ss[k]);
  }

  lemma Partition(s: State)
    requires WF(s) && Coherent(s)
    ensures |Counted(s, All)| == |Counted(s, CreatingGauge)| + |Counted(s, ReadyGauge)| + |Counted(s, ErroredGauge)|
    ensures |Counted(s, All)| == |s.odps|
  {
    var creating, ready, errored := Counted(s, CreatingGauge), Counted(s, ReadyGauge), Counted(s, ErroredGauge);
    forall n | n in s.odps ensures n in creating + ready + errored {
      assert CoherentRec(s.recs[s.odps[n]], s.now);
    }
    assert creating !! ready && (creating + ready) !! errored;
    assert Counted(s, All) == (creating + ready) + errored;
    assert Counted(s, All) == s.odps.Keys;
  }

  lemma CountedByCode(s: State, name: string)
    requires WF(s) && name in s.odps
    ensures name in Counted(s, All)
    ensures name in Counted(s, CreatingGauge) <==> s.recs[s.odps[name]].resultCode == -1
    ensures name in Counted(s, ReadyGauge) <==> s.recs[s.odps[name]].resultCode == 0
    ensures name in Counted(s, ErroredGauge) <==> s.recs[s.odps[name]].resultCode > 0
  {
  }

  /** In every history, a name is counted as being created if no step has set its record's code, as ready
      if the last that did acted on a Running event, and as errored if it was a failure. */
  lemma GaugesFollowOutcomes(ss: seq<State>, ls: seq<Label>, k: nat, name: string) returns (j: nat, a: Option<nat>)
    requires IsHistory(ss, ls) && k < |ss| && name in ss[k].odps
    ensures var s, i := ss[k], ss[k].odps[name];
            && j < k && MakesRecord(ss[j], ls[j], ss[j + 1], i)
            && (a.None? ==> forall m | j < m < k :: !Sets(Code, ss[m], ls[m], i))
            && (a.Some? ==> LastSetter(Code, ss, ls, i, j, k, a.value))
            && name in Counted(s, All)
            && (name in Counted(s, CreatingGauge) <==> a.None?)
            && (name in Counted(s, ReadyGauge) <==> a.Some? && Dispatches(ss[a.value], ls[a.value], i, Running))
            && (name in Counted(s, ErroredGauge) <==> a.Some? && Fails(ss[a.value], ls[a.value], i))
  {
    var i := ss[k].odps[name];
    j := RecordIsMade(ss, ls, i, k);
    a := CodeIsLastOutcome(ss, ls, i, j, k);
    CountedByCode(ss[k], name);
    if a.Some? {
      OneOutcome(ss[a.value], ls[a.value], i);
    }
  }

  /** No step both shows a Pod running and fails. */
  lemma OneOutcome(s: State, l: Label, i: nat)
    ensures !(Dispatches(s, l, i, Running) && Fails(s, l, i))
  {
  }
}

/** How long a record answers for its name. */
module Retention {
  import opened Wrappers
  import opened Records
  import opened Protocol
  import opened Coherence

  /** The step in which a Succeeded event takes the name away. */
  ghost predicate EndsWell(s: State, l: Label, name: string)
    requires WF(s) && Enabled(s, l)
  {
    l.Work? && l.act.Dispatch? && s.threads[l.tid].name == name && s.threads[l.tid].pod.phase.Succeeded?
  }

  /** The steps that may take away a record whose error has expired. */
  ghost predicate Replaces(s: State, l: Label, name: string)
    requires WF(s)
  {
    !Usable(s, name) && ((l.Request? && l.name == name) || (l.PodEvent? && l.name == name && l.obj.None?))
  }

  ghost predicate Keeps(s: State, s': State, name: string)
    requires name in s.odps
  {
    name in s'.odps && s'.odps[name] == s.odps[name]
  }

  /** One step keeps the record of a name exactly when it is neither of those steps. */
  lemma StepRetains(s: State, l: Label, name: string)
    requires WF(s) && Enabled(s, l) && name in s.odps
    ensures Keeps(s, Next(s, l), name) <==> !EndsWell(s, l, name) && !Replaces(s, l, name)
  {
    match l
    case Work(tid, act) => DropsOnlyAtSuccess(s, tid, act);
    case Request(tid, other, p) => RequestRetains(s, tid, other, p, name);
    case PodEvent(tid, other, obj) => PodEventRetains(s, tid, other, obj, name);
    case _ => assert Next(s, l).odps == s.odps;
  }

  lemma RequestRetains(s: State, tid: nat, other: string, p: Param, name: string)
    requires WF(s) && name in s.odps
    ensures Keeps(s, NextRequest(s, tid, other, p), name) <==> !(other == name && !Usable(s, name))
  {
  }

  lemma PodEventRetains(s: State, tid: nat, other: string, obj: Option<Pod>, name: string)
    requires WF(s) && name in s.odps
    ensures Keeps(s, NextPodEvent(s, tid, other, obj), name) <==> !(other == name && obj.None? && !Usable(s, name))
  {
  }

  lemma DropsOnlyAtSuccess(s: State, tid: nat, act: Act)
    requires WF(s) && Enabled(s, Work(tid, act))
    ensures var e := EffectOf(s, tid, act);
            && (e.drops <==> act.Dispatch? && s.threads[tid].pod.phase.Succeeded?)
            && (e.drops ==> e.pc.name == s.threads[tid].name)
  {
  }

  ghost predicate NoSuccess(ss: seq<State>, ls: seq<Label>, name: string)
    requires IsRun(ss, ls)
  {
    forall k | 0 <= k < |ls| :: !EndsWell(ss[k], ls[k], name)
  }

  /** While its record is usable at every step, a name keeps it. */
  lemma {:induction false} UsableIsRetained(ss: seq<State>, ls: seq<Label>, name: string, k: nat)
    requires IsRun(ss, ls) && Coherent(ss[0]) && name in ss[0].odps && NoSuccess(ss, ls, name) && k < |ss|
    requires forall j | 0 <= j < k && ss[0].odps[name] < |ss[j].recs| ::
               !ErrorExpired(ss[j].recs[ss[0].odps[name]], ss[j].now, ss[j].errorTTL)
    ensures Keeps(ss[0], ss[k], name)
  {
    if k == 0 {
    } else {
      UsableIsRetained(ss, ls, name, k - 1);
      StepRetains(ss[k - 1], ls[k - 1], name);
    }
  }

  /** A record without an error is never removed or replaced, but for a Succeeded event. */
  lemma ErrorFreeIsRetained(ss: seq<State>, ls: seq<Label>, name: string, k: nat)
    requires IsRun(ss, ls) && Coherent(ss[0]) && name in ss[0].odps && NoSuccess(ss, ls, name) && k < |ss|
    requires ss[0].odps[name] < |ss[k].recs| ==> ss[k].recs[ss[0].odps[name]].errorTime.None?
    ensures Keeps(ss[0], ss[k], name)
  {
    var id := ss[0].odps[name];
    RunGrows(ss, ls, 0, k);
    forall j | 0 <= j < k ensures id < |ss[j].recs| && ss[j].recs[id].errorTime.None? {
      RunGrows(ss, ls, 0, j);
      RunGrows(ss, ls, j, k);
    }
    UsableIsRetained(ss, ls, name, k);
  }

  /** An errored record is kept until more than errorTTL seconds after its error was set. */
  lemma ErroredIsRetained(ss: seq<State>, ls: seq<Label>, name: string, k: nat)
    requires IsRun(ss, ls) && Coherent(ss[0]) && name in ss[0].odps && NoSuccess(ss, ls, name) && k < |ss|
    requires var r := ss[0].recs[ss[0].odps[name]];
             r.errorTime.Some? && ss[k].now - r.errorTime.value <= ss[0].errorTTL * SECOND
    ensures Keeps(ss[0], ss[k], name)
    ensures ss[0].odps[name] < |ss[k].recs| && ss[k].recs[ss[0].odps[name]].errorTime.Some? && Usable(ss[k], name)
  {
    var id := ss[0].odps[name];
    forall j | 0 <= j <= k
      ensures id < |ss[j].recs| && ss[j].recs[id].errorTime.Some?
      ensures !ErrorExpired(ss[j].recs[id], ss[j].now, ss[j].errorTTL)
    {
      RunGrows(ss, ls, 0, j);
      RunGrows(ss, ls, j, k);
    }
    UsableIsRetained(ss, ls, name, k);
  }

  /** A request for a usable record is answered with that record, and nothing is ever sent for it. */
  lemma UsableAnswers(ss: seq<State>, ls: seq<Label>, j: nat, k: nat)
    requires IsRun(ss, ls) && Coherent(ss[0]) && j < k < |ss|
    requires ls[j].Request? && Usable(ss[j], ls[j].name)
    ensures ls[j].tid in ss[k].threads
    ensures var pc := ss[k].threads[ls[j].tid];
            pc.Asking? && pc.id == ss[j].odps[ls[j].name] && (pc.ask == ToCheck || pc.ask == Returned)
    ensures ss[j + 1].recs == ss[j].recs && ss[j + 1].channel == ss[j].channel && ss[j + 1].sent == ss[j].sent
  {
    assert ss[j + 1] == Next(ss[j], ls[j]);
    RunGrows(ss, ls, j + 1, k);
    assert PcGrows(ss[j + 1].threads[ls[j].tid], ss[k].threads[ls[j].tid]);
    assert PcOk(ss[k], ss[k].threads[ls[j].tid]);
  }

  /** An errored record answers every request that comes within errorTTL seconds of its error,
      with itself and without queueing anything. */
  lemma ErroredAnswers(ss: seq<State>, ls: seq<Label>, name: string, j: nat)
    requires IsRun(ss, ls) && Coherent(ss[0]) && name in ss[0].odps && NoSuccess(ss, ls, name) && j < |ls|
    requires var r := ss[0].recs[ss[0].odps[name]];
             r.errorTime.Some? && ss[j].now - r.errorTime.value <= ss[0].errorTTL * SECOND
    requires ls[j].Request? && ls[j].name == name
    ensures ls[j].tid in ss[|ls|].threads
    ensures var pc := ss[|ls|].threads[ls[j].tid];
            pc.Asking? && pc.id == ss[0].odps[name] && (pc.ask == ToCheck || pc.ask == Returned)
    ensures ss[j + 1].recs == ss[j].recs && ss[j + 1].channel == ss[j].channel && ss[j + 1].sent == ss[j].sent
  {
    ErroredIsRetained(ss, ls, name, j);
    UsableAnswers(ss, ls, j, |ls|);
  }

  /** The first request that finds no usable record makes exactly one fresh record; while that one
      has no error, every later request for the name, by whatever thread, gets it and makes none. */
  lemma FirstRequestWins(ss: seq<State>, ls: seq<Label>, name: string, j: nat)
    requires IsRun(ss, ls) && Coherent(ss[0]) && NoSuccess(ss, ls, name) && 1 <= j < |ls|
    requires ls[0].Request? && ls[0].name == name && !Usable(ss[0], name)
    requires |ss[0].recs| < |ss[j].recs| ==> ss[j].recs[|ss[0].recs|].errorTime.None?
    requires ls[j].Request? && ls[j].name == name
    ensures ss[1].recs == ss[0].recs + [Requested(name, ls[0].param)]
    ensures ss[1].threads[ls[0].tid] == Asking(|ss[0].recs|, true, ToCheck)
    ensures ss[j + 1].recs == ss[j].recs
    ensures ss[j + 1].threads[ls[j].tid] == Asking(|ss[0].recs|, false, ToCheck)
  {
    var ss', ls' := ss[1..], ls[1..];
    assert ss[1] == Next(ss[0], ls[0]);
    forall k | 0 <= k < |ls'| ensures Enabled(ss'[k], ls'[k]) && ss'[k + 1] == Next(ss'[k], ls'[k]) {
      assert ss'[k] == ss[k + 1] && ls'[k] == ls[k + 1] && ss'[k + 1] == ss[k + 1 + 1];
    }
    assert IsRun(ss', ls');
    assert NoSuccess(ss', ls', name);
    RunGrows(ss, ls, 0, 1);
    ErrorFreeIsRetained(ss', ls', name, j - 1);
    RunGrows(ss, ls, 1, j);
  }
}

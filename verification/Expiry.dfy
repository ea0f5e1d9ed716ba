/** When a record's error has lived long enough: what the next request and the next event make of it. */
module Expiry {
  import opened Wrappers
  import opened Records
  import opened Protocol
  import opened Coherence
  import opened Retention
  import opened Lookups
  import opened Provenance

  // ---- One step ----

  /** A request for the name of a record with an error gets a fresh record, filed in its place, if and
      only if the error was set more than errorTTL seconds ago; otherwise it gets the old one. */
  lemma RequestReplacesExactly(s: State, tid: nat, name: string, p: Param, e: int)
    requires WF(s) && tid !in s.threads && name in s.odps && s.recs[s.odps[name]].errorTime == Some(e)
    ensures var s' := Next(s, Request(tid, name, p));
            if s.now - e > s.errorTTL * 1_000_000_000 then
              && |s'.recs| == |s.recs| + 1 && s'.recs[..|s.recs|] == s.recs && s'.odps == s.odps[name := |s.recs|]
              && |s'.origin| == |s'.recs|
              && Made(Request(tid, name, p), s'.recs[|s.recs|], s'.origin[|s.recs|])
              && s'.threads == s.threads[tid := Asking(|s.recs|, true, ToCheck)]
            else
              && s'.recs == s.recs && s'.odps == s.odps
              && s'.threads == s.threads[tid := Asking(s.odps[name], false, ToCheck)]
  {
    assert Next(s, Request(tid, name, p)) == NextRequest(s, tid, name, p);
  }

  /** When the Pod of such a record is gone, the name is removed under the same condition. */
  lemma GoneRemovesExactly(s: State, tid: nat, name: string, e: int)
    requires WF(s) && tid !in s.threads && name in s.odps && s.recs[s.odps[name]].errorTime == Some(e)
    ensures var s' := Next(s, PodEvent(tid, name, None));
            && s'.recs == s.recs
            && s'.odps == if s.now - e > s.errorTTL * 1_000_000_000 then s.odps - {name} else s.odps
  {
    assert Next(s, PodEvent(tid, name, None)) == NextPodGone(s, tid, name);
  }

  // ---- Over a run ----

  /** A request for the name, or the news that its Pod is gone. */
  predicate Asks(l: Label, name: string) {
    (l.Request? && l.name == name) || (l.PodEvent? && l.name == name && l.obj.None?)
  }

  /** The step takes the name from record `i`: a Succeeded event, or one of those when the record's error
      was set more than errorTTL seconds before. */
  predicate TakesAway(s: State, l: Label, name: string, i: nat) {
    || (l.Work? && l.act.Dispatch? && l.tid in s.threads && s.threads[l.tid].Handling? &&
        s.threads[l.tid].name == name && s.threads[l.tid].pod.phase.Succeeded?)
    || (Asks(l, name) && i < |s.recs| && s.recs[i].errorTime.Some? &&
        s.now - s.recs[i].errorTime.value > s.errorTTL * 1_000_000_000)
  }

  lemma DisplacesExactly(s: State, l: Label, name: string, i: nat)
    requires WF(s) && Enabled(s, l) && Filed(s, name, i)
    ensures Displaces(s, l, name) <==> TakesAway(s, l, name, i)
  {
  }

  /** No step from `a` to before `b` takes the name away. */
  predicate LeftAlone(ss: seq<State>, ls: seq<Label>, name: string, i: nat, a: nat, b: nat)
    requires b <= |ls| < |ss|
    decreases b
  {
    b <= a || (!TakesAway(ss[b - 1], ls[b - 1], name, i) && LeftAlone(ss, ls, name, i, a, b - 1))
  }

  lemma {:induction false} LeftAloneMeans(ss: seq<State>, ls: seq<Label>, name: string, i: nat, a: nat, b: nat)
    requires b <= |ls| < |ss|
    ensures LeftAlone(ss, ls, name, i, a, b) <==> forall k | a <= k < b :: !TakesAway(ss[k], ls[k], name, i)
    decreases b
  {
    if a < b {
      LeftAloneMeans(ss, ls, name, i, a, b - 1);
    }
  }

  lemma FiledStepExactly(ss: seq<State>, ls: seq<Label>, name: string, i: nat, k: nat)
    requires IsRun(ss, ls) && k < |ls| && i < |ss[k].recs|
    ensures i < |ss[k + 1].recs|
    ensures Filed(ss[k + 1], name, i) <==> Filed(ss[k], name, i) && !TakesAway(ss[k], ls[k], name, i)
  {
    assert Enabled(ss[k], ls[k]) && ss[k + 1] == Next(ss[k], ls[k]);
    OthersLeaveRecord(ss[k], ls[k], i);
    if Filed(ss[k], name, i) {
      FiledStep(ss[k], ls[k], name, i);
      DisplacesExactly(ss[k], ls[k], name, i);
    } else {
      NeverFiledAgain(ss[k], ls[k], name, i);
    }
  }

  /** Each step from `a` to before `b` leaves the name to the record unless it takes it away. */
  ghost predicate FiledStepwise(ss: seq<State>, ls: seq<Label>, name: string, i: nat, a: nat, b: nat)
    requires b <= |ls| < |ss|
    decreases b
  {
    i < |ss[b].recs| &&
    (b <= a || (&& FiledStepwise(ss, ls, name, i, a, b - 1)
                && (Filed(ss[b], name, i) <==>
                    Filed(ss[b - 1], name, i) && !TakesAway(ss[b - 1], ls[b - 1], name, i))))
  }

  lemma {:induction false} RunIsStepwise(ss: seq<State>, ls: seq<Label>, name: string, i: nat, a: nat, b: nat)
    requires IsRun(ss, ls) && a <= b < |ss| && i < |ss[a].recs|
    ensures FiledStepwise(ss, ls, name, i, a, b)
    decreases b
  {
    if a < b {
      RunIsStepwise(ss, ls, name, i, a, b - 1);
      FiledStepExactly(ss, ls, name, i, b - 1);
    }
  }

  lemma {:induction false} StepwiseIsExact(ss: seq<State>, ls: seq<Label>, name: string, i: nat, a: nat, b: nat)
    requires a <= b <= |ls| < |ss| && FiledStepwise(ss, ls, name, i, a, b) && Filed(ss[a], name, i)
    ensures Filed(ss[b], name, i) <==> LeftAlone(ss, ls, name, i, a, b)
    decreases b
  {
    if a < b {
      StepwiseIsExact(ss, ls, name, i, a, b - 1);
    }
  }

  /** Over any run: a record stays filed under its name if and only if no Succeeded event of the name was
      acted on, and no request for it and no news that its Pod is gone came more than errorTTL seconds
      after the error that the record then had. */
  lemma FiledExactly(ss: seq<State>, ls: seq<Label>, name: string, i: nat, a: nat, b: nat)
    requires IsRun(ss, ls) && a <= b < |ss| && Filed(ss[a], name, i) && i < |ss[a].recs|
    ensures Filed(ss[b], name, i) <==> LeftAlone(ss, ls, name, i, a, b)
  {
    RunIsStepwise(ss, ls, name, i, a, b);
    StepwiseIsExact(ss, ls, name, i, a, b);
  }

  /** The upper half of the time an error lives: if the record of a name got no later error, the first
      request for the name after errorTTL seconds makes the name a fresh record, which its caller gets. */
  lemma ExpiredIsReplaced(ss: seq<State>, ls: seq<Label>, name: string, i: nat, e: int, k: nat)
    requires IsRun(ss, ls) && k < |ls| && Filed(ss[k], name, i) && i < |ss[k].recs|
    requires ss[k].recs[i].errorTime == Some(e) && ls[k].Request? && ls[k].name == name
    ensures if ss[k].now - e > ss[k].errorTTL * 1_000_000_000
            then |ss[k].recs| < |ss[k + 1].recs| && Filed(ss[k + 1], name, |ss[k].recs|) &&
                 ss[k + 1].recs[|ss[k].recs|].errorTime.None? && WorksFor(ss[k + 1], ls[k].tid, |ss[k].recs|, true)
            else ss[k + 1].recs == ss[k].recs && Filed(ss[k + 1], name, i) && WorksFor(ss[k + 1], ls[k].tid, i, false)
  {
    assert Enabled(ss[k], ls[k]) && ss[k + 1] == Next(ss[k], ls[k]);
    RequestReplacesExactly(ss[k], ls[k].tid, name, ls[k].param, e);
  }

  /** The caller has got this record, and has its name to send if it made it. */
  predicate WorksFor(s: State, t: nat, i: nat, made: bool) {
    t in s.threads && s.threads[t] == Asking(i, made, ToCheck)
  }
}

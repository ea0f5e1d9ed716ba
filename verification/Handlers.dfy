/** What the handler of a Pod event does, from the event to its end. */
module Handlers {
  import opened Wrappers
  import opened Records
  import opened Protocol
  import opened Coherence
  import opened Pipeline
  import opened Provenance
  import opened Tokens

  // ---- Where a handler comes from ----

  predicate StartsHandler(s: State, l: Label, s': State, t: nat, pc: Pc) {
    && pc.Handling? && t !in s.threads && l == PodEvent(t, pc.name, Some(pc.pod))
    && t in s'.threads && s'.threads[t].Handling? && s'.threads[t].id == pc.id
    && s'.threads[t] == pc.(at := if |s.recs| < |s'.recs| then ToReload else ToDispatch)
  }

  lemma HandlerBegins(s: State, l: Label, t: nat)
    requires WF(s) && Enabled(s, l) && Coherent(s) && t in Next(s, l).threads && Next(s, l).threads[t].Handling?
    ensures if t in s.threads then s.threads[t].Handling? && PcGrows(s.threads[t], Next(s, l).threads[t])
            else StartsHandler(s, l, Next(s, l), t, Next(s, l).threads[t])
  {
    StepGrows(s, l);
    StepOneThread(s, l);
    if t in s.threads {
      HandlerStays(s, l, t);
    } else {
      HandlerIsNew(s, l, t);
    }
  }

  lemma HandlerStays(s: State, l: Label, t: nat)
    requires WF(s) && Enabled(s, l) && t in s.threads && t in Next(s, l).threads && Next(s, l).threads[t].Handling?
    requires PcGrows(s.threads[t], Next(s, l).threads[t])
    ensures s.threads[t].Handling?
  {
  }

  lemma OnlyEventsStartHandlers(s: State, l: Label, t: nat)
    requires WF(s) && Enabled(s, l) && t !in s.threads && t in Next(s, l).threads
    ensures l.Request? || l.Receive? || l.PodEvent?
    ensures Next(s, l).threads[t].Handling? ==> l.PodEvent?
  {
    StepOneThread(s, l);
    if l.Request? {
      assert Next(s, l) == NextRequest(s, l.tid, l.name, l.param);
    }
  }

  lemma HandlerIsNew(s: State, l: Label, t: nat)
    requires WF(s) && Enabled(s, l) && t !in s.threads && t in Next(s, l).threads && Next(s, l).threads[t].Handling?
    ensures StartsHandler(s, l, Next(s, l), t, Next(s, l).threads[t])
  {
    StepOneThread(s, l);
    OnlyEventsStartHandlers(s, l, t);
    assert Next(s, l) == NextPodEvent(s, t, l.name, l.obj);
  }

  /** Every handler was started by one Pod event, whose name and Pod it holds. */
  lemma {:induction false} HandlerHasEvent(ss: seq<State>, ls: seq<Label>, t: nat, k: nat) returns (j: nat)
    requires IsHistory(ss, ls) && k < |ss| && t in ss[k].threads && ss[k].threads[t].Handling?
    ensures j < k && StartsHandler(ss[j], ls[j], ss[j + 1], t, ss[k].threads[t])
  {
    assert k > 0;
    HandlerBefore(ss, ls, t, k);
    if t in ss[k - 1].threads {
      j := HandlerHasEvent(ss, ls, t, k - 1);
    } else {
      j := k - 1;
    }
  }

  lemma HandlerBefore(ss: seq<State>, ls: seq<Label>, t: nat, k: nat)
    requires IsHistory(ss, ls) && 0 < k < |ss| && t in ss[k].threads && ss[k].threads[t].Handling?
    ensures if t in ss[k - 1].threads
            then ss[k - 1].threads[t].Handling? && PcGrows(ss[k - 1].threads[t], ss[k].threads[t])
            else StartsHandler(ss[k - 1], ls[k - 1], ss[k], t, ss[k].threads[t])
  {
    assert Enabled(ss[k - 1], ls[k - 1]) && ss[k] == Next(ss[k - 1], ls[k - 1]);
    RunGrows(ss, ls, k - 1, k - 1);
    HandlerBegins(ss[k - 1], ls[k - 1], t);
  }

  // ---- The order of its steps ----

  /** The acts of one thread. */
  function ActsOf(ls: seq<Label>, t: nat, k: nat): seq<Act>
    requires k <= |ls|
  {
    if k == 0 then []
    else ActsOf(ls, t, k - 1) + if ls[k - 1].Work? && ls[k - 1].tid == t then [ls[k - 1].act] else []
  }

  /** A handler that made its record reads the Pod's annotations back first. */
  predicate Begins(acts: seq<Act>, isNew: bool) {
    if isNew then acts == [Reload] || (|acts| == 2 && acts[0] == Reload && acts[1].ReadToken?) else acts == []
  }

  /** The acts are those of the beginning and then these. */
  predicate Ends(acts: seq<Act>, tail: seq<Act>, isNew: bool) {
    if tail == [] then Begins(acts, isNew)
    else acts != [] && acts[|acts| - 1] == tail[|tail| - 1] && Ends(acts[..|acts| - 1], tail[..|tail| - 1], isNew)
  }

  function Finishing(pod: Pod): seq<Act> {
    if pod.phase.Succeeded? then [Dispatch, Stamp] else [Dispatch]
  }

  /** The acts a handler has taken when it is at this stage: it dispatches on the phase; for a finished Pod
      it goes on to stamp one that succeeded, to release the token and clear its name if there is one,
      and to delete the Pod. */
  predicate Path(acts: seq<Act>, pod: Pod, at: HandleStage, isNew: bool) {
    match at
    case ToReload => isNew && acts == []
    case ToReadToken => isNew && acts == [Reload]
    case ToDispatch => Begins(acts, isNew)
    case ToStamp => pod.phase.Succeeded? && Ends(acts, [Dispatch], isNew)
    case ToRelease => Finished(pod) && Ends(acts, Finishing(pod), isNew)
    case ToClear => Finished(pod) && Ends(acts, Finishing(pod) + [Release], isNew)
    case ToDelete =>
      Finished(pod) && (Ends(acts, Finishing(pod) + [Release], isNew) ||
                        Ends(acts, Finishing(pod) + [Release, Clear], isNew))
    case Handled =>
      if Finished(pod)
      then Ends(acts, Finishing(pod) + [Release, DeletePod], isNew) ||
           Ends(acts, Finishing(pod) + [Release, Clear, DeletePod], isNew)
      else Ends(acts, [Dispatch], isNew)
  }

  lemma EndsMore(acts: seq<Act>, tail: seq<Act>, act: Act, isNew: bool)
    requires Ends(acts, tail, isNew)
    ensures Ends(acts + [act], tail + [act], isNew)
  {
    assert (acts + [act])[..|acts|] == acts && (tail + [act])[..|tail|] == tail;
  }

  lemma EndsHere(acts: seq<Act>, act: Act, isNew: bool)
    requires Begins(acts, isNew)
    ensures Ends(acts + [act], [act], isNew)
  {
    assert Ends(acts, [], isNew);
    EndsMore(acts, [], act, isNew);
    assert [] + [act] == [act];
  }

  lemma BeginningPath(s: State, tid: nat, act: Act, acts: seq<Act>, isNew: bool)
    requires WF(s) && Enabled(s, Work(tid, act)) && s.threads[tid].Handling?
    requires act.Reload? || act.ReadToken? || act.Dispatch?
    requires Path(acts, s.threads[tid].pod, s.threads[tid].at, isNew)
    ensures Path(acts + [act], s.threads[tid].pod, EffectOf(s, tid, act).pc.at, isNew)
  {
    if act.Dispatch? {
      EndsHere(acts, act, isNew);
    }
  }

  lemma StampPath(s: State, tid: nat, acts: seq<Act>, isNew: bool)
    requires WF(s) && Enabled(s, Work(tid, Stamp)) && Path(acts, s.threads[tid].pod, ToStamp, isNew)
    ensures Path(acts + [Stamp], s.threads[tid].pod, EffectOf(s, tid, Stamp).pc.at, isNew)
  {
    EndsMore(acts, [Dispatch], Stamp, isNew);
  }

  lemma ReleasePath(s: State, tid: nat, acts: seq<Act>, isNew: bool)
    requires WF(s) && Enabled(s, Work(tid, Release)) && Path(acts, s.threads[tid].pod, ToRelease, isNew)
    ensures Path(acts + [Release], s.threads[tid].pod, EffectOf(s, tid, Release).pc.at, isNew)
  {
    EndsMore(acts, Finishing(s.threads[tid].pod), Release, isNew);
  }

  lemma ClearPath(s: State, tid: nat, acts: seq<Act>, isNew: bool)
    requires WF(s) && Enabled(s, Work(tid, Clear)) && Path(acts, s.threads[tid].pod, ToClear, isNew)
    ensures Path(acts + [Clear], s.threads[tid].pod, EffectOf(s, tid, Clear).pc.at, isNew)
  {
    var finishing := Finishing(s.threads[tid].pod);
    EndsMore(acts, finishing + [Release], Clear, isNew);
    assert finishing + [Release] + [Clear] == finishing + [Release, Clear];
  }

  lemma DeletePath(s: State, tid: nat, acts: seq<Act>, isNew: bool)
    requires WF(s) && Enabled(s, Work(tid, DeletePod)) && Path(acts, s.threads[tid].pod, ToDelete, isNew)
    ensures Path(acts + [DeletePod], s.threads[tid].pod, EffectOf(s, tid, DeletePod).pc.at, isNew)
  {
    assert EffectOf(s, tid, DeletePod).pc.at == Handled;
    DeleteEnds(acts, Finishing(s.threads[tid].pod), isNew);
  }

  /** Both ways to the deletion of the Pod. */
  lemma DeleteEnds(acts: seq<Act>, finishing: seq<Act>, isNew: bool)
    ensures Ends(acts, finishing + [Release], isNew) ==>
              Ends(acts + [DeletePod], finishing + [Release, DeletePod], isNew)
    ensures Ends(acts, finishing + [Release, Clear], isNew) ==>
              Ends(acts + [DeletePod], finishing + [Release, Clear, DeletePod], isNew)
  {
    if Ends(acts, finishing + [Release], isNew) {
      EndsMore(acts, finishing + [Release], DeletePod, isNew);
      assert finishing + [Release] + [DeletePod] == finishing + [Release, DeletePod];
    }
    if Ends(acts, finishing + [Release, Clear], isNew) {
      EndsMore(acts, finishing + [Release, Clear], DeletePod, isNew);
      assert finishing + [Release, Clear] + [DeletePod] == finishing + [Release, Clear, DeletePod];
    }
  }

  lemma EndingPath(s: State, tid: nat, act: Act, acts: seq<Act>, isNew: bool)
    requires WF(s) && Enabled(s, Work(tid, act)) && s.threads[tid].Handling?
    requires act.Stamp? || act.Release? || act.Clear? || act.DeletePod?
    requires Path(acts, s.threads[tid].pod, s.threads[tid].at, isNew)
    ensures Path(acts + [act], s.threads[tid].pod, EffectOf(s, tid, act).pc.at, isNew)
  {
    match act
    case Stamp => StampPath(s, tid, acts, isNew);
    case Release => ReleasePath(s, tid, acts, isNew);
    case Clear => ClearPath(s, tid, acts, isNew);
    case DeletePod => DeletePath(s, tid, acts, isNew);
  }

  lemma StepPath(s: State, l: Label, t: nat, acts: seq<Act>, isNew: bool)
    requires WF(s) && Enabled(s, l) && t in s.threads && s.threads[t].Handling?
    requires Path(acts, s.threads[t].pod, s.threads[t].at, isNew)
    ensures t in Next(s, l).threads && Next(s, l).threads[t].Handling?
    ensures Next(s, l).threads[t].name == s.threads[t].name && Next(s, l).threads[t].pod == s.threads[t].pod
    ensures Path(acts + if l.Work? && l.tid == t then [l.act] else [], s.threads[t].pod, Next(s, l).threads[t].at,
                 isNew)
  {
    StepOneThread(s, l);
    if l.Work? && l.tid == t {
      OwnPath(s, t, l.act, acts, isNew);
    } else {
      assert acts + [] == acts && Next(s, l).threads[t] == s.threads[t];
    }
  }

  lemma OwnPath(s: State, t: nat, act: Act, acts: seq<Act>, isNew: bool)
    requires WF(s) && Enabled(s, Work(t, act)) && s.threads[t].Handling?
    requires Path(acts, s.threads[t].pod, s.threads[t].at, isNew)
    ensures Next(s, Work(t, act)).threads[t] == EffectOf(s, t, act).pc
    ensures var e := EffectOf(s, t, act);
            e.pc.Handling? && e.pc.name == s.threads[t].name && e.pc.pod == s.threads[t].pod
    ensures Path(acts + [act], s.threads[t].pod, EffectOf(s, t, act).pc.at, isNew)
  {
    HandlingStays(s, t, act);
    if act.Reload? || act.ReadToken? || act.Dispatch? {
      BeginningPath(s, t, act, acts, isNew);
    } else {
      EndingPath(s, t, act, acts, isNew);
    }
  }

  lemma HandlingStays(s: State, t: nat, act: Act)
    requires WF(s) && Enabled(s, Work(t, act)) && s.threads[t].Handling?
    ensures Next(s, Work(t, act)).threads[t] == EffectOf(s, t, act).pc
    ensures var e := EffectOf(s, t, act);
            e.pc.Handling? && e.pc.name == s.threads[t].name && e.pc.pod == s.threads[t].pod
  {
  }

  lemma {:induction false} NoActBefore(ss: seq<State>, ls: seq<Label>, t: nat, j: nat)
    requires IsHistory(ss, ls) && j < |ss| && t !in ss[j].threads
    ensures ActsOf(ls, t, j) == []
  {
    if j > 0 {
      RunGrows(ss, ls, j - 1, j);
      NoActBefore(ss, ls, t, j - 1);
      assert Enabled(ss[j - 1], ls[j - 1]);
    }
  }

  /** The thread handles this event, and its acts so far are those of its path. */
  predicate OnPath(ss: seq<State>, ls: seq<Label>, t: nat, k: nat, name: string, pod: Pod, isNew: bool) {
    && k < |ss| && k <= |ls| && t in ss[k].threads && ss[k].threads[t].Handling?
    && ss[k].threads[t].name == name && ss[k].threads[t].pod == pod
    && Path(ActsOf(ls, t, k), pod, ss[k].threads[t].at, isNew)
  }

  /** No step from the j-th state on leads off the path. */
  predicate KeepsToPath(ss: seq<State>, ls: seq<Label>, t: nat, j: nat, k: nat, name: string, pod: Pod, isNew: bool) {
    k <= j || (&& KeepsToPath(ss, ls, t, j, k - 1, name, pod, isNew)
               && (OnPath(ss, ls, t, k - 1, name, pod, isNew) ==> OnPath(ss, ls, t, k, name, pod, isNew)))
  }

  lemma {:induction false} HistoryKeepsToPath(ss: seq<State>, ls: seq<Label>, t: nat, j: nat, k: nat, name: string,
                                              pod: Pod, isNew: bool)
    requires IsHistory(ss, ls) && k < |ss|
    ensures KeepsToPath(ss, ls, t, j, k, name, pod, isNew)
    decreases k
  {
    if j < k {
      HistoryKeepsToPath(ss, ls, t, j, k - 1, name, pod, isNew);
      if OnPath(ss, ls, t, k - 1, name, pod, isNew) {
        PathNext(ss, ls, t, k, name, pod, isNew);
      }
    }
  }

  lemma {:induction false} PathGoesOn(ss: seq<State>, ls: seq<Label>, t: nat, j: nat, k: nat, name: string, pod: Pod,
                                      isNew: bool)
    requires j <= k && KeepsToPath(ss, ls, t, j, k, name, pod, isNew) && OnPath(ss, ls, t, j, name, pod, isNew)
    ensures OnPath(ss, ls, t, k, name, pod, isNew)
    decreases k
  {
    if j < k {
      PathGoesOn(ss, ls, t, j, k - 1, name, pod, isNew);
    }
  }

  /** In every history, the acts of a handler are those of its path, from the event that started it on. */
  lemma HandlerFollowsPath(ss: seq<State>, ls: seq<Label>, t: nat, j: nat, k: nat, name: string, pod: Pod, isNew: bool)
    requires IsHistory(ss, ls) && j < k < |ss| && t !in ss[j].threads && ls[j] == PodEvent(t, name, Some(pod))
    requires t in ss[j + 1].threads && ss[j + 1].threads[t].Handling? && (isNew <==> |ss[j].recs| < |ss[j + 1].recs|)
    ensures OnPath(ss, ls, t, k, name, pod, isNew)
  {
    PathStarts(ss, ls, t, j);
    HistoryKeepsToPath(ss, ls, t, j + 1, k, name, pod, isNew);
    PathGoesOn(ss, ls, t, j + 1, k, name, pod, isNew);
  }

  lemma PathStarts(ss: seq<State>, ls: seq<Label>, t: nat, j: nat)
    requires IsHistory(ss, ls) && j < |ls| && t !in ss[j].threads && ls[j].PodEvent? && ls[j].tid == t
    requires t in ss[j + 1].threads && ss[j + 1].threads[t].Handling? && ls[j].obj.Some?
    ensures OnPath(ss, ls, t, j + 1, ls[j].name, ls[j].obj.value, |ss[j].recs| < |ss[j + 1].recs|)
  {
    NoActBefore(ss, ls, t, j);
    assert Enabled(ss[j], ls[j]) && ss[j + 1] == Next(ss[j], ls[j]);
    HandlerIsNew(ss[j], ls[j], t);
  }

  lemma PathNext(ss: seq<State>, ls: seq<Label>, t: nat, k: nat, name: string, pod: Pod, isNew: bool)
    requires IsHistory(ss, ls) && 0 < k < |ss| && OnPath(ss, ls, t, k - 1, name, pod, isNew)
    ensures OnPath(ss, ls, t, k, name, pod, isNew)
  {
    assert Enabled(ss[k - 1], ls[k - 1]) && ss[k] == Next(ss[k - 1], ls[k - 1]);
    StepPath(ss[k - 1], ls[k - 1], t, ActsOf(ls, t, k - 1), isNew);
  }

  // ---- What a finished Pod leaves ----

  lemma {:induction false} WhichAct(ls: seq<Label>, t: nat, k: nat, p: nat) returns (m: nat)
    requires k <= |ls| && p < |ActsOf(ls, t, k)|
    ensures m < k && ls[m] == Work(t, ActsOf(ls, t, k)[p]) && |ActsOf(ls, t, m)| == p
  {
    if p < |ActsOf(ls, t, k - 1)| {
      m := WhichAct(ls, t, k - 1, p);
    } else {
      m := k - 1;
    }
  }

  lemma {:induction false} ActsGrow(ls: seq<Label>, t: nat, m: nat, k: nat)
    requires m <= k <= |ls|
    ensures |ActsOf(ls, t, m)| <= |ActsOf(ls, t, k)|
  {
    if m < k {
      ActsGrow(ls, t, m, k - 1);
    }
  }

  /** What the three lasting steps of an ending do. */
  lemma EndingSteps(s: State, tid: nat, act: Act)
    requires WF(s) && Enabled(s, Work(tid, act)) && s.threads[tid].Handling?
    ensures var s', pc := Next(s, Work(tid, act)), s.threads[tid];
            && (act.Dispatch? && pc.pod.phase.Succeeded? ==> s'.odps == s.odps - {pc.name})
            && (act.Stamp? ==> s'.deletedPods == s.deletedPods[pc.pod.uid := s.now])
            && (act.DeletePod? ==> s'.log == s.log + [DeletePodCall(tid, pc.id, pc.name)])
  {
  }

  lemma EndingAt(ss: seq<State>, ls: seq<Label>, t: nat, m: nat, k: nat)
    requires IsHistory(ss, ls) && m < k < |ss| && ls[m].Work? && ls[m].tid == t && t in ss[k].threads
    requires ss[k].threads[t].Handling?
    ensures var pc := ss[k].threads[t];
            && (ls[m].act.Dispatch? && pc.pod.phase.Succeeded? ==> ss[m + 1].odps == ss[m].odps - {pc.name})
            && (ls[m].act.Stamp? ==> ss[m + 1].deletedPods == ss[m].deletedPods[pc.pod.uid := ss[m].now])
            && (ls[m].act.DeletePod? ==> ss[m + 1].log == ss[m].log + [DeletePodCall(t, pc.id, pc.name)])
  {
    assert Enabled(ss[m], ls[m]) && ss[m + 1] == Next(ss[m], ls[m]);
    RunGrows(ss, ls, m, k);
    assert PcGrows(ss[m].threads[t], ss[k].threads[t]);
    if ss[m].threads[t].Handling? {
      EndingSteps(ss[m], t, ls[m].act);
    }
  }

  lemma {:induction false} EndsWith(acts: seq<Act>, tail: seq<Act>, isNew: bool)
    requires Ends(acts, tail, isNew)
    ensures |tail| <= |acts| && forall q | 0 <= q < |tail| :: acts[|acts| - |tail| + q] == tail[q]
  {
    if tail != [] {
      EndsWith(acts[..|acts| - 1], tail[..|tail| - 1], isNew);
    }
  }

  /** The place of an act among those of the thread is a step. */
  lemma ActAt(ls: seq<Label>, t: nat, k: nat, p: nat, q: nat) returns (m: nat, n: nat)
    requires k <= |ls| && p < q < |ActsOf(ls, t, k)|
    ensures m < n < k && ls[m] == Work(t, ActsOf(ls, t, k)[p]) && ls[n] == Work(t, ActsOf(ls, t, k)[q])
    ensures |ActsOf(ls, t, m)| == p && |ActsOf(ls, t, n)| == q
  {
    m := WhichAct(ls, t, k, p);
    n := WhichAct(ls, t, k, q);
    if n <= m {
      ActsGrow(ls, t, n, m);
    }
  }

  /** The dispatch of a finished Pod, the stamp of one that succeeded, and the deletion, in this order. */
  predicate CleansUp(ls: seq<Label>, t: nat, succeeded: bool, d: nat, m: nat, e: nat, k: nat) {
    && d < e < k <= |ls| && ls[d] == Work(t, Dispatch) && ls[e] == Work(t, DeletePod)
    && (succeeded ==> d < m < e && ls[m] == Work(t, Stamp))
  }

  lemma PathCleansUp(ls: seq<Label>, t: nat, k: nat, pod: Pod, isNew: bool) returns (d: nat, m: nat, e: nat)
    requires k <= |ls| && Path(ActsOf(ls, t, k), pod, Handled, isNew) && Finished(pod)
    ensures CleansUp(ls, t, pod.phase.Succeeded?, d, m, e, k)
  {
    var acts := ActsOf(ls, t, k);
    var tail := Finishing(pod) + [Release, DeletePod];
    if !Ends(acts, tail, isNew) {
      tail := Finishing(pod) + [Release, Clear, DeletePod];
    }
    EndsWith(acts, tail, isNew);
    var first := |acts| - |tail|;
    assert acts[first] == tail[0] && acts[first + 1] == tail[1] && acts[|acts| - 1] == tail[|tail| - 1];
    d, e := ActAt(ls, t, k, first, |acts| - 1);
    var d', n := ActAt(ls, t, k, first, first + 1);
    m := n;
    var n', e' := ActAt(ls, t, k, first + 1, |acts| - 1);
    SamePlace(ls, t, d, d');
    SamePlace(ls, t, n, n');
    SamePlace(ls, t, e, e');
  }

  lemma {:induction false} SamePlace(ls: seq<Label>, t: nat, m: nat, n: nat)
    requires m < |ls| && n < |ls| && ls[m].Work? && ls[m].tid == t && ls[n].Work? && ls[n].tid == t
    requires |ActsOf(ls, t, m)| == |ActsOf(ls, t, n)|
    ensures m == n
  {
    if m < n {
      ActsGrow(ls, t, m + 1, n);
    } else if n < m {
      ActsGrow(ls, t, n + 1, m);
    }
  }

  /** In every history, when the handler of a finished Pod is done, the name was taken away and the Pod's
      UID stamped with the time if it succeeded, in this order, and then the deletion of the Pod whose
      event it was is asked for. */
  lemma FinishedPodIsCleanedUp(ss: seq<State>, ls: seq<Label>, t: nat, k: nat) returns (d: nat, m: nat, e: nat)
    requires IsHistory(ss, ls) && k < |ss| && HandlingAt(ss[k], t, Handled) && Finished(ss[k].threads[t].pod)
    ensures CleansUp(ls, t, ss[k].threads[t].pod.phase.Succeeded?, d, m, e, k)
    ensures var pc := ss[k].threads[t];
            && ss[e + 1].log == ss[e].log + [DeletePodCall(t, pc.id, pc.name)]
            && (pc.pod.phase.Succeeded? ==>
                  && ss[d + 1].odps == ss[d].odps - {pc.name}
                  && ss[m + 1].deletedPods == ss[m].deletedPods[pc.pod.uid := ss[m].now])
  {
    d, m, e := HandledCleansUp(ss, ls, t, k);
    EndingAt(ss, ls, t, e, k);
    if ss[k].threads[t].pod.phase.Succeeded? {
      EndingTwice(ss, ls, t, d, m, k);
    }
  }

  lemma EndingTwice(ss: seq<State>, ls: seq<Label>, t: nat, d: nat, m: nat, k: nat)
    requires IsHistory(ss, ls) && d < m < k < |ss| && ls[d] == Work(t, Dispatch) && ls[m] == Work(t, Stamp)
    requires t in ss[k].threads && ss[k].threads[t].Handling? && ss[k].threads[t].pod.phase.Succeeded?
    ensures ss[d + 1].odps == ss[d].odps - {ss[k].threads[t].name}
    ensures ss[m + 1].deletedPods == ss[m].deletedPods[ss[k].threads[t].pod.uid := ss[m].now]
  {
    EndingAt(ss, ls, t, d, k);
    EndingAt(ss, ls, t, m, k);
  }

  lemma HandledCleansUp(ss: seq<State>, ls: seq<Label>, t: nat, k: nat) returns (d: nat, m: nat, e: nat)
    requires IsHistory(ss, ls) && k < |ss| && HandlingAt(ss[k], t, Handled) && Finished(ss[k].threads[t].pod)
    ensures CleansUp(ls, t, ss[k].threads[t].pod.phase.Succeeded?, d, m, e, k)
  {
    var pc := ss[k].threads[t];
    var j := HandlerHasEvent(ss, ls, t, k);
    var isNew := |ss[j].recs| < |ss[j + 1].recs|;
    HandlerFollowsPath(ss, ls, t, j, k, pc.name, pc.pod, isNew);
    d, m, e := PathCleansUp(ls, t, k, pc.pod, isNew);
  }

  /** Whenever the deletion of a Pod is asked for, an event showed the Pod of that name finished. */
  lemma DeletedPodHadFinished(ss: seq<State>, ls: seq<Label>, n: nat, p: nat) returns (j: nat)
    requires IsHistory(ss, ls) && n < |ss| && p < |ss[n].log| && ss[n].log[p].DeletePodCall?
    ensures j < n && ls[j].PodEvent? && ls[j].tid == ss[n].log[p].tid && ls[j].name == ss[n].log[p].podName
    ensures ls[j].obj.Some? && Finished(ls[j].obj.value)
  {
    var m := WhichStep(ss, ls, n, p);
    DeletesItsPod(ss, ls, m, ss[n].log[p]);
    j := HandlerHasEvent(ss, ls, ls[m].tid, m);
  }

  lemma DeletesItsPod(ss: seq<State>, ls: seq<Label>, m: nat, c: Call)
    requires IsHistory(ss, ls) && m < |ls| && ls[m].Work? && c.DeletePodCall?
    requires c in EffectOf(ss[m], ls[m].tid, ls[m].act).calls
    ensures ls[m].tid == c.tid && c.tid in ss[m].threads && ss[m].threads[c.tid].Handling?
    ensures ss[m].threads[c.tid].name == c.podName && Finished(ss[m].threads[c.tid].pod)
  {
    assert Enabled(ss[m], ls[m]);
    DeletesOnlyAtEnd(ss[m], ls[m].tid, ls[m].act, c);
  }

  lemma DeletesOnlyAtEnd(s: State, tid: nat, act: Act, c: Call)
    requires WF(s) && Enabled(s, Work(tid, act)) && c.DeletePodCall? && c in EffectOf(s, tid, act).calls
    ensures tid == c.tid && s.threads[tid].Handling? && s.threads[tid].name == c.podName
    ensures Finished(s.threads[tid].pod)
  {
    assert PcOk(s, s.threads[tid]);
  }

  // ---- What a release is followed by ----

  /** After the release: a token that was named is cleared next and then has been, and nothing is
      cleared otherwise. */
  predicate Clearing(named: bool, at: HandleStage, acts: seq<Act>) {
    if named && at == ToClear then true
    else (at == ToDelete || at == Handled) && (named <==> Clear in acts)
  }

  lemma {:induction false} NotClearedYet(acts: seq<Act>, tail: seq<Act>, isNew: bool)
    requires Ends(acts, tail, isNew) && Clear !in tail
    ensures Clear !in acts
  {
    if tail != [] {
      NotClearedYet(acts[..|acts| - 1], tail[..|tail| - 1], isNew);
      assert acts == acts[..|acts| - 1] + [tail[|tail| - 1]];
    }
  }

  lemma ReleaseClears(s: State, tid: nat, acts: seq<Act>, isNew: bool)
    requires WF(s) && Enabled(s, Work(tid, Release)) && Path(acts, s.threads[tid].pod, ToRelease, isNew)
    ensures HandlingAt(Next(s, Work(tid, Release)), tid, Next(s, Work(tid, Release)).threads[tid].at)
    ensures Clearing(s.recs[s.threads[tid].id].tokenName != "", Next(s, Work(tid, Release)).threads[tid].at,
                     acts + [Release])
  {
    NotClearedYet(acts, Finishing(s.threads[tid].pod), isNew);
    HandlingStays(s, tid, Release);
  }

  lemma ClearingNext(s: State, l: Label, t: nat, named: bool, acts: seq<Act>)
    requires WF(s) && Enabled(s, l) && t in s.threads && s.threads[t].Handling?
    requires Clearing(named, s.threads[t].at, acts)
    ensures t in Next(s, l).threads && Next(s, l).threads[t].Handling?
    ensures Clearing(named, Next(s, l).threads[t].at, acts + if l.Work? && l.tid == t then [l.act] else [])
  {
    StepOneThread(s, l);
    if l.Work? && l.tid == t {
      HandlingStays(s, t, l.act);
    } else {
      assert acts + [] == acts && Next(s, l).threads[t] == s.threads[t];
    }
  }

  predicate ClearingAt(ss: seq<State>, ls: seq<Label>, t: nat, k: nat, named: bool) {
    k < |ss| && k <= |ls| && t in ss[k].threads && ss[k].threads[t].Handling? &&
    Clearing(named, ss[k].threads[t].at, ActsOf(ls, t, k))
  }

  lemma ClearingStarts(ss: seq<State>, ls: seq<Label>, t: nat, m: nat)
    requires IsHistory(ss, ls) && m < |ls| && ls[m] == Work(t, Release)
    ensures t in ss[m].threads && ss[m].threads[t].Handling? && ss[m].threads[t].id < |ss[m].recs|
    ensures ClearingAt(ss, ls, t, m + 1, ss[m].recs[ss[m].threads[t].id].tokenName != "")
  {
    assert Enabled(ss[m], ls[m]) && ss[m + 1] == Next(ss[m], ls[m]);
    assert PcOk(ss[m], ss[m].threads[t]);
    var isNew := PathAt(ss, ls, t, m);
    ReleaseClears(ss[m], t, ActsOf(ls, t, m), isNew);
  }

  lemma PathAt(ss: seq<State>, ls: seq<Label>, t: nat, k: nat) returns (isNew: bool)
    requires IsHistory(ss, ls) && k < |ss| && t in ss[k].threads && ss[k].threads[t].Handling?
    ensures Path(ActsOf(ls, t, k), ss[k].threads[t].pod, ss[k].threads[t].at, isNew)
  {
    var j := HandlerHasEvent(ss, ls, t, k);
    isNew := |ss[j].recs| < |ss[j + 1].recs|;
    HandlerFollowsPath(ss, ls, t, j, k, ss[k].threads[t].name, ss[k].threads[t].pod, isNew);
  }

  /** No step from the j-th state on ends the clearing. */
  predicate KeepsClearing(ss: seq<State>, ls: seq<Label>, t: nat, j: nat, k: nat, named: bool) {
    k <= j || (KeepsClearing(ss, ls, t, j, k - 1, named) &&
               (ClearingAt(ss, ls, t, k - 1, named) ==> ClearingAt(ss, ls, t, k, named)))
  }

  lemma {:induction false} HistoryKeepsClearing(ss: seq<State>, ls: seq<Label>, t: nat, j: nat, k: nat, named: bool)
    requires IsHistory(ss, ls) && k < |ss|
    ensures KeepsClearing(ss, ls, t, j, k, named)
    decreases k
  {
    if j < k {
      HistoryKeepsClearing(ss, ls, t, j, k - 1, named);
      if ClearingAt(ss, ls, t, k - 1, named) {
        ClearingKept(ss, ls, t, k, named);
      }
    }
  }

  lemma ClearingKept(ss: seq<State>, ls: seq<Label>, t: nat, k: nat, named: bool)
    requires IsHistory(ss, ls) && 0 < k < |ss| && ClearingAt(ss, ls, t, k - 1, named)
    ensures ClearingAt(ss, ls, t, k, named)
  {
    assert Enabled(ss[k - 1], ls[k - 1]) && ss[k] == Next(ss[k - 1], ls[k - 1]);
    ClearingNext(ss[k - 1], ls[k - 1], t, named, ActsOf(ls, t, k - 1));
  }

  lemma {:induction false} ClearingGoesOn(ss: seq<State>, ls: seq<Label>, t: nat, j: nat, k: nat, named: bool)
    requires j <= k && KeepsClearing(ss, ls, t, j, k, named) && ClearingAt(ss, ls, t, j, named)
    ensures ClearingAt(ss, ls, t, k, named)
    decreases k
  {
    if j < k {
      ClearingGoesOn(ss, ls, t, j, k - 1, named);
    }
  }

  /** In every history: once a handler is past the release and the clearing, it has cleared the record's
      token name if and only if the record named a token at the release. */
  lemma ReleasedIsCleared(ss: seq<State>, ls: seq<Label>, t: nat, m: nat, k: nat)
    requires IsHistory(ss, ls) && m < k < |ss| && ls[m] == Work(t, Release)
    ensures t in ss[m].threads && ss[m].threads[t].Handling? && ss[m].threads[t].id < |ss[m].recs|
    ensures t in ss[k].threads && ss[k].threads[t].Handling?
    ensures ss[k].threads[t].at != ToClear ==>
              (Clear in ActsOf(ls, t, k) <==> ss[m].recs[ss[m].threads[t].id].tokenName != "")
  {
    ClearingStarts(ss, ls, t, m);
    var named := ss[m].recs[ss[m].threads[t].id].tokenName != "";
    HistoryKeepsClearing(ss, ls, t, m + 1, k, named);
    ClearingGoesOn(ss, ls, t, m + 1, k, named);
  }

  // ---- Where the addresses of a ready record come from ----

  /** A ready record has the addresses of a Pod of its name that an event showed running. */
  lemma ReadyHasAddresses(ss: seq<State>, ls: seq<Label>, i: nat, k: nat) returns (j: nat)
    requires IsHistory(ss, ls) && k < |ss| && i < |ss[k].recs| && ss[k].recs[i].resultCode == 0
    ensures j < k && ls[j].PodEvent? && ls[j].name == ss[k].recs[i].podName
    ensures ls[j].obj.Some? && ls[j].obj.value.phase.Running? && ls[j].obj.value.ips == ss[k].recs[i].podIPs
  {
    var a := ReadyWasShown(ss, ls, i, k);
    ShownRecord(ss, ls, i, a, k);
    j := HandlerHasEvent(ss, ls, ls[a].tid, a);
  }

  lemma ReadyWasShown(ss: seq<State>, ls: seq<Label>, i: nat, k: nat) returns (a: nat)
    requires IsHistory(ss, ls) && k < |ss| && i < |ss[k].recs| && ss[k].recs[i].resultCode == 0
    ensures a < k && Dispatches(ss[a], ls[a], i, Running)
    ensures ss[k].recs[i].podIPs == ss[a].threads[ls[a].tid].pod.ips
  {
    var j := RecordIsMade(ss, ls, i, k);
    var c := CodeIsLastOutcome(ss, ls, i, j, k);
    var shown := AddressesAreLastShown(ss, ls, i, j, k);
    a := shown.value;
  }

  lemma ShownRecord(ss: seq<State>, ls: seq<Label>, i: nat, a: nat, k: nat)
    requires IsHistory(ss, ls) && a < k < |ss| && Dispatches(ss[a], ls[a], i, Running)
    ensures i < |ss[k].recs| && ss[a].threads[ls[a].tid].name == ss[k].recs[i].podName
  {
    RunGrows(ss, ls, a, k);
    assert PcOk(ss[a], ss[a].threads[ls[a].tid]);
  }

  /** A record still being created has none. */
  lemma CreatingHasNoAddresses(ss: seq<State>, ls: seq<Label>, i: nat, k: nat)
    requires IsHistory(ss, ls) && k < |ss| && i < |ss[k].recs| && ss[k].recs[i].resultCode == -1
    ensures ss[k].recs[i].podIPs == []
  {
    var j := RecordIsMade(ss, ls, i, k);
    var c := CodeIsLastOutcome(ss, ls, i, j, k);
    var shown := AddressesAreLastShown(ss, ls, i, j, k);
  }
}

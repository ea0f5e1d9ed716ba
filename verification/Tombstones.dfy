/** The memory of Pods that were just deleted. */
module Tombstones {
  import opened Wrappers
  import opened Records
  import opened Protocol
  import opened Coherence

  /** A sweep removes exactly the entries stamped more than the TTL before it, and changes no stamp. */
  lemma SweepRemovesExactlyExpired(s: State, uid: string)
    requires WF(s)
    ensures uid in Next(s, Sweep).deletedPods <==>
            uid in s.deletedPods && s.now - s.deletedPods[uid] <= DELETED_TTL * SECOND
    ensures uid in Next(s, Sweep).deletedPods ==> Next(s, Sweep).deletedPods[uid] == s.deletedPods[uid]
  {
  }

  /** No stamp is in the future, and none was already expired at the last sweep. */
  ghost predicate Dated(s: State) {
    && s.lastSweep <= s.now
    && forall u | u in s.deletedPods :: s.lastSweep - DELETED_TTL * SECOND <= s.deletedPods[u] <= s.now
  }

  lemma StepKeepsDated(s: State, l: Label)
    requires WF(s) && Enabled(s, l) && Dated(s)
    ensures Dated(Next(s, l))
  {
    match l
    case Work(tid, act) => WorkKeepsDated(s, tid, EffectOf(s, tid, act));
    case Request(tid, name, p) => assert Next(s, l) == NextRequest(s, tid, name, p);
    case PodEvent(tid, name, obj) => assert Next(s, l) == NextPodEvent(s, tid, name, obj);
    case Sweep => assert Next(s, l) == NextSweep(s);
    case _ => assert Next(s, l).deletedPods == s.deletedPods && Next(s, l).lastSweep == s.lastSweep;
  }

  lemma WorkKeepsDated(s: State, tid: nat, e: Effect)
    requires HasRecord(e.pc) && RecordOf(e.pc) < |s.recs| && (e.drops || e.stamps ==> e.pc.Handling?) && Dated(s)
    ensures Dated(NextWork(s, tid, e))
  {
  }

  lemma {:induction false} RunKeepsDated(ss: seq<State>, ls: seq<Label>, k: nat)
    requires IsRun(ss, ls) && Dated(ss[0]) && k < |ss|
    ensures Dated(ss[k])
  {
    if k == 0 {
    } else {
      RunKeepsDated(ss, ls, k - 1);
      StepKeepsDated(ss[k - 1], ls[k - 1]);
    }
  }

  /** With a sweep at most `interval` ago, no entry is older than the TTL and that interval. */
  lemma TombstoneIsGoneInTime(ss: seq<State>, ls: seq<Label>, k: nat, interval: int, uid: string)
    requires IsHistory(ss, ls) && k < |ss|
    requires ss[k].now - ss[k].lastSweep <= interval
    requires uid in ss[k].deletedPods
    ensures ss[k].now - ss[k].deletedPods[uid] <= DELETED_TTL * SECOND + interval
  {
    RunKeepsDated(ss, ls, k);
  }

  lemma StepKeepsTombstone(s: State, l: Label, uid: string)
    requires WF(s) && Enabled(s, l) && Coherent(s) && Dated(s)
    requires uid in s.deletedPods && Next(s, l).now - s.deletedPods[uid] <= DELETED_TTL * SECOND
    ensures uid in Next(s, l).deletedPods && s.deletedPods[uid] <= Next(s, l).deletedPods[uid]
  {
  }

  /** An entry survives at least the TTL, whatever happens. */
  lemma {:induction false} TombstoneSurvives(ss: seq<State>, ls: seq<Label>, uid: string, k: nat)
    requires IsRun(ss, ls) && Coherent(ss[0]) && Dated(ss[0]) && k < |ss|
    requires uid in ss[0].deletedPods && ss[k].now - ss[0].deletedPods[uid] <= DELETED_TTL * SECOND
    ensures uid in ss[k].deletedPods && ss[0].deletedPods[uid] <= ss[k].deletedPods[uid]
  {
    if k == 0 {
    } else {
      RunGrows(ss, ls, k - 1, k);
      TombstoneSurvives(ss, ls, uid, k - 1);
      RunKeepsDated(ss, ls, k - 1);
      StepKeepsTombstone(ss[k - 1], ls[k - 1], uid);
    }
  }

  /** The Pod is stamped as deleted in this step. */
  ghost predicate Stamps(s: State, l: Label, uid: string)
    requires WF(s) && Enabled(s, l)
  {
    l.Work? && l.act.Stamp? && s.threads[l.tid].pod.uid == uid
  }

  /** A sweep finds the stamp more than 300 seconds old. */
  predicate SweepsAway(s: State, l: Label, stamp: int) {
    l.Sweep? && s.now - stamp > 300 * 1_000_000_000
  }

  lemma StepTombstone(s: State, l: Label, uid: string)
    requires WF(s) && Enabled(s, l) && !Stamps(s, l, uid)
    ensures var s' := Next(s, l);
            && (uid in s'.deletedPods <==>
                  uid in s.deletedPods && !SweepsAway(s, l, s.deletedPods[uid]))
            && (uid in s'.deletedPods ==> s'.deletedPods[uid] == s.deletedPods[uid])
  {
    match l
    case Work(tid, act) => StampsOnlyInStamp(s, tid, act);
    case Request(tid, name, p) => assert Next(s, l) == NextRequest(s, tid, name, p);
    case PodEvent(tid, name, obj) => assert Next(s, l).deletedPods == NextPodEvent(s, tid, name, obj).deletedPods;
    case _ =>
  }

  lemma StampsOnlyInStamp(s: State, tid: nat, act: Act)
    requires WF(s) && Enabled(s, Work(tid, act))
    ensures var e := EffectOf(s, tid, act);
            e.stamps ==> act.Stamp? && e.pc.pod == s.threads[tid].pod
  {
  }

  /** Over any run, an entry that is not stamped again is there if and only if no sweep found it
      more than the TTL old; and it keeps its stamp. */
  lemma {:induction false} TombstoneLifetime(ss: seq<State>, ls: seq<Label>, uid: string, k: nat)
    requires IsRun(ss, ls) && k < |ss| && uid in ss[0].deletedPods
    requires forall j | 0 <= j < k :: !Stamps(ss[j], ls[j], uid)
    ensures var stamp := ss[0].deletedPods[uid];
            && (uid in ss[k].deletedPods <==>
                forall j | 0 <= j < k :: !SweepsAway(ss[j], ls[j], stamp))
            && (uid in ss[k].deletedPods ==> ss[k].deletedPods[uid] == stamp)
  {
    if k > 0 {
      TombstoneLifetime(ss, ls, uid, k - 1);
      assert Enabled(ss[k - 1], ls[k - 1]) && ss[k] == Next(ss[k - 1], ls[k - 1]) && !Stamps(ss[k - 1], ls[k - 1], uid);
      StepTombstone(ss[k - 1], ls[k - 1], uid);
    }
  }

  /** The only ways round a tombstone: a request for the name, or an event of another Pod. */
  predicate Revives(l: Label, name: string, uid: string) {
    || (l.Request? && l.name == name)
    || (l.PodEvent? && l.name == name && l.obj.Some? && l.obj.value.uid != uid)
  }

  /** Since `s`, no record was made for the name and every Pod event for it was dropped. */
  ghost predicate Silent(s: State, s': State, name: string) {
    && name !in s'.odps
    && (forall i | |s.recs| <= i < |s'.recs| :: s'.recs[i].podName != name)
    && (forall t | t in s'.threads && t !in s.threads :: !(s'.threads[t].Handling? && s'.threads[t].name == name))
  }

  /** A request for the name, or an event of a Pod of that name that has no tombstone now. */
  predicate Wakes(s: State, l: Label, name: string) {
    || (l.Request? && l.name == name)
    || (l.PodEvent? && l.name == name && l.obj.Some? && l.obj.value.uid !in s.deletedPods)
  }

  lemma StepStaysSilent(s0: State, s: State, l: Label, name: string)
    requires WF(s) && Enabled(s, l) && Coherent(s) && Grows(s0, s)
    requires Silent(s0, s, name) && !Wakes(s, l, name)
    ensures Silent(s0, Next(s, l), name)
  {
    match l
    case Work(tid, act) =>
      EffectImproves(s, tid, act);
      WorkStaysSilent(s0, s, tid, EffectOf(s, tid, act), name);
    case Request(tid, other, p) => RequestStaysSilent(s0, s, l, name);
    case PodEvent(tid, other, obj) =>
      if other == name {
        OwnEventStaysSilent(s0, s, tid, name, obj);
      } else {
        OtherEventStaysSilent(s0, s, tid, other, obj, name);
      }
    case _ =>
  }

  lemma OwnEventStaysSilent(s0: State, s: State, tid: nat, name: string, obj: Option<Pod>)
    requires WF(s) && tid !in s.threads && Silent(s0, s, name)
    requires obj.Some? ==> obj.value.uid in s.deletedPods
    ensures Silent(s0, NextPodEvent(s, tid, name, obj), name)
  {
  }

  lemma OtherEventStaysSilent(s0: State, s: State, tid: nat, other: string, obj: Option<Pod>, name: string)
    requires WF(s) && tid !in s.threads && Silent(s0, s, name) && other != name && |s0.recs| <= |s.recs|
    ensures Silent(s0, NextPodEvent(s, tid, other, obj), name)
  {
    QuietPodEvent(s, tid, other, obj);
  }

  lemma RequestStaysSilent(s0: State, s: State, l: Label, name: string)
    requires WF(s) && Enabled(s, l) && l.Request? && l.name != name && Silent(s0, s, name)
    ensures Silent(s0, Next(s, l), name)
  {
  }

  lemma WorkStaysSilent(s0: State, s: State, tid: nat, e: Effect, name: string)
    requires HasRecord(e.pc) && RecordOf(e.pc) < |s.recs| && (e.drops || e.stamps ==> e.pc.Handling?)
    requires e.rec.podName == s.recs[RecordOf(e.pc)].podName
    requires tid in s.threads && PcGrows(s.threads[tid], e.pc) && (e.pc.Handling? ==> s.threads[tid].Handling?)
    requires Silent(s0, s, name)
    ensures Silent(s0, NextWork(s, tid, e), name)
  {
  }

  /** A record was made for the name since `s`. */
  predicate MadeSince(s: State, s': State, name: string) {
    exists i :: |s.recs| <= i < |s'.recs| && s'.recs[i].podName == name
  }

  lemma WakingMakes(s0: State, s: State, l: Label, name: string)
    requires WF(s) && Enabled(s, l) && Grows(s0, s) && Silent(s0, s, name) && Wakes(s, l, name)
    ensures MadeSince(s0, Next(s, l), name)
  {
    assert Next(s, l).recs[|s.recs|].podName == name;
  }

  lemma StaysMade(s0: State, s: State, s': State, name: string)
    requires MadeSince(s0, s, name) && Grows(s, s')
    ensures MadeSince(s0, s', name)
  {
    var i :| |s0.recs| <= i < |s.recs| && s.recs[i].podName == name;
    assert s'.recs[i].podName == name;
  }

  predicate Woken(ss: seq<State>, ls: seq<Label>, name: string, k: nat)
    requires k <= |ls| < |ss|
  {
    exists j {:trigger Wakes(ss[j], ls[j], name)} :: 0 <= j < k && Wakes(ss[j], ls[j], name)
  }

  lemma WokenByLast(ss: seq<State>, ls: seq<Label>, name: string, k: nat)
    requires 0 < k <= |ls| < |ss|
    ensures Woken(ss, ls, name, k) <==> Woken(ss, ls, name, k - 1) || Wakes(ss[k - 1], ls[k - 1], name)
  {
  }

  /** Over any run from a state without the name: no record was made for it and no handler was started
      on it, if and only if nobody asked for it and each of its Pod events found its Pod's tombstone. */
  lemma {:induction false} SilentExactly(ss: seq<State>, ls: seq<Label>, name: string, k: nat)
    requires IsRun(ss, ls) && Coherent(ss[0]) && k < |ss| && name !in ss[0].odps
    ensures Silent(ss[0], ss[k], name) <==> !Woken(ss, ls, name, k)
    ensures Silent(ss[0], ss[k], name) || MadeSince(ss[0], ss[k], name)
  {
    if k > 0 {
      SilentExactly(ss, ls, name, k - 1);
      SilentAtStep(ss, ls, name, k);
      WokenByLast(ss, ls, name, k);
    }
  }

  lemma SilentAtStep(ss: seq<State>, ls: seq<Label>, name: string, k: nat)
    requires IsRun(ss, ls) && Coherent(ss[0]) && 0 < k < |ss|
    requires Silent(ss[0], ss[k - 1], name) || MadeSince(ss[0], ss[k - 1], name)
    ensures Silent(ss[0], ss[k], name) <==> Silent(ss[0], ss[k - 1], name) && !Wakes(ss[k - 1], ls[k - 1], name)
    ensures Silent(ss[0], ss[k], name) || MadeSince(ss[0], ss[k], name)
  {
    RunGrows(ss, ls, 0, k - 1);
    RunGrows(ss, ls, k - 1, k);
    assert Enabled(ss[k - 1], ls[k - 1]) && ss[k] == Next(ss[k - 1], ls[k - 1]);
    if MadeSince(ss[0], ss[k - 1], name) {
      StaysMade(ss[0], ss[k - 1], ss[k], name);
    } else if Wakes(ss[k - 1], ls[k - 1], name) {
      WakingMakes(ss[0], ss[k - 1], ls[k - 1], name);
    } else {
      StepStaysSilent(ss[0], ss[k - 1], ls[k - 1], name);
    }
  }

  /** Once the name is absent, and for as long as the Pod's UID has a tombstone, events of that Pod
      create no record and start no reload, whatever else goes on. */
  lemma TombstoneSuppresses(ss: seq<State>, ls: seq<Label>, name: string, uid: string, k: nat)
    requires IsRun(ss, ls) && Coherent(ss[0]) && k < |ss|
    requires name !in ss[0].odps && forall j | 0 <= j < k :: uid in ss[j].deletedPods
    requires forall j | 0 <= j < k :: !Revives(ls[j], name, uid)
    ensures Silent(ss[0], ss[k], name)
  {
    SilentExactly(ss, ls, name, k);
  }

  /** So it is for as long as the TTL. */
  lemma TombstoneSuppressesForTTL(ss: seq<State>, ls: seq<Label>, name: string, uid: string, k: nat)
    requires IsRun(ss, ls) && Coherent(ss[0]) && Dated(ss[0]) && k < |ss|
    requires name !in ss[0].odps && uid in ss[0].deletedPods
    requires forall j | 0 <= j < k :: !Revives(ls[j], name, uid)
    requires ss[k].now - ss[0].deletedPods[uid] <= DELETED_TTL * SECOND
    ensures Silent(ss[0], ss[k], name)
  {
    forall j | 0 <= j < k ensures uid in ss[j].deletedPods {
      RunGrows(ss, ls, j, k);
      TombstoneSurvives(ss, ls, uid, j);
    }
    TombstoneSuppresses(ss, ls, name, uid, k);
  }

  /** For one event: it is dropped if and only if its Pod has a tombstone. */
  lemma WithoutTombstoneRevived(s: State, tid: nat, name: string, pod: Pod)
    requires WF(s) && Enabled(s, PodEvent(tid, name, Some(pod))) && name !in s.odps
    ensures Silent(s, Next(s, PodEvent(tid, name, Some(pod))), name) <==> pod.uid in s.deletedPods
  {
    var s' := NextPodEvent(s, tid, name, Some(pod));
    assert tid in s'.threads && tid !in s.threads;
    if pod.uid !in s.deletedPods {
      assert s'.threads[tid].Handling? && s'.threads[tid].name == name;
    }
  }
}

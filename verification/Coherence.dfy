/** What holds of every record in every reachable state, and what every step leaves in place. */
module Coherence {
  import opened Wrappers
  import opened Records
  import opened Protocol

  /** The error and its time are set together, the code is one of the program's codes, and a
      code above Ready comes with an error. */
  ghost predicate CoherentRec(r: Odp, now: int) {
    && (r.errorTime.Some? <==> r.error.Some?)
    && CREATING <= r.resultCode <= NOT_AUTHORISED_ERROR
    && (r.resultCode > READY ==> r.errorTime.Some?)
    && (r.errorTime.Some? ==> r.errorTime.value <= now)
  }

  ghost predicate Coherent(s: State) {
    forall i | 0 <= i < |s.recs| :: CoherentRec(s.recs[i], s.now)
  }

  /** A record's identity stays, and its error time is neither cleared nor moved back. */
  ghost predicate RecGrows(r: Odp, r': Odp) {
    && r'.podName == r.podName
    && r'.tokenTypes == r.tokenTypes
    && r'.requestData == r.requestData
    && r'.profile == r.profile
    && (r.errorTime.Some? ==> r'.errorTime.Some? && r.errorTime.value <= r'.errorTime.value)
  }

  /** A thread stays what it is and keeps working on the same record. */
  ghost predicate PcGrows(pc: Pc, pc': Pc) {
    match pc
    case Asking(id, required, ask) => pc'.Asking? && pc'.id == id && pc'.required == required
    case Received(name, slot) =>
      || pc' == pc
      || pc' == NotFound(name, slot)
      || (pc'.Creating? && pc'.run.slot == slot)
    case NotFound(_, _) => pc' == pc
    case Creating(run, stage) => pc'.Creating? && pc'.run.id == run.id && pc'.run.slot == run.slot
    case Handling(id, name, pod, _) => pc'.Handling? && pc'.id == id && pc'.name == name && pc'.pod == pod
    case Ignored(_, _) => pc' == pc
    case Removed(_) => pc' == pc
  }

  /** Nothing is forgotten: records, threads, and history only grow, and the clock goes forward. */
  ghost predicate Grows(s: State, s': State) {
    && s'.errorTTL == s.errorTTL
    && s.now <= s'.now
    && |s.recs| <= |s'.recs|
    && (forall i | 0 <= i < |s.recs| :: RecGrows(s.recs[i], s'.recs[i]))
    && (forall t | t in s.threads :: t in s'.threads && PcGrows(s.threads[t], s'.threads[t]))
    && s.origin <= s'.origin
    && s.log <= s'.log
    && s.sent <= s'.sent
    && s.taken <= s'.taken
  }

  /** One thread's step keeps its record coherent; both grow. */
  ghost predicate Improves(pc: Pc, rec: Odp, now: int, e: Effect) {
    CoherentRec(e.rec, now) && RecGrows(rec, e.rec) && PcGrows(pc, e.pc)
  }

  lemma CreateActImproves(tid: nat, pc: Pc, rec: Odp, now: int, byApplication: map<string, Template>, act: Act)
    requires pc.Creating? && ActEnabled(pc, act) && StageOk(pc.run, pc.stage) && CoherentRec(rec, now)
    ensures Improves(pc, rec, now, ActEffect(tid, pc, rec, now, byApplication, act))
  {
  }

  lemma OtherActImproves(tid: nat, pc: Pc, rec: Odp, now: int, byApplication: map<string, Template>, act: Act)
    requires !pc.Creating? && ActEnabled(pc, act) && CoherentRec(rec, now)
    ensures Improves(pc, rec, now, ActEffect(tid, pc, rec, now, byApplication, act))
  {
  }

  lemma EffectImproves(s: State, tid: nat, act: Act)
    requires WF(s) && Enabled(s, Work(tid, act)) && Coherent(s)
    ensures var pc := s.threads[tid];
            Improves(pc, s.recs[RecordOf(pc)], s.now, EffectOf(s, tid, act))
  {
    var pc := s.threads[tid];
    var rec := s.recs[RecordOf(pc)];
    if pc.Creating? {
      CreateActImproves(tid, pc, rec, s.now, s.index.byApplication, act);
    } else {
      OtherActImproves(tid, pc, rec, s.now, s.index.byApplication, act);
    }
  }

  lemma WorkGrows(s: State, tid: nat, e: Effect)
    requires tid in s.threads && Coherent(s)
    requires HasRecord(e.pc) && RecordOf(e.pc) < |s.recs| && (e.drops || e.stamps ==> e.pc.Handling?)
    requires CoherentRec(e.rec, s.now) && RecGrows(s.recs[RecordOf(e.pc)], e.rec) && PcGrows(s.threads[tid], e.pc)
    ensures Coherent(NextWork(s, tid, e)) && Grows(s, NextWork(s, tid, e))
  {
  }

  lemma GotoGrows(s: State, s1: State, tid: nat, pc: Pc)
    requires Coherent(s1) && Grows(s, s1) && s1.threads == s.threads
    requires tid in s.threads ==> PcGrows(s.threads[tid], pc)
    ensures Coherent(Goto(s1, tid, pc)) && Grows(s, Goto(s1, tid, pc))
  {
  }

  lemma InsertGrows(s: State, rec: Odp, origin: Origin)
    requires Coherent(s) && rec.resultCode == CREATING && rec.error.None? && rec.errorTime.None?
    ensures Coherent(Insert(s, rec, origin)) && Grows(s, Insert(s, rec, origin))
  {
  }

  lemma RequestGrows(s: State, tid: nat, name: string, p: Param)
    requires WF(s) && Coherent(s) && tid !in s.threads
    ensures Coherent(NextRequest(s, tid, name, p)) && Grows(s, NextRequest(s, tid, name, p))
  {
    if Usable(s, name) {
      GotoGrows(s, s, tid, Asking(s.odps[name], false, ToCheck));
    } else {
      InsertGrows(s, Requested(name, p), ByRequest(tid));
      GotoGrows(s, Insert(s, Requested(name, p), ByRequest(tid)), tid, Asking(|s.recs|, true, ToCheck));
    }
  }

  lemma PodEventGrows(s: State, tid: nat, name: string, obj: Option<Pod>)
    requires WF(s) && Coherent(s) && tid !in s.threads
    ensures Coherent(NextPodEvent(s, tid, name, obj)) && Grows(s, NextPodEvent(s, tid, name, obj))
  {
    if obj.Some? && name !in s.odps && obj.value.uid !in s.deletedPods {
      InsertGrows(s, Rediscovered(name), ByEvent(tid));
      GotoGrows(s, Insert(s, Rediscovered(name), ByEvent(tid)), tid, Handling(|s.recs|, name, obj.value, ToReload));
    }
  }

  /** Every step keeps coherence, and the state grows. */
  lemma StepGrows(s: State, l: Label)
    requires WF(s) && Enabled(s, l) && Coherent(s)
    ensures Coherent(Next(s, l)) && Grows(s, Next(s, l))
  {
    match l
    case Work(tid, act) =>
      EffectImproves(s, tid, act);
      WorkGrows(s, tid, EffectOf(s, tid, act));
    case Request(tid, name, p) => RequestGrows(s, tid, name, p);
    case PodEvent(tid, name, obj) => PodEventGrows(s, tid, name, obj);
    case _ => OthersGrow(s, l);
  }

  lemma OthersGrow(s: State, l: Label)
    requires WF(s) && Enabled(s, l) && Coherent(s) && !l.Work? && !l.Request? && !l.PodEvent?
    ensures Coherent(Next(s, l)) && Grows(s, Next(s, l))
  {
  }

  lemma SelfGrows(s: State)
    ensures Grows(s, s)
  {
  }

  lemma GrowsTransitive(a: State, b: State, c: State)
    requires Grows(a, b) && Grows(b, c)
    ensures Grows(a, c)
  {
  }

  /** Coherence holds all along a run, and later states grow out of earlier ones. */
  lemma {:induction false} RunGrows(ss: seq<State>, ls: seq<Label>, j: nat, k: nat)
    requires IsRun(ss, ls) && Coherent(ss[0]) && j <= k < |ss|
    ensures Coherent(ss[j]) && Coherent(ss[k]) && Grows(ss[j], ss[k])
    decreases k
  {
    SelfGrows(ss[k]);
    if k > 0 {
      RunGrows(ss, ls, if j == k then k - 1 else j, k - 1);
      StepGrows(ss[k - 1], ls[k - 1]);
      if j < k {
        GrowsTransitive(ss[j], ss[k - 1], ss[k]);
      }
    }
  }

  /** Every reachable state is coherent: an error time never comes without an error. */
  lemma ReachableIsCoherent(s: State)
    requires Reachable(s)
    ensures Coherent(s)
  {
    var ss, ls :| IsHistory(ss, ls) && ss[|ls|] == s;
    RunGrows(ss, ls, |ls|, |ls|);
  }
}

/**
 Recovery after a restart: the factory starts with no records and is shown the Pods that an earlier
 run of the program created and that have not finished, in any order, each any number of times, by
 any number of event handlers at once.
 */
module Recovery {
  import opened Wrappers
  import opened Records
  import opened Protocol
  import opened Coherence
  import opened Handlers

  /** The rendered template and the record a Pod was created from. */
  datatype Made = Made(spec: PodSpec, rec: Odp)

  function AnnotationsOf(m: Made): Strings {
    Decorate(m.spec, m.rec).annotations
  }

  /** The token name a reload finds. */
  function FoundToken(m: Made): string {
    if ANN_TOKEN in AnnotationsOf(m) then AnnotationsOf(m)[ANN_TOKEN] else ""
  }

  /** The reload finds the original token name exactly when there was one, or the template itself
      sets no token annotation (or an empty one). */
  lemma FoundTokenIsOriginal(m: Made)
    ensures FoundToken(m) == m.rec.tokenName <==>
            m.rec.tokenName != "" || ANN_TOKEN !in m.spec.annotations || m.spec.annotations[ANN_TOKEN] == ""
  {
  }

  type Cluster = map<string, Made>

  predicate Shows(pods: Cluster, name: string, pod: Pod) {
    name in pods && !Finished(pod) && pod.annotations == AnnotationsOf(pods[name])
  }

  /** Steps of a recovery: no requests, and only events of the unfinished Pods there are. */
  predicate Recovers(pods: Cluster, l: Label) {
    match l
    case Request(_, _, _) => false
    case PodEvent(_, name, obj) => obj.Some? && Shows(pods, name, obj.value)
    case _ => true
  }

  // ---- The invariant ----

  ghost predicate ThreadOk(s: State, pods: Cluster, t: nat)
    requires t in s.threads
  {
    var pc := s.threads[t];
    && pc.Handling? && Shows(pods, pc.name, pc.pod) && pc.name in s.odps && s.odps[pc.name] == pc.id
    && (pc.at == ToReload || pc.at == ToReadToken || pc.at == ToDispatch || pc.at == Handled)
    && (pc.at == ToReload || pc.at == ToReadToken ==> pc.id < |s.origin| && s.origin[pc.id] == ByEvent(t))
  }

  /** A thread that has handled an event of a running Pod for this record. */
  predicate SawRunning(s: State, t: nat, i: nat) {
    HandlingAt(s, t, Handled) && s.threads[t].id == i && s.threads[t].pod.phase.Running?
  }

  ghost predicate CodeOk(s: State, i: nat)
    requires i < |s.recs|
  {
    s.recs[i].resultCode == if exists t: nat :: SawRunning(s, t, i) then READY else CREATING
  }

  /** The token's data was returned by the record's one GetToken call. */
  ghost predicate DataOk(log: seq<Call>, h: nat, i: nat, r: Odp) {
    exists j :: 0 <= j < |log| && log[j].GetTokenCall? && log[j].tid == h && log[j].id == i &&
                log[j].tokenName == r.tokenName
                && r.tokenData == if log[j].token.Some? then log[j].token.value.data else map[]
  }

  predicate Same(m: Made, r: Odp) {
    r.username == m.rec.username && r.application == m.rec.application && r.tokenName == FoundToken(m)
  }

  /** What the record holds at each stage of the handler that made it. */
  ghost predicate FieldsOk(log: seq<Call>, m: Made, h: nat, i: nat, r: Odp, at: HandleStage) {
    match at
    case ToReload => r.username == "" && r.application == "" && r.tokenName == "" && r.tokenData == map[]
    case ToReadToken => Same(m, r) && r.tokenName != "" && r.tokenData == map[]
    case _ => Same(m, r) && if r.tokenName == "" then r.tokenData == map[] else DataOk(log, h, i, r)
  }

  ghost predicate RecordOk(s: State, pods: Cluster, i: nat)
    requires WF(s) && i < |s.recs|
  {
    var r := s.recs[i];
    && r.podName in pods && r.podName in s.odps && s.odps[r.podName] == i
    && r.errorTime.None? && r.error.None?
    && s.origin[i].ByEvent? && s.origin[i].handler in s.threads
    && s.threads[s.origin[i].handler].Handling? && s.threads[s.origin[i].handler].id == i
    && FieldsOk(s.log, pods[r.podName], s.origin[i].handler, i, r, s.threads[s.origin[i].handler].at)
    && CodeOk(s, i)
  }

  ghost predicate Recovering(s: State, pods: Cluster)
    requires WF(s)
  {
    && s.deletedPods == map[]
    && (forall t | t in s.threads :: ThreadOk(s, pods, t))
    && (forall i: nat | i < |s.recs| :: RecordOk(s, pods, i))
  }

  lemma DataStays(log: seq<Call>, log': seq<Call>, h: nat, i: nat, r: Odp)
    requires log <= log' && DataOk(log, h, i, r)
    ensures DataOk(log', h, i, r)
  {
    var j :| 0 <= j < |log| && log[j].GetTokenCall? && log[j].tid == h && log[j].id == i &&
             log[j].tokenName == r.tokenName
             && r.tokenData == if log[j].token.Some? then log[j].token.value.data else map[];
    assert log'[j] == log[j];
  }

  /** A new handler joins; at most one record is added for it. */
  ghost predicate Joins(s: State, s': State, tid: nat) {
    && tid !in s.threads && tid in s'.threads && s'.threads == s.threads[tid := s'.threads[tid]]
    && s'.threads[tid].Handling? && s'.threads[tid].at != Handled
    && s'.log == s.log && s.recs <= s'.recs && s.origin <= s'.origin && s'.deletedPods == s.deletedPods
    && (forall n | n in s.odps :: n in s'.odps && s'.odps[n] == s.odps[n])
  }

  lemma JoinKeepsRecord(s: State, s': State, pods: Cluster, tid: nat, i: nat)
    requires WF(s) && WF(s') && Joins(s, s', tid) && i < |s.recs| && RecordOk(s, pods, i)
    ensures RecordOk(s', pods, i)
  {
    forall t: nat ensures SawRunning(s', t, i) <==> SawRunning(s, t, i) {
    }
    assert s'.recs[i] == s.recs[i] && s'.origin[i] == s.origin[i];
  }

  lemma JoinKeepsThread(s: State, s': State, pods: Cluster, tid: nat, t: nat)
    requires WF(s) && WF(s') && Joins(s, s', tid) && t in s.threads && ThreadOk(s, pods, t)
    ensures ThreadOk(s', pods, t)
  {
  }

  lemma EventJoins(s: State, tid: nat, name: string, pod: Pod)
    requires WF(s) && tid !in s.threads && s.deletedPods == map[]
    ensures Joins(s, NextPodEvent(s, tid, name, Some(pod)), tid)
  {
    var s' := NextPodEvent(s, tid, name, Some(pod));
    assert s'.threads == s.threads[tid := s'.threads[tid]];
    if name !in s.odps {
      assert s'.recs == s.recs + [Rediscovered(name)] && s'.origin == s.origin + [ByEvent(tid)];
    }
  }

  lemma EventRecovers(s: State, pods: Cluster, tid: nat, name: string, pod: Pod)
    requires WF(s) && Recovering(s, pods) && tid !in s.threads && Shows(pods, name, pod)
    ensures Recovering(NextPodEvent(s, tid, name, Some(pod)), pods)
  {
    var s' := NextPodEvent(s, tid, name, Some(pod));
    EventJoins(s, tid, name, pod);
    forall i: nat | i < |s'.recs| ensures RecordOk(s', pods, i) {
      if i < |s.recs| {
        JoinKeepsRecord(s, s', pods, tid, i);
      } else {
        NewRecordIsOk(s, pods, tid, name, pod);
      }
    }
    forall t | t in s'.threads ensures ThreadOk(s', pods, t) {
      if t in s.threads {
        JoinKeepsThread(s, s', pods, tid, t);
      }
    }
  }

  lemma NewRecordIsOk(s: State, pods: Cluster, tid: nat, name: string, pod: Pod)
    requires WF(s) && Recovering(s, pods) && tid !in s.threads && Shows(pods, name, pod) && name !in s.odps
    ensures RecordOk(NextPodEvent(s, tid, name, Some(pod)), pods, |s.recs|)
  {
    var s', i := NextPodEvent(s, tid, name, Some(pod)), |s.recs|;
    forall t: nat ensures !SawRunning(s', t, i) {
      assert t in s.threads ==> PcOk(s, s.threads[t]);
    }
  }

  /** What the three kinds of steps of a recovering handler do to its record. */
  ghost predicate HandlerStep(tid: nat, m: Made, pc: Pc, rec: Odp, e: Effect) {
    && pc.Handling? && e.pc.Handling? && e.pc == pc.(at := e.pc.at) && !e.drops && !e.stamps
    && e.rec.podName == rec.podName && e.rec.errorTime == rec.errorTime && e.rec.error == rec.error
    && (match pc.at
        case ToReload =>
          && e.calls == [] && e.rec.tokenData == rec.tokenData && e.rec.resultCode == rec.resultCode
          && (rec.tokenName == "" ==> Same(m, e.rec))
          && (e.pc.at == if e.rec.tokenName != "" then ToReadToken else ToDispatch)
        case ToReadToken =>
          && e.pc.at == ToDispatch && |e.calls| == 1 && e.calls[0].GetTokenCall?
          && e.calls[0].tid == tid && e.calls[0].id == pc.id
          && e.calls[0].tokenName == rec.tokenName
          && e.rec == rec.(tokenData := if e.calls[0].token.Some? then e.calls[0].token.value.data else rec.tokenData)
        case _ =>
          && e.pc.at == Handled && e.calls == [] && e.rec.tokenData == rec.tokenData
          && e.rec.tokenName == rec.tokenName && e.rec.username == rec.username && e.rec.application == rec.application
          && e.rec.resultCode == if pc.pod.phase.Running? then READY else rec.resultCode)
  }

  lemma HandlerSteps(tid: nat, m: Made, pc: Pc, rec: Odp, now: int, byApplication: map<string, Template>, act: Act)
    requires pc.Handling? && ActEnabled(pc, act) && !Finished(pc.pod) && pc.pod.annotations == AnnotationsOf(m)
    requires pc.at == ToReload || pc.at == ToReadToken || pc.at == ToDispatch
    ensures HandlerStep(tid, m, pc, rec, ActEffect(tid, pc, rec, now, byApplication, act))
  {
  }

  lemma WorkKeepsRecord(s: State, pods: Cluster, tid: nat, e: Effect, i: nat)
    requires WF(s) && tid in s.threads && s.threads[tid].Handling? && ThreadOk(s, pods, tid)
    requires i < |s.recs| && RecordOk(s, pods, i) && s.threads[tid].id < |s.recs|
    requires HandlerStep(tid, pods[s.threads[tid].name], s.threads[tid], s.recs[s.threads[tid].id], e)
    requires s.threads[tid].at != Handled && WF(NextWork(s, tid, e))
    ensures RecordOk(NextWork(s, tid, e), pods, i)
  {
    var s', pc := NextWork(s, tid, e), s.threads[tid];
    var r, r', h := s.recs[i], s'.recs[i], s.origin[i].handler;
    assert s.recs[pc.id].podName == pc.name by { assert PcOk(s, pc); }
    if pc.id != i {
      forall t: nat ensures SawRunning(s', t, i) <==> SawRunning(s, t, i) {
      }
      KeepsFields(s, s', pods, i);
    } else {
      OwnStepKeepsCode(s, tid, e);
      if pc.at == ToReload || pc.at == ToReadToken {
        assert h == tid;
        if pc.at == ToReadToken {
          assert s'.log[|s.log|] == e.calls[0];
          assert DataOk(s'.log, h, i, r');
        }
      } else {
        OwnDispatchKeepsFields(s, s', pods, tid, i);
      }
    }
  }

  lemma OwnStepKeepsCode(s: State, tid: nat, e: Effect)
    requires tid in s.threads && s.threads[tid].Handling? && s.threads[tid].at != Handled
    requires s.threads[tid].id < |s.recs|
    requires CodeOk(s, s.threads[tid].id)
    requires e.pc.Handling? && e.pc == s.threads[tid].(at := e.pc.at)
    requires !e.drops && !e.stamps
    requires e.pc.at == Handled <==> s.threads[tid].at == ToDispatch
    requires e.rec.resultCode == if e.pc.at == Handled && e.pc.pod.phase.Running? then READY
                                 else s.recs[e.pc.id].resultCode
    ensures CodeOk(NextWork(s, tid, e), e.pc.id)
  {
    var s', i := NextWork(s, tid, e), e.pc.id;
    forall t: nat | t != tid ensures SawRunning(s', t, i) <==> SawRunning(s, t, i) {
    }
    assert !SawRunning(s, tid, i);
    assert SawRunning(s', tid, i) <==> e.pc.at == Handled && e.pc.pod.phase.Running?;
  }

  lemma KeepsFields(s: State, s': State, pods: Cluster, i: nat)
    requires WF(s) && WF(s') && i < |s.recs| && RecordOk(s, pods, i) && i < |s'.recs|
    requires s.log <= s'.log && s'.recs[i] == s.recs[i] && s'.threads.Keys == s.threads.Keys
    requires s'.threads[s.origin[i].handler] == s.threads[s.origin[i].handler]
    ensures FieldsOk(s'.log, pods[s.recs[i].podName], s.origin[i].handler, i, s'.recs[i],
                     s'.threads[s.origin[i].handler].at)
  {
    var r, h := s.recs[i], s.origin[i].handler;
    if DataOk(s.log, h, i, r) {
      DataStays(s.log, s'.log, h, i, r);
    }
  }

  /** Handling a Pod's phase leaves the fields that were reloaded. */
  lemma OwnDispatchKeepsFields(s: State, s': State, pods: Cluster, tid: nat, i: nat)
    requires WF(s) && WF(s') && i < |s.recs| && RecordOk(s, pods, i) && i < |s'.recs|
    requires HandlingAt(s, tid, ToDispatch) && s.threads[tid].id == i
    requires s'.threads == s.threads[tid := s.threads[tid].(at := Handled)] && s'.log == s.log
    requires var r, r' := s.recs[i], s'.recs[i];
             r'.username == r.username && r'.application == r.application &&
              r'.tokenName == r.tokenName && r'.tokenData == r.tokenData
    ensures FieldsOk(s'.log, pods[s.recs[i].podName], s.origin[i].handler, i, s'.recs[i],
                     s'.threads[s.origin[i].handler].at)
  {
    var r, r', h := s.recs[i], s'.recs[i], s.origin[i].handler;
    if DataOk(s.log, h, i, r) {
      var j :| 0 <= j < |s.log| && s.log[j].GetTokenCall? && s.log[j].tid == h && s.log[j].id == i &&
               s.log[j].tokenName == r.tokenName
               && r.tokenData == if s.log[j].token.Some? then s.log[j].token.value.data else map[];
      assert DataOk(s'.log, h, i, r');
    }
  }

  lemma WorkKeepsThread(s: State, pods: Cluster, tid: nat, e: Effect, t: nat)
    requires WF(s) && tid in s.threads && s.threads[tid].Handling? && s.threads[tid].id < |s.recs|
    requires t in s.threads && ThreadOk(s, pods, t) && ThreadOk(s, pods, tid) && s.threads[tid].at != Handled
    requires HandlerStep(tid, pods[s.threads[tid].name], s.threads[tid], s.recs[s.threads[tid].id], e)
    ensures t in NextWork(s, tid, e).threads && ThreadOk(NextWork(s, tid, e), pods, t)
  {
  }

  lemma WorkRecovers(s: State, pods: Cluster, tid: nat, act: Act)
    requires WF(s) && Enabled(s, Work(tid, act)) && Recovering(s, pods)
    ensures Recovering(Next(s, Work(tid, act)), pods)
  {
    var pc, e, s' := s.threads[tid], EffectOf(s, tid, act), Next(s, Work(tid, act));
    assert ThreadOk(s, pods, tid) && PcOk(s, pc);
    assert HandlerStep(tid, pods[pc.name], pc, s.recs[pc.id], e) by {
      HandlerSteps(tid, pods[pc.name], pc, s.recs[pc.id], s.now, s.index.byApplication, act);
    }
    WorkKeepsWF(s, tid, act);
    forall i: nat | i < |s'.recs| ensures RecordOk(s', pods, i) {
      WorkKeepsRecord(s, pods, tid, e, i);
    }
    forall t | t in s'.threads ensures ThreadOk(s', pods, t) {
      WorkKeepsThread(s, pods, tid, e, t);
    }
  }

  lemma StepRecovers(s: State, pods: Cluster, l: Label)
    requires WF(s) && Enabled(s, l) && Recovering(s, pods) && Recovers(pods, l) && s.sent == []
    ensures Recovering(Next(s, l), pods) && Next(s, l).sent == []
  {
    assert HasThread(l) && l.tid in s.threads ==> ThreadOk(s, pods, l.tid);
    if l.Work? {
      WorkRecovers(s, pods, l.tid, l.act);
    } else if l.PodEvent? {
      EventRecovers(s, pods, l.tid, l.name, l.obj.value);
    } else if l.Tick? || l.Sweep? || l.TemplateEvent? {
      OthersRecover(s, Next(s, l), pods);
    }
  }

  lemma OthersRecover(s: State, s': State, pods: Cluster)
    requires WF(s) && WF(s') && Recovering(s, pods)
    requires s'.recs == s.recs && s'.odps == s.odps && s'.threads == s.threads && s'.log == s.log
    requires s'.origin == s.origin
    requires s'.deletedPods == map[]
    ensures Recovering(s', pods)
  {
    forall t: nat, i: nat ensures SawRunning(s', t, i) <==> SawRunning(s, t, i) {
    }
    forall i: nat | i < |s'.recs| ensures RecordOk(s', pods, i) {
      assert RecordOk(s, pods, i);
    }
    forall t | t in s'.threads ensures ThreadOk(s', pods, t) {
      assert ThreadOk(s, pods, t);
    }
  }

  // ---- Whole recoveries ----

  ghost predicate IsRecovery(ss: seq<State>, ls: seq<Label>, pods: Cluster) {
    IsHistory(ss, ls) && forall k | 0 <= k < |ls| :: Recovers(pods, ls[k])
  }

  /** An event of this Pod was delivered, or one that shows it running. */
  ghost predicate Delivered(ls: seq<Label>, name: string, running: bool) {
    exists k :: 0 <= k < |ls| && EventOf(ls[k], name, running)
  }

  predicate EventOf(l: Label, name: string, running: bool) {
    l.PodEvent? && l.name == name && l.obj.Some? && (running ==> l.obj.value.phase.Running?)
  }

  /** Some event showed this Pod running with these addresses. */
  ghost predicate ShownWith(ls: seq<Label>, name: string, ips: seq<string>) {
    exists k :: 0 <= k < |ls| && EventOf(ls[k], name, true) && ls[k].obj.value.ips == ips
  }

  lemma {:induction false} HistoryRecovers(ss: seq<State>, ls: seq<Label>, pods: Cluster, k: nat)
    requires IsRecovery(ss, ls, pods) && k < |ss|
    ensures Recovering(ss[k], pods) && ss[k].sent == []
  {
    if k == 0 {
    } else {
      HistoryRecovers(ss, ls, pods, k - 1);
      StepRecovers(ss[k - 1], pods, ls[k - 1]);
    }
  }

  /** Every thread is the handler of an event that was delivered. */
  ghost predicate Explained(s: State, ls: seq<Label>) {
    forall t | t in s.threads ::
      s.threads[t].Handling? && Delivered(ls, s.threads[t].name, s.threads[t].pod.phase.Running?)
  }

  lemma ThreadOrigin(s: State, l: Label, pods: Cluster, t: nat)
    requires WF(s) && Enabled(s, l) && Coherent(s) && Recovering(s, pods) && Recovering(Next(s, l), pods)
    requires Recovers(pods, l) && t in Next(s, l).threads
    ensures var pc := Next(s, l).threads[t];
            && pc.Handling?
            && (t in s.threads ==> s.threads[t].Handling? && s.threads[t].name == pc.name && s.threads[t].pod == pc.pod)
            && (t !in s.threads ==> EventOf(l, pc.name, pc.pod.phase.Running?))
  {
    assert Next(s, l).threads[t].Handling? by { assert ThreadOk(Next(s, l), pods, t); }
    if t in s.threads {
      assert PcGrows(s.threads[t], Next(s, l).threads[t]) by { StepGrows(s, l); }
      assert ThreadOk(s, pods, t);
    } else {
      StepOneThread(s, l);
    }
  }

  lemma StepExplained(s: State, ls: seq<Label>, k: nat, pods: Cluster, s': State)
    requires k < |ls| && WF(s) && Enabled(s, ls[k]) && Coherent(s) && Explained(s, ls)
    requires Recovering(s, pods) && Recovers(pods, ls[k]) && s' == Next(s, ls[k]) && Recovering(s', pods)
    ensures Explained(s', ls)
  {
    forall t | t in s'.threads
      ensures s'.threads[t].Handling? && Delivered(ls, s'.threads[t].name, s'.threads[t].pod.phase.Running?)
    {
      ThreadOrigin(s, ls[k], pods, t);
    }
  }

  lemma {:induction false} HistoryExplained(ss: seq<State>, ls: seq<Label>, pods: Cluster, k: nat)
    requires IsRecovery(ss, ls, pods) && k < |ss|
    ensures Explained(ss[k], ls)
  {
    if k == 0 {
    } else {
      HistoryExplained(ss, ls, pods, k - 1);
      HistoryRecovers(ss, ls, pods, k - 1);
      StepRecovers(ss[k - 1], pods, ls[k - 1]);
      RunGrows(ss, ls, k - 1, k - 1);
      StepExplained(ss[k - 1], ls, k - 1, pods, ss[k]);
    }
  }

  /** Every delivered event has its handler. */
  lemma EventsAreHandled(ss: seq<State>, ls: seq<Label>, pods: Cluster, j: nat)
    requires IsRecovery(ss, ls, pods) && j < |ls| && ls[j].PodEvent?
    ensures ls[j].tid in ss[|ls|].threads
    ensures var pc := ss[|ls|].threads[ls[j].tid];
            pc.Handling? && pc.name == ls[j].name && Some(pc.pod) == ls[j].obj
  {
    var tid := ls[j].tid;
    HistoryRecovers(ss, ls, pods, j);
    HistoryRecovers(ss, ls, pods, j + 1);
    assert tid in ss[j + 1].threads && ThreadOk(ss[j + 1], pods, tid);
    RunGrows(ss, ls, j + 1, |ls|);
    assert PcGrows(ss[j + 1].threads[tid], ss[|ls|].threads[tid]);
  }

  /** When every handler has finished, the records are exactly those of the Pods shown: one for each,
      with its user, application and token name, the data GetToken returned for that token, no error,
      and Ready exactly if the Pod was shown running, then with addresses it was shown with. */
  lemma RecoveryIsComplete(ss: seq<State>, ls: seq<Label>, pods: Cluster, name: string)
    requires IsRecovery(ss, ls, pods)
    requires forall t | t in ss[|ls|].threads && ss[|ls|].threads[t].Handling? :: ss[|ls|].threads[t].at == Handled
    ensures var s := ss[|ls|];
            && (name in s.odps <==> Delivered(ls, name, false))
            && (forall i: nat | i < |s.recs| :: s.recs[i].podName in s.odps && s.odps[s.recs[i].podName] == i)
    ensures name in ss[|ls|].odps ==>
              var s, i := ss[|ls|], ss[|ls|].odps[name];
              && name in pods && Same(pods[name], s.recs[i]) && s.recs[i].error.None? && s.recs[i].errorTime.None?
              && s.recs[i].resultCode == (if Delivered(ls, name, true) then READY else CREATING)
              && (if Delivered(ls, name, true) then ShownWith(ls, name, s.recs[i].podIPs) else s.recs[i].podIPs == [])
              && (s.recs[i].tokenName == "" ==> s.recs[i].tokenData == map[])
              && (s.recs[i].tokenName != "" ==>
                    s.origin[i].ByEvent? && DataOk(s.log, s.origin[i].handler, i, s.recs[i]))
  {
    var s := ss[|ls|];
    HistoryRecovers(ss, ls, pods, |ls|);
    forall i: nat | i < |s.recs| ensures s.recs[i].podName in s.odps && s.odps[s.recs[i].podName] == i {
      assert RecordOk(s, pods, i);
    }
    if Delivered(ls, name, false) {
      var j :| 0 <= j < |ls| && EventOf(ls[j], name, false);
      EventsAreHandled(ss, ls, pods, j);
      assert ThreadOk(s, pods, ls[j].tid);
    }
    if name in s.odps {
      var i := s.odps[name];
      assert RecordOk(s, pods, i);
      var h := s.origin[i].handler;
      assert PcOk(s, s.threads[h]);
      HistoryExplained(ss, ls, pods, |ls|);
      ReadyIffShownRunning(ss, ls, pods, name);
      AddressesWereShown(ss, ls, i, name);
    }
  }

  lemma AddressesWereShown(ss: seq<State>, ls: seq<Label>, i: nat, name: string)
    requires IsHistory(ss, ls) && i < |ss[|ls|].recs| && ss[|ls|].recs[i].podName == name
    ensures ss[|ls|].recs[i].resultCode == READY ==> ShownWith(ls, name, ss[|ls|].recs[i].podIPs)
    ensures ss[|ls|].recs[i].resultCode == CREATING ==> ss[|ls|].recs[i].podIPs == []
  {
    if ss[|ls|].recs[i].resultCode == READY {
      var j := ReadyHasAddresses(ss, ls, i, |ls|);
      assert EventOf(ls[j], name, true);
    } else if ss[|ls|].recs[i].resultCode == CREATING {
      CreatingHasNoAddresses(ss, ls, i, |ls|);
    }
  }

  lemma ReadyIffShownRunning(ss: seq<State>, ls: seq<Label>, pods: Cluster, name: string)
    requires IsRecovery(ss, ls, pods) && name in ss[|ls|].odps
    requires forall t | t in ss[|ls|].threads && ss[|ls|].threads[t].Handling? :: ss[|ls|].threads[t].at == Handled
    ensures ss[|ls|].recs[ss[|ls|].odps[name]].resultCode == if Delivered(ls, name, true) then READY else CREATING
  {
    var s, i := ss[|ls|], ss[|ls|].odps[name];
    HistoryRecovers(ss, ls, pods, |ls|);
    assert RecordOk(s, pods, i);
    if Delivered(ls, name, true) {
      var j :| 0 <= j < |ls| && EventOf(ls[j], name, true);
      EventsAreHandled(ss, ls, pods, j);
      assert ThreadOk(s, pods, ls[j].tid);
      assert SawRunning(s, ls[j].tid, i);
    }
    if t: nat :| SawRunning(s, t, i) {
      assert PcOk(s, s.threads[t]);
      HistoryExplained(ss, ls, pods, |ls|);
    }
  }
}

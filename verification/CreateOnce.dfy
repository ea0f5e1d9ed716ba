/**
 When no finished Pod is handled for a name while a create request for that name is outstanding,
 every request is carried out once and on its own record.
 */
module CreateOnce {
  import opened Wrappers
  import opened Records
  import opened Protocol
  import opened Coherence
  import opened Conservation
  import opened Counting

  predicate Consumer(pc: Pc) {
    pc.Received? || pc.NotFound? || pc.Creating?
  }

  function SlotOf(pc: Pc): nat
    requires Consumer(pc)
  {
    if pc.Creating? then pc.run.slot else pc.slot
  }

  // ---- In every run ----

  /** Each name taken from the channel is worked on by one thread, under the name of the record
      whose maker sent it. */
  ghost predicate Served(s: State)
    requires WF(s)
  {
    && (forall t, u | t in s.threads && u in s.threads && t != u && Consumer(s.threads[t]) && Consumer(s.threads[u]) ::
          SlotOf(s.threads[t]) != SlotOf(s.threads[u]))
    && (forall t | t in s.threads && (s.threads[t].Received? || s.threads[t].NotFound?) ::
          s.sent[s.threads[t].slot] < |s.recs| && s.recs[s.sent[s.threads[t].slot]].podName == s.threads[t].name)
  }

  /** The threads that hold a name from the channel stay as they are, but for looking it up. */
  ghost predicate SameConsumers(s: State, s': State) {
    && s.sent <= s'.sent
    && (forall i | 0 <= i < |s.recs| :: i < |s'.recs| && s'.recs[i].podName == s.recs[i].podName)
    && (forall t | t in s'.threads && Consumer(s'.threads[t]) ::
          t in s.threads && Consumer(s.threads[t]) && SlotOf(s'.threads[t]) == SlotOf(s.threads[t]))
    && (forall t | t in s'.threads && (s'.threads[t].Received? || s'.threads[t].NotFound?) ::
          && t in s.threads && (s.threads[t].Received? || s.threads[t].NotFound?)
          && s'.threads[t].name == s.threads[t].name)
  }

  lemma SameConsumersServed(s: State, s': State)
    requires WF(s) && WF(s') && Served(s) && SameConsumers(s, s')
    ensures Served(s')
  {
  }

  lemma StepSameConsumers(s: State, l: Label)
    requires WF(s) && Enabled(s, l) && Coherent(s) && !l.Receive?
    ensures SameConsumers(s, Next(s, l))
  {
    var s' := Next(s, l);
    assert Grows(s, s') by { StepGrows(s, l); }
    StepOneThread(s, l);
    if HasThread(l) {
      NewThreadKind(s, l);
    }
    forall t | t in s'.threads && Consumer(s'.threads[t])
      ensures t in s.threads && PcGrows(s.threads[t], s'.threads[t]) {
    }
  }

  lemma ReceiveServes(s: State, tid: nat)
    requires WF(s) && Enabled(s, Receive(tid)) && Fifo(s) && Served(s)
    ensures Served(NextReceive(s, tid))
  {
  }

  lemma StepServes(s: State, l: Label)
    requires WF(s) && Enabled(s, l) && Coherent(s) && Fifo(s) && Served(s)
    ensures Served(Next(s, l))
  {
    if l.Receive? {
      ReceiveServes(s, l.tid);
    } else {
      StepSameConsumers(s, l);
      SameConsumersServed(s, Next(s, l));
    }
  }

  // ---- Under the discipline ----

  /** A create worker has looked up the name queued for this record. */
  predicate LookedUp(s: State, t: nat, i: nat) {
    && t in s.threads && (s.threads[t].NotFound? || s.threads[t].Creating?)
    && SlotOf(s.threads[t]) < |s.sent| && s.sent[SlotOf(s.threads[t])] == i
  }

  /** The record's request has not been given up and no create worker has looked its name up yet. */
  ghost predicate Outstanding(s: State, i: nat) {
    && i < |s.origin| && s.origin[i].ByRequest?
    && !AskingAt(s, s.origin[i].asker, Suppressed)
    && (forall t: nat :: !LookedUp(s, t, i))
  }

  /** A finished Pod is handled for a name between the insertion of a record and the lookup by a
      create worker of the name queued for it. */
  ghost predicate Premature(s: State, l: Label)
    requires WF(s) && Enabled(s, l)
  {
    && l.Work? && l.act.Dispatch? && Finished(s.threads[l.tid].pod)
    && exists i: nat :: Outstanding(s, i) && s.recs[i].podName == s.threads[l.tid].name
  }

  /** The record is the one its name stands for, and has no error. */
  predicate Pristine(s: State, i: nat) {
    i < |s.recs| && s.recs[i].podName in s.odps && s.odps[s.recs[i].podName] == i && s.recs[i].errorTime.None?
  }

  /** Outstanding records are pristine, and every create run works on the record whose name was sent. */
  ghost predicate Orderly(s: State)
    requires WF(s)
  {
    && (forall i: nat | Outstanding(s, i) :: Pristine(s, i))
    && (forall t | t in s.threads && s.threads[t].Creating? :: LookedUp(s, t, s.threads[t].run.id))
    && (forall t | t in s.threads :: !s.threads[t].NotFound? && !AskingAt(s, t, Suppressed))
  }

  /** What was outstanding stays so, unless it was looked up. */
  lemma OutstandingBefore(s: State, s': State, i: nat)
    requires Outstanding(s', i)
    requires i < |s.origin| && s.origin <= s'.origin
    requires forall t: nat | LookedUp(s, t, i) :: LookedUp(s', t, i)
    requires forall t: nat | AskingAt(s, t, Suppressed) :: AskingAt(s', t, Suppressed)
    ensures Outstanding(s, i)
  {
  }

  /** The effect does not give up a request and leaves outstanding records as they are. */
  ghost predicate Harmless(s: State, e: Effect)
    requires HasRecord(e.pc) && RecordOf(e.pc) < |s.recs| && (e.drops ==> e.pc.Handling?) && |s.origin| == |s.recs|
  {
    && (e.pc.Asking? ==> e.pc.ask != Suppressed)
    && (e.rec.errorTime != s.recs[RecordOf(e.pc)].errorTime ==> !Outstanding(s, RecordOf(e.pc)))
    && (e.drops ==> forall i: nat | Outstanding(s, i) :: s.recs[i].podName != e.pc.name)
  }

  lemma WorkOrderly(s: State, tid: nat, e: Effect)
    requires WF(s) && Conserved(s) && Orderly(s) && tid in s.threads
    requires HasRecord(e.pc) && RecordOf(e.pc) < |s.recs| && (e.drops || e.stamps ==> e.pc.Handling?)
    requires WF(NextWork(s, tid, e))
    requires PcGrows(s.threads[tid], e.pc) && e.rec.podName == s.recs[RecordOf(e.pc)].podName
    requires Harmless(s, e)
    requires HasRecord(s.threads[tid]) && (s.threads[tid].Creating? <==> e.pc.Creating?)
    ensures Orderly(NextWork(s, tid, e))
  {
    var s' := NextWork(s, tid, e);
    forall t: nat, i: nat ensures LookedUp(s', t, i) <==> LookedUp(s, t, i) {
    }
    forall i: nat | Outstanding(s', i) ensures Pristine(s', i) {
      OutstandingBefore(s, s', i);
      assert Pristine(s, i);
    }
  }

  /** A name taken from the channel and not looked up yet is outstanding; so is one not sent yet. */
  lemma TakenIsOutstanding(s: State, tid: nat)
    requires WF(s) && Conserved(s) && Served(s) && Enabled(s, Find(tid))
    ensures Outstanding(s, s.sent[s.threads[tid].slot])
    ensures s.recs[s.sent[s.threads[tid].slot]].podName == s.threads[tid].name
  {
    var slot := s.threads[tid].slot;
    var i := s.sent[slot];
    assert i in s.sent;
    forall t: nat ensures !LookedUp(s, t, i) {
      if LookedUp(s, t, i) {
        assert false;
      }
    }
  }

  lemma UnsentIsOutstanding(s: State, tid: nat)
    requires WF(s) && Conserved(s) && AskingAt(s, tid, ToCheck) && Required(s, tid)
    ensures Outstanding(s, s.threads[tid].id)
  {
    var i := s.threads[tid].id;
    assert i !in s.sent;
    forall t: nat ensures !LookedUp(s, t, i) {
    }
  }

  /** Only a finished Pod's event makes an event handler set an error or drop a name. */
  lemma HandlingLeavesErrors(tid: nat, pc: Pc, rec: Odp, now: int, byApplication: map<string, Template>, act: Act)
    requires pc.Handling? && ActEnabled(pc, act) && !(act.Dispatch? && Finished(pc.pod))
    ensures var e := ActEffect(tid, pc, rec, now, byApplication, act);
            e.rec.errorTime == rec.errorTime && !e.drops
  {
  }

  lemma CheckHarmless(s: State, tid: nat)
    requires WF(s) && Enabled(s, Work(tid, Check)) && Conserved(s) && Orderly(s)
    ensures Harmless(s, EffectOf(s, tid, Check))
  {
    if Required(s, tid) {
      UnsentIsOutstanding(s, tid);
      assert Pristine(s, s.threads[tid].id);
    }
  }

  lemma CreatingHarmless(s: State, tid: nat, act: Act)
    requires WF(s) && Enabled(s, Work(tid, act)) && s.threads[tid].Creating? && Orderly(s)
    ensures Harmless(s, EffectOf(s, tid, act))
  {
    assert LookedUp(s, tid, s.threads[tid].run.id);
    assert EffectOf(s, tid, act).pc.Creating?;
  }

  lemma HandlingHarmless(s: State, tid: nat, act: Act)
    requires WF(s) && Enabled(s, Work(tid, act)) && s.threads[tid].Handling?
    requires !Premature(s, Work(tid, act))
    ensures Harmless(s, EffectOf(s, tid, act))
  {
    var pc := s.threads[tid];
    assert PcOk(s, pc);
    if !(act.Dispatch? && Finished(pc.pod)) {
      HandlingLeavesErrors(tid, pc, s.recs[pc.id], s.now, s.index.byApplication, act);
    }
  }

  lemma StepHarmless(s: State, tid: nat, act: Act)
    requires WF(s) && Enabled(s, Work(tid, act)) && Conserved(s) && Orderly(s) && !Premature(s, Work(tid, act))
    ensures Harmless(s, EffectOf(s, tid, act))
  {
    if s.threads[tid].Creating? {
      CreatingHarmless(s, tid, act);
    } else if s.threads[tid].Handling? {
      HandlingHarmless(s, tid, act);
    } else {
      assert act == Check;
      CheckHarmless(s, tid);
    }
  }

  lemma StepWorkOrderly(s: State, tid: nat, act: Act)
    requires WF(s) && Enabled(s, Work(tid, act)) && Coherent(s) && Conserved(s) && Orderly(s)
    requires !Premature(s, Work(tid, act))
    ensures Orderly(Next(s, Work(tid, act)))
  {
    StepHarmless(s, tid, act);
    EffectImproves(s, tid, act);
    WorkKeepsWF(s, tid, act);
    WorkOrderly(s, tid, EffectOf(s, tid, act));
  }

  lemma FindOrderly(s: State, tid: nat)
    requires WF(s) && Enabled(s, Find(tid)) && Conserved(s) && Served(s) && Orderly(s)
    ensures Orderly(NextFind(s, tid))
    ensures var pc := NextFind(s, tid).threads[tid];
            pc.Creating? && pc.run.id == s.sent[s.threads[tid].slot]
  {
    TakenIsOutstanding(s, tid);
    var i0 := s.sent[s.threads[tid].slot];
    assert Pristine(s, i0);
    var s' := NextFind(s, tid);
    forall t: nat, i: nat | LookedUp(s, t, i) ensures LookedUp(s', t, i) {
    }
    forall i: nat | Outstanding(s', i) ensures Pristine(s', i) {
      OutstandingBefore(s, s', i);
      assert Pristine(s, i);
    }
    assert LookedUp(s', tid, i0);
    forall t | t in s'.threads && s'.threads[t].Creating? ensures LookedUp(s', t, s'.threads[t].run.id) {
      assert t == tid || LookedUp(s, t, s.threads[t].run.id);
    }
  }

  /** Steps that look nothing up, set no error and take no usable name away. */
  ghost predicate Mild(s: State, s': State) {
    && s.origin <= s'.origin && s.sent <= s'.sent && |s.recs| <= |s'.recs|
    && (forall i | 0 <= i < |s.recs| :: s'.recs[i] == s.recs[i])
    && (forall i: nat | |s.origin| <= i < |s'.origin| && s'.origin[i].ByRequest? :: Pristine(s', i))
    && (forall t | t in s.threads && !s.threads[t].Asking? :: t in s'.threads && s'.threads[t] == s.threads[t])
    && (forall t | t in s'.threads && (s'.threads[t].Creating? || s'.threads[t].NotFound?) ::
          t in s.threads && s'.threads[t] == s.threads[t])
    && (forall t: nat | AskingAt(s', t, Suppressed) :: AskingAt(s, t, Suppressed))
    && (forall i: nat | Pristine(s, i) :: Pristine(s', i))
  }

  lemma MildOrderly(s: State, s': State)
    requires WF(s) && WF(s') && Orderly(s) && Mild(s, s')
    ensures Orderly(s')
  {
    forall t: nat, i: nat | LookedUp(s, t, i) ensures LookedUp(s', t, i) {
    }
    forall t: nat ensures !AskingAt(s, t, Suppressed) {
    }
    forall i: nat | Outstanding(s', i) ensures Pristine(s', i) {
      if i < |s.origin| {
        OutstandingBefore(s, s', i);
        assert Pristine(s, i);
      }
    }
    forall t | t in s'.threads && s'.threads[t].Creating? ensures LookedUp(s', t, s'.threads[t].run.id) {
      assert LookedUp(s, t, s.threads[t].run.id);
    }
  }

  /** A new record is filed under a name that stood for no usable record. */
  lemma InsertMild(s: State, rec: Odp, origin: Origin, tid: nat, pc: Pc)
    requires WF(s) && tid !in s.threads && rec.errorTime.None?
    requires rec.podName in s.odps ==> s.recs[s.odps[rec.podName]].errorTime.Some?
    requires !pc.Creating? && !pc.NotFound? && !(pc.Asking? && pc.ask == Suppressed)
    ensures Mild(s, Goto(Insert(s, rec, origin), tid, pc))
  {
  }

  lemma GotoMild(s: State, s1: State, tid: nat, pc: Pc)
    requires WF(s) && tid !in s.threads && s1.recs == s.recs && s1.origin == s.origin && s1.sent == s.sent
    requires s1.threads == s.threads
    requires !pc.Creating? && !pc.NotFound? && !(pc.Asking? && pc.ask == Suppressed)
    requires forall i: nat :: Pristine(s, i) ==> Pristine(s1, i)
    ensures Mild(s, Goto(s1, tid, pc))
  {
    forall i: nat | Pristine(s, i) ensures Pristine(Goto(s1, tid, pc), i) {
      assert Pristine(s1, i);
    }
  }

  lemma RequestMild(s: State, tid: nat, name: string, p: Param)
    requires WF(s) && tid !in s.threads
    ensures Mild(s, NextRequest(s, tid, name, p))
  {
    if Usable(s, name) {
      GotoMild(s, s, tid, Asking(s.odps[name], false, ToCheck));
    } else {
      InsertMild(s, Requested(name, p), ByRequest(tid), tid, Asking(|s.recs|, true, ToCheck));
    }
  }

  lemma PodEventMild(s: State, tid: nat, name: string, obj: Option<Pod>)
    requires WF(s) && tid !in s.threads
    ensures Mild(s, NextPodEvent(s, tid, name, obj))
  {
    match obj
    case None =>
      GotoMild(s, if name in s.odps && !Usable(s, name) then s.(odps := s.odps - {name}) else s, tid, Removed(name));
    case Some(pod) =>
      if name in s.odps {
        GotoMild(s, s, tid, Handling(s.odps[name], name, pod, ToDispatch));
      } else if pod.uid in s.deletedPods {
        GotoMild(s, s, tid, Ignored(name, pod.uid));
      } else {
        InsertMild(s, Rediscovered(name), ByEvent(tid), tid, Handling(|s.recs|, name, pod, ToReload));
      }
  }

  lemma OthersMild(s: State, l: Label)
    requires WF(s) && Enabled(s, l) && !l.Work? && !l.Find? && !l.Request? && !l.PodEvent?
    ensures Mild(s, Next(s, l))
  {
  }

  lemma StepOrderly(s: State, l: Label)
    requires WF(s) && Enabled(s, l) && Coherent(s) && Conserved(s) && Served(s) && Orderly(s) && !Premature(s, l)
    ensures Orderly(Next(s, l))
  {
    match l
    case Work(tid, act) => StepWorkOrderly(s, tid, act);
    case Find(tid) => FindOrderly(s, tid);
    case Request(tid, name, p) =>
      RequestMild(s, tid, name, p);
      MildOrderly(s, Next(s, l));
    case PodEvent(tid, name, obj) =>
      PodEventMild(s, tid, name, obj);
      MildOrderly(s, Next(s, l));
    case _ =>
      OthersMild(s, l);
      MildOrderly(s, Next(s, l));
  }

  // ---- Whole runs ----

  ghost predicate Disciplined(ss: seq<State>, ls: seq<Label>)
    requires IsRun(ss, ls)
  {
    forall k | 0 <= k < |ls| :: !Premature(ss[k], ls[k])
  }

  lemma {:induction false} DisciplinedHistory(ss: seq<State>, ls: seq<Label>, k: nat)
    requires IsHistory(ss, ls) && Disciplined(ss, ls) && k < |ss|
    ensures Served(ss[k]) && Orderly(ss[k])
  {
    if k > 0 {
      var s, l := ss[k - 1], ls[k - 1];
      assert Enabled(s, l) && ss[k] == Next(s, l);
      DisciplinedHistory(ss, ls, k - 1);
      HistoryConserves(ss, ls, k - 1);
      RunGrows(ss, ls, k - 1, k - 1);
      StepKeepsOrder(s, l);
    }
  }

  lemma StepKeepsOrder(s: State, l: Label)
    requires WF(s) && Enabled(s, l) && !Premature(s, l)
    requires Coherent(s) && Conserved(s) && Served(s) && Orderly(s)
    ensures Served(Next(s, l)) && Orderly(Next(s, l))
  {
    StepServes(s, l);
    StepOrderly(s, l);
  }

  /** No two names in the channel are equal. */
  lemma WaitingNamesDiffer(s: State)
    requires WF(s) && Conserved(s) && Orderly(s)
    ensures Distinct(s.channel)
  {
    forall j, m | 0 <= j < m < |s.channel| ensures s.channel[j] != s.channel[m] {
      WaitingIsPristine(s, s.taken + j);
      WaitingIsPristine(s, s.taken + m);
    }
  }

  lemma WaitingIsPristine(s: State, k: nat)
    requires WF(s) && Conserved(s) && Orderly(s) && s.taken <= k < |s.sent|
    ensures Pristine(s, s.sent[k])
  {
    var i := s.sent[k];
    assert i in s.sent;
    forall t: nat ensures !LookedUp(s, t, i) {
      if LookedUp(s, t, i) {
        assert false;
      }
    }
    assert Outstanding(s, i);
  }

  /** Under the discipline, in every run: a name waits at most once, every lookup of a name finds
      the record that queued it, and no record has two create runs. */
  lemma EachRequestRunsOnce(ss: seq<State>, ls: seq<Label>, k: nat)
    requires IsHistory(ss, ls) && Disciplined(ss, ls) && k < |ss|
    ensures Distinct(ss[k].channel)
    ensures k < |ls| && ls[k].Find? ==>
              && ss[k + 1].threads[ls[k].tid].Creating?
              && ss[k + 1].threads[ls[k].tid].run.id == ss[k].sent[ss[k].threads[ls[k].tid].slot]
    ensures forall t, u | t in ss[k].threads && u in ss[k].threads && ss[k].threads[t].Creating? &&
                          ss[k].threads[u].Creating? && ss[k].threads[t].run.id == ss[k].threads[u].run.id :: t == u
  {
    var s := ss[k];
    DisciplinedHistory(ss, ls, k);
    HistoryConserves(ss, ls, k);
    WaitingNamesDiffer(s);
    if k < |ls| && ls[k].Find? {
      FindOrderly(s, ls[k].tid);
    }
    forall t, u | t in s.threads && u in s.threads && s.threads[t].Creating? && s.threads[u].Creating? &&
                  s.threads[t].run.id == s.threads[u].run.id
      ensures t == u
    {
      assert LookedUp(s, t, s.threads[t].run.id) && LookedUp(s, u, s.threads[u].run.id);
      assert SlotOf(s.threads[t]) == SlotOf(s.threads[u]);
    }
  }

  lemma ReachRequest(s: State, tid: nat, name: string, p: Param) returns (s': State)
    requires WF(s) && Reachable(s) && tid !in s.threads && name !in s.odps
    ensures WF(s') && Reachable(s')
    ensures s' == Goto(Insert(s, Requested(name, p), ByRequest(tid)), tid, Asking(|s.recs|, true, ToCheck))
  {
    NextReachable(s, Request(tid, name, p));
    s' := Next(s, Request(tid, name, p));
  }

  lemma ReachCheck(s: State, tid: nat) returns (s': State)
    requires WF(s) && Reachable(s) && AskingAt(s, tid, ToCheck) && s.threads[tid].required
    requires s.recs[s.threads[tid].id].errorTime.None?
    ensures WF(s') && Reachable(s') && s' == Goto(s, tid, s.threads[tid].(ask := ToSend))
  {
    NextReachable(s, Work(tid, Check));
    s' := Next(s, Work(tid, Check));
    assert s'.recs == s.recs && s'.log == s.log;
  }

  lemma ReachSend(s: State, tid: nat) returns (s': State)
    requires WF(s) && Reachable(s) && AskingAt(s, tid, ToSend) && |s.channel| < CREATE_QUEUE_SIZE
    ensures WF(s') && Reachable(s') && s' == NextSend(s, tid)
  {
    NextReachable(s, Send(tid));
    s' := Next(s, Send(tid));
  }

  /** A request makes a record and sends its name. */
  lemma AskAndSend(s: State, tid: nat, name: string, p: Param) returns (s': State)
    requires WF(s) && Reachable(s) && tid !in s.threads && name !in s.odps && |s.channel| < CREATE_QUEUE_SIZE
    ensures WF(s') && Reachable(s')
    ensures s' == s.(recs := s.recs + [Requested(name, p)], origin := s.origin + [ByRequest(tid)],
                     odps := s.odps[name := |s.recs|], channel := s.channel + [name],
                     sent := s.sent + [|s.recs|], threads := s.threads[tid := Asking(|s.recs|, true, Sent)])
  {
    var checked := AskAndCheck(s, tid, name, p);
    s' := ReachSend(checked, tid);
    assert s'.threads == s.threads[tid := Asking(|s.recs|, true, Sent)];
  }

  lemma AskAndCheck(s: State, tid: nat, name: string, p: Param) returns (s': State)
    requires WF(s) && Reachable(s) && tid !in s.threads && name !in s.odps
    ensures WF(s') && Reachable(s')
    ensures s' == s.(recs := s.recs + [Requested(name, p)], origin := s.origin + [ByRequest(tid)],
                     odps := s.odps[name := |s.recs|], threads := s.threads[tid := Asking(|s.recs|, true, ToSend)])
  {
    var asked := ReachRequest(s, tid, name, p);
    s' := ReachCheck(asked, tid);
    assert s'.threads == s.threads[tid := Asking(|s.recs|, true, ToSend)];
  }

  /** A create worker takes a name and looks it up. */
  lemma TakeAndFind(s: State, tid: nat) returns (s': State)
    requires WF(s) && Reachable(s) && Enabled(s, Receive(tid)) && s.channel[0] in s.odps
    ensures WF(s') && Reachable(s')
    ensures s' == s.(channel := s.channel[1..], taken := s.taken + 1,
                     threads := s.threads[tid := Creating(NewRun(s.odps[s.channel[0]], s.taken), AtTemplate)])
  {
    var taken := TakeName(s, tid);
    s' := Next(taken, Find(tid));
    NextReachable(taken, Find(tid));
    assert s'.threads == s.threads[tid := Creating(NewRun(s.odps[s.channel[0]], s.taken), AtTemplate)];
  }

  lemma TakeName(s: State, tid: nat) returns (s': State)
    requires WF(s) && Reachable(s) && Enabled(s, Receive(tid))
    ensures WF(s') && Reachable(s')
    ensures s' == s.(channel := s.channel[1..], taken := s.taken + 1,
                     threads := s.threads[tid := Received(s.channel[0], s.taken)])
  {
    s' := Next(s, Receive(tid));
    NextReachable(s, Receive(tid));
  }

  /** A Pod of this name succeeds, and the name is dropped. */
  lemma Succeed(s: State, tid: nat, name: string, pod: Pod) returns (s': State)
    requires WF(s) && Reachable(s) && tid !in s.threads && name in s.odps && pod.phase.Succeeded?
    ensures WF(s') && Reachable(s')
    ensures s' == s.(odps := s.odps - {name}, threads := s.threads[tid := Handling(s.odps[name], name, pod, ToStamp)])
  {
    s' := ShowPod(s, tid, name, pod);
    s' := DropNow(s', tid);
    assert s'.threads == s.threads[tid := Handling(s.odps[name], name, pod, ToStamp)];
  }

  lemma DropNow(s: State, tid: nat) returns (s': State)
    requires WF(s) && Reachable(s) && HandlingAt(s, tid, ToDispatch) && s.threads[tid].pod.phase.Succeeded?
    ensures WF(s') && Reachable(s')
    ensures s' == s.(odps := s.odps - {s.threads[tid].name},
                     threads := s.threads[tid := s.threads[tid].(at := ToStamp)])
  {
    s' := Next(s, Work(tid, Dispatch));
    NextReachable(s, Work(tid, Dispatch));
    assert s'.recs == s.recs && s'.log == s.log;
  }

  lemma ShowPod(s: State, tid: nat, name: string, pod: Pod) returns (s': State)
    requires WF(s) && Reachable(s) && tid !in s.threads && name in s.odps
    ensures WF(s') && Reachable(s')
    ensures s' == s.(threads := s.threads[tid := Handling(s.odps[name], name, pod, ToDispatch)])
  {
    s' := Next(s, PodEvent(tid, name, Some(pod)));
    NextReachable(s, PodEvent(tid, name, Some(pod)));
  }

  /** The discipline is needed: after a Succeeded event between the sending of a name and its lookup,
      and a new request, the name is in the channel twice; then both create runs work on the second
      record, and none on the first. */
  lemma StaleNameRunsTwice(name: string, p: Param, pod: Pod, errorTTL: int, now: int) returns (s: State)
    requires pod.phase.Succeeded?
    ensures Reachable(s)
    ensures 3 in s.threads && s.threads[3] == Creating(NewRun(1, 0), AtTemplate)
    ensures 4 in s.threads && s.threads[4] == Creating(NewRun(1, 1), AtTemplate)
    ensures s.sent == [0, 1]
  {
    s := QueueTwice(name, p, pod, errorTTL, now);
    s := TakeAndFind(s, 3);
    s := TakeAndFind(s, 4);
  }

  lemma QueueTwice(name: string, p: Param, pod: Pod, errorTTL: int, now: int) returns (s: State)
    requires pod.phase.Succeeded?
    ensures WF(s) && Reachable(s)
    ensures s.channel == [name, name] && s.odps == map[name := 1] && s.sent == [0, 1] && s.taken == 0
    ensures s.threads.Keys == {0, 1, 2}
  {
    InitReachable(errorTTL, now);
    s := AskAndSend(Init(errorTTL, now), 0, name, p);
    s := Succeed(s, 1, name, pod);
    s := AskAndSend(s, 2, name, p);
  }
}

/** What becomes of the create requests. */
module Conservation {
  import opened Wrappers
  import opened Records
  import opened Protocol
  import opened Coherence
  import opened Counting

  // ---- In every run ----

  predicate Required(s: State, t: nat) {
    t in s.threads && s.threads[t].Asking? && s.threads[t].required
  }

  /** The channel holds the names sent and not yet taken, in order. */
  ghost predicate Fifo(s: State)
    requires WF(s)
  {
    && (forall k | 0 <= k < |s.sent| :: s.sent[k] < |s.recs|)
    && (forall k | s.taken <= k < |s.sent| :: s.channel[k - s.taken] == s.recs[s.sent[k]].podName)
  }

  /** Each requested record has the one thread that made it, and its name is sent exactly when that
      thread has sent it: once. */
  ghost predicate Owned(s: State)
    requires WF(s)
  {
    && Distinct(s.sent)
    && (forall i | i in s.sent :: i < |s.origin| && s.origin[i].ByRequest?)
    && (forall i | 0 <= i < |s.origin| && s.origin[i].ByRequest? ::
          && Required(s, s.origin[i].asker)
          && s.threads[s.origin[i].asker].id == i
          && (s.threads[s.origin[i].asker].ask == Sent <==> i in s.sent))
    && (forall t | Required(s, t) :: s.origin[s.threads[t].id] == ByRequest(t))
  }

  ghost predicate Conserved(s: State)
    requires WF(s)
  {
    Fifo(s) && Owned(s)
  }

  /** Only the asking threads and the channel matter. */
  ghost predicate SameRequests(s: State, s': State) {
    && s'.channel == s.channel && s'.sent == s.sent && s'.taken == s.taken
    && (forall i | 0 <= i < |s.recs| :: i < |s'.recs| && s'.recs[i].podName == s.recs[i].podName)
    && s.origin <= s'.origin
    && (forall i | |s.origin| <= i < |s'.origin| :: s'.origin[i].ByEvent?)
    && (forall t | Required(s, t) :: Required(s', t) && s'.threads[t] == s.threads[t])
    && (forall t | Required(s', t) :: Required(s, t))
  }

  lemma SameRequestsConserved(s: State, s': State)
    requires WF(s) && WF(s') && Conserved(s) && SameRequests(s, s')
    ensures Conserved(s')
  {
    forall t | Required(s', t) ensures s'.origin[s'.threads[t].id] == ByRequest(t) {
      assert Required(s, t);
    }
    forall i | 0 <= i < |s'.origin| && s'.origin[i].ByRequest?
      ensures Required(s', s'.origin[i].asker) && s'.threads[s'.origin[i].asker] == s.threads[s.origin[i].asker]
    {
      assert i < |s.origin| && Required(s, s.origin[i].asker);
    }
  }

  lemma CheckConserves(s: State, tid: nat)
    requires WF(s) && Enabled(s, Work(tid, Check)) && Conserved(s)
    ensures Conserved(Next(s, Work(tid, Check)))
  {
  }

  lemma RequestConserves(s: State, tid: nat, name: string, p: Param)
    requires WF(s) && tid !in s.threads && Conserved(s)
    ensures Conserved(NextRequest(s, tid, name, p))
  {
    var s' := NextRequest(s, tid, name, p);
    if Usable(s, name) {
      SameRequestsConserved(s, s');
    } else {
      InsertOwned(s, tid, Requested(name, p));
    }
  }

  lemma InsertOwned(s: State, tid: nat, rec: Odp)
    requires WF(s) && tid !in s.threads && Conserved(s)
    ensures Conserved(Goto(Insert(s, rec, ByRequest(tid)), tid, Asking(|s.recs|, true, ToCheck)))
  {
    var s' := Goto(Insert(s, rec, ByRequest(tid)), tid, Asking(|s.recs|, true, ToCheck));
    assert |s.recs| !in s.sent;
    forall t | Required(s', t) ensures s'.origin[s'.threads[t].id] == ByRequest(t) {
      assert t == tid || Required(s, t);
    }
  }

  lemma SendOwned(s: State, tid: nat)
    requires WF(s) && Enabled(s, Send(tid)) && Owned(s)
    ensures Owned(NextSend(s, tid))
  {
    var s' := NextSend(s, tid);
    assert Required(s, tid) && s.threads[tid].id !in s.sent;
    forall t | Required(s', t) ensures s'.origin[s'.threads[t].id] == ByRequest(t) {
      assert Required(s, t);
    }
  }

  lemma SendConserves(s: State, tid: nat)
    requires WF(s) && Enabled(s, Send(tid)) && Conserved(s)
    ensures Conserved(NextSend(s, tid))
  {
    SendOwned(s, tid);
  }

  lemma ReceiveConserves(s: State, tid: nat)
    requires WF(s) && Enabled(s, Receive(tid)) && Conserved(s)
    ensures Conserved(NextReceive(s, tid))
  {
  }

  lemma WorkSameRequests(s: State, tid: nat, e: Effect)
    requires WF(s) && tid in s.threads && HasRecord(e.pc) && RecordOf(e.pc) < |s.recs|
    requires e.drops || e.stamps ==> e.pc.Handling?
    requires !s.threads[tid].Asking? && PcGrows(s.threads[tid], e.pc)
    requires e.rec.podName == s.recs[RecordOf(e.pc)].podName
    ensures SameRequests(s, NextWork(s, tid, e))
  {
  }

  lemma InsertSameRequests(s: State, rec: Odp, handler: nat)
    requires WF(s)
    ensures SameRequests(s, Insert(s, rec, ByEvent(handler)))
  {
  }

  lemma GotoSameRequests(s: State, s1: State, tid: nat, pc: Pc)
    requires SameRequests(s, s1) && s1.threads == s.threads && tid !in s.threads && !pc.Asking?
    ensures SameRequests(s, Goto(s1, tid, pc))
  {
    var s' := Goto(s1, tid, pc);
    forall t ensures Required(s', t) <==> Required(s1, t) {
    }
    forall t | Required(s, t) ensures Required(s', t) && s'.threads[t] == s.threads[t] {
      assert t != tid && Required(s1, t);
    }
    forall t | Required(s', t) ensures Required(s, t) {
      assert Required(s1, t);
    }
  }

  lemma PodEventSameRequests(s: State, tid: nat, name: string, obj: Option<Pod>)
    requires WF(s) && tid !in s.threads
    ensures SameRequests(s, NextPodEvent(s, tid, name, obj))
  {
    if obj.Some? && name !in s.odps && obj.value.uid !in s.deletedPods {
      InsertSameRequests(s, Rediscovered(name), tid);
      GotoSameRequests(s, Insert(s, Rediscovered(name), ByEvent(tid)), tid,
                       Handling(|s.recs|, name, obj.value, ToReload));
    } else {
      var s' := NextPodEvent(s, tid, name, obj);
      assert s'.recs == s.recs && s'.origin == s.origin;
      assert s'.threads == s.threads[tid := s'.threads[tid]];
    }
  }

  lemma StepConserves(s: State, l: Label)
    requires WF(s) && Enabled(s, l) && Coherent(s) && Conserved(s)
    ensures Conserved(Next(s, l))
  {
    match l
    case Request(tid, name, p) => RequestConserves(s, tid, name, p);
    case Send(tid) => SendConserves(s, tid);
    case Receive(tid) => ReceiveConserves(s, tid);
    case Work(tid, act) => WorkConserves(s, tid, act);
    case PodEvent(tid, name, obj) =>
      PodEventSameRequests(s, tid, name, obj);
      SameRequestsConserved(s, Next(s, l));
    case _ =>
      assert SameRequests(s, Next(s, l));
      SameRequestsConserved(s, Next(s, l));
  }

  lemma WorkConserves(s: State, tid: nat, act: Act)
    requires WF(s) && Enabled(s, Work(tid, act)) && Coherent(s) && Conserved(s)
    ensures Conserved(Next(s, Work(tid, act)))
  {
    if act.Check? {
      CheckConserves(s, tid);
    } else {
      EffectImproves(s, tid, act);
      WorkSameRequests(s, tid, EffectOf(s, tid, act));
      SameRequestsConserved(s, Next(s, Work(tid, act)));
    }
  }

  lemma {:induction false} HistoryConserves(ss: seq<State>, ls: seq<Label>, k: nat)
    requires IsHistory(ss, ls) && k < |ss|
    ensures Conserved(ss[k])
  {
    if k == 0 {
    } else {
      HistoryConserves(ss, ls, k - 1);
      RunGrows(ss, ls, k - 1, k - 1);
      StepConserves(ss[k - 1], ls[k - 1]);
    }
  }

  /** The calls of GetOnDemandPod that made a record and are at this point. */
  function AtStage(s: State, ask: AskStage): set<nat> {
    set t | t in s.threads && Required(s, t) && s.threads[t].ask == ask
  }

  function RequestedRecords(s: State): set<nat> {
    set i: nat | 0 <= i < |s.origin| && s.origin[i].ByRequest?
  }

  /** In every reachable state: records made by requests are the names sent, the sends pending and
      those suppressed by an error; names sent are the names taken and the at most 100 waiting. */
  lemma RequestsBalance(ss: seq<State>, ls: seq<Label>, k: nat)
    requires IsHistory(ss, ls) && k < |ss|
    ensures var s := ss[k];
            |RequestedRecords(s)| ==
              |s.sent| + |AtStage(s, ToCheck)| + |AtStage(s, ToSend)| + |AtStage(s, Suppressed)|
    ensures |ss[k].sent| == ss[k].taken + |ss[k].channel| && |ss[k].channel| <= 100
  {
    var s := ss[k];
    HistoryConserves(ss, ls, k);
    AskersMatchRecords(s);
    SendersMatchSent(s);
    StagesPartition(s);
  }

  /** In every history, a name waits to be sent only while the channel holds 100 names. */
  lemma SendWaitsForRoom(ss: seq<State>, ls: seq<Label>, k: nat, t: nat)
    requires IsHistory(ss, ls) && k < |ss| && AskingAt(ss[k], t, ToSend)
    ensures !Enabled(ss[k], Send(t)) <==> |ss[k].channel| == 100
  {
  }

  lemma StagesPartition(s: State)
    requires WF(s)
    ensures |set t | t in s.threads && Required(s, t)| ==
            |AtStage(s, Sent)| + |AtStage(s, ToCheck)| + |AtStage(s, ToSend)| + |AtStage(s, Suppressed)|
  {
    var all := set t | t in s.threads && Required(s, t);
    var sent, toCheck, toSend, suppressed :=
      AtStage(s, Sent), AtStage(s, ToCheck), AtStage(s, ToSend), AtStage(s, Suppressed);
    forall t | t in all ensures t in sent + toCheck + (toSend + suppressed) {
      assert PcOk(s, s.threads[t]);
    }
    assert all == sent + toCheck + (toSend + suppressed);
    assert sent !! toCheck && toSend !! suppressed && (sent + toCheck) !! (toSend + suppressed);
  }

  lemma AskersMatchRecords(s: State)
    requires WF(s) && Conserved(s)
    ensures |set t | t in s.threads && Required(s, t)| == |RequestedRecords(s)|
  {
    var asker := map i: nat | i in RequestedRecords(s) :: s.origin[i].asker;
    ImageSize(RequestedRecords(s), asker);
    forall t | t in s.threads && Required(s, t) ensures s.threads[t].id in asker && asker[s.threads[t].id] == t {
      assert PcOk(s, s.threads[t]);
    }
    assert (set i | i in RequestedRecords(s) :: asker[i]) == (set t | t in s.threads && Required(s, t));
  }

  lemma SendersMatchSent(s: State)
    requires WF(s) && Conserved(s)
    ensures |AtStage(s, Sent)| == |s.sent|
  {
    ElementCount(s.sent);
    var asker := map i: nat | i in Elements(s.sent) :: s.origin[i].asker;
    ImageSize(Elements(s.sent), asker);
    forall t | t in AtStage(s, Sent) ensures s.threads[t].id in asker && asker[s.threads[t].id] == t {
      assert PcOk(s, s.threads[t]);
    }
    assert (set i | i in Elements(s.sent) :: asker[i]) == AtStage(s, Sent);
  }
}

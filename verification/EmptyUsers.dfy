/**
 Which users a create run can mix up. A run may find a record that a Pod event has just made and whose
 fields are not reloaded yet: then it works for the empty user.
 */
module EmptyUsers {
  import opened Wrappers
  import opened Records
  import opened Protocol
  import opened Coherence
  import opened Pipeline
  import opened Identity
  import opened CreateOnce
  import opened Tokens
  import opened StrayTokens

  /** The record's user, or the empty one if a Pod event made the record. */
  predicate Agrees(s: State, i: nat, user: string)
    requires i < |s.recs| && i < |s.origin|
  {
    user == s.recs[i].username || (s.origin[i].ByEvent? && user == "")
  }

  /** Whom the run looked up, and whom it asked a token, rendered the template and created the Pod for. */
  ghost predicate RunAgrees(s: State, run: Run, stage: CreateStage)
    requires run.id < |s.recs| && run.id < |s.origin|
  {
    && (Looked(stage) ==> Agrees(s, run.id, run.who))
    && (stage == Ended(TokenFailed) || run.token.Some? ==> Agrees(s, run.id, run.tokenUser))
    && (run.data.Some? ==> Agrees(s, run.id, run.data.value.userName))
    && (run.pod.Some? ==> ANN_USER_NAME in run.pod.value.annotations &&
                          Agrees(s, run.id, run.pod.value.annotations[ANN_USER_NAME]))
  }

  ghost predicate AllAgree(s: State)
    requires WF(s)
  {
    forall t | t in s.threads && s.threads[t].Creating? ::
      PcOk(s, s.threads[t]) && RunAgrees(s, s.threads[t].run, s.threads[t].stage)
  }

  /** What a run's step takes from its record, it takes as it is. */
  ghost predicate TakesUser(run: Run, stage: CreateStage, run': Run, stage': CreateStage, user: string) {
    && run'.id == run.id
    && (Looked(stage') ==> run'.who == user || (Looked(stage) && run'.who == run.who))
    && (stage' == Ended(TokenFailed) || run'.token.Some? ==>
          run'.tokenUser == user || (run.token.Some? && run'.tokenUser == run.tokenUser))
    && (run'.data.Some? ==> run'.data == run.data || run'.data.value.userName == user)
    && (run'.pod.Some? && run'.pod != run.pod ==>
          ANN_USER_NAME in run'.pod.value.annotations && run'.pod.value.annotations[ANN_USER_NAME] == user)
  }

  lemma CreateTakesUser(tid: nat, pc: Pc, rec: Odp, now: int, byApplication: map<string, Template>, act: Act)
    requires pc.Creating? && ActEnabled(pc, act) && StageOk(pc.run, pc.stage)
    ensures var e := ActEffect(tid, pc, rec, now, byApplication, act);
            e.pc.Creating? && TakesUser(pc.run, pc.stage, e.pc.run, e.pc.stage, rec.username)
  {
  }

  lemma AgreesStays(s: State, s': State, i: nat, user: string)
    requires WF(s) && WF(s') && Reloads(s) && KeepsUsers(s, s') && i < |s.recs| && Agrees(s, i, user)
    ensures i < |s'.recs| && Agrees(s', i, user)
  {
    if !Settled(s, i) {
      assert s.origin[i].ByEvent? && user == "";
    }
  }

  lemma RunAgreesStays(s: State, s': State, run: Run, stage: CreateStage)
    requires WF(s) && WF(s') && Reloads(s) && KeepsUsers(s, s') && run.id < |s.recs| && RunAgrees(s, run, stage)
    ensures run.id < |s'.recs| && RunAgrees(s', run, stage)
  {
    forall user | Agrees(s, run.id, user) ensures run.id < |s'.recs| && Agrees(s', run.id, user) {
      AgreesStays(s, s', run.id, user);
    }
  }

  lemma OwnStepAgrees(s: State, tid: nat, act: Act)
    requires WF(s) && Enabled(s, Work(tid, act)) && s.threads[tid].Creating?
    requires RunAgrees(s, s.threads[tid].run, s.threads[tid].stage)
    ensures var pc := EffectOf(s, tid, act).pc;
            pc.Creating? && pc.run.id == s.threads[tid].run.id && RunAgrees(s, pc.run, pc.stage)
  {
    var pc := s.threads[tid];
    CreateTakesUser(tid, pc, s.recs[pc.run.id], s.now, s.index.byApplication, act);
  }

  lemma StepAgrees(s: State, l: Label)
    requires WF(s) && Enabled(s, l) && Coherent(s) && Reloads(s) && AllAgree(s)
    ensures AllAgree(Next(s, l))
  {
    var s' := Next(s, l);
    StepKeepsUsers(s, l);
    forall t | t in s'.threads && s'.threads[t].Creating?
      ensures PcOk(s', s'.threads[t]) && RunAgrees(s', s'.threads[t].run, s'.threads[t].stage)
    {
      ThreadAgrees(s, l, t);
    }
  }

  lemma ThreadAgrees(s: State, l: Label, t: nat)
    requires WF(s) && Enabled(s, l) && Reloads(s) && AllAgree(s) && KeepsUsers(s, Next(s, l))
    requires t in Next(s, l).threads && Next(s, l).threads[t].Creating?
    ensures var s' := Next(s, l);
            PcOk(s', s'.threads[t]) && RunAgrees(s', s'.threads[t].run, s'.threads[t].stage)
  {
    var s' := Next(s, l);
    assert PcOk(s', s'.threads[t]);
    if t in s.threads && s.threads[t].Creating? {
      if l.Work? && l.tid == t {
        OwnStepAgrees(s, t, l.act);
      } else {
        OtherStep(s, l, t);
      }
      RunAgreesStays(s, s', s'.threads[t].run, s'.threads[t].stage);
    } else {
      NewThreadStarts(s, l, t);
    }
  }

  lemma {:induction false} HistoryAgrees(ss: seq<State>, ls: seq<Label>, k: nat)
    requires IsHistory(ss, ls) && k < |ss|
    ensures AllAgree(ss[k])
  {
    if k > 0 {
      HistoryAgrees(ss, ls, k - 1);
      AgreesNext(ss, ls, k);
    }
  }

  lemma AgreesNext(ss: seq<State>, ls: seq<Label>, k: nat)
    requires IsHistory(ss, ls) && 0 < k < |ss| && AllAgree(ss[k - 1])
    ensures AllAgree(ss[k])
  {
    assert Enabled(ss[k - 1], ls[k - 1]) && ss[k] == Next(ss[k - 1], ls[k - 1]);
    HistoryIdentified(ss, ls, k - 1);
    RunGrows(ss, ls, k - 1, k - 1);
    StepAgrees(ss[k - 1], ls[k - 1]);
  }

  /** In every run, whoever was looked up before a token or a Pod was created, and whoever that was
      created for, is the record's user; or the empty user, if a Pod event made the record. */
  lemma NoOtherUser(ss: seq<State>, ls: seq<Label>, n: nat, k: nat)
    requires IsHistory(ss, ls) && n < |ss| && k < |ss[n].log|
    requires ss[n].log[k].CreateTokenCall? || ss[n].log[k].CreatePodCall?
    ensures var s, c := ss[n], ss[n].log[k];
            && c.tid in s.threads && s.threads[c.tid].Creating? && c.id < |s.recs| && c.id < |s.origin|
            && AccessChecked(s.log[..k], c.tid, s.threads[c.tid].run)
            && Agrees(s, c.id, s.threads[c.tid].run.who)
            && (c.CreateTokenCall? ==> Agrees(s, c.id, c.who))
            && (c.CreatePodCall? ==> ANN_USER_NAME in c.pod.annotations &&
                                     Agrees(s, c.id, c.pod.annotations[ANN_USER_NAME]))
  {
    CallsFollowAccessCheck(ss, ls, n, k);
    HistoryAgrees(ss, ls, n);
    var s, c := ss[n], ss[n].log[k];
    assert PcOk(s, s.threads[c.tid]);
    assert RunAgrees(s, s.threads[c.tid].run, s.threads[c.tid].stage);
  }

  // ---- Exactly when the two users are the same ----

  /** The step is the reload of this record, and its Pod names a user. */
  predicate Renames(s: State, l: Label, i: nat) {
    && l.Work? && l.act.Reload? && l.tid in s.threads && s.threads[l.tid].Handling? && s.threads[l.tid].id == i
    && ANN_USER_NAME in s.threads[l.tid].pod.annotations && s.threads[l.tid].pod.annotations[ANN_USER_NAME] != ""
  }

  lemma StepUser(s: State, l: Label, i: nat)
    requires WF(s) && Enabled(s, l) && Coherent(s) && Reloads(s) && i < |s.recs| && |s.recs| <= |Next(s, l).recs|
    ensures var s' := Next(s, l);
            if Renames(s, l, i) then s.recs[i].username == "" && s'.recs[i].username != "" && !Settled(s, i)
            else s'.recs[i].username == s.recs[i].username
  {
    if l.Work? {
      var pc := s.threads[l.tid];
      if l.act.Reload? {
        assert HandlingAt(s, l.tid, ToReload);
      } else {
        OnlyReloadRenames(l.tid, pc, s.recs[RecordOf(pc)], s.now, s.index.byApplication, l.act);
      }
    } else {
      QuietStep(s, l);
    }
  }

  ghost predicate RenamedBetween(ss: seq<State>, ls: seq<Label>, i: nat, j: nat, k: nat)
    requires k <= |ls| <= |ss|
  {
    exists m :: j <= m < k && Renames(ss[m], ls[m], i)
  }

  lemma RenamedByLast(ss: seq<State>, ls: seq<Label>, i: nat, j: nat, k: nat)
    requires j <= k < |ls| <= |ss|
    ensures RenamedBetween(ss, ls, i, j, k + 1) <==> RenamedBetween(ss, ls, i, j, k) || Renames(ss[k], ls[k], i)
  {
  }

  /** The record's user between two states: the same, or brought by the reload. */
  ghost predicate UserKept(ss: seq<State>, ls: seq<Label>, i: nat, j: nat, k: nat)
    requires j <= k <= |ls| < |ss| && i < |ss[j].recs| && i < |ss[k].recs|
  {
    if RenamedBetween(ss, ls, i, j, k)
    then ss[j].recs[i].username == "" && ss[k].recs[i].username != "" && i < |ss[k].origin| && Settled(ss[k], i)
    else ss[k].recs[i].username == ss[j].recs[i].username
  }

  lemma UserAtStep(ss: seq<State>, ls: seq<Label>, i: nat, k: nat)
    requires IsHistory(ss, ls) && k < |ls| && i < |ss[k].recs|
    ensures i < |ss[k + 1].recs|
    ensures if Renames(ss[k], ls[k], i)
            then ss[k].recs[i].username == "" && ss[k + 1].recs[i].username != "" && !Settled(ss[k], i)
            else ss[k + 1].recs[i].username == ss[k].recs[i].username
    ensures Settled(ss[k], i) || Renames(ss[k], ls[k], i) ==> Settled(ss[k + 1], i)
  {
    HistoryIdentified(ss, ls, k);
    RunGrows(ss, ls, k, k + 1);
    StepUser(ss[k], ls[k], i);
    StepKeepsUsers(ss[k], ls[k]);
    if Renames(ss[k], ls[k], i) {
      ReloadSettles(ss[k], ls[k].tid);
    }
  }

  lemma ReloadSettles(s: State, h: nat)
    requires WF(s) && Reloads(s) && Enabled(s, Work(h, Reload)) && WF(Next(s, Work(h, Reload)))
    ensures Settled(Next(s, Work(h, Reload)), s.threads[h].id)
  {
    assert HandlingAt(s, h, ToReload);
    ReloadStages(h, s.threads[h], s.recs[s.threads[h].id], s.now, s.index.byApplication, Reload);
  }

  lemma {:induction false} UserBetween(ss: seq<State>, ls: seq<Label>, i: nat, j: nat, k: nat)
    requires IsHistory(ss, ls) && j <= k <= |ls| && i < |ss[j].recs|
    ensures i < |ss[k].recs| && UserKept(ss, ls, i, j, k)
    decreases k
  {
    if j < k {
      UserBetween(ss, ls, i, j, k - 1);
      UserOneStepOn(ss, ls, i, j, k);
    }
  }

  lemma UserOneStepOn(ss: seq<State>, ls: seq<Label>, i: nat, j: nat, k: nat)
    requires IsHistory(ss, ls) && j < k <= |ls| && i < |ss[j].recs| && i < |ss[k - 1].recs|
    requires UserKept(ss, ls, i, j, k - 1)
    ensures i < |ss[k].recs| && UserKept(ss, ls, i, j, k)
  {
    UserAtStep(ss, ls, i, k - 1);
    RenamedByLast(ss, ls, i, j, k - 1);
  }

  /** A run that is past its lookup remembers whom it looked up. */
  lemma {:induction false} WhoStays(ss: seq<State>, ls: seq<Label>, t: nat, j: nat, k: nat)
    requires IsRun(ss, ls) && j <= k < |ss| && t in ss[j].threads && ss[j].threads[t].Creating?
    requires Looked(ss[j].threads[t].stage)
    ensures t in ss[k].threads && ss[k].threads[t].Creating? && Looked(ss[k].threads[t].stage)
    ensures ss[k].threads[t].run.who == ss[j].threads[t].run.who && ss[k].threads[t].run.id == ss[j].threads[t].run.id
    decreases k - j
  {
    if j < k {
      WhoAtStep(ss, ls, t, j);
      WhoStays(ss, ls, t, j + 1, k);
    }
  }

  lemma WhoAtStep(ss: seq<State>, ls: seq<Label>, t: nat, k: nat)
    requires IsRun(ss, ls) && k < |ls| && t in ss[k].threads && ss[k].threads[t].Creating?
    requires Looked(ss[k].threads[t].stage)
    ensures t in ss[k + 1].threads && ss[k + 1].threads[t].Creating? && Looked(ss[k + 1].threads[t].stage)
    ensures ss[k + 1].threads[t].run.who == ss[k].threads[t].run.who
    ensures ss[k + 1].threads[t].run.id == ss[k].threads[t].run.id
  {
    var s, l := ss[k], ls[k];
    assert Enabled(s, l) && ss[k + 1] == Next(s, l);
    if l.Work? && l.tid == t {
      var pc := s.threads[t];
      ActKeepsWho(t, pc, s.recs[pc.run.id], s.now, s.index.byApplication, l.act);
    } else {
      OtherStep(s, l, t);
    }
  }

  lemma ActKeepsWho(tid: nat, pc: Pc, rec: Odp, now: int, byApplication: map<string, Template>, act: Act)
    requires pc.Creating? && ActEnabled(pc, act) && StageOk(pc.run, pc.stage) && Looked(pc.stage)
    ensures var e := ActEffect(tid, pc, rec, now, byApplication, act);
            e.pc.Creating? && Looked(e.pc.stage) && e.pc.run.who == pc.run.who && e.pc.run.id == pc.run.id
  {
  }

  /** The Pod that a run creates carries the user that the run looked up if and only if no reload
      between the two brought the record another one. */
  lemma PodCarriesTheUserLookedUp(ss: seq<State>, ls: seq<Label>, t: nat, i: nat, j: nat, k: nat)
    requires IsHistory(ss, ls) && j < k < |ls| && ls[j].Work? && ls[j].act.Lookup? && ls[j].tid == t
    requires ls[k].Work? && ls[k].act.CreatePod? && ls[k].tid == t && ss[j].threads[t].run.id == i
    ensures |ss[j + 1].log| == |ss[j].log| + 1 && ss[j + 1].log[|ss[j].log|].LookupCall?
    ensures |ss[k + 1].log| == |ss[k].log| + 1 && ss[k + 1].log[|ss[k].log|].CreatePodCall?
    ensures var looked, made := ss[j + 1].log[|ss[j].log|], ss[k + 1].log[|ss[k].log|].pod;
            && ANN_USER_NAME in made.annotations
            && (made.annotations[ANN_USER_NAME] == looked.who <==> !RenamedBetween(ss, ls, i, j, k))
  {
    LookupAsks(ss[j], t, ls[j].act);
    assert ss[j + 1] == Next(ss[j], ls[j]) && ss[k + 1] == Next(ss[k], ls[k]);
    WhoStays(ss, ls, t, j + 1, k);
    UserBetween(ss, ls, i, j, k);
    PodNames(ss[k], t, ls[k].act);
  }

  lemma LookupAsks(s: State, t: nat, act: Act)
    requires WF(s) && Enabled(s, Work(t, act)) && act.Lookup?
    ensures var s', run := Next(s, Work(t, act)), s.threads[t].run;
            && s'.log == s.log + [LookupCall(t, run.id, s.recs[run.id].username, act.user)]
            && t in s'.threads && s'.threads[t].Creating? && Looked(s'.threads[t].stage)
            && s'.threads[t].run.id == run.id
  {
  }

  lemma PodNames(s: State, t: nat, act: Act)
    requires WF(s) && Enabled(s, Work(t, act)) && act.CreatePod?
    ensures var s', run := Next(s, Work(t, act)), s.threads[t].run;
            && |s'.log| == |s.log| + 1 && s'.log[|s.log|].CreatePodCall?
            && ANN_USER_NAME in s'.log[|s.log|].pod.annotations
            && s'.log[|s.log|].pod.annotations[ANN_USER_NAME] == s.recs[run.id].username
  {
    DecorateIsFaithful(s.threads[t].run.spec.value, s.recs[s.threads[t].run.id]);
  }

  // ---- A run that looks up the empty user ----

  /** A Pod event makes a new record, whose fields are not reloaded yet. */
  lemma Rediscover(s: State, tid: nat, name: string, pod: Pod) returns (s': State)
    requires WF(s) && Reachable(s) && tid !in s.threads && name !in s.odps && pod.uid !in s.deletedPods
    ensures WF(s') && Reachable(s')
    ensures s' == s.(recs := s.recs + [Rediscovered(name)], origin := s.origin + [ByEvent(tid)],
                     odps := s.odps[name := |s.recs|],
                     threads := s.threads[tid := Handling(|s.recs|, name, pod, ToReload)])
  {
    s' := Next(s, PodEvent(tid, name, Some(pod)));
    NextReachable(s, PodEvent(tid, name, Some(pod)));
  }

  lemma ReloadNow(s: State, h: nat) returns (s': State)
    requires WF(s) && Reachable(s) && HandlingAt(s, h, ToReload)
    ensures WF(s') && Reachable(s') && s'.log == s.log
    ensures var pc := s.threads[h];
            && s'.recs == s.recs[pc.id := Restored(s.recs[pc.id], pc.pod.annotations)]
            && h in s'.threads && s'.threads == s.threads[h := s'.threads[h]]
  {
    s' := Next(s, Work(h, Reload));
    NextReachable(s, Work(h, Reload));
  }

  /** A name is queued, and its record is dropped and made anew by a Pod event before the lookup. */
  lemma QueueAndRediscover(name: string, p: Param, tmpl: Template, finished: Pod, pod: Pod, errorTTL: int, now: int)
      returns (s: State)
    requires finished.phase.Succeeded?
    ensures WF(s) && Reachable(s) && |s.recs| == 2 && s.recs[1] == Rediscovered(name) && s.log == []
    ensures s.threads.Keys == {0, 1, 2} && s.threads[2] == Handling(1, name, pod, ToReload)
    ensures s.channel == [name] && s.sent == [0] && s.taken == 0 && name in s.odps && s.odps[name] == 1
    ensures tmpl.application in s.index.byApplication && s.index.byApplication[tmpl.application] == tmpl
  {
    s := LoadTemplate(tmpl, errorTTL, now);
    s := AskAndSend(s, 0, name, p);
    s := Succeed(s, 1, name, finished);
    s := Rediscover(s, 2, name, pod);
  }

  /** The exception exists: with a template for the empty application, a run can look up the empty user
      and create a Pod for another one, whom the record's reload brought in between. */
  lemma EmptyUserIsLookedUp(name: string, p: Param, tmpl: Template, nobody: UserInfo, spec: PodSpec, finished: Pod,
                            pod: Pod, errorTTL: int, now: int)
      returns (s: State)
    requires tmpl.application == "" && AccessAllowed(tmpl, nobody) && finished.phase.Succeeded?
    requires ANN_USER_NAME in pod.annotations
    ensures Reachable(s) && |s.log| > 1 && s.log[0] == LookupCall(3, 1, "", Some(nobody))
    ensures var c := s.log[|s.log| - 1];
            && c.CreatePodCall? && c.tid == 3 && c.id == 1 && c.ok && ANN_USER_NAME in c.pod.annotations
            && c.pod.annotations[ANN_USER_NAME] == pod.annotations[ANN_USER_NAME]
  {
    s := AuthoriseNobody(name, p, tmpl, nobody, finished, pod, errorTTL, now);
    s := ReloadNow(s, 2);
    s := RenderIt(s, 3, 1, spec);
    s := CreateIt(s, 3, 1, spec);
  }

  lemma AuthoriseNobody(name: string, p: Param, tmpl: Template, nobody: UserInfo, finished: Pod, pod: Pod,
                        errorTTL: int, now: int)
      returns (s: State)
    requires tmpl.application == "" && AccessAllowed(tmpl, nobody) && finished.phase.Succeeded?
    ensures WF(s) && Reachable(s) && |s.recs| == 2 && s.recs[1] == Rediscovered(name)
    ensures s.log == [LookupCall(3, 1, "", Some(nobody))]
    ensures RunsOn(s, 3, 1) && s.threads[3].stage == AtRender
    ensures 2 in s.threads && s.threads[2] == Handling(1, name, pod, ToReload)
  {
    s := QueueAndRediscover(name, p, tmpl, finished, pod, errorTTL, now);
    s := TakeAndFind(s, 3);
    s := Authorise(s, 3, 1, tmpl, nobody);
  }
}

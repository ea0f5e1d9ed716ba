/** Whose record it is: the user and application a record stands for. */
module Identity {
  import opened Records
  import opened Protocol
  import opened Coherence
  import opened Pipeline

  /** The record's user and application have been filled in. */
  ghost predicate Settled(s: State, i: nat)
    requires i < |s.origin|
  {
    s.origin[i].ByEvent? ==> !HandlingAt(s, s.origin[i].handler, ToReload)
  }

  /** A rediscovered record is filled in by the handler that made it, and by no other thread. */
  ghost predicate Reloads(s: State)
    requires WF(s)
  {
    && (forall i | 0 <= i < |s.origin| && s.origin[i].ByEvent? ::
          && s.origin[i].handler in s.threads && s.threads[s.origin[i].handler].Handling?
          && s.threads[s.origin[i].handler].id == i
          && (!Settled(s, i) ==> s.recs[i].username == "" && s.recs[i].application == ""))
    && (forall t | HandlingAt(s, t, ToReload) || HandlingAt(s, t, ToReadToken) ::
          s.origin[s.threads[t].id] == ByEvent(t))
  }

  /** What a run has learnt about its user agrees with its record. */
  ghost predicate SameUser(run: Run, stage: CreateStage, rec: Odp) {
    && (run.template.Some? ==> run.template.value.application == rec.application)
    && (Looked(stage) ==> run.who == rec.username)
    && (stage == Ended(TokenFailed) || run.token.Some? ==> run.tokenUser == rec.username)
    && (run.data.Some? ==> run.data.value.userName == rec.username && run.data.value.application == rec.application)
    && (run.pod.Some? ==> ANN_USER_NAME in run.pod.value.annotations &&
                          run.pod.value.annotations[ANN_USER_NAME] == rec.username)
  }

  /** The run is for a request, or its template is for an application with a name. */
  ghost predicate Named(s: State, run: Run)
    requires run.id < |s.origin|
  {
    run.template.Some? && (s.origin[run.id].ByRequest? || run.template.value.application != "")
  }

  ghost predicate Identified(s: State)
    requires WF(s)
  {
    forall t | t in s.threads && s.threads[t].Creating? && Named(s, s.threads[t].run) ::
      Settled(s, s.threads[t].run.id) && SameUser(s.threads[t].run, s.threads[t].stage, s.recs[s.threads[t].run.id])
  }

  lemma CreateKeepsUser(tid: nat, pc: Pc, rec: Odp, now: int, byApplication: map<string, Template>, act: Act)
    requires pc.Creating? && ActEnabled(pc, act) && StageOk(pc.run, pc.stage)
    requires pc.run.template.Some? ==> SameUser(pc.run, pc.stage, rec)
    requires forall a | a in byApplication :: byApplication[a].application == a
    ensures var e := ActEffect(tid, pc, rec, now, byApplication, act);
            e.pc.Creating? && (e.pc.run.template.Some? ==> SameUser(e.pc.run, e.pc.stage, e.rec))
  {
  }

  /** Only the reload changes a record's user or application. */
  lemma OnlyReloadRenames(tid: nat, pc: Pc, rec: Odp, now: int, byApplication: map<string, Template>, act: Act)
    requires ActEnabled(pc, act) && (pc.Creating? ==> StageOk(pc.run, pc.stage)) && !act.Reload?
    ensures var e := ActEffect(tid, pc, rec, now, byApplication, act);
            e.rec.username == rec.username && e.rec.application == rec.application
  {
  }

  lemma WorkReloads(s: State, tid: nat, act: Act)
    requires WF(s) && Enabled(s, Work(tid, act)) && Coherent(s) && Reloads(s)
    ensures Reloads(Next(s, Work(tid, act)))
  {
    var pc, e, s' := s.threads[tid], EffectOf(s, tid, act), Next(s, Work(tid, act));
    EffectImproves(s, tid, act);
    if !act.Reload? {
      OnlyReloadRenames(tid, pc, s.recs[RecordOf(pc)], s.now, s.index.byApplication, act);
    }
    ReloadStages(tid, pc, s.recs[RecordOf(pc)], s.now, s.index.byApplication, act);
    WorkFrameReloads(s, tid, act.Reload?, e);
  }

  /** No thread goes back to reloading. */
  lemma ReloadStages(tid: nat, pc: Pc, rec: Odp, now: int, byApplication: map<string, Template>, act: Act)
    requires ActEnabled(pc, act) && (pc.Creating? ==> StageOk(pc.run, pc.stage))
    ensures var e := ActEffect(tid, pc, rec, now, byApplication, act);
            e.pc.Handling? ==> pc.Handling? && e.pc.at != ToReload && (e.pc.at == ToReadToken ==> pc.at == ToReload)
    ensures act.Reload? ==> pc.Handling? && pc.at == ToReload
  {
  }

  lemma WorkFrameReloads(s: State, tid: nat, reload: bool, e: Effect)
    requires WF(s) && Reloads(s) && tid in s.threads && HasRecord(s.threads[tid])
    requires HasRecord(e.pc) && RecordOf(e.pc) < |s.recs| && (e.drops || e.stamps ==> e.pc.Handling?)
    requires WF(NextWork(s, tid, e)) && PcGrows(s.threads[tid], e.pc)
    requires e.pc.Handling? ==> e.pc.at != ToReload && (e.pc.at == ToReadToken ==> HandlingAt(s, tid, ToReload))
    requires if reload then HandlingAt(s, tid, ToReload)
             else e.rec.username == s.recs[RecordOf(e.pc)].username &&
                  e.rec.application == s.recs[RecordOf(e.pc)].application
    ensures Reloads(NextWork(s, tid, e))
  {
  }

  lemma QuietReloads(s: State, s': State, tid: nat)
    requires WF(s) && WF(s') && Reloads(s) && Quietly(s, s', tid)
    ensures Reloads(s')
  {
  }

  /** A settled record keeps its user and application. */
  ghost predicate KeepsUsers(s: State, s': State)
    requires WF(s) && WF(s')
  {
    && s.origin <= s'.origin
    && (forall i: nat | i < |s.origin| && Settled(s, i) ::
          Settled(s', i) && s'.recs[i].username == s.recs[i].username &&
          s'.recs[i].application == s.recs[i].application)
  }

  lemma WorkKeepsUsers(s: State, tid: nat, reload: bool, e: Effect)
    requires WF(s) && Reloads(s) && tid in s.threads && HasRecord(s.threads[tid])
    requires HasRecord(e.pc) && RecordOf(e.pc) == RecordOf(s.threads[tid]) && (e.drops || e.stamps ==> e.pc.Handling?)
    requires WF(NextWork(s, tid, e))
    requires e.pc.Handling? ==> e.pc.at != ToReload
    requires if reload then HandlingAt(s, tid, ToReload)
             else e.rec.username == s.recs[RecordOf(e.pc)].username &&
                  e.rec.application == s.recs[RecordOf(e.pc)].application
    ensures KeepsUsers(s, NextWork(s, tid, e))
  {
  }

  lemma StepKeepsUsers(s: State, l: Label)
    requires WF(s) && Enabled(s, l) && Coherent(s) && Reloads(s)
    ensures KeepsUsers(s, Next(s, l)) && Reloads(Next(s, l))
  {
    if l.Work? {
      var pc := s.threads[l.tid];
      var rec := s.recs[RecordOf(pc)];
      WorkReloads(s, l.tid, l.act);
      ReloadStages(l.tid, pc, rec, s.now, s.index.byApplication, l.act);
      if !l.act.Reload? {
        OnlyReloadRenames(l.tid, pc, rec, s.now, s.index.byApplication, l.act);
      }
      WorkKeepsUsers(s, l.tid, l.act.Reload?, EffectOf(s, l.tid, l.act));
    } else {
      var tid := if HasThread(l) then l.tid else 0;
      QuietStep(s, l);
      QuietReloads(s, Next(s, l), tid);
      QuietKeepsUsers(s, Next(s, l), tid);
    }
  }

  lemma QuietKeepsUsers(s: State, s': State, tid: nat)
    requires WF(s) && WF(s') && Reloads(s) && Quietly(s, s', tid)
    ensures KeepsUsers(s, s')
  {
  }

  lemma WorkIdentified(s: State, tid: nat, act: Act)
    requires WF(s) && Enabled(s, Work(tid, act)) && Coherent(s) && Reloads(s) && Identified(s)
    ensures Identified(Next(s, Work(tid, act)))
  {
    var pc, e, s' := s.threads[tid], EffectOf(s, tid, act), Next(s, Work(tid, act));
    StepKeepsUsers(s, Work(tid, act));
    if pc.Creating? {
      var run := pc.run;
      var rec := s.recs[run.id];
      if run.template.None? || Named(s, run) {
        CreateKeepsUser(tid, pc, rec, s.now, s.index.byApplication, act);
      } else {
        TemplateStays(tid, pc, rec, s.now, s.index.byApplication, act);
      }
      OnlyReloadRenames(tid, pc, rec, s.now, s.index.byApplication, act);
    }
    WorkFrameIdentified(s, tid, e);
  }

  lemma TemplateStays(tid: nat, pc: Pc, rec: Odp, now: int, byApplication: map<string, Template>, act: Act)
    requires pc.Creating? && ActEnabled(pc, act) && StageOk(pc.run, pc.stage) && pc.run.template.Some?
    ensures var e := ActEffect(tid, pc, rec, now, byApplication, act);
            e.pc.Creating? && e.pc.run.id == pc.run.id && e.pc.run.template == pc.run.template
  {
  }

  lemma WorkFrameIdentified(s: State, tid: nat, e: Effect)
    requires WF(s) && Reloads(s) && Identified(s) && tid in s.threads && HasRecord(s.threads[tid])
    requires HasRecord(e.pc) && RecordOf(e.pc) == RecordOf(s.threads[tid]) && (e.drops || e.stamps ==> e.pc.Handling?)
    requires WF(NextWork(s, tid, e)) && KeepsUsers(s, NextWork(s, tid, e))
    requires e.pc.Creating? && Named(s, e.pc.run) ==> Settled(s, e.pc.run.id) && SameUser(e.pc.run, e.pc.stage, e.rec)
    ensures Identified(NextWork(s, tid, e))
  {
  }

  lemma QuietIdentified(s: State, s': State, tid: nat)
    requires WF(s) && WF(s') && Identified(s) && Quietly(s, s', tid) && KeepsUsers(s, s')
    ensures Identified(s')
  {
  }

  lemma {:induction false} HistoryIdentified(ss: seq<State>, ls: seq<Label>, k: nat)
    requires IsHistory(ss, ls) && k < |ss|
    ensures Reloads(ss[k]) && Identified(ss[k])
  {
    if k == 0 {
    } else {
      HistoryIdentified(ss, ls, k - 1);
      RunGrows(ss, ls, k - 1, k - 1);
      StepKeepsUsers(ss[k - 1], ls[k - 1]);
      if ls[k - 1].Work? {
        WorkIdentified(ss[k - 1], ls[k - 1].tid, ls[k - 1].act);
      } else {
        QuietStep(ss[k - 1], ls[k - 1]);
        QuietIdentified(ss[k - 1], ss[k], if HasThread(ls[k - 1]) then ls[k - 1].tid else 0);
      }
    }
  }

  /** In every run: a token or a Pod is created for the user that was looked up, on the template of
      the record's application, and the Pod carries that user's name. This holds for every record
      made by a request, and for any other record unless its template is for the empty application. */
  lemma CreatedForTheUserLookedUp(ss: seq<State>, ls: seq<Label>, n: nat, k: nat)
    requires IsHistory(ss, ls) && n < |ss| && k < |ss[n].log|
    requires ss[n].log[k].CreateTokenCall? || ss[n].log[k].CreatePodCall?
    ensures var s, c := ss[n], ss[n].log[k];
            && c.tid in s.threads && s.threads[c.tid].Creating? && c.id < |s.origin|
            && AccessChecked(s.log[..k], c.tid, s.threads[c.tid].run)
            && (Named(s, s.threads[c.tid].run) ==>
                  && s.threads[c.tid].run.template.value.application == s.recs[c.id].application
                  && s.threads[c.tid].run.who == s.recs[c.id].username
                  && (c.CreateTokenCall? ==> c.who == s.recs[c.id].username)
                  && (c.CreatePodCall? ==> Rendered(s.log[..k], c.tid, s.threads[c.tid].run) &&
                                           s.threads[c.tid].run.data.value.userName == s.recs[c.id].username)
                  && (c.CreatePodCall? ==> ANN_USER_NAME in c.pod.annotations &&
                                           c.pod.annotations[ANN_USER_NAME] == s.recs[c.id].username))
  {
    CallsFollowAccessCheck(ss, ls, n, k);
    HistoryIdentified(ss, ls, n);
    var s, c := ss[n], ss[n].log[k];
    assert PcOk(s, s.threads[c.tid]);
  }
}

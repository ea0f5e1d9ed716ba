/**
 What becomes of the token a create run obtained. The account is kept for records made by requests of
 which at most one create run holds a token; TokenLoss says what happens when several do. It does not
 matter how the events of the Pod interleave with the run, nor how many runs without a token there are.
 */
module Tokens {
  import opened Wrappers
  import opened Records
  import opened Protocol
  import opened Coherence
  import opened Pipeline
  import opened Identity
  import opened CreateOnce

  predicate RunsOn(s: State, t: nat, i: nat) {
    t in s.threads && s.threads[t].Creating? && s.threads[t].run.id == i
  }

  /** The run has obtained a token. */
  predicate Holds(s: State, t: nat, i: nat) {
    RunsOn(s, t, i) && s.threads[t].run.token.Some?
  }

  /** At most one run of the record holds a token. */
  ghost predicate OneHolder(s: State, i: nat) {
    forall t: nat, u: nat | Holds(s, t, i) && Holds(s, u, i) :: t == u
  }

  /** Deletion of this token was attempted for this record. */
  ghost predicate Deleted(log: seq<Call>, i: nat, name: string) {
    exists j :: 0 <= j < |log| && log[j].DeleteTokenCall? && log[j].id == i && log[j].tokenName == name
  }

  predicate ClearsOn(s: State, h: nat, i: nat) {
    HandlingAt(s, h, ToClear) && s.threads[h].id == i
  }

  /** The token is still known to the record, or its deletion was attempted and the name cleared. */
  ghost predicate Held(s: State, i: nat, name: string)
    requires i < |s.recs|
  {
    s.recs[i].tokenName == name || (s.recs[i].tokenName == "" && Deleted(s.log, i, name))
  }

  /** The record knows no token and no event handler is about to clear one. */
  ghost predicate NoToken(s: State, i: nat)
    requires i < |s.recs|
  {
    s.recs[i].tokenName == "" && forall h: nat :: !ClearsOn(s, h, i)
  }

  /** No token with a name was asked to be deleted for the record. */
  ghost predicate NothingDeleted(log: seq<Call>, i: nat) {
    forall j | 0 <= j < |log| && log[j].DeleteTokenCall? && log[j].id == i :: log[j].tokenName == ""
  }

  /** The account of the run that holds the record's token. */
  ghost predicate HolderAccount(s: State, run: Run, stage: CreateStage)
    requires run.id < |s.recs| && run.token.Some?
  {
    var name := run.token.value.name;
    && Held(s, run.id, name)
    && (forall h: nat | ClearsOn(s, h, run.id) :: Deleted(s.log, run.id, name))
    && (run.pod.Some? ==> Carries(run.pod.value, name) || Deleted(s.log, run.id, name))
    && (stage == Ended(PodRefused) ==> Deleted(s.log, run.id, name))
  }

  predicate Carries(pod: NewPod, name: string) {
    name == "" || (ANN_TOKEN in pod.annotations && pod.annotations[ANN_TOKEN] == name)
  }

  ghost predicate Account(s: State, i: nat)
    requires WF(s) && i < |s.recs|
  {
    && ((NoToken(s, i) && NothingDeleted(s.log, i)) || exists t: nat :: Holds(s, t, i))
    && (forall t: nat | Holds(s, t, i) :: HolderAccount(s, s.threads[t].run, s.threads[t].stage))
  }

  ghost predicate Accounted(s: State)
    requires WF(s)
  {
    forall i: nat | i < |s.recs| && s.origin[i].ByRequest? && OneHolder(s, i) :: Account(s, i)
  }

  // ---- Every step keeps the account ----

  /** A run keeps its token. */
  lemma HolderStays(s: State, l: Label, t: nat, i: nat)
    requires WF(s) && Enabled(s, l) && Holds(s, t, i)
    ensures Holds(Next(s, l), t, i) && Next(s, l).threads[t].run.token == s.threads[t].run.token
  {
    if l.Work? && l.tid == t {
      var pc := s.threads[t];
      CreateTokens(t, pc, s.recs[pc.run.id], s.now, s.index.byApplication, l.act);
    } else {
      OtherStep(s, l, t);
    }
  }

  lemma OneHolderBefore(s: State, l: Label, i: nat)
    requires WF(s) && Enabled(s, l) && OneHolder(Next(s, l), i)
    ensures OneHolder(s, i)
  {
    forall t: nat, u: nat | Holds(s, t, i) && Holds(s, u, i) ensures t == u {
      HolderStays(s, l, t, i);
      HolderStays(s, l, u, i);
    }
  }

  lemma DeletedStays(log: seq<Call>, log': seq<Call>, i: nat, name: string)
    requires log <= log' && Deleted(log, i, name)
    ensures Deleted(log', i, name)
  {
    var j :| 0 <= j < |log| && log[j].DeleteTokenCall? && log[j].id == i && log[j].tokenName == name;
    assert log'[j] == log[j];
  }

  /** How a create run's step treats the token. */
  ghost predicate CreateTreats(tid: nat, pc: Pc, rec: Odp, e: Effect)
    requires pc.Creating?
  {
    && e.pc.Creating? && e.pc.run.id == pc.run.id
    && (|| (e.pc.run.token == pc.run.token && e.rec.tokenName == rec.tokenName)
        || (&& pc.run.token.None? && e.pc.run.token.Some? && e.rec.tokenName == e.pc.run.token.value.name
            && e.pc.run.pod.None? && e.pc.stage != Ended(PodRefused)))
    && (|| e.pc.run.pod == pc.run.pod
        || (e.pc.run.pod.Some? && (rec.tokenName != "" ==> Carries(e.pc.run.pod.value, rec.tokenName))))
    && (e.pc.stage == Ended(PodRefused) ==> e.calls == [DeleteTokenCall(tid, pc.run.id, rec.tokenName)])
  }

  lemma CreateTokens(tid: nat, pc: Pc, rec: Odp, now: int, byApplication: map<string, Template>, act: Act)
    requires pc.Creating? && ActEnabled(pc, act) && StageOk(pc.run, pc.stage)
    ensures CreateTreats(tid, pc, rec, ActEffect(tid, pc, rec, now, byApplication, act))
  {
  }

  /** How an event handler's step treats the token of a record it need not reload. */
  ghost predicate HandleTreats(tid: nat, pc: Pc, rec: Odp, e: Effect)
    requires pc.Handling?
  {
    && e.pc.Handling? && e.pc.id == pc.id
    && (e.rec.tokenName == rec.tokenName || (e.rec.tokenName == "" && pc.at == ToClear))
    && (e.pc.at == ToClear ==> rec.tokenName != "" && e.calls == [DeleteTokenCall(tid, pc.id, rec.tokenName)])
  }

  lemma HandleTokens(tid: nat, pc: Pc, rec: Odp, now: int, byApplication: map<string, Template>, act: Act)
    requires pc.Handling? && ActEnabled(pc, act) && !act.Reload? && !act.ReadToken?
    ensures HandleTreats(tid, pc, rec, ActEffect(tid, pc, rec, now, byApplication, act))
  {
  }

  lemma LastCallDeletes(log: seq<Call>, tid: nat, i: nat, name: string)
    ensures Deleted(log + [DeleteTokenCall(tid, i, name)], i, name)
  {
    assert (log + [DeleteTokenCall(tid, i, name)])[|log|] == DeleteTokenCall(tid, i, name);
  }

  lemma CreateAccount(s: State, tid: nat, e: Effect, i: nat)
    requires WF(s) && tid in s.threads && s.threads[tid].Creating? && e.pc.Creating?
    requires e.pc.run.id == s.threads[tid].run.id && !e.drops && !e.stamps && WF(NextWork(s, tid, e))
    requires CreateTreats(tid, s.threads[tid], s.recs[e.pc.run.id], e)
    requires forall c | c in e.calls && c.DeleteTokenCall? ::
               c.id == e.pc.run.id && c.tokenName == s.recs[e.pc.run.id].tokenName
    requires i < |s.recs| && OneHolder(s, i) && OneHolder(NextWork(s, tid, e), i) && Account(s, i)
    ensures Account(NextWork(s, tid, e), i)
  {
    var s' := NextWork(s, tid, e);
    forall h: nat, j: nat ensures ClearsOn(s', h, j) <==> ClearsOn(s, h, j) {
    }
    forall t: nat | t != tid ensures Holds(s', t, i) <==> Holds(s, t, i) {
    }
    forall name: string | Deleted(s.log, i, name) ensures Deleted(s'.log, i, name) {
      DeletedStays(s.log, s'.log, i, name);
    }
    LastCallDeletes(s.log, tid, i, s.recs[e.pc.run.id].tokenName);
    if t: nat :| Holds(s, t, i) {
      assert Holds(s', t, i);
      HolderKept(s, tid, e, i, t);
    } else if e.pc.run.id == i && e.pc.run.token.Some? {
      assert Holds(s', tid, i);
    } else {
      assert NoToken(s', i) && NothingDeleted(s'.log, i);
    }
  }

  /** The account of the holder, after a step of a run of any record. */
  lemma HolderKept(s: State, tid: nat, e: Effect, i: nat, t: nat)
    requires WF(s) && tid in s.threads && s.threads[tid].Creating? && e.pc.Creating?
    requires e.pc.run.id == s.threads[tid].run.id && !e.drops && !e.stamps && WF(NextWork(s, tid, e))
    requires CreateTreats(tid, s.threads[tid], s.recs[e.pc.run.id], e)
    requires i < |s.recs| && Holds(s, t, i) && OneHolder(NextWork(s, tid, e), i)
    requires HolderAccount(s, s.threads[t].run, s.threads[t].stage)
    ensures var s' := NextWork(s, tid, e);
            Holds(s', t, i) && HolderAccount(s', s'.threads[t].run, s'.threads[t].stage)
  {
    var s' := NextWork(s, tid, e);
    var name := s.threads[t].run.token.value.name;
    forall h: nat ensures ClearsOn(s', h, i) <==> ClearsOn(s, h, i) {
    }
    if Deleted(s.log, i, name) {
      DeletedStays(s.log, s'.log, i, name);
    }
    LastCallDeletes(s.log, tid, i, s.recs[e.pc.run.id].tokenName);
    assert Holds(s', t, i);
    assert t != tid && e.pc.run.id == i && e.pc.run.token.Some? ==> Holds(s', tid, i);
  }

  lemma HandleAccount(s: State, tid: nat, e: Effect, i: nat)
    requires WF(s) && tid in s.threads && s.threads[tid].Handling? && e.pc.Handling?
    requires e.pc.id == s.threads[tid].id && WF(NextWork(s, tid, e))
    requires HandleTreats(tid, s.threads[tid], s.recs[e.pc.id], e) || e.pc.id != i
    requires forall c | c in e.calls && c.DeleteTokenCall? ::
               c.id == e.pc.id && c.tokenName == s.recs[e.pc.id].tokenName
    requires i < |s.recs| && OneHolder(s, i) && Account(s, i)
    ensures Account(NextWork(s, tid, e), i)
  {
    var s' := NextWork(s, tid, e);
    forall t: nat ensures Holds(s', t, i) <==> Holds(s, t, i) {
    }
    forall name: string | Deleted(s.log, i, name) ensures Deleted(s'.log, i, name) {
      DeletedStays(s.log, s'.log, i, name);
    }
    LastCallDeletes(s.log, tid, i, s.recs[e.pc.id].tokenName);
    forall h: nat | ClearsOn(s', h, i)
      ensures ClearsOn(s, h, i) || (h == tid && s.recs[i].tokenName != "" && Deleted(s'.log, i, s.recs[i].tokenName))
    {
    }
    if NoToken(s, i) && NothingDeleted(s.log, i) {
      assert !ClearsOn(s, tid, i);
      assert NoToken(s', i) && NothingDeleted(s'.log, i);
    }
    forall t: nat | Holds(s', t, i) ensures HolderAccount(s', s'.threads[t].run, s'.threads[t].stage) {
      assert Holds(s, t, i);
      assert HolderAccount(s, s.threads[t].run, s.threads[t].stage);
      assert ClearsOn(s, tid, i) <==> s.threads[tid].at == ToClear && e.pc.id == i;
    }
  }

  lemma QuietAccount(s: State, s': State, tid: nat, i: nat)
    requires WF(s) && WF(s') && Quietly(s, s', tid) && i < |s'.recs|
    requires i < |s.recs| ==> Account(s, i)
    requires i >= |s.recs| ==> NothingDeleted(s.log, i)
    ensures Account(s', i)
  {
    forall h: nat | ClearsOn(s', h, i) ensures ClearsOn(s, h, i) && i < |s.recs| {
      assert PcOk(s, s.threads[h]);
    }
    forall t: nat | Holds(s', t, i) ensures Holds(s, t, i) && s'.threads[t] == s.threads[t] && i < |s.recs| {
      assert PcOk(s, s.threads[t]);
    }
    forall t: nat | Holds(s, t, i) ensures Holds(s', t, i) {
    }
  }

  /** Calls are made on records there are. */
  ghost predicate CallsOnRecords(s: State) {
    forall j | 0 <= j < |s.log| :: s.log[j].id < |s.recs|
  }

  lemma StepCallsOnRecords(s: State, l: Label)
    requires WF(s) && Enabled(s, l) && Coherent(s) && CallsOnRecords(s)
    ensures CallsOnRecords(Next(s, l))
  {
    StepGrows(s, l);
    if l.Work? {
      var pc := s.threads[l.tid];
      OwnCalls(l.tid, pc, s.recs[RecordOf(pc)], s.now, s.index.byApplication, l.act);
    } else {
      QuietStep(s, l);
    }
  }

  lemma OwnCalls(tid: nat, pc: Pc, rec: Odp, now: int, byApplication: map<string, Template>, act: Act)
    requires ActEnabled(pc, act) && (pc.Creating? ==> StageOk(pc.run, pc.stage))
    ensures forall c | c in ActEffect(tid, pc, rec, now, byApplication, act).calls :: c.id == RecordOf(pc)
  {
  }

  lemma StepAccounts(s: State, l: Label)
    requires WF(s) && Enabled(s, l) && Coherent(s) && Reloads(s) && Accounted(s) && CallsOnRecords(s)
    ensures Accounted(Next(s, l))
  {
    var s' := Next(s, l);
    StepGrows(s, l);
    forall i: nat | i < |s'.recs| && s'.origin[i].ByRequest? && OneHolder(s', i) ensures Account(s', i) {
      OneHolderBefore(s, l, i);
      if l.Work? {
        WorkAccount(s, l.tid, l.act, i);
      } else {
        QuietStep(s, l);
        QuietAccount(s, s', if HasThread(l) then l.tid else 0, i);
      }
    }
  }

  lemma WorkAccount(s: State, tid: nat, act: Act, i: nat)
    requires WF(s) && Enabled(s, Work(tid, act)) && Reloads(s)
    requires i < |s.recs| && s.origin[i].ByRequest? && Account(s, i)
    requires OneHolder(s, i) && OneHolder(Next(s, Work(tid, act)), i)
    ensures Account(Next(s, Work(tid, act)), i)
  {
    var pc, e := s.threads[tid], EffectOf(s, tid, act);
    var rec := s.recs[RecordOf(pc)];
    WorkKeepsWF(s, tid, act);
    if pc.Creating? {
      CreateTokens(tid, pc, rec, s.now, s.index.byApplication, act);
      DropsOnlyWhenHandling(tid, pc, rec, s.now, s.index.byApplication, act);
      ActOnCleared(tid, pc, rec, s.now, s.index.byApplication, act);
      CreateAccount(s, tid, e, i);
    } else if pc.Handling? {
      if !act.Reload? && !act.ReadToken? {
        HandleTokens(tid, pc, rec, s.now, s.index.byApplication, act);
      } else {
        assert HandlingAt(s, tid, ToReload) || HandlingAt(s, tid, ToReadToken);
      }
      ActOnCleared(tid, pc, rec, s.now, s.index.byApplication, act);
      HandleAccount(s, tid, e, i);
    } else {
      AskAccount(s, tid, i);
    }
  }

  lemma DropsOnlyWhenHandling(tid: nat, pc: Pc, rec: Odp, now: int, byApplication: map<string, Template>, act: Act)
    requires pc.Creating? && ActEnabled(pc, act) && StageOk(pc.run, pc.stage)
    ensures !ActEffect(tid, pc, rec, now, byApplication, act).drops
    ensures !ActEffect(tid, pc, rec, now, byApplication, act).stamps
  {
  }

  lemma AskAccount(s: State, tid: nat, i: nat)
    requires WF(s) && Enabled(s, Work(tid, Check)) && i < |s.recs| && Account(s, i)
    ensures Account(Next(s, Work(tid, Check)), i)
  {
    var s' := Next(s, Work(tid, Check));
    assert s'.recs == s.recs && s'.log == s.log;
    forall t: nat ensures Holds(s', t, i) <==> Holds(s, t, i) {
    }
    forall h: nat, j: nat ensures ClearsOn(s', h, j) <==> ClearsOn(s, h, j) {
    }
    forall t: nat | Holds(s', t, i) ensures HolderAccount(s', s'.threads[t].run, s'.threads[t].stage) {
      assert HolderAccount(s, s.threads[t].run, s.threads[t].stage);
    }
  }

  lemma {:induction false} HistoryCalls(ss: seq<State>, ls: seq<Label>, k: nat)
    requires IsHistory(ss, ls) && k < |ss|
    ensures CallsOnRecords(ss[k])
  {
    if k > 0 {
      HistoryCalls(ss, ls, k - 1);
      RunGrows(ss, ls, k - 1, k - 1);
      StepCallsOnRecords(ss[k - 1], ls[k - 1]);
    }
  }

  lemma {:induction false} HistoryAccounts(ss: seq<State>, ls: seq<Label>, k: nat)
    requires IsHistory(ss, ls) && k < |ss|
    ensures Accounted(ss[k])
  {
    if k > 0 {
      HistoryAccounts(ss, ls, k - 1);
      AccountsNext(ss, ls, k);
    }
  }

  lemma AccountsNext(ss: seq<State>, ls: seq<Label>, k: nat)
    requires IsHistory(ss, ls) && 0 < k < |ss| && Accounted(ss[k - 1])
    ensures Accounted(ss[k])
  {
    assert Enabled(ss[k - 1], ls[k - 1]) && ss[k] == Next(ss[k - 1], ls[k - 1]);
    HistoryIdentified(ss, ls, k - 1);
    HistoryCalls(ss, ls, k - 1);
    RunGrows(ss, ls, k - 1, k - 1);
    StepAccounts(ss[k - 1], ls[k - 1]);
  }

  // ---- Who has a token ----

  predicate PastToken(stage: CreateStage) {
    HasSpec(stage) || stage == AtRender || stage == Ended(RenderFailed)
  }

  /** A run past asking for a token has one exactly if its record wants one. */
  ghost predicate Provided(s: State) {
    forall t | t in s.threads && s.threads[t].Creating? :: RunProvided(s, s.threads[t].run, s.threads[t].stage)
  }

  predicate RunProvided(s: State, run: Run, stage: CreateStage) {
    && run.id < |s.recs|
    && (stage == AtToken || stage == Ended(TokenFailed) ==> s.recs[run.id].tokenTypes != [])
    && (run.token.Some? ==> s.recs[run.id].tokenTypes != [])
    && (PastToken(stage) && s.recs[run.id].tokenTypes != [] ==> run.token.Some?)
  }

  lemma CreateProvides(tid: nat, pc: Pc, rec: Odp, now: int, byApplication: map<string, Template>, act: Act)
    requires pc.Creating? && ActEnabled(pc, act) && StageOk(pc.run, pc.stage)
    requires pc.stage == AtToken ==> rec.tokenTypes != []
    requires pc.run.token.Some? ==> rec.tokenTypes != []
    requires PastToken(pc.stage) && rec.tokenTypes != [] ==> pc.run.token.Some?
    ensures var e := ActEffect(tid, pc, rec, now, byApplication, act);
            && e.pc.Creating? && e.pc.run.id == pc.run.id && e.rec.tokenTypes == rec.tokenTypes
            && (e.pc.stage == AtToken || e.pc.stage == Ended(TokenFailed) ==> rec.tokenTypes != [])
            && (e.pc.run.token.Some? ==> rec.tokenTypes != [])
            && (PastToken(e.pc.stage) && rec.tokenTypes != [] ==> e.pc.run.token.Some?)
  {
  }

  lemma StepProvides(s: State, l: Label)
    requires WF(s) && Enabled(s, l) && Coherent(s) && Provided(s)
    ensures Provided(Next(s, l))
  {
    var s' := Next(s, l);
    StepGrows(s, l);
    forall t | t in s'.threads && s'.threads[t].Creating?
      ensures RunProvided(s', s'.threads[t].run, s'.threads[t].stage)
    {
      ThreadProvided(s, l, t);
    }
  }

  lemma ThreadProvided(s: State, l: Label, t: nat)
    requires WF(s) && Enabled(s, l) && Provided(s) && Grows(s, Next(s, l))
    requires t in Next(s, l).threads && Next(s, l).threads[t].Creating?
    ensures RunProvided(Next(s, l), Next(s, l).threads[t].run, Next(s, l).threads[t].stage)
  {
    assert PcOk(Next(s, l), Next(s, l).threads[t]);
    if t in s.threads && s.threads[t].Creating? {
      var pc := s.threads[t];
      assert RunProvided(s, pc.run, pc.stage);
      if l.Work? && l.tid == t {
        CreateProvides(t, pc, s.recs[pc.run.id], s.now, s.index.byApplication, l.act);
      } else {
        OtherStep(s, l, t);
      }
    } else {
      NewThreadStarts(s, l, t);
      assert Next(s, l).threads[t].run.token.None?;
    }
  }

  lemma {:induction false} HistoryProvides(ss: seq<State>, ls: seq<Label>, k: nat)
    requires IsHistory(ss, ls) && k < |ss|
    ensures Provided(ss[k])
  {
    if k == 0 {
      assert ss[0].threads == map[];
    } else {
      HistoryProvides(ss, ls, k - 1);
      ProvidesNext(ss, ls, k);
    }
  }

  lemma ProvidesNext(ss: seq<State>, ls: seq<Label>, k: nat)
    requires IsHistory(ss, ls) && 0 < k < |ss| && Provided(ss[k - 1])
    ensures Provided(ss[k])
  {
    assert Enabled(ss[k - 1], ls[k - 1]) && ss[k] == Next(ss[k - 1], ls[k - 1]);
    RunGrows(ss, ls, k - 1, k - 1);
    StepProvides(ss[k - 1], ls[k - 1]);
  }

  // ---- The account of a whole run ----

  /** The call at `k` created a token with a name, for a record made by a request. */
  ghost predicate TokenCreated(s: State, k: nat) {
    && k < |s.log| && s.log[k].CreateTokenCall? && s.log[k].token.Some? && s.log[k].token.value.name != ""
    && s.log[k].id < |s.origin| && s.origin[s.log[k].id].ByRequest?
  }

  /** A Pod with this token's name was created. */
  ghost predicate Carried(log: seq<Call>, i: nat, name: string) {
    exists j :: 0 <= j < |log| && log[j].CreatePodCall? && log[j].ok && log[j].id == i && Carries(log[j].pod, name)
  }

  /** A token was created by a run that holds it still. */
  lemma CreatorHolds(ss: seq<State>, ls: seq<Label>, n: nat, k: nat)
    requires IsHistory(ss, ls) && n < |ss| && k < |ss[n].log|
    requires ss[n].log[k].CreateTokenCall? && ss[n].log[k].token.Some?
    ensures var s, c := ss[n], ss[n].log[k]; Holds(s, c.tid, c.id) && s.threads[c.tid].run.token == c.token
  {
    CallsFollowAccessCheck(ss, ls, n, k);
  }

  /** Once the run that created a token is over, its deletion was attempted, or a Pod carries it, or
      rendering the template failed: then no Pod was created and the record still names the token. */
  lemma TokenFate(ss: seq<State>, ls: seq<Label>, n: nat, k: nat)
    requires IsHistory(ss, ls) && n < |ss| && TokenCreated(ss[n], k) && OneHolder(ss[n], ss[n].log[k].id)
    ensures Holds(ss[n], ss[n].log[k].tid, ss[n].log[k].id)
    ensures var s, c := ss[n], ss[n].log[k];
            s.threads[c.tid].stage.Ended? ==>
              || Deleted(s.log, c.id, c.token.value.name)
              || Carried(s.log, c.id, c.token.value.name)
              || (&& s.threads[c.tid].stage.exit == RenderFailed
                  && s.recs[c.id].tokenName == c.token.value.name)
    ensures var s, c := ss[n], ss[n].log[k];
            s.threads[c.tid].stage == Ended(RenderFailed) ==>
              forall j | 0 <= j < |s.log| && s.log[j].tid == c.tid :: !s.log[j].CreatePodCall?
    ensures var s, c := ss[n], ss[n].log[k];
            s.threads[c.tid].stage == Ended(PodRefused) ==> Deleted(s.log, c.id, c.token.value.name)
  {
    var s, c := ss[n], ss[n].log[k];
    CreatorHolds(ss, ls, n, k);
    HistoryAccounts(ss, ls, n);
    HistoryTraces(ss, ls, n);
    assert PcOk(s, s.threads[c.tid]);
    assert Account(s, c.id);
    assert HolderAccount(s, s.threads[c.tid].run, s.threads[c.tid].stage);
    if s.threads[c.tid].stage == Ended(PodMade) {
      MadePodIsLogged(s, c.tid);
    } else if s.threads[c.tid].stage == Ended(RenderFailed) {
      NothingRendered(ss, ls, n, c.tid);
    }
  }

  /** A run whose template could not be rendered has handed over no Pod. */
  lemma NothingRendered(ss: seq<State>, ls: seq<Label>, n: nat, t: nat)
    requires IsHistory(ss, ls) && n < |ss| && t in ss[n].threads && ss[n].threads[t].Creating?
    requires ss[n].threads[t].stage == Ended(RenderFailed)
    ensures forall j | 0 <= j < |ss[n].log| && ss[n].log[j].tid == t :: !ss[n].log[j].CreatePodCall?
  {
    forall j | 0 <= j < |ss[n].log| && ss[n].log[j].tid == t ensures !ss[n].log[j].CreatePodCall? {
      if ss[n].log[j].CreatePodCall? {
        CallsFollowAccessCheck(ss, ls, n, j);
      }
    }
  }

  predicate Releases(s: State, l: Label, i: nat) {
    l.Work? && l.act.Release? && l.tid in s.threads && s.threads[l.tid].Handling? && s.threads[l.tid].id == i
  }

  /** The handler of a finished event was at the release of the record's token after the c-th step. */
  ghost predicate ReleasedSince(ss: seq<State>, ls: seq<Label>, i: nat, c: nat, n: nat)
    requires n <= |ls| < |ss|
  {
    exists m :: c < m < n && Releases(ss[m], ls[m], i)
  }

  /** The step in which a run of the record obtains this token. */
  predicate Obtains(s: State, l: Label, i: nat, name: string) {
    && l.Work? && l.act.CreateToken? && l.act.token.Some? && l.act.token.value.name == name
    && RunsOn(s, l.tid, i)
  }

  lemma ObtainIsLogged(s: State, l: Label, i: nat, name: string)
    requires WF(s) && Enabled(s, l) && Obtains(s, l, i, name)
    ensures var c := CreateTokenCall(l.tid, i, s.recs[i].username, s.recs[i].tokenTypes, l.act.token);
            Next(s, l).log == s.log + [c] && i < |s.recs|
    ensures s.threads[l.tid].run.token.None? && Holds(Next(s, l), l.tid, i)
  {
    assert PcOk(s, s.threads[l.tid]);
  }

  lemma {:induction false} OneHolderEarlier(ss: seq<State>, ls: seq<Label>, i: nat, m: nat, n: nat)
    requires IsRun(ss, ls) && m <= n < |ss| && OneHolder(ss[n], i)
    ensures OneHolder(ss[m], i)
    decreases n - m
  {
    if m < n {
      OneHolderEarlier(ss, ls, i, m + 1, n);
      OneHolderStepBack(ss, ls, i, m);
    }
  }

  lemma OneHolderStepBack(ss: seq<State>, ls: seq<Label>, i: nat, m: nat)
    requires IsRun(ss, ls) && m < |ls| && OneHolder(ss[m + 1], i)
    ensures OneHolder(ss[m], i)
  {
    assert Enabled(ss[m], ls[m]) && ss[m + 1] == Next(ss[m], ls[m]);
    OneHolderBefore(ss[m], ls[m], i);
  }

  /** In every run, a token that was neither deleted nor carried by a Pod when its run is over was left
      by a failed rendering, or several runs of its record hold tokens. */
  lemma LossHasTwoCauses(ss: seq<State>, ls: seq<Label>, n: nat, k: nat)
    requires IsHistory(ss, ls) && n < |ss| && TokenCreated(ss[n], k)
    requires ss[n].log[k].tid in ss[n].threads && ss[n].threads[ss[n].log[k].tid].Creating?
    requires ss[n].threads[ss[n].log[k].tid].stage.Ended?
    requires !Deleted(ss[n].log, ss[n].log[k].id, ss[n].log[k].token.value.name)
    requires !Carried(ss[n].log, ss[n].log[k].id, ss[n].log[k].token.value.name)
    ensures ss[n].threads[ss[n].log[k].tid].stage.exit == RenderFailed || !OneHolder(ss[n], ss[n].log[k].id)
  {
    if OneHolder(ss[n], ss[n].log[k].id) {
      TokenFate(ss, ls, n, k);
    }
  }

  /** With one holder: once its run is over, a token is left behind, neither deleted nor carried by a
      Pod, if and only if rendering the template failed and no finished event came to the release of
      the record's token since. */
  lemma TokenIsLeftBehind(ss: seq<State>, ls: seq<Label>, i: nat, name: string, c: nat, n: nat)
    requires IsHistory(ss, ls) && c < n < |ss| && Obtains(ss[c], ls[c], i, name) && name != ""
    requires i < |ss[c].origin| && ss[c].origin[i].ByRequest? && OneHolder(ss[n], i)
    requires RunsOn(ss[n], ls[c].tid, i) && ss[n].threads[ls[c].tid].stage.Ended?
    ensures !Deleted(ss[n].log, i, name) && !Carried(ss[n].log, i, name) <==>
            ss[n].threads[ls[c].tid].stage.exit == RenderFailed && !ReleasedSince(ss, ls, i, c, n)
    ensures ss[n].threads[ls[c].tid].stage.exit == PodRefused ==> Deleted(ss[n].log, i, name)
  {
    var k, t := |ss[c].log|, ls[c].tid;
    CreatedAt(ss, ls, i, name, c, n);
    TokenFate(ss, ls, n, k);
    if ss[n].threads[t].stage.exit == RenderFailed {
      NotCarried(ss, ls, n, t, i, name);
      if ReleasedSince(ss, ls, i, c, n) {
        ReleaseSinceDeletes(ss, ls, i, name, c, n);
      } else if Deleted(ss[n].log, i, name) {
        DeletedOnlyByRelease(ss, ls, i, name, c, n);
      }
    }
  }

  /** The call that the obtaining step makes is where it was in every later log. */
  lemma CreatedAt(ss: seq<State>, ls: seq<Label>, i: nat, name: string, c: nat, n: nat)
    requires IsHistory(ss, ls) && c < n < |ss| && Obtains(ss[c], ls[c], i, name) && name != ""
    requires i < |ss[c].origin| && ss[c].origin[i].ByRequest?
    ensures var k := |ss[c].log|;
            TokenCreated(ss[n], k) && ss[n].log[k].tid == ls[c].tid && ss[n].log[k].id == i &&
            ss[n].log[k].token.value.name == name
  {
    assert Enabled(ss[c], ls[c]) && ss[c + 1] == Next(ss[c], ls[c]);
    ObtainIsLogged(ss[c], ls[c], i, name);
    RunGrows(ss, ls, c + 1, n);
    RunGrows(ss, ls, c, n);
    assert ss[n].log[|ss[c].log|] == ss[c + 1].log[|ss[c].log|];
  }

  lemma ReleaseSinceDeletes(ss: seq<State>, ls: seq<Label>, i: nat, name: string, c: nat, n: nat)
    requires IsHistory(ss, ls) && c < n < |ss| && Obtains(ss[c], ls[c], i, name) && name != ""
    requires i < |ss[c].origin| && ss[c].origin[i].ByRequest? && OneHolder(ss[n], i)
    requires ReleasedSince(ss, ls, i, c, n)
    ensures Deleted(ss[n].log, i, name)
  {
    var m: nat :| c < m < n && Releases(ss[m], ls[m], i);
    ReleaseDeletesLater(ss, ls, i, name, c, m, n);
  }

  lemma ReleaseDeletesLater(ss: seq<State>, ls: seq<Label>, i: nat, name: string, c: nat, m: nat, n: nat)
    requires IsHistory(ss, ls) && c < m < n < |ss| && Obtains(ss[c], ls[c], i, name) && name != ""
    requires i < |ss[c].origin| && ss[c].origin[i].ByRequest? && OneHolder(ss[n], i) && Releases(ss[m], ls[m], i)
    ensures Deleted(ss[n].log, i, name)
  {
    OneHolderEarlier(ss, ls, i, m, n);
    ReleaseDeletesAt(ss, ls, i, name, c, m);
    LaterLog(ss, ls, m + 1, n);
    DeletedStays(ss[m + 1].log, ss[n].log, i, name);
  }

  lemma LaterLog(ss: seq<State>, ls: seq<Label>, m: nat, n: nat)
    requires IsHistory(ss, ls) && m <= n < |ss|
    ensures ss[m].log <= ss[n].log
  {
    RunGrows(ss, ls, m, n);
  }

  lemma ReleaseDeletesAt(ss: seq<State>, ls: seq<Label>, i: nat, name: string, c: nat, m: nat)
    requires IsHistory(ss, ls) && c < m < |ls| && Obtains(ss[c], ls[c], i, name) && name != ""
    requires i < |ss[c].origin| && ss[c].origin[i].ByRequest? && OneHolder(ss[m], i) && Releases(ss[m], ls[m], i)
    ensures Deleted(ss[m + 1].log, i, name)
  {
    CreatedAt(ss, ls, i, name, c, m);
    FinishedEventDeletes(ss, ls, m, |ss[c].log|);
  }

  /** Before the token was obtained nothing was deleted for the record, and afterwards only a release can. */
  lemma DeletedOnlyByRelease(ss: seq<State>, ls: seq<Label>, i: nat, name: string, c: nat, n: nat)
    requires IsHistory(ss, ls) && c < n < |ss| && Obtains(ss[c], ls[c], i, name) && name != ""
    requires i < |ss[c].origin| && ss[c].origin[i].ByRequest? && OneHolder(ss[n], i)
    requires Holds(ss[n], ls[c].tid, i) && ss[n].threads[ls[c].tid].stage == Ended(RenderFailed)
    requires Deleted(ss[n].log, i, name)
    ensures ReleasedSince(ss, ls, i, c, n)
  {
    var p: nat :| p < |ss[n].log| && ss[n].log[p].DeleteTokenCall? && ss[n].log[p].id == i &&
                  ss[n].log[p].tokenName == name;
    DeletedAfter(ss, ls, i, name, c, n, p);
    var m := WhichStep(ss, ls, n, p);
    StepNotBefore(ss, ls, c, m, p);
    DeleterReleases(ss, ls, i, ls[c].tid, m, n, p);
    assert m != c;
  }

  lemma DeletedAfter(ss: seq<State>, ls: seq<Label>, i: nat, name: string, c: nat, n: nat, p: nat)
    requires IsHistory(ss, ls) && c < n < |ss| && Obtains(ss[c], ls[c], i, name)
    requires i < |ss[c].origin| && ss[c].origin[i].ByRequest? && OneHolder(ss[n], i)
    requires p < |ss[n].log| && ss[n].log[p].DeleteTokenCall? && ss[n].log[p].id == i && ss[n].log[p].tokenName != ""
    ensures |ss[c].log| <= p
  {
    NothingDeletedBefore(ss, ls, i, name, c, n);
    LaterLog(ss, ls, c, n);
    assert forall q | 0 <= q < |ss[c].log| :: ss[c].log[q] == ss[n].log[q];
  }

  lemma StepNotBefore(ss: seq<State>, ls: seq<Label>, c: nat, m: nat, p: nat)
    requires IsHistory(ss, ls) && c < |ls| && m < |ls| && |ss[c].log| <= p < |ss[m + 1].log|
    ensures c <= m
  {
    if m < c {
      LaterLog(ss, ls, m + 1, c);
    }
  }

  lemma NothingDeletedBefore(ss: seq<State>, ls: seq<Label>, i: nat, name: string, c: nat, n: nat)
    requires IsHistory(ss, ls) && c < n < |ss| && Obtains(ss[c], ls[c], i, name)
    requires i < |ss[c].origin| && ss[c].origin[i].ByRequest? && OneHolder(ss[n], i)
    ensures NothingDeleted(ss[c].log, i)
  {
    OneHolderEarlier(ss, ls, i, c + 1, n);
    OneHolderEarlier(ss, ls, i, c, n);
    HistoryAccounts(ss, ls, c);
    assert Enabled(ss[c], ls[c]) && ss[c + 1] == Next(ss[c], ls[c]);
    ObtainIsLogged(ss[c], ls[c], i, name);
    forall t: nat ensures !Holds(ss[c], t, i) {
      if Holds(ss[c], t, i) {
        HolderStays(ss[c], ls[c], t, i);
      }
    }
    assert Account(ss[c], i);
  }

  /** The step that made the p-th call. */
  lemma {:induction false} WhichStep(ss: seq<State>, ls: seq<Label>, n: nat, p: nat) returns (m: nat)
    requires IsHistory(ss, ls) && n < |ss| && p < |ss[n].log|
    ensures m < n && ls[m].Work? && p == |ss[m].log| < |ss[m + 1].log|
    ensures ss[n].log[p] in EffectOf(ss[m], ls[m].tid, ls[m].act).calls
  {
    LogAtStep(ss, ls, n);
    if p < |ss[n - 1].log| {
      m := WhichStep(ss, ls, n - 1, p);
    } else {
      m := n - 1;
    }
  }

  lemma LogAtStep(ss: seq<State>, ls: seq<Label>, n: nat)
    requires IsHistory(ss, ls) && n < |ss| && ss[n].log != []
    ensures n > 0
    ensures ss[n].log == ss[n - 1].log +
                         if ls[n - 1].Work? then EffectOf(ss[n - 1], ls[n - 1].tid, ls[n - 1].act).calls else []
    ensures ls[n - 1].Work? ==> |EffectOf(ss[n - 1], ls[n - 1].tid, ls[n - 1].act).calls| <= 1
  {
    assert Enabled(ss[n - 1], ls[n - 1]) && ss[n] == Next(ss[n - 1], ls[n - 1]);
    CallsOfStep(ss[n - 1], ls[n - 1]);
  }

  lemma CallsOfStep(s: State, l: Label)
    requires WF(s) && Enabled(s, l)
    ensures Next(s, l).log == s.log + (if l.Work? then EffectOf(s, l.tid, l.act).calls else [])
    ensures l.Work? ==> |EffectOf(s, l.tid, l.act).calls| <= 1
  {
    if l.Work? {
      var pc := s.threads[l.tid];
      OneCall(l.tid, pc, s.recs[RecordOf(pc)], s.now, s.index.byApplication, l.act);
    } else {
      QuietStep(s, l);
    }
  }

  lemma OneCall(tid: nat, pc: Pc, rec: Odp, now: int, byApplication: map<string, Template>, act: Act)
    requires ActEnabled(pc, act) && (pc.Creating? ==> StageOk(pc.run, pc.stage))
    ensures var calls := ActEffect(tid, pc, rec, now, byApplication, act).calls;
            |calls| <= 1 && forall c | c in calls ::
              && c.tid == tid && c.id == RecordOf(pc)
              && (c.DeleteTokenCall? ==> (act.Release? || act.Cleanup?) && c.tokenName == rec.tokenName)
              && (c.CreatePodCall? ==> act.CreatePod?) && (c.CreateTokenCall? ==> act.CreateToken?)
  {
  }

  /** The deletion was asked for by a release: the run that holds the token has made no cleanup, and no
      other run of the record is past asking for its token. */
  lemma DeleterReleases(ss: seq<State>, ls: seq<Label>, i: nat, t: nat, m: nat, n: nat, p: nat)
    requires IsHistory(ss, ls) && m < n < |ss| && p < |ss[n].log|
    requires ss[n].log[p].DeleteTokenCall? && ss[n].log[p].id == i
    requires ls[m].Work? && ss[n].log[p] in EffectOf(ss[m], ls[m].tid, ls[m].act).calls
    requires Holds(ss[n], t, i) && OneHolder(ss[n], i) && ss[n].threads[t].stage == Ended(RenderFailed)
    ensures Releases(ss[m], ls[m], i)
  {
    var pc := ss[m].threads[ls[m].tid];
    OneCall(ls[m].tid, pc, ss[m].recs[RecordOf(pc)], ss[m].now, ss[m].index.byApplication, ls[m].act);
    if ls[m].act.Cleanup? {
      HistoryTraces(ss, ls, n);
      HistoryProvides(ss, ls, n);
      DeletionByWhom(ss[n], p);
      RunGrows(ss, ls, m, n);
      OnlyHolderCleansUp(ss[n], t, ls[m].tid, i);
    }
  }

  lemma OnlyHolderCleansUp(s: State, t: nat, u: nat, i: nat)
    requires WF(s) && Provided(s) && Holds(s, t, i) && OneHolder(s, i) && RunsOn(s, u, i)
    ensures PastToken(s.threads[u].stage) ==> u == t
  {
    assert RunProvided(s, s.threads[t].run, s.threads[t].stage);
    assert RunProvided(s, s.threads[u].run, s.threads[u].stage);
    if PastToken(s.threads[u].stage) {
      assert Holds(s, u, i);
    }
  }

  /** A run that made no Pod is the only one that could have. */
  lemma NotCarried(ss: seq<State>, ls: seq<Label>, n: nat, t: nat, i: nat, name: string)
    requires IsHistory(ss, ls) && n < |ss| && Holds(ss[n], t, i) && OneHolder(ss[n], i)
    requires ss[n].threads[t].stage == Ended(RenderFailed)
    ensures !Carried(ss[n].log, i, name)
  {
    var s := ss[n];
    HistoryProvides(ss, ls, n);
    forall j | 0 <= j < |s.log| && s.log[j].CreatePodCall? ensures s.log[j].id != i {
      CallsFollowAccessCheck(ss, ls, n, j);
      var u := s.log[j].tid;
      if s.log[j].id == i {
        assert PcOk(s, s.threads[u]) && PcOk(s, s.threads[t]);
        OnlyHolderCleansUp(s, t, u, i);
        assert false;
      }
    }
  }

  /** Only event handlers and runs whose Pod was refused delete tokens. */
  lemma DeletionByWhom(s: State, j: nat)
    requires WF(s) && Traced(s) && j < |s.log| && s.log[j].DeleteTokenCall?
    ensures s.log[j].tid in s.threads
    ensures s.threads[s.log[j].tid].Handling? ||
            (RunsOn(s, s.log[j].tid, s.log[j].id) && s.threads[s.log[j].tid].stage == Ended(PodRefused))
  {
    var c, t := s.log[j], s.log[j].tid;
    ProjectAt(s.log, j, t);
    var p := |Project(s.log[..j], t)|;
    assert Project(s.log, t)[p] == c;
    if t in s.threads && s.threads[t].Creating? {
      var run, stage := s.threads[t].run, s.threads[t].stage;
      assert PcOk(s, s.threads[t]);
      assert c in Trace(t, run, stage, s.recs[run.id].tokenTypes);
      DeletionInTrace(t, run, stage, s.recs[run.id].tokenTypes, c);
    }
  }

  lemma DeletionInTrace(t: nat, run: Run, stage: CreateStage, types: seq<string>, c: Call)
    requires StageOk(run, stage) && c in Trace(t, run, stage, types) && c.DeleteTokenCall?
    ensures c.id == run.id && stage == Ended(PodRefused)
  {
  }

  lemma MadePodIsLogged(s: State, t: nat)
    requires WF(s) && Traced(s) && t in s.threads && s.threads[t].Creating? && s.threads[t].stage == Ended(PodMade)
    requires StageOk(s.threads[t].run, s.threads[t].stage)
    ensures exists j :: 0 <= j < |s.log| &&
                        s.log[j] == CreatePodCall(t, s.threads[t].run.id, s.threads[t].run.pod.value, true)
  {
    var run := s.threads[t].run;
    var c := CreatePodCall(t, run.id, run.pod.value, true);
    assert PodPart(t, run, Ended(PodMade))[0] == c;
    assert c in Trace(t, run, Ended(PodMade), s.recs[run.id].tokenTypes);
    ProjectMember(s.log, t, c);
  }

  /** A record has got several tokens if and only if several of its create runs hold one: every run
      gets one at most, and keeps it. */
  lemma SeveralTokens(ss: seq<State>, ls: seq<Label>, n: nat, i: nat)
    requires IsHistory(ss, ls) && n < |ss|
    ensures !OneHolder(ss[n], i) <==> TwoTokenCalls(ss[n].log, i)
  {
    if TwoTokenCalls(ss[n].log, i) {
      var j: nat, k: nat :| j < k && TokenCallFor(ss[n].log, j, i) && TokenCallFor(ss[n].log, k, i);
      TwoCallsTwoHolders(ss, ls, n, i, j, k);
    }
    if !OneHolder(ss[n], i) {
      HistoryTraces(ss, ls, n);
      TwoHoldersTwoCalls(ss[n], i);
    }
  }

  ghost predicate TwoTokenCalls(log: seq<Call>, i: nat) {
    exists j: nat, k: nat :: j < k && TokenCallFor(log, j, i) && TokenCallFor(log, k, i)
  }

  lemma TwoCallsTwoHolders(ss: seq<State>, ls: seq<Label>, n: nat, i: nat, j: nat, k: nat)
    requires IsHistory(ss, ls) && n < |ss| && j < k && TokenCallFor(ss[n].log, j, i) && TokenCallFor(ss[n].log, k, i)
    ensures !OneHolder(ss[n], i)
  {
    CreatorHolds(ss, ls, n, j);
    CreatorHolds(ss, ls, n, k);
    TokenCallsDiffer(ss, ls, n, j, k);
  }

  lemma TokenCallsDiffer(ss: seq<State>, ls: seq<Label>, n: nat, j: nat, k: nat)
    requires IsHistory(ss, ls) && n < |ss| && j < k < |ss[n].log|
    requires ss[n].log[j].CreateTokenCall? && ss[n].log[k].CreateTokenCall?
    ensures ss[n].log[j].tid != ss[n].log[k].tid
  {
    HistoryTraces(ss, ls, n);
    if ss[n].log[j].tid == ss[n].log[k].tid {
      OneTokenCallPerRun(ss[n], j, k);
    }
  }

  lemma TwoHoldersTwoCalls(s: State, i: nat)
    requires WF(s) && Traced(s) && !OneHolder(s, i)
    ensures TwoTokenCalls(s.log, i)
  {
    var t: nat, u: nat :| Holds(s, t, i) && Holds(s, u, i) && t != u;
    var j := HolderAsked(s, t, i);
    var k := HolderAsked(s, u, i);
    assert j < k || k < j;
  }

  /** The j-th call got a token for the record. */
  predicate TokenCallFor(log: seq<Call>, j: nat, i: nat) {
    j < |log| && log[j].CreateTokenCall? && log[j].token.Some? && log[j].id == i
  }

  lemma HolderAsked(s: State, t: nat, i: nat) returns (j: nat)
    requires WF(s) && Traced(s) && Holds(s, t, i)
    ensures TokenCallFor(s.log, j, i) && s.log[j].tid == t
  {
    var run, stage := s.threads[t].run, s.threads[t].stage;
    assert PcOk(s, s.threads[t]);
    var types := s.recs[i].tokenTypes;
    var c := CreateTokenCall(t, i, run.tokenUser, types, run.token);
    assert TokenPart(t, run, stage, types)[0] == c;
    assert c in Trace(t, run, stage, types);
    ProjectMember(s.log, t, c);
    j :| 0 <= j < |s.log| && s.log[j] == c;
  }

  lemma OneTokenCallPerRun(s: State, j: nat, k: nat)
    requires WF(s) && Traced(s) && j <= k < |s.log| && s.log[j].tid == s.log[k].tid
    requires s.log[j].CreateTokenCall? && s.log[k].CreateTokenCall?
    ensures j == k
  {
    var t := s.log[j].tid;
    CallIsInTrace(s, j);
    CallIsInTrace(s, k);
    var pc := s.threads[t];
    OneTokenCall(t, pc.run, pc.stage, s.recs[pc.run.id].tokenTypes, |Project(s.log[..j], t)|, |Project(s.log[..k], t)|);
    if j < k {
      PlacesDiffer(s.log, j, k, t);
    }
  }

  lemma PlacesDiffer(log: seq<Call>, j: nat, k: nat, t: nat)
    requires j < k < |log| && log[j].tid == t
    ensures |Project(log[..j], t)| < |Project(log[..k], t)|
  {
    ProjectAt(log[..k], j, t);
    assert log[..k][..j] == log[..j];
  }

  /** A run asks for a token in one place of its trace: right after the lookup. */
  lemma OneTokenCall(t: nat, run: Run, stage: CreateStage, types: seq<string>, a: nat, b: nat)
    requires a < |Trace(t, run, stage, types)| && b < |Trace(t, run, stage, types)|
    requires Trace(t, run, stage, types)[a].CreateTokenCall? && Trace(t, run, stage, types)[b].CreateTokenCall?
    ensures a == b
  {
    TokenCallPlace(t, run, stage, types, a);
    TokenCallPlace(t, run, stage, types, b);
  }

  lemma TokenCallPlace(t: nat, run: Run, stage: CreateStage, types: seq<string>, a: nat)
    requires a < |Trace(t, run, stage, types)| && Trace(t, run, stage, types)[a].CreateTokenCall?
    ensures a == |LookupPart(t, run, stage)|
  {
  }

  /** When a finished event is handled for a record whose run has created a token, the token's
      deletion has been attempted once the event handler has passed the release. */
  lemma FinishedEventDeletes(ss: seq<State>, ls: seq<Label>, n: nat, k: nat)
    requires IsHistory(ss, ls) && n < |ls| && TokenCreated(ss[n], k) && OneHolder(ss[n], ss[n].log[k].id)
    requires Releases(ss[n], ls[n], ss[n].log[k].id)
    ensures Deleted(ss[n + 1].log, ss[n].log[k].id, ss[n].log[k].token.value.name)
  {
    var s, s', c, h := ss[n], ss[n + 1], ss[n].log[k], ls[n].tid;
    CreatorHolds(ss, ls, n, k);
    HistoryAccounts(ss, ls, n);
    assert Enabled(s, ls[n]) && s' == Next(s, ls[n]);
    assert Account(s, c.id) && HolderAccount(s, s.threads[c.tid].run, s.threads[c.tid].stage);
    var name := s.recs[c.id].tokenName;
    ReleaseCalls(s, h);
    if name == "" {
      DeletedStays(s.log, s'.log, c.id, c.token.value.name);
    } else {
      LastCallDeletes(s.log, h, c.id, name);
    }
  }

  lemma ReleaseCalls(s: State, h: nat)
    requires WF(s) && Enabled(s, Work(h, Release))
    ensures var id := s.threads[h].id;
            Next(s, Work(h, Release)).log ==
            s.log + if s.recs[id].tokenName == "" then [] else [DeleteTokenCall(h, id, s.recs[id].tokenName)]
  {
  }

  /** Deletions by name that the log gains for a record. */
  ghost predicate NoNewDeletion(s: State, s': State, i: nat) {
    forall j | |s.log| <= j < |s'.log| && s'.log[j].DeleteTokenCall? && s'.log[j].id == i :: s'.log[j].tokenName == ""
  }

  /** The run on the record is past creating its token, and the record names none any more. */
  ghost predicate Cleared(s: State, t: nat, i: nat) {
    Holds(s, t, i) && i < |s.recs| && s.recs[i].tokenName == ""
  }

  lemma StepStaysCleared(s: State, l: Label, t: nat, i: nat)
    requires WF(s) && Enabled(s, l) && Coherent(s) && Reloads(s) && Cleared(s, t, i)
    requires i < |s.origin| && s.origin[i].ByRequest? && OneHolder(Next(s, l), i)
    ensures Cleared(Next(s, l), t, i) && NoNewDeletion(s, Next(s, l), i)
  {
    HolderStays(s, l, t, i);
    if l.Work? {
      WorkOnCleared(s, l.tid, l.act, t, i);
    } else {
      QuietStep(s, l);
    }
  }

  lemma WorkOnCleared(s: State, tid: nat, act: Act, t: nat, i: nat)
    requires WF(s) && Enabled(s, Work(tid, act)) && Reloads(s) && Cleared(s, t, i)
    requires i < |s.origin| && s.origin[i].ByRequest? && OneHolder(Next(s, Work(tid, act)), i)
    requires Holds(Next(s, Work(tid, act)), t, i)
    ensures var s' := Next(s, Work(tid, act));
            i < |s'.recs| && s'.recs[i].tokenName == "" && NoNewDeletion(s, s', i)
  {
    var pc, e := s.threads[tid], EffectOf(s, tid, act);
    var rec := s.recs[RecordOf(pc)];
    assert PcOk(s, pc);
    ActOnCleared(tid, pc, rec, s.now, s.index.byApplication, act);
    if pc.Creating? {
      CreateTokens(tid, pc, rec, s.now, s.index.byApplication, act);
      if pc.run.id == i && e.pc.run.token != pc.run.token {
        assert Holds(Next(s, Work(tid, act)), tid, i);
      }
    } else if pc.Handling? && pc.id == i {
      assert !HandlingAt(s, tid, ToReload) && !HandlingAt(s, tid, ToReadToken);
    }
  }

  /** Acts on a record that names no token, by a thread that neither creates nor reloads one. */
  lemma ActOnCleared(tid: nat, pc: Pc, rec: Odp, now: int, byApplication: map<string, Template>, act: Act)
    requires ActEnabled(pc, act) && (pc.Creating? ==> StageOk(pc.run, pc.stage))
    ensures var e := ActEffect(tid, pc, rec, now, byApplication, act);
            && (forall c | c in e.calls && c.DeleteTokenCall? :: c.id == RecordOf(pc) && c.tokenName == rec.tokenName)
            && (pc.Creating? && pc.run.token.Some? ==>
                  e.pc.Creating? && e.pc.run.token == pc.run.token && e.rec.tokenName == rec.tokenName)
            && (pc.Handling? && !act.Reload? ==> e.rec.tokenName == rec.tokenName || e.rec.tokenName == "")
            && (pc.Asking? ==> e.rec == rec)
  {
  }

  /** Once the token's name is cleared, and while no other run obtains one, no further events delete a
      token for the record. */
  lemma ClearedDeletesNoMore(ss: seq<State>, ls: seq<Label>, t: nat, i: nat, n: nat, m: nat)
    requires IsHistory(ss, ls) && n <= m < |ss| && Cleared(ss[n], t, i)
    requires i < |ss[n].origin| && ss[n].origin[i].ByRequest? && OneHolder(ss[m], i)
    ensures Cleared(ss[m], t, i) && NoNewDeletion(ss[n], ss[m], i)
  {
    forall j | n <= j <= m ensures OneHolder(ss[j], i) {
      OneHolderEarlier(ss, ls, i, j, m);
    }
    ClearedThroughout(ss, ls, t, i, n, m);
  }

  lemma {:induction false} ClearedThroughout(ss: seq<State>, ls: seq<Label>, t: nat, i: nat, n: nat, m: nat)
    requires IsHistory(ss, ls) && n <= m < |ss| && Cleared(ss[n], t, i)
    requires i < |ss[n].origin| && ss[n].origin[i].ByRequest? && forall j | n <= j <= m :: OneHolder(ss[j], i)
    ensures Cleared(ss[m], t, i) && NoNewDeletion(ss[n], ss[m], i)
    decreases m
  {
    if n < m {
      ClearedThroughout(ss, ls, t, i, n, m - 1);
      ClearedStepAt(ss, ls, t, i, n, m);
    }
  }

  lemma ClearedStepAt(ss: seq<State>, ls: seq<Label>, t: nat, i: nat, n: nat, m: nat)
    requires IsHistory(ss, ls) && n < m < |ss| && i < |ss[n].origin| && ss[n].origin[i].ByRequest?
    requires OneHolder(ss[m], i) && Cleared(ss[m - 1], t, i) && NoNewDeletion(ss[n], ss[m - 1], i)
    ensures Cleared(ss[m], t, i) && NoNewDeletion(ss[n], ss[m], i)
  {
    BeforeStep(ss, ls, n, m, i);
    ClearedStep(ss[n], ss[m - 1], ls[m - 1], t, i);
  }

  lemma BeforeStep(ss: seq<State>, ls: seq<Label>, n: nat, m: nat, i: nat)
    requires IsHistory(ss, ls) && n < m < |ss| && i < |ss[n].origin| && ss[n].origin[i].ByRequest?
    ensures WF(ss[m - 1]) && Enabled(ss[m - 1], ls[m - 1]) && ss[m] == Next(ss[m - 1], ls[m - 1])
    ensures Coherent(ss[m - 1]) && Reloads(ss[m - 1])
    ensures i < |ss[m - 1].origin| && ss[m - 1].origin[i].ByRequest?
  {
    HistoryIdentified(ss, ls, m - 1);
    RunGrows(ss, ls, n, m - 1);
  }

  lemma ClearedStep(a: State, b: State, l: Label, t: nat, i: nat)
    requires WF(b) && Enabled(b, l) && Coherent(b) && Reloads(b) && Cleared(b, t, i)
    requires i < |b.origin| && b.origin[i].ByRequest? && OneHolder(Next(b, l), i) && NoNewDeletion(a, b, i)
    ensures Cleared(Next(b, l), t, i) && NoNewDeletion(a, Next(b, l), i)
  {
    StepStaysCleared(b, l, t, i);
    StepGrows(b, l);
    NoNewDeletionTransitive(a, b, Next(b, l), i);
  }

  lemma NoNewDeletionTransitive(a: State, b: State, c: State, i: nat)
    requires b.log <= c.log && NoNewDeletion(a, b, i) && NoNewDeletion(b, c, i)
    ensures NoNewDeletion(a, c, i)
  {
    forall j | |a.log| <= j < |c.log| && c.log[j].DeleteTokenCall? && c.log[j].id == i
      ensures c.log[j].tokenName == "" {
      if j < |b.log| {
        assert b.log[j] == c.log[j];
      }
    }
  }

  /** One leak: when the template cannot be rendered, the run is over with the token
      created, still named by the record, and no call to delete it. */
  lemma RenderFailureKeepsToken(name: string, p: Param, tmpl: Template, user: UserInfo, tok: Token, errorTTL: int,
                                now: int)
      returns (s: State)
    requires tmpl.application == p.application && AccessAllowed(tmpl, user) && p.tokenTypes != []
    ensures Reachable(s)
    ensures 1 in s.threads && s.threads[1].Creating? && s.threads[1].stage == Ended(RenderFailed)
    ensures |s.recs| == 1 && s.recs[0].tokenName == tok.name
    ensures s.log == [LookupCall(1, 0, p.username, Some(user)),
                      CreateTokenCall(1, 0, p.username, p.tokenTypes, Some(tok)),
                      RenderCall(1, 0, tmpl, DataFor(tmpl, user, s.recs[0]), None)]
  {
    s := StartOneRun(name, p, tmpl, errorTTL, now);
    s := Authorise(s, 1, 0, tmpl, user);
    s := Obtain(s, 1, 0, tok);
    s := FailToRender(s, 1, tmpl, user);
  }

  lemma StartOneRun(name: string, p: Param, tmpl: Template, errorTTL: int, now: int) returns (s: State)
    requires tmpl.application == p.application
    ensures WF(s) && Reachable(s) && s.recs == [Requested(name, p)] && s.log == []
    ensures RunsOn(s, 1, 0) && s.threads[1] == Creating(NewRun(0, s.threads[1].run.slot), AtTemplate)
    ensures p.application in s.index.byApplication && s.index.byApplication[p.application] == tmpl
  {
    s := LoadTemplate(tmpl, errorTTL, now);
    s := AskAndSend(s, 0, name, p);
    s := TakeAndFind(s, 1);
  }

  /** A create run obtains its token. */
  lemma Obtain(s: State, tid: nat, i: nat, tok: Token) returns (s': State)
    requires WF(s) && Reachable(s) && i < |s.recs|
    requires RunsOn(s, tid, i) && s.threads[tid].stage == AtToken
    ensures WF(s') && Reachable(s') && s'.recs == s.recs[i := s.recs[i].(tokenName := tok.name, tokenData := tok.data)]
    ensures tid in s'.threads && s'.threads == s.threads[tid := s'.threads[tid]]
    ensures RunsOn(s', tid, i) && s'.threads[tid].stage == AtRender
    ensures s'.threads[tid].run.template == s.threads[tid].run.template
    ensures s'.threads[tid].run.user == s.threads[tid].run.user
    ensures s'.log == s.log + [CreateTokenCall(tid, i, s.recs[i].username, s.recs[i].tokenTypes, Some(tok))]
  {
    s' := Next(s, Work(tid, CreateToken(Some(tok), "")));
    NextReachable(s, Work(tid, CreateToken(Some(tok), "")));
  }

  /** A create run cannot render its template. */
  lemma FailToRender(s: State, tid: nat, tmpl: Template, user: UserInfo) returns (s': State)
    requires WF(s) && Reachable(s) && |s.recs| == 1
    requires RunsOn(s, tid, 0) && s.threads[tid].stage == AtRender
    requires s.threads[tid].run.template == Some(tmpl) && s.threads[tid].run.user == Some(user)
    ensures WF(s') && Reachable(s') && s'.recs == [SetError(s.recs[0], s.now, "", TEMPLATE_ERROR)]
    ensures RunsOn(s', tid, 0) && s'.threads[tid].stage == Ended(RenderFailed)
    ensures s'.log == s.log + [RenderCall(tid, 0, tmpl, DataFor(tmpl, user, s.recs[0]), None)]
  {
    s' := Next(s, Work(tid, Render(None, "")));
    NextReachable(s, Work(tid, Render(None, "")));
  }

  lemma LoadTemplate(tmpl: Template, errorTTL: int, now: int) returns (s: State)
    ensures WF(s) && Reachable(s)
    ensures s == Init(errorTTL, now).
            (index := TemplateIndex.Index(map[tmpl.configMapName := tmpl], map[tmpl.application := tmpl]))
  {
    InitReachable(errorTTL, now);
    var loaded := TemplateEvent(TemplateIndex.Changed(tmpl.configMapName, Some(tmpl)));
    NextReachable(Init(errorTTL, now), loaded);
    s := Next(Init(errorTTL, now), loaded);
  }

  /** A create run finds its template, and its user is allowed to use it. */
  lemma Authorise(s: State, tid: nat, i: nat, tmpl: Template, user: UserInfo) returns (s': State)
    requires WF(s) && Reachable(s) && i < |s.recs|
    requires RunsOn(s, tid, i) && s.threads[tid] == Creating(NewRun(i, s.threads[tid].run.slot), AtTemplate)
    requires s.recs[i].application in s.index.byApplication && s.index.byApplication[s.recs[i].application] == tmpl
    requires AccessAllowed(tmpl, user)
    ensures WF(s') && Reachable(s') && s'.recs == s.recs && s'.index == s.index
    ensures tid in s'.threads && s'.threads == s.threads[tid := s'.threads[tid]]
    ensures s'.log == s.log + [LookupCall(tid, i, s.recs[i].username, Some(user))]
    ensures RunsOn(s', tid, i) && s'.threads[tid].stage == if s.recs[i].tokenTypes != [] then AtToken else AtRender
    ensures s'.threads[tid].run.template == Some(tmpl) && s'.threads[tid].run.user == Some(user)
  {
    var found := FindIt(s, tid, i, tmpl);
    s' := Next(found, Work(tid, Lookup(Some(user), "")));
    NextReachable(found, Work(tid, Lookup(Some(user), "")));
    assert s'.threads == s.threads[tid := s'.threads[tid]] && s'.recs == s.recs;
  }

  lemma FindIt(s: State, tid: nat, i: nat, tmpl: Template) returns (s': State)
    requires WF(s) && Reachable(s) && i < |s.recs|
    requires RunsOn(s, tid, i) && s.threads[tid].stage == AtTemplate
    requires s.recs[i].application in s.index.byApplication && s.index.byApplication[s.recs[i].application] == tmpl
    ensures WF(s') && Reachable(s')
    ensures s' == s.(threads := s.threads[tid := Creating(s.threads[tid].run.(template := Some(tmpl)), AtLookup)])
  {
    s' := Next(s, Work(tid, FindTemplate("")));
    NextReachable(s, Work(tid, FindTemplate("")));
    assert s'.recs == s.recs && s'.log == s.log;
  }
}

/** What becomes of the token that a record made by a Pod event found in the Pod's annotations. */
module ReloadedTokens {
  import opened Records
  import opened Protocol
  import opened Coherence
  import opened Identity
  import opened Tokens

  predicate MadeByEvent(s: State, i: nat) {
    && i < |s.origin| && s.origin[i].ByEvent? && s.origin[i].handler in s.threads
    && s.threads[s.origin[i].handler].Handling? && s.threads[s.origin[i].handler].id == i
  }

  /** The token name that the record's reload finds. */
  function FoundName(s: State, i: nat): string
    requires MadeByEvent(s, i)
  {
    var annotations := s.threads[s.origin[i].handler].pod.annotations;
    if ANN_TOKEN in annotations then annotations[ANN_TOKEN] else ""
  }

  /** Before its reload the record names no token; from then on it names the one found until that
      one's deletion was attempted. It never asks for a token of its own. */
  ghost predicate Kept(s: State, i: nat)
    requires i < |s.recs| && MadeByEvent(s, i)
  {
    && s.recs[i].tokenTypes == []
    && (forall t: nat | RunsOn(s, t, i) :: s.threads[t].stage != AtToken && s.threads[t].run.token.None?)
    && (if Settled(s, i)
        then && Held(s, i, FoundName(s, i))
             && forall h: nat | ClearsOn(s, h, i) :: Deleted(s.log, i, FoundName(s, i))
        else NoToken(s, i))
  }

  ghost predicate AllKept(s: State)
    requires WF(s)
  {
    forall i: nat | i < |s.recs| && s.origin[i].ByEvent? :: MadeByEvent(s, i) && Kept(s, i)
  }

  // ---- Every step keeps it ----

  lemma CreateLeavesToken(tid: nat, pc: Pc, rec: Odp, now: int, byApplication: map<string, Template>, act: Act)
    requires pc.Creating? && ActEnabled(pc, act) && StageOk(pc.run, pc.stage)
    requires rec.tokenTypes == [] && pc.stage != AtToken && pc.run.token.None?
    ensures var e := ActEffect(tid, pc, rec, now, byApplication, act);
            && e.pc.Creating? && e.pc.run.id == pc.run.id && e.pc.stage != AtToken && e.pc.run.token.None?
            && e.rec.tokenName == rec.tokenName && e.rec.tokenTypes == [] && !e.drops && !e.stamps
  {
  }

  lemma CreateKept(s: State, tid: nat, e: Effect, i: nat)
    requires WF(s) && i < |s.recs| && MadeByEvent(s, i) && Kept(s, i) && tid in s.threads && s.threads[tid].Creating?
    requires e.pc.Creating? && e.pc.run.id == s.threads[tid].run.id && !e.drops && !e.stamps
    requires e.pc.run.id == i ==>
               && e.pc.stage != AtToken && e.pc.run.token.None?
               && e.rec.tokenName == s.recs[i].tokenName && e.rec.tokenTypes == []
    requires WF(NextWork(s, tid, e))
    ensures MadeByEvent(NextWork(s, tid, e), i) && Kept(NextWork(s, tid, e), i)
  {
    var s' := NextWork(s, tid, e);
    forall h: nat ensures ClearsOn(s', h, i) <==> ClearsOn(s, h, i) {
    }
    forall t: nat ensures RunsOn(s', t, i) <==> RunsOn(s, t, i) {
    }
    if Deleted(s.log, i, FoundName(s, i)) {
      DeletedStays(s.log, s'.log, i, FoundName(s, i));
    }
    assert FoundName(s', i) == FoundName(s, i) && (Settled(s', i) <==> Settled(s, i));
  }

  lemma AskKept(s: State, tid: nat, i: nat)
    requires WF(s) && Enabled(s, Work(tid, Check)) && i < |s.recs| && MadeByEvent(s, i) && Kept(s, i)
    ensures MadeByEvent(Next(s, Work(tid, Check)), i) && Kept(Next(s, Work(tid, Check)), i)
  {
    var s' := Next(s, Work(tid, Check));
    assert s'.recs == s.recs && s'.log == s.log && s'.origin == s.origin;
    forall h: nat ensures ClearsOn(s', h, i) <==> ClearsOn(s, h, i) {
    }
    forall t: nat ensures RunsOn(s', t, i) <==> RunsOn(s, t, i) {
    }
    assert FoundName(s', i) == FoundName(s, i) && (Settled(s', i) <==> Settled(s, i));
  }

  /** The handler's own reload, and any other step of an event handler. */
  ghost predicate HandlerTreats(s: State, tid: nat, e: Effect, i: nat)
    requires tid in s.threads && s.threads[tid].Handling? && MadeByEvent(s, i) && i < |s.recs|
    requires HasRecord(e.pc) && RecordOf(e.pc) < |s.origin|
  {
    && e.pc.Handling? && e.pc.id == s.threads[tid].id && e.pc.pod == s.threads[tid].pod
    && (e.pc.id == i ==> e.rec.tokenTypes == s.recs[i].tokenTypes)
    && (s.threads[tid].at == ToReload ==> s.origin[e.pc.id] == ByEvent(tid) &&
                                          e.pc.at != ToClear && e.pc.at != ToReload)
    && (s.threads[tid].at == ToReload && e.pc.id == i && s.recs[i].tokenName == "" ==>
          e.rec.tokenName == FoundName(s, i))
    && (s.threads[tid].at != ToReload ==> e.pc.at != ToReload &&
                                          (e.pc.id == i ==> HandleTreats(tid, s.threads[tid], s.recs[i], e)))
  }

  lemma HandleKept(s: State, tid: nat, e: Effect, i: nat)
    requires WF(s) && i < |s.recs| && MadeByEvent(s, i) && Kept(s, i) && tid in s.threads && s.threads[tid].Handling?
    requires e.pc.Handling? && e.pc.id < |s.recs| && |s.origin| == |s.recs| && HandlerTreats(s, tid, e, i)
    requires WF(NextWork(s, tid, e))
    ensures MadeByEvent(NextWork(s, tid, e), i) && Kept(NextWork(s, tid, e), i)
  {
    var s', name := NextWork(s, tid, e), FoundName(s, i);
    forall t: nat ensures RunsOn(s', t, i) <==> RunsOn(s, t, i) {
    }
    forall t: nat | RunsOn(s', t, i) ensures s'.threads[t] == s.threads[t] {
    }
    assert FoundName(s', i) == name;
    if Deleted(s.log, i, name) {
      DeletedStays(s.log, s'.log, i, name);
    }
    LastCallDeletes(s.log, tid, i, s.recs[i].tokenName);
    if s.threads[tid].at == ToReload && e.pc.id == i {
      assert !Settled(s, i) && Settled(s', i);
      assert s'.recs[i].tokenName == name;
      forall h: nat ensures !ClearsOn(s', h, i) {
        assert !ClearsOn(s, h, i);
      }
    } else {
      assert Settled(s', i) <==> Settled(s, i);
      if e.pc.id == i && e.pc.at == ToClear {
        assert s'.log == s.log + [DeleteTokenCall(tid, i, s.recs[i].tokenName)];
      }
      assert e.pc.id == i && s.threads[tid].at == ToClear ==> ClearsOn(s, tid, i);
      forall h: nat | ClearsOn(s', h, i) && h != tid ensures ClearsOn(s, h, i) {
      }
    }
  }

  lemma HandlerActTreats(s: State, tid: nat, act: Act, i: nat)
    requires WF(s) && Reloads(s) && Enabled(s, Work(tid, act)) && s.threads[tid].Handling?
    requires i < |s.recs| && MadeByEvent(s, i)
    ensures HandlerTreats(s, tid, EffectOf(s, tid, act), i)
  {
    var pc := s.threads[tid];
    var rec := s.recs[pc.id];
    ReloadStages(tid, pc, rec, s.now, s.index.byApplication, act);
    if act.Reload? {
      assert HandlingAt(s, tid, ToReload);
    } else if act.ReadToken? {
    } else {
      HandleTokens(tid, pc, rec, s.now, s.index.byApplication, act);
    }
  }

  lemma WorkKept(s: State, tid: nat, act: Act, i: nat)
    requires WF(s) && Reloads(s) && Enabled(s, Work(tid, act)) && i < |s.recs| && MadeByEvent(s, i) && Kept(s, i)
    ensures MadeByEvent(Next(s, Work(tid, act)), i) && Kept(Next(s, Work(tid, act)), i)
  {
    var pc := s.threads[tid];
    WorkKeepsWF(s, tid, act);
    if pc.Creating? {
      if pc.run.id == i {
        assert RunsOn(s, tid, i) && PcOk(s, pc);
        CreateLeavesToken(tid, pc, s.recs[i], s.now, s.index.byApplication, act);
      }
      DropsOnlyWhenHandling(tid, pc, s.recs[pc.run.id], s.now, s.index.byApplication, act);
      CreateKept(s, tid, EffectOf(s, tid, act), i);
    } else if pc.Handling? {
      HandlerActTreats(s, tid, act, i);
      HandleKept(s, tid, EffectOf(s, tid, act), i);
    } else {
      AskKept(s, tid, i);
    }
  }

  lemma QuietKept(s: State, s': State, tid: nat, i: nat)
    requires WF(s) && WF(s') && Reloads(s') && Quietly(s, s', tid) && i < |s'.recs| && s'.origin[i].ByEvent?
    requires i < |s.recs| ==> MadeByEvent(s, i) && Kept(s, i)
    ensures MadeByEvent(s', i) && Kept(s', i)
  {
    forall h: nat | ClearsOn(s', h, i) ensures ClearsOn(s, h, i) && i < |s.recs| {
      assert PcOk(s, s.threads[h]);
    }
    forall t: nat | RunsOn(s', t, i) ensures s'.threads[t].stage != AtToken && s'.threads[t].run.token.None? {
      if t in s.threads && s.threads[t].Creating? {
        assert RunsOn(s, t, i) && PcOk(s, s.threads[t]);
      }
    }
    if i < |s.recs| {
      assert s'.threads[s.origin[i].handler] == s.threads[s.origin[i].handler];
    }
  }

  lemma StepKept(s: State, l: Label)
    requires WF(s) && Enabled(s, l) && Coherent(s) && Reloads(s) && AllKept(s)
    ensures AllKept(Next(s, l))
  {
    var s' := Next(s, l);
    StepGrows(s, l);
    StepKeepsUsers(s, l);
    forall i: nat | i < |s'.recs| && s'.origin[i].ByEvent? ensures MadeByEvent(s', i) && Kept(s', i) {
      if l.Work? {
        WorkKept(s, l.tid, l.act, i);
      } else {
        QuietStep(s, l);
        QuietKept(s, s', if HasThread(l) then l.tid else 0, i);
      }
    }
  }

  lemma {:induction false} HistoryKept(ss: seq<State>, ls: seq<Label>, k: nat)
    requires IsHistory(ss, ls) && k < |ss|
    ensures AllKept(ss[k])
  {
    if k > 0 {
      HistoryKept(ss, ls, k - 1);
      HistoryIdentified(ss, ls, k - 1);
      RunGrows(ss, ls, k - 1, k - 1);
      StepKept(ss[k - 1], ls[k - 1]);
    }
  }

  // ---- Whole runs ----

  /** In every run, once such a record is reloaded, it names the token found in its Pod's annotations,
      or none any more and that token's deletion was attempted. */
  lemma ReloadedTokenFate(ss: seq<State>, ls: seq<Label>, k: nat, i: nat)
    requires IsHistory(ss, ls) && k < |ss| && i < |ss[k].recs| && ss[k].origin[i].ByEvent? && Settled(ss[k], i)
    ensures MadeByEvent(ss[k], i) && Held(ss[k], i, FoundName(ss[k], i))
  {
    HistoryKept(ss, ls, k);
  }

  /** Every finished event handled for the record after its reload leaves the deletion of the token
      found attempted, once it has passed the release. */
  lemma FinishedEventDeletesFound(ss: seq<State>, ls: seq<Label>, n: nat)
    requires IsHistory(ss, ls) && n < |ls| && ls[n].Work? && ls[n].act.Release?
    requires var i := ss[n].threads[ls[n].tid].id; ss[n].origin[i].ByEvent? && Settled(ss[n], i)
    ensures var i := ss[n].threads[ls[n].tid].id;
            MadeByEvent(ss[n], i) && (FoundName(ss[n], i) != "" ==> Deleted(ss[n + 1].log, i, FoundName(ss[n], i)))
  {
    var s, h := ss[n], ls[n].tid;
    var i := s.threads[h].id;
    ReloadedTokenFate(ss, ls, n, i);
    assert ss[n + 1] == Next(s, Work(h, Release));
    ReleaseCalls(s, h);
    if s.recs[i].tokenName == "" {
      if FoundName(s, i) != "" {
        DeletedStays(s.log, ss[n + 1].log, i, FoundName(s, i));
      }
    } else {
      LastCallDeletes(s.log, h, i, s.recs[i].tokenName);
    }
  }

  /** The record has been reloaded and names no token, nor will it. */
  ghost predicate Spent(s: State, i: nat)
    requires WF(s)
  {
    i < |s.recs| && s.origin[i].ByEvent? && Settled(s, i) && s.recs[i].tokenName == ""
  }

  lemma StepStaysSpent(s: State, l: Label, i: nat)
    requires WF(s) && Enabled(s, l) && Coherent(s) && Reloads(s) && AllKept(s) && Spent(s, i)
    ensures Spent(Next(s, l), i) && NoNewDeletion(s, Next(s, l), i)
  {
    assert Settled(Next(s, l), i) && |s.recs| <= |Next(s, l).recs| && s.origin <= Next(s, l).origin by {
      StepGrows(s, l);
      StepKeepsUsers(s, l);
    }
    if l.Work? {
      WorkOnSpent(s, l.tid, l.act, i);
    } else {
      QuietStep(s, l);
    }
  }

  lemma WorkOnSpent(s: State, tid: nat, act: Act, i: nat)
    requires WF(s) && Enabled(s, Work(tid, act)) && Reloads(s) && AllKept(s) && Spent(s, i)
    ensures var s' := Next(s, Work(tid, act));
            i < |s'.recs| && s'.recs[i].tokenName == "" && NoNewDeletion(s, s', i)
  {
    var pc, e := s.threads[tid], EffectOf(s, tid, act);
    assert PcOk(s, pc);
    ActOnCleared(tid, pc, s.recs[RecordOf(pc)], s.now, s.index.byApplication, act);
    if pc.Creating? && pc.run.id == i {
      assert RunsOn(s, tid, i);
      CreateLeavesToken(tid, pc, s.recs[i], s.now, s.index.byApplication, act);
    } else if act.Reload? {
      assert HandlingAt(s, tid, ToReload);
    }
  }

  /** Once the token's name is cleared, no further step asks for the deletion of a token of the record. */
  lemma {:induction false} SpentDeletesNoMore(ss: seq<State>, ls: seq<Label>, i: nat, n: nat, m: nat)
    requires IsHistory(ss, ls) && n <= m < |ss| && Spent(ss[n], i)
    ensures Spent(ss[m], i) && NoNewDeletion(ss[n], ss[m], i)
    decreases m
  {
    if n < m {
      SpentDeletesNoMore(ss, ls, i, n, m - 1);
      SpentStepAt(ss, ls, i, m - 1);
      RunGrows(ss, ls, m - 1, m);
      NoNewDeletionTransitive(ss[n], ss[m - 1], ss[m], i);
    }
  }

  lemma SpentStepAt(ss: seq<State>, ls: seq<Label>, i: nat, k: nat)
    requires IsHistory(ss, ls) && k < |ls| && Spent(ss[k], i)
    ensures Spent(ss[k + 1], i) && NoNewDeletion(ss[k], ss[k + 1], i)
  {
    HistoryKept(ss, ls, k);
    HistoryIdentified(ss, ls, k);
    RunGrows(ss, ls, k, k);
    StepStaysSpent(ss[k], ls[k], i);
  }
}

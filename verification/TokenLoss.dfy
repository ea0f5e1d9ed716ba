/** When a token is lost: neither deleted nor carried by a Pod, whatever runs there are on its record. */
module TokenLoss {
  import opened Wrappers
  import opened Records
  import opened Protocol
  import opened Coherence
  import opened Identity
  import opened CreateOnce
  import opened Tokens
  import opened StrayTokens
  import opened Lookups

  // ---- What the record names ----

  /** The name that the step gives the record's token: that of a new token, or none. */
  function NameSet(s: State, l: Label, i: nat): Option<string> {
    if l.Work? && l.act.CreateToken? && l.act.token.Some? && RunsOn(s, l.tid, i) then Some(l.act.token.value.name)
    else if l.Work? && l.act.Clear? && ClearsOn(s, l.tid, i) then Some("")
    else None
  }

  /** The name set last, from the c-th step to before the m-th. */
  function LastSet(ss: seq<State>, ls: seq<Label>, i: nat, c: nat, m: nat): Option<string>
    requires m <= |ls| < |ss|
    decreases m
  {
    if m <= c then None
    else
      var set_ := NameSet(ss[m - 1], ls[m - 1], i);
      if set_.Some? then set_ else LastSet(ss, ls, i, c, m - 1)
  }

  lemma CreateSets(tid: nat, pc: Pc, rec: Odp, now: int, byApplication: map<string, Template>, act: Act)
    requires ActEnabled(pc, act) && (pc.Creating? ==> StageOk(pc.run, pc.stage)) && !act.Reload?
    ensures var e := ActEffect(tid, pc, rec, now, byApplication, act);
            e.rec.tokenName == if act.CreateToken? && act.token.Some? then act.token.value.name
                               else if act.Clear? then ""
                               else rec.tokenName
  {
  }

  /** Only these steps change the token name of a record made by a request. */
  lemma StepNames(s: State, l: Label, i: nat)
    requires WF(s) && Enabled(s, l) && Reloads(s) && i < |s.recs| && s.origin[i].ByRequest? && i < |Next(s, l).recs|
    ensures Next(s, l).recs[i].tokenName == NameSet(s, l, i).GetOr(s.recs[i].tokenName)
  {
    if l.Work? {
      var pc := s.threads[l.tid];
      if l.act.Reload? {
        assert HandlingAt(s, l.tid, ToReload);
      } else {
        CreateSets(l.tid, pc, s.recs[RecordOf(pc)], s.now, s.index.byApplication, l.act);
      }
    } else {
      QuietStep(s, l);
    }
  }

  lemma NamesNext(ss: seq<State>, ls: seq<Label>, i: nat, m: nat)
    requires IsHistory(ss, ls) && 0 < m <= |ls| && i < |ss[m - 1].recs| && ss[m - 1].origin[i].ByRequest?
    ensures i < |ss[m].recs| && ss[m].origin[i].ByRequest?
    ensures ss[m].recs[i].tokenName == NameSet(ss[m - 1], ls[m - 1], i).GetOr(ss[m - 1].recs[i].tokenName)
  {
    assert Reloads(ss[m - 1]) by { HistoryIdentified(ss, ls, m - 1); }
    assert |ss[m - 1].recs| <= |ss[m].recs| && ss[m - 1].origin <= ss[m].origin by { RunGrows(ss, ls, m - 1, m); }
    StepNames(ss[m - 1], ls[m - 1], i);
  }

  /** The record names what was set last. */
  lemma {:induction false} NameIsLastSet(ss: seq<State>, ls: seq<Label>, i: nat, c: nat, m: nat)
    requires IsHistory(ss, ls) && c <= m <= |ls| && i < |ss[c].recs| && ss[c].origin[i].ByRequest?
    ensures i < |ss[m].recs| && ss[m].origin[i].ByRequest?
    ensures ss[m].recs[i].tokenName == LastSet(ss, ls, i, c, m).GetOr(ss[c].recs[i].tokenName)
    decreases m
  {
    if c < m {
      NameIsLastSet(ss, ls, i, c, m - 1);
      NamesNext(ss, ls, i, m);
    }
  }

  // ---- What becomes of the name ----

  /** The call asks for the token's deletion, or creates a Pod that carries it. */
  predicate Spends(call: Call, i: nat, name: string) {
    call.id == i &&
    ((call.DeleteTokenCall? && call.tokenName == name) || (call.CreatePodCall? && call.ok && Carries(call.pod, name)))
  }

  /** No call does, from the given place on. */
  predicate Unspent(log: seq<Call>, from: nat, i: nat, name: string) {
    |log| <= from || (!Spends(log[|log| - 1], i, name) && Unspent(log[..|log| - 1], from, i, name))
  }

  lemma {:induction false} UnspentMeansNoCall(log: seq<Call>, from: nat, i: nat, name: string)
    ensures Unspent(log, from, i, name) <==> forall p | from <= p < |log| :: !Spends(log[p], i, name)
  {
    if from < |log| {
      UnspentMeansNoCall(log[..|log| - 1], from, i, name);
    }
  }

  /** The step releases or cleans up the token that the record names, or creates a Pod on it. */
  predicate SpendsNamed(s: State, l: Label, i: nat) {
    || Releases(s, l, i)
    || (l.Work? && (l.act.Cleanup? || (l.act.CreatePod? && l.act.ok)) && RunsOn(s, l.tid, i))
  }

  /** The step creates a Pod for a record that names no token, from a template that names this one. */
  predicate SpendsByTemplate(s: State, l: Label, i: nat, name: string) {
    && l.Work? && l.act.CreatePod? && l.act.ok && RunsOn(s, l.tid, i) && s.threads[l.tid].run.spec.Some?
    && ANN_TOKEN in s.threads[l.tid].run.spec.value.annotations
    && s.threads[l.tid].run.spec.value.annotations[ANN_TOKEN] == name
  }

  predicate StepSpends(s: State, l: Label, i: nat, named: string, name: string) {
    (named == name && SpendsNamed(s, l, i)) || (named == "" && SpendsByTemplate(s, l, i, name))
  }

  lemma ActSpends(s: State, tid: nat, act: Act, i: nat, name: string)
    requires WF(s) && Enabled(s, Work(tid, act)) && i < |s.recs| && name != ""
    ensures (exists call :: call in EffectOf(s, tid, act).calls && Spends(call, i, name)) <==>
            StepSpends(s, Work(tid, act), i, s.recs[i].tokenName, name)
  {
    var pc := s.threads[tid];
    var rec := s.recs[RecordOf(pc)];
    OneCall(tid, pc, rec, s.now, s.index.byApplication, act);
    if RecordOf(pc) == i && (act.Release? || act.Cleanup? || act.CreatePod?) {
      SpendingCall(tid, pc, rec, s.now, s.index.byApplication, act, name);
    }
  }

  lemma SpendingCall(tid: nat, pc: Pc, rec: Odp, now: int, byApplication: map<string, Template>, act: Act, name: string)
    requires ActEnabled(pc, act) && (pc.Creating? ==> StageOk(pc.run, pc.stage)) && name != ""
    requires act.Release? || act.Cleanup? || act.CreatePod?
    ensures var calls := ActEffect(tid, pc, rec, now, byApplication, act).calls;
            (calls != [] && Spends(calls[0], RecordOf(pc), name)) <==>
              || (rec.tokenName == name && !(act.CreatePod? && !act.ok))
              || (act.CreatePod? && act.ok && rec.tokenName == "" && ANN_TOKEN in pc.run.spec.value.annotations &&
                  pc.run.spec.value.annotations[ANN_TOKEN] == name)
  {
  }

  lemma StepUnspent(s: State, l: Label, from: nat, i: nat, name: string)
    requires WF(s) && Enabled(s, l) && i < |s.recs| && name != "" && from <= |s.log|
    ensures Unspent(Next(s, l).log, from, i, name) <==>
            Unspent(s.log, from, i, name) && !StepSpends(s, l, i, s.recs[i].tokenName, name)
  {
    CallsOfStep(s, l);
    if l.Work? {
      var calls := EffectOf(s, l.tid, l.act).calls;
      ActSpends(s, l.tid, l.act, i, name);
      UnspentMore(s.log, calls, from, i, name);
      assert calls != [] ==> forall call :: call in calls <==> call == calls[0];
    } else {
      assert Next(s, l).log == s.log;
    }
  }

  lemma UnspentMore(log: seq<Call>, calls: seq<Call>, from: nat, i: nat, name: string)
    requires |calls| <= 1 && from <= |log|
    ensures Unspent(log + calls, from, i, name) <==>
            Unspent(log, from, i, name) && !(calls != [] && Spends(calls[0], i, name))
  {
    if calls == [] {
      assert log + calls == log;
    } else {
      assert (log + calls)[..|log + calls| - 1] == log;
    }
  }

  /** In every history, whatever runs and events there are: a token was neither deleted nor carried by a
      Pod since it was obtained if and only if no later step released or cleaned up the record's token,
      or created its Pod, while that token's name was the last one set; nor created a Pod for the
      record without a token from a template that names it. */
  lemma LostExactly(ss: seq<State>, ls: seq<Label>, i: nat, name: string, c: nat, n: nat)
    requires IsHistory(ss, ls) && c < n <= |ls| && Obtains(ss[c], ls[c], i, name) && name != ""
    requires i < |ss[c].recs| && ss[c].origin[i].ByRequest?
    ensures Unspent(ss[n].log, |ss[c + 1].log|, i, name) <==> !SpentBetween(ss, ls, i, name, c, n)
  {
    var from := |ss[c + 1].log|;
    forall m: nat | c < m < |ls| ensures Adds(ss, ls, from, i, name, c, m) {
      NamedAt(ss, ls, i, c, m);
      AddsAt(ss, ls, from, i, name, c, m);
      SetSince(ss, ls, i, c, m);
      AddsNamed(ss, ls, from, i, name, c, m);
    }
    AllAdded(ss, ls, from, i, name, c, n);
  }

  predicate Named(ss: seq<State>, ls: seq<Label>, i: nat, c: nat, m: nat)
    requires m <= |ls| < |ss| && c < |ss|
  {
    i < |ss[c].recs| && i < |ss[m].recs| &&
    ss[m].recs[i].tokenName == LastSet(ss, ls, i, c, m).GetOr(ss[c].recs[i].tokenName)
  }

  lemma NamedAt(ss: seq<State>, ls: seq<Label>, i: nat, c: nat, m: nat)
    requires IsHistory(ss, ls) && c <= m <= |ls| && i < |ss[c].recs| && ss[c].origin[i].ByRequest?
    ensures Named(ss, ls, i, c, m)
  {
    NameIsLastSet(ss, ls, i, c, m);
  }

  /** The name stays unspent in a step if the step does not spend the token that the record names. */
  predicate AddsByName(ss: seq<State>, ls: seq<Label>, from: nat, i: nat, name: string, m: nat)
    requires m < |ls| < |ss|
  {
    i < |ss[m].recs| &&
    (Unspent(ss[m + 1].log, from, i, name) <==>
     Unspent(ss[m].log, from, i, name) && !StepSpends(ss[m], ls[m], i, ss[m].recs[i].tokenName, name))
  }

  lemma AddsAt(ss: seq<State>, ls: seq<Label>, from: nat, i: nat, name: string, c: nat, m: nat)
    requires IsHistory(ss, ls) && c < m < |ls| && i < |ss[c].recs| && name != "" && from == |ss[c + 1].log|
    ensures AddsByName(ss, ls, from, i, name, m)
  {
    assert Enabled(ss[m], ls[m]) && ss[m + 1] == Next(ss[m], ls[m]);
    RunGrows(ss, ls, c, m);
    LaterLog(ss, ls, c + 1, m);
    StepUnspent(ss[m], ls[m], from, i, name);
  }

  /** The same with what was set last. */
  predicate Adds(ss: seq<State>, ls: seq<Label>, from: nat, i: nat, name: string, c: nat, m: nat)
    requires m < |ls| < |ss|
  {
    Unspent(ss[m + 1].log, from, i, name) <==> Unspent(ss[m].log, from, i, name) && !SpentAt(ss, ls, i, name, c, m)
  }

  lemma AddsNamed(ss: seq<State>, ls: seq<Label>, from: nat, i: nat, name: string, c: nat, m: nat)
    requires c < m < |ls| < |ss| && LastSet(ss, ls, i, c, m).Some?
    requires Named(ss, ls, i, c, m) && AddsByName(ss, ls, from, i, name, m)
    ensures Adds(ss, ls, from, i, name, c, m)
  {
  }

  lemma {:induction false} AllAdded(ss: seq<State>, ls: seq<Label>, from: nat, i: nat, name: string, c: nat, n: nat)
    requires c < n <= |ls| < |ss| && from == |ss[c + 1].log|
    requires forall m: nat {:trigger Adds(ss, ls, from, i, name, c, m)} | c < m < |ls| ::
               Adds(ss, ls, from, i, name, c, m)
    ensures Unspent(ss[n].log, from, i, name) <==> !SpentBetween(ss, ls, i, name, c, n)
    decreases n
  {
    if c + 1 < n {
      var m := n - 1;
      AllAdded(ss, ls, from, i, name, c, m);
      assert Adds(ss, ls, from, i, name, c, m);
    }
  }

  /** Some step after the c-th and before the n-th spends the name. */
  ghost predicate SpentBetween(ss: seq<State>, ls: seq<Label>, i: nat, name: string, c: nat, n: nat)
    requires n <= |ls| < |ss|
    decreases n
  {
    c + 1 < n && (SpentAt(ss, ls, i, name, c, n - 1) || SpentBetween(ss, ls, i, name, c, n - 1))
  }

  predicate SpentAt(ss: seq<State>, ls: seq<Label>, i: nat, name: string, c: nat, m: nat)
    requires m < |ls| < |ss|
  {
    StepSpends(ss[m], ls[m], i, LastSet(ss, ls, i, c, m).GetOr(""), name)
  }

  lemma {:induction false} SpentAtSomeStep(ss: seq<State>, ls: seq<Label>, i: nat, name: string, c: nat, n: nat)
    requires n <= |ls| < |ss|
    ensures SpentBetween(ss, ls, i, name, c, n) <==> exists m :: c < m < n && SpentAt(ss, ls, i, name, c, m)
    decreases n
  {
    if c + 1 < n {
      SpentAtSomeStep(ss, ls, i, name, c, n - 1);
    }
  }

  lemma {:induction false} SetSince(ss: seq<State>, ls: seq<Label>, i: nat, c: nat, m: nat)
    requires c < m <= |ls| < |ss| && NameSet(ss[c], ls[c], i).Some?
    ensures LastSet(ss, ls, i, c, m).Some?
    decreases m
  {
    if c + 1 < m {
      SetSince(ss, ls, i, c, m - 1);
    }
  }

  // ---- Two runs with a token ----

  /** A name waits twice, and both times it stands for the second record. */
  lemma QueueTwiceWithTemplate(name: string, p: Param, tmpl: Template, pod: Pod, errorTTL: int, now: int)
      returns (s: State)
    requires pod.phase.Succeeded?
    ensures WF(s) && Reachable(s) && |s.recs| == 2 && s.recs[1] == Requested(name, p) && s.log == []
    ensures s.channel == [name, name] && s.odps == map[name := 1] && s.sent == [0, 1] && s.taken == 0
    ensures s.threads.Keys == {0, 1, 2} && s.origin == [ByRequest(0), ByRequest(2)]
    ensures tmpl.application in s.index.byApplication && s.index.byApplication[tmpl.application] == tmpl
  {
    s := LoadTemplate(tmpl, errorTTL, now);
    s := AskAndSend(s, 0, name, p);
    s := Succeed(s, 1, name, pod);
    s := AskAndSend(s, 2, name, p);
  }

  /** Both create runs are authorised on the second record. */
  lemma AuthoriseTwice(name: string, p: Param, tmpl: Template, user: UserInfo, pod: Pod, errorTTL: int, now: int)
      returns (s: State)
    requires tmpl.application == p.application && AccessAllowed(tmpl, user) && p.tokenTypes != []
    requires pod.phase.Succeeded?
    ensures WF(s) && Reachable(s) && |s.recs| == 2 && s.recs[1] == Requested(name, p)
    ensures RunsOn(s, 3, 1) && s.threads[3].stage == AtToken && RunsOn(s, 4, 1) && s.threads[4].stage == AtToken
    ensures s.log == [LookupCall(3, 1, p.username, Some(user)), LookupCall(4, 1, p.username, Some(user))]
  {
    s := QueueTwiceWithTemplate(name, p, tmpl, pod, errorTTL, now);
    s := TakeAndFind(s, 3);
    s := TakeAndFind(s, 4);
    s := AuthoriseBoth(s, name, p, tmpl, user);
  }

  lemma AuthoriseBoth(s0: State, name: string, p: Param, tmpl: Template, user: UserInfo) returns (s: State)
    requires WF(s0) && Reachable(s0) && |s0.recs| == 2 && s0.recs[1] == Requested(name, p) && s0.log == []
    requires 3 in s0.threads && s0.threads[3] == Creating(NewRun(1, 0), AtTemplate)
    requires 4 in s0.threads && s0.threads[4] == Creating(NewRun(1, 1), AtTemplate)
    requires tmpl.application == p.application && AccessAllowed(tmpl, user) && p.tokenTypes != []
    requires tmpl.application in s0.index.byApplication && s0.index.byApplication[tmpl.application] == tmpl
    ensures WF(s) && Reachable(s) && |s.recs| == 2 && s.recs[1] == Requested(name, p)
    ensures RunsOn(s, 3, 1) && s.threads[3].stage == AtToken && RunsOn(s, 4, 1) && s.threads[4].stage == AtToken
    ensures s.log == [LookupCall(3, 1, p.username, Some(user)), LookupCall(4, 1, p.username, Some(user))]
  {
    s := Authorise(s0, 3, 1, tmpl, user);
    s := Authorise(s, 4, 1, tmpl, user);
  }

  /** The other leak: when a second run obtains a token for the same record before the first has
      created its Pod, the first token is overwritten. No rendering fails, the first run's Pod is made,
      and the first token is neither deleted nor carried by it. */
  lemma OverwrittenTokenIsLost(name: string, p: Param, tmpl: Template, user: UserInfo, t1: Token, t2: Token,
                               spec: PodSpec, pod: Pod, errorTTL: int, now: int)
      returns (s: State)
    requires tmpl.application == p.application && AccessAllowed(tmpl, user) && p.tokenTypes != []
    requires pod.phase.Succeeded? && t1.name != "" && t2.name != "" && t1.name != t2.name
    ensures WF(s) && Reachable(s) && RunsOn(s, 3, 1) && s.threads[3].stage == Ended(PodMade) && !OneHolder(s, 1)
    ensures |s.log| == 6 && s.log[2] == CreateTokenCall(3, 1, p.username, p.tokenTypes, Some(t1))
    ensures !Deleted(s.log, 1, t1.name) && !Carried(s.log, 1, t1.name)
  {
    s := AuthoriseTwice(name, p, tmpl, user, pod, errorTTL, now);
    s := ObtainBoth(s, t1, t2);
    var obtained := s;
    s := RenderIt(s, 3, 1, spec);
    s := CreateIt(s, 3, 1, spec);
    assert s.log[..4] == obtained.log;
    assert s.log[5] == CreatePodCall(3, 1, Decorate(spec, obtained.recs[1]), true);
    FirstTokenIsLost(s, obtained.recs[1], spec, t1, t2);
    assert TokenCallFor(s.log, 2, 1) && TokenCallFor(s.log, 3, 1);
    TwoTokensTwoHolders(s, 1);
  }

  lemma FirstTokenIsLost(s: State, rec: Odp, spec: PodSpec, t1: Token, t2: Token)
    requires |s.log| == 6 && rec.tokenName == t2.name != "" && t1.name != "" && t1.name != t2.name
    requires s.log[0].LookupCall? && s.log[1].LookupCall? && s.log[2].CreateTokenCall? && s.log[3].CreateTokenCall?
    requires s.log[4].RenderCall? && s.log[5] == CreatePodCall(3, 1, Decorate(spec, rec), true)
    ensures !Deleted(s.log, 1, t1.name) && !Carried(s.log, 1, t1.name)
  {
  }

  lemma TwoTokensTwoHolders(s: State, i: nat)
    requires Reachable(s) && TwoTokenCalls(s.log, i)
    ensures !OneHolder(s, i)
  {
    var ss, ls :| IsHistory(ss, ls) && ss[|ls|] == s;
    SeveralTokens(ss, ls, |ls|, i);
  }

  lemma ObtainBoth(s0: State, t1: Token, t2: Token) returns (s: State)
    requires WF(s0) && Reachable(s0) && |s0.recs| == 2 && |s0.log| == 2
    requires RunsOn(s0, 3, 1) && s0.threads[3].stage == AtToken && RunsOn(s0, 4, 1) && s0.threads[4].stage == AtToken
    ensures WF(s) && Reachable(s) && |s.recs| == 2 && s.recs[1].tokenName == t2.name
    ensures RunsOn(s, 3, 1) && s.threads[3].stage == AtRender
    ensures s.log == s0.log + [CreateTokenCall(3, 1, s0.recs[1].username, s0.recs[1].tokenTypes, Some(t1)),
                               CreateTokenCall(4, 1, s0.recs[1].username, s0.recs[1].tokenTypes, Some(t2))]
  {
    s := Obtain(s0, 3, 1, t1);
    s := Obtain(s, 4, 1, t2);
  }

  // ---- Tokens without a name ----

  /** An event handler asks for the deletion of tokens with a name only, so a token without one is never
      released. */
  ghost predicate NamelessKept(s: State) {
    forall j | 0 <= j < |s.log| && s.log[j].DeleteTokenCall? && s.log[j].tokenName == "" ::
      s.log[j].tid in s.threads && s.threads[s.log[j].tid].Creating?
  }

  lemma StepNamelessKept(s: State, l: Label)
    requires WF(s) && Enabled(s, l) && Coherent(s) && NamelessKept(s)
    ensures NamelessKept(Next(s, l))
  {
    var s' := Next(s, l);
    StepGrows(s, l);
    CallsOfStep(s, l);
    if l.Work? {
      var pc := s.threads[l.tid];
      OneCall(l.tid, pc, s.recs[RecordOf(pc)], s.now, s.index.byApplication, l.act);
      NamelessCall(l.tid, pc, s.recs[RecordOf(pc)], s.now, s.index.byApplication, l.act);
    }
    forall j | 0 <= j < |s'.log| && s'.log[j].DeleteTokenCall? && s'.log[j].tokenName == ""
      ensures s'.log[j].tid in s'.threads && s'.threads[s'.log[j].tid].Creating?
    {
      if j < |s.log| {
        assert s'.log[j] == s.log[j] && PcGrows(s.threads[s.log[j].tid], s'.threads[s.log[j].tid]);
      } else {
        assert s'.log[j] in EffectOf(s, l.tid, l.act).calls;
      }
    }
  }

  lemma NamelessCall(tid: nat, pc: Pc, rec: Odp, now: int, byApplication: map<string, Template>, act: Act)
    requires ActEnabled(pc, act) && (pc.Creating? ==> StageOk(pc.run, pc.stage))
    ensures var e := ActEffect(tid, pc, rec, now, byApplication, act);
            forall c | c in e.calls && c.DeleteTokenCall? && c.tokenName == "" :: e.pc.Creating?
  {
  }

  lemma {:induction false} NamelessIsNeverReleased(ss: seq<State>, ls: seq<Label>, k: nat)
    requires IsHistory(ss, ls) && k < |ss|
    ensures NamelessKept(ss[k])
  {
    if k > 0 {
      NamelessIsNeverReleased(ss, ls, k - 1);
      NamelessNext(ss, ls, k);
    }
  }

  lemma NamelessNext(ss: seq<State>, ls: seq<Label>, k: nat)
    requires IsHistory(ss, ls) && 0 < k < |ss| && NamelessKept(ss[k - 1])
    ensures NamelessKept(ss[k])
  {
    assert Enabled(ss[k - 1], ls[k - 1]) && ss[k] == Next(ss[k - 1], ls[k - 1]);
    RunGrows(ss, ls, k - 1, k - 1);
    StepNamelessKept(ss[k - 1], ls[k - 1]);
  }

  // ---- When there is one holder ----

  /** If every lookup found the record that was filed when its name was queued, no record has two runs
      that hold tokens: the condition of the account in Tokens. */
  lemma UndisturbedHoldsOnce(ss: seq<State>, ls: seq<Label>, i: nat, k: nat)
    requires IsHistory(ss, ls) && k < |ss|
    requires forall b: nat | b < k && ls[b].Find? :: Undisturbed(ss, ls, b)
    ensures OneHolder(ss[k], i)
  {
    UndisturbedRunsOnce(ss, ls, k);
  }
}

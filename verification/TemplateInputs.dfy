/** What a template is executed with, and what token is asked for: where each value comes from. */
module TemplateInputs {
  import opened Wrappers
  import opened Records
  import opened Protocol
  import opened Coherence
  import opened Pipeline
  import opened Provenance
  import opened Tokens

  // ---- The step of the call ----

  /** Value by value, the data of the rendering that this step asks for. */
  ghost predicate SeesRecord(data: TemplateData, t: Template, u: UserInfo, r: Odp) {
    && data.application == r.application && data.userName == r.username
    && data.tokenName == r.tokenName && data.tokenData == r.tokenData
    && data.requestData == r.requestData && data.profile == r.profile && data.podName == r.podName
    && data.configData == t.data && data.ldapUserAttr == u.userAttr && data.ldapGroups == u.groups
  }

  /** The step renders the template for this call. */
  ghost predicate Renders(s: State, l: Label, c: Call) {
    && c.RenderCall? && l.Work? && l.act.Render? && l.tid == c.tid && OnRecord(s, c.tid, c.id)
    && s.threads[c.tid].Creating? && s.threads[c.tid].stage == AtRender
    && s.threads[c.tid].run.template == Some(c.template) && s.threads[c.tid].run.user.Some?
    && SeesRecord(c.data, c.template, s.threads[c.tid].run.user.value, s.recs[c.id])
  }

  lemma RenderStep(s: State, tid: nat, act: Act, c: Call)
    requires WF(s) && Enabled(s, Work(tid, act)) && c in EffectOf(s, tid, act).calls && c.RenderCall?
    ensures Renders(s, Work(tid, act), c)
  {
    assert PcOk(s, s.threads[tid]);
  }

  lemma WhichRender(ss: seq<State>, ls: seq<Label>, n: nat, p: nat) returns (m: nat)
    requires IsHistory(ss, ls) && n < |ss| && p < |ss[n].log| && ss[n].log[p].RenderCall?
    ensures m < n && |ss[m].log| == p && Renders(ss[m], ls[m], ss[n].log[p])
  {
    m := WhichStep(ss, ls, n, p);
    RenderStepAt(ss, ls, m, ss[n].log[p]);
  }

  lemma RenderStepAt(ss: seq<State>, ls: seq<Label>, m: nat, c: Call)
    requires IsHistory(ss, ls) && m < |ls| && ls[m].Work? && c.RenderCall?
    requires c in EffectOf(ss[m], ls[m].tid, ls[m].act).calls
    ensures Renders(ss[m], ls[m], c)
  {
    assert Enabled(ss[m], ls[m]);
    RenderStep(ss[m], ls[m].tid, ls[m].act, c);
  }

  // ---- What the request gave ----

  /** What never changes in a record is what its label gave. */
  predicate KeepsRequest(l: Label, r: Odp) {
    && (l.Request? ==>
          r.podName == l.name && r.requestData == l.param.requestData && r.profile == l.param.profile &&
          r.tokenTypes == l.param.tokenTypes)
    && (l.PodEvent? ==> r.podName == l.name && r.requestData == map[] && r.profile == "" && r.tokenTypes == [])
    && (l.Request? || l.PodEvent?)
  }

  lemma RecordKeepsRequest(ss: seq<State>, ls: seq<Label>, i: nat, k: nat) returns (j: nat)
    requires IsHistory(ss, ls) && k < |ss| && i < |ss[k].recs|
    ensures j < k && MakesRecord(ss[j], ls[j], ss[j + 1], i) && KeepsRequest(ls[j], ss[k].recs[i])
  {
    j := RecordIsMade(ss, ls, i, k);
    RunGrows(ss, ls, j + 1, k);
    assert RecGrows(ss[j + 1].recs[i], ss[k].recs[i]);
  }

  /** In every history: the request data and the profile a template sees are those of the request that
      made the record, or empty if a Pod event made it, and the Pod name is the one asked for or shown. */
  lemma TemplateSeesRequest(ss: seq<State>, ls: seq<Label>, n: nat, p: nat) returns (j: nat)
    requires IsHistory(ss, ls) && n < |ss| && p < |ss[n].log| && ss[n].log[p].RenderCall?
    ensures var c := ss[n].log[p];
            && j < n && MakesRecord(ss[j], ls[j], ss[j + 1], c.id) && c.data.podName == ls[j].name
            && (ls[j].Request? ==>
                  c.data.requestData == ls[j].param.requestData && c.data.profile == ls[j].param.profile)
            && (ls[j].PodEvent? ==> c.data.requestData == map[] && c.data.profile == "")
  {
    var m := WhichRender(ss, ls, n, p);
    j := RecordKeepsRequest(ss, ls, ss[n].log[p].id, m);
  }

  // ---- What was set since ----

  /** The step gave the record's token this name. */
  predicate Names(s: State, l: Label, name: string) {
    l.Work? &&
    match l.act
    case CreateToken(Some(t), _) => name == t.name
    case Clear => name == ""
    case Reload =>
      l.tid in s.threads && s.threads[l.tid].Handling? &&
      "com.ericsson.odp.token" in s.threads[l.tid].pod.annotations &&
      name == s.threads[l.tid].pod.annotations["com.ericsson.odp.token"]
    case _ => false
  }

  /** The step gave the record this token data: the token service's answer. */
  predicate Fills(l: Label, data: Strings) {
    l.Work? &&
    match l.act
    case CreateToken(Some(t), _) => data == t.data
    case ReadToken(Some(t)) => data == t.data
    case _ => false
  }

  /** The step read this value back from a Pod's annotation. */
  predicate ReadsBack(s: State, l: Label, key: string, value: string) {
    l.Work? && l.act.Reload? && l.tid in s.threads && s.threads[l.tid].Handling? &&
    key in s.threads[l.tid].pod.annotations && value == s.threads[l.tid].pod.annotations[key]
  }

  lemma TokenFieldsAreLastSet(ss: seq<State>, ls: seq<Label>, i: nat, j: nat, m: nat, r: Odp)
      returns (a: Option<nat>, b: Option<nat>)
    requires j < m <= |ls| < |ss| && MakesRecord(ss[j], ls[j], ss[j + 1], i)
    requires AsLastSet(TokenName, ss, ls, i, j, m, r) && AsLastSet(TokenData, ss, ls, i, j, m, r)
    ensures a.None? ==> r.tokenName == "" && forall x | j < x < m :: !Sets(TokenName, ss[x], ls[x], i)
    ensures a.Some? ==> LastSetter(TokenName, ss, ls, i, j, m, a.value) && Names(ss[a.value], ls[a.value], r.tokenName)
    ensures b.None? ==> r.tokenData == map[] && forall x | j < x < m :: !Sets(TokenData, ss[x], ls[x], i)
    ensures b.Some? ==> LastSetter(TokenData, ss, ls, i, j, m, b.value) && Fills(ls[b.value], r.tokenData)
  {
    a := NameIsLastSet(ss, ls, i, j, m, r);
    b := FindLastSetter(TokenData, ss, ls, i, j, m);
    if b.Some? {
      LastSetterSays(TokenData, ss, ls, i, j, m, r, b.value);
    } else {
      NoSetterSays(TokenData, ss, ls, i, j, m, r);
    }
  }

  lemma NameIsLastSet(ss: seq<State>, ls: seq<Label>, i: nat, j: nat, m: nat, r: Odp) returns (a: Option<nat>)
    requires j < m <= |ls| < |ss| && MakesRecord(ss[j], ls[j], ss[j + 1], i) && AsLastSet(TokenName, ss, ls, i, j, m, r)
    ensures a.None? ==> r.tokenName == "" && forall x | j < x < m :: !Sets(TokenName, ss[x], ls[x], i)
    ensures a.Some? ==> LastSetter(TokenName, ss, ls, i, j, m, a.value) && Names(ss[a.value], ls[a.value], r.tokenName)
  {
    a := FindLastSetter(TokenName, ss, ls, i, j, m);
    if a.Some? {
      LastSetterSays(TokenName, ss, ls, i, j, m, r, a.value);
    } else {
      NoSetterSays(TokenName, ss, ls, i, j, m, r);
    }
  }

  /** In every history: the token name a template sees is the one last given to the record, by a created
      token, an annotation read back, or the clearing of the name; the token data are those of the last
      token that the service answered with. Both are empty if there was no such step. */
  lemma TemplateSeesToken(ss: seq<State>, ls: seq<Label>, n: nat, p: nat)
      returns (j: nat, m: nat, a: Option<nat>, b: Option<nat>)
    requires IsHistory(ss, ls) && n < |ss| && p < |ss[n].log| && ss[n].log[p].RenderCall?
    ensures j < m < n && |ss[m].log| == p && MakesRecord(ss[j], ls[j], ss[j + 1], ss[n].log[p].id)
    ensures var c := ss[n].log[p];
            && (a.None? ==> c.data.tokenName == "" && forall x | j < x < m :: !Sets(TokenName, ss[x], ls[x], c.id))
            && (a.Some? ==> LastSetter(TokenName, ss, ls, c.id, j, m, a.value) &&
                            Names(ss[a.value], ls[a.value], c.data.tokenName))
            && (b.None? ==> c.data.tokenData == map[] && forall x | j < x < m :: !Sets(TokenData, ss[x], ls[x], c.id))
            && (b.Some? ==> LastSetter(TokenData, ss, ls, c.id, j, m, b.value) && Fills(ls[b.value], c.data.tokenData))
  {
    m := WhichRender(ss, ls, n, p);
    var i := ss[n].log[p].id;
    j := RecordIsMade(ss, ls, i, m);
    TokenFieldsAt(ss, ls, i, j, m);
    a, b := TokenFieldsAreLastSet(ss, ls, i, j, m, ss[m].recs[i]);
  }

  lemma TokenFieldsAt(ss: seq<State>, ls: seq<Label>, i: nat, j: nat, m: nat)
    requires IsHistory(ss, ls) && j < m < |ss| && MakesRecord(ss[j], ls[j], ss[j + 1], i)
    ensures i < |ss[m].recs|
    ensures AsLastSet(TokenName, ss, ls, i, j, m, ss[m].recs[i]) && AsLastSet(TokenData, ss, ls, i, j, m, ss[m].recs[i])
  {
    FieldIsLastSet(TokenName, ss, ls, i, j, m);
    FieldIsLastSet(TokenData, ss, ls, i, j, m);
  }

  lemma OwnerIsLastSet(ss: seq<State>, ls: seq<Label>, i: nat, j: nat, m: nat, r: Odp)
      returns (a: Option<nat>, b: Option<nat>)
    requires j < m <= |ls| < |ss| && MakesRecord(ss[j], ls[j], ss[j + 1], i)
    requires AsLastSet(UserName, ss, ls, i, j, m, r) && AsLastSet(Application, ss, ls, i, j, m, r)
    ensures a.None? ==> r.username == if ls[j].Request? then ls[j].param.username else ""
    ensures a.Some? ==> LastSetter(UserName, ss, ls, i, j, m, a.value) &&
                        ReadsBack(ss[a.value], ls[a.value], "com.ericsson.odp.username", r.username)
    ensures b.None? ==> r.application == if ls[j].Request? then ls[j].param.application else ""
    ensures b.Some? ==> LastSetter(Application, ss, ls, i, j, m, b.value) &&
                        ReadsBack(ss[b.value], ls[b.value], "com.ericsson.odp.application", r.application)
  {
    a := UserIsLastSet(ss, ls, i, j, m, r);
    b := FindLastSetter(Application, ss, ls, i, j, m);
    if b.Some? {
      LastSetterSays(Application, ss, ls, i, j, m, r, b.value);
    } else {
      NoSetterSays(Application, ss, ls, i, j, m, r);
    }
  }

  lemma UserIsLastSet(ss: seq<State>, ls: seq<Label>, i: nat, j: nat, m: nat, r: Odp) returns (a: Option<nat>)
    requires j < m <= |ls| < |ss| && MakesRecord(ss[j], ls[j], ss[j + 1], i) && AsLastSet(UserName, ss, ls, i, j, m, r)
    ensures a.None? ==> r.username == if ls[j].Request? then ls[j].param.username else ""
    ensures a.Some? ==> LastSetter(UserName, ss, ls, i, j, m, a.value) &&
                        ReadsBack(ss[a.value], ls[a.value], "com.ericsson.odp.username", r.username)
  {
    a := FindLastSetter(UserName, ss, ls, i, j, m);
    if a.Some? {
      LastSetterSays(UserName, ss, ls, i, j, m, r, a.value);
    } else {
      NoSetterSays(UserName, ss, ls, i, j, m, r);
    }
  }

  /** In every history: the user and application a template sees are those last read back from a Pod's
      annotations, or else those of the request that made the record; empty ones if a Pod event did. */
  lemma TemplateSeesOwner(ss: seq<State>, ls: seq<Label>, n: nat, p: nat)
      returns (j: nat, m: nat, a: Option<nat>, b: Option<nat>)
    requires IsHistory(ss, ls) && n < |ss| && p < |ss[n].log| && ss[n].log[p].RenderCall?
    ensures j < m < n && |ss[m].log| == p && MakesRecord(ss[j], ls[j], ss[j + 1], ss[n].log[p].id)
    ensures var c := ss[n].log[p];
            && (a.None? ==> c.data.userName == if ls[j].Request? then ls[j].param.username else "")
            && (a.Some? ==> LastSetter(UserName, ss, ls, c.id, j, m, a.value) &&
                            ReadsBack(ss[a.value], ls[a.value], "com.ericsson.odp.username", c.data.userName))
            && (b.None? ==> c.data.application == if ls[j].Request? then ls[j].param.application else "")
            && (b.Some? ==> LastSetter(Application, ss, ls, c.id, j, m, b.value) &&
                            ReadsBack(ss[b.value], ls[b.value], "com.ericsson.odp.application", c.data.application))
  {
    m := WhichRender(ss, ls, n, p);
    var i := ss[n].log[p].id;
    j := RecordIsMade(ss, ls, i, m);
    OwnerAt(ss, ls, i, j, m);
    a, b := OwnerIsLastSet(ss, ls, i, j, m, ss[m].recs[i]);
  }

  lemma OwnerAt(ss: seq<State>, ls: seq<Label>, i: nat, j: nat, m: nat)
    requires IsHistory(ss, ls) && j < m < |ss| && MakesRecord(ss[j], ls[j], ss[j + 1], i)
    ensures i < |ss[m].recs|
    ensures AsLastSet(UserName, ss, ls, i, j, m, ss[m].recs[i])
    ensures AsLastSet(Application, ss, ls, i, j, m, ss[m].recs[i])
  {
    FieldIsLastSet(UserName, ss, ls, i, j, m);
    FieldIsLastSet(Application, ss, ls, i, j, m);
  }

  // ---- What the lookup gave ----

  lemma LookupIsLogged(s: State, t: nat)
    requires WF(s) && Traced(s) && t in s.threads && s.threads[t].Creating? && s.threads[t].stage == AtRender
    ensures exists q :: 0 <= q < |s.log| && s.log[q].LookupCall? && s.log[q].tid == t &&
                        s.log[q].id == s.threads[t].run.id && s.log[q].user == s.threads[t].run.user
  {
    var run, stage := s.threads[t].run, s.threads[t].stage;
    var c := LookupCall(t, run.id, run.who, run.user);
    var types := TypesOf(s, s.threads[t]);
    assert PcOk(s, s.threads[t]);
    assert LookupPart(t, run, stage) == [c];
    assert Trace(t, run, stage, types)[0] == c;
    assert Project(s.log, t) == Trace(t, run, stage, types);
    ProjectMember(s.log, t, c);
  }

  /** In every history: the user's attributes and groups a template sees are those that the run's own
      lookup answered before, and the configuration is that of the template itself. */
  lemma TemplateSeesLookup(ss: seq<State>, ls: seq<Label>, n: nat, p: nat) returns (q: nat)
    requires IsHistory(ss, ls) && n < |ss| && p < |ss[n].log| && ss[n].log[p].RenderCall?
    ensures ss[n].log[p].data.configData == ss[n].log[p].template.data
    ensures q < p && ss[n].log[q].LookupCall? && ss[n].log[q].tid == ss[n].log[p].tid
    ensures ss[n].log[q].id == ss[n].log[p].id && ss[n].log[q].user.Some?
    ensures ss[n].log[p].data.ldapUserAttr == ss[n].log[q].user.value.userAttr
    ensures ss[n].log[p].data.ldapGroups == ss[n].log[q].user.value.groups
  {
    var m := WhichRender(ss, ls, n, p);
    LookupLoggedAt(ss, ls, m, n, ss[n].log[p].tid);
    q :| 0 <= q < |ss[m].log| && ss[n].log[q] == ss[m].log[q] && ss[m].log[q].LookupCall? &&
         ss[m].log[q].tid == ss[n].log[p].tid &&
         ss[m].log[q].id == ss[m].threads[ss[n].log[p].tid].run.id &&
         ss[m].log[q].user == ss[m].threads[ss[n].log[p].tid].run.user;
  }

  lemma LookupLoggedAt(ss: seq<State>, ls: seq<Label>, m: nat, n: nat, t: nat)
    requires IsHistory(ss, ls) && m < n < |ss| && t in ss[m].threads && ss[m].threads[t].Creating?
    requires ss[m].threads[t].stage == AtRender
    ensures |ss[m].log| <= |ss[n].log|
    ensures exists q :: 0 <= q < |ss[m].log| && ss[n].log[q] == ss[m].log[q] && ss[m].log[q].LookupCall? &&
                        ss[m].log[q].tid == t && ss[m].log[q].id == ss[m].threads[t].run.id &&
                        ss[m].log[q].user == ss[m].threads[t].run.user
  {
    HistoryTraces(ss, ls, m);
    RunGrows(ss, ls, m, n);
    LookupIsLogged(ss[m], t);
  }

  // ---- What token is asked for ----

  lemma TokenStep(s: State, tid: nat, act: Act, c: Call)
    requires WF(s) && Enabled(s, Work(tid, act)) && c in EffectOf(s, tid, act).calls && c.CreateTokenCall?
    ensures OnRecord(s, tid, c.id) && c.types == s.recs[c.id].tokenTypes && c.tid == tid
  {
    assert PcOk(s, s.threads[tid]);
  }

  /** In every history: a token is created for the types that the request asked for, so for a record made
      by a request. */
  lemma TokenIsForRequestedTypes(ss: seq<State>, ls: seq<Label>, n: nat, p: nat) returns (j: nat)
    requires IsHistory(ss, ls) && n < |ss| && p < |ss[n].log| && ss[n].log[p].CreateTokenCall?
    ensures var c := ss[n].log[p];
            && j < n && MakesRecord(ss[j], ls[j], ss[j + 1], c.id)
            && c.types == if ls[j].Request? then ls[j].param.tokenTypes else []
  {
    var m := WhichStep(ss, ls, n, p);
    TokenStepAt(ss, ls, m, ss[n].log[p]);
    j := RecordKeepsRequest(ss, ls, ss[n].log[p].id, m);
  }

  lemma TokenStepAt(ss: seq<State>, ls: seq<Label>, m: nat, c: Call)
    requires IsHistory(ss, ls) && m < |ls| && ls[m].Work? && c.CreateTokenCall?
    requires c in EffectOf(ss[m], ls[m].tid, ls[m].act).calls
    ensures OnRecord(ss[m], ls[m].tid, c.id) && c.types == ss[m].recs[c.id].tokenTypes
  {
    assert Enabled(ss[m], ls[m]);
    TokenStep(ss[m], ls[m].tid, ls[m].act, c);
  }
}

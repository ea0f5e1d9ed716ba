/**
 The factory itself: the record and the factory as objects that are updated in place, one method for
 each step of the protocol. `st` is the protocol's state; every method shows that what it does to the
 real fields is the protocol's step.
 */
module Factory {
  import opened Gauges
  import opened Wrappers
  import opened Records
  import opened Protocol
  import opened Coherence
  import opened Provenance
  import TemplateIndex

  const NO_TEMPLATE := "failed to get template for application: "

  datatype Reply = Reply(podName: string, resultCode: int, tokenData: Strings,
                         podIPs: seq<string>, error: Option<string>)

  class OnDemandPod {
    var username: string
    var application: string
    var requestData: Strings
    var tokenTypes: seq<string>
    var profile: string
    var podName: string
    var tokenData: Strings
    var tokenName: string
    var resultCode: int
    var podIPs: seq<string>
    var error: Option<string>
    var errorTime: Option<int>
    // The record's place among all records ever made.
    ghost const id: nat

    ghost function Value(): Odp
      reads this
    {
      Odp(username, application, requestData, tokenTypes, profile, podName, tokenData, tokenName,
          resultCode, podIPs, error, errorTime)
    }

    // factory.go:260-269
    constructor FromRequest(podName: string, p: Param, ghost id: nat)
      ensures Value() == Requested(podName, p) && this.id == id
    {
      this.username, this.application, this.podName := p.username, p.application, podName;
      this.tokenTypes, this.profile, this.requestData := p.tokenTypes, p.profile, p.requestData;
      this.resultCode := CREATING;
      this.tokenData, this.tokenName, this.podIPs, this.error, this.errorTime := map[], "", [], None, None;
      this.id := id;
    }

    // factory_podevents.go:54-57
    constructor FromEvent(podName: string, ghost id: nat)
      ensures Value() == Rediscovered(podName) && this.id == id
    {
      this.podName, this.resultCode := podName, CREATING;
      this.username, this.application, this.requestData, this.tokenTypes, this.profile := "", "", map[], [], "";
      this.tokenData, this.tokenName, this.podIPs, this.error, this.errorTime := map[], "", [], None, None;
      this.id := id;
    }

    // helpers.go:27-33
    method SetOdpError(now: int, message: string, code: int)
      modifies this
      ensures Value() == SetError(old(Value()), now, message, code)
    {
      errorTime := Some(now);
      error := Some(message);
      resultCode := code;
    }

    // helpers.go:35-49
    method IsOdpErrorExpired(now: int, errorTTL: int) returns (result: bool)
      ensures result == ErrorExpired(Value(), now, errorTTL)
      ensures result <==> errorTime.Some? && now > errorTime.value + errorTTL * 1_000_000_000
    {
      result := false;
      if errorTime.Some? {
        var sinceErrorSet := now - errorTime.value;
        if sinceErrorSet > errorTTL * SECOND {
          result := true;
        }
      }
    }

    // factory.go:463-473: the annotations come in any order.
    method ReloadFields(annotations: Strings)
      modifies this
      ensures Value() == Restored(old(Value()), annotations)
    {
      var rest := annotations.Keys;
      while rest != {}
        invariant rest <= annotations.Keys
        invariant Value() == Restored(old(Value()), annotations - rest)
        decreases |rest|
      {
        var name :| name in rest;
        var value := annotations[name];
        if name == ANN_USER_NAME {
          username := value;
        } else if name == ANN_APPLICATION {
          application := value;
        } else if name == ANN_TOKEN {
          tokenName := value;
        }
        rest := rest - {name};
      }
      assert annotations - rest == annotations;
    }
  }

  class OdpFactory {
    const errorTTL: int
    const odpPrefix: string
    // MD5 as hexadecimal text: nothing is assumed about it.
    const hash: string -> string

    var now: int
    var odps: map<string, OnDemandPod>
    var createChannel: seq<string>
    var deletedPods: map<string, int>
    var templatesByName: map<string, Template>
    var templatesByApplication: map<string, Template>

    ghost var all: seq<OnDemandPod>
    ghost var st: State

    /** The objects made so far have these values. */
    ghost predicate RecordsAre(recs: seq<Odp>)
      reads this`all, all
    {
      && |all| == |recs|
      && (forall i | 0 <= i < |all| :: all[i].id == i && all[i].Value() == recs[i])
    }

    /** The fields of the factory hold the tables of this state. */
    ghost predicate TablesAre(s: State)
      reads this, all
    {
      && |all| == |s.recs|
      && odps.Keys == s.odps.Keys
      && (forall n | n in odps :: s.odps[n] < |all| && odps[n] == all[s.odps[n]])
      && createChannel == s.channel
      && deletedPods == s.deletedPods
      && templatesByName == s.index.byName && templatesByApplication == s.index.byApplication
      && now == s.now && errorTTL == s.errorTTL
    }

    ghost predicate Valid()
      reads this, all
    {
      WF(st) && RecordsAre(st.recs) && TablesAre(st)
    }

    /** The fields hold this state already. */
    ghost method Become(next: State)
      requires WF(next) && RecordsAre(next.recs) && TablesAre(next)
      modifies this`st
      ensures Valid() && st == next
    {
      st := next;
    }

    /** A thread took a step on its record, and the fields have changed accordingly. */
    ghost method Commit(tid: nat, act: Act, odp: OnDemandPod)
      requires WF(st) && Enabled(st, Work(tid, act)) && RecordOf(st.threads[tid]) == odp.id
      requires odp.id < |st.recs| && RecordsAre(st.recs[odp.id := odp.Value()])
      requires var e := EffectOf(st, tid, act);
               && e.rec == odp.Value()
               && TablesAre(st.(odps := if e.drops then st.odps - {e.pc.name} else st.odps,
                                deletedPods := if e.stamps then st.deletedPods[e.pc.pod.uid := now]
                                               else st.deletedPods))
      modifies this`st
      ensures Valid() && st == Next(old(st), Work(tid, act))
    {
      Become(Next(st, Work(tid, act)));
    }

    /** The record is one of the factory's. */
    ghost predicate Mine(odp: OnDemandPod)
      reads this
    {
      odp.id < |all| && all[odp.id] == odp
    }

    constructor (errorTTL: int, odpPrefix: string, hash: string -> string, now: int)
      ensures Valid() && st == Init(errorTTL, now) && fresh(all)
    {
      this.errorTTL, this.odpPrefix, this.hash, this.now := errorTTL, odpPrefix, hash, now;
      odps, createChannel, deletedPods, templatesByName, templatesByApplication := map[], [], map[], map[], map[];
      all, st := [], Init(errorTTL, now);
    }

    // helpers.go:17-25
    function PodName(username: string, application: string, instanceID: string): string {
      odpPrefix + "-" + application + "-" + hash(username + instanceID)
    }

    // factory.go:249-273
    method GetOnDemandPod(ghost tid: nat, p: Param) returns (odp: OnDemandPod, createRequired: bool)
      requires Valid() && tid !in st.threads
      modifies this`odps, this`all, this`st
      ensures Valid() && st == Next(old(st), Request(tid, PodName(p.username, p.application, p.instanceID), p))
      ensures Mine(odp) && st.threads[tid] == Asking(odp.id, createRequired, ToCheck)
      ensures old(all) <= all && (all == old(all) || (all == old(all) + [odp] && fresh(odp)))
    {
      var podName := PodName(p.username, p.application, p.instanceID);
      if podName in odps {
        odp := odps[podName];
        createRequired := odp.IsOdpErrorExpired(now, errorTTL);
        if !createRequired {
          HandOut(tid, podName, odp, p);
          return;
        }
      }
      createRequired := true;
      odp := MakeOdp(tid, podName, p);
    }

    /** The caller gets the record there is. */
    ghost method HandOut(tid: nat, podName: string, odp: OnDemandPod, p: Param)
      requires Valid() && tid !in st.threads && Usable(st, podName) && odps[podName] == odp
      modifies this`st
      ensures Valid() && st == NextRequest(old(st), tid, podName, p)
      ensures st.threads[tid] == Asking(odp.id, false, ToCheck)
    {
      Become(Goto(st, tid, Asking(odp.id, false, ToCheck)));
    }

    // factory.go:259-272
    method MakeOdp(ghost tid: nat, podName: string, p: Param) returns (odp: OnDemandPod)
      requires Valid() && tid !in st.threads && !Usable(st, podName)
      modifies this`odps, this`all, this`st
      ensures Valid() && st == NextRequest(old(st), tid, podName, p)
      ensures odp.id == |old(st).recs| && all == old(all) + [odp] && fresh(odp)
    {
      UnusableIsReplaced(st, tid, podName, p);
      odp := new OnDemandPod.FromRequest(podName, p, |all|);
      Adopt(podName, odp, ByRequest(tid));
      Become(Goto(st, tid, Asking(odp.id, true, ToCheck)));
    }

    /** A new record is filed under its name: `f.odps[podName] = odp`. */
    method Adopt(podName: string, odp: OnDemandPod, ghost origin: Origin)
      requires Valid() && odp.id == |all| && odp.podName == podName
      modifies this`odps, this`all, this`st
      ensures Valid() && st == Insert(old(st), odp.Value(), origin) && all == old(all) + [odp]
    {
      odps := odps[podName := odp];
      all := all + [odp];
      Become(Insert(st, odp.Value(), origin));
    }

    // factory.go:276-289
    method CheckError(ghost tid: nat, odp: OnDemandPod, createRequired: bool) returns (send: bool)
      requires Valid() && Mine(odp) && tid in st.threads && st.threads[tid] == Asking(odp.id, createRequired, ToCheck)
      modifies this`st
      ensures Valid() && st == Next(old(st), Work(tid, Check))
      ensures send <==> st.threads[tid].ask == ToSend
    {
      send := createRequired && odp.errorTime.None?;
      Become(Next(st, Work(tid, Check)));
    }

    // factory.go:283, when the channel has room
    method SendName(ghost tid: nat, odp: OnDemandPod)
      requires Valid() && Mine(odp) && AskingAt(st, tid, ToSend) && st.threads[tid].id == odp.id
      requires |createChannel| < CREATE_QUEUE_SIZE
      modifies this`createChannel, this`st
      ensures Valid() && st == Next(old(st), Send(tid))
    {
      createChannel := createChannel + [odp.podName];
      Become(Next(st, Send(tid)));
    }

    // factory.go:513
    method ReceiveName(ghost tid: nat) returns (odpName: string)
      requires Valid() && createChannel != [] && tid !in st.threads
      modifies this`createChannel, this`st
      ensures Valid() && st == Next(old(st), Receive(tid))
      ensures st.threads[tid].name == odpName
    {
      odpName := createChannel[0];
      createChannel := createChannel[1..];
      Become(Next(st, Receive(tid)));
    }

    // factory.go:514-522
    method FindOdp(ghost tid: nat, odpName: string) returns (odp: Option<OnDemandPod>)
      requires Valid() && Enabled(st, Find(tid)) && st.threads[tid].name == odpName
      modifies this`st
      ensures Valid() && st == Next(old(st), Find(tid))
      ensures odp.Some? <==> st.threads[tid].Creating?
      ensures odp.Some? ==> Mine(odp.value) && st.threads[tid].run.id == odp.value.id
    {
      odp := if odpName in odps then Some(odps[odpName]) else None;
      Become(Next(st, Find(tid)));
    }

    /** The create run of thread `tid` works on this record and is at this stage. */
    ghost predicate Runs(tid: nat, odp: OnDemandPod, stage: CreateStage)
      reads this
    {
      Mine(odp) && tid in st.threads && st.threads[tid].Creating? && st.threads[tid].run.id == odp.id &&
      st.threads[tid].stage == stage
    }

    // factory.go:304-309
    method FindOdpTemplate(ghost tid: nat, odp: OnDemandPod) returns (odpTemplate: Option<Template>)
      requires Valid() && Runs(tid, odp, AtTemplate)
      modifies this`st, odp
      ensures Valid() && st == Next(old(st), Work(tid, FindTemplate(NO_TEMPLATE + old(odp.application))))
      ensures st.threads[tid].run.template == odpTemplate
      ensures odpTemplate == TemplateFor(old(odp.application), templatesByApplication)
      ensures odp.tokenTypes == old(odp.tokenTypes)
    {
      ghost var act := FindTemplate(NO_TEMPLATE + odp.application);
      if odp.application in templatesByApplication {
        odpTemplate := Some(templatesByApplication[odp.application]);
      } else {
        odpTemplate := None;
        odp.SetOdpError(now, NO_TEMPLATE + odp.application, TEMPLATE_ERROR);
      }
      Commit(tid, act, odp);
    }

    // factory.go:387-415
    method IsAccessAllowed(odpTemplate: Template, userInfo: UserInfo) returns (allowed: bool)
      ensures allowed <==> AccessAllowed(odpTemplate, userInfo)
      ensures !allowed <==> NoCommonGroup(odpTemplate, userInfo)
    {
      AccessIsACommonGroup(odpTemplate, userInfo);
      for i := 0 to |odpTemplate.accessGroups|
        invariant forall g | g in odpTemplate.accessGroups[..i] :: g !in userInfo.memberOf
      {
        for j := 0 to |userInfo.memberOf|
          invariant odpTemplate.accessGroups[i] !in userInfo.memberOf[..j]
        {
          if userInfo.memberOf[j] == odpTemplate.accessGroups[i] {
            ghost var group := userInfo.memberOf[j];
            assert group in odpTemplate.accessGroups && group in userInfo.memberOf;
            return true;
          }
        }
      }
      return false;
    }

    // factory.go:322-326
    method CheckAccess(odp: OnDemandPod, odpTemplate: Template, userInfo: UserInfo) returns (allowed: bool)
      modifies odp
      ensures allowed <==> AccessAllowed(odpTemplate, userInfo)
      ensures odp.Value() == if allowed then old(odp.Value())
                             else SetError(old(odp.Value()), now, NOT_AUTHORISED, NOT_AUTHORISED_ERROR)
    {
      allowed := IsAccessAllowed(odpTemplate, userInfo);
      if !allowed {
        odp.SetOdpError(now, NOT_AUTHORISED, NOT_AUTHORISED_ERROR);
      }
    }

    // factory.go:311-331; `user` and `message` are the outcome of the LDAP lookup
    method LookupUser(ghost tid: nat, odp: OnDemandPod, odpTemplate: Template, user: Option<UserInfo>, message: string)
        returns (wantsToken: bool, ok: bool)
      requires Valid() && Runs(tid, odp, AtLookup) && st.threads[tid].run.template == Some(odpTemplate)
      modifies this`st, odp
      ensures Valid() && st == Next(old(st), Work(tid, Lookup(user, message)))
      ensures ok <==> Runs(tid, odp, AtToken) || Runs(tid, odp, AtRender)
      ensures ok ==> (wantsToken <==> Runs(tid, odp, AtToken))
    {
      ghost var e := LookupEffect(tid, st.threads[tid].run, st.recs[odp.id], now, user, message);
      wantsToken := |odp.tokenTypes| > 0;
      ok := false;
      if user.None? {
        odp.SetOdpError(now, message, LDAP_ERROR);
      } else {
        ok := CheckAccess(odp, odpTemplate, user.value);
      }
      assert odp.Value() == e.rec;
      Commit(tid, Lookup(user, message), odp);
      assert st.threads[tid] == e.pc;
    }

    // factory_token.go:11-25; `token` and `message` are the token service's answer
    method CreateOdpToken(ghost tid: nat, odp: OnDemandPod, token: Option<Token>, message: string) returns (ok: bool)
      requires Valid() && Runs(tid, odp, AtToken)
      modifies this`st, odp
      ensures Valid() && st == Next(old(st), Work(tid, CreateToken(token, message)))
      ensures ok <==> Runs(tid, odp, AtRender)
    {
      ok := token.Some?;
      if ok {
        odp.tokenName := token.value.name;
        odp.tokenData := token.value.data;
      } else {
        odp.SetOdpError(now, message, TOKEN_ERROR);
      }
      Commit(tid, CreateToken(token, message), odp);
    }

    // factory.go:417-461; `spec` and `message` are what executing and decoding the template with `data` gave
    method GetPodSpec(ghost tid: nat, odpTemplate: Template, odp: OnDemandPod, userInfo: UserInfo,
                      spec: Option<PodSpec>, message: string)
        returns (data: TemplateData, ok: bool)
      requires Valid() && Runs(tid, odp, AtRender)
      requires st.threads[tid].run.template == Some(odpTemplate) && st.threads[tid].run.user == Some(userInfo)
      modifies this`st, odp
      ensures Valid() && st == Next(old(st), Work(tid, Render(spec, message)))
      ensures st.log == old(st).log + [RenderCall(tid, odp.id, odpTemplate, data, spec)]
      ensures ok <==> Runs(tid, odp, AtPod)
      ensures ok ==> st.threads[tid].run.spec == spec
    {
      data := TemplateData(odp.application, odp.username, odp.tokenName, odp.tokenData, odpTemplate.data,
                           odp.requestData, userInfo.userAttr, userInfo.groups, odp.podName, odp.profile);
      ok := spec.Some?;
      if !ok {
        odp.SetOdpError(now, message, TEMPLATE_ERROR);
      }
      Commit(tid, Render(spec, message), odp);
    }

    // factory.go:348-370
    method BuildPod(odp: OnDemandPod, spec: PodSpec) returns (pod: NewPod)
      ensures pod == Decorate(spec, odp.Value())
    {
      var labels := spec.labels;
      labels := labels[LBL_POD := "true"];
      var annotations := spec.annotations;
      annotations := annotations[ANN_USER_NAME := odp.username];
      annotations := annotations[ANN_APPLICATION := odp.application];
      if odp.tokenName != "" {
        annotations := annotations[ANN_TOKEN := odp.tokenName];
      }
      pod := NewPod(odp.podName, labels, annotations, spec.body);
    }

    // factory.go:348-379; `ok` and `message` are the Kubernetes answer
    method CreateTheOdp(ghost tid: nat, odp: OnDemandPod, spec: PodSpec, ok: bool, message: string)
        returns (pod: NewPod)
      requires Valid() && Runs(tid, odp, AtPod) && st.threads[tid].run.spec == Some(spec)
      modifies this`st, odp
      ensures Valid() && st == Next(old(st), Work(tid, CreatePod(ok, message)))
      ensures st.threads[tid].run.pod == Some(pod)
    {
      pod := BuildPod(odp, spec);
      if !ok {
        odp.SetOdpError(now, message, K8S_ERROR);
      }
      Commit(tid, CreatePod(ok, message), odp);
    }

    // factory.go:380, factory_token.go:27-32: the name whose deletion is asked for
    method DeleteOdpToken(ghost tid: nat, odp: OnDemandPod) returns (deleted: string)
      requires Valid() && Runs(tid, odp, AtCleanup)
      modifies this`st
      ensures Valid() && st == Next(old(st), Work(tid, Cleanup))
      ensures st.threads[tid].run.released == Some(deleted)
    {
      deleted := odp.tokenName;
      Become(Next(st, Work(tid, Cleanup)));
    }

    // factory_podevents.go:23-35: the Pod is gone
    method HandlePodGone(ghost tid: nat, podName: string)
      requires Valid() && tid !in st.threads
      modifies this`odps, this`st
      ensures Valid() && st == Next(old(st), PodEvent(tid, podName, None))
    {
      var expired := HasExpired(podName);
      if expired {
        DropExpired(tid, podName);
      } else {
        KeepAll(tid, podName);
      }
    }

    // factory_podevents.go:30 and 101
    method Delete(podName: string)
      requires Valid()
      modifies this`odps
      ensures RecordsAre(st.recs) && TablesAre(st.(odps := st.odps - {podName}))
    {
      odps := odps - {podName};
    }

    /** The Pod is gone and nothing is dropped for it. */
    ghost method KeepAll(tid: nat, podName: string)
      requires Valid() && tid !in st.threads && (podName in odps ==> Usable(st, podName))
      modifies this`st
      ensures Valid() && st == NextPodEvent(old(st), tid, podName, None)
    {
      OthersAreKept(st, tid, podName);
      Become(st.(threads := st.threads[tid := Removed(podName)]));
    }

    method HasExpired(podName: string) returns (expired: bool)
      requires Valid()
      ensures expired <==> podName in odps && !Usable(st, podName)
    {
      expired := false;
      if podName in odps {
        expired := odps[podName].IsOdpErrorExpired(now, errorTTL);
      }
    }

    // factory_podevents.go:29-31
    method DropExpired(ghost tid: nat, podName: string)
      requires Valid() && tid !in st.threads && podName in odps && !Usable(st, podName)
      modifies this`odps, this`st
      ensures Valid() && st == NextPodEvent(old(st), tid, podName, None)
    {
      ExpiredIsDropped(st, tid, podName);
      ghost var dropped := st.(odps := st.odps - {podName}, threads := st.threads[tid := Removed(podName)]);
      Delete(podName);
      Become(dropped);
    }

    // factory_podevents.go:37-62: the Pod is there; None if its event is dropped
    method HandlePodEvent(ghost tid: nat, podName: string, pod: Pod) returns (odp: Option<OnDemandPod>, isNew: bool)
      requires Valid() && tid !in st.threads
      modifies this`odps, this`all, this`st
      ensures Valid() && st == Next(old(st), PodEvent(tid, podName, Some(pod)))
      ensures if isNew then odp.Some? && fresh(odp.value) && all == old(all) + [odp.value] else all == old(all)
      ensures odp.Some? ==> Handles(tid, odp.value, if isNew then ToReload else ToDispatch)
      ensures odp.None? ==> tid in st.threads && st.threads[tid].Ignored?
      ensures if podName in old(odps) then !isNew && odp == Some(old(odps)[podName])
              else if pod.uid in deletedPods then !isNew && odp.None?
              else isNew && odp.value.Value() == Rediscovered(podName)
    {
      isNew := false;
      if podName in odps {
        odp := Some(odps[podName]);
        Join(tid, podName, pod, odps[podName]);
      } else if pod.uid in deletedPods {
        odp := None;
        Ignore(tid, podName, pod);
      } else {
        var made := RediscoverOdp(tid, podName, pod);
        odp, isNew := Some(made), true;
      }
    }

    /** The handler of an event works on the record there is. */
    ghost method Join(tid: nat, podName: string, pod: Pod, odp: OnDemandPod)
      requires Valid() && tid !in st.threads && podName in odps && odps[podName] == odp
      modifies this`st
      ensures Valid() && st == NextPodEvent(old(st), tid, podName, Some(pod)) && Handles(tid, odp, ToDispatch)
    {
      KnownIsHandled(st, tid, podName, pod);
      Become(st.(threads := st.threads[tid := Handling(odp.id, podName, pod, ToDispatch)]));
    }

    /** The event of a Pod that was just deleted is dropped. */
    ghost method Ignore(tid: nat, podName: string, pod: Pod)
      requires Valid() && tid !in st.threads && podName !in odps && pod.uid in deletedPods
      modifies this`st
      ensures Valid() && st == NextPodEvent(old(st), tid, podName, Some(pod))
      ensures tid in st.threads && st.threads[tid].Ignored?
    {
      BuriedIsIgnored(st, tid, podName, pod);
      Become(st.(threads := st.threads[tid := Ignored(podName, pod.uid)]));
    }

    // factory_podevents.go:53-58
    method RediscoverOdp(ghost tid: nat, podName: string, pod: Pod) returns (odp: OnDemandPod)
      requires Valid() && tid !in st.threads && podName !in odps && pod.uid !in deletedPods
      modifies this`odps, this`all, this`st
      ensures Valid() && st == NextPodEvent(old(st), tid, podName, Some(pod))
      ensures all == old(all) + [odp] && fresh(odp) && Handles(tid, odp, ToReload)
      ensures odp.Value() == Rediscovered(podName)
    {
      UnknownIsRediscovered(st, tid, podName, pod);
      odp := new OnDemandPod.FromEvent(podName, |all|);
      Adopt(podName, odp, ByEvent(tid));
      Become(Goto(st, tid, Handling(odp.id, podName, pod, ToReload)));
    }

    /** The event handler of thread `tid` works on this record and is at this stage. */
    ghost predicate Handles(tid: nat, odp: OnDemandPod, at: HandleStage)
      reads this
    {
      Mine(odp) && tid in st.threads && st.threads[tid].Handling? &&
      st.threads[tid].id == odp.id && st.threads[tid].at == at
    }

    // factory.go:463-475
    method ReloadOdp(ghost tid: nat, odp: OnDemandPod, pod: Pod) returns (readToken: bool)
      requires Valid() && Handles(tid, odp, ToReload) && st.threads[tid].pod == pod
      modifies this`st, odp
      ensures Valid() && st == Next(old(st), Work(tid, Reload))
      ensures odp.Value() == Restored(old(odp.Value()), pod.annotations) && (readToken <==> odp.tokenName != "")
      ensures Handles(tid, odp, if readToken then ToReadToken else ToDispatch)
    {
      odp.ReloadFields(pod.annotations);
      readToken := odp.tokenName != "";
      Commit(tid, Reload, odp);
    }

    // factory_token.go:34-42; `token` is the token service's answer
    method ReadOdpToken(ghost tid: nat, odp: OnDemandPod, token: Option<Token>)
      requires Valid() && Handles(tid, odp, ToReadToken)
      modifies this`st, odp
      ensures Valid() && st == Next(old(st), Work(tid, ReadToken(token))) && odp.tokenName == old(odp.tokenName)
    {
      if token.Some? {
        odp.tokenData := token.value.data;
      }
      Commit(tid, ReadToken(token), odp);
    }

    // factory_podevents.go:84-102: up to the end of the critical section
    method HandlePodFinished(ghost tid: nat, podName: string, odp: OnDemandPod, pod: Pod)
      requires Valid() && Handles(tid, odp, ToDispatch) && st.threads[tid].pod == pod && st.threads[tid].name == podName
      requires Finished(pod)
      modifies this`odps, this`st, odp
      ensures Valid() && st == Next(old(st), Work(tid, Dispatch)) && odp.tokenName == old(odp.tokenName)
    {
      if pod.phase.Failed? {
        odp.SetOdpError(now, pod.failureReason, K8S_ERROR);
        Commit(tid, Dispatch, odp);
      } else {
        DropOdp(tid, podName, odp, pod);
      }
    }

    // factory_podevents.go:100-102
    method DropOdp(ghost tid: nat, podName: string, odp: OnDemandPod, pod: Pod)
      requires Valid() && Handles(tid, odp, ToDispatch) && st.threads[tid].pod == pod && st.threads[tid].name == podName
      requires pod.phase.Succeeded?
      modifies this`odps, this`st
      ensures Valid() && st == Next(old(st), Work(tid, Dispatch))
    {
      SuccessDrops(st, tid);
      Delete(podName);
      Commit(tid, Dispatch, odp);
    }

    // factory_podevents.go:123-130
    method HandlePodUpdate(ghost tid: nat, odp: OnDemandPod, pod: Pod)
      requires Valid() && Handles(tid, odp, ToDispatch) && st.threads[tid].pod == pod && !Finished(pod)
      modifies this`st, odp
      ensures Valid() && st == Next(old(st), Work(tid, Dispatch)) && odp.tokenName == old(odp.tokenName)
    {
      if pod.phase.Running? {
        odp.resultCode := READY;
        odp.podIPs := pod.ips;
      }
      Commit(tid, Dispatch, odp);
    }

    // factory_podevents.go:66-78
    method HandlePhase(ghost tid: nat, podName: string, odp: OnDemandPod, pod: Pod)
      requires Valid() && Handles(tid, odp, ToDispatch) && st.threads[tid].pod == pod && st.threads[tid].name == podName
      modifies this`odps, this`st, odp
      ensures Valid() && st == Next(old(st), Work(tid, Dispatch)) && odp.tokenName == old(odp.tokenName)
    {
      if pod.phase.Failed? || pod.phase.Succeeded? {
        HandlePodFinished(tid, podName, odp, pod);
      } else {
        HandlePodUpdate(tid, odp, pod);
      }
    }

    // factory_podevents.go:104-106
    method StampDeleted(ghost tid: nat, odp: OnDemandPod, pod: Pod)
      requires Valid() && Handles(tid, odp, ToStamp) && st.threads[tid].pod == pod
      modifies this`deletedPods, this`st
      ensures Valid() && st == Next(old(st), Work(tid, Stamp))
    {
      deletedPods := deletedPods[pod.uid := now];
      Commit(tid, Stamp, odp);
    }

    // factory_podevents.go:111-112
    method ReleaseToken(ghost tid: nat, odp: OnDemandPod) returns (deleted: Option<string>)
      requires Valid() && Handles(tid, odp, ToRelease)
      modifies this`st
      ensures Valid() && st == Next(old(st), Work(tid, Release))
      ensures deleted == if odp.tokenName != "" then Some(odp.tokenName) else None
      ensures st.log == old(st).log + if deleted.Some? then [DeleteTokenCall(tid, odp.id, deleted.value)] else []
    {
      deleted := if odp.tokenName != "" then Some(odp.tokenName) else None;
      Become(Next(st, Work(tid, Release)));
    }

    // factory_podevents.go:113
    method ClearToken(ghost tid: nat, odp: OnDemandPod)
      requires Valid() && Handles(tid, odp, ToClear)
      modifies this`st, odp
      ensures Valid() && st == Next(old(st), Work(tid, Clear))
    {
      odp.tokenName := "";
      Commit(tid, Clear, odp);
    }

    // factory_podevents.go:116: the name of the Pod whose deletion is asked for
    method DeletePodOf(ghost tid: nat, odp: OnDemandPod, podName: string) returns (deleted: string)
      requires Valid() && Handles(tid, odp, ToDelete) && st.threads[tid].name == podName
      modifies this`st
      ensures Valid() && st == Next(old(st), Work(tid, DeletePod))
      ensures st.log == old(st).log + [DeletePodCall(tid, odp.id, deleted)]
    {
      deleted := podName;
      Become(Next(st, Work(tid, DeletePod)));
    }

    method AdvanceClock(time: int)
      requires Valid() && now <= time
      modifies this`now, this`st
      ensures Valid() && st == Next(old(st), Tick(time))
    {
      now := time;
      Become(Next(st, Tick(time)));
    }

    // ---- Whole calls, by one thread that nothing else interleaves with ----

    // factory.go:304-381
    method CreateOnDemandPod(ghost tid: nat, odp: OnDemandPod, answers: Answers) returns (ghost acts: seq<Act>)
      requires Valid() && Runs(tid, odp, AtTemplate)
      modifies this`st, odp
      ensures Valid() && After(old(st), tid, acts) == Some(st)
      ensures acts == CreateActs(TemplateFor(old(odp.application), templatesByApplication), old(odp.application),
                                 old(odp.tokenTypes), answers)
      ensures tid in st.threads && st.threads[tid].Creating? && st.threads[tid].stage.Ended?
    {
      ghost var s, find := st, FindTemplate(NO_TEMPLATE + odp.application);
      var odpTemplate := FindOdpTemplate(tid, odp);
      TemplateStage(s, tid, find.message);
      AfterMore(s, tid, [], s, find);
      acts := [find];
      if odpTemplate.Some? {
        ghost var more := AdmitAndCreate(tid, odp, odpTemplate.value, answers);
        AfterAll(s, tid, acts, more);
        acts := acts + more;
      }
    }

    // factory.go:311-381
    method AdmitAndCreate(ghost tid: nat, odp: OnDemandPod, odpTemplate: Template, answers: Answers)
        returns (ghost acts: seq<Act>)
      requires Valid() && Runs(tid, odp, AtLookup) && st.threads[tid].run.template == Some(odpTemplate)
      modifies this`st, odp
      ensures Valid() && After(old(st), tid, acts) == Some(st)
      ensures acts == LookupActs(odpTemplate, old(odp.tokenTypes), answers)
      ensures tid in st.threads && st.threads[tid].Creating? && st.threads[tid].stage.Ended?
    {
      ghost var s, lookup := st, Lookup(answers.user, answers.userMessage);
      var wantsToken, ok := LookupUser(tid, odp, odpTemplate, answers.user, answers.userMessage);
      LookupStage(s, tid, answers.user, answers.userMessage);
      AfterMore(s, tid, [], s, lookup);
      acts := [lookup];
      if ok {
        ghost var more := ObtainAndCreate(tid, odp, odpTemplate, answers.user.value, wantsToken, answers);
        AfterAll(s, tid, acts, more);
        acts := acts + more;
      }
    }

    // factory.go:329-381
    method ObtainAndCreate(ghost tid: nat, odp: OnDemandPod, odpTemplate: Template, userInfo: UserInfo,
                           wantsToken: bool, answers: Answers)
        returns (ghost acts: seq<Act>)
      requires Valid() && Runs(tid, odp, if wantsToken then AtToken else AtRender)
      requires st.threads[tid].run.template == Some(odpTemplate) && st.threads[tid].run.user == Some(userInfo)
      modifies this`st, odp
      ensures Valid() && After(old(st), tid, acts) == Some(st)
      ensures acts == TokenActs(wantsToken, answers)
      ensures tid in st.threads && st.threads[tid].Creating? && st.threads[tid].stage.Ended?
    {
      ghost var s := st;
      acts := [];
      var ok := true;
      if wantsToken {
        ghost var create := CreateToken(answers.token, answers.tokenMessage);
        ok := CreateOdpToken(tid, odp, answers.token, answers.tokenMessage);
        TokenStage(s, tid, answers.token, answers.tokenMessage);
        AfterMore(s, tid, acts, s, create);
        acts := [create];
      }
      if ok {
        ghost var more := RenderAndCreate(tid, odp, odpTemplate, userInfo, answers);
        AfterAll(s, tid, acts, more);
        acts := acts + more;
      }
    }

    // factory.go:341-381
    method RenderAndCreate(ghost tid: nat, odp: OnDemandPod, odpTemplate: Template, userInfo: UserInfo,
                           answers: Answers)
        returns (ghost acts: seq<Act>)
      requires Valid() && Runs(tid, odp, AtRender)
      requires st.threads[tid].run.template == Some(odpTemplate) && st.threads[tid].run.user == Some(userInfo)
      modifies this`st, odp
      ensures Valid() && After(old(st), tid, acts) == Some(st)
      ensures acts == RenderActs(answers)
      ensures tid in st.threads && st.threads[tid].Creating? && st.threads[tid].stage.Ended?
    {
      ghost var s, render := st, Render(answers.spec, answers.specMessage);
      var _, ok := GetPodSpec(tid, odpTemplate, odp, userInfo, answers.spec, answers.specMessage);
      RenderStage(s, tid, answers.spec, answers.specMessage);
      AfterMore(s, tid, [], s, render);
      acts := [render];
      if ok {
        ghost var more := CreateAndCleanUp(tid, odp, answers.spec.value, answers);
        AfterAll(s, tid, acts, more);
        acts := acts + more;
      }
    }

    // factory.go:348-381
    method CreateAndCleanUp(ghost tid: nat, odp: OnDemandPod, spec: PodSpec, answers: Answers)
        returns (ghost acts: seq<Act>)
      requires Valid() && Runs(tid, odp, AtPod) && st.threads[tid].run.spec == Some(spec)
      modifies this`st, odp
      ensures Valid() && After(old(st), tid, acts) == Some(st)
      ensures acts == PodActs(answers)
      ensures tid in st.threads && st.threads[tid].Creating? && st.threads[tid].stage.Ended?
    {
      ghost var s, create := st, CreatePod(answers.created, answers.createMessage);
      var _ := CreateTheOdp(tid, odp, spec, answers.created, answers.createMessage);
      PodStage(s, tid, answers.created, answers.createMessage);
      AfterMore(s, tid, [], s, create);
      acts := [create];
      if !answers.created {
        ghost var s1 := st;
        var _ := DeleteOdpToken(tid, odp);
        CleanupStage(s1, tid);
        AfterMore(s, tid, acts, s1, Cleanup);
        acts := acts + [Cleanup];
      }
    }

    // factory_podevents.go:15-121; `token` is what GetToken answers, if it is asked
    method HandleEvent(ghost tid: nat, podName: string, obj: Option<Pod>, token: Option<Token>)
        returns (ghost acts: seq<Act>)
      requires Valid() && tid !in st.threads
      modifies this`odps, this`all, this`deletedPods, this`st, all
      ensures Valid() && After(Next(old(st), PodEvent(tid, podName, obj)), tid, acts) == Some(st)
      ensures acts == if obj.None? then []
                      else if podName in old(odps) then
                        EventActs(false, old(odps[podName].tokenName) != "", obj.value, token)
                      else if obj.value.uid in old(deletedPods) then []
                      else EventActs(true, FoundIn(obj.value) != "", obj.value, token)
      ensures tid in st.threads && Settles(st.threads[tid])
    {
      if obj.None? {
        EventStage(st, tid, podName, obj);
        HandlePodGone(tid, podName);
        acts := [];
      } else {
        acts := HandleShown(tid, podName, obj.value, token);
      }
    }

    // factory_podevents.go:37-121
    method HandleShown(ghost tid: nat, podName: string, pod: Pod, token: Option<Token>) returns (ghost acts: seq<Act>)
      requires Valid() && tid !in st.threads
      modifies this`odps, this`all, this`deletedPods, this`st, all
      ensures Valid() && After(Next(old(st), PodEvent(tid, podName, Some(pod))), tid, acts) == Some(st)
      ensures acts == if podName in old(odps) then EventActs(false, old(odps[podName].tokenName) != "", pod, token)
                      else if pod.uid in old(deletedPods) then []
                      else EventActs(true, FoundIn(pod) != "", pod, token)
      ensures tid in st.threads && Settles(st.threads[tid])
    {
      EventStage(st, tid, podName, Some(pod));
      var odp, isNew := HandlePodEvent(tid, podName, pod);
      acts := [];
      if isNew {
        assert NameToHandle(odp.value.Value(), true, pod) == FoundIn(pod);
        acts := FollowPod(tid, podName, odp.value, pod, true, token);
      } else if odp.Some? {
        acts := FollowPod(tid, podName, odp.value, pod, false, token);
      }
    }

    // factory_podevents.go:62-121
    method FollowPod(ghost tid: nat, podName: string, odp: OnDemandPod, pod: Pod, isNew: bool, token: Option<Token>)
        returns (ghost acts: seq<Act>)
      requires Valid() && Handles(tid, odp, if isNew then ToReload else ToDispatch)
      requires st.threads[tid].pod == pod && st.threads[tid].name == podName
      modifies this`odps, this`deletedPods, this`st, odp
      ensures Valid() && After(old(st), tid, acts) == Some(st)
      ensures acts == EventActs(isNew, NameToHandle(old(odp.Value()), isNew, pod) != "", pod, token)
      ensures Handles(tid, odp, Handled)
    {
      ghost var s := st;
      acts := [];
      if isNew {
        acts := RestoreOdp(tid, odp, pod, token);
      }
      ghost var s1 := st;
      HandlePhase(tid, podName, odp, pod);
      HandlingStage(s1, tid, Dispatch);
      AfterMore(s, tid, acts, s1, Dispatch);
      acts := acts + [Dispatch];
      if pod.phase.Failed? || pod.phase.Succeeded? {
        ghost var more := EndPod(tid, podName, odp, pod);
        AfterAll(s, tid, acts, more);
        acts := acts + more;
      }
    }

    // factory.go:463-480
    method RestoreOdp(ghost tid: nat, odp: OnDemandPod, pod: Pod, token: Option<Token>) returns (ghost acts: seq<Act>)
      requires Valid() && Handles(tid, odp, ToReload) && st.threads[tid].pod == pod
      modifies this`st, odp
      ensures Valid() && After(old(st), tid, acts) == Some(st)
      ensures odp.tokenName == Restored(old(odp.Value()), pod.annotations).tokenName
      ensures acts == ReloadActs(odp.tokenName != "", token)
      ensures Handles(tid, odp, ToDispatch) && st.threads[tid].pod == pod
      ensures st.threads[tid].name == old(st).threads[tid].name
    {
      ghost var s := st;
      var readToken := ReloadOdp(tid, odp, pod);
      HandlingStage(s, tid, Reload);
      AfterMore(s, tid, [], s, Reload);
      acts := [Reload];
      if readToken {
        ghost var more := ReadBack(tid, odp, token);
        AfterAll(s, tid, acts, more);
        acts := acts + more;
      }
    }

    // factory.go:475-479
    method ReadBack(ghost tid: nat, odp: OnDemandPod, token: Option<Token>) returns (ghost acts: seq<Act>)
      requires Valid() && Handles(tid, odp, ToReadToken)
      modifies this`st, odp
      ensures Valid() && After(old(st), tid, acts) == Some(st)
      ensures acts == [ReadToken(token)] && odp.tokenName == old(odp.tokenName)
      ensures Handles(tid, odp, ToDispatch) && st.threads[tid].pod == old(st).threads[tid].pod
      ensures st.threads[tid].name == old(st).threads[tid].name
    {
      ghost var s := st;
      ReadOdpToken(tid, odp, token);
      HandlingStage(s, tid, ReadToken(token));
      AfterMore(s, tid, [], s, ReadToken(token));
      acts := [ReadToken(token)];
    }

    // factory_podevents.go:103-121
    method EndPod(ghost tid: nat, podName: string, odp: OnDemandPod, pod: Pod) returns (ghost acts: seq<Act>)
      requires Valid() && Handles(tid, odp, if pod.phase.Succeeded? then ToStamp else ToRelease)
      requires st.threads[tid].pod == pod && st.threads[tid].name == podName
      modifies this`deletedPods, this`st, odp
      ensures Valid() && After(old(st), tid, acts) == Some(st)
      ensures acts == EndActs(old(odp.tokenName) != "", pod)
      ensures Handles(tid, odp, Handled)
    {
      ghost var s := st;
      acts := [];
      if pod.phase.Succeeded? {
        StampDeleted(tid, odp, pod);
        HandlingStage(s, tid, Stamp);
        AfterMore(s, tid, acts, s, Stamp);
        acts := [Stamp];
      }
      ghost var more := ReleaseAndDelete(tid, podName, odp);
      AfterAll(s, tid, acts, more);
      acts := acts + more;
    }

    // factory_podevents.go:111-121
    method ReleaseAndDelete(ghost tid: nat, podName: string, odp: OnDemandPod) returns (ghost acts: seq<Act>)
      requires Valid() && Handles(tid, odp, ToRelease) && st.threads[tid].name == podName
      modifies this`st, odp
      ensures Valid() && After(old(st), tid, acts) == Some(st)
      ensures acts == ReleaseActs(old(odp.tokenName) != "")
      ensures Handles(tid, odp, Handled)
    {
      ghost var s := st;
      acts := DropToken(tid, odp);
      ghost var s1 := st;
      var _ := DeletePodOf(tid, odp, podName);
      HandlingStage(s1, tid, DeletePod);
      AfterMore(s, tid, acts, s1, DeletePod);
      acts := acts + [DeletePod];
    }

    // factory_podevents.go:111-114
    method DropToken(ghost tid: nat, odp: OnDemandPod) returns (ghost acts: seq<Act>)
      requires Valid() && Handles(tid, odp, ToRelease)
      modifies this`st, odp
      ensures Valid() && After(old(st), tid, acts) == Some(st)
      ensures acts == [Release] + if old(odp.tokenName) != "" then [Clear] else []
      ensures Handles(tid, odp, ToDelete) && st.threads[tid].name == old(st).threads[tid].name
    {
      ghost var s := st;
      var deleted := AskRelease(tid, odp);
      acts := [Release];
      if deleted.Some? {
        ghost var more := ForgetToken(tid, odp);
        AfterAll(s, tid, acts, more);
        acts := acts + more;
      }
    }

    // factory_podevents.go:111-112
    method AskRelease(ghost tid: nat, odp: OnDemandPod) returns (deleted: Option<string>)
      requires Valid() && Handles(tid, odp, ToRelease)
      modifies this`st
      ensures Valid() && After(old(st), tid, [Release]) == Some(st)
      ensures deleted.Some? <==> odp.tokenName != ""
      ensures Handles(tid, odp, if deleted.Some? then ToClear else ToDelete)
      ensures st.threads[tid].name == old(st).threads[tid].name
    {
      ghost var s := st;
      deleted := ReleaseToken(tid, odp);
      ReleaseStage(s, tid, deleted);
      AfterMore(s, tid, [], s, Release);
    }

    // factory_podevents.go:113
    method ForgetToken(ghost tid: nat, odp: OnDemandPod) returns (ghost acts: seq<Act>)
      requires Valid() && Handles(tid, odp, ToClear)
      modifies this`st, odp
      ensures Valid() && After(old(st), tid, acts) == Some(st)
      ensures acts == [Clear]
      ensures Handles(tid, odp, ToDelete) && st.threads[tid].name == old(st).threads[tid].name
    {
      ghost var s := st;
      ClearToken(tid, odp);
      HandlingStage(s, tid, Clear);
      AfterMore(s, tid, [], s, Clear);
      acts := [Clear];
    }

    // internal/rest/rest.go:167-175: the error is read without a test for its presence
    method ReplyTo(odp: OnDemandPod) returns (reply: Reply)
      requires Valid() && Mine(odp) && Reachable(st)
      ensures reply == Reply(odp.podName, odp.resultCode, odp.tokenData, odp.podIPs, odp.error)
    {
      ReachableIsCoherent(st);
      assert CoherentRec(odp.Value(), now);
      reply := Reply(odp.podName, odp.resultCode, odp.tokenData, odp.podIPs, None);
      if odp.errorTime.Some? {
        reply := reply.(error := Some(odp.error.value));
      }
    }

    // factory.go:490-499: the entries come in any order
    method SweepDeletedPods()
      requires Valid()
      modifies this`deletedPods, this`st
      ensures Valid() && st == Next(old(st), Sweep)
    {
      var rest := deletedPods.Keys;
      while rest != {}
        invariant rest <= old(deletedPods).Keys && rest <= deletedPods.Keys
        invariant deletedPods == map u | u in old(deletedPods) &&
                                         (u in rest || !TombstoneExpired(old(deletedPods)[u], now)) ::
                                         old(deletedPods)[u]
        invariant st == old(st)
        decreases |rest|
      {
        var uid :| uid in rest;
        if now - deletedPods[uid] > DELETED_TTL * SECOND {
          deletedPods := deletedPods - {uid};
        }
        rest := rest - {uid};
      }
      Become(Next(st, Sweep));
    }

    // factory_templateevents.go:67-89
    method HandleConfigMapEvent(cmName: string, obj: Option<TemplateIndex.ConfigMap>, parses: TemplateIndex.Parser)
      requires Valid()
      modifies this`templatesByName, this`templatesByApplication, this`st
      ensures Valid() && st == Next(old(st), TemplateEvent(ConfigMapEvent(cmName, obj, parses)))
    {
      UpdateTemplates(cmName, obj, parses);
      Become(Next(st, TemplateEvent(ConfigMapEvent(cmName, obj, parses))));
    }

    // factory_templateevents.go:74-88
    method UpdateTemplates(cmName: string, obj: Option<TemplateIndex.ConfigMap>, parses: TemplateIndex.Parser)
      modifies this`templatesByName, this`templatesByApplication
      ensures TemplateIndex.Index(templatesByName, templatesByApplication) ==
              TemplateIndex.Apply(TemplateIndex.Index(old(templatesByName), old(templatesByApplication)),
                                  ConfigMapEvent(cmName, obj, parses))
      ensures obj.None? ==> templatesByName == old(templatesByName) - {cmName}
      ensures obj.Some? && !TemplateIndex.Loadable(obj.value, parses) ==>
                templatesByName == old(templatesByName) && templatesByApplication == old(templatesByApplication)
      ensures obj.Some? && TemplateIndex.Loadable(obj.value, parses) ==>
                && cmName in templatesByName && TemplateIndex.StandsFor(templatesByName[cmName], cmName, obj.value)
                && templatesByName == old(templatesByName)[cmName := templatesByName[cmName]]
                && var t := templatesByName[cmName];
                   templatesByApplication == old(templatesByApplication)[t.application := t]
    {
      if obj.None? {
        if cmName in templatesByName {
          var odpTemplate := templatesByName[cmName];
          templatesByApplication := templatesByApplication - {odpTemplate.application};
          templatesByName := templatesByName - {cmName};
        }
      } else {
        var odpTemplate := TemplateIndex.HandleConfigMapEventLoad(cmName, obj.value, parses);
        if odpTemplate.Some? {
          templatesByApplication := templatesByApplication[odpTemplate.value.application := odpTemplate.value];
          templatesByName := templatesByName[cmName := odpTemplate.value];
        }
      }
    }

    // metrics.go:221-235
    method GetOdpCounts(gauge: Gauge) returns (count: nat)
      requires Valid()
      ensures count == |Counted(st, gauge)|
    {
      count := CountMatching(odps, gauge);
      assert forall n | n in odps :: odps[n].Value() == st.recs[st.odps[n]];
      assert Matching(odps, gauge) == Counted(st, gauge);
    }
  }

  // ---- Names ----

  /** With a hash of fixed length that tells these two texts apart, two requests get one Pod name if and
      only if they are for the same application and their user and instance concatenate to one text. */
  lemma PodNamesAgree(f: OdpFactory, u: string, a: string, i: string, u': string, a': string, i': string)
    requires |f.hash(u + i)| == |f.hash(u' + i')|
    requires f.hash(u + i) == f.hash(u' + i') ==> u + i == u' + i'
    ensures f.PodName(u, a, i) == f.PodName(u', a', i') <==> a == a' && u + i == u' + i'
    ensures f.odpPrefix + "-" + a + "-" <= f.PodName(u, a, i)
  {
    var start := |f.odpPrefix| + 1;
    assert f.PodName(u, a, i)[start..start + |a|] == a && f.PodName(u', a', i')[start..start + |a'|] == a';
    assert f.PodName(u, a, i)[start + |a| + 1..] == f.hash(u + i);
    assert f.PodName(u', a', i')[start + |a'| + 1..] == f.hash(u' + i');
  }

  /** So the instance of one user can have the name of another user's Pod without an instance. */
  lemma InstanceTakesUsersName(f: OdpFactory, user: string, instance: string, application: string)
    ensures f.PodName(user, application, instance) == f.PodName(user + instance, application, "")
  {
    assert user + instance + "" == user + instance;
  }

  /** What the services answer to one create run. */
  datatype Answers = Answers(
    user: Option<UserInfo>, userMessage: string, token: Option<Token>, tokenMessage: string,
    spec: Option<PodSpec>, specMessage: string, created: bool, createMessage: string)

  function TemplateFor(application: string, byApplication: map<string, Template>): Option<Template> {
    if application in byApplication then Some(byApplication[application]) else None
  }

  // The acts of a create run: each carries the answer to its own question.

  function PodActs(a: Answers): seq<Act> {
    [CreatePod(a.created, a.createMessage)] + if a.created then [] else [Cleanup]
  }

  function RenderActs(a: Answers): seq<Act> {
    [Render(a.spec, a.specMessage)] + if a.spec.Some? then PodActs(a) else []
  }

  function TokenActs(wantsToken: bool, a: Answers): seq<Act> {
    if !wantsToken then RenderActs(a)
    else [CreateToken(a.token, a.tokenMessage)] + if a.token.Some? then RenderActs(a) else []
  }

  function LookupActs(t: Template, types: seq<string>, a: Answers): seq<Act> {
    [Lookup(a.user, a.userMessage)] +
    if a.user.Some? && AccessAllowed(t, a.user.value) then TokenActs(types != [], a) else []
  }

  function CreateActs(t: Option<Template>, application: string, types: seq<string>, a: Answers): seq<Act> {
    [FindTemplate(NO_TEMPLATE + application)] + if t.Some? then LookupActs(t.value, types, a) else []
  }

  // The acts of an event handler: `named` says whether the record names a token when it is handled.

  /** The token name in a Pod's annotations. */
  function FoundIn(pod: Pod): string {
    if ANN_TOKEN in pod.annotations then pod.annotations[ANN_TOKEN] else ""
  }

  function NameToHandle(rec: Odp, isNew: bool, pod: Pod): string {
    if isNew then Restored(rec, pod.annotations).tokenName else rec.tokenName
  }

  function ReloadActs(named: bool, token: Option<Token>): seq<Act> {
    [Reload] + if named then [ReadToken(token)] else []
  }

  function ReleaseActs(named: bool): seq<Act> {
    [Release] + (if named then [Clear] else []) + [DeletePod]
  }

  function EndActs(named: bool, pod: Pod): seq<Act> {
    (if pod.phase.Succeeded? then [Stamp] else []) + ReleaseActs(named)
  }

  function EventActs(isNew: bool, named: bool, pod: Pod, token: Option<Token>): seq<Act> {
    (if isNew then ReloadActs(named, token) else []) + [Dispatch] + if Finished(pod) then EndActs(named, pod) else []
  }

  /** The state after a thread has done these acts, if it can. */
  ghost function After(s: State, tid: nat, acts: seq<Act>): Option<State> {
    if acts == [] then Some(s)
    else
      var before, l := After(s, tid, acts[..|acts| - 1]), Work(tid, acts[|acts| - 1]);
      if before.Some? && WF(before.value) && Enabled(before.value, l) then Some(Next(before.value, l)) else None
  }

  lemma AfterMore(s0: State, tid: nat, acts: seq<Act>, s: State, act: Act)
    requires After(s0, tid, acts) == Some(s) && WF(s) && Enabled(s, Work(tid, act))
    ensures After(s0, tid, acts + [act]) == Some(Next(s, Work(tid, act)))
  {
    assert (acts + [act])[..|acts|] == acts;
  }

  lemma {:induction false} AfterAll(s0: State, tid: nat, acts: seq<Act>, more: seq<Act>)
    requires After(s0, tid, acts).Some?
    ensures After(s0, tid, acts + more) == After(After(s0, tid, acts).value, tid, more)
  {
    if more == [] {
      assert acts + more == acts;
    } else {
      AfterAll(s0, tid, acts, more[..|more| - 1]);
      assert (acts + more)[..|acts + more| - 1] == acts + more[..|more| - 1];
    }
  }

  // What the thread is at after each act of a create run.

  lemma TemplateStage(s: State, tid: nat, message: string)
    requires WF(s) && Enabled(s, Work(tid, FindTemplate(message)))
    ensures var run, pc := s.threads[tid].run, Next(s, Work(tid, FindTemplate(message))).threads[tid];
            && pc.Creating? && pc.run.id == run.id
            && pc.stage == if pc.run.template.Some? then AtLookup else Ended(NoTemplate)
  {
  }

  lemma LookupStage(s: State, tid: nat, user: Option<UserInfo>, message: string)
    requires WF(s) && Enabled(s, Work(tid, Lookup(user, message)))
    ensures var run, pc := s.threads[tid].run, Next(s, Work(tid, Lookup(user, message))).threads[tid];
            && pc.Creating? && pc.run.id == run.id && pc.run.template == run.template && pc.run.user == user
            && (if user.Some? && AccessAllowed(run.template.value, user.value)
                then pc.stage == if s.recs[run.id].tokenTypes != [] then AtToken else AtRender
                else pc.stage.Ended?)
  {
  }

  lemma TokenStage(s: State, tid: nat, token: Option<Token>, message: string)
    requires WF(s) && Enabled(s, Work(tid, CreateToken(token, message)))
    ensures var run, pc := s.threads[tid].run, Next(s, Work(tid, CreateToken(token, message))).threads[tid];
            && pc.Creating? && pc.run.id == run.id && pc.run.template == run.template && pc.run.user == run.user
            && pc.stage == if token.Some? then AtRender else Ended(TokenFailed)
  {
  }

  lemma RenderStage(s: State, tid: nat, spec: Option<PodSpec>, message: string)
    requires WF(s) && Enabled(s, Work(tid, Render(spec, message)))
    ensures var run, pc := s.threads[tid].run, Next(s, Work(tid, Render(spec, message))).threads[tid];
            && pc.Creating? && pc.run.id == run.id && pc.run.spec == spec
            && pc.stage == if spec.Some? then AtPod else Ended(RenderFailed)
  {
  }

  lemma PodStage(s: State, tid: nat, created: bool, message: string)
    requires WF(s) && Enabled(s, Work(tid, CreatePod(created, message)))
    ensures var run, pc := s.threads[tid].run, Next(s, Work(tid, CreatePod(created, message))).threads[tid];
            pc.Creating? && pc.run.id == run.id && pc.stage == if created then Ended(PodMade) else AtCleanup
  {
  }

  lemma CleanupStage(s: State, tid: nat)
    requires WF(s) && Enabled(s, Work(tid, Cleanup))
    ensures var run, pc := s.threads[tid].run, Next(s, Work(tid, Cleanup)).threads[tid];
            pc.Creating? && pc.run.id == run.id && pc.stage == Ended(PodRefused)
  {
  }

  // What the thread is at after each act of an event handler.

  /** The event has been dealt with. */
  predicate Settles(pc: Pc) {
    pc.Removed? || pc.Ignored? || (pc.Handling? && pc.at == Handled)
  }

  lemma EventStage(s: State, tid: nat, name: string, obj: Option<Pod>)
    requires WF(s) && Enabled(s, PodEvent(tid, name, obj))
    ensures var s' := Next(s, PodEvent(tid, name, obj));
            && tid in s'.threads
            && (obj.None? ==> s'.threads[tid].Removed?)
            && (s'.threads[tid].Handling? ==> Some(s'.threads[tid].pod) == obj && s'.threads[tid].name == name)
  {
    assert Next(s, PodEvent(tid, name, obj)) == NextPodEvent(s, tid, name, obj);
  }

  function StageAfter(pod: Pod, act: Act): HandleStage {
    match act
    case Reload => ToDispatch
    case ReadToken(_) => ToDispatch
    case Dispatch => if pod.phase.Failed? then ToRelease else if pod.phase.Succeeded? then ToStamp else Handled
    case Stamp => ToRelease
    case Clear => ToDelete
    case _ => Handled
  }

  lemma HandlingStage(s: State, tid: nat, act: Act)
    requires WF(s) && Enabled(s, Work(tid, act)) && s.threads[tid].Handling? && !act.Release?
    ensures var pc, pc' := s.threads[tid], Next(s, Work(tid, act)).threads[tid];
            && pc'.Handling? && pc'.id == pc.id && pc'.name == pc.name && pc'.pod == pc.pod
            && (pc'.at == StageAfter(pc.pod, act) || (act.Reload? && pc'.at == ToReadToken))
  {
  }

  lemma ReleaseStage(s: State, tid: nat, deleted: Option<string>)
    requires WF(s) && Enabled(s, Work(tid, Release))
    requires Next(s, Work(tid, Release)).log ==
             s.log + if deleted.Some? then [DeleteTokenCall(tid, s.threads[tid].id, deleted.value)] else []
    ensures var pc, pc' := s.threads[tid], Next(s, Work(tid, Release)).threads[tid];
            && pc'.Handling? && pc'.id == pc.id && pc'.name == pc.name && pc'.pod == pc.pod
            && pc'.at == if deleted.Some? then ToClear else ToDelete
  {
    assert |Next(s, Work(tid, Release)).log| == |s.log| + if deleted.Some? then 1 else 0;
  }

  lemma SuccessDrops(s: State, tid: nat)
    requires WF(s) && Enabled(s, Work(tid, Dispatch)) && s.threads[tid].pod.phase.Succeeded?
    ensures var pc := s.threads[tid];
            EffectOf(s, tid, Dispatch) == Effect(pc.(at := ToStamp), s.recs[pc.id], [], true, false)
  {
  }

  lemma OthersAreKept(s: State, tid: nat, name: string)
    requires WF(s) && (name in s.odps ==> Usable(s, name))
    ensures NextPodEvent(s, tid, name, None) == s.(threads := s.threads[tid := Removed(name)])
  {
  }

  lemma ExpiredIsDropped(s: State, tid: nat, name: string)
    requires WF(s) && name in s.odps && !Usable(s, name)
    ensures NextPodEvent(s, tid, name, None) ==
            s.(odps := s.odps - {name}, threads := s.threads[tid := Removed(name)])
  {
  }

  /** The event that a ConfigMap, or its absence, stands for. */
  function ConfigMapEvent(name: string, obj: Option<TemplateIndex.ConfigMap>,
                          parses: TemplateIndex.Parser): (e: TemplateIndex.Event)
    ensures TemplateIndex.EventOk(e)
  {
    match obj
    case None => TemplateIndex.Deleted(name)
    case Some(cm) => TemplateIndex.Changed(name, TemplateIndex.Load(name, cm, parses))
  }

  lemma UnusableIsReplaced(s: State, tid: nat, name: string, p: Param)
    requires WF(s) && !Usable(s, name)
    ensures NextRequest(s, tid, name, p) ==
            Goto(Insert(s, Requested(name, p), ByRequest(tid)), tid, Asking(|s.recs|, true, ToCheck))
  {
  }

  lemma KnownIsHandled(s: State, tid: nat, name: string, pod: Pod)
    requires WF(s) && name in s.odps
    ensures NextPodEvent(s, tid, name, Some(pod)) ==
            s.(threads := s.threads[tid := Handling(s.odps[name], name, pod, ToDispatch)])
  {
  }

  lemma BuriedIsIgnored(s: State, tid: nat, name: string, pod: Pod)
    requires WF(s) && name !in s.odps && pod.uid in s.deletedPods
    ensures NextPodEvent(s, tid, name, Some(pod)) == s.(threads := s.threads[tid := Ignored(name, pod.uid)])
  {
  }

  lemma UnknownIsRediscovered(s: State, tid: nat, name: string, pod: Pod)
    requires WF(s) && name !in s.odps && pod.uid !in s.deletedPods
    ensures NextPodEvent(s, tid, name, Some(pod)) ==
            Goto(Insert(s, Rediscovered(name), ByEvent(tid)), tid, Handling(|s.recs|, name, pod, ToReload))
  {
  }

  ghost function Matching(odps: map<string, OnDemandPod>, gauge: Gauge): set<string>
    reads set n | n in odps :: odps[n]
  {
    set n | n in odps && Matches(gauge, odps[n].resultCode)
  }

  // The loop of metrics.go:225-232: the records come in any order.
  method CountMatching(odps: map<string, OnDemandPod>, gauge: Gauge) returns (count: nat)
    ensures count == |Matching(odps, gauge)|
  {
    ghost var counted := Matching(odps, gauge);
    count := 0;
    var rest := odps.Keys;
    assert counted * rest == counted;
    while rest != {}
      invariant rest <= odps.Keys
      invariant count + |counted * rest| == |counted|
      decreases |rest|
    {
      var name :| name in rest;
      CountOneMore(counted, rest - {name}, name);
      assert (rest - {name}) + {name} == rest;
      if Matches(gauge, odps[name].resultCode) {
        count := count + 1;
      }
      rest := rest - {name};
    }
  }
}

/**
 The factory protocol as a transition system: one label for each critical section and for
 each external call of internal/factory/factory.go and factory_podevents.go.

 Every activity is a thread: one for each call of GetOnDemandPod, one for each name a create
 worker takes from the channel, one for each Pod event. Threads stay in the map when they have
 ended, so a thread number names one activity for ever. Any number of threads may be active;
 the five create workers and five Pod workers of the program are a special case.

 `log`, `origin`, `sent`, `taken` and `lastSweep` are history: no step is decided by them.
 */
module Protocol {
  import opened Wrappers
  import opened Records
  import TemplateIndex

  // ---- Threads ----

  datatype AskStage = ToCheck | ToSend | Sent | Suppressed | Returned

  datatype Exit = NoTemplate | LookupFailed | Denied | TokenFailed | RenderFailed | PodRefused | PodMade

  datatype CreateStage = AtTemplate | AtLookup | AtToken | AtRender | AtPod | AtCleanup | Ended(exit: Exit)

  /** What one create run knows: the record it works on, the place in `sent` its name came from,
      and the results of its stages so far. */
  datatype Run = Run(id: nat, slot: nat, who: string, template: Option<Template>, user: Option<UserInfo>,
                     tokenUser: string, token: Option<Token>, data: Option<TemplateData>, spec: Option<PodSpec>,
                     pod: Option<NewPod>, released: Option<string>)

  datatype HandleStage = ToReload | ToReadToken | ToDispatch | ToStamp | ToRelease | ToClear | ToDelete | Handled

  datatype Pc =
    | Asking(id: nat, required: bool, ask: AskStage)
    | Received(name: string, slot: nat)
    | NotFound(name: string, slot: nat)
    | Creating(run: Run, stage: CreateStage)
    | Handling(id: nat, name: string, pod: Pod, at: HandleStage)
    | Ignored(name: string, uid: string)
    | Removed(name: string)

  // ---- History ----

  datatype Call =
    | LookupCall(tid: nat, id: nat, who: string, user: Option<UserInfo>)
    | CreateTokenCall(tid: nat, id: nat, who: string, types: seq<string>, token: Option<Token>)
    | RenderCall(tid: nat, id: nat, template: Template, data: TemplateData, spec: Option<PodSpec>)
    | CreatePodCall(tid: nat, id: nat, pod: NewPod, ok: bool)
    | GetTokenCall(tid: nat, id: nat, tokenName: string, token: Option<Token>)
    | DeleteTokenCall(tid: nat, id: nat, tokenName: string)
    | DeletePodCall(tid: nat, id: nat, podName: string)

  datatype Origin = ByRequest(asker: nat) | ByEvent(handler: nat)

  datatype State = State(
    errorTTL: int,
    now: int,
    recs: seq<Odp>,
    odps: map<string, nat>,
    channel: seq<string>,
    deletedPods: map<string, int>,
    index: TemplateIndex.Index,
    threads: map<nat, Pc>,
    log: seq<Call>,
    origin: seq<Origin>,
    sent: seq<nat>,
    taken: nat,
    lastSweep: int)

  /** A step of one thread on the record it holds: the rest of the state is only read. */
  datatype Act =
    | Check
    | FindTemplate(message: string)
    | Lookup(user: Option<UserInfo>, message: string)
    | CreateToken(token: Option<Token>, message: string)
    | Render(spec: Option<PodSpec>, message: string)
    | CreatePod(ok: bool, message: string)
    | Cleanup
    | Reload
    | ReadToken(token: Option<Token>)
    | Dispatch
    | Stamp
    | Release
    | Clear
    | DeletePod

  datatype Label =
    | Tick(time: int)
    | Request(tid: nat, name: string, param: Param)
    | Send(tid: nat)
    | Receive(tid: nat)
    | Find(tid: nat)
    | PodEvent(tid: nat, name: string, obj: Option<Pod>)
    | Work(tid: nat, act: Act)
    | Sweep
    | TemplateEvent(event: TemplateIndex.Event)

  // ---- Well-formed states ----

  predicate HasUser(stage: CreateStage) {
    match stage
    case AtTemplate => false
    case AtLookup => false
    case Ended(e) => e != NoTemplate && e != LookupFailed
    case _ => true
  }

  predicate HasSpec(stage: CreateStage) {
    stage == AtPod || HasPod(stage)
  }

  predicate HasPod(stage: CreateStage) {
    stage == AtCleanup || stage == Ended(PodRefused) || stage == Ended(PodMade)
  }

  /** The data holds what the template itself and the user's lookup gave. */
  predicate SeesUser(data: TemplateData, t: Template, u: UserInfo) {
    data.configData == t.data && data.ldapUserAttr == u.userAttr && data.ldapGroups == u.groups
  }

  /** A run holds the results of exactly the stages it has passed. */
  ghost predicate StageOk(run: Run, stage: CreateStage) {
    && (run.template.Some? <==> stage != AtTemplate && stage != Ended(NoTemplate))
    && (run.user.Some? <==> HasUser(stage))
    && (run.token.Some? ==> stage == AtRender || stage == Ended(RenderFailed) || HasSpec(stage))
    && (run.data.Some? <==> HasSpec(stage) || stage == Ended(RenderFailed))
    && (run.data.Some? ==> SeesUser(run.data.value, run.template.value, run.user.value))
    && (run.spec.Some? <==> HasSpec(stage))
    && (run.pod.Some? <==> HasPod(stage))
    && (run.released.Some? <==> stage == Ended(PodRefused))
    && (run.user.Some? ==> (AccessAllowed(run.template.value, run.user.value) <==> stage != Ended(Denied)))
  }

  ghost predicate HandleOk(pod: Pod, at: HandleStage) {
    && (at == ToStamp ==> pod.phase.Succeeded?)
    && (at == ToRelease || at == ToClear || at == ToDelete ==> Finished(pod))
  }

  /** Only the call that made the record goes on to send its name. */
  predicate AskOk(required: bool, ask: AskStage) {
    ask == ToCheck || (required <==> ask != Returned)
  }

  ghost predicate PcOk(s: State, pc: Pc) {
    match pc
    case Asking(id, required, ask) => id < |s.recs| && AskOk(required, ask)
    case Received(_, slot) => slot < s.taken
    case NotFound(_, slot) => slot < s.taken
    case Creating(run, stage) => run.id < |s.recs| && run.slot < s.taken && StageOk(run, stage)
    case Handling(id, name, pod, at) => id < |s.recs| && s.recs[id].podName == name && HandleOk(pod, at)
    case _ => true
  }

  /** Every reference is good and every record is filed under its own name. */
  ghost predicate WF(s: State) {
    && |s.origin| == |s.recs|
    && |s.channel| == |s.sent| - s.taken
    && |s.channel| <= CREATE_QUEUE_SIZE
    && TemplateIndex.IndexOk(s.index)
    && (forall n | n in s.odps :: s.odps[n] < |s.recs| && s.recs[s.odps[n]].podName == n)
    && (forall t | t in s.threads :: PcOk(s, s.threads[t]))
  }

  // ---- Steps of one thread on one record ----

  predicate ActEnabled(pc: Pc, act: Act) {
    match act
    case Check => pc.Asking? && pc.ask == ToCheck
    case FindTemplate(_) => pc.Creating? && pc.stage == AtTemplate
    case Lookup(_, _) => pc.Creating? && pc.stage == AtLookup
    case CreateToken(_, _) => pc.Creating? && pc.stage == AtToken
    case Render(_, _) => pc.Creating? && pc.stage == AtRender
    case CreatePod(_, _) => pc.Creating? && pc.stage == AtPod
    case Cleanup => pc.Creating? && pc.stage == AtCleanup
    case Reload => pc.Handling? && pc.at == ToReload
    case ReadToken(_) => pc.Handling? && pc.at == ToReadToken
    case Dispatch => pc.Handling? && pc.at == ToDispatch
    case Stamp => pc.Handling? && pc.at == ToStamp
    case Release => pc.Handling? && pc.at == ToRelease
    case Clear => pc.Handling? && pc.at == ToClear
    case DeletePod => pc.Handling? && pc.at == ToDelete
  }

  predicate HasRecord(pc: Pc) {
    pc.Asking? || pc.Creating? || pc.Handling?
  }

  function RecordOf(pc: Pc): nat
    requires HasRecord(pc)
  {
    if pc.Creating? then pc.run.id else pc.id
  }

  /** What a thread's step does: the thread's next point, its record's next value, the external
      calls made, and whether the name leaves `odps` or the Pod is stamped as deleted. */
  datatype Effect = Effect(pc: Pc, rec: Odp, calls: seq<Call>, drops: bool, stamps: bool)

  function Quiet(pc: Pc, rec: Odp, calls: seq<Call>): Effect {
    Effect(pc, rec, calls, false, false)
  }

  /** The record gets its error and its create run is over. */
  function FailRun(run: Run, exit: Exit, rec: Odp, now: int, message: string, code: int, calls: seq<Call>): Effect {
    Quiet(Creating(run, Ended(exit)), SetError(rec, now, message, code), calls)
  }

  // GetOnDemandPod after its critical section, factory.go:276-289.
  function CheckEffect(pc: Pc, rec: Odp): Effect
    requires pc.Asking?
  {
    Quiet(pc.(ask := if !pc.required then Returned else if rec.errorTime.Some? then Suppressed else ToSend), rec, [])
  }

  // createOnDemandPod, factory.go:304-309.
  function FindTemplateEffect(run: Run, rec: Odp, now: int, byApplication: map<string, Template>,
                              message: string): Effect {
    if rec.application in byApplication
    then Quiet(Creating(run.(template := Some(byApplication[rec.application])), AtLookup), rec, [])
    else FailRun(run, NoTemplate, rec, now, message, TEMPLATE_ERROR, [])
  }

  // factory.go:311-331.
  function LookupEffect(tid: nat, run0: Run, rec: Odp, now: int, user: Option<UserInfo>, message: string): Effect
    requires run0.template.Some?
  {
    var run := run0.(who := rec.username, user := user);
    var calls := [LookupCall(tid, run.id, rec.username, user)];
    if user.None? then
      FailRun(run, LookupFailed, rec, now, message, LDAP_ERROR, calls)
    else if !AccessAllowed(run.template.value, user.value) then
      FailRun(run, Denied, rec, now, NOT_AUTHORISED, NOT_AUTHORISED_ERROR, calls)
    else
      Quiet(Creating(run, if rec.tokenTypes != [] then AtToken else AtRender), rec, calls)
  }

  // factory.go:332-338, factory_token.go:11-25.
  function CreateTokenEffect(tid: nat, run0: Run, rec: Odp, now: int, token: Option<Token>, message: string): Effect {
    var run := run0.(tokenUser := rec.username, token := token);
    var calls := [CreateTokenCall(tid, run.id, rec.username, rec.tokenTypes, token)];
    match token
    case None => FailRun(run, TokenFailed, rec, now, message, TOKEN_ERROR, calls)
    case Some(t) =>
      Quiet(Creating(run, AtRender), rec.(tokenName := t.name, tokenData := t.data), calls)
  }

  // factory.go:341-346, 417-461.
  function RenderEffect(tid: nat, run0: Run, rec: Odp, now: int, spec: Option<PodSpec>, message: string): Effect
    requires run0.template.Some? && run0.user.Some?
  {
    var data := DataFor(run0.template.value, run0.user.value, rec);
    var run := run0.(data := Some(data));
    var calls := [RenderCall(tid, run.id, run.template.value, data, spec)];
    if spec.None?
    then FailRun(run, RenderFailed, rec, now, message, TEMPLATE_ERROR, calls)
    else Quiet(Creating(run.(spec := spec), AtPod), rec, calls)
  }

  // factory.go:348-379.
  function CreatePodEffect(tid: nat, run: Run, rec: Odp, now: int, ok: bool, message: string): Effect
    requires run.spec.Some?
  {
    var pod := Decorate(run.spec.value, rec);
    var calls := [CreatePodCall(tid, run.id, pod, ok)];
    if ok
    then Quiet(Creating(run.(pod := Some(pod)), Ended(PodMade)), rec, calls)
    else Quiet(Creating(run.(pod := Some(pod)), AtCleanup), SetError(rec, now, message, K8S_ERROR), calls)
  }

  // factory.go:380, factory_token.go:27-32.
  function CleanupEffect(tid: nat, run: Run, rec: Odp): Effect {
    Quiet(Creating(run.(released := Some(rec.tokenName)), Ended(PodRefused)), rec,
          [DeleteTokenCall(tid, run.id, rec.tokenName)])
  }

  // reloadOdp, factory.go:465-475.
  function ReloadEffect(pc: Pc, rec: Odp): Effect
    requires pc.Handling?
  {
    var restored := Restored(rec, pc.pod.annotations);
    Quiet(pc.(at := if restored.tokenName != "" then ToReadToken else ToDispatch), restored, [])
  }

  // factory.go:476-478, factory_token.go:34-42.
  function ReadTokenEffect(tid: nat, pc: Pc, rec: Odp, token: Option<Token>): Effect
    requires pc.Handling?
  {
    Quiet(pc.(at := ToDispatch), if token.Some? then rec.(tokenData := token.value.data) else rec,
          [GetTokenCall(tid, pc.id, rec.tokenName, token)])
  }

  // factory_podevents.go:67-102 and 123-130.
  function DispatchEffect(pc: Pc, rec: Odp, now: int): Effect
    requires pc.Handling?
  {
    match pc.pod.phase
    case Failed => Quiet(pc.(at := ToRelease), SetError(rec, now, pc.pod.failureReason, K8S_ERROR), [])
    case Succeeded => Effect(pc.(at := ToStamp), rec, [], true, false)
    case Running => Quiet(pc.(at := Handled), rec.(resultCode := READY, podIPs := pc.pod.ips), [])
    case _ => Quiet(pc.(at := Handled), rec, [])
  }

  // factory_podevents.go:111-112.
  function ReleaseEffect(tid: nat, pc: Pc, rec: Odp): Effect
    requires pc.Handling?
  {
    if rec.tokenName == ""
    then Quiet(pc.(at := ToDelete), rec, [])
    else Quiet(pc.(at := ToClear), rec, [DeleteTokenCall(tid, pc.id, rec.tokenName)])
  }

  function ActEffect(tid: nat, pc: Pc, rec: Odp, now: int, byApplication: map<string, Template>, act: Act): Effect
    requires ActEnabled(pc, act) && (pc.Creating? ==> StageOk(pc.run, pc.stage))
  {
    match act
    case Check => CheckEffect(pc, rec)
    case FindTemplate(message) => FindTemplateEffect(pc.run, rec, now, byApplication, message)
    case Lookup(user, message) => LookupEffect(tid, pc.run, rec, now, user, message)
    case CreateToken(token, message) => CreateTokenEffect(tid, pc.run, rec, now, token, message)
    case Render(spec, message) => RenderEffect(tid, pc.run, rec, now, spec, message)
    case CreatePod(ok, message) => CreatePodEffect(tid, pc.run, rec, now, ok, message)
    case Cleanup => CleanupEffect(tid, pc.run, rec)
    case Reload => ReloadEffect(pc, rec)
    case ReadToken(token) => ReadTokenEffect(tid, pc, rec, token)
    case Dispatch => DispatchEffect(pc, rec, now)
    case Stamp => Effect(pc.(at := ToRelease), rec, [], false, true) // factory_podevents.go:104-106
    case Release => ReleaseEffect(tid, pc, rec)
    case Clear => Quiet(pc.(at := ToDelete), rec.(tokenName := ""), []) // factory_podevents.go:113
    case DeletePod => Quiet(pc.(at := Handled), rec, [DeletePodCall(tid, pc.id, pc.name)]) // factory_podevents.go:116
  }

  /** The thread stays on its record, and keeps the record's name. */
  ghost predicate Stays(pc: Pc, rec: Odp, e: Effect) {
    && (pc.Asking? ==> e.pc.Asking? && AskOk(e.pc.required, e.pc.ask))
    && HasRecord(pc) && HasRecord(e.pc) && RecordOf(e.pc) == RecordOf(pc)
    && (e.pc.Handling? <==> pc.Handling?) && (e.pc.Creating? <==> pc.Creating?)
    && (pc.Handling? ==> e.pc.name == pc.name && e.pc.pod == pc.pod && HandleOk(pc.pod, e.pc.at))
    && (pc.Creating? ==> e.pc.run.slot == pc.run.slot && StageOk(e.pc.run, e.pc.stage))
    && e.rec.podName == rec.podName
    && (e.drops ==> pc.Handling? && pc.pod.phase.Succeeded?) && (e.stamps ==> pc.Handling?)
  }

  lemma EarlyActStays(tid: nat, pc: Pc, rec: Odp, now: int, byApplication: map<string, Template>, act: Act)
    requires pc.Creating? && ActEnabled(pc, act) && StageOk(pc.run, pc.stage)
    requires act.FindTemplate? || act.Lookup? || act.CreateToken?
    ensures Stays(pc, rec, ActEffect(tid, pc, rec, now, byApplication, act))
  {
  }

  lemma LateActStays(tid: nat, pc: Pc, rec: Odp, now: int, byApplication: map<string, Template>, act: Act)
    requires pc.Creating? && ActEnabled(pc, act) && StageOk(pc.run, pc.stage)
    requires act.Render? || act.CreatePod? || act.Cleanup?
    ensures Stays(pc, rec, ActEffect(tid, pc, rec, now, byApplication, act))
  {
  }

  lemma OtherActStays(tid: nat, pc: Pc, rec: Odp, now: int, byApplication: map<string, Template>, act: Act)
    requires !pc.Creating? && ActEnabled(pc, act) && (pc.Handling? ==> HandleOk(pc.pod, pc.at))
    ensures Stays(pc, rec, ActEffect(tid, pc, rec, now, byApplication, act))
  {
  }

  /** Whatever a thread does, it stays on its record and keeps the record's name. */
  lemma ActKeeps(tid: nat, pc: Pc, rec: Odp, now: int, byApplication: map<string, Template>, act: Act)
    requires ActEnabled(pc, act) && (pc.Creating? ==> StageOk(pc.run, pc.stage))
    requires pc.Handling? ==> HandleOk(pc.pod, pc.at)
    ensures Stays(pc, rec, ActEffect(tid, pc, rec, now, byApplication, act))
  {
    if act.FindTemplate? || act.Lookup? || act.CreateToken? {
      EarlyActStays(tid, pc, rec, now, byApplication, act);
    } else if pc.Creating? {
      LateActStays(tid, pc, rec, now, byApplication, act);
    } else {
      OtherActStays(tid, pc, rec, now, byApplication, act);
    }
  }

  // ---- Steps of the whole state ----

  ghost predicate Enabled(s: State, l: Label) {
    match l
    case Tick(time) => s.now <= time
    case Request(tid, _, _) => tid !in s.threads
    case Send(tid) =>
      tid in s.threads && s.threads[tid].Asking? && s.threads[tid].ask == ToSend && |s.channel| < CREATE_QUEUE_SIZE
    case Receive(tid) => tid !in s.threads && s.channel != []
    case Find(tid) => tid in s.threads && s.threads[tid].Received?
    case PodEvent(tid, _, _) => tid !in s.threads
    case Work(tid, act) => tid in s.threads && ActEnabled(s.threads[tid], act)
    case Sweep => true
    case TemplateEvent(e) => TemplateIndex.EventOk(e)
  }

  function Goto(s: State, tid: nat, pc: Pc): (r: State)
    ensures WF(s) && PcOk(s, pc) ==> WF(r)
  {
    s.(threads := s.threads[tid := pc])
  }

  /** A new record, filed under its name. */
  function Insert(s: State, rec: Odp, origin: Origin): (r: State)
    ensures WF(s) ==> WF(r)
  {
    s.(recs := s.recs + [rec], origin := s.origin + [origin], odps := s.odps[rec.podName := |s.recs|])
  }

  /** A name stands for no record any more. */
  function Unfile(s: State, name: string): (r: State)
    ensures WF(s) ==> WF(r)
  {
    s.(odps := s.odps - {name})
  }

  /** The record GetOnDemandPod would hand out for this name, if it need not make one. */
  predicate Usable(s: State, name: string)
    requires WF(s)
  {
    name in s.odps && !ErrorExpired(s.recs[s.odps[name]], s.now, s.errorTTL)
  }

  // GetOnDemandPod, factory.go:257-273.
  function NextRequest(s: State, tid: nat, name: string, p: Param): (r: State)
    requires WF(s)
    ensures WF(r)
  {
    if Usable(s, name)
    then Goto(s, tid, Asking(s.odps[name], false, ToCheck))
    else Goto(Insert(s, Requested(name, p), ByRequest(tid)), tid, Asking(|s.recs|, true, ToCheck))
  }

  // factory.go:283.
  function NextSend(s: State, tid: nat): (r: State)
    requires WF(s) && Enabled(s, Send(tid))
    ensures WF(r)
  {
    var id := s.threads[tid].id;
    Goto(s.(channel := s.channel + [s.recs[id].podName], sent := s.sent + [id]), tid, s.threads[tid].(ask := Sent))
  }

  // createOnDemandPods, factory.go:513.
  function NextReceive(s: State, tid: nat): (r: State)
    requires WF(s) && Enabled(s, Receive(tid))
    ensures WF(r)
  {
    Goto(s.(channel := s.channel[1..], taken := s.taken + 1), tid, Received(s.channel[0], s.taken))
  }

  function NewRun(id: nat, slot: nat): Run {
    Run(id, slot, "", None, None, "", None, None, None, None, None)
  }

  // factory.go:514-522.
  function NextFind(s: State, tid: nat): (r: State)
    requires WF(s) && Enabled(s, Find(tid))
    ensures WF(r)
  {
    var pc := s.threads[tid];
    Goto(s, tid, if pc.name in s.odps then Creating(NewRun(s.odps[pc.name], pc.slot), AtTemplate)
                 else NotFound(pc.name, pc.slot))
  }

  // handlePodEvent for a Pod that is gone, factory_podevents.go:23-35.
  function NextPodGone(s: State, tid: nat, name: string): (r: State)
    requires WF(s)
    ensures WF(r)
  {
    Goto(if name in s.odps && !Usable(s, name) then Unfile(s, name) else s, tid, Removed(name))
  }

  // handlePodEvent up to the end of its critical section, factory_podevents.go:23-62.
  function NextPodEvent(s: State, tid: nat, name: string, obj: Option<Pod>): (r: State)
    requires WF(s)
    ensures WF(r)
  {
    match obj
    case None => NextPodGone(s, tid, name)
    case Some(pod) =>
      if name in s.odps then
        Goto(s, tid, Handling(s.odps[name], name, pod, ToDispatch))
      else if pod.uid in s.deletedPods then
        Goto(s, tid, Ignored(name, pod.uid))
      else
        Goto(Insert(s, Rediscovered(name), ByEvent(tid)), tid, Handling(|s.recs|, name, pod, ToReload))
  }

  function NextWork(s: State, tid: nat, e: Effect): State
    requires HasRecord(e.pc) && RecordOf(e.pc) < |s.recs| && (e.drops || e.stamps ==> e.pc.Handling?)
  {
    s.(recs := s.recs[RecordOf(e.pc) := e.rec],
       threads := s.threads[tid := e.pc],
       log := s.log + e.calls,
       odps := if e.drops then s.odps - {e.pc.name} else s.odps,
       deletedPods := if e.stamps then s.deletedPods[e.pc.pod.uid := s.now] else s.deletedPods)
  }

  /** The effect of an enabled act in this state. */
  function EffectOf(s: State, tid: nat, act: Act): (e: Effect)
    requires WF(s) && Enabled(s, Work(tid, act))
    ensures HasRecord(e.pc) && RecordOf(e.pc) == RecordOf(s.threads[tid])
    ensures e.pc.Creating? <==> s.threads[tid].Creating?
    ensures e.drops || e.stamps ==> e.pc.Handling?
    ensures e.rec.podName == s.recs[RecordOf(e.pc)].podName
  {
    var pc := s.threads[tid];
    ActKeeps(tid, pc, s.recs[RecordOf(pc)], s.now, s.index.byApplication, act);
    ActEffect(tid, pc, s.recs[RecordOf(pc)], s.now, s.index.byApplication, act)
  }

  lemma WorkKeepsWF(s: State, tid: nat, act: Act)
    requires WF(s) && Enabled(s, Work(tid, act))
    ensures WF(NextWork(s, tid, EffectOf(s, tid, act)))
  {
    var pc := s.threads[tid];
    var e := EffectOf(s, tid, act);
    ActKeeps(tid, pc, s.recs[RecordOf(pc)], s.now, s.index.byApplication, act);
    assert PcOk(s, e.pc);
  }

  predicate TombstoneExpired(stamp: int, now: int) {
    now - stamp > DELETED_TTL * SECOND
  }

  // deletedPodsCleaner, factory.go:491-499.
  function NextSweep(s: State): State {
    s.(deletedPods := map u | u in s.deletedPods && !TombstoneExpired(s.deletedPods[u], s.now) :: s.deletedPods[u],
       lastSweep := s.now)
  }

  function Next(s: State, l: Label): (r: State)
    requires WF(s) && Enabled(s, l)
    ensures WF(r)
  {
    match l
    case Tick(time) => s.(now := time)
    case Request(tid, name, param) => NextRequest(s, tid, name, param)
    case Send(tid) => NextSend(s, tid)
    case Receive(tid) => NextReceive(s, tid)
    case Find(tid) => NextFind(s, tid)
    case PodEvent(tid, name, obj) => NextPodEvent(s, tid, name, obj)
    case Work(tid, act) =>
      WorkKeepsWF(s, tid, act);
      NextWork(s, tid, EffectOf(s, tid, act))
    case Sweep => NextSweep(s)
    case TemplateEvent(e) => s.(index := TemplateIndex.Apply(s.index, e))
  }

  predicate AskingAt(s: State, t: nat, ask: AskStage) {
    t in s.threads && s.threads[t].Asking? && s.threads[t].ask == ask
  }

  predicate HandlingAt(s: State, t: nat, at: HandleStage) {
    t in s.threads && s.threads[t].Handling? && s.threads[t].at == at
  }

  predicate HasThread(l: Label) {
    !l.Tick? && !l.Sweep? && !l.TemplateEvent?
  }

  /** A step changes or adds one thread at most. */
  lemma StepOneThread(s: State, l: Label)
    requires WF(s) && Enabled(s, l)
    ensures HasThread(l) ==> l.tid in Next(s, l).threads
    ensures Next(s, l).threads == if HasThread(l) then s.threads[l.tid := Next(s, l).threads[l.tid]] else s.threads
  {
    match l
    case Request(tid, name, p) => assert Next(s, l) == NextRequest(s, tid, name, p);
    case PodEvent(tid, name, obj) => PodEventOneThread(s, tid, name, obj);
    case Work(tid, act) => assert Next(s, l).threads == s.threads[tid := EffectOf(s, tid, act).pc];
    case _ =>
  }

  /** The three ways an event of a Pod can go, and that of a Pod that is gone. */
  function PodEventPc(s: State, name: string, obj: Option<Pod>): Pc
    requires WF(s)
  {
    match obj
    case None => Removed(name)
    case Some(pod) =>
      if name in s.odps then Handling(s.odps[name], name, pod, ToDispatch)
      else if pod.uid in s.deletedPods then Ignored(name, pod.uid)
      else Handling(|s.recs|, name, pod, ToReload)
  }

  lemma PodEventOneThread(s: State, tid: nat, name: string, obj: Option<Pod>)
    requires WF(s)
    ensures NextPodEvent(s, tid, name, obj).threads == s.threads[tid := PodEventPc(s, name, obj)]
  {
    match obj
    case None => GoneOneThread(s, tid, name);
    case Some(pod) => ShownOneThread(s, tid, name, pod);
  }

  lemma GoneOneThread(s: State, tid: nat, name: string)
    requires WF(s)
    ensures NextPodEvent(s, tid, name, None).threads == s.threads[tid := PodEventPc(s, name, None)]
  {
  }

  lemma ShownOneThread(s: State, tid: nat, name: string, pod: Pod)
    requires WF(s)
    ensures NextPodEvent(s, tid, name, Some(pod)).threads == s.threads[tid := PodEventPc(s, name, Some(pod))]
  {
  }

  lemma NewThreadKind(s: State, l: Label)
    requires WF(s) && Enabled(s, l) && HasThread(l) && l.tid in Next(s, l).threads
    ensures var pc := Next(s, l).threads[l.tid];
            && (pc.Received? ==> l.Receive?) && (pc.NotFound? ==> l.Find?)
            && (pc.Creating? ==> l.tid in s.threads)
  {
    match l
    case Work(tid, act) => assert HasRecord(EffectOf(s, tid, act).pc);
    case PodEvent(tid, name, obj) => PodEventOneThread(s, tid, name, obj);
    case Request(tid, name, p) => assert NextRequest(s, tid, name, p).threads[tid].Asking?;
    case Find(tid) => assert NextFind(s, tid).threads[tid].Creating? || NextFind(s, tid).threads[tid].NotFound?;
    case Send(tid) => assert NextSend(s, tid).threads[tid].Asking?;
    case Receive(tid) => assert NextReceive(s, tid).threads[tid].Received?;
  }

  /** What a step that works on no record does: it calls nobody, adds one record at most, and adds a
      thread or moves one that holds no record of its own. */
  ghost predicate Quietly(s: State, s': State, tid: nat) {
    && s'.log == s.log
    && s.recs <= s'.recs && s.origin <= s'.origin
    && ((s'.threads == s.threads && s'.recs == s.recs) ||
        (tid in s'.threads && QuietThread(s, s', tid, s'.threads[tid])))
  }

  ghost predicate QuietThread(s: State, s': State, tid: nat, pc: Pc) {
    && s'.threads == s.threads[tid := pc]
    && (tid in s.threads ==> s.threads[tid].Asking? || s.threads[tid].Received?)
    && (pc.Creating? ==> pc == Creating(NewRun(pc.run.id, pc.run.slot), AtTemplate))
    && (pc.Handling? ==> pc.at == if s'.recs == s.recs then ToDispatch else ToReload)
    && (s'.recs != s.recs ==> |s'.recs| == |s.recs| + 1 && s'.recs[|s.recs|].tokenName == "")
    && (s'.recs != s.recs ==>
          || (pc == Asking(|s.recs|, true, ToCheck) && s'.origin == s.origin + [ByRequest(tid)])
          || (pc.Handling? && pc.id == |s.recs| && s'.recs == s.recs + [Rediscovered(pc.name)] &&
              s'.origin == s.origin + [ByEvent(tid)]))
  }

  lemma QuietStep(s: State, l: Label)
    requires WF(s) && Enabled(s, l) && !l.Work?
    ensures Quietly(s, Next(s, l), if HasThread(l) then l.tid else 0)
  {
    match l
    case Request(tid, name, p) => QuietRequest(s, tid, name, p);
    case PodEvent(tid, name, obj) => QuietPodEvent(s, tid, name, obj);
    case _ =>
  }

  lemma QuietRequest(s: State, tid: nat, name: string, p: Param)
    requires WF(s) && tid !in s.threads
    ensures Quietly(s, NextRequest(s, tid, name, p), tid)
  {
    var s' := NextRequest(s, tid, name, p);
    assert s'.threads == s.threads[tid := s'.threads[tid]];
    assert s'.recs == s.recs || s'.recs == s.recs + [Requested(name, p)];
  }

  lemma QuietPodEvent(s: State, tid: nat, name: string, obj: Option<Pod>)
    requires WF(s) && tid !in s.threads
    ensures Quietly(s, NextPodEvent(s, tid, name, obj), tid)
  {
    var s' := NextPodEvent(s, tid, name, obj);
    assert s'.threads == s.threads[tid := s'.threads[tid]];
    if obj.Some? && name !in s.odps && obj.value.uid !in s.deletedPods {
      assert s'.recs == s.recs + [Rediscovered(name)] && s'.origin == s.origin + [ByEvent(tid)];
    } else {
      assert s'.recs == s.recs && s'.origin == s.origin;
    }
  }

  // ---- Runs ----

  function Init(errorTTL: int, now: int): (s: State)
    ensures WF(s)
  {
    State(errorTTL, now, [], map[], [], map[], TemplateIndex.EMPTY, map[], [], [], [], 0, now)
  }

  /** `ss` are the states passed through, one more than the labels of the steps taken.
      Only the first need be well-formed: steps keep that. */
  ghost predicate IsRun(ss: seq<State>, ls: seq<Label>) {
    && |ss| == |ls| + 1
    && (forall k | 0 <= k < |ss| :: WF(ss[k]))
    && (forall k {:trigger ls[k]} | 0 <= k < |ls| :: Enabled(ss[k], ls[k]) && ss[k + 1] == Next(ss[k], ls[k]))
  }

  /** A run from the state in which the program starts. */
  ghost predicate IsHistory(ss: seq<State>, ls: seq<Label>) {
    IsRun(ss, ls) && ss[0] == Init(ss[0].errorTTL, ss[0].now)
  }

  /** Some history leads to this state. */
  ghost predicate Reachable(s: State) {
    exists ss, ls :: IsHistory(ss, ls) && ss[|ls|] == s
  }

  lemma InitReachable(errorTTL: int, now: int)
    ensures Reachable(Init(errorTTL, now))
  {
    assert IsHistory([Init(errorTTL, now)], []);
  }

  lemma NextReachable(s: State, l: Label)
    requires Reachable(s) && WF(s) && Enabled(s, l)
    ensures Reachable(Next(s, l))
  {
    var ss, ls :| IsHistory(ss, ls) && ss[|ls|] == s;
    var ss', ls' := ss + [Next(s, l)], ls + [l];
    assert IsHistory(ss', ls');
    assert ss'[|ls'|] == Next(s, l);
  }
}

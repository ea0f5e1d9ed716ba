/** A reload can find a token that the record never had: the template may name one itself. */
module StrayTokens {
  import opened Wrappers
  import opened Records
  import opened Protocol
  import opened Tokens
  import opened Recovery

  /** A create run renders its template. */
  lemma RenderIt(s: State, tid: nat, i: nat, spec: PodSpec) returns (s': State)
    requires WF(s) && Reachable(s) && i < |s.recs| && RunsOn(s, tid, i) && s.threads[tid].stage == AtRender
    ensures WF(s') && Reachable(s') && s'.recs == s.recs
    ensures |s'.log| == |s.log| + 1 && s.log <= s'.log && s'.log[|s.log|].RenderCall?
    ensures RunsOn(s', tid, i) && s'.threads[tid].stage == AtPod && s'.threads[tid].run.spec == Some(spec)
  {
    NextReachable(s, Work(tid, Render(Some(spec), "")));
    s' := Next(s, Work(tid, Render(Some(spec), "")));
  }

  /** A create run creates its Pod. */
  lemma CreateIt(s: State, tid: nat, i: nat, spec: PodSpec) returns (s': State)
    requires WF(s) && Reachable(s) && i < |s.recs| && RunsOn(s, tid, i)
    requires s.threads[tid].stage == AtPod && s.threads[tid].run.spec == Some(spec)
    ensures WF(s') && Reachable(s') && s'.recs == s.recs
    ensures s'.log == s.log + [CreatePodCall(tid, i, Decorate(spec, s.recs[i]), true)]
    ensures RunsOn(s', tid, i) && s'.threads[tid].stage == Ended(PodMade)
  {
    NextReachable(s, Work(tid, CreatePod(true, "")));
    s' := Next(s, Work(tid, CreatePod(true, "")));
  }

  /** After a restart, an event of the Pod is handled up to the end of the reload. */
  lemma ReloadIt(name: string, pod: Pod, errorTTL: int, now: int) returns (s: State)
    ensures WF(s) && Reachable(s) && |s.recs| == 1 && s.origin == [ByEvent(0)] && s.recs[0].podName == name
    ensures s.recs[0] == Restored(Rediscovered(name), pod.annotations)
  {
    InitReachable(errorTTL, now);
    var start := Init(errorTTL, now);
    NextReachable(start, PodEvent(0, name, Some(pod)));
    var shown := Next(start, PodEvent(0, name, Some(pod)));
    assert shown.recs == [Rediscovered(name)] && shown.threads[0] == Handling(0, name, pod, ToReload);
    NextReachable(shown, Work(0, Reload));
    s := Next(shown, Work(0, Reload));
  }

  /** A record without a token gets a Pod from a template that sets the token annotation; after a
      restart the record made from that Pod names the template's token. */
  lemma TemplateTokenIsFound(name: string, p: Param, tmpl: Template, user: UserInfo, spec: PodSpec, shown: Pod,
                             errorTTL: int, now: int)
      returns (before: State, after: State, made: Made)
    requires tmpl.application == p.application && AccessAllowed(tmpl, user) && p.tokenTypes == []
    requires ANN_TOKEN in spec.annotations && spec.annotations[ANN_TOKEN] != ""
    requires shown.annotations == Decorate(spec, Requested(name, p)).annotations
    ensures Reachable(before) && before.recs == [Requested(name, p)] && before.recs[0].tokenName == ""
    ensures before.log != []
    ensures before.log[|before.log| - 1] == CreatePodCall(1, 0, Decorate(spec, Requested(name, p)), true)
    ensures Reachable(after) && |after.recs| == 1 && after.recs[0].podName == name
    ensures after.recs[0].tokenName == spec.annotations[ANN_TOKEN]
    ensures made == Made(spec, Requested(name, p)) && FoundToken(made) != made.rec.tokenName
  {
    made := Made(spec, Requested(name, p));
    var s := StartOneRun(name, p, tmpl, errorTTL, now);
    s := Authorise(s, 1, 0, tmpl, user);
    s := RenderIt(s, 1, 0, spec);
    before := CreateIt(s, 1, 0, spec);
    after := ReloadIt(name, shown, errorTTL, now);
  }
}

/** The order of the stages of a create run, read off the log of calls. */
module Pipeline {
  import opened Wrappers
  import opened Records
  import opened Protocol
  import opened Coherence

  // ---- One thread's calls ----

  /** The calls of one thread, in the order they were made. */
  ghost function Project(log: seq<Call>, t: nat): seq<Call> {
    if log == [] then []
    else
      var last := log[|log| - 1];
      Project(log[..|log| - 1], t) + if last.tid == t then [last] else []
  }

  lemma ProjectOne(log: seq<Call>, c: Call, t: nat)
    ensures Project(log + [c], t) == Project(log, t) + if c.tid == t then [c] else []
  {
    assert (log + [c])[..|log|] == log;
  }

  /** A call of a thread has exactly the thread's earlier calls before it. */
  lemma {:induction false} ProjectAt(log: seq<Call>, k: nat, t: nat)
    requires k < |log| && log[k].tid == t
    ensures Project(log[..k], t) + [log[k]] <= Project(log, t)
    decreases |log|
  {
    var init := log[..|log| - 1];
    if k == |log| - 1 {
    } else {
      ProjectAt(init, k, t);
      assert init[..k] == log[..k];
    }
  }

  lemma {:induction false} ProjectMember(log: seq<Call>, t: nat, c: Call)
    requires c in Project(log, t)
    ensures exists j :: 0 <= j < |log| && log[j] == c
  {
    var init := log[..|log| - 1];
    if c in Project(init, t) {
      ProjectMember(init, t, c);
      var j :| 0 <= j < |init| && init[j] == c;
      assert log[j] == c;
    }
  }

  // ---- The calls a create run must have made ----

  predicate Looked(stage: CreateStage) {
    stage != AtTemplate && stage != AtLookup && stage != Ended(NoTemplate)
  }

  function LookupPart(t: nat, run: Run, stage: CreateStage): seq<Call> {
    if Looked(stage) then [LookupCall(t, run.id, run.who, run.user)] else []
  }

  function TokenPart(t: nat, run: Run, stage: CreateStage, types: seq<string>): seq<Call> {
    if stage == Ended(TokenFailed) || run.token.Some?
    then [CreateTokenCall(t, run.id, run.tokenUser, types, run.token)] else []
  }

  function RenderPart(t: nat, run: Run): seq<Call> {
    if run.template.Some? && run.data.Some?
    then [RenderCall(t, run.id, run.template.value, run.data.value, run.spec)] else []
  }

  function PodPart(t: nat, run: Run, stage: CreateStage): seq<Call> {
    (if run.pod.Some? then [CreatePodCall(t, run.id, run.pod.value, stage == Ended(PodMade))] else []) +
    (if run.released.Some? then [DeleteTokenCall(t, run.id, run.released.value)] else [])
  }

  /** Look the user up, create a token if one is wanted, render the template, create the Pod, and
      release the token if that failed; nothing after the first failure. */
  function Trace(t: nat, run: Run, stage: CreateStage, types: seq<string>): seq<Call> {
    LookupPart(t, run, stage) + TokenPart(t, run, stage, types) + RenderPart(t, run) + PodPart(t, run, stage)
  }

  /** The run moves on by these calls. */
  ghost predicate MovesOn(tid: nat, pc: Pc, types: seq<string>, e: Effect)
    requires pc.Creating?
  {
    && e.pc.Creating?
    && (e.calls == [] || (|e.calls| == 1 && e.calls[0].tid == tid))
    && Trace(tid, e.pc.run, e.pc.stage, types) == Trace(tid, pc.run, pc.stage, types) + e.calls
  }

  lemma EarlyTraces(tid: nat, pc: Pc, rec: Odp, now: int, byApplication: map<string, Template>, act: Act)
    requires pc.Creating? && ActEnabled(pc, act) && StageOk(pc.run, pc.stage)
    requires act.FindTemplate? || act.Lookup? || act.CreateToken?
    ensures MovesOn(tid, pc, rec.tokenTypes, ActEffect(tid, pc, rec, now, byApplication, act))
  {
  }

  lemma RenderTraces(tid: nat, pc: Pc, rec: Odp, now: int, byApplication: map<string, Template>, act: Act)
    requires pc.Creating? && ActEnabled(pc, act) && StageOk(pc.run, pc.stage)
    requires act.Render?
    ensures MovesOn(tid, pc, rec.tokenTypes, ActEffect(tid, pc, rec, now, byApplication, act))
  {
  }

  lemma PodTraces(tid: nat, pc: Pc, rec: Odp, now: int, byApplication: map<string, Template>, act: Act)
    requires pc.Creating? && ActEnabled(pc, act) && StageOk(pc.run, pc.stage)
    requires act.CreatePod? || act.Cleanup?
    ensures MovesOn(tid, pc, rec.tokenTypes, ActEffect(tid, pc, rec, now, byApplication, act))
  {
  }

  /** Calls an event handler makes: it creates neither tokens nor Pods. */
  predicate EventCalls(calls: seq<Call>) {
    forall c | c in calls :: c.GetTokenCall? || c.DeleteTokenCall? || c.DeletePodCall?
  }

  lemma OtherCalls(tid: nat, pc: Pc, rec: Odp, now: int, byApplication: map<string, Template>, act: Act)
    requires !pc.Creating? && ActEnabled(pc, act)
    ensures var e := ActEffect(tid, pc, rec, now, byApplication, act);
            && (e.calls == [] || (|e.calls| == 1 && e.calls[0].tid == tid))
            && (pc.Asking? ==> e.pc.Asking? && e.calls == [])
            && (pc.Handling? ==> e.pc.Handling?)
            && EventCalls(e.calls)
  {
  }

  /** The calls a thread of this kind has made, if `types` are the token types of its record. */
  ghost predicate ThreadTraced(calls: seq<Call>, t: nat, pc: Pc, types: seq<string>) {
    match pc
    case Creating(run, stage) => calls == Trace(t, run, stage, types)
    case Handling(_, _, _, _) => EventCalls(calls)
    case _ => calls == []
  }

  function TypesOf(s: State, pc: Pc): seq<string> {
    if HasRecord(pc) && RecordOf(pc) < |s.recs| then s.recs[RecordOf(pc)].tokenTypes else []
  }

  /** Every create run has made exactly the calls of the stages it has passed. */
  ghost predicate Traced(s: State) {
    && (forall t: nat | t !in s.threads :: Project(s.log, t) == [])
    && (forall t | t in s.threads :: ThreadTraced(Project(s.log, t), t, s.threads[t], TypesOf(s, s.threads[t])))
  }

  lemma ProjectCalls(log: seq<Call>, calls: seq<Call>, tid: nat, t: nat)
    requires calls == [] || (|calls| == 1 && calls[0].tid == tid)
    ensures Project(log + calls, t) == Project(log, t) + if t == tid then calls else []
  {
    if calls == [] {
      assert log + calls == log;
    } else {
      assert calls == [calls[0]];
      ProjectOne(log, calls[0], t);
    }
  }

  lemma WorkTraces(s: State, tid: nat, act: Act)
    requires WF(s) && Enabled(s, Work(tid, act)) && Coherent(s) && Traced(s)
    ensures Traced(Next(s, Work(tid, act)))
  {
    var pc, e, s' := s.threads[tid], EffectOf(s, tid, act), Next(s, Work(tid, act));
    var rec := s.recs[RecordOf(pc)];
    EffectImproves(s, tid, act);
    ActTraces(Project(s.log, tid), tid, pc, rec, s.now, s.index.byApplication, act);
    WorkFrameTraces(s, tid, e);
  }

  lemma ActTraces(calls: seq<Call>, tid: nat, pc: Pc, rec: Odp, now: int, byApplication: map<string, Template>,
                  act: Act)
    requires ActEnabled(pc, act) && (pc.Creating? ==> StageOk(pc.run, pc.stage))
    requires ThreadTraced(calls, tid, pc, rec.tokenTypes)
    ensures var e := ActEffect(tid, pc, rec, now, byApplication, act);
            && (e.calls == [] || (|e.calls| == 1 && e.calls[0].tid == tid))
            && ThreadTraced(calls + e.calls, tid, e.pc, rec.tokenTypes)
  {
    if act.FindTemplate? || act.Lookup? || act.CreateToken? {
      EarlyTraces(tid, pc, rec, now, byApplication, act);
    } else if act.Render? {
      RenderTraces(tid, pc, rec, now, byApplication, act);
    } else if pc.Creating? {
      PodTraces(tid, pc, rec, now, byApplication, act);
    } else {
      OtherCalls(tid, pc, rec, now, byApplication, act);
    }
  }

  lemma WorkFrameTraces(s: State, tid: nat, e: Effect)
    requires WF(s) && Traced(s) && tid in s.threads && HasRecord(s.threads[tid])
    requires HasRecord(e.pc) && RecordOf(e.pc) < |s.recs| && (e.drops || e.stamps ==> e.pc.Handling?)
    requires WF(NextWork(s, tid, e))
    requires PcGrows(s.threads[tid], e.pc) && RecGrows(s.recs[RecordOf(e.pc)], e.rec)
    requires e.calls == [] || (|e.calls| == 1 && e.calls[0].tid == tid)
    requires ThreadTraced(Project(s.log, tid) + e.calls, tid, e.pc, TypesOf(s, e.pc))
    ensures Traced(NextWork(s, tid, e))
  {
    var s' := NextWork(s, tid, e);
    WorkProjects(s, tid, e);
    forall t | t in s'.threads ensures ThreadTraced(Project(s'.log, t), t, s'.threads[t], TypesOf(s', s'.threads[t])) {
      assert TypesOf(s', s'.threads[t]) == TypesOf(s, s'.threads[t]) by {
        SameTypes(s, tid, e, s'.threads[t]);
      }
      assert t != tid ==> s'.threads[t] == s.threads[t];
    }
  }

  lemma WorkProjects(s: State, tid: nat, e: Effect)
    requires HasRecord(e.pc) && RecordOf(e.pc) < |s.recs| && (e.drops || e.stamps ==> e.pc.Handling?)
    requires e.calls == [] || (|e.calls| == 1 && e.calls[0].tid == tid)
    ensures forall t: nat :: Project(NextWork(s, tid, e).log, t) ==
                             Project(s.log, t) + if t == tid then e.calls else []
  {
    forall t: nat ensures Project(NextWork(s, tid, e).log, t) == Project(s.log, t) + if t == tid then e.calls else [] {
      ProjectCalls(s.log, e.calls, tid, t);
    }
  }

  lemma SameTypes(s: State, tid: nat, e: Effect, pc: Pc)
    requires HasRecord(e.pc) && RecordOf(e.pc) < |s.recs| && (e.drops || e.stamps ==> e.pc.Handling?)
    requires RecGrows(s.recs[RecordOf(e.pc)], e.rec)
    ensures TypesOf(NextWork(s, tid, e), pc) == TypesOf(s, pc)
  {
  }

  /** Steps that call nobody. */
  lemma QuietTraces(s: State, s': State, tid: nat)
    requires WF(s) && WF(s') && Traced(s) && Quietly(s, s', tid)
    ensures Traced(s')
  {
    forall t | t in s'.threads ensures ThreadTraced(Project(s'.log, t), t, s'.threads[t], TypesOf(s', s'.threads[t])) {
      if t in s.threads && s.threads[t] == s'.threads[t] {
        assert PcOk(s, s.threads[t]);
        assert TypesOf(s', s'.threads[t]) == TypesOf(s, s'.threads[t]);
      }
    }
  }

  lemma {:induction false} HistoryTraces(ss: seq<State>, ls: seq<Label>, k: nat)
    requires IsHistory(ss, ls) && k < |ss|
    ensures Traced(ss[k])
  {
    if k == 0 {
    } else {
      HistoryTraces(ss, ls, k - 1);
      RunGrows(ss, ls, k - 1, k - 1);
      if ls[k - 1].Work? {
        WorkTraces(ss[k - 1], ls[k - 1].tid, ls[k - 1].act);
      } else {
        QuietStep(ss[k - 1], ls[k - 1]);
        QuietTraces(ss[k - 1], ss[k], if HasThread(ls[k - 1]) then ls[k - 1].tid else 0);
      }
    }
  }

  // ---- How a run ends ----

  predicate HasFailed(stage: CreateStage) {
    stage == AtCleanup || (stage.Ended? && stage.exit != PodMade)
  }

  /** The code of the stage at which a run failed, as the REST interface documents it. */
  function CodeOf(stage: CreateStage): int
    requires HasFailed(stage)
  {
    if stage == AtCleanup then 4 else
    match stage.exit
    case NoTemplate => 2
    case LookupFailed => 1
    case Denied => 5
    case TokenFailed => 3
    case PodRefused => 4
    case _ => 2
  }

  /** A stage that fails writes its own code and the time; one that does not fail writes no error, nor
      does the release of the token after a refused Pod. */
  lemma FailureIsRecorded(s: State, tid: nat, act: Act)
    requires WF(s) && Enabled(s, Work(tid, act)) && s.threads[tid].Creating?
    ensures var s', run, stage := Next(s, Work(tid, act)), s.threads[tid].run, s.threads[tid].stage;
            && s'.threads[tid].Creating? && s'.threads[tid].run.id == run.id
            && (HasFailed(stage) ==> stage == AtCleanup && s'.threads[tid].stage == Ended(PodRefused))
            && WritesOutcome(s.recs[run.id], s'.recs[run.id], s.now, !HasFailed(stage), s'.threads[tid].stage)
  {
    var pc := s.threads[tid];
    CreateRecords(tid, pc, s.recs[pc.run.id], s.now, s.index.byApplication, act);
  }

  ghost predicate WritesOutcome(rec: Odp, rec': Odp, now: int, unfailed: bool, stage: CreateStage) {
    if unfailed && HasFailed(stage)
    then rec'.resultCode == CodeOf(stage) && rec'.errorTime == Some(now) && rec'.error.Some?
    else SameErrors(rec, rec')
  }

  predicate SameErrors(rec: Odp, rec': Odp) {
    rec'.resultCode == rec.resultCode && rec'.errorTime == rec.errorTime && rec'.error == rec.error
  }

  lemma CreateRecords(tid: nat, pc: Pc, rec: Odp, now: int, byApplication: map<string, Template>, act: Act)
    requires pc.Creating? && ActEnabled(pc, act) && StageOk(pc.run, pc.stage)
    ensures var e := ActEffect(tid, pc, rec, now, byApplication, act);
            && e.pc.Creating? && (HasFailed(pc.stage) ==> pc.stage == AtCleanup && e.pc.stage == Ended(PodRefused))
            && WritesOutcome(rec, e.rec, now, !HasFailed(pc.stage), e.pc.stage)
  {
  }

  // The m-th step is thread `t`'s own, and it leaves the errors of record `i` alone, or it writes this code.

  predicate Own(ls: seq<Label>, t: nat, m: nat) {
    m < |ls| && ls[m].Work? && ls[m].tid == t
  }

  predicate LeavesErrors(ss: seq<State>, i: nat, m: nat) {
    m + 1 < |ss| && i < |ss[m].recs| && i < |ss[m + 1].recs| && SameErrors(ss[m].recs[i], ss[m + 1].recs[i])
  }

  predicate WritesError(ss: seq<State>, i: nat, m: nat, code: int) {
    && m + 1 < |ss| && i < |ss[m + 1].recs|
    && ss[m + 1].recs[i].resultCode == code && ss[m + 1].recs[i].errorTime == Some(ss[m].now)
    && ss[m + 1].recs[i].error.Some?
  }

  ghost predicate FailedOnce(ss: seq<State>, ls: seq<Label>, t: nat, i: nat, k: nat, code: int) {
    exists m: nat :: m < k && Own(ls, t, m) && WritesError(ss, i, m, code) && OthersLeave(ss, ls, t, i, k, m)
  }

  ghost predicate OthersLeave(ss: seq<State>, ls: seq<Label>, t: nat, i: nat, k: nat, but: nat) {
    forall m: nat | m < k && m != but && Own(ls, t, m) :: LeavesErrors(ss, i, m)
  }

  /** What the errors that thread `t` has written so far are. */
  ghost predicate Recorded(ss: seq<State>, ls: seq<Label>, t: nat, i: nat, k: nat, stage: CreateStage) {
    if HasFailed(stage) then FailedOnce(ss, ls, t, i, k, CodeOf(stage)) else OthersLeave(ss, ls, t, i, k, k)
  }

  /** In every run: a create run that has failed has written exactly one error into its record, in the
      stage that failed, with that stage's code and the time; one that has not failed has written none. */
  lemma {:induction false} RunEndsWithItsCode(ss: seq<State>, ls: seq<Label>, t: nat, k: nat)
    requires IsHistory(ss, ls) && k < |ss| && t in ss[k].threads && ss[k].threads[t].Creating?
    ensures Recorded(ss, ls, t, ss[k].threads[t].run.id, k, ss[k].threads[t].stage)
  {
    if k > 0 && t in ss[k - 1].threads && ss[k - 1].threads[t].Creating? {
      RunEndsWithItsCode(ss, ls, t, k - 1);
      StepRecords(ss, ls, t, k);
    } else {
      StartRecords(ss, ls, t, k);
    }
  }

  lemma StartRecords(ss: seq<State>, ls: seq<Label>, t: nat, k: nat)
    requires IsHistory(ss, ls) && k < |ss| && t in ss[k].threads && ss[k].threads[t].Creating?
    requires k > 0 ==> !(t in ss[k - 1].threads && ss[k - 1].threads[t].Creating?)
    ensures Recorded(ss, ls, t, ss[k].threads[t].run.id, k, ss[k].threads[t].stage)
  {
    StepBefore(ss, ls, t, k);
    NothingToRecord(ss, ls, t, ss[k].threads[t].run.id, k);
  }

  lemma StepRecords(ss: seq<State>, ls: seq<Label>, t: nat, k: nat)
    requires IsHistory(ss, ls) && 0 < k < |ss| && t in ss[k].threads && ss[k].threads[t].Creating?
    requires t in ss[k - 1].threads && ss[k - 1].threads[t].Creating?
    requires Recorded(ss, ls, t, ss[k - 1].threads[t].run.id, k - 1, ss[k - 1].threads[t].stage)
    ensures Recorded(ss, ls, t, ss[k].threads[t].run.id, k, ss[k].threads[t].stage)
  {
    StepBefore(ss, ls, t, k);
    if Own(ls, t, k - 1) {
      OwnStepAt(ss, ls, t, k);
    } else {
      OtherStepRecords(ss, ls, t, ss[k].threads[t].run.id, k, ss[k].threads[t].stage);
    }
  }

  /** A create run goes on, is left alone, or starts. */
  lemma StepBefore(ss: seq<State>, ls: seq<Label>, t: nat, k: nat)
    requires IsHistory(ss, ls) && k < |ss| && t in ss[k].threads && ss[k].threads[t].Creating?
    ensures k > 0
    ensures Own(ls, t, k - 1) ==>
              t in ss[k - 1].threads && ss[k - 1].threads[t].Creating? &&
              ss[k - 1].threads[t].run.id == ss[k].threads[t].run.id
    ensures !Own(ls, t, k - 1) && t in ss[k - 1].threads && ss[k - 1].threads[t].Creating? ==>
              ss[k].threads[t] == ss[k - 1].threads[t]
    ensures !(t in ss[k - 1].threads && ss[k - 1].threads[t].Creating?) ==>
              && t in ss[k - 1].threads && ss[k - 1].threads[t].Received? && !Own(ls, t, k - 1)
              && ss[k].threads[t].stage == AtTemplate
  {
    var s, l := ss[k - 1], ls[k - 1];
    assert Enabled(s, l) && ss[k] == Next(s, l);
    if t in s.threads && s.threads[t].Creating? {
      if l.Work? && l.tid == t {
        FailureIsRecorded(s, t, l.act);
      } else {
        OtherStep(s, l, t);
      }
    } else {
      NewThreadStarts(s, l, t);
    }
  }

  lemma OwnStepAt(ss: seq<State>, ls: seq<Label>, t: nat, k: nat)
    requires IsHistory(ss, ls) && 0 < k < |ss| && Own(ls, t, k - 1)
    requires t in ss[k - 1].threads && ss[k - 1].threads[t].Creating?
    requires Recorded(ss, ls, t, ss[k - 1].threads[t].run.id, k - 1, ss[k - 1].threads[t].stage)
    ensures t in ss[k].threads && ss[k].threads[t].Creating?
    ensures Recorded(ss, ls, t, ss[k - 1].threads[t].run.id, k, ss[k].threads[t].stage)
  {
    var s, l := ss[k - 1], ls[k - 1];
    assert Enabled(s, l) && ss[k] == Next(s, l);
    FailureIsRecorded(s, t, l.act);
    OwnStepRecords(ss, ls, t, s.threads[t].run.id, k, s.threads[t].stage, ss[k].threads[t].stage);
  }

  lemma OwnStepRecords(ss: seq<State>, ls: seq<Label>, t: nat, i: nat, k: nat, before: CreateStage, stage: CreateStage)
    requires 0 < k < |ss| == |ls| + 1 && Own(ls, t, k - 1) && i < |ss[k - 1].recs| && i < |ss[k].recs|
    requires Recorded(ss, ls, t, i, k - 1, before)
    requires HasFailed(before) ==> before == AtCleanup && stage == Ended(PodRefused)
    requires WritesOutcome(ss[k - 1].recs[i], ss[k].recs[i], ss[k - 1].now, !HasFailed(before), stage)
    ensures Recorded(ss, ls, t, i, k, stage)
  {
    if HasFailed(before) {
      var m: nat :| m < k - 1 && Own(ls, t, m) && WritesError(ss, i, m, K8S_ERROR) &&
                    OthersLeave(ss, ls, t, i, k - 1, m);
      assert LeavesErrors(ss, i, k - 1);
      assert OthersLeave(ss, ls, t, i, k, m);
    } else if HasFailed(stage) {
      assert WritesError(ss, i, k - 1, CodeOf(stage)) && OthersLeave(ss, ls, t, i, k, k - 1);
    } else {
      assert LeavesErrors(ss, i, k - 1);
    }
  }

  lemma OtherStepRecords(ss: seq<State>, ls: seq<Label>, t: nat, i: nat, k: nat, stage: CreateStage)
    requires 0 < k < |ss| == |ls| + 1 && !Own(ls, t, k - 1) && Recorded(ss, ls, t, i, k - 1, stage)
    ensures Recorded(ss, ls, t, i, k, stage)
  {
    if HasFailed(stage) {
      var m: nat :| m < k - 1 && Own(ls, t, m) && WritesError(ss, i, m, CodeOf(stage)) &&
                    OthersLeave(ss, ls, t, i, k - 1, m);
      assert OthersLeave(ss, ls, t, i, k, m);
    }
  }

  lemma OtherStep(s: State, l: Label, t: nat)
    requires WF(s) && Enabled(s, l) && t in s.threads && s.threads[t].Creating? && !(l.Work? && l.tid == t)
    ensures t in Next(s, l).threads && Next(s, l).threads[t] == s.threads[t]
  {
    StepOneThread(s, l);
  }

  lemma NewThreadStarts(s: State, l: Label, t: nat)
    requires WF(s) && Enabled(s, l) && t in Next(s, l).threads && Next(s, l).threads[t].Creating?
    requires !(t in s.threads && s.threads[t].Creating?)
    ensures l.Find? && l.tid == t && t in s.threads && s.threads[t].Received?
    ensures Next(s, l).threads[t].stage == AtTemplate
  {
    StepOneThread(s, l);
    if HasThread(l) {
      NewThreadKind(s, l);
    }
  }

  /** A thread that still has to look its name up has taken no step on a record. */
  lemma NothingToRecord(ss: seq<State>, ls: seq<Label>, t: nat, i: nat, k: nat)
    requires IsHistory(ss, ls) && 0 < k < |ss| && !Own(ls, t, k - 1)
    requires t in ss[k - 1].threads && ss[k - 1].threads[t].Received?
    ensures Recorded(ss, ls, t, i, k, AtTemplate)
  {
    forall m: nat | m < k ensures !Own(ls, t, m) {
      NoEarlierStep(ss, ls, t, m, k - 1);
    }
  }

  lemma NoEarlierStep(ss: seq<State>, ls: seq<Label>, t: nat, m: nat, k: nat)
    requires IsHistory(ss, ls) && m <= k < |ss| && t in ss[k].threads && ss[k].threads[t].Received?
    ensures m < k ==> !Own(ls, t, m)
  {
    RunGrows(ss, ls, m, k);
    assert t in ss[m].threads ==> PcGrows(ss[m].threads[t], ss[k].threads[t]);
  }

  // ---- What a token or a Pod was preceded by ----

  /** Thread `t` looked a user up successfully, and that user may use the template. */
  ghost predicate AccessChecked(log: seq<Call>, t: nat, run: Run) {
    && run.template.Some? && run.user.Some?
    && AccessAllowed(run.template.value, run.user.value)
    && exists j :: 0 <= j < |log| && log[j] == LookupCall(t, run.id, run.who, run.user)
  }

  ghost predicate Rendered(log: seq<Call>, t: nat, run: Run) {
    && run.template.Some? && run.user.Some? && run.data.Some? && run.spec.Some?
    && SeesUser(run.data.value, run.template.value, run.user.value)
    && exists j :: 0 <= j < |log| && log[j] == RenderCall(t, run.id, run.template.value, run.data.value, run.spec)
  }

  /** In every run: before any token or Pod is created by a thread, the same thread looked a user up
      and found a group of that user among the access groups of its template; and before a Pod is
      created, that same template was rendered. */
  lemma CallsFollowAccessCheck(ss: seq<State>, ls: seq<Label>, n: nat, k: nat)
    requires IsHistory(ss, ls) && n < |ss| && k < |ss[n].log|
    requires ss[n].log[k].CreateTokenCall? || ss[n].log[k].CreatePodCall?
    ensures ss[n].log[k].tid in ss[n].threads && ss[n].threads[ss[n].log[k].tid].Creating?
    ensures var c := ss[n].log[k];
            var run := ss[n].threads[c.tid].run;
            && c.id == run.id
            && AccessChecked(ss[n].log[..k], c.tid, run)
            && (c.CreatePodCall? ==> Rendered(ss[n].log[..k], c.tid, run) && run.pod == Some(c.pod))
            && (c.CreateTokenCall? ==>
                  && c.who == run.tokenUser && c.token == run.token
                  && (run.token.Some? || ss[n].threads[c.tid].stage == Ended(TokenFailed)))
  {
    var s := ss[n];
    var c := s.log[k];
    var t := c.tid;
    HistoryTraces(ss, ls, n);
    CallIsInTrace(s, k);
    var run, stage := s.threads[t].run, s.threads[t].stage;
    var types := s.recs[run.id].tokenTypes;
    assert PcOk(s, s.threads[t]);
    var before := Project(s.log[..k], t);
    TraceShape(t, run, stage, types, |before|);
    ProjectMember(s.log[..k], t, LookupCall(t, run.id, run.who, run.user));
    if c.CreatePodCall? {
      ProjectMember(s.log[..k], t, RenderCall(t, run.id, run.template.value, run.data.value, run.spec));
    }
  }

  /** A call that creates a token or a Pod was made by a create run, at its place in the run's trace. */
  lemma CallIsInTrace(s: State, k: nat)
    requires WF(s) && Traced(s) && k < |s.log| && (s.log[k].CreateTokenCall? || s.log[k].CreatePodCall?)
    ensures s.log[k].tid in s.threads && s.threads[s.log[k].tid].Creating?
    ensures var pc := s.threads[s.log[k].tid];
            var before := Project(s.log[..k], s.log[k].tid);
            var trace := Trace(s.log[k].tid, pc.run, pc.stage, s.recs[pc.run.id].tokenTypes);
            |before| < |trace| && trace[|before|] == s.log[k] && trace[..|before|] == before
  {
    var t, before := s.log[k].tid, Project(s.log[..k], s.log[k].tid);
    ProjectAt(s.log, k, t);
    assert Project(s.log, t)[|before|] == s.log[k];
    assert s.log[k] in Project(s.log, t);
    assert t in s.threads;
    assert s.threads[t].Creating?;
    assert before + [s.log[k]] <= Project(s.log, t);
  }

  lemma TraceShape(t: nat, run: Run, stage: CreateStage, types: seq<string>, k: nat)
    requires StageOk(run, stage) && k < |Trace(t, run, stage, types)|
    ensures var trace := Trace(t, run, stage, types);
            var c := trace[k];
            && c.tid == t && c.id == run.id && !c.GetTokenCall? && !c.DeletePodCall?
            && (c.CreateTokenCall? || c.CreatePodCall? ==>
                  && run.user.Some? && stage != Ended(Denied)
                  && LookupCall(t, run.id, run.who, run.user) in trace[..k])
            && (c.CreateTokenCall? ==>
                  && c.who == run.tokenUser && c.token == run.token
                  && (run.token.Some? || stage == Ended(TokenFailed)))
            && (c.CreatePodCall? ==>
                  && run.spec.Some? && RenderCall(t, run.id, run.template.value, run.data.value, run.spec) in trace[..k]
                  && run.pod == Some(c.pod))
  {
    var trace := Trace(t, run, stage, types);
    assert Looked(stage) ==> trace[0] == LookupCall(t, run.id, run.who, run.user);
    if run.pod.Some? {
      var r := |LookupPart(t, run, stage) + TokenPart(t, run, stage, types)|;
      assert trace[r] == RenderCall(t, run.id, run.template.value, run.data.value, run.spec);
      if trace[k].CreatePodCall? {
        assert k > r;
        assert trace[..k][r] == trace[r];
      }
    }
    if k > 0 {
      assert trace[..k][0] == trace[0];
    }
  }

  /** A created Pod keeps every label and annotation of its template but the factory's own keys,
      and is named and annotated after its record. */
  ghost predicate Faithful(spec: PodSpec, rec: Odp, pod: NewPod) {
    var user, application := "com.ericsson.odp.username", "com.ericsson.odp.application";
    var token, odp := "com.ericsson.odp.token", "com.ericsson.odp.pod";
    && pod.name == rec.podName && pod.body == spec.body
    && pod.labels.Keys == spec.labels.Keys + {odp} && pod.labels[odp] == "true"
    && (forall k | k in spec.labels && k != odp :: pod.labels[k] == spec.labels[k])
    && pod.annotations.Keys ==
       spec.annotations.Keys + {user, application} + (if rec.tokenName == "" then {} else {token})
    && pod.annotations[user] == rec.username && pod.annotations[application] == rec.application
    && (rec.tokenName != "" ==> pod.annotations[token] == rec.tokenName)
    && (forall k | k in spec.annotations && k != user && k != application && (k != token || rec.tokenName == "") ::
          pod.annotations[k] == spec.annotations[k])
  }

  lemma DecorateIsFaithful(spec: PodSpec, rec: Odp)
    ensures Faithful(spec, rec, Decorate(spec, rec))
  {
    assert LBL_POD in Decorate(spec, rec).labels;
  }

  /** Whenever a Pod is created, it is the template's rendering, decorated from the record of that
      moment and nothing else. */
  lemma PodIsFaithful(ss: seq<State>, ls: seq<Label>, k: nat)
    requires IsHistory(ss, ls) && k < |ls| && ls[k].Work? && ls[k].act.CreatePod?
    ensures var s, run := ss[k], ss[k].threads[ls[k].tid].run;
            && run.spec.Some? && |ss[k + 1].log| == |s.log| + 1
            && ss[k + 1].log[|s.log|].CreatePodCall?
            && Faithful(run.spec.value, s.recs[run.id], ss[k + 1].log[|s.log|].pod)
            && Rendered(s.log, ls[k].tid, run)
  {
    var s, tid := ss[k], ls[k].tid;
    var run := s.threads[tid].run;
    DecorateIsFaithful(run.spec.value, s.recs[run.id]);
    CallsFollowAccessCheck(ss, ls, k + 1, |s.log|);
    assert ss[k + 1].log[..|s.log|] == s.log;
  }
}

/** Where the fields of a record come from: how it was made, and for each field the last step that set it. */
module Provenance {
  import opened Wrappers
  import opened Records
  import opened Protocol
  import opened Coherence

  // ---- The steps that set a field ----

  /** Fields that steps set together. */
  datatype Field = Addresses | Code | Failure | TokenName | TokenData | UserName | Application

  /** The thread works on this record. */
  predicate OnRecord(s: State, t: nat, i: nat) {
    t in s.threads && HasRecord(s.threads[t]) && RecordOf(s.threads[t]) == i < |s.recs|
  }

  /** The phase of a Pod event is acted on for the record. */
  predicate Dispatches(s: State, l: Label, i: nat, phase: Phase) {
    l.Work? && l.act.Dispatch? && OnRecord(s, l.tid, i) && s.threads[l.tid].Handling? &&
    s.threads[l.tid].pod.phase == phase
  }

  ghost predicate NoCommonGroup(t: Template, u: UserInfo) {
    forall a, b | 0 <= a < |t.accessGroups| && 0 <= b < |u.memberOf| :: t.accessGroups[a] != u.memberOf[b]
  }

  /** A stage of a create run on the record fails in this step. */
  ghost predicate RunFails(s: State, l: Label, i: nat) {
    l.Work? && OnRecord(s, l.tid, i) && s.threads[l.tid].Creating? &&
    match l.act
    case FindTemplate(_) => s.recs[i].application !in s.index.byApplication
    case Lookup(None, _) => true
    case Lookup(Some(u), _) =>
      s.threads[l.tid].run.template.Some? && NoCommonGroup(s.threads[l.tid].run.template.value, u)
    case CreateToken(None, _) => true
    case Render(None, _) => true
    case CreatePod(ok, _) => !ok
    case _ => false
  }

  ghost predicate Fails(s: State, l: Label, i: nat) {
    RunFails(s, l, i) || Dispatches(s, l, i, Failed)
  }

  /** The result code that a failing act leaves, as the REST interface documents it. */
  function FailureCode(act: Act): int {
    match act
    case Lookup(None, _) => 1
    case FindTemplate(_) => 2
    case Render(_, _) => 2
    case CreateToken(_, _) => 3
    case CreatePod(_, _) => 4
    case Lookup(Some(_), _) => 5
    case _ => 4
  }

  /** The reason that a failing step gives. */
  function FailureReason(s: State, l: Label): string {
    if !l.Work? then ""
    else match l.act
      case Lookup(None, message) => message
      case FindTemplate(message) => message
      case Render(_, message) => message
      case CreateToken(_, message) => message
      case CreatePod(_, message) => message
      case Lookup(Some(_), _) => "user not authorized for requested application"
      case _ => if l.tid in s.threads && s.threads[l.tid].Handling? then s.threads[l.tid].pod.failureReason else ""
  }

  /** The record's fields are read back from a Pod with this annotation. */
  predicate Restores(s: State, l: Label, i: nat, key: string) {
    l.Work? && l.act.Reload? && OnRecord(s, l.tid, i) && s.threads[l.tid].Handling? &&
    key in s.threads[l.tid].pod.annotations
  }

  predicate Obtained(s: State, l: Label, i: nat) {
    l.Work? && l.act.CreateToken? && l.act.token.Some? && OnRecord(s, l.tid, i)
  }

  ghost predicate Sets(f: Field, s: State, l: Label, i: nat) {
    match f
    case Addresses => Dispatches(s, l, i, Running)
    case Code => Dispatches(s, l, i, Running) || Fails(s, l, i)
    case Failure => Fails(s, l, i)
    case TokenName =>
      || Obtained(s, l, i)
      || (l.Work? && l.act.Clear? && OnRecord(s, l.tid, i))
      || Restores(s, l, i, "com.ericsson.odp.token")
    case TokenData =>
      Obtained(s, l, i) || (l.Work? && l.act.ReadToken? && l.act.token.Some? && OnRecord(s, l.tid, i))
    case UserName => Restores(s, l, i, "com.ericsson.odp.username")
    case Application => Restores(s, l, i, "com.ericsson.odp.application")
  }

  /** The record has in this field what the step sets it to. */
  ghost predicate SetTo(f: Field, s: State, l: Label, r: Odp)
    requires l.Work? && l.tid in s.threads
  {
    var pc := s.threads[l.tid];
    match f
    case Addresses => pc.Handling? && r.podIPs == pc.pod.ips
    case Code => r.resultCode == if pc.Handling? && pc.pod.phase.Running? then 0 else FailureCode(l.act)
    case Failure => r.error == Some(FailureReason(s, l)) && r.errorTime == Some(s.now)
    case TokenName =>
      (match l.act
       case CreateToken(Some(t), _) => r.tokenName == t.name
       case Clear => r.tokenName == ""
       case _ => pc.Handling? && "com.ericsson.odp.token" in pc.pod.annotations &&
                 r.tokenName == pc.pod.annotations["com.ericsson.odp.token"])
    case TokenData =>
      (match l.act
       case CreateToken(Some(t), _) => r.tokenData == t.data
       case ReadToken(Some(t)) => r.tokenData == t.data
       case _ => false)
    case UserName =>
      pc.Handling? && "com.ericsson.odp.username" in pc.pod.annotations &&
      r.username == pc.pod.annotations["com.ericsson.odp.username"]
    case Application =>
      pc.Handling? && "com.ericsson.odp.application" in pc.pod.annotations &&
      r.application == pc.pod.annotations["com.ericsson.odp.application"]
  }

  predicate Same(f: Field, r: Odp, r': Odp) {
    match f
    case Addresses => r'.podIPs == r.podIPs
    case Code => r'.resultCode == r.resultCode
    case Failure => r'.error == r.error && r'.errorTime == r.errorTime
    case TokenName => r'.tokenName == r.tokenName
    case TokenData => r'.tokenData == r.tokenData
    case UserName => r'.username == r.username
    case Application => r'.application == r.application
  }

  /** What a step does to a field of a record. */
  ghost predicate Moves(f: Field, s: State, l: Label, i: nat, r: Odp, r': Odp) {
    if Sets(f, s, l, i) then SetTo(f, s, l, r') else Same(f, r, r')
  }

  // ---- One step ----

  lemma AccessIsACommonGroup(t: Template, u: UserInfo)
    ensures AccessAllowed(t, u) <==> !NoCommonGroup(t, u)
  {
    if g :| g in t.accessGroups && g in u.memberOf {
      var a :| 0 <= a < |t.accessGroups| && t.accessGroups[a] == g;
      var b :| 0 <= b < |u.memberOf| && u.memberOf[b] == g;
    }
    if a, b :| 0 <= a < |t.accessGroups| && 0 <= b < |u.memberOf| && t.accessGroups[a] == u.memberOf[b] {
      assert t.accessGroups[a] in t.accessGroups && t.accessGroups[a] in u.memberOf;
    }
  }

  lemma CreateActMoves(f: Field, s: State, tid: nat, act: Act)
    requires WF(s) && Enabled(s, Work(tid, act)) && s.threads[tid].Creating?
    ensures var i := s.threads[tid].run.id;
            Moves(f, s, Work(tid, act), i, s.recs[i], EffectOf(s, tid, act).rec)
  {
    assert PcOk(s, s.threads[tid]);
    if act.Lookup? && act.user.Some? {
      AccessIsACommonGroup(s.threads[tid].run.template.value, act.user.value);
    }
  }

  lemma HandleActMoves(f: Field, s: State, tid: nat, act: Act)
    requires WF(s) && Enabled(s, Work(tid, act)) && s.threads[tid].Handling?
    ensures var i := s.threads[tid].id;
            Moves(f, s, Work(tid, act), i, s.recs[i], EffectOf(s, tid, act).rec)
  {
    assert PcOk(s, s.threads[tid]);
  }

  /** A step changes a record only as a thread's step on it. */
  lemma OthersLeaveRecord(s: State, l: Label, i: nat)
    requires WF(s) && Enabled(s, l) && i < |s.recs|
    ensures i < |Next(s, l).recs|
    ensures Next(s, l).recs[i] ==
            if l.Work? && RecordOf(s.threads[l.tid]) == i then EffectOf(s, l.tid, l.act).rec else s.recs[i]
  {
    match l
    case Request(tid, name, p) => assert Next(s, l) == NextRequest(s, tid, name, p);
    case PodEvent(tid, name, obj) => assert Next(s, l).recs == NextPodEvent(s, tid, name, obj).recs;
    case Work(tid, act) => assert PcOk(s, s.threads[tid]);
    case _ => assert Next(s, l).recs == s.recs;
  }

  lemma CheckMoves(f: Field, s: State, tid: nat)
    requires WF(s) && Enabled(s, Work(tid, Check))
    ensures var i := s.threads[tid].id;
            Moves(f, s, Work(tid, Check), i, s.recs[i], EffectOf(s, tid, Check).rec)
  {
  }

  lemma WorkMoves(f: Field, s: State, tid: nat, act: Act)
    requires WF(s) && Enabled(s, Work(tid, act))
    ensures var i := RecordOf(s.threads[tid]);
            Moves(f, s, Work(tid, act), i, s.recs[i], EffectOf(s, tid, act).rec)
  {
    if s.threads[tid].Creating? {
      CreateActMoves(f, s, tid, act);
    } else if s.threads[tid].Handling? {
      HandleActMoves(f, s, tid, act);
    } else {
      CheckMoves(f, s, tid);
    }
  }

  lemma SetterIsWork(f: Field, s: State, l: Label, i: nat)
    ensures Sets(f, s, l, i) ==> l.Work? && OnRecord(s, l.tid, i)
  {
  }

  lemma SameAsItself(f: Field, r: Odp)
    ensures Same(f, r, r)
  {
  }

  lemma StepMoves(f: Field, s: State, l: Label, i: nat)
    requires WF(s) && Enabled(s, l) && i < |s.recs|
    ensures i < |Next(s, l).recs| && Moves(f, s, l, i, s.recs[i], Next(s, l).recs[i])
  {
    OthersLeaveRecord(s, l, i);
    if l.Work? && RecordOf(s.threads[l.tid]) == i {
      WorkMoves(f, s, l.tid, l.act);
    } else {
      SetterIsWork(f, s, l, i);
      SameAsItself(f, s.recs[i]);
    }
  }

  // ---- How a record is made ----

  /** The record as the step that makes it leaves it: from a request's parameters, or empty but for the
      name of a Pod. */
  predicate Made(l: Label, r: Odp, origin: Origin) {
    && (l.Request? ==>
          && origin == ByRequest(l.tid) && r.podName == l.name
          && r.username == l.param.username && r.application == l.param.application
          && r.requestData == l.param.requestData && r.tokenTypes == l.param.tokenTypes
          && r.profile == l.param.profile)
    && (l.PodEvent? ==>
          && origin == ByEvent(l.tid) && r.podName == l.name
          && r.username == "" && r.application == "" && r.requestData == map[] && r.tokenTypes == []
          && r.profile == "")
    && (l.Request? || (l.PodEvent? && l.obj.Some?))
    && r.resultCode == -1 && r.podIPs == [] && r.error.None? && r.errorTime.None?
    && r.tokenName == "" && r.tokenData == map[]
  }

  lemma NewIsMade(s: State, l: Label)
    requires WF(s) && Enabled(s, l)
    ensures |s.recs| < |Next(s, l).recs| ==>
              && |Next(s, l).recs| == |s.recs| + 1 && |Next(s, l).origin| == |s.recs| + 1
              && Made(l, Next(s, l).recs[|s.recs|], Next(s, l).origin[|s.recs|])
  {
    match l
    case Request(tid, name, p) => assert Next(s, l) == NextRequest(s, tid, name, p);
    case PodEvent(tid, name, obj) =>
      assert Next(s, l).recs == NextPodEvent(s, tid, name, obj).recs;
      assert Next(s, l).origin == NextPodEvent(s, tid, name, obj).origin;
    case Work(tid, act) => assert |Next(s, l).recs| == |s.recs|;
    case _ => assert Next(s, l).recs == s.recs;
  }

  predicate MakesRecord(s: State, l: Label, s': State, i: nat) {
    |s.recs| == i < |s'.recs| && i < |s'.origin| && Made(l, s'.recs[i], s'.origin[i])
  }

  /** Every record was made by one step, from its label. */
  lemma {:induction false} RecordIsMade(ss: seq<State>, ls: seq<Label>, i: nat, k: nat) returns (j: nat)
    requires IsHistory(ss, ls) && k < |ss| && i < |ss[k].recs|
    ensures j < k && MakesRecord(ss[j], ls[j], ss[j + 1], i)
  {
    assert k > 0 && Enabled(ss[k - 1], ls[k - 1]) && ss[k] == Next(ss[k - 1], ls[k - 1]);
    if i < |ss[k - 1].recs| {
      j := RecordIsMade(ss, ls, i, k - 1);
    } else {
      NewIsMade(ss[k - 1], ls[k - 1]);
      j := k - 1;
    }
  }

  // ---- The last step that set a field ----

  /** This value of the record holds in the field what the last of its setters before `k` gave, or what
      the record was made with, at `j`, if there was none. */
  ghost predicate AsLastSet(f: Field, ss: seq<State>, ls: seq<Label>, i: nat, j: nat, k: nat, r: Odp)
    requires j < k <= |ls| < |ss| && i < |ss[j + 1].recs|
    decreases k
  {
    if k == j + 1 then Same(f, ss[j + 1].recs[i], r)
    else if Sets(f, ss[k - 1], ls[k - 1], i) then
      ls[k - 1].Work? && ls[k - 1].tid in ss[k - 1].threads && SetTo(f, ss[k - 1], ls[k - 1], r)
    else AsLastSet(f, ss, ls, i, j, k - 1, r)
  }

  /** The last step from `j` to before `k` that sets the field, if any. */
  ghost predicate LastSetter(f: Field, ss: seq<State>, ls: seq<Label>, i: nat, j: nat, k: nat, a: nat) {
    j < a < k <= |ls| < |ss| && Sets(f, ss[a], ls[a], i) && forall m | a < m < k :: !Sets(f, ss[m], ls[m], i)
  }

  lemma {:induction false} LastSetterSays(f: Field, ss: seq<State>, ls: seq<Label>, i: nat, j: nat, k: nat, r: Odp,
                                          a: nat)
    requires j < k <= |ls| < |ss| && i < |ss[j + 1].recs| && LastSetter(f, ss, ls, i, j, k, a)
    ensures AsLastSet(f, ss, ls, i, j, k, r) <==>
            ls[a].Work? && ls[a].tid in ss[a].threads && SetTo(f, ss[a], ls[a], r)
    decreases k
  {
    if a < k - 1 {
      assert !Sets(f, ss[k - 1], ls[k - 1], i);
      LastSetterSays(f, ss, ls, i, j, k - 1, r, a);
    }
  }

  lemma {:induction false} NoSetterSays(f: Field, ss: seq<State>, ls: seq<Label>, i: nat, j: nat, k: nat, r: Odp)
    requires j < k <= |ls| < |ss| && i < |ss[j + 1].recs| && forall m | j < m < k :: !Sets(f, ss[m], ls[m], i)
    ensures AsLastSet(f, ss, ls, i, j, k, r) <==> Same(f, ss[j + 1].recs[i], r)
    decreases k
  {
    if k > j + 1 {
      NoSetterSays(f, ss, ls, i, j, k - 1, r);
    }
  }

  lemma SetToStays(f: Field, s: State, l: Label, r: Odp, r': Odp)
    requires l.Work? && l.tid in s.threads && SetTo(f, s, l, r) && Same(f, r, r')
    ensures SetTo(f, s, l, r')
  {
  }

  lemma SameTwice(f: Field, r: Odp, r': Odp, r'': Odp)
    requires Same(f, r, r') && Same(f, r', r'')
    ensures Same(f, r, r'')
  {
  }

  lemma {:induction false} AsLastSetStays(f: Field, ss: seq<State>, ls: seq<Label>, i: nat, j: nat, k: nat, r: Odp,
                                          r': Odp)
    requires j < k <= |ls| < |ss| && i < |ss[j + 1].recs|
    requires AsLastSet(f, ss, ls, i, j, k, r) && Same(f, r, r')
    ensures AsLastSet(f, ss, ls, i, j, k, r')
    decreases k
  {
    if k == j + 1 {
      SameTwice(f, ss[j + 1].recs[i], r, r');
    } else if Sets(f, ss[k - 1], ls[k - 1], i) {
      SetToStays(f, ss[k - 1], ls[k - 1], r, r');
    } else {
      AsLastSetStays(f, ss, ls, i, j, k - 1, r, r');
    }
  }

  lemma AsLastSetNext(f: Field, ss: seq<State>, ls: seq<Label>, i: nat, j: nat, k: nat, r: Odp, r': Odp)
    requires j + 1 < k <= |ls| < |ss| && i < |ss[j + 1].recs|
    requires AsLastSet(f, ss, ls, i, j, k - 1, r) && Moves(f, ss[k - 1], ls[k - 1], i, r, r')
    ensures AsLastSet(f, ss, ls, i, j, k, r')
  {
    SetterIsWork(f, ss[k - 1], ls[k - 1], i);
    if !Sets(f, ss[k - 1], ls[k - 1], i) {
      AsLastSetStays(f, ss, ls, i, j, k - 1, r, r');
    }
  }

  /** Each step since the record was made moves the field as it should. */
  ghost predicate Moving(f: Field, ss: seq<State>, ls: seq<Label>, i: nat, j: nat, k: nat)
    requires j < k <= |ls| < |ss|
    decreases k
  {
    i < |ss[k].recs| &&
    (k == j + 1 || (Moving(f, ss, ls, i, j, k - 1) &&
                    Moves(f, ss[k - 1], ls[k - 1], i, ss[k - 1].recs[i], ss[k].recs[i])))
  }

  lemma {:induction false} HistoryMoves(f: Field, ss: seq<State>, ls: seq<Label>, i: nat, j: nat, k: nat)
    requires IsHistory(ss, ls) && j < k < |ss| && i < |ss[j + 1].recs|
    ensures Moving(f, ss, ls, i, j, k)
    decreases k
  {
    if k > j + 1 {
      HistoryMoves(f, ss, ls, i, j, k - 1);
      MovesAt(f, ss, ls, i, k);
    }
  }

  lemma {:induction false} MovingIsLastSet(f: Field, ss: seq<State>, ls: seq<Label>, i: nat, j: nat, k: nat)
    requires j < k <= |ls| < |ss| && i < |ss[j + 1].recs| && Moving(f, ss, ls, i, j, k)
    ensures AsLastSet(f, ss, ls, i, j, k, ss[k].recs[i])
    decreases k
  {
    if k == j + 1 {
      SameAsItself(f, ss[k].recs[i]);
    } else {
      MovingIsLastSet(f, ss, ls, i, j, k - 1);
      AsLastSetNext(f, ss, ls, i, j, k, ss[k - 1].recs[i], ss[k].recs[i]);
    }
  }

  /** In every history, for each field of each record: it holds what the last step that set it gave, or
      what the record was made with if none did. */
  lemma FieldIsLastSet(f: Field, ss: seq<State>, ls: seq<Label>, i: nat, j: nat, k: nat)
    requires IsHistory(ss, ls) && j < k < |ss| && MakesRecord(ss[j], ls[j], ss[j + 1], i)
    ensures i < |ss[k].recs| && AsLastSet(f, ss, ls, i, j, k, ss[k].recs[i])
  {
    HistoryMoves(f, ss, ls, i, j, k);
    MovingIsLastSet(f, ss, ls, i, j, k);
  }

  lemma MovesAt(f: Field, ss: seq<State>, ls: seq<Label>, i: nat, k: nat)
    requires IsHistory(ss, ls) && 0 < k < |ss| && i < |ss[k - 1].recs|
    ensures i < |ss[k].recs| && Moves(f, ss[k - 1], ls[k - 1], i, ss[k - 1].recs[i], ss[k].recs[i])
  {
    assert Enabled(ss[k - 1], ls[k - 1]) && ss[k] == Next(ss[k - 1], ls[k - 1]);
    StepMoves(f, ss[k - 1], ls[k - 1], i);
  }

  // ---- What that says of a reply ----

  lemma {:induction false} FindLastSetter(f: Field, ss: seq<State>, ls: seq<Label>, i: nat, j: nat, k: nat)
      returns (a: Option<nat>)
    requires j < k <= |ls| < |ss|
    ensures a.Some? ==> LastSetter(f, ss, ls, i, j, k, a.value)
    ensures a.None? ==> forall m | j < m < k :: !Sets(f, ss[m], ls[m], i)
    decreases k
  {
    a := None;
    if k > j + 1 {
      if Sets(f, ss[k - 1], ls[k - 1], i) {
        a := Some(k - 1);
      } else {
        a := FindLastSetter(f, ss, ls, i, j, k - 1);
      }
    }
  }

  /** The addresses of a record are those of the last Running event handled for it, and it has none before
      the first. */
  lemma AddressesAreLastShown(ss: seq<State>, ls: seq<Label>, i: nat, j: nat, k: nat) returns (a: Option<nat>)
    requires IsHistory(ss, ls) && j < k < |ss| && MakesRecord(ss[j], ls[j], ss[j + 1], i)
    ensures i < |ss[k].recs|
    ensures a.None? ==> ss[k].recs[i].podIPs == [] && forall m | j < m < k :: !Dispatches(ss[m], ls[m], i, Running)
    ensures a.Some? ==>
              && j < a.value < k && Dispatches(ss[a.value], ls[a.value], i, Running)
              && (forall m | a.value < m < k :: !Dispatches(ss[m], ls[m], i, Running))
              && ss[k].recs[i].podIPs == ss[a.value].threads[ls[a.value].tid].pod.ips
  {
    FieldIsLastSet(Addresses, ss, ls, i, j, k);
    a := LastShown(ss, ls, i, j, k, ss[k].recs[i]);
  }

  lemma LastShown(ss: seq<State>, ls: seq<Label>, i: nat, j: nat, k: nat, r: Odp) returns (a: Option<nat>)
    requires j < k <= |ls| < |ss| && MakesRecord(ss[j], ls[j], ss[j + 1], i)
    requires AsLastSet(Addresses, ss, ls, i, j, k, r)
    ensures a.None? ==> r.podIPs == [] && forall m | j < m < k :: !Dispatches(ss[m], ls[m], i, Running)
    ensures a.Some? ==>
              && j < a.value < k && Dispatches(ss[a.value], ls[a.value], i, Running)
              && (forall m | a.value < m < k :: !Dispatches(ss[m], ls[m], i, Running))
              && r.podIPs == ss[a.value].threads[ls[a.value].tid].pod.ips
  {
    a := FindLastSetter(Addresses, ss, ls, i, j, k);
    if a.Some? {
      LastSetterSays(Addresses, ss, ls, i, j, k, r, a.value);
      forall m | a.value < m < k ensures !Dispatches(ss[m], ls[m], i, Running) {
        assert !Sets(Addresses, ss[m], ls[m], i);
      }
    } else {
      NoSetterSays(Addresses, ss, ls, i, j, k, r);
      forall m | j < m < k ensures !Dispatches(ss[m], ls[m], i, Running) {
        assert !Sets(Addresses, ss[m], ls[m], i);
      }
    }
  }

  /** The error of a record is that of the last step that failed on it, with its reason and time; it has
      one if and only if a step has failed on it. */
  lemma ErrorIsLastFailure(ss: seq<State>, ls: seq<Label>, i: nat, j: nat, k: nat) returns (a: Option<nat>)
    requires IsHistory(ss, ls) && j < k < |ss| && MakesRecord(ss[j], ls[j], ss[j + 1], i)
    ensures i < |ss[k].recs|
    ensures a.None? ==> ss[k].recs[i].error.None? && ss[k].recs[i].errorTime.None? &&
                        forall m | j < m < k :: !Fails(ss[m], ls[m], i)
    ensures a.Some? ==>
              && j < a.value < k && Fails(ss[a.value], ls[a.value], i)
              && (forall m | a.value < m < k :: !Fails(ss[m], ls[m], i))
              && ss[k].recs[i].error == Some(FailureReason(ss[a.value], ls[a.value]))
              && ss[k].recs[i].errorTime == Some(ss[a.value].now)
  {
    FieldIsLastSet(Failure, ss, ls, i, j, k);
    a := LastFailure(ss, ls, i, j, k, ss[k].recs[i]);
  }

  lemma LastFailure(ss: seq<State>, ls: seq<Label>, i: nat, j: nat, k: nat, r: Odp) returns (a: Option<nat>)
    requires j < k <= |ls| < |ss| && MakesRecord(ss[j], ls[j], ss[j + 1], i)
    requires AsLastSet(Failure, ss, ls, i, j, k, r)
    ensures a.None? ==> r.error.None? && r.errorTime.None? && forall m | j < m < k :: !Fails(ss[m], ls[m], i)
    ensures a.Some? ==>
              && j < a.value < k && Fails(ss[a.value], ls[a.value], i)
              && (forall m | a.value < m < k :: !Fails(ss[m], ls[m], i))
              && r.error == Some(FailureReason(ss[a.value], ls[a.value])) && r.errorTime == Some(ss[a.value].now)
  {
    a := FindLastSetter(Failure, ss, ls, i, j, k);
    if a.Some? {
      LastSetterSays(Failure, ss, ls, i, j, k, r, a.value);
      forall m | a.value < m < k ensures !Fails(ss[m], ls[m], i) {
        assert !Sets(Failure, ss[m], ls[m], i);
      }
    } else {
      NoSetterSays(Failure, ss, ls, i, j, k, r);
      forall m | j < m < k ensures !Fails(ss[m], ls[m], i) {
        assert !Sets(Failure, ss[m], ls[m], i);
      }
    }
  }

  /** The call that made a record goes on to send its name if and only if no step had failed on the
      record when it checked. */
  lemma SentUnlessFailed(ss: seq<State>, ls: seq<Label>, i: nat, j: nat, k: nat)
    requires IsHistory(ss, ls) && j < k < |ls| && MakesRecord(ss[j], ls[j], ss[j + 1], i)
    requires ls[k] == Work(ls[j].tid, Check) && OnRecord(ss[k], ls[j].tid, i) && ss[k].threads[ls[j].tid].required
    ensures AskingAt(ss[k + 1], ls[j].tid, ToSend) <==> forall m | j < m < k :: !Fails(ss[m], ls[m], i)
    ensures AskingAt(ss[k + 1], ls[j].tid, Suppressed) <==> exists m :: j < m < k && Fails(ss[m], ls[m], i)
  {
    var a := ErrorIsLastFailure(ss, ls, i, j, k);
    assert Enabled(ss[k], ls[k]) && ss[k + 1] == Next(ss[k], ls[k]);
  }

  /** A record is ready only after a Running event was the last to set its code, and counted as errored
      only after a failure was; before either it is being created. */
  lemma CodeIsLastOutcome(ss: seq<State>, ls: seq<Label>, i: nat, j: nat, k: nat) returns (a: Option<nat>)
    requires IsHistory(ss, ls) && j < k < |ss| && MakesRecord(ss[j], ls[j], ss[j + 1], i)
    ensures i < |ss[k].recs|
    ensures a.None? ==> ss[k].recs[i].resultCode == -1
    ensures a.Some? ==> LastSetter(Code, ss, ls, i, j, k, a.value)
    ensures a.Some? && ss[k].recs[i].resultCode == 0 ==> Dispatches(ss[a.value], ls[a.value], i, Running)
    ensures a.Some? && ss[k].recs[i].resultCode != 0 ==>
              Fails(ss[a.value], ls[a.value], i) && ss[k].recs[i].resultCode == FailureCode(ls[a.value].act) > 0
    ensures a.None? ==> forall m | j < m < k :: !Sets(Code, ss[m], ls[m], i)
  {
    FieldIsLastSet(Code, ss, ls, i, j, k);
    a := LastOutcome(ss, ls, i, j, k, ss[k].recs[i]);
  }

  lemma LastOutcome(ss: seq<State>, ls: seq<Label>, i: nat, j: nat, k: nat, r: Odp) returns (a: Option<nat>)
    requires j < k <= |ls| < |ss| && MakesRecord(ss[j], ls[j], ss[j + 1], i)
    requires AsLastSet(Code, ss, ls, i, j, k, r)
    ensures a.None? ==> r.resultCode == -1
    ensures a.Some? ==> LastSetter(Code, ss, ls, i, j, k, a.value)
    ensures a.Some? && r.resultCode == 0 ==> Dispatches(ss[a.value], ls[a.value], i, Running)
    ensures a.Some? && r.resultCode != 0 ==>
              Fails(ss[a.value], ls[a.value], i) && r.resultCode == FailureCode(ls[a.value].act) > 0
    ensures a.None? ==> forall m | j < m < k :: !Sets(Code, ss[m], ls[m], i)
  {
    a := FindLastSetter(Code, ss, ls, i, j, k);
    if a.Some? {
      LastSetterSays(Code, ss, ls, i, j, k, r, a.value);
      assert Sets(Code, ss[a.value], ls[a.value], i);
    } else {
      NoSetterSays(Code, ss, ls, i, j, k, r);
    }
  }
}

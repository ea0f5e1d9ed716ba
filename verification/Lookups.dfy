/** Which record a create worker finds under the name it took from the channel. */
module Lookups {
  import opened Wrappers
  import opened Records
  import opened Protocol
  import opened Coherence
  import opened Retention
  import opened Conservation
  import opened CreateOnce
  import opened Counting
  import opened Pipeline

  predicate Filed(s: State, name: string, i: nat) {
    name in s.odps && s.odps[name] == i
  }

  /** The step takes the name away from the record it stands for. */
  ghost predicate Displaces(s: State, l: Label, name: string)
    requires WF(s) && Enabled(s, l)
  {
    EndsWell(s, l, name) || Replaces(s, l, name)
  }

  ghost predicate DisplacedBetween(ss: seq<State>, ls: seq<Label>, name: string, a: nat, b: nat)
    requires IsRun(ss, ls) && b <= |ls|
  {
    exists k :: a <= k < b && Displaces(ss[k], ls[k], name)
  }

  // ---- A record is filed once ----

  /** A name comes to stand for a new record only. */
  lemma NeverFiledAgain(s: State, l: Label, name: string, i: nat)
    requires WF(s) && Enabled(s, l) && i < |s.recs| && !Filed(s, name, i)
    ensures !Filed(Next(s, l), name, i)
  {
    match l
    case Work(tid, act) => assert Next(s, l) == NextWork(s, tid, EffectOf(s, tid, act));
    case Request(tid, other, p) => assert Next(s, l) == NextRequest(s, tid, other, p);
    case PodEvent(tid, other, obj) => PodEventFilesNew(s, tid, other, obj, name, i);
    case _ => assert Next(s, l).odps == s.odps;
  }

  lemma PodEventFilesNew(s: State, tid: nat, other: string, obj: Option<Pod>, name: string, i: nat)
    requires WF(s) && i < |s.recs| && !Filed(s, name, i)
    ensures !Filed(NextPodEvent(s, tid, other, obj), name, i)
  {
  }

  /** A record stays filed under its name if and only if no step in between displaces it. */
  lemma {:induction false} FiledUntilDisplaced(ss: seq<State>, ls: seq<Label>, name: string, i: nat, a: nat, b: nat)
    requires IsRun(ss, ls) && Coherent(ss[0]) && a <= b < |ss| && Filed(ss[a], name, i)
    ensures Filed(ss[b], name, i) <==> !DisplacedBetween(ss, ls, name, a, b)
    ensures i < |ss[b].recs|
    decreases b
  {
    if a < b {
      FiledUntilDisplaced(ss, ls, name, i, a, b - 1);
      FiledAtStep(ss, ls, name, i, b - 1);
      DisplacedByLast(ss, ls, name, a, b);
    }
  }

  lemma FiledAtStep(ss: seq<State>, ls: seq<Label>, name: string, i: nat, k: nat)
    requires IsRun(ss, ls) && Coherent(ss[0]) && k < |ls| && i < |ss[k].recs|
    ensures Filed(ss[k + 1], name, i) <==> Filed(ss[k], name, i) && !Displaces(ss[k], ls[k], name)
    ensures i < |ss[k + 1].recs|
  {
    RunGrows(ss, ls, k, k + 1);
    FiledStep(ss[k], ls[k], name, i);
  }

  lemma FiledStep(s: State, l: Label, name: string, i: nat)
    requires WF(s) && Enabled(s, l) && i < |s.recs|
    ensures Filed(Next(s, l), name, i) <==> Filed(s, name, i) && !Displaces(s, l, name)
  {
    if Filed(s, name, i) {
      StepRetains(s, l, name);
    } else {
      NeverFiledAgain(s, l, name, i);
    }
  }

  lemma DisplacedByLast(ss: seq<State>, ls: seq<Label>, name: string, a: nat, b: nat)
    requires IsRun(ss, ls) && a < b <= |ls|
    ensures DisplacedBetween(ss, ls, name, a, b) <==>
            DisplacedBetween(ss, ls, name, a, b - 1) || Displaces(ss[b - 1], ls[b - 1], name)
  {
  }

  /** Every record was filed under its name at some time. */
  lemma {:induction false} FiledAtSomeTime(ss: seq<State>, ls: seq<Label>, i: nat, b: nat) returns (a: nat)
    requires IsHistory(ss, ls) && b < |ss| && i < |ss[b].recs|
    ensures a <= b && Filed(ss[a], ss[b].recs[i].podName, i)
  {
    if b > 0 {
      RunGrows(ss, ls, b - 1, b);
      if i < |ss[b - 1].recs| {
        a := FiledAtSomeTime(ss, ls, i, b - 1);
      } else {
        a := b;
        NewRecordIsFiled(ss[b - 1], ls[b - 1], i);
      }
    }
  }

  lemma NewRecordIsFiled(s: State, l: Label, i: nat)
    requires WF(s) && Enabled(s, l) && |s.recs| <= i < |Next(s, l).recs|
    ensures Filed(Next(s, l), Next(s, l).recs[i].podName, i)
  {
    if l.Request? {
      assert Next(s, l) == NextRequest(s, l.tid, l.name, l.param);
    } else if l.PodEvent? {
      assert Next(s, l) == NextPodEvent(s, l.tid, l.name, l.obj);
    }
  }

  // ---- Lookups ----

  /** The record whose maker queued the name that this create worker holds. */
  function QueuedFor(s: State, tid: nat): nat
    requires WF(s) && Enabled(s, Find(tid))
  {
    s.sent[s.threads[tid].slot]
  }

  ghost predicate FindsItsRecord(ss: seq<State>, ls: seq<Label>, b: nat)
    requires IsRun(ss, ls) && b < |ls| && ls[b].Find?
  {
    var tid := ls[b].tid;
    && tid in ss[b + 1].threads && ss[b + 1].threads[tid].Creating?
    && ss[b + 1].threads[tid].run.id == QueuedFor(ss[b], tid)
  }

  lemma FindsFiled(s: State, tid: nat, i: nat)
    requires WF(s) && Enabled(s, Find(tid))
    ensures var pc := Next(s, Find(tid)).threads[tid];
            pc.Creating? && pc.run.id == i <==> Filed(s, s.threads[tid].name, i)
  {
  }

  /** A lookup finds the record that queued the name if and only if, since that record was filed,
      no Succeeded event was handled for the name and no expired error of it replaced or removed. */
  lemma LookupFindsItsRecord(ss: seq<State>, ls: seq<Label>, name: string, a: nat, b: nat)
    requires IsHistory(ss, ls) && a <= b < |ls| && ls[b].Find?
    requires name == ss[b].threads[ls[b].tid].name && Filed(ss[a], name, QueuedFor(ss[b], ls[b].tid))
    ensures FindsItsRecord(ss, ls, b) <==> !DisplacedBetween(ss, ls, name, a, b)
  {
    var i := QueuedFor(ss[b], ls[b].tid);
    FindsFiled(ss[b], ls[b].tid, i);
    FiledUntilDisplaced(ss, ls, name, i, a, b);
    assert ss[b + 1] == Next(ss[b], ls[b]);
  }

  lemma {:induction false} HistoryServes(ss: seq<State>, ls: seq<Label>, k: nat)
    requires IsHistory(ss, ls) && k < |ss|
    ensures Served(ss[k])
  {
    if k > 0 {
      HistoryServes(ss, ls, k - 1);
      ServesNext(ss, ls, k - 1);
    }
  }

  lemma ServesNext(ss: seq<State>, ls: seq<Label>, k: nat)
    requires IsHistory(ss, ls) && k < |ls| && Served(ss[k])
    ensures Served(ss[k + 1])
  {
    assert Enabled(ss[k], ls[k]) && ss[k + 1] == Next(ss[k], ls[k]);
    HistoryConserves(ss, ls, k);
    RunGrows(ss, ls, k, k);
    StepServes(ss[k], ls[k]);
  }

  /** No step displaces the record that queued the name, from its insertion to the lookup. */
  ghost predicate Undisturbed(ss: seq<State>, ls: seq<Label>, b: nat)
    requires IsRun(ss, ls) && b < |ls| && ls[b].Find?
  {
    var name, i := ss[b].threads[ls[b].tid].name, QueuedFor(ss[b], ls[b].tid);
    forall a: nat | a <= b && Filed(ss[a], name, i) :: !DisplacedBetween(ss, ls, name, a, b)
  }

  /** The same without naming the time of the insertion. */
  lemma LookupIsRight(ss: seq<State>, ls: seq<Label>, b: nat)
    requires IsHistory(ss, ls) && b < |ls| && ls[b].Find?
    ensures FindsItsRecord(ss, ls, b) <==> Undisturbed(ss, ls, b)
  {
    var name, i := ss[b].threads[ls[b].tid].name, QueuedFor(ss[b], ls[b].tid);
    HistoryServes(ss, ls, b);
    var first := FiledAtSomeTime(ss, ls, i, b);
    forall a: nat | a <= b && Filed(ss[a], name, i)
      ensures FindsItsRecord(ss, ls, b) <==> !DisplacedBetween(ss, ls, name, a, b)
    {
      LookupFindsItsRecord(ss, ls, name, a, b);
    }
  }

  /** The record whose name is the j-th sent was not displaced since it was filed. */
  ghost predicate StillFiled(ss: seq<State>, ls: seq<Label>, k: nat, j: nat)
    requires IsRun(ss, ls) && k < |ss| && j < |ss[k].sent|
  {
    var i := ss[k].sent[j];
    i < |ss[k].recs| &&
      var name := ss[k].recs[i].podName;
      forall a: nat | a <= k && Filed(ss[a], name, i) :: !DisplacedBetween(ss, ls, name, a, k)
  }

  // ---- Names waiting twice ----

  lemma {:induction false} StaysUnfiled(ss: seq<State>, ls: seq<Label>, name: string, i: nat, a: nat, b: nat)
    requires IsRun(ss, ls) && Coherent(ss[0]) && a <= b < |ss| && i < |ss[a].recs| && !Filed(ss[a], name, i)
    ensures i < |ss[b].recs| && !Filed(ss[b], name, i)
    decreases b - a
  {
    if a < b {
      FiledAtStep(ss, ls, name, i, a);
      StaysUnfiled(ss, ls, name, i, a + 1, b);
    }
  }

  /** Of two records of one name, the earlier does not stand for it. */
  lemma EarlierIsUnfiled(ss: seq<State>, ls: seq<Label>, x: nat, y: nat, k: nat)
    requires IsHistory(ss, ls) && k < |ss| && x < y < |ss[k].recs| && ss[k].recs[x].podName == ss[k].recs[y].podName
    ensures !Filed(ss[k], ss[k].recs[x].podName, x)
  {
    var a := FiledAtSomeTime(ss, ls, y, k);
    assert x < |ss[a].recs|;
    StaysUnfiled(ss, ls, ss[k].recs[x].podName, x, a, k);
  }

  lemma UnfiledIsDisplaced(ss: seq<State>, ls: seq<Label>, k: nat, j: nat)
    requires IsHistory(ss, ls) && k < |ss| && j < |ss[k].sent| && ss[k].sent[j] < |ss[k].recs|
    requires !Filed(ss[k], ss[k].recs[ss[k].sent[j]].podName, ss[k].sent[j])
    ensures !StillFiled(ss, ls, k, j)
  {
    var i := ss[k].sent[j];
    var name := ss[k].recs[i].podName;
    var a := FiledAtSomeTime(ss, ls, i, k);
    FiledUntilDisplaced(ss, ls, name, i, a, k);
  }

  /** Two waiting names are the same, and the record of the first one sent for was displaced since. */
  ghost predicate Superseded(ss: seq<State>, ls: seq<Label>, k: nat, j: nat, m: nat)
    requires IsRun(ss, ls) && k < |ss|
  {
    var s := ss[k];
    && s.taken <= j < |s.sent| && s.taken <= m < |s.sent|
    && s.sent[j] < s.sent[m] < |s.recs| && s.recs[s.sent[j]].podName == s.recs[s.sent[m]].podName
    && !StillFiled(ss, ls, k, j)
  }

  /** A name waits twice if and only if a record waiting under it was displaced and the name of a later
      record of the same name was sent as well. */
  lemma NameWaitsTwice(ss: seq<State>, ls: seq<Label>, k: nat)
    requires IsHistory(ss, ls) && k < |ss|
    ensures !Distinct(ss[k].channel) <==> exists j: nat, m: nat :: Superseded(ss, ls, k, j, m)
  {
    HistoryConserves(ss, ls, k);
    if !Distinct(ss[k].channel) {
      var a, b := SameNames(ss[k]);
      var j, m := if ss[k].sent[a] < ss[k].sent[b] then a else b, if ss[k].sent[a] < ss[k].sent[b] then b else a;
      EarlierIsUnfiled(ss, ls, ss[k].sent[j], ss[k].sent[m], k);
      UnfiledIsDisplaced(ss, ls, k, j);
      assert Superseded(ss, ls, k, j, m);
    }
    if j: nat, m: nat :| Superseded(ss, ls, k, j, m) {
      SameWaiting(ss[k], j, m);
    }
  }

  lemma NamesWaitOnce(ss: seq<State>, ls: seq<Label>, k: nat)
    requires IsHistory(ss, ls) && k < |ss|
    requires forall j: nat | ss[k].taken <= j < |ss[k].sent| :: StillFiled(ss, ls, k, j)
    ensures Distinct(ss[k].channel)
  {
    NameWaitsTwice(ss, ls, k);
  }

  lemma SameNames(s: State) returns (a: nat, b: nat)
    requires WF(s) && Conserved(s) && !Distinct(s.channel)
    ensures s.taken <= a < |s.sent| && s.taken <= b < |s.sent| && s.sent[a] != s.sent[b]
    ensures s.sent[a] < |s.recs| && s.sent[b] < |s.recs|
    ensures s.recs[s.sent[a]].podName == s.recs[s.sent[b]].podName
  {
    var x, y :| 0 <= x < y < |s.channel| && s.channel[x] == s.channel[y];
    a, b := s.taken + x, s.taken + y;
    assert s.channel[a - s.taken] == s.recs[s.sent[a]].podName && s.channel[b - s.taken] == s.recs[s.sent[b]].podName;
  }

  lemma SameWaiting(s: State, j: nat, m: nat)
    requires WF(s) && Fifo(s) && s.taken <= j < |s.sent| && s.taken <= m < |s.sent| && j != m
    requires s.recs[s.sent[j]].podName == s.recs[s.sent[m]].podName
    ensures !Distinct(s.channel)
  {
    assert s.channel[j - s.taken] == s.channel[m - s.taken];
  }

  /** The discipline of CreateOnce is one way to leave all lookups undisturbed. */
  lemma DisciplineLeavesUndisturbed(ss: seq<State>, ls: seq<Label>, b: nat)
    requires IsHistory(ss, ls) && Disciplined(ss, ls) && b < |ls| && ls[b].Find?
    ensures Undisturbed(ss, ls, b)
  {
    DisciplineFinds(ss, ls, b);
    LookupIsRight(ss, ls, b);
  }

  lemma DisciplineFinds(ss: seq<State>, ls: seq<Label>, b: nat)
    requires IsHistory(ss, ls) && Disciplined(ss, ls) && b < |ls| && ls[b].Find?
    ensures FindsItsRecord(ss, ls, b)
  {
    EachRequestRunsOnce(ss, ls, b);
    assert ls[b].tid in ss[b + 1].threads;
  }

  // ---- Runs ----

  /** Every create run works on the record whose maker queued its name. */
  ghost predicate OnItsRecord(s: State)
    requires WF(s)
  {
    forall t | t in s.threads && s.threads[t].Creating? :: s.threads[t].run.id == s.sent[s.threads[t].run.slot]
  }

  lemma StepOnItsRecord(s: State, l: Label)
    requires WF(s) && Enabled(s, l) && Coherent(s) && OnItsRecord(s)
    requires l.Find? && Next(s, l).threads[l.tid].Creating? ==> Next(s, l).threads[l.tid].run.id == QueuedFor(s, l.tid)
    ensures OnItsRecord(Next(s, l))
  {
    var s' := Next(s, l);
    StepGrows(s, l);
    StepOneThread(s, l);
    if HasThread(l) {
      NewThreadKind(s, l);
    }
    forall t | t in s'.threads && s'.threads[t].Creating?
      ensures s'.threads[t].run.id == s'.sent[s'.threads[t].run.slot] {
      assert PcOk(s, s.threads[t]) && PcGrows(s.threads[t], s'.threads[t]);
    }
  }

  /** If all lookups so far were undisturbed, every create run works on the record whose maker queued
      its name, and no record has two create runs. */
  lemma UndisturbedRunsOnce(ss: seq<State>, ls: seq<Label>, k: nat)
    requires IsHistory(ss, ls) && k < |ss|
    requires forall b: nat | b < k && ls[b].Find? :: Undisturbed(ss, ls, b)
    ensures OnItsRecord(ss[k])
    ensures forall t, u | t in ss[k].threads && u in ss[k].threads && ss[k].threads[t].Creating? &&
                          ss[k].threads[u].Creating? && ss[k].threads[t].run.id == ss[k].threads[u].run.id :: t == u
  {
    AllOnTheirRecords(ss, ls, k);
    HistoryServes(ss, ls, k);
    HistoryConserves(ss, ls, k);
    OnItsRecordRunsOnce(ss[k]);
  }

  lemma {:induction false} AllOnTheirRecords(ss: seq<State>, ls: seq<Label>, k: nat)
    requires IsHistory(ss, ls) && k < |ss|
    requires forall b: nat | b < k && ls[b].Find? :: Undisturbed(ss, ls, b)
    ensures OnItsRecord(ss[k])
  {
    if k > 0 {
      AllOnTheirRecords(ss, ls, k - 1);
      RunGrows(ss, ls, k - 1, k - 1);
      if ls[k - 1].Find? {
        LookupIsRight(ss, ls, k - 1);
      }
      StepOnItsRecord(ss[k - 1], ls[k - 1]);
    }
  }

  lemma OnItsRecordRunsOnce(s: State)
    requires WF(s) && OnItsRecord(s) && Served(s) && Conserved(s)
    ensures forall t, u | t in s.threads && u in s.threads && s.threads[t].Creating? && s.threads[u].Creating? &&
                          s.threads[t].run.id == s.threads[u].run.id :: t == u
  {
    forall t, u | t in s.threads && u in s.threads && s.threads[t].Creating? && s.threads[u].Creating? &&
                  s.threads[t].run.id == s.threads[u].run.id
      ensures t == u
    {
      assert PcOk(s, s.threads[t]) && PcOk(s, s.threads[u]);
      assert SlotOf(s.threads[t]) == SlotOf(s.threads[u]);
    }
  }

  // ---- Two runs on one record ----

  /** The lookup found this record. */
  predicate LandsOn(ss: seq<State>, ls: seq<Label>, b: nat, i: nat) {
    && b < |ls| && b + 1 < |ss| && ls[b].Find? && ls[b].tid in ss[b + 1].threads
    && ss[b + 1].threads[ls[b].tid].Creating? && ss[b + 1].threads[ls[b].tid].run.id == i
  }

  predicate WorksOn(s: State, t: nat, i: nat) {
    t in s.threads && s.threads[t].Creating? && s.threads[t].run.id == i
  }

  /** Every create run was started by a lookup of its own that found its record. */
  lemma {:induction false} RunLanded(ss: seq<State>, ls: seq<Label>, t: nat, i: nat, k: nat) returns (b: nat)
    requires IsHistory(ss, ls) && k < |ss| && WorksOn(ss[k], t, i)
    ensures b < k && LandsOn(ss, ls, b, i) && ls[b].tid == t
  {
    WorkedBefore(ss, ls, t, i, k);
    if WorksOn(ss[k - 1], t, i) {
      b := RunLanded(ss, ls, t, i, k - 1);
    } else {
      b := k - 1;
    }
  }

  lemma WorkedBefore(ss: seq<State>, ls: seq<Label>, t: nat, i: nat, k: nat)
    requires IsHistory(ss, ls) && k < |ss| && WorksOn(ss[k], t, i)
    ensures k > 0 && (WorksOn(ss[k - 1], t, i) || (LandsOn(ss, ls, k - 1, i) && ls[k - 1].tid == t))
  {
    assert Enabled(ss[k - 1], ls[k - 1]) && ss[k] == Next(ss[k - 1], ls[k - 1]);
    RunGrows(ss, ls, k - 1, k - 1);
    WorkBegins(ss[k - 1], ls[k - 1], t, i);
  }

  lemma WorkBegins(s: State, l: Label, t: nat, i: nat)
    requires WF(s) && Coherent(s) && Enabled(s, l) && WorksOn(Next(s, l), t, i)
    ensures WorksOn(s, t, i) || (l.Find? && l.tid == t)
  {
    StepGrows(s, l);
    if t in s.threads && s.threads[t].Creating? {
      assert PcGrows(s.threads[t], Next(s, l).threads[t]);
    } else {
      NewThreadStarts(s, l, t);
    }
  }

  lemma LandedWorks(ss: seq<State>, ls: seq<Label>, b: nat, i: nat, k: nat)
    requires IsHistory(ss, ls) && b < k < |ss| && LandsOn(ss, ls, b, i)
    ensures WorksOn(ss[k], ls[b].tid, i)
  {
    RunGrows(ss, ls, b + 1, k);
    assert PcGrows(ss[b + 1].threads[ls[b].tid], ss[k].threads[ls[b].tid]);
  }

  /** Lookups of different steps are those of different workers. */
  lemma LandingsDiffer(ss: seq<State>, ls: seq<Label>, b: nat, c: nat, i: nat)
    requires IsHistory(ss, ls) && b < c && LandsOn(ss, ls, b, i) && LandsOn(ss, ls, c, i)
    ensures ls[b].tid != ls[c].tid
  {
    LandedWorks(ss, ls, b, i, c);
    assert Enabled(ss[c], ls[c]);
  }

  ghost predicate TwoLandings(ss: seq<State>, ls: seq<Label>, i: nat, k: nat) {
    exists b: nat, c: nat :: b < c < k && LandsOn(ss, ls, b, i) && LandsOn(ss, ls, c, i)
  }

  /** A record has two create runs if and only if two lookups found it; and then at least one of them
      found it in place of the record that had queued its name. */
  lemma RunsTwice(ss: seq<State>, ls: seq<Label>, i: nat, k: nat)
    requires IsHistory(ss, ls) && k < |ss|
    ensures (exists t: nat, u: nat :: t != u && WorksOn(ss[k], t, i) && WorksOn(ss[k], u, i)) <==>
            TwoLandings(ss, ls, i, k)
    ensures forall b: nat, c: nat | b < c < k && LandsOn(ss, ls, b, i) && LandsOn(ss, ls, c, i) ::
              !Undisturbed(ss, ls, b) || !Undisturbed(ss, ls, c)
  {
    if t: nat, u: nat :| t != u && WorksOn(ss[k], t, i) && WorksOn(ss[k], u, i) {
      RunsLanded(ss, ls, t, u, i, k);
    }
    forall b: nat, c: nat | b < c < k && LandsOn(ss, ls, b, i) && LandsOn(ss, ls, c, i)
      ensures exists t: nat, u: nat :: t != u && WorksOn(ss[k], t, i) && WorksOn(ss[k], u, i)
      ensures !Undisturbed(ss, ls, b) || !Undisturbed(ss, ls, c)
    {
      LandingsWork(ss, ls, b, c, i, k);
      OneLandingIsDisturbed(ss, ls, b, c, i);
    }
  }

  lemma RunsLanded(ss: seq<State>, ls: seq<Label>, t: nat, u: nat, i: nat, k: nat)
    requires IsHistory(ss, ls) && k < |ss| && t != u && WorksOn(ss[k], t, i) && WorksOn(ss[k], u, i)
    ensures TwoLandings(ss, ls, i, k)
  {
    var b := RunLanded(ss, ls, t, i, k);
    var c := RunLanded(ss, ls, u, i, k);
    assert b < c || c < b;
  }

  lemma LandingsWork(ss: seq<State>, ls: seq<Label>, b: nat, c: nat, i: nat, k: nat)
    requires IsHistory(ss, ls) && k < |ss| && b < c < k && LandsOn(ss, ls, b, i) && LandsOn(ss, ls, c, i)
    ensures exists t: nat, u: nat :: t != u && WorksOn(ss[k], t, i) && WorksOn(ss[k], u, i)
  {
    LandedWorks(ss, ls, b, i, k);
    LandedWorks(ss, ls, c, i, k);
    LandingsDiffer(ss, ls, b, c, i);
  }

  lemma OneLandingIsDisturbed(ss: seq<State>, ls: seq<Label>, b: nat, c: nat, i: nat)
    requires IsHistory(ss, ls) && b < c && LandsOn(ss, ls, b, i) && LandsOn(ss, ls, c, i)
    ensures !Undisturbed(ss, ls, b) || !Undisturbed(ss, ls, c)
  {
    LookupIsRight(ss, ls, b);
    LookupIsRight(ss, ls, c);
    QueuedApart(ss, ls, b, c, i);
  }

  lemma QueuedApart(ss: seq<State>, ls: seq<Label>, b: nat, c: nat, i: nat)
    requires IsHistory(ss, ls) && b < c && LandsOn(ss, ls, b, i) && LandsOn(ss, ls, c, i)
    ensures QueuedFor(ss[b], ls[b].tid) != QueuedFor(ss[c], ls[c].tid)
  {
    SlotKept(ss, ls, b, c, i);
    LandingsDiffer(ss, ls, b, c, i);
    HistoryServes(ss, ls, c);
    HistoryConserves(ss, ls, c);
  }

  lemma SlotKept(ss: seq<State>, ls: seq<Label>, b: nat, c: nat, i: nat)
    requires IsHistory(ss, ls) && b < c < |ls| && LandsOn(ss, ls, b, i)
    ensures WorksOn(ss[c], ls[b].tid, i) && ss[c].threads[ls[b].tid].run.slot == ss[b].threads[ls[b].tid].slot
    ensures ss[b].sent <= ss[c].sent
  {
    RunGrows(ss, ls, b, c);
    assert PcGrows(ss[b].threads[ls[b].tid], ss[c].threads[ls[b].tid]);
    LandedWorks(ss, ls, b, i, c);
  }
}

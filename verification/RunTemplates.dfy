/** Which loaded ConfigMap a create run works with. */
module RunTemplates {
  import opened Wrappers
  import opened Records
  import TI = TemplateIndex
  import opened TemplateHistory
  import opened Protocol
  import opened Tokens

  // ---- The index in a history ----

  /** The ConfigMap events among the first k steps. */
  function EventsBefore(ls: seq<Label>, k: nat): seq<TI.Event>
    requires k <= |ls|
  {
    if k == 0 then []
    else EventsBefore(ls, k - 1) + if ls[k - 1].TemplateEvent? then [ls[k - 1].event] else []
  }

  lemma {:induction false} EventsAreAPrefix(ls: seq<Label>, j: nat, k: nat)
    requires j <= k <= |ls|
    ensures EventsBefore(ls, j) <= EventsBefore(ls, k)
  {
    if j < k {
      EventsAreAPrefix(ls, j, k - 1);
    }
  }

  lemma OnlyEventsIndex(s: State, l: Label)
    requires WF(s) && Enabled(s, l)
    ensures Next(s, l).index == if l.TemplateEvent? then TI.Apply(s.index, l.event) else s.index
  {
    match l
    case Work(tid, act) => assert Next(s, l).index == NextWork(s, tid, EffectOf(s, tid, act)).index;
    case Request(tid, name, p) => assert Next(s, l) == NextRequest(s, tid, name, p);
    case PodEvent(tid, name, obj) => assert Next(s, l).index == NextPodEvent(s, tid, name, obj).index;
    case _ =>
  }

  /** The template maps are those that the ConfigMap events so far give, whatever else went on. */
  lemma {:induction false} IndexIsAfterEvents(ss: seq<State>, ls: seq<Label>, k: nat)
    requires IsHistory(ss, ls) && k < |ss|
    ensures ss[k].index == IndexAfter(EventsBefore(ls, k))
  {
    if k > 0 {
      IndexIsAfterEvents(ss, ls, k - 1);
      assert Enabled(ss[k - 1], ls[k - 1]) && ss[k] == Next(ss[k - 1], ls[k - 1]);
      OnlyEventsIndex(ss[k - 1], ls[k - 1]);
      if ls[k - 1].TemplateEvent? {
        var es, e := EventsBefore(ls, k - 1), ls[k - 1].event;
        assert EventsBefore(ls, k) == es + [e] && (es + [e])[..|es|] == es;
      } else {
        assert EventsBefore(ls, k) == EventsBefore(ls, k - 1);
      }
    }
  }

  // ---- The template of a run ----

  predicate HasTemplate(s: State, tid: nat, t: Template) {
    tid in s.threads && s.threads[tid].Creating? && s.threads[tid].run.template == Some(t)
  }

  /** The run takes this template, for its record's application. */
  ghost predicate Takes(s: State, l: Label, tid: nat, t: Template) {
    && l.Work? && l.tid == tid && l.act.FindTemplate? && tid in s.threads && s.threads[tid].Creating?
    && s.threads[tid].run.id < |s.recs| && s.recs[s.threads[tid].run.id].application == t.application
    && t.application in s.index.byApplication && s.index.byApplication[t.application] == t
  }

  lemma ActTakes(tid: nat, pc: Pc, rec: Odp, now: int, byApplication: map<string, Template>, act: Act)
    requires ActEnabled(pc, act) && (pc.Creating? ==> StageOk(pc.run, pc.stage))
    ensures var e := ActEffect(tid, pc, rec, now, byApplication, act);
            && (e.pc.Creating? ==> pc.Creating? && e.pc.run.id == pc.run.id)
            && (e.pc.Creating? && e.pc.run.template != pc.run.template ==>
                  act.FindTemplate? && rec.application in byApplication &&
                  e.pc.run.template == Some(byApplication[rec.application]))
  {
  }

  lemma TemplateBegins(s: State, l: Label, tid: nat, t: Template)
    requires WF(s) && Enabled(s, l) && HasTemplate(Next(s, l), tid, t)
    ensures HasTemplate(s, tid, t) || Takes(s, l, tid, t)
  {
    StepOneThread(s, l);
    if l.Work? && l.tid == tid {
      assert PcOk(s, s.threads[tid]);
      ActTakes(tid, s.threads[tid], s.recs[RecordOf(s.threads[tid])], s.now, s.index.byApplication, l.act);
    } else if HasThread(l) && l.tid == tid {
      NewThreadKind(s, l);
    }
  }

  lemma {:induction false} TemplateWasTaken(ss: seq<State>, ls: seq<Label>, tid: nat, t: Template, k: nat)
      returns (j: nat)
    requires IsHistory(ss, ls) && k < |ss| && HasTemplate(ss[k], tid, t)
    ensures j < k && Takes(ss[j], ls[j], tid, t)
  {
    assert k > 0 && Enabled(ss[k - 1], ls[k - 1]) && ss[k] == Next(ss[k - 1], ls[k - 1]);
    TemplateBegins(ss[k - 1], ls[k - 1], tid, t);
    if HasTemplate(ss[k - 1], tid, t) {
      j := TemplateWasTaken(ss, ls, tid, t, k - 1);
    } else {
      j := k - 1;
    }
  }

  /** The template a create run works with is the last that was loaded for its record's application
      when the run looked for one, with no delete since of a ConfigMap then standing for it. */
  lemma RunHasLastLoad(ss: seq<State>, ls: seq<Label>, tid: nat, t: Template, k: nat) returns (j: nat, p: nat)
    requires IsHistory(ss, ls) && k < |ss| && HasTemplate(ss[k], tid, t)
    ensures j < k && Takes(ss[j], ls[j], tid, t) && LastLoadFor(EventsBefore(ls, j), t.application, t, p)
  {
    j := TemplateWasTaken(ss, ls, tid, t, k);
    p := TakenIsLastLoad(ss, ls, tid, t, j);
  }

  lemma TakenIsLastLoad(ss: seq<State>, ls: seq<Label>, tid: nat, t: Template, j: nat) returns (p: nat)
    requires IsHistory(ss, ls) && j < |ls| && Takes(ss[j], ls[j], tid, t)
    ensures LastLoadFor(EventsBefore(ls, j), t.application, t, p)
  {
    IndexIsAfterEvents(ss, ls, j);
    ByApplicationIsLastLoad(EventsBefore(ls, j), t.application, t);
    p :| LastLoadFor(EventsBefore(ls, j), t.application, t, p);
  }

  // ---- Runs without a Pod template ----

  /** Each event that loads a ConfigMap loads this version of it. */
  predicate Versions(es: seq<TI.Event>, cms: seq<TI.ConfigMap>, parses: TI.Parser) {
    && |cms| == |es|
    && forall p | 0 <= p < |es| && es[p].Changed? :: es[p].loaded == TI.Load(es[p].name, cms[p], parses)
  }

  /** A create run works without a Pod template, which it cannot execute, if and only if the version of
      the ConfigMap it works with has no template key: both annotations are enough for it to be loaded. */
  lemma RunWithoutPodTemplate(ss: seq<State>, ls: seq<Label>, cms: seq<TI.ConfigMap>, parses: TI.Parser, tid: nat,
                              t: Template, k: nat)
      returns (j: nat, p: nat)
    requires IsHistory(ss, ls) && k < |ss| && HasTemplate(ss[k], tid, t) && Versions(EventsBefore(ls, k), cms, parses)
    ensures j < k && Takes(ss[j], ls[j], tid, t) && LastLoadFor(EventsBefore(ls, j), t.application, t, p)
    ensures p < |cms| && TI.Load(t.configMapName, cms[p], parses) == Some(t)
    ensures TI.StandsFor(t, t.configMapName, cms[p])
    ensures t.podTemplate.None? <==> TI.TEMPLATE_KEY !in cms[p].data
  {
    j, p := RunHasLastLoad(ss, ls, tid, t, k);
    EventsAreAPrefix(ls, j, k);
    assert EventsBefore(ls, k)[p] == EventsBefore(ls, j)[p];
    TI.LoadStandsFor(t.configMapName, cms[p], parses);
  }

  /** And such a run comes as far as executing it: for every ConfigMap with both annotations, no
      template key and a group the user is in. */
  lemma NilTemplateIsReached(name: string, p: Param, configMap: string, cm: TI.ConfigMap, parses: TI.Parser,
                             user: UserInfo, tok: Token, errorTTL: int, now: int)
      returns (s: State)
    requires ANN_APPLICATION in cm.annotations && cm.annotations[ANN_APPLICATION] == p.application
    requires ANN_ACCESS_GROUPS in cm.annotations && TI.TEMPLATE_KEY !in cm.data
    requires AccessAllowed(TI.Load(configMap, cm, parses).value, user)
    ensures Reachable(s) && 1 in s.threads && s.threads[1].Creating? && s.threads[1].stage == AtRender
    ensures s.threads[1].run.template.Some? && s.threads[1].run.template.value.podTemplate.None?
  {
    var tmpl := TI.Load(configMap, cm, parses).value;
    s := StartOneRun(name, p, tmpl, errorTTL, now);
    s := Authorise(s, 1, 0, tmpl, user);
    if p.tokenTypes != [] {
      s := Obtain(s, 1, 0, tok);
    }
  }
}

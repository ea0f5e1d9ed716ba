/**
 The two template maps and the events that change them
 (internal/factory/factory_templateevents.go).
 */
module TemplateIndex {
  import opened Wrappers
  import opened Records
  import Text

  datatype Index = Index(byName: map<string, Template>, byApplication: map<string, Template>)

  const EMPTY := Index(map[], map[])

  /** One handled ConfigMap event: the ConfigMap is gone, or this is what loading it gave. */
  datatype Event = Deleted(name: string) | Changed(name: string, loaded: Option<Template>)

  /** Loading the ConfigMap called `name` gives a template that carries that name. */
  predicate EventOk(e: Event) {
    e.Changed? && e.loaded.Some? ==> e.loaded.value.configMapName == e.name
  }

  function Apply(ix: Index, e: Event): Index {
    match e
    case Deleted(n) =>
      if n in ix.byName
      then Index(ix.byName - {n}, ix.byApplication - {ix.byName[n].application})
      else ix
    case Changed(n, None) => ix
    case Changed(n, Some(t)) => Index(ix.byName[n := t], ix.byApplication[t.application := t])
  }

  ghost predicate IndexOk(ix: Index) {
    && (forall n | n in ix.byName :: ix.byName[n].configMapName == n)
    && (forall a | a in ix.byApplication :: ix.byApplication[a].application == a)
  }

  // ---- Loading a ConfigMap ----

  const TEMPLATE_KEY := "template"

  datatype ConfigMap = ConfigMap(annotations: Strings, data: Strings)

  /** Whether the template engine accepts a text for an application: nothing is assumed about it. */
  type Parser = (string, string) -> bool

  /** The template a ConfigMap stands for, if it has both annotations and its template parses. */
  function Load(name: string, cm: ConfigMap, parses: Parser): (t: Option<Template>)
    ensures EventOk(Changed(name, t))
  {
    if ANN_APPLICATION !in cm.annotations || ANN_ACCESS_GROUPS !in cm.annotations then None
    else
      var application := cm.annotations[ANN_APPLICATION];
      if TEMPLATE_KEY in cm.data && !parses(application, cm.data[TEMPLATE_KEY]) then None
      else Some(Template(name, application, Text.Split(cm.annotations[ANN_ACCESS_GROUPS], ','),
                         map k | k in cm.data && k != TEMPLATE_KEY :: cm.data[k],
                         if TEMPLATE_KEY in cm.data then Some(cm.data[TEMPLATE_KEY]) else None))
  }

  /** The template carries the ConfigMap's name, application, access groups, template text, and the
      rest of its data; the groups are the pieces of their annotation between commas. */
  ghost predicate StandsFor(t: Template, name: string, cm: ConfigMap) {
    && t.configMapName == name
    && "com.ericsson.odp.application" in cm.annotations
    && t.application == cm.annotations["com.ericsson.odp.application"]
    && "com.ericsson.odp.accessgroups" in cm.annotations
    && t.accessGroups != [] && Text.Join(t.accessGroups, ',') == cm.annotations["com.ericsson.odp.accessgroups"]
    && (forall g | g in t.accessGroups :: ',' !in g)
    && (forall k :: k in t.data <==> k in cm.data && k != "template")
    && (forall k | k in t.data :: t.data[k] == cm.data[k])
    && (t.podTemplate.Some? <==> "template" in cm.data)
    && (t.podTemplate.Some? ==> t.podTemplate.value == cm.data["template"])
  }

  /** That determines the template. */
  lemma StandsForOnce(t: Template, u: Template, name: string, cm: ConfigMap)
    requires StandsFor(t, name, cm) && StandsFor(u, name, cm)
    ensures t == u
  {
    Text.SplitJoin(t.accessGroups, ',');
    Text.SplitJoin(u.accessGroups, ',');
    assert t.data == u.data;
  }

  /** Both annotations are there, and the template parses if there is one. */
  predicate Loadable(cm: ConfigMap, parses: Parser) {
    && "com.ericsson.odp.application" in cm.annotations
    && "com.ericsson.odp.accessgroups" in cm.annotations
    && ("template" in cm.data ==> parses(cm.annotations["com.ericsson.odp.application"], cm.data["template"]))
  }

  lemma LoadStandsFor(name: string, cm: ConfigMap, parses: Parser)
    ensures Load(name, cm, parses).Some? <==> Loadable(cm, parses)
    ensures Load(name, cm, parses).Some? ==> StandsFor(Load(name, cm, parses).value, name, cm)
  {
    if ANN_ACCESS_GROUPS in cm.annotations {
      Text.JoinSplit(cm.annotations[ANN_ACCESS_GROUPS], ',');
    }
  }

  // factory_templateevents.go:16-65
  method HandleConfigMapEventLoad(name: string, cm: ConfigMap, parses: Parser) returns (odpTemplate: Option<Template>)
    ensures odpTemplate == Load(name, cm, parses)
    ensures odpTemplate.Some? <==> Loadable(cm, parses)
    ensures odpTemplate.Some? ==> StandsFor(odpTemplate.value, name, cm)
  {
    LoadStandsFor(name, cm, parses);
    if ANN_APPLICATION !in cm.annotations {
      return None;
    }
    var application := cm.annotations[ANN_APPLICATION];
    if ANN_ACCESS_GROUPS !in cm.annotations {
      return None;
    }
    var accessGroups := Text.Split(cm.annotations[ANN_ACCESS_GROUPS], ',');
    var ok, data, podTemplate := ReadData(application, cm.data, parses);
    if !ok {
      return None;
    }
    odpTemplate := Some(Template(name, application, accessGroups, data, podTemplate));
  }

  // factory_templateevents.go:43-62: the data comes in any order.
  method ReadData(application: string, content: Strings, parses: Parser)
      returns (ok: bool, data: Strings, podTemplate: Option<string>)
    ensures ok <==> !(TEMPLATE_KEY in content && !parses(application, content[TEMPLATE_KEY]))
    ensures ok ==> data == map k | k in content && k != TEMPLATE_KEY :: content[k]
    ensures ok ==> podTemplate == if TEMPLATE_KEY in content then Some(content[TEMPLATE_KEY]) else None
  {
    ok, data, podTemplate := true, map[], None;
    var rest := content.Keys;
    while rest != {}
      invariant rest <= content.Keys
      invariant data == map k | k in content && k !in rest && k != TEMPLATE_KEY :: content[k]
      invariant podTemplate == if TEMPLATE_KEY in content && TEMPLATE_KEY !in rest
                               then Some(content[TEMPLATE_KEY]) else None
      invariant TEMPLATE_KEY in content && TEMPLATE_KEY !in rest ==> parses(application, content[TEMPLATE_KEY])
      decreases |rest|
    {
      var key :| key in rest;
      var value := content[key];
      if key == TEMPLATE_KEY {
        if parses(application, value) {
          podTemplate := Some(value);
        } else {
          ok := false;
          return;
        }
      } else {
        data := data[key := value];
      }
      rest := rest - {key};
    }
    assert data == map k | k in content && k != TEMPLATE_KEY :: content[k];
  }
}

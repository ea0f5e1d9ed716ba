/** Merging global and service tolerations (templates/common/_tolerations-merge.tpl). */
module Tolerations {
  import opened Text

  datatype Toleration = Toleration(fields: map<string, string>)

  function KeyValue(t: Toleration, key: string): seq<string> {
    if key in t.fields then [key + "=" + t.fields[key]] else []
  }

  /** All keys but tolerationSeconds identify a toleration; they are taken in alphabetical order. */
  function Identifier(t: Toleration): string {
    Join(KeyValue(t, "effect") + KeyValue(t, "key") + KeyValue(t, "operator") + KeyValue(t, "value"), ',')
  }

  /** What items are counted by: an identifier, or the item itself. */
  datatype Trait = Id(id: string) | Item(item: Toleration)

  predicate Has(ident: Toleration -> string, t: Toleration, tr: Trait) {
    match tr
    case Id(id) => ident(t) == id
    case Item(item) => t == item
  }

  /** Items that share the trait share this identifier. */
  function IdOf(ident: Toleration -> string, tr: Trait): string {
    match tr
    case Id(id) => id
    case Item(item) => ident(item)
  }

  function Count(ident: Toleration -> string, items: seq<Toleration>, tr: Trait): nat {
    if items == [] then 0
    else Count(ident, items[..|items| - 1], tr) + if Has(ident, items[|items| - 1], tr) then 1 else 0
  }

  /** The items with this identifier, in order. */
  function WithId(ident: Toleration -> string, items: seq<Toleration>, id: string): seq<Toleration> {
    if items == [] then []
    else
      var last := items[|items| - 1];
      WithId(ident, items[..|items| - 1], id) + if ident(last) == id then [last] else []
  }

  /** For each global item in turn, the service items that share its identifier. */
  function Matching(ident: Toleration -> string, globals: seq<Toleration>, services: seq<Toleration>): seq<Toleration> {
    if globals == [] then []
    else Matching(ident, globals[..|globals| - 1], services) + WithId(ident, services, ident(globals[|globals| - 1]))
  }

  /** The items that share their identifier with none of these. */
  function Unmatched(ident: Toleration -> string, items: seq<Toleration>, matching: seq<Toleration>): seq<Toleration> {
    if items == [] then []
    else
      var last := items[|items| - 1];
      Unmatched(ident, items[..|items| - 1], matching) +
      if Count(ident, matching, Id(ident(last))) == 0 then [last] else []
  }

  function Merge(ident: Toleration -> string, globals: seq<Toleration>, services: seq<Toleration>): seq<Toleration> {
    var matching := Matching(ident, globals, services);
    matching + Unmatched(ident, globals, matching) + Unmatched(ident, services, matching)
  }

  /** The service's value: nothing, a list, or a list for each Pod base name. */
  datatype ServiceValue = Absent | ListOf(items: seq<Toleration>) | ByPod(lists: map<string, seq<Toleration>>)

  function Select(v: ServiceValue, podBaseName: string): seq<Toleration> {
    match v
    case Absent => []
    case ListOf(items) => items
    case ByPod(lists) => if podBaseName in lists then lists[podBaseName] else []
  }

  // ---- The loops ----

  /** Alphabetical order. */
  predicate Before(a: string, b: string) {
    b != [] && (a == [] || a[0] < b[0] || (a[0] == b[0] && Before(a[1..], b[1..])))
  }

  ghost predicate Sorted(keys: seq<string>) {
    forall i, j :: 0 <= i < j < |keys| ==> Before(keys[i], keys[j])
  }

  function Among(t: Toleration, key: string, keys: seq<string>): seq<string> {
    if key in keys then KeyValue(t, key) else []
  }

  function AllAmong(t: Toleration, keys: seq<string>): seq<string> {
    Among(t, "effect", keys) + Among(t, "key", keys) + Among(t, "operator", keys) + Among(t, "value", keys)
  }

  /** `keys` are the item's keys in alphabetical order. */
  method GetIdentifier(t: Toleration, keys: seq<string>) returns (id: string)
    requires Sorted(keys) && forall k :: k in keys <==> k in t.fields
    ensures id == Identifier(t)
  {
    var keyValues: seq<string> := [];
    for i := 0 to |keys|
      invariant keyValues == AllAmong(t, keys[..i])
    {
      var key := keys[i];
      NextKey(t, keys, i);
      if key == "effect" || key == "key" || key == "operator" || key == "value" {
        keyValues := keyValues + [key + "=" + t.fields[key]];
      }
    }
    assert keys[..|keys|] == keys;
    id := Join(keyValues, ',');
  }

  lemma NextKey(t: Toleration, keys: seq<string>, i: nat)
    requires Sorted(keys) && i < |keys| && keys[i] in t.fields
    ensures AllAmong(t, keys[..i + 1]) == AllAmong(t, keys[..i]) +
            if keys[i] in {"effect", "key", "operator", "value"} then KeyValue(t, keys[i]) else []
  {
    KeyOrder();
    NextOfFour(t, keys, i, "effect", "key", "operator", "value");
  }

  lemma KeyOrder()
    ensures Before("effect", "key") && Before("key", "operator") && Before("operator", "value")
    ensures Before("effect", "operator") && Before("effect", "value") && Before("key", "value")
  {
  }

  /** When keys come in order, so do those of four keys that are among them. */
  lemma NextOfFour(t: Toleration, keys: seq<string>, i: nat, a: string, b: string, c: string, d: string)
    requires Sorted(keys) && i < |keys|
    requires Before(a, b) && Before(b, c) && Before(c, d) && Before(a, c) && Before(a, d) && Before(b, d)
    ensures Among(t, a, keys[..i + 1]) + Among(t, b, keys[..i + 1]) +
            Among(t, c, keys[..i + 1]) + Among(t, d, keys[..i + 1]) ==
            Among(t, a, keys[..i]) + Among(t, b, keys[..i]) + Among(t, c, keys[..i]) + Among(t, d, keys[..i]) +
            if keys[i] in {a, b, c, d} then KeyValue(t, keys[i]) else []
  {
    var key, sofar := keys[i], keys[..i];
    assert keys[..i + 1] == sofar + [key];
    MoreAmong(t, a, sofar, key);
    MoreAmong(t, b, sofar, key);
    MoreAmong(t, c, sofar, key);
    MoreAmong(t, d, sofar, key);
    Asymmetric(a, b);
    Asymmetric(a, c);
    Asymmetric(a, d);
    Asymmetric(b, c);
    Asymmetric(b, d);
    Asymmetric(c, d);
    forall later | Before(key, later) || later == key ensures later !in sofar {
      NoneBefore(keys, i, later);
    }
  }

  lemma MoreAmong(t: Toleration, wanted: string, keys: seq<string>, key: string)
    ensures Among(t, wanted, keys + [key]) == if wanted == key then KeyValue(t, key) else Among(t, wanted, keys)
  {
  }

  lemma NoneBefore(keys: seq<string>, i: nat, later: string)
    requires Sorted(keys) && i < |keys| && (Before(keys[i], later) || later == keys[i])
    ensures later !in keys[..i]
  {
    if later in keys[..i] {
      var k :| 0 <= k < i && keys[k] == later;
      Asymmetric(later, keys[i]);
    }
  }

  lemma {:induction false} Asymmetric(a: string, b: string)
    requires Before(a, b)
    ensures !Before(b, a) && a != b
  {
    if a != [] && a[0] == b[0] {
      Asymmetric(a[1..], b[1..]);
    }
  }

  method FindMatching(ident: Toleration -> string, globals: seq<Toleration>, services: seq<Toleration>)
      returns (matching: seq<Toleration>)
    ensures matching == Matching(ident, globals, services)
  {
    matching := [];
    for i := 0 to |globals|
      invariant matching == Matching(ident, globals[..i], services)
    {
      var globalId := ident(globals[i]);
      ghost var before := matching;
      for j := 0 to |services|
        invariant matching == before + WithId(ident, services[..j], globalId)
      {
        assert services[..j + 1][..j] == services[..j];
        if ident(services[j]) == globalId {
          matching := matching + [services[j]];
        }
      }
      assert services[..|services|] == services && globals[..i + 1][..i] == globals[..i];
    }
    assert globals[..|globals|] == globals;
  }

  method FindUnmatched(ident: Toleration -> string, items: seq<Toleration>, matching: seq<Toleration>)
      returns (unmatched: seq<Toleration>)
    ensures unmatched == Unmatched(ident, items, matching)
  {
    unmatched := [];
    for i := 0 to |items|
      invariant unmatched == Unmatched(ident, items[..i], matching)
    {
      var id := ident(items[i]);
      var matchCount := 0;
      for j := 0 to |matching|
        invariant matchCount == Count(ident, matching[..j], Id(id))
      {
        assert matching[..j + 1][..j] == matching[..j];
        if ident(matching[j]) == id {
          matchCount := matchCount + 1;
        }
      }
      assert matching[..|matching|] == matching && items[..i + 1][..i] == items[..i];
      if matchCount == 0 {
        unmatched := unmatched + [items[i]];
      }
    }
    assert items[..|items|] == items;
  }

  // ---- What an identifier says ----

  /** The items agree on this field: both lack it, or both have it with one value. */
  predicate SameField(a: Toleration, b: Toleration, key: string) {
    (key in a.fields <==> key in b.fields) && (key in a.fields && key in b.fields ==> a.fields[key] == b.fields[key])
  }

  /** The items agree on all that identifies a toleration. */
  predicate Agree(a: Toleration, b: Toleration) {
    SameField(a, b, "effect") && SameField(a, b, "key") && SameField(a, b, "operator") && SameField(a, b, "value")
  }

  /** No value holds a comma, as is so of the fields of a Kubernetes toleration. */
  predicate Clean(t: Toleration) {
    forall k | k in t.fields :: ',' !in t.fields[k]
  }

  /** At most one piece, which begins with this letter. */
  predicate Lettered(pieces: seq<string>, letter: char) {
    |pieces| <= 1 && forall p | p in pieces :: p != "" && p[0] == letter
  }

  predicate NoneLettered(pieces: seq<string>, letter: char) {
    forall p | p in pieces :: p != "" && p[0] != letter
  }

  lemma FirstPartSame(a: seq<string>, b: seq<string>, a': seq<string>, b': seq<string>, letter: char)
    requires Lettered(a, letter) && Lettered(b, letter) && NoneLettered(a', letter) && NoneLettered(b', letter)
    requires a + a' == b + b'
    ensures a == b && a' == b'
  {
    var all := a + a';
    if all != [] {
      assert all[0] == if a != [] then a[0] else a'[0];
      assert all[0] == if b != [] then b[0] else b'[0];
      assert a != [] ==> a[0] in a;
      assert b != [] ==> b[0] in b;
      assert a == [] ==> a'[0] in a';
      assert b == [] ==> b'[0] in b';
    }
    assert |a| == |b|;
    assert all[..|a|] == a && all[..|b|] == b && all[|a|..] == a' && all[|b|..] == b';
  }

  lemma KeyValueLettered(t: Toleration, key: string)
    requires key != "" && ',' !in key && Clean(t)
    ensures Lettered(KeyValue(t, key), key[0]) && forall p | p in KeyValue(t, key) :: ',' !in p
  {
  }

  lemma SameKeyValue(a: Toleration, b: Toleration, key: string)
    ensures KeyValue(a, key) == KeyValue(b, key) <==> SameField(a, b, key)
  {
    if key in a.fields && key in b.fields {
      assert (key + "=" + a.fields[key])[|key| + 1..] == a.fields[key];
      assert (key + "=" + b.fields[key])[|key| + 1..] == b.fields[key];
    }
  }

  function KeyValues(t: Toleration): seq<string> {
    KeyValue(t, "effect") + (KeyValue(t, "key") + (KeyValue(t, "operator") + KeyValue(t, "value")))
  }

  lemma KeyValuesSayWhatIsSame(a: Toleration, b: Toleration)
    requires Clean(a) && Clean(b) && KeyValues(a) == KeyValues(b)
    ensures Agree(a, b)
  {
    forall t, k | t in {a, b} && k in {"effect", "key", "operator", "value"}
      ensures Lettered(KeyValue(t, k), k[0]) {
      KeyValueLettered(t, k);
    }
    FirstPartSame(KeyValue(a, "effect"), KeyValue(b, "effect"),
                  KeyValue(a, "key") + (KeyValue(a, "operator") + KeyValue(a, "value")),
                  KeyValue(b, "key") + (KeyValue(b, "operator") + KeyValue(b, "value")), 'e');
    FirstPartSame(KeyValue(a, "key"), KeyValue(b, "key"), KeyValue(a, "operator") + KeyValue(a, "value"),
                  KeyValue(b, "operator") + KeyValue(b, "value"), 'k');
    FirstPartSame(KeyValue(a, "operator"), KeyValue(b, "operator"), KeyValue(a, "value"), KeyValue(b, "value"), 'o');
    SameKeyValue(a, b, "effect");
    SameKeyValue(a, b, "key");
    SameKeyValue(a, b, "operator");
    SameKeyValue(a, b, "value");
  }

  lemma KeyValuesAreJoined(t: Toleration)
    requires Clean(t)
    ensures Identifier(t) == Join(KeyValues(t), ',') && forall p | p in KeyValues(t) :: ',' !in p && p != ""
  {
    KeyValueLettered(t, "effect");
    KeyValueLettered(t, "key");
    KeyValueLettered(t, "operator");
    KeyValueLettered(t, "value");
    assert KeyValues(t) == KeyValue(t, "effect") + KeyValue(t, "key") + KeyValue(t, "operator") + KeyValue(t, "value");
  }

  lemma JoinedIsEmpty(pieces: seq<string>)
    requires forall p | p in pieces :: p != ""
    ensures Join(pieces, ',') == "" <==> pieces == []
  {
    if pieces != [] {
      assert pieces[0] in pieces;
    }
  }

  /** Two items have one identifier if and only if they agree on effect, key, operator and value. */
  lemma IdentifierIsFaithful(a: Toleration, b: Toleration)
    requires Clean(a) && Clean(b)
    ensures Identifier(a) == Identifier(b) <==> Agree(a, b)
  {
    KeyValuesAreJoined(a);
    KeyValuesAreJoined(b);
    if Identifier(a) == Identifier(b) {
      JoinedIsEmpty(KeyValues(a));
      JoinedIsEmpty(KeyValues(b));
      if KeyValues(a) != [] {
        SplitJoin(KeyValues(a), ',');
        SplitJoin(KeyValues(b), ',');
      }
      KeyValuesSayWhatIsSame(a, b);
    }
    if Agree(a, b) {
      SameKeyValue(a, b, "effect");
      SameKeyValue(a, b, "key");
      SameKeyValue(a, b, "operator");
      SameKeyValue(a, b, "value");
    }
  }

  /** With a comma in a value, items that differ can have one identifier. */
  lemma CommaHidesAField()
    ensures var a := Toleration(map["key" := "a,operator=Exists"]);
            var b := Toleration(map["key" := "a", "operator" := "Exists"]);
            Identifier(a) == Identifier(b) && !Agree(a, b)
  {
    var a := Toleration(map["key" := "a,operator=Exists"]);
    var b := Toleration(map["key" := "a", "operator" := "Exists"]);
    assert "key" + "=" + "a,operator=Exists" == "key=a,operator=Exists";
    assert "key" + "=" + "a" == "key=a" && "operator" + "=" + "Exists" == "operator=Exists";
    assert |"effect"| == 6 && |"key"| == 3 && |"operator"| == 8 && |"value"| == 5;
    assert Identifier(a) == Join(["key=a,operator=Exists"], ',');
    assert KeyValue(b, "effect") == [] && KeyValue(b, "key") == ["key=a"];
    assert KeyValue(b, "operator") == ["operator=Exists"] && KeyValue(b, "value") == [];
    assert [] + ["key=a"] + ["operator=Exists"] + [] == ["key=a", "operator=Exists"];
    assert Identifier(b) == Join(["key=a", "operator=Exists"], ',');
    assert "key=a" + [','] + "operator=Exists" == "key=a,operator=Exists";
    assert ["key=a", "operator=Exists"][1..] == ["operator=Exists"];
  }

  /** The item is in the service's list for this Pod. */
  predicate IsService(service: ServiceValue, podBaseName: string, t: Toleration) {
    match service
    case Absent => false
    case ListOf(items) => t in items
    case ByPod(lists) => podBaseName in lists && t in lists[podBaseName]
  }

  /** Some service item for this Pod agrees with the item. */
  ghost predicate Overridden(service: ServiceValue, podBaseName: string, t: Toleration) {
    exists x :: IsService(service, podBaseName, x) && Agree(x, t)
  }

  ghost predicate AllClean(globals: seq<Toleration>, service: ServiceValue, podBaseName: string) {
    && (forall t | t in globals :: Clean(t))
    && (forall t | IsService(service, podBaseName, t) :: Clean(t))
  }

  method MergeTolerations(globals: seq<Toleration>, service: ServiceValue, podBaseName: string)
      returns (result: seq<Toleration>)
    ensures result == Merge(Identifier, globals, Select(service, podBaseName))
    ensures AllClean(globals, service, podBaseName) ==>
              forall t :: t in result <==>
                IsService(service, podBaseName, t) || (t in globals && !Overridden(service, podBaseName, t))
  {
    MergedItems(globals, service, podBaseName);
    var services := Select(service, podBaseName);
    if globals != [] {
      var matching := FindMatching(Identifier, globals, services);
      var globalsLeft := FindUnmatched(Identifier, globals, matching);
      var servicesLeft := FindUnmatched(Identifier, services, matching);
      result := matching + globalsLeft + servicesLeft;
    } else {
      NothingMatched(Identifier, services);
      result := services;
    }
  }

  lemma {:induction false} NothingMatched(ident: Toleration -> string, items: seq<Toleration>)
    ensures Unmatched(ident, items, []) == items
  {
    if items != [] {
      NothingMatched(ident, items[..|items| - 1]);
      assert items == items[..|items| - 1] + [items[|items| - 1]];
    }
  }

  // ---- What the merge contains ----

  function Max(a: nat, b: nat): nat {
    if a < b then b else a
  }

  lemma {:induction false} CountSum(ident: Toleration -> string, a: seq<Toleration>, b: seq<Toleration>, tr: Trait)
    ensures Count(ident, a + b, tr) == Count(ident, a, tr) + Count(ident, b, tr)
  {
    if b == [] {
      assert a + b == a;
    } else {
      CountSum(ident, a, b[..|b| - 1], tr);
      assert (a + b)[..|a + b| - 1] == a + b[..|b| - 1];
    }
  }

  lemma CountOne(ident: Toleration -> string, t: Toleration, tr: Trait)
    ensures Count(ident, [t], tr) == if Has(ident, t, tr) then 1 else 0
  {
    assert [t][..0] == [];
    assert Count(ident, [], tr) == 0;
  }

  /** Whatever is counted is counted by its identifier too. */
  lemma {:induction false} CountById(ident: Toleration -> string, items: seq<Toleration>, tr: Trait)
    ensures Count(ident, items, tr) <= Count(ident, items, Id(IdOf(ident, tr)))
  {
    if items != [] {
      CountById(ident, items[..|items| - 1], tr);
    }
  }

  lemma {:induction false} WithIdCounts(ident: Toleration -> string, items: seq<Toleration>, wanted: string, tr: Trait)
    ensures Count(ident, WithId(ident, items, wanted), tr) ==
            if IdOf(ident, tr) == wanted then Count(ident, items, tr) else 0
  {
    if items != [] {
      var init, last := items[..|items| - 1], items[|items| - 1];
      WithIdCounts(ident, init, wanted, tr);
      if ident(last) == wanted {
        CountSum(ident, WithId(ident, init, wanted), [last], tr);
        CountOne(ident, last, tr);
      } else {
        assert WithId(ident, init, wanted) + [] == WithId(ident, init, wanted);
      }
    }
  }

  lemma {:induction false} MatchingCounts(ident: Toleration -> string, globals: seq<Toleration>,
                                          services: seq<Toleration>, tr: Trait)
    ensures Count(ident, Matching(ident, globals, services), tr) ==
            Count(ident, globals, Id(IdOf(ident, tr))) * Count(ident, services, tr)
  {
    if globals != [] {
      var init, last := globals[..|globals| - 1], globals[|globals| - 1];
      MatchingCounts(ident, init, services, tr);
      WithIdCounts(ident, services, ident(last), tr);
      CountSum(ident, Matching(ident, init, services), WithId(ident, services, ident(last)), tr);
      OneMore(Count(ident, init, Id(IdOf(ident, tr))), Count(ident, services, tr));
    }
  }

  lemma OneMore(a: nat, b: nat)
    ensures (a + 1) * b == a * b + b
  {
  }

  lemma {:induction false} UnmatchedCounts(ident: Toleration -> string, items: seq<Toleration>,
                                           matching: seq<Toleration>, tr: Trait)
    ensures Count(ident, Unmatched(ident, items, matching), tr) ==
            if Count(ident, matching, Id(IdOf(ident, tr))) == 0 then Count(ident, items, tr) else 0
  {
    if items != [] {
      var init, last := items[..|items| - 1], items[|items| - 1];
      UnmatchedCounts(ident, init, matching, tr);
      if Count(ident, matching, Id(ident(last))) == 0 {
        CountSum(ident, Unmatched(ident, init, matching), [last], tr);
        CountOne(ident, last, tr);
      } else {
        assert Unmatched(ident, init, matching) + [] == Unmatched(ident, init, matching);
      }
    }
  }

  /** How often an item, or an identifier, occurs: one of the service once for each global item with
      its identifier, but at least once; a global one exactly if no service item has its identifier. */
  lemma MergeCounts(ident: Toleration -> string, globals: seq<Toleration>, services: seq<Toleration>, tr: Trait)
    ensures Count(ident, Merge(ident, globals, services), tr) ==
            Count(ident, services, tr) * Max(1, Count(ident, globals, Id(IdOf(ident, tr)))) +
            if Count(ident, services, Id(IdOf(ident, tr))) == 0 then Count(ident, globals, tr) else 0
  {
    var matching, id := Matching(ident, globals, services), Id(IdOf(ident, tr));
    var g, s := Unmatched(ident, globals, matching), Unmatched(ident, services, matching);
    MatchingCounts(ident, globals, services, tr);
    MatchingCounts(ident, globals, services, id);
    UnmatchedCounts(ident, globals, matching, tr);
    UnmatchedCounts(ident, services, matching, tr);
    CountSum(ident, matching, g, tr);
    CountSum(ident, matching + g, s, tr);
    CountById(ident, globals, tr);
    CountById(ident, services, tr);
    Amount(Count(ident, globals, id), Count(ident, services, id),
           Count(ident, globals, tr), Count(ident, services, tr));
  }

  /** `g` and `s` count an identifier, `gx` and `sx` items among those. */
  lemma Amount(g: nat, s: nat, gx: nat, sx: nat)
    requires gx <= g && sx <= s
    ensures g * sx + (if g * s == 0 then gx else 0) + (if g * s == 0 then sx else 0) ==
            sx * Max(1, g) + if s == 0 then gx else 0
  {
    if g >= 1 && s >= 1 {
      assert g * s >= 1;
    }
  }

  lemma {:induction false} CountIsMultiplicity(ident: Toleration -> string, items: seq<Toleration>, x: Toleration)
    ensures multiset(items)[x] == Count(ident, items, Item(x))
  {
    if items != [] {
      var init, last := items[..|items| - 1], items[|items| - 1];
      CountIsMultiplicity(ident, init, x);
      assert items == init + [last];
    }
  }

  lemma MemberCounts(ident: Toleration -> string, items: seq<Toleration>, x: Toleration)
    ensures x in items <==> Count(ident, items, Item(x)) > 0
  {
    CountIsMultiplicity(ident, items, x);
    assert x in items <==> x in multiset(items);
  }

  /** A global item is kept exactly when no service item shares its identifier. */
  lemma GlobalIsKeptUnlessOverridden(ident: Toleration -> string, globals: seq<Toleration>, services: seq<Toleration>,
                                     x: Toleration)
    requires x in globals && x !in services
    ensures x in Merge(ident, globals, services) <==> Count(ident, services, Id(ident(x))) == 0
  {
    MemberCounts(ident, globals, x);
    MemberCounts(ident, services, x);
    MemberCounts(ident, Merge(ident, globals, services), x);
    KeptCounts(ident, globals, services, x);
  }

  lemma KeptCounts(ident: Toleration -> string, globals: seq<Toleration>, services: seq<Toleration>, x: Toleration)
    requires Count(ident, globals, Item(x)) > 0 && Count(ident, services, Item(x)) == 0
    ensures Count(ident, Merge(ident, globals, services), Item(x)) > 0 <==> Count(ident, services, Id(ident(x))) == 0
  {
    MergeCounts(ident, globals, services, Item(x));
    assert IdOf(ident, Item(x)) == ident(x);
  }

  lemma SharesIdentifier(ident: Toleration -> string, items: seq<Toleration>, id: string)
    ensures Count(ident, items, Id(id)) > 0 <==> exists x :: x in items && ident(x) == id
  {
    if items != [] {
      var init, last := items[..|items| - 1], items[|items| - 1];
      SharesIdentifier(ident, init, id);
      assert items == init + [last];
      assert last in items;
    }
  }

  lemma InMerge(ident: Toleration -> string, globals: seq<Toleration>, services: seq<Toleration>, x: Toleration)
    ensures x in Merge(ident, globals, services) <==>
            x in services || (x in globals && Count(ident, services, Id(ident(x))) == 0)
  {
    MemberCounts(ident, globals, x);
    MemberCounts(ident, services, x);
    MemberCounts(ident, Merge(ident, globals, services), x);
    ItemOccurs(ident, globals, services, x);
  }

  lemma ItemOccurs(ident: Toleration -> string, globals: seq<Toleration>, services: seq<Toleration>, x: Toleration)
    ensures Count(ident, Merge(ident, globals, services), Item(x)) > 0 <==>
            Count(ident, services, Item(x)) > 0 ||
            (Count(ident, globals, Item(x)) > 0 && Count(ident, services, Id(ident(x))) == 0)
  {
    MergeCounts(ident, globals, services, Item(x));
    assert IdOf(ident, Item(x)) == ident(x);
    Occurs(Count(ident, services, Item(x)), Max(1, Count(ident, globals, Id(ident(x)))),
           Count(ident, services, Id(ident(x))), Count(ident, globals, Item(x)));
  }

  lemma Occurs(sx: nat, m: nat, s: nat, gx: nat)
    requires m >= 1
    ensures sx * m + (if s == 0 then gx else 0) > 0 <==> sx > 0 || (gx > 0 && s == 0)
  {
    if sx > 0 {
      AtLeast(sx, m);
    } else {
      assert sx * m == 0;
    }
  }

  /** Exactly the service's items for the Pod are in the result, and the global ones with which none of
      those agrees on effect, key, operator and value. */
  lemma MergedItems(globals: seq<Toleration>, service: ServiceValue, podBaseName: string)
    ensures AllClean(globals, service, podBaseName) ==>
              forall t :: t in Merge(Identifier, globals, Select(service, podBaseName)) <==>
                IsService(service, podBaseName, t) || (t in globals && !Overridden(service, podBaseName, t))
  {
    if AllClean(globals, service, podBaseName) {
      forall t ensures t in Merge(Identifier, globals, Select(service, podBaseName)) <==>
                       IsService(service, podBaseName, t) ||
                       (t in globals && !Overridden(service, podBaseName, t)) {
        MergedItem(globals, service, podBaseName, t);
      }
    }
  }

  lemma MergedItem(globals: seq<Toleration>, service: ServiceValue, podBaseName: string, t: Toleration)
    requires AllClean(globals, service, podBaseName)
    ensures t in Merge(Identifier, globals, Select(service, podBaseName)) <==>
            IsService(service, podBaseName, t) || (t in globals && !Overridden(service, podBaseName, t))
  {
    var services := Select(service, podBaseName);
    assert forall x :: x in services <==> IsService(service, podBaseName, x);
    InMerge(Identifier, globals, services, t);
    SharesIdentifier(Identifier, services, Identifier(t));
    if t in globals {
      forall x | IsService(service, podBaseName, x) ensures Identifier(x) == Identifier(t) <==> Agree(x, t) {
        IdentifierIsFaithful(x, t);
      }
    }
  }

  /** The identifiers of the result are those of both sides. */
  lemma IdentifiersAreUnion(ident: Toleration -> string, globals: seq<Toleration>, services: seq<Toleration>,
                            id: string)
    ensures Count(ident, Merge(ident, globals, services), Id(id)) > 0 <==>
            Count(ident, globals, Id(id)) > 0 || Count(ident, services, Id(id)) > 0
  {
    MergeCounts(ident, globals, services, Id(id));
    AtLeast(Count(ident, services, Id(id)), Max(1, Count(ident, globals, Id(id))));
  }

  lemma AtLeast(a: nat, m: nat)
    requires m >= 1
    ensures a * m >= a
  {
  }

  ghost predicate DistinctIds(ident: Toleration -> string, items: seq<Toleration>) {
    forall id :: Count(ident, items, Id(id)) <= 1
  }

  /** The result's identifiers are distinct exactly when each side's are. */
  lemma DistinctMerge(ident: Toleration -> string, globals: seq<Toleration>, services: seq<Toleration>)
    ensures DistinctIds(ident, Merge(ident, globals, services)) <==>
            DistinctIds(ident, globals) && DistinctIds(ident, services)
  {
    var merged := Merge(ident, globals, services);
    forall id ensures Count(ident, merged, Id(id)) <= 1 <==>
                      Count(ident, globals, Id(id)) <= 1 && Count(ident, services, Id(id)) <= 1 {
      MergeCounts(ident, globals, services, Id(id));
      AtMostOne(Count(ident, globals, Id(id)), Count(ident, services, Id(id)));
    }
  }

  lemma AtMostOne(g: nat, s: nat)
    ensures s * Max(1, g) + (if s == 0 then g else 0) <= 1 <==> g <= 1 && s <= 1
  {
    var m := Max(1, g);
    if s >= 1 && m >= 2 {
      assert s * m >= m;
    } else if s >= 2 {
      assert s * m >= s;
    }
  }

  /** Merging the same service list into the result again changes nothing (up to order) exactly when
      the service's identifiers are distinct. */
  lemma MergeAgain(ident: Toleration -> string, globals: seq<Toleration>, services: seq<Toleration>)
    ensures var once := Merge(ident, globals, services);
            multiset(Merge(ident, once, services)) == multiset(once) <==> DistinctIds(ident, services)
  {
    if DistinctIds(ident, services) {
      AgainIsTheSame(ident, globals, services);
    } else {
      AgainDiffers(ident, globals, services);
    }
  }

  lemma AgainIsTheSame(ident: Toleration -> string, globals: seq<Toleration>, services: seq<Toleration>)
    requires DistinctIds(ident, services)
    ensures var once := Merge(ident, globals, services);
            multiset(Merge(ident, once, services)) == multiset(once)
  {
    var once := Merge(ident, globals, services);
    var twice := Merge(ident, once, services);
    forall x ensures Count(ident, twice, Item(x)) == Count(ident, once, Item(x)) {
      AgainCountsTheSame(ident, globals, services, Item(x));
    }
    SameMultiset(ident, twice, once);
  }

  lemma AgainCountsTheSame(ident: Toleration -> string, globals: seq<Toleration>, services: seq<Toleration>, tr: Trait)
    requires DistinctIds(ident, services)
    ensures var once := Merge(ident, globals, services);
            Count(ident, Merge(ident, once, services), tr) == Count(ident, once, tr)
  {
    var s := Count(ident, services, Id(IdOf(ident, tr)));
    AgainCounts(ident, globals, services, tr);
    assert Max(1, s) == 1;
  }

  lemma AgainDiffers(ident: Toleration -> string, globals: seq<Toleration>, services: seq<Toleration>)
    requires !DistinctIds(ident, services)
    ensures var once := Merge(ident, globals, services);
            multiset(Merge(ident, once, services)) != multiset(once)
  {
    var once := Merge(ident, globals, services);
    var twice := Merge(ident, once, services);
    var id :| Count(ident, services, Id(id)) > 1;
    assert Count(ident, twice, Id(id)) > Count(ident, once, Id(id)) by {
      AgainCounts(ident, globals, services, Id(id));
      TwiceIsMore(Count(ident, once, Id(id)), Count(ident, services, Id(id)));
    }
    if multiset(twice) == multiset(once) {
      SameCounts(ident, twice, once, Id(id));
    }
  }

  lemma TwiceIsMore(a: nat, m: nat)
    requires a > 0 && m > 1
    ensures a * m > a
  {
  }

  lemma AgainCounts(ident: Toleration -> string, globals: seq<Toleration>, services: seq<Toleration>, tr: Trait)
    ensures var once, s := Merge(ident, globals, services), Count(ident, services, Id(IdOf(ident, tr)));
            Count(ident, Merge(ident, once, services), tr) == Count(ident, once, tr) * Max(1, s)
    ensures Count(ident, services, tr) > 0 ==> Count(ident, Merge(ident, globals, services), tr) > 0
  {
    var once, id := Merge(ident, globals, services), Id(IdOf(ident, tr));
    MergeCounts(ident, globals, services, tr);
    MergeCounts(ident, globals, services, id);
    MergeCounts(ident, once, services, tr);
    CountById(ident, services, tr);
    AgainAmount(Count(ident, globals, id), Count(ident, services, id),
           Count(ident, globals, tr), Count(ident, services, tr));
  }

  lemma AgainAmount(g: nat, s: nat, gx: nat, sx: nat)
    requires sx <= s
    ensures var onceId := s * Max(1, g) + if s == 0 then g else 0;
            var once := sx * Max(1, g) + if s == 0 then gx else 0;
            && sx * Max(1, onceId) + (if s == 0 then once else 0) == once * Max(1, s)
            && (sx > 0 ==> once > 0)
  {
    var m := Max(1, g);
    if s >= 1 {
      Factors(s, m);
      assert sx * (s * m) == (sx * m) * s;
      if sx >= 1 {
        Factors(sx, m);
      }
    }
  }

  lemma Factors(a: nat, b: nat)
    requires a >= 1 && b >= 1
    ensures a * b >= 1
  {
  }

  lemma SameMultiset(ident: Toleration -> string, a: seq<Toleration>, b: seq<Toleration>)
    requires forall x :: Count(ident, a, Item(x)) == Count(ident, b, Item(x))
    ensures multiset(a) == multiset(b)
  {
    forall x ensures multiset(a)[x] == multiset(b)[x] {
      CountIsMultiplicity(ident, a, x);
      CountIsMultiplicity(ident, b, x);
    }
  }

  lemma SplitAt(items: seq<Toleration>, x: Toleration) returns (l: seq<Toleration>, r: seq<Toleration>)
    requires x in multiset(items)
    ensures items == l + [x] + r
  {
    var k :| 0 <= k < |items| && items[k] == x;
    l, r := items[..k], items[k + 1..];
  }

  lemma Removed(init: seq<Toleration>, x: Toleration, l: seq<Toleration>, r: seq<Toleration>)
    requires multiset(init + [x]) == multiset(l + [x] + r)
    ensures multiset(init) == multiset(l + r)
  {
    assert multiset(init) == multiset(init + [x]) - multiset{x};
    assert multiset(l + r) == multiset(l + [x] + r) - multiset{x};
  }

  /** Equal multisets have equal counts. */
  lemma {:induction false} SameCounts(ident: Toleration -> string, a: seq<Toleration>, b: seq<Toleration>, tr: Trait)
    requires multiset(a) == multiset(b)
    ensures Count(ident, a, tr) == Count(ident, b, tr)
    decreases |a|
  {
    assert |a| == |multiset(a)| == |multiset(b)| == |b|;
    if a != [] {
      var init, last := a[..|a| - 1], a[|a| - 1];
      var l, r := SplitAt(b, last);
      assert a == init + [last];
      Removed(init, last, l, r);
      SameCounts(ident, init, l + r, tr);
      CountMoved(ident, l, last, r, tr);
    }
  }

  lemma CountMoved(ident: Toleration -> string, l: seq<Toleration>, x: Toleration, r: seq<Toleration>, tr: Trait)
    ensures Count(ident, l + [x] + r, tr) == Count(ident, l + r, tr) + if Has(ident, x, tr) then 1 else 0
  {
    CountSum(ident, l, r, tr);
    CountSum(ident, l, [x], tr);
    CountSum(ident, l + [x], r, tr);
    CountOne(ident, x, tr);
  }
}

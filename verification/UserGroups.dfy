/** The groups of a user, as a list and as a text (internal/userlookup/userlookup.go:242-255). */
module UserGroups {
  import opened Records
  import opened Text

  /** An LDAP entry: the values of each of its attributes. */
  type Entry = map<string, seq<string>>

  /** The first value of the attribute, or nothing. */
  function AttributeValue(e: Entry, attr: string): string {
    if attr in e && e[attr] != [] then e[attr][0] else ""
  }

  function Values(e: Entry, attrs: seq<string>): seq<string> {
    seq(|attrs|, k requires 0 <= k < |attrs| => AttributeValue(e, attrs[k]))
  }

  /** The attributes of each entry joined by ':', in the order of the search result. */
  function GroupTexts(entries: seq<Entry>, attrs: seq<string>): seq<string> {
    seq(|entries|, k requires 0 <= k < |entries| => Join(Values(entries[k], attrs), ':'))
  }

  /** The first attribute of each entry. */
  function GroupNames(entries: seq<Entry>, attrs: seq<string>): seq<string>
    requires attrs != []
  {
    seq(|entries|, k requires 0 <= k < |entries| => AttributeValue(entries[k], attrs[0]))
  }

  /** The loops that fill in `Groups` and `MemberOf`. The configured attribute list is the result of
      a split, so it is never empty. */
  method GroupsQuery(entries: seq<Entry>, attrs: seq<string>) returns (groups: string, memberOf: seq<string>)
    requires attrs != []
    ensures groups == Join(GroupTexts(entries, attrs), ';')
    ensures memberOf == GroupNames(entries, attrs)
    ensures |memberOf| == |entries|
    ensures forall k | 0 <= k < |entries| ::
              if attrs[0] in entries[k] && entries[k][attrs[0]] != [] then memberOf[k] == entries[k][attrs[0]][0]
              else memberOf[k] == ""
  {
    var texts := [];
    memberOf := [];
    for i := 0 to |entries|
      invariant texts == GroupTexts(entries, attrs)[..i]
      invariant memberOf == GroupNames(entries, attrs)[..i]
    {
      memberOf := memberOf + [AttributeValue(entries[i], attrs[0])];
      var groupAttrs := [];
      for j := 0 to |attrs|
        invariant groupAttrs == Values(entries[i], attrs)[..j]
      {
        groupAttrs := groupAttrs + [AttributeValue(entries[i], attrs[j])];
      }
      assert groupAttrs == Values(entries[i], attrs);
      texts := texts + [Join(groupAttrs, ':')];
    }
    assert texts == GroupTexts(entries, attrs);
    assert memberOf == GroupNames(entries, attrs);
    groups := Join(texts, ';');
  }

  // ---- The text and the list agree ----

  /** What a reader of the text takes for the group names. */
  function NamesInText(groups: string): seq<string> {
    var pieces := Split(groups, ';');
    seq(|pieces|, k requires 0 <= k < |pieces| => Head(pieces[k], ':'))
  }

  predicate Clean(entries: seq<Entry>, attrs: seq<string>) {
    forall e, a | e in entries && a in attrs :: ';' !in AttributeValue(e, a) && ':' !in AttributeValue(e, a)
  }

  lemma {:induction false} JoinFree(pieces: seq<string>, sep: char, c: char)
    requires c != sep && forall p | p in pieces :: c !in p
    ensures c !in Join(pieces, sep)
  {
    if |pieces| > 1 {
      JoinFree(pieces[1..], sep, c);
    }
  }

  /** Cut at its first ':', the text of an entry is the entry's group name. */
  lemma TextBeginsWithName(e: Entry, attrs: seq<string>)
    requires attrs != [] && forall a | a in attrs :: ';' !in AttributeValue(e, a) && ':' !in AttributeValue(e, a)
    ensures Head(Join(Values(e, attrs), ':'), ':') == AttributeValue(e, attrs[0])
    ensures ';' !in Join(Values(e, attrs), ':')
  {
    var values := Values(e, attrs);
    var name := AttributeValue(e, attrs[0]);
    assert values[0] == name && attrs[0] in attrs;
    forall v | v in values ensures ';' !in v {
    }
    JoinFree(values, ':', ';');
    if |attrs| == 1 {
      assert values == [name];
      HeadOfPiece(name, "", ':');
      assert name + "" == name;
    } else {
      var rest := [':'] + Join(values[1..], ':');
      assert Join(values, ':') == name + rest;
      HeadOfPiece(name, rest, ':');
    }
  }

  /** For clean values, the names read from the text are the list, in order, exactly when the search
      found at least one entry. */
  lemma TextAgreesWithList(entries: seq<Entry>, attrs: seq<string>)
    requires attrs != [] && Clean(entries, attrs)
    ensures NamesInText(Join(GroupTexts(entries, attrs), ';')) == GroupNames(entries, attrs) <==> entries != []
  {
    var texts, names := GroupTexts(entries, attrs), GroupNames(entries, attrs);
    if entries == [] {
      assert texts == [] && names == [];
      assert |NamesInText("")| == 1;
    } else {
      forall k | 0 <= k < |entries| ensures ';' !in texts[k] && Head(texts[k], ':') == names[k] {
        TextBeginsWithName(entries[k], attrs);
      }
      SplitJoin(texts, ';');
      assert Split(Join(texts, ';'), ';') == texts;
      assert NamesInText(Join(texts, ';')) == names;
    }
  }

  /** The first value of the attribute stands here; nothing does if it has none. */
  predicate IsFirstValue(value: string, e: Entry, attr: string) {
    if attr in e && |e[attr]| > 0 then value == e[attr][0] else value == ""
  }

  /** For clean values and at least one entry, the text holds the first value of every attribute of every
      entry, and nothing else: cut at ';' into entries and at ':' into values, it gives them back. */
  lemma TextHoldsAllValues(entries: seq<Entry>, attrs: seq<string>)
    requires attrs != [] && entries != [] && Clean(entries, attrs)
    ensures var pieces := Split(Join(GroupTexts(entries, attrs), ';'), ';');
            && |pieces| == |entries|
            && (forall k | 0 <= k < |entries| :: |Split(pieces[k], ':')| == |attrs|)
            && (forall k, j | 0 <= k < |entries| && 0 <= j < |attrs| ::
                  IsFirstValue(Split(pieces[k], ':')[j], entries[k], attrs[j]))
  {
    var texts := GroupTexts(entries, attrs);
    forall k | 0 <= k < |entries|
      ensures ';' !in texts[k] && Split(texts[k], ':') == Values(entries[k], attrs)
    {
      TextBeginsWithName(entries[k], attrs);
      ValuesAreFree(entries[k], attrs);
      SplitJoin(Values(entries[k], attrs), ':');
    }
    SplitJoin(texts, ';');
  }

  lemma ValuesAreFree(e: Entry, attrs: seq<string>)
    requires forall a | a in attrs :: ':' !in AttributeValue(e, a)
    ensures forall v | v in Values(e, attrs) :: ':' !in v
  {
  }

  /** Access decided from the text. */
  predicate AllowedByText(accessGroups: seq<string>, groups: string) {
    exists g :: g in accessGroups && g in NamesInText(groups)
  }

  /** Deciding access from the text gives what deciding it from the list does; with no entry at all,
      they differ exactly when the empty group name is allowed. */
  lemma AccessByTextAgrees(t: Template, u: UserInfo, entries: seq<Entry>, attrs: seq<string>)
    requires attrs != [] && Clean(entries, attrs)
    requires u.groups == Join(GroupTexts(entries, attrs), ';') && u.memberOf == GroupNames(entries, attrs)
    ensures (AllowedByText(t.accessGroups, u.groups) <==> AccessAllowed(t, u)) <==>
            entries != [] || "" !in t.accessGroups
  {
    TextAgreesWithList(entries, attrs);
    if entries == [] {
      assert u.memberOf == [] && NamesInText("") == [""];
    }
  }
}

/**
 * KnoraProject: the client-side record of a project of the admin API. Its setters change
 * fields and note the field's name in `changed`; the Create payload carries every required
 * field, the Update payload only the changed ones; `fromJsonObj` reads a project from the
 * API's JSON. The connection and the HTTP requests themselves are not modelled.
 */
module Projects {
  import opened Wrappers

  /** The names of the fields of a project, as `changed` and the payloads spell them. */
  datatype Field = Id | Shortcode | Shortname | Longname | Description | Keywords | Ontologies | Selfjoin | Status | Logo

  /** Why an operation of KnoraProject raises. */
  datatype ProjectError =
    | Immutable(field: Field)        // the setter always refuses: id, shortcode, ontologies
    | BrokenSetter(field: Field)      // the setter fails in its own body: description, keywords, selfjoin
    | Missing(field: Field)           // a required field is absent (BaseError)
    | NoneField(field: Field)         // an operation applied to a field that is None
    | KeywordAbsent(keyword: string) // rm_keyword of a keyword not in the set
    | EntryWithoutValue              // a description entry without `value` (KeyError)

  /** The fields of a project; a LangString is a map from language to text. */
  datatype ProjectFields = ProjectFields(
    id: Option<string>,
    shortcode: Option<string>,
    shortname: Option<string>,
    longname: Option<string>,
    description: Option<map<string, string>>,
    keywords: Option<set<string>>,
    ontologies: Option<set<string>>,
    selfjoin: Option<bool>,
    status: Option<bool>,
    logo: Option<string>)

  /** A value of a request payload. */
  datatype JsonField = Text(s: string) | Flag(b: bool) | Words(words: set<string>) | LangTexts(texts: map<string, string>)

  /** A request payload: field name to value. */
  type Payload = map<Field, JsonField>

  datatype Action = Create | Update

  /** What `update` does: nothing when there is nothing to send, else a PUT with the payload
      to the IRI `id` of the project. */
  datatype UpdateRequest = NoRequest | Put(id: string, payload: Payload)

  /** The fields a payload may carry, and whether the project has a value worth sending for
      one: present, and non-empty for description and keywords. */
  predicate Sendable(f: ProjectFields, name: Field)
  {
    match name
    case Shortcode => f.shortcode.Some?
    case Shortname => f.shortname.Some?
    case Longname => f.longname.Some?
    case Description => f.description.Some? && |f.description.value| > 0
    case Keywords => f.keywords.Some? && |f.keywords.value| > 0
    case Selfjoin => f.selfjoin.Some?
    case Status => f.status.Some?
    case _ => false
  }

  /** The payload value of a sendable field. */
  function FieldValue(f: ProjectFields, name: Field): JsonField
    requires Sendable(f, name)
  {
    match name
    case Shortcode => Text(f.shortcode.value)
    case Shortname => Text(f.shortname.value)
    case Longname => Text(f.longname.value)
    case Description => LangTexts(f.description.value)
    case Keywords => Words(f.keywords.value)
    case Selfjoin => Flag(f.selfjoin.value)
    case Status => Flag(f.status.value)
  }

  /** Every reason the Create payload cannot be built, in the order the fields are checked. */
  function CreateFailures(f: ProjectFields): seq<ProjectError>
  {
    (if f.shortcode.None? then [Missing(Shortcode)] else []) +
    (if f.shortname.None? then [Missing(Shortname)] else []) +
    (if f.longname.None? then [Missing(Longname)] else []) +
    (if f.description.None? then [NoneField(Description)]
     else if |f.description.value| == 0 then [Missing(Description)] else []) +
    (if f.keywords.None? then [NoneField(Keywords)] else []) +
    (if f.selfjoin.None? then [Missing(Selfjoin)] else []) +
    (if f.status.None? then [Missing(Status)] else [])
  }

  /**
   * `toJsonObj(Actions.Create)`: raises for the first required field that is missing
   * (an empty description counts as missing), and otherwise sends every sendable field:
   * all required ones, and the keywords when there are any. Id, ontologies and logo are
   * never sent.
   */
  function CreatePayload(f: ProjectFields): (r: Result<Payload, ProjectError>)
    ensures r.Err? <==> |CreateFailures(f)| > 0
    ensures r.Err? ==> r.error == CreateFailures(f)[0]
    ensures r.Ok? ==> forall name :: name in r.value <==> Sendable(f, name)
    ensures r.Ok? ==> forall name :: name in r.value ==> Sendable(f, name) && r.value[name] == FieldValue(f, name)
  {
    if f.shortcode.None? then Err(Missing(Shortcode))
    else if f.shortname.None? then Err(Missing(Shortname))
    else if f.longname.None? then Err(Missing(Longname))
    else if f.description.None? then Err(NoneField(Description))
    else if |f.description.value| == 0 then Err(Missing(Description))
    else if f.keywords.None? then Err(NoneField(Keywords))
    else if f.selfjoin.None? then Err(Missing(Selfjoin))
    else if f.status.None? then Err(Missing(Status))
    else
      var tmp := map[
        Shortcode := Text(f.shortcode.value),
        Shortname := Text(f.shortname.value),
        Longname := Text(f.longname.value),
        Description := LangTexts(f.description.value)];
      var tmp := if |f.keywords.value| > 0 then tmp[Keywords := Words(f.keywords.value)] else tmp;
      Ok(tmp[Selfjoin := Flag(f.selfjoin.value)][Status := Flag(f.status.value)])
  }

  /** The fields the Update branch considers, in the order it considers them. */
  const UpdateOrder: seq<Field> := [Shortcode, Shortname, Longname, Description, Keywords, Selfjoin, Status]

  /** The Update branch's lines for `names`, in order, starting from `tmp`: each field goes
      into the payload when it has a value worth sending and is named in `changed`. */
  function SendChanged(tmp: Payload, f: ProjectFields, changed: set<Field>, names: seq<Field>): (r: Payload)
    ensures forall n :: n in r <==> n in tmp || (n in names && n in changed && Sendable(f, n))
    ensures forall n :: n in r ==>
      if n in names && n in changed && Sendable(f, n) then r[n] == FieldValue(f, n) else r[n] == tmp[n]
    decreases |names|
  {
    if names == [] then tmp
    else
      var name := names[0];
      var next := if name in changed && Sendable(f, name) then tmp[name := FieldValue(f, name)] else tmp;
      SendChanged(next, f, changed, names[1..])
  }

  /**
   * `toJsonObj(Actions.Update)`: sends exactly the sendable fields named in `changed`. It
   * raises when description or keywords is None, whether changed or not, since their
   * emptiness is tested before `changed` is consulted.
   */
  function UpdatePayload(f: ProjectFields, changed: set<Field>): (r: Result<Payload, ProjectError>)
    ensures r.Err? <==> f.description.None? || f.keywords.None?
    ensures r.Err? ==> r.error == NoneField(if f.description.None? then Description else Keywords)
    ensures r.Ok? ==> forall name :: name in r.value <==> name in changed && Sendable(f, name)
    ensures r.Ok? ==> forall name :: name in r.value ==> Sendable(f, name) && r.value[name] == FieldValue(f, name)
  {
    if f.description.None? then Err(NoneField(Description))
    else if f.keywords.None? then Err(NoneField(Keywords))
    else Ok(SendChanged(map[], f, changed, UpdateOrder))
  }

  /** `toJsonObj(action)`. */
  function ToJsonObj(f: ProjectFields, changed: set<Field>, action: Action): Result<Payload, ProjectError>
  {
    match action
    case Create => CreatePayload(f)
    case Update => UpdatePayload(f, changed)
  }

  /** The Update payload never carries a field that was not changed. */
  lemma UpdateSendsOnlyChanged(f: ProjectFields, changed: set<Field>)
    requires UpdatePayload(f, changed).Ok?
    ensures forall n :: n in UpdatePayload(f, changed).value ==> n in changed
  {
  }

  /** Id, ontologies and logo are never sendable. */
  lemma FixedNotSendable(f: ProjectFields)
    ensures !Sendable(f, Id) && !Sendable(f, Ontologies) && !Sendable(f, Logo)
  {
  }

  /** Neither payload ever carries id, ontologies or logo. */
  lemma PayloadsOmitFixedFields(f: ProjectFields, changed: set<Field>, action: Action)
    requires ToJsonObj(f, changed, action).Ok?
    ensures Id !in ToJsonObj(f, changed, action).value
    ensures Ontologies !in ToJsonObj(f, changed, action).value
    ensures Logo !in ToJsonObj(f, changed, action).value
  {
    FixedNotSendable(f);
    if action.Create? {
      assert ToJsonObj(f, changed, action) == CreatePayload(f);
    } else {
      assert ToJsonObj(f, changed, action) == UpdatePayload(f, changed);
    }
  }

  /** The fields a payload can carry. */
  const PayloadFields: set<Field> := {Shortcode, Shortname, Longname, Description, Keywords, Selfjoin, Status}

  /** Only a field of a payload can be sendable. */
  lemma SendableIsPayloadField(f: ProjectFields, n: Field)
    ensures Sendable(f, n) ==> n in PayloadFields
  {
  }

  /** Two payloads with the same fields and the same values are the same payload. */
  lemma SamePayload(u: Payload, c: Payload)
    requires forall n :: n in u <==> n in c
    requires forall n :: n in u ==> u[n] == c[n]
    ensures u == c
  {
  }

  /** With every field marked as changed, Update sends what Create would send. */
  lemma UpdateAllIsCreate(f: ProjectFields, changed: set<Field>)
    requires PayloadFields <= changed
    requires CreatePayload(f).Ok?
    ensures UpdatePayload(f, changed) == CreatePayload(f)
  {
    var u, c := UpdatePayload(f, changed).value, CreatePayload(f).value;
    forall n ensures n in u <==> n in c {
      SendableIsPayloadField(f, n);
    }
    SamePayload(u, c);
  }

  /** The description entry of the API's JSON; `language` may be absent. */
  datatype DescriptionEntry = DescriptionEntry(language: Option<string>, value: Option<string>)

  /** A project as the API returns it; an absent key and a null are both None. */
  datatype ProjectJson = ProjectJson(
    id: Option<string>,
    shortcode: Option<string>,
    shortname: Option<string>,
    longname: Option<string>,
    description: Option<seq<DescriptionEntry>>,
    keywords: Option<seq<string>>,
    ontologies: Option<seq<string>>,
    selfjoin: Option<bool>,
    status: Option<bool>,
    logo: Option<string>)

  /** The language an entry is stored under: its own, or English when it has none. */
  function LanguageOf(d: DescriptionEntry): string
  {
    if d.language.Some? then d.language.value else "en"
  }

  predicate HasValuelessEntry(entries: seq<DescriptionEntry>)
  {
    exists k :: 0 <= k < |entries| && entries[k].value.None?
  }

  /** The LangString built from the description entries, in order; fails on an entry
      without a value. */
  function Descriptions(entries: seq<DescriptionEntry>): (r: Result<map<string, string>, ProjectError>)
    ensures r.Err? <==> HasValuelessEntry(entries)
    ensures r.Err? ==> r.error == EntryWithoutValue
  {
    if entries == [] then Ok(map[])
    else
      var prev := entries[..|entries| - 1];
      var d := entries[|entries| - 1];
      assert forall k :: 0 <= k < |prev| ==> prev[k] == entries[k];
      var m :- Descriptions(prev);
      if d.value.None? then Err(EntryWithoutValue)
      else Ok(m[LanguageOf(d) := d.value.value])
  }

  /** The description holds a language exactly when some entry is stored under it. */
  lemma {:induction false} DescriptionsLanguages(entries: seq<DescriptionEntry>)
    requires Descriptions(entries).Ok?
    ensures var m := Descriptions(entries).value;
      forall lang :: lang in m <==> exists k :: 0 <= k < |entries| && LanguageOf(entries[k]) == lang
  {
    if entries != [] {
      var n := |entries| - 1;
      var prev := entries[..n];
      assert forall k :: 0 <= k < n ==> prev[k] == entries[k];
      DescriptionsLanguages(prev);
      var m := Descriptions(entries).value;
      forall lang ensures lang in m <==> exists k :: 0 <= k < |entries| && LanguageOf(entries[k]) == lang {
        if lang in m && lang != LanguageOf(entries[n]) {
          var k :| 0 <= k < n && LanguageOf(prev[k]) == lang;
          assert LanguageOf(entries[k]) == lang;
        }
        if exists k :: 0 <= k < |entries| && LanguageOf(entries[k]) == lang {
          var k :| 0 <= k < |entries| && LanguageOf(entries[k]) == lang;
          if k < n { assert LanguageOf(prev[k]) == lang; }
        }
      }
    }
  }

  /** A language holds the text of the last entry stored under it. */
  lemma {:induction false} DescriptionsLastWins(entries: seq<DescriptionEntry>)
    requires Descriptions(entries).Ok?
    ensures var m := Descriptions(entries).value;
      forall k :: 0 <= k < |entries| && (forall j :: k < j < |entries| ==> LanguageOf(entries[j]) != LanguageOf(entries[k])) ==>
        entries[k].value.Some? && LanguageOf(entries[k]) in m && m[LanguageOf(entries[k])] == entries[k].value.value
  {
    if entries != [] {
      var n := |entries| - 1;
      var prev := entries[..n];
      assert forall k :: 0 <= k < n ==> prev[k] == entries[k];
      DescriptionsLastWins(prev);
    }
  }

  /** Every reason `fromJsonObj` raises, in the order it meets them. */
  function DecodeFailures(j: ProjectJson): seq<ProjectError>
  {
    (if j.id.None? then [Missing(Id)] else []) +
    (if j.shortcode.None? then [Missing(Shortcode)] else []) +
    (if j.shortname.None? then [Missing(Shortname)] else []) +
    (if j.longname.None? then [Missing(Longname)] else []) +
    (if j.description.Some? && HasValuelessEntry(j.description.value) then [EntryWithoutValue] else []) +
    (if j.keywords.None? then [NoneField(Keywords)] else []) +
    (if j.ontologies.None? then [NoneField(Ontologies)] else []) +
    (if j.selfjoin.None? then [Missing(Selfjoin)] else []) +
    (if j.status.None? then [Missing(Status)] else [])
  }

  /** The elements of a JSON list, as the set `set(...)` builds. */
  function SetOf(s: seq<string>): (r: set<string>)
    ensures forall w :: w in r <==> w in s
  {
    set w | w in s
  }

  /**
   * `fromJsonObj`: raises for the first of id, shortcode, shortname, longname, a
   * description entry without value, keywords, ontologies, selfjoin, status that is
   * missing; otherwise a project whose required fields are all present and copied from the
   * JSON, with no description when the JSON has none.
   */
  function DecodeProject(j: ProjectJson): (r: Result<ProjectFields, ProjectError>)
    ensures r.Err? <==> |DecodeFailures(j)| > 0
    ensures r.Err? ==> r.error == DecodeFailures(j)[0]
    ensures r.Ok? ==>
      r.value.id == j.id && r.value.shortcode == j.shortcode && r.value.shortname == j.shortname &&
      r.value.longname == j.longname && r.value.selfjoin == j.selfjoin && r.value.status == j.status &&
      r.value.logo == j.logo && r.value.id.Some? && r.value.shortcode.Some? && r.value.shortname.Some? &&
      r.value.longname.Some? && r.value.selfjoin.Some? && r.value.status.Some? &&
      r.value.keywords == Some(SetOf(j.keywords.value)) && r.value.ontologies == Some(SetOf(j.ontologies.value)) &&
      (r.value.description.Some? <==> j.description.Some?) &&
      (j.description.Some? ==> Descriptions(j.description.value) == Ok(r.value.description.value))
  {
    if j.id.None? then Err(Missing(Id))
    else if j.shortcode.None? then Err(Missing(Shortcode))
    else if j.shortname.None? then Err(Missing(Shortname))
    else if j.longname.None? then Err(Missing(Longname))
    else
      var description :- if j.description.None? then Ok(None)
        else var m :- Descriptions(j.description.value); Ok(Some(m));
      if j.keywords.None? then Err(NoneField(Keywords))
      else if j.ontologies.None? then Err(NoneField(Ontologies))
      else if j.selfjoin.None? then Err(Missing(Selfjoin))
      else if j.status.None? then Err(Missing(Status))
      else Ok(ProjectFields(j.id, j.shortcode, j.shortname, j.longname, description,
        Some(SetOf(j.keywords.value)), Some(SetOf(j.ontologies.value)), j.selfjoin, j.status, j.logo))
  }

  /** A project just read from JSON that has a description has nothing to update. */
  lemma DecodedHasNothingToUpdate(j: ProjectJson)
    requires DecodeProject(j).Ok? && j.description.Some?
    ensures UpdatePayload(DecodeProject(j).value, {}) == Ok(map[])
  {
    var u := UpdatePayload(DecodeProject(j).value, {});
    assert u.value.Keys == {};
  }

  /** A project read from JSON without a description cannot build any payload: both
      Create and Update raise on the missing description. */
  lemma DecodedWithoutDescription(j: ProjectJson, changed: set<Field>)
    requires DecodeProject(j).Ok? && j.description.None?
    ensures CreatePayload(DecodeProject(j).value) == Err(NoneField(Description))
    ensures UpdatePayload(DecodeProject(j).value, changed) == Err(NoneField(Description))
  {
  }

  /** A changed longname is sent by the next update with its new value. */
  lemma LongnameChangeSent(f: ProjectFields, changed: set<Field>, value: string)
    requires f.description.Some? && f.keywords.Some?
    ensures var u := UpdatePayload(f.(longname := Some(value)), changed + {Longname});
      u.Ok? && Longname in u.value && u.value[Longname] == Text(value)
  {
  }

  /** An added keyword is sent by the next update with the whole new keyword set. */
  lemma KeywordAddSent(f: ProjectFields, changed: set<Field>, value: string)
    requires f.description.Some? && f.keywords.Some?
    ensures var u := UpdatePayload(f.(keywords := Some(f.keywords.value + {value})), changed + {Keywords});
      u.Ok? && Keywords in u.value && u.value[Keywords] == Words(f.keywords.value + {value})
  {
    assert value in f.keywords.value + {value};
  }

  class KnoraProject {
    var id: Option<string>
    var shortcode: Option<string>
    var shortname: Option<string>
    var longname: Option<string>
    var description: Option<map<string, string>>
    var keywords: Option<set<string>>
    var ontologies: Option<set<string>>
    var selfjoin: Option<bool>
    var status: Option<bool>
    var logo: Option<string>
    var changed: set<Field>

    /** The current field values. */
    function Fields(): ProjectFields
      reads this
    {
      ProjectFields(id, shortcode, shortname, longname, description, keywords, ontologies, selfjoin, status, logo)
    }

    /** A new project holds the given fields and has nothing changed. */
    constructor (f: ProjectFields)
      ensures Fields() == f && changed == {}
    {
      id, shortcode, shortname, longname := f.id, f.shortcode, f.shortname, f.longname;
      description, keywords, ontologies := f.description, f.keywords, f.ontologies;
      selfjoin, status, logo := f.selfjoin, f.status, f.logo;
      changed := {};
    }

    /** The id cannot be modified: raises, nothing changes. */
    method SetId(value: string) returns (r: Result<(), ProjectError>)
      ensures r == Err(Immutable(Id))
    {
      r := Err(Immutable(Id));
    }

    /** The shortcode cannot be modified: raises, nothing changes. */
    method SetShortcode(value: string) returns (r: Result<(), ProjectError>)
      ensures r == Err(Immutable(Shortcode))
    {
      r := Err(Immutable(Shortcode));
    }

    /** Ontologies cannot be set: raises, nothing changes. */
    method SetOntologies(value: set<string>) returns (r: Result<(), ProjectError>)
      ensures r == Err(Immutable(Ontologies))
    {
      r := Err(Immutable(Ontologies));
    }

    method SetShortname(value: string)
      modifies this`shortname, this`changed
      ensures shortname == Some(value) && changed == old(changed) + {Shortname}
    {
      shortname := Some(value);
      changed := changed + {Shortname};
    }

    method SetLongname(value: string)
      modifies this`longname, this`changed
      ensures longname == Some(value) && changed == old(changed) + {Longname}
    {
      longname := Some(value);
      changed := changed + {Longname};
    }

    method SetStatus(value: Option<bool>)
      modifies this`status, this`changed
      ensures status == value && changed == old(changed) + {Status}
    {
      status := value;
      changed := changed + {Status};
    }

    method SetLogo(value: Option<string>)
      modifies this`logo, this`changed
      ensures logo == value && changed == old(changed) + {Logo}
    {
      logo := value;
      changed := changed + {Logo};
    }

    /** The description setter assigns an undeclared attribute, which the strict class
        refuses: raises before anything is recorded. */
    method SetDescription(value: map<string, string>) returns (r: Result<(), ProjectError>)
      ensures r == Err(BrokenSetter(Description))
    {
      r := Err(BrokenSetter(Description));
    }

    /** The keywords setter names an undefined variable for a set and raises for anything
        else: it always raises, nothing changes. */
    method SetKeywords(value: set<string>) returns (r: Result<(), ProjectError>)
      ensures r == Err(BrokenSetter(Keywords))
    {
      r := Err(BrokenSetter(Keywords));
    }

    /** The selfjoin setter reads an undefined `self`: raises, nothing changes. */
    method SetSelfjoin(value: bool) returns (r: Result<(), ProjectError>)
      ensures r == Err(BrokenSetter(Selfjoin))
    {
      r := Err(BrokenSetter(Selfjoin));
    }

    /** `add_keyword`: adds the keyword and marks keywords as changed. */
    method AddKeyword(value: string) returns (r: Result<(), ProjectError>)
      modifies this`keywords, this`changed
      ensures old(keywords).None? ==> r == Err(NoneField(Keywords)) && keywords == old(keywords) && changed == old(changed)
      ensures old(keywords).Some? ==> (r == Ok(()) && keywords == Some(old(keywords).value + {value}) &&
        changed == old(changed) + {Keywords})
    {
      if keywords.None? {
        return Err(NoneField(Keywords));
      }
      keywords := Some(keywords.value + {value});
      changed := changed + {Keywords};
      return Ok(());
    }

    /** `rm_keyword`: removes a present keyword and marks keywords as changed; an absent
        keyword raises and changes nothing. */
    method RmKeyword(value: string) returns (r: Result<(), ProjectError>)
      modifies this`keywords, this`changed
      ensures old(keywords).None? ==> r == Err(NoneField(Keywords))
      ensures old(keywords).Some? && value !in old(keywords).value ==> r == Err(KeywordAbsent(value))
      ensures r.Err? ==> keywords == old(keywords) && changed == old(changed)
      ensures old(keywords).Some? && value in old(keywords).value ==>
        (r == Ok(()) && keywords == Some(old(keywords).value - {value}) && changed == old(changed) + {Keywords})
    {
      if keywords.None? {
        return Err(NoneField(Keywords));
      }
      if value !in keywords.value {
        return Err(KeywordAbsent(value));
      }
      keywords := Some(keywords.value - {value});
      changed := changed + {Keywords};
      return Ok(());
    }

    /** `update`: sends nothing when the Update payload is empty, else a PUT with it to the
        project's IRI; without an id, building that IRI (`quote_plus(None)`) raises. */
    method Update() returns (r: Result<UpdateRequest, ProjectError>)
      ensures UpdatePayload(Fields(), changed).Err? ==> r == Err(UpdatePayload(Fields(), changed).error)
      ensures UpdatePayload(Fields(), changed) == Ok(map[]) ==> r == Ok(NoRequest)
      ensures UpdatePayload(Fields(), changed).Ok? && UpdatePayload(Fields(), changed).value != map[] ==>
        r == if id.None? then Err(NoneField(Id)) else Ok(Put(id.value, UpdatePayload(Fields(), changed).value))
      ensures r.Ok? && r.value.Put? ==> id == Some(r.value.id) && r.value.payload != map[]
    {
      var jsonobj :- ToJsonObj(Fields(), changed, Action.Update);
      if jsonobj == map[] {
        return Ok(NoRequest);
      }
      if id.None? {
        return Err(NoneField(Id));
      }
      return Ok(Put(id.value, jsonobj));
    }

    /** `fromJsonObj`: a new project with nothing changed, or the first error. */
    static method FromJsonObj(j: ProjectJson) returns (r: Result<KnoraProject, ProjectError>)
      ensures DecodeProject(j).Err? ==> r.Err? && r.error == DecodeProject(j).error
      ensures DecodeProject(j).Ok? ==> (r.Ok? && fresh(r.value) &&
        r.value.Fields() == DecodeProject(j).value && r.value.changed == {})
    {
      if j.id.None? { return Err(Missing(Id)); }
      if j.shortcode.None? { return Err(Missing(Shortcode)); }
      if j.shortname.None? { return Err(Missing(Shortname)); }
      if j.longname.None? { return Err(Missing(Longname)); }
      var description: Option<map<string, string>> := None;
      if j.description.Some? {
        var entries := j.description.value;
        var m: map<string, string> := map[];
        for k := 0 to |entries|
          invariant Descriptions(entries[..k]) == Ok(m)
        {
          var d := entries[k];
          if d.value.None? {
            assert HasValuelessEntry(entries);
            return Err(EntryWithoutValue);
          }
          assert entries[..k + 1][..k] == entries[..k];
          m := m[LanguageOf(d) := d.value.value];
        }
        assert entries[..|entries|] == entries;
        description := Some(m);
      }
      if j.keywords.None? { return Err(NoneField(Keywords)); }
      if j.ontologies.None? { return Err(NoneField(Ontologies)); }
      if j.selfjoin.None? { return Err(Missing(Selfjoin)); }
      if j.status.None? { return Err(Missing(Status)); }
      var p := new KnoraProject(ProjectFields(j.id, j.shortcode, j.shortname, j.longname, description,
        Some(SetOf(j.keywords.value)), Some(SetOf(j.ontologies.value)), j.selfjoin, j.status, j.logo));
      return Ok(p);
    }
  }
}

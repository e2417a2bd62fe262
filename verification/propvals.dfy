/**
 * What a parsed resource becomes for the server: its permission sets as (permission,
 * group) pairs and as the `|`-separated string form (XmlPermission.get_permission_instance
 * and __str__), and its property values with resource references replaced by IRIs and
 * shaped as bare values or dicts, one or many per property (KnoraResource.get_propvals).
 */
module Payloads {
  import opened Wrappers
  import opened Strings
  import opened XmlModel

  // ---------------------------------------------------------------------------------
  // Permission sets (xml_upload.py:465-476)
  // ---------------------------------------------------------------------------------

  /** One `permissions.add(permission, group)`. */
  datatype Grant = Grant(permission: string, group: string)

  /** The pairs a permission instance holds, in the order of the allows. */
  function Grants(allows: seq<XmlAllow>): (gs: seq<Grant>)
    ensures |gs| == |allows|
    ensures forall k :: 0 <= k < |allows| ==> gs[k] == Grant(allows[k].permission, allows[k].group)
  {
    seq(|allows|, k requires 0 <= k < |allows| => Grant(allows[k].permission, allows[k].group))
  }

  /** `get_permission_instance`. */
  method GetPermissionInstance(p: XmlPermission) returns (grants: seq<Grant>)
    ensures grants == Grants(p.allows)
  {
    grants := [];
    for k := 0 to |p.allows|
      invariant grants == Grants(p.allows[..k])
    {
      grants := grants + [Grant(p.allows[k].permission, p.allows[k].group)];
    }
    assert p.allows[..|p.allows|] == p.allows;
  }

  /** `"{} {}".format(allow.permission, allow.group)`. */
  function AllowString(a: XmlAllow): string
  {
    a.permission + " " + a.group
  }

  function AllowStrings(allows: seq<XmlAllow>): (ss: seq<string>)
    ensures |ss| == |allows| && forall k :: 0 <= k < |allows| ==> ss[k] == AllowString(allows[k])
  {
    seq(|allows|, k requires 0 <= k < |allows| => AllowString(allows[k]))
  }

  /** The string form of a permission set. */
  function PermissionString(p: XmlPermission): string
  {
    Join(AllowStrings(p.allows), '|')
  }

  /** `XmlPermission.__str__`. */
  method PermissionToString(p: XmlPermission) returns (s: string)
    ensures s == PermissionString(p)
  {
    var allowstrs: seq<string> := [];
    for k := 0 to |p.allows|
      invariant allowstrs == AllowStrings(p.allows[..k])
    {
      allowstrs := allowstrs + [p.allows[k].permission + " " + p.allows[k].group];
    }
    assert p.allows[..|p.allows|] == p.allows;
    s := Join(allowstrs, '|');
  }

  /** Reading one `permission group` piece back: the permission ends at the first space. */
  function ParseGrant(s: string): Grant
  {
    var parts := Split(s, ' ');
    Grant(parts[0], Join(parts[1..], ' '))
  }

  /** Reading a permission string back into pairs. */
  function ParsePermissionString(s: string): (gs: seq<Grant>)
  {
    var parts := Split(s, '|');
    seq(|parts|, k requires 0 <= k < |parts| => ParseGrant(parts[k]))
  }

  lemma AllowStringRoundTrip(a: XmlAllow)
    requires ' ' !in a.permission
    ensures ParseGrant(AllowString(a)) == Grant(a.permission, a.group)
  {
    assert AllowString(a) == a.permission + [' '] + a.group;
    SplitAtFirst(a.permission, a.group, ' ');
    var parts := Split(AllowString(a), ' ');
    assert parts[1..] == Split(a.group, ' ');
    JoinSplit(a.group, ' ');
  }

  /**
   * The string form holds the same pairs as the permission instance: splitting it at `|`
   * and each piece at its first space gives back every (permission, group) pair in order,
   * as long as no permission holds a space and no permission or group holds a `|`. With no
   * allows the string is empty.
   */
  lemma PermissionStringRoundTrip(p: XmlPermission)
    requires forall a :: a in p.allows ==> ' ' !in a.permission && '|' !in a.permission && '|' !in a.group
    ensures p.allows == [] ==> PermissionString(p) == ""
    ensures p.allows != [] ==> ParsePermissionString(PermissionString(p)) == Grants(p.allows)
  {
    if p.allows != [] {
      var ss := AllowStrings(p.allows);
      forall k | 0 <= k < |ss| ensures '|' !in ss[k] {
        assert p.allows[k] in p.allows;
        assert ss[k] == p.allows[k].permission + " " + p.allows[k].group;
      }
      SplitJoin(ss, '|');
      forall k | 0 <= k < |ss| ensures ParseGrant(ss[k]) == Grants(p.allows)[k] {
        assert p.allows[k] in p.allows;
        AllowStringRoundTrip(p.allows[k]);
      }
    }
  }

  // ---------------------------------------------------------------------------------
  // get_propvals (xml_upload.py:335-380)
  // ---------------------------------------------------------------------------------

  /** Every occurrence of the token of `id` replaced by the IRI looked up (`replace`). */
  function ReplaceRef(xml: seq<Segment>, id: string, iri: Option<string>): (r: seq<Segment>)
    ensures |r| == |xml|
    ensures forall k :: 0 <= k < |xml| ==> r[k] == if xml[k] == Ref(id) then Iri(iri) else xml[k]
  {
    seq(|xml|, k requires 0 <= k < |xml| => if xml[k] == Ref(id) then Iri(iri) else xml[k])
  }

  /** The markup with each reference token replaced by the lookup of the id it names. */
  function Substituted(xml: seq<Segment>, lookup: map<string, string>): (r: seq<Segment>)
    ensures |r| == |xml|
  {
    seq(|xml|, k requires 0 <= k < |xml| =>
      if xml[k].Ref? then Iri(Get(lookup, TokenField(xml[k].id))) else xml[k])
  }

  /**
   * After substitution no reference token is left; everything else of the markup is
   * untouched; a token becomes the IRI of the resource it names, or None when the lookup
   * does not know that resource.
   */
  lemma SubstitutedTokens(xml: seq<Segment>, lookup: map<string, string>)
    ensures RefIds(Substituted(xml, lookup)) == []
    ensures forall k :: 0 <= k < |xml| && !xml[k].Ref? ==> Substituted(xml, lookup)[k] == xml[k]
    ensures forall k :: 0 <= k < |xml| && xml[k].Ref? ==>
      Substituted(xml, lookup)[k].Iri? &&
      (Substituted(xml, lookup)[k].iri.Some? <==> TokenField(xml[k].id) in lookup) &&
      (Substituted(xml, lookup)[k].iri.Some? ==> Substituted(xml, lookup)[k].iri.value == lookup[TokenField(xml[k].id)])
  {
    NoRefIds(Substituted(xml, lookup));
  }

  /** The `findall`/`replace` loop over the tokens of a markup value. */
  method SubstituteRefs(xml: seq<Segment>, resiriLookup: map<string, string>) returns (r: seq<Segment>)
    ensures r == Substituted(xml, resiriLookup)
  {
    var irirefs := RefIds(xml);
    r := xml;
    for t := 0 to |irirefs|
      invariant ReplacedUpTo(r, xml, irirefs[..t], resiriLookup)
    {
      var resid := TokenField(irirefs[t]);
      var iri := Get(resiriLookup, resid);
      ReplaceStep(r, xml, irirefs[..t], irirefs[t], resiriLookup);
      assert irirefs[..t + 1] == irirefs[..t] + [irirefs[t]];
      r := ReplaceRef(r, irirefs[t], iri);
    }
    assert irirefs[..|irirefs|] == irirefs;
    ReplacedAll(r, xml, resiriLookup);
  }

  /** `r` is `xml` with the tokens of the ids `done` replaced. */
  predicate ReplacedUpTo(r: seq<Segment>, xml: seq<Segment>, done: seq<string>, lookup: map<string, string>)
  {
    |r| == |xml| &&
    forall k :: 0 <= k < |xml| ==>
      r[k] == if xml[k].Ref? && xml[k].id in done then Iri(Get(lookup, TokenField(xml[k].id))) else xml[k]
  }

  /** Replacing the tokens of one more id. */
  lemma ReplaceStep(r: seq<Segment>, xml: seq<Segment>, done: seq<string>, id: string, lookup: map<string, string>)
    requires ReplacedUpTo(r, xml, done, lookup)
    ensures ReplacedUpTo(ReplaceRef(r, id, Get(lookup, TokenField(id))), xml, done + [id], lookup)
  {
    var r' := ReplaceRef(r, id, Get(lookup, TokenField(id)));
    forall k | 0 <= k < |xml|
      ensures r'[k] == if xml[k].Ref? && xml[k].id in done + [id] then Iri(Get(lookup, TokenField(xml[k].id))) else xml[k]
    {
      assert xml[k].Ref? ==> (xml[k].id in done + [id] <==> xml[k].id in done || xml[k].id == id);
    }
  }

  /** With the tokens of every referenced id replaced, the markup is substituted. */
  lemma ReplacedAll(r: seq<Segment>, xml: seq<Segment>, lookup: map<string, string>)
    requires ReplacedUpTo(r, xml, RefIds(xml), lookup)
    ensures r == Substituted(xml, lookup)
  {
    forall k | 0 <= k < |xml| ensures r[k] == Substituted(xml, lookup)[k] {
      if xml[k].Ref? {
        assert Ref(xml[k].id) == xml[k];
        assert xml[k].id in RefIds(xml);
      }
    }
  }

  /** What a value sends: a pointer resolved through the lookup or passed through, markup
      with its tokens substituted, anything else as it is. A markup value is no key of the
      lookup. */
  function Payload(valtype: string, v: KnoraValue, resiriLookup: map<string, string>): Content
  {
    if valtype == "resptr" then
      if v.value.Plain? && v.value.text in resiriLookup then Plain(resiriLookup[v.value.text]) else v.value
    else if valtype == "text" && v.value.Standoff? then Standoff(Substituted(v.value.xml, resiriLookup))
    else v.value
  }

  /** How one value is sent: bare, or a dict holding the value and the comment and the
      permission lookup that are present (the lookup itself may find nothing). */
  datatype Item =
    | Bare(value: Content)
    | Dict(value: Content, comment: Option<string>, permissions: Option<Option<seq<Grant>>>)

  /** A property's entry: its one item, or all of them in order. */
  datatype PropVal = One(item: Item) | Many(items: seq<Item>)

  function ItemOf(valtype: string, v: KnoraValue, resiriLookup: map<string, string>, permissionsLookup: map<string, seq<Grant>>): Item
  {
    var payload := Payload(valtype, v, resiriLookup);
    if v.comment.None? && v.permissions.None? then Bare(payload)
    else Dict(payload, v.comment, if v.permissions.Some? then Some(Get(permissionsLookup, v.permissions.value)) else None)
  }

  /** The comment an item carries. */
  function CommentOf(item: Item): Option<string>
  {
    if item.Bare? then None else item.comment
  }

  /** The permission set id an item was given, if any, read back through the lookup. */
  predicate HasPermissions(item: Item)
  {
    item.Dict? && item.permissions.Some?
  }

  /**
   * A value is sent bare exactly when it has neither comment nor permissions; otherwise as
   * a dict with only the keys present. Either way the item gives back the value's payload
   * and comment, and whether it named a permission set, which is then looked up.
   */
  lemma ItemShape(valtype: string, v: KnoraValue, resiriLookup: map<string, string>, permissionsLookup: map<string, seq<Grant>>)
    ensures ItemOf(valtype, v, resiriLookup, permissionsLookup).Bare? <==> v.comment.None? && v.permissions.None?
    ensures ItemOf(valtype, v, resiriLookup, permissionsLookup).value == Payload(valtype, v, resiriLookup)
    ensures CommentOf(ItemOf(valtype, v, resiriLookup, permissionsLookup)) == v.comment
    ensures HasPermissions(ItemOf(valtype, v, resiriLookup, permissionsLookup)) <==> v.permissions.Some?
    ensures v.permissions.Some? ==>
      (ItemOf(valtype, v, resiriLookup, permissionsLookup).permissions.value.Some? <==> v.permissions.value in permissionsLookup)
  {
  }

  /**
   * A pointer value known to the lookup is replaced by its IRI and otherwise passed through
   * unchanged; a markup value of a text property has each token substituted; values of any
   * other type are sent as parsed.
   */
  lemma PayloadResolution(valtype: string, v: KnoraValue, resiriLookup: map<string, string>)
    ensures valtype == "resptr" && v.value.Plain? && v.value.text in resiriLookup ==>
      Payload(valtype, v, resiriLookup) == Plain(resiriLookup[v.value.text])
    ensures valtype == "resptr" && !(v.value.Plain? && v.value.text in resiriLookup) ==>
      Payload(valtype, v, resiriLookup) == v.value
    ensures valtype == "text" && v.value.Standoff? ==>
      Payload(valtype, v, resiriLookup).Standoff? && RefIds(Payload(valtype, v, resiriLookup).xml) == []
    ensures valtype != "resptr" && valtype != "text" ==> Payload(valtype, v, resiriLookup) == v.value
  {
    if valtype == "text" && v.value.Standoff? {
      SubstitutedTokens(v.value.xml, resiriLookup);
    }
  }

  /** The items of the values, in order. */
  function Items(valtype: string, vs: seq<KnoraValue>, resiriLookup: map<string, string>, permissionsLookup: map<string, seq<Grant>>)
    : seq<Item>
    decreases |vs|
  {
    if vs == [] then []
    else Items(valtype, vs[..|vs| - 1], resiriLookup, permissionsLookup) + [ItemOf(valtype, vs[|vs| - 1], resiriLookup, permissionsLookup)]
  }

  /** `vals if len(vals) > 1 else vals[0]`. */
  function Collapse(name: string, items: seq<Item>): Result<PropVal, Error>
  {
    if |items| == 0 then Err(EmptyProperty(name))
    else if |items| > 1 then Ok(Many(items))
    else Ok(One(items[0]))
  }

  /** The entries of the properties, a later property overwriting an earlier one of the
      same name; the first property without values raises. */
  function Propvals(props: seq<KnoraProperty>, resiriLookup: map<string, string>, permissionsLookup: map<string, seq<Grant>>)
    : Result<map<string, PropVal>, Error>
    decreases |props|
  {
    if props == [] then Ok(map[])
    else
      var m :- Propvals(props[..|props| - 1], resiriLookup, permissionsLookup);
      var p := props[|props| - 1];
      var entry :- Collapse(p.name, Items(p.valtype, p.values, resiriLookup, permissionsLookup));
      Ok(m[p.name := entry])
  }

  /** The entries of one more property: those so far updated by its entry, or its error. */
  lemma PropvalsNext(props: seq<KnoraProperty>, i: nat, resiriLookup: map<string, string>, permissionsLookup: map<string, seq<Grant>>, m: map<string, PropVal>)
    requires i < |props| && Propvals(props[..i], resiriLookup, permissionsLookup) == Ok(m)
    ensures var p := props[i];
      Propvals(props[..i + 1], resiriLookup, permissionsLookup) ==
        match Collapse(p.name, Items(p.valtype, p.values, resiriLookup, permissionsLookup))
        case Ok(entry) => Ok(m[p.name := entry])
        case Err(e) => Err(e)
  {
    assert props[..i + 1][..i] == props[..i];
  }

  /** The value loop of `get_propvals` for one property. */
  method PropertyItems(property: KnoraProperty, resiriLookup: map<string, string>, permissionsLookup: map<string, seq<Grant>>)
    returns (vals: seq<Item>)
    ensures vals == Items(property.valtype, property.values, resiriLookup, permissionsLookup)
  {
    vals := [];
    for j := 0 to |property.values|
      invariant vals == Items(property.valtype, property.values[..j], resiriLookup, permissionsLookup)
    {
      var value := property.values[j];
      assert property.values[..j + 1][..j] == property.values[..j];
      var v := ValuePayload(property.valtype, value, resiriLookup);
      if value.comment.None? && value.permissions.None? {
        vals := vals + [Bare(v)];
      } else {
        var perms := if value.permissions.Some? then Some(Get(permissionsLookup, value.permissions.value)) else None;
        vals := vals + [Dict(v, value.comment, perms)];
      }
    }
    assert property.values[..|property.values|] == property.values;
  }

  /** The payload of one value, as the value loop of `get_propvals` computes it. */
  method ValuePayload(valtype: string, value: KnoraValue, resiriLookup: map<string, string>) returns (v: Content)
    ensures v == Payload(valtype, value, resiriLookup)
  {
    if valtype == "resptr" {
      var iri := if value.value.Plain? then Get(resiriLookup, value.value.text) else None;
      if iri.Some? {
        v := Plain(iri.value);
      } else {
        v := value.value;
      }
    } else if valtype == "text" {
      if value.value.Standoff? {
        var xml := SubstituteRefs(value.value.xml, resiriLookup);
        v := Standoff(xml);
      } else {
        v := value.value;
      }
    } else {
      v := value.value;
    }
  }

  /** `get_propvals`. */
  method GetPropvals(r: KnoraResource, resiriLookup: map<string, string>, permissionsLookup: map<string, seq<Grant>>)
    returns (res: Result<map<string, PropVal>, Error>)
    ensures res == Propvals(r.properties, resiriLookup, permissionsLookup)
  {
    var props := r.properties;
    var propdata: map<string, PropVal> := map[];
    for i := 0 to |props|
      invariant Propvals(props[..i], resiriLookup, permissionsLookup) == Ok(propdata)
    {
      var property := props[i];
      var vals := PropertyItems(property, resiriLookup, permissionsLookup);
      PropvalsNext(props, i, resiriLookup, permissionsLookup, propdata);
      if |vals| == 0 {
        PropvalsErrSticks(props, i + 1, resiriLookup, permissionsLookup);
        return Err(EmptyProperty(property.name));
      }
      propdata := propdata[property.name := if |vals| > 1 then Many(vals) else One(vals[0])];
    }
    assert props[..|props|] == props;
    return Ok(propdata);
  }

  /** The items of a property are those of its values, one each, in order. */
  lemma {:induction false} ItemsInOrder(valtype: string, vs: seq<KnoraValue>, resiriLookup: map<string, string>, permissionsLookup: map<string, seq<Grant>>)
    ensures |Items(valtype, vs, resiriLookup, permissionsLookup)| == |vs|
    ensures forall j :: 0 <= j < |vs| ==>
      Items(valtype, vs, resiriLookup, permissionsLookup)[j] == ItemOf(valtype, vs[j], resiriLookup, permissionsLookup)
    decreases |vs|
  {
    if vs != [] {
      var init := vs[..|vs| - 1];
      ItemsInOrder(valtype, init, resiriLookup, permissionsLookup);
      forall j | 0 <= j < |init| ensures init[j] == vs[j] { }
    }
  }

  /**
   * A property with one value is sent as that value's item, one with more as the list of
   * its values' items in order, and one with none raises.
   */
  lemma PropertyShape(p: KnoraProperty, resiriLookup: map<string, string>, permissionsLookup: map<string, seq<Grant>>)
    ensures |p.values| == 0 ==> Collapse(p.name, Items(p.valtype, p.values, resiriLookup, permissionsLookup)) == Err(EmptyProperty(p.name))
    ensures |p.values| == 1 ==> (Collapse(p.name, Items(p.valtype, p.values, resiriLookup, permissionsLookup)) ==
      Ok(One(ItemOf(p.valtype, p.values[0], resiriLookup, permissionsLookup))))
    ensures |p.values| > 1 ==>
      var c := Collapse(p.name, Items(p.valtype, p.values, resiriLookup, permissionsLookup));
      c.Ok? && c.value.Many? && |c.value.items| == |p.values| &&
      forall j :: 0 <= j < |p.values| ==> c.value.items[j] == ItemOf(p.valtype, p.values[j], resiriLookup, permissionsLookup)
  {
    ItemsInOrder(p.valtype, p.values, resiriLookup, permissionsLookup);
  }

  /** The names of the properties. */
  function Names(props: seq<KnoraProperty>): set<string>
  {
    set k | 0 <= k < |props| :: props[k].name
  }

  /** The last property, in document order, that carries `name`. */
  predicate LastWithName(props: seq<KnoraProperty>, k: nat)
  {
    k < |props| && forall j :: k < j < |props| ==> props[j].name != props[k].name
  }

  /** Once a prefix of the properties raises, so do all the properties. */
  lemma {:induction false} PropvalsErrSticks(props: seq<KnoraProperty>, n: nat, resiriLookup: map<string, string>, permissionsLookup: map<string, seq<Grant>>)
    requires n <= |props| && Propvals(props[..n], resiriLookup, permissionsLookup).Err?
    ensures Propvals(props, resiriLookup, permissionsLookup) == Propvals(props[..n], resiriLookup, permissionsLookup)
    decreases |props|
  {
    if n < |props| {
      var init := props[..|props| - 1];
      assert init[..n] == props[..n];
      PropvalsErrSticks(init, n, resiriLookup, permissionsLookup);
    } else {
      assert props[..n] == props;
    }
  }

  /** `get_propvals` succeeds exactly when every property has a value. */
  lemma {:induction false} PropvalsOk(props: seq<KnoraProperty>, resiriLookup: map<string, string>, permissionsLookup: map<string, seq<Grant>>)
    ensures Propvals(props, resiriLookup, permissionsLookup).Ok? <==> forall k :: 0 <= k < |props| ==> |props[k].values| > 0
    decreases |props|
  {
    if props != [] {
      var init, p := props[..|props| - 1], props[|props| - 1];
      PropvalsOk(init, resiriLookup, permissionsLookup);
      forall k | 0 <= k < |init| ensures init[k] == props[k] { }
    }
  }

  /** When `get_propvals` raises, it names the first property without values. */
  lemma {:induction false} PropvalsFirstEmpty(props: seq<KnoraProperty>, resiriLookup: map<string, string>, permissionsLookup: map<string, seq<Grant>>)
    ensures Propvals(props, resiriLookup, permissionsLookup).Err? ==>
      exists k :: 0 <= k < |props| && |props[k].values| == 0 &&
        Propvals(props, resiriLookup, permissionsLookup).error == EmptyProperty(props[k].name) &&
        forall j :: 0 <= j < k ==> |props[j].values| > 0
    decreases |props|
  {
    if props != [] {
      var init, p := props[..|props| - 1], props[|props| - 1];
      PropvalsFirstEmpty(init, resiriLookup, permissionsLookup);
      PropvalsOk(init, resiriLookup, permissionsLookup);
      forall k | 0 <= k < |init| ensures init[k] == props[k] { }
      if Propvals(init, resiriLookup, permissionsLookup).Ok? && Propvals(props, resiriLookup, permissionsLookup).Err? {
        ItemsInOrder(p.valtype, p.values, resiriLookup, permissionsLookup);
        assert |props[|props| - 1].values| == 0;
      }
    }
  }

  /** On success there is one entry per property name. */
  lemma {:induction false} PropvalsKeys(props: seq<KnoraProperty>, resiriLookup: map<string, string>, permissionsLookup: map<string, seq<Grant>>)
    ensures Propvals(props, resiriLookup, permissionsLookup).Ok? ==>
      Propvals(props, resiriLookup, permissionsLookup).value.Keys == Names(props)
    decreases |props|
  {
    if props != [] {
      var init, p := props[..|props| - 1], props[|props| - 1];
      PropvalsKeys(init, resiriLookup, permissionsLookup);
      assert Names(props) == Names(init) + {p.name} by {
        forall n | n in Names(props) ensures n in Names(init) + {p.name} {
          var k :| 0 <= k < |props| && props[k].name == n;
          if k < |init| { assert init[k].name == n; }
        }
        forall n | n in Names(init) ensures n in Names(props) {
          var k :| 0 <= k < |init| && init[k].name == n;
          assert props[k].name == n;
        }
      }
    }
  }

  /** On success the entry of a name is that of the last property with the name: later
      properties overwrite earlier ones. */
  lemma {:induction false} PropvalsLastWins(props: seq<KnoraProperty>, resiriLookup: map<string, string>, permissionsLookup: map<string, seq<Grant>>)
    ensures Propvals(props, resiriLookup, permissionsLookup).Ok? ==>
      var m := Propvals(props, resiriLookup, permissionsLookup).value;
      forall k: nat :: LastWithName(props, k) ==>
        props[k].name in m &&
        Ok(m[props[k].name]) == Collapse(props[k].name, Items(props[k].valtype, props[k].values, resiriLookup, permissionsLookup))
    decreases |props|
  {
    if props != [] && Propvals(props, resiriLookup, permissionsLookup).Ok? {
      var init, p := props[..|props| - 1], props[|props| - 1];
      PropvalsLastWins(init, resiriLookup, permissionsLookup);
      var m := Propvals(props, resiriLookup, permissionsLookup).value;
      var m0 := Propvals(init, resiriLookup, permissionsLookup).value;
      assert m == m0[p.name := Collapse(p.name, Items(p.valtype, p.values, resiriLookup, permissionsLookup)).value];
      forall k: nat | LastWithName(props, k)
        ensures props[k].name in m &&
          Ok(m[props[k].name]) == Collapse(props[k].name, Items(props[k].valtype, props[k].values, resiriLookup, permissionsLookup))
      {
        if k < |init| {
          assert init[k] == props[k];
          assert LastWithName(init, k);
        }
      }
    }
  }
}

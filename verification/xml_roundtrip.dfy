/**
 * Writing a resource out as the events of its XML and reading them back with the
 * streaming parser gives the resource again: each `X-prop` element becomes a property of
 * value type X, its values in document order, and the image and attributes are kept.
 * Values here are plain (not XML-encoded) and of any type except list, whose text the
 * parser prefixes with the list name.
 */
module XmlRoundTrip {
  import opened Wrappers
  import opened XmlModel
  import opened XmlParser
  import opened ParserFacts

  // ---------------------------------------------------------------------------------
  // Writing events
  // ---------------------------------------------------------------------------------

  /** The optional attributes of a value element. */
  function ValueAttrs(comment: Option<string>, permissions: Option<string>): (attrs: map<string, string>)
    ensures Get(attrs, "comment") == comment && Get(attrs, "permissions") == permissions
    ensures "encoding" !in attrs
  {
    var c := if comment.Some? then map["comment" := comment.value] else map[];
    var p := if permissions.Some? then map["permissions" := permissions.value] else map[];
    c + p
  }

  /** The element of a plain value of type `valtype`. */
  function ValueElement(valtype: string, v: KnoraValue): Element
    requires v.value.Plain?
  {
    Element(valtype, ValueAttrs(v.comment, v.permissions), v.value.text, [])
  }

  /** `<valtype ...>text</valtype>`. */
  function EmitValue(valtype: string, v: KnoraValue): seq<Event>
    requires v.value.Plain?
  {
    [Start(ValueElement(valtype, v)), End(valtype, v.value.text)]
  }

  /** A value the parser reads back as it is: plain text without references, in a
      property that is not a list. */
  predicate PlainValue(valtype: string, v: KnoraValue)
  {
    v.value.Plain? && v.resrefs.None? && valtype != "list"
  }

  predicate PlainValues(valtype: string, vs: seq<KnoraValue>)
  {
    forall k :: 0 <= k < |vs| ==> PlainValue(valtype, vs[k])
  }

  function EmitValues(valtype: string, vs: seq<KnoraValue>): seq<Event>
    requires PlainValues(valtype, vs)
  {
    if vs == [] then [] else EmitValue(valtype, vs[0]) + EmitValues(valtype, vs[1..])
  }

  /** The tag of a property of value type `valtype`. */
  function PropTag(valtype: string): string
  {
    valtype + "-prop"
  }

  /** A property the parser reads back as it is: its tag is a property tag declaring its
      value type, its name is already qualified, and its values are plain. */
  predicate PlainProperty(p: KnoraProperty, defaultOntology: Option<string>)
  {
    PropTag(p.valtype) in PropTagValtype && PropTagValtype[PropTag(p.valtype)] == p.valtype &&
    QualifyName(p.name, defaultOntology) == Ok(p.name) &&
    PlainValues(p.valtype, p.values)
  }

  predicate PlainProperties(ps: seq<KnoraProperty>, defaultOntology: Option<string>)
  {
    forall k {:trigger PlainProperty(ps[k], defaultOntology)} :: 0 <= k < |ps| ==> PlainProperty(ps[k], defaultOntology)
  }

  function PropertyElement(p: KnoraProperty): Element
  {
    Element(PropTag(p.valtype), map["name" := p.name], "", [])
  }

  /** `<X-prop name="...">values</X-prop>`. */
  function EmitProperty(p: KnoraProperty, defaultOntology: Option<string>): seq<Event>
    requires PlainProperty(p, defaultOntology)
  {
    [Start(PropertyElement(p))] + (EmitValues(p.valtype, p.values) + [End(PropTag(p.valtype), "")])
  }

  function EmitProperties(ps: seq<KnoraProperty>, defaultOntology: Option<string>): seq<Event>
    requires PlainProperties(ps, defaultOntology)
  {
    if ps == [] then [] else EmitProperty(ps[0], defaultOntology) + EmitProperties(ps[1..], defaultOntology)
  }

  /** `<image>path</image>`, or nothing. */
  function EmitImage(image: Option<string>): seq<Event>
  {
    if image.None? then [] else [Start(Element("image", map[], "", [])), End("image", image.value)]
  }

  /** A resource the parser reads back as it is. */
  predicate PlainResource(r: KnoraResource, defaultOntology: Option<string>)
  {
    QualifyName(r.restype, defaultOntology) == Ok(r.restype) && PlainProperties(r.properties, defaultOntology)
  }

  function ResourceElement(r: KnoraResource): Element
  {
    Element("resource",
      map["id" := r.id, "label" := r.labelText, "restype" := r.restype, "permissions" := r.permissions], "", [])
  }

  /** The events of `<resource ...>image properties</resource>`, after its start tag. */
  function EmitResourceBody(r: KnoraResource, defaultOntology: Option<string>): seq<Event>
    requires PlainResource(r, defaultOntology)
  {
    EmitImage(r.image) + EmitProperties(r.properties, defaultOntology) + [End("resource", "")]
  }

  // ---------------------------------------------------------------------------------
  // Reading them back
  // ---------------------------------------------------------------------------------

  /** A plain value is read back from its two events. */
  lemma ValueRead(events: seq<Event>, i: nat, valtype: string, v: KnoraValue, listname: Option<string>)
    requires PlainValue(valtype, v) && Occurs(events, i, EmitValue(valtype, v))
    ensures events[i] == Start(ValueElement(valtype, v))
    ensures ValueSpec(events, i + 1, ValueElement(valtype, v), valtype, listname) == Ok(Parsed(v, i + 2))
  {
    var e := EmitValue(valtype, v);
    assert events[i] == e[0] && events[i + 1] == e[1];
    assert ValueOf(ValueElement(valtype, v), valtype, listname) == Ok(v);
    StepClose(events, i + 1, AllowedTags(valtype), valtype);
  }

  /** The property loop reads one plain value. */
  lemma ValueStep(events: seq<Event>, i: nat, valtype: string, listname: Option<string>, acc: seq<KnoraValue>, v: KnoraValue)
    requires PlainValue(valtype, v) && Occurs(events, i, EmitValue(valtype, v))
    ensures ScanProperty(events, i, valtype, listname, acc) == ScanProperty(events, i + 2, valtype, listname, acc + [v])
  {
    ValueRead(events, i, valtype, v, listname);
  }

  /** The property loop reads the first of a list of plain values; what follows are the
      events of the rest. */
  lemma ValuesStep(events: seq<Event>, i: nat, valtype: string, listname: Option<string>, acc: seq<KnoraValue>, vs: seq<KnoraValue>)
    requires vs != [] && PlainValues(valtype, vs) && Occurs(events, i, EmitValues(valtype, vs))
    ensures PlainValues(valtype, vs[1..])
    ensures |EmitValues(valtype, vs)| == 2 + |EmitValues(valtype, vs[1..])|
    ensures Occurs(events, i + 2, EmitValues(valtype, vs[1..]))
    ensures ScanProperty(events, i, valtype, listname, acc) == ScanProperty(events, i + 2, valtype, listname, acc + [vs[0]])
  {
    OccursSplit(events, i, EmitValue(valtype, vs[0]), EmitValues(valtype, vs[1..]));
    ValueStep(events, i, valtype, listname, acc, vs[0]);
  }

  /** The values of a property are read back in order. */
  lemma {:induction false} ValuesRead(
    events: seq<Event>, i: nat, valtype: string, listname: Option<string>, acc: seq<KnoraValue>, vs: seq<KnoraValue>)
    requires PlainValues(valtype, vs) && Occurs(events, i, EmitValues(valtype, vs))
    ensures ScanProperty(events, i, valtype, listname, acc) ==
      ScanProperty(events, i + |EmitValues(valtype, vs)|, valtype, listname, acc + vs)
    decreases |vs|
  {
    if vs == [] {
      assert acc + vs == acc;
    } else {
      ValuesStep(events, i, valtype, listname, acc, vs);
      ValuesRead(events, i + 2, valtype, listname, acc + [vs[0]], vs[1..]);
      assert acc + [vs[0]] + vs[1..] == acc + vs;
    }
  }

  /** A property end tag closes the property loop. */
  lemma PropertyEnd(events: seq<Event>, j: nat, valtype: string, listname: Option<string>, values: seq<KnoraValue>)
    requires j < |events| && events[j] == End(PropTag(valtype), "") && PropTag(valtype) in PropTagValtype
    ensures ScanProperty(events, j, valtype, listname, values) == Ok(Parsed(values, j + 1))
  {
  }

  /** A property element whose values scan to `p.values` parses to `p`. */
  lemma PropertySpecScanned(events: seq<Event>, pos: nat, p: KnoraProperty, defaultOntology: Option<string>, next: nat)
    requires QualifyName(p.name, defaultOntology) == Ok(p.name)
    requires ScanProperty(events, pos, p.valtype, None, []) == Ok(Parsed(p.values, next))
    ensures PropertySpec(events, pos, PropertyElement(p), p.valtype, defaultOntology) == Ok(Parsed(p, next))
  {
    assert Get(PropertyElement(p).attrs, "list") == None;
  }

  /** The values of a property and its end tag are read back as the property's values. */
  lemma PropertyContentRead(events: seq<Event>, k: nat, p: KnoraProperty, defaultOntology: Option<string>)
    requires PlainProperty(p, defaultOntology)
    requires Occurs(events, k, EmitValues(p.valtype, p.values) + [End(PropTag(p.valtype), "")])
    ensures ScanProperty(events, k, p.valtype, None, []) ==
      Ok(Parsed(p.values, k + |EmitValues(p.valtype, p.values)| + 1))
  {
    var values := EmitValues(p.valtype, p.values);
    var j := k + |values|;
    OccursSplit(events, k, values, [End(PropTag(p.valtype), "")]);
    OccursAt(events, j, [End(PropTag(p.valtype), "")], 0);
    ValuesRead(events, k, p.valtype, None, [], p.values);
    assert [] + p.values == p.values;
    PropertyEnd(events, j, p.valtype, None, p.values);
  }

  /** A property is read back from its events, the cursor ending after its end tag. */
  lemma PropertyRead(events: seq<Event>, i: nat, p: KnoraProperty, defaultOntology: Option<string>)
    requires PlainProperty(p, defaultOntology) && Occurs(events, i, EmitProperty(p, defaultOntology))
    ensures events[i] == Start(PropertyElement(p))
    ensures PropertySpec(events, i + 1, PropertyElement(p), p.valtype, defaultOntology) ==
      Ok(Parsed(p, i + |EmitProperty(p, defaultOntology)|))
  {
    var start := [Start(PropertyElement(p))];
    OccursSplit(events, i, start, EmitValues(p.valtype, p.values) + [End(PropTag(p.valtype), "")]);
    OccursAt(events, i, start, 0);
    PropertyContentRead(events, i + 1, p, defaultOntology);
    PropertySpecScanned(events, i + 1, p, defaultOntology, i + |EmitProperty(p, defaultOntology)|);
  }

  /** The resource loop reads one property. */
  lemma PropertyStep(events: seq<Event>, i: nat, resNode: Element, defaultOntology: Option<string>, body: ResourceBody, p: KnoraProperty)
    requires PlainProperty(p, defaultOntology) && Occurs(events, i, EmitProperty(p, defaultOntology))
    ensures ScanResource(events, i, resNode, defaultOntology, body) ==
      ScanResource(events, i + |EmitProperty(p, defaultOntology)|, resNode, defaultOntology,
        body.(properties := body.properties + [p]))
  {
    PropertyRead(events, i, p, defaultOntology);
  }

  /** The head and the tail of plain properties are plain, and the events of the list are
      those of its head followed by those of its tail. */
  lemma PropertiesCons(ps: seq<KnoraProperty>, defaultOntology: Option<string>)
    requires ps != [] && PlainProperties(ps, defaultOntology)
    ensures PlainProperty(ps[0], defaultOntology) && PlainProperties(ps[1..], defaultOntology)
    ensures EmitProperties(ps, defaultOntology) == EmitProperty(ps[0], defaultOntology) + EmitProperties(ps[1..], defaultOntology)
  {
    assert PlainProperty(ps[0], defaultOntology);
    forall k | 0 <= k < |ps[1..]| ensures PlainProperty(ps[1..][k], defaultOntology) {
      assert ps[1..][k] == ps[k + 1] && PlainProperty(ps[k + 1], defaultOntology);
    }
  }

  /** The resource loop reads the first of a list of properties; what follows are the
      events of the rest. */
  lemma PropertiesStep(events: seq<Event>, i: nat, resNode: Element, defaultOntology: Option<string>,
    body: ResourceBody, ps: seq<KnoraProperty>) returns (h: nat)
    requires ps != [] && PlainProperties(ps, defaultOntology) && Occurs(events, i, EmitProperties(ps, defaultOntology))
    ensures PlainProperties(ps[1..], defaultOntology)
    ensures |EmitProperties(ps, defaultOntology)| == h + |EmitProperties(ps[1..], defaultOntology)|
    ensures Occurs(events, i + h, EmitProperties(ps[1..], defaultOntology))
    ensures ScanResource(events, i, resNode, defaultOntology, body) ==
      ScanResource(events, i + h, resNode, defaultOntology, body.(properties := body.properties + [ps[0]]))
  {
    PropertiesCons(ps, defaultOntology);
    h := |EmitProperty(ps[0], defaultOntology)|;
    OccursSplit(events, i, EmitProperty(ps[0], defaultOntology), EmitProperties(ps[1..], defaultOntology));
    PropertyStep(events, i, resNode, defaultOntology, body, ps[0]);
  }

  /** The resource loop depends on nothing but the cursor and what it has read. */
  lemma ScanAt(events: seq<Event>, i: nat, j: nat, resNode: Element, defaultOntology: Option<string>, b: ResourceBody, c: ResourceBody)
    requires i == j && b == c
    ensures ScanResource(events, i, resNode, defaultOntology, b) == ScanResource(events, j, resNode, defaultOntology, c)
  {
  }

  /** The properties of a resource are read back in order. */
  lemma {:induction false} PropertiesRead(
    events: seq<Event>, i: nat, resNode: Element, defaultOntology: Option<string>, body: ResourceBody, ps: seq<KnoraProperty>)
    requires PlainProperties(ps, defaultOntology) && Occurs(events, i, EmitProperties(ps, defaultOntology))
    ensures ScanResource(events, i, resNode, defaultOntology, body) ==
      ScanResource(events, i + |EmitProperties(ps, defaultOntology)|, resNode, defaultOntology,
        body.(properties := body.properties + ps))
    decreases |ps|
  {
    if ps == [] {
      ScanAt(events, i, i + |EmitProperties(ps, defaultOntology)|, resNode, defaultOntology,
        body, body.(properties := body.properties + ps));
    } else {
      var h := PropertiesStep(events, i, resNode, defaultOntology, body, ps);
      var t := |EmitProperties(ps[1..], defaultOntology)|;
      var next := body.(properties := body.properties + [ps[0]]);
      PropertiesRead(events, i + h, resNode, defaultOntology, next, ps[1..]);
      assert next.(properties := next.properties + ps[1..]) == body.(properties := body.properties + ps) by {
        assert body.properties + [ps[0]] + ps[1..] == body.properties + ps;
      }
      ScanAt(events, i + h + t, i + |EmitProperties(ps, defaultOntology)|, resNode, defaultOntology,
        next.(properties := next.properties + ps[1..]), body.(properties := body.properties + ps));
    }
  }

  /** The optional image is read back; the text of the resource element is overwritten
      by the text of the image element. */
  lemma ImageRead(events: seq<Event>, i: nat, resNode: Element, defaultOntology: Option<string>, image: Option<string>)
    requires Occurs(events, i, EmitImage(image))
    ensures ScanResource(events, i, resNode, defaultOntology, ResourceBody(None, [])) ==
      ScanResource(events, i + |EmitImage(image)|, resNode, defaultOntology, ResourceBody(image, []))
  {
    if image.Some? {
      var e := EmitImage(image);
      assert events[i] == e[0] && events[i + 1] == e[1];
      assert ScanResource(events, i, resNode, defaultOntology, ResourceBody(None, [])) ==
        ScanResource(events, i + 1, resNode, defaultOntology, ResourceBody(Some(resNode.text), []));
      assert ScanResource(events, i + 1, resNode, defaultOntology, ResourceBody(Some(resNode.text), [])) ==
        ScanResource(events, i + 2, resNode, defaultOntology, ResourceBody(image, []));
    }
  }

  /** `</resource>` closes the resource loop. */
  lemma ResourceEnd(events: seq<Event>, j: nat, node: Element, defaultOntology: Option<string>, body: ResourceBody)
    requires j < |events| && events[j] == End("resource", "")
    ensures ScanResource(events, j, node, defaultOntology, body) == Ok(Parsed(body, j + 1))
  {
  }

  /** A resource element whose body scans to the resource's image and properties parses
      to the resource. */
  lemma ResourceSpecScanned(events: seq<Event>, pos: nat, r: KnoraResource, defaultOntology: Option<string>, next: nat)
    requires QualifyName(r.restype, defaultOntology) == Ok(r.restype)
    requires ScanResource(events, pos, ResourceElement(r), defaultOntology, ResourceBody(None, [])) ==
      Ok(Parsed(ResourceBody(r.image, r.properties), next))
    ensures ResourceSpec(events, pos, ResourceElement(r), defaultOntology) == Ok(Parsed(r, next))
  {
  }

  /** The image and the properties of a resource are read back in order. */
  lemma ResourceContentRead(events: seq<Event>, i: nat, node: Element, r: KnoraResource, defaultOntology: Option<string>)
    requires PlainResource(r, defaultOntology)
    requires Occurs(events, i, EmitImage(r.image) + EmitProperties(r.properties, defaultOntology))
    ensures ScanResource(events, i, node, defaultOntology, ResourceBody(None, [])) ==
      ScanResource(events, i + |EmitImage(r.image)| + |EmitProperties(r.properties, defaultOntology)|,
        node, defaultOntology, ResourceBody(r.image, r.properties))
  {
    var image := EmitImage(r.image);
    OccursSplit(events, i, image, EmitProperties(r.properties, defaultOntology));
    ImageRead(events, i, node, defaultOntology, r.image);
    PropertiesRead(events, i + |image|, node, defaultOntology, ResourceBody(r.image, []), r.properties);
    assert [] + r.properties == r.properties;
  }

  /**
   * A resource written out as events is read back as the same resource, the cursor ending
   * just after `</resource>`.
   */
  lemma ResourceRoundTrip(events: seq<Event>, i: nat, r: KnoraResource, defaultOntology: Option<string>)
    requires PlainResource(r, defaultOntology) && Occurs(events, i, EmitResourceBody(r, defaultOntology))
    ensures ResourceSpec(events, i, ResourceElement(r), defaultOntology) ==
      Ok(Parsed(r, i + |EmitResourceBody(r, defaultOntology)|))
  {
    var content := EmitImage(r.image) + EmitProperties(r.properties, defaultOntology);
    var j := i + |content|;
    OccursSplit(events, i, content, [End("resource", "")]);
    OccursAt(events, j, [End("resource", "")], 0);
    ResourceContentRead(events, i, ResourceElement(r), r, defaultOntology);
    ResourceEnd(events, j, ResourceElement(r), defaultOntology, ResourceBody(r.image, r.properties));
    ResourceSpecScanned(events, i, r, defaultOntology, j + 1);
  }
}

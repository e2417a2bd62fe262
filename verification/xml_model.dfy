/**
 * The data the XML upload works on: the start/end event stream that `etree.iterparse`
 * delivers, the parsed resources, properties, values and permission sets, the errors
 * the parsers raise, and the rule that qualifies property and resource-class names.
 */
module XmlModel {
  import opened Wrappers
  import opened Strings

  /**
   * One piece of the serialised markup of an XML-encoded text value (a KnoraStandoffXml).
   * Markup is copied verbatim; a reference to another resource is the token
   * `IRI:<id>:IRI`; a substituted token holds the IRI looked up for it, or None.
   */
  datatype Segment =
    | Chars(chars: string)
    | Ref(id: string)
    | Iri(iri: Option<string>)

  /** The text of the reference token wrapping `id`. */
  function Token(id: string): string
  {
    "IRI:" + id + ":IRI"
  }

  /** The fields of a token split at `:` start with "IRI" and the first field of the id. */
  lemma TokenSplit(id: string)
    ensures |Split(Token(id), ':')| >= 2
    ensures Split(Token(id), ':')[1] == Split(id, ':')[0]
    ensures ':' !in id ==> Split(Token(id), ':')[1] == id
  {
    if ':' !in id { SplitFree(id, ':'); }
    assert Token(id) == "IRI" + [':'] + (id + [':'] + "IRI");
    SplitAtFirst("IRI", id + [':'] + "IRI", ':');
    SplitFirstPiece(id, "IRI", ':');
  }

  /** `tmpid.split(':')[1]`: the id a reference token names. */
  function TokenField(id: string): (f: string)
    ensures ':' !in id ==> f == id
    ensures f == Split(id, ':')[0]
  {
    TokenSplit(id);
    Split(Token(id), ':')[1]
  }

  /** `findall()`: the ids of the reference tokens of a markup blob, in document order. */
  function RefIds(xml: seq<Segment>): (ids: seq<string>)
    ensures forall id :: id in ids <==> Ref(id) in xml
  {
    if xml == [] then []
    else (if xml[0].Ref? then [xml[0].id] else []) + RefIds(xml[1..])
  }

  /** Markup without reference tokens names no ids. */
  lemma {:induction false} NoRefIds(xml: seq<Segment>)
    requires forall k :: 0 <= k < |xml| ==> !xml[k].Ref?
    ensures RefIds(xml) == []
  {
    if xml != [] {
      NoRefIds(xml[1..]);
    }
  }

  /** An element as the parser sees it when it opens: its tag, its attributes, the text
      the parser reads from it, and its serialisation as markup (read only for
      XML-encoded values). */
  datatype Element = Element(tag: string, attrs: map<string, string>, text: string, xml: seq<Segment>)

  /** One event of `etree.iterparse(..., events=("start", "end"))`: an element opens, or
      an element closes (with the text the parser reads from it then). */
  datatype Event = Start(node: Element) | End(tag: string, text: string)

  /** The payload of a value: a string, or a markup blob for `encoding="xml"`. */
  datatype Content = Plain(text: string) | Standoff(xml: seq<Segment>)

  /** KnoraValue: `resrefs` are the ids the markup refers to, None when there are none. */
  datatype KnoraValue = KnoraValue(
    value: Content,
    resrefs: Option<seq<string>>,
    comment: Option<string>,
    permissions: Option<string>)

  /** KnoraProperty: a qualified name, the value type its tag names, its values in order. */
  datatype KnoraProperty = KnoraProperty(name: string, valtype: string, values: seq<KnoraValue>)

  /** KnoraResource: as parsed from a `<resource>` element. */
  datatype KnoraResource = KnoraResource(
    id: string,
    labelText: string,
    restype: string,
    permissions: string,
    image: Option<string>,
    properties: seq<KnoraProperty>)

  /** XmlAllow: one `<allow>` of a permission set, with its group already resolved. */
  datatype XmlAllow = XmlAllow(group: string, permission: string)

  /** XmlPermission: a named permission set, its allows in document order. */
  datatype XmlPermission = XmlPermission(id: string, allows: seq<XmlAllow>)

  /** What the upload raises. The first five are XmlError; the others are the Python
      exceptions the code lets escape. */
  datatype Error =
    | UnexpectedStart(tag: string)
    | UnexpectedEnd(tag: string, expected: string)
    | UnknownPropertyEnd(tag: string)
    | UnknownGroup(group: string)
    | NoProjectName
    | MissingAttribute(attr: string)     // KeyError from node.attrib[attr]
    | NoneOperand                        // TypeError: None + ':' + ...
    | EventsExhausted                    // StopIteration from next(context)
    | EmptyProperty(name: string)        // IndexError from vals[0]

  /** The tags a rich-text (`<text encoding="xml">`) value may contain. */
  const RichtextTags: seq<string> := [
    "p", "em", "strong", "u", "sub", "strike", "a", "h1", "h2", "h3", "h4", "h5", "h6", "ol", "ul", "li",
    "tbody", "table", "tr", "td", "br", "hr", "pre", "cite", "blockquote", "code"]

  /** The property tags a resource may contain, each with the value type it declares;
      the same tags are the accepted property end tags. */
  const PropTagValtype: map<string, string> := map[
    "text-prop" := "text", "color-prop" := "color", "date-prop" := "date",
    "decimal-prop" := "decimal", "geometry-prop" := "geometry", "geoname-prop" := "geoname",
    "list-prop" := "list", "iconclass-prop" := "iconclass", "integer-prop" := "integer",
    "interval-prop" := "interval", "period-prop" := "period", "resptr-prop" := "resptr",
    "time-prop" := "time", "uri-prop" := "uri", "boolean-prop" := "boolean"]

  /** The ontology of bare names and of the built-in groups. */
  const AdminOntology := "knora-admin"

  /**
   * The qualification of a property name or a resource class: `p:x` stays as it is,
   * `:x` takes the default ontology, a bare `x` goes to knora-admin. Only the second
   * field of `:x:y` is kept. With no default ontology, `:x` raises (None + str).
   */
  function QualifyName(name: string, defaultOntology: Option<string>): Result<string, Error>
  {
    var parts := Split(name, ':');
    if |parts| > 1 then
      if parts[0] != "" then Ok(name)
      else if defaultOntology.None? then Err(NoneOperand)
      else Ok(defaultOntology.value + ":" + parts[1])
    else Ok(AdminOntology + ":" + parts[0])
  }

  /** A name with a non-empty prefix is kept verbatim, whatever follows the colon. */
  lemma QualifyPrefixed(prefix: string, local: string, defaultOntology: Option<string>)
    requires prefix != "" && ':' !in prefix
    ensures QualifyName(prefix + ":" + local, defaultOntology) == Ok(prefix + ":" + local)
  {
    SplitAtFirst(prefix, local, ':');
    assert prefix + ":" + local == prefix + [':'] + local;
  }

  /** `:x` becomes `<default ontology>:x`, and raises without a default ontology. */
  lemma QualifyEmptyPrefix(local: string, defaultOntology: Option<string>)
    requires ':' !in local
    ensures QualifyName(":" + local, defaultOntology) ==
      if defaultOntology.None? then Err(NoneOperand) else Ok(defaultOntology.value + ":" + local)
  {
    SplitAtFirst("", local, ':');
    SplitFree(local, ':');
    assert ":" + local == "" + [':'] + local;
  }

  /** `:x:y` keeps only `x`: the rest of the name is dropped. */
  lemma QualifyDropsTail(local: string, tail: string, ontology: string)
    requires ':' !in local
    ensures QualifyName(":" + local + ":" + tail, Some(ontology)) == Ok(ontology + ":" + local)
  {
    SplitAtFirst(local, tail, ':');
    SplitAtFirst("", local + ":" + tail, ':');
    assert ":" + local + ":" + tail == "" + [':'] + (local + [':'] + tail);
  }

  /** A bare name goes to the knora-admin ontology. */
  lemma QualifyBare(name: string, defaultOntology: Option<string>)
    requires ':' !in name
    ensures QualifyName(name, defaultOntology) == Ok(AdminOntology + ":" + name)
  {
    SplitFree(name, ':');
  }
}

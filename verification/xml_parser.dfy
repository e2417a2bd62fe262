/**
 * The streaming parsers of the upload: KnoraValue, KnoraProperty, KnoraResource,
 * XmlAllow, XmlPermission and the top-level loop of xml_upload. Each one reads events
 * from a cursor until its own closing tag and returns what it built with the cursor
 * after that tag, or the error it raised.
 *
 * Every parser is a method with the loop of the source, specified by a recursive
 * function that states the same grammar one event at a time.
 */
module XmlParser {
  import opened Wrappers
  import opened XmlModel
  import opened ProjectContexts

  /** What a parser built, and the cursor just after its closing tag. */
  datatype Parsed<T> = Parsed(item: T, next: nat)

  /** `node.attrib[name]`: raises KeyError when the attribute is missing. */
  function Attr(attrs: map<string, string>, name: string): (r: Result<string, Error>)
    ensures r.Ok? <==> name in attrs
    ensures r.Ok? ==> r.value == attrs[name]
    ensures r.Err? ==> r.error == MissingAttribute(name)
  {
    if name in attrs then Ok(attrs[name]) else Err(MissingAttribute(name))
  }

  /** `list(set(ids))`, keeping the first occurrence of each id. */
  function Dedup(ids: seq<string>): (r: seq<string>)
    ensures forall id :: id in r <==> id in ids
    ensures forall a, b :: 0 <= a < b < |r| ==> r[a] != r[b]
  {
    if ids == [] then []
    else
      var init := Dedup(ids[..|ids| - 1]);
      assert ids == ids[..|ids| - 1] + [ids[|ids| - 1]];
      if ids[|ids| - 1] in init then init else init + [ids[|ids| - 1]]
  }

  // ---------------------------------------------------------------------------------
  // KnoraValue (xml_upload.py:88-131)
  // ---------------------------------------------------------------------------------

  /** The value an element carries (xml_upload.py:94-113): markup for `encoding="xml"`,
      `listname:text` for list values, the text otherwise. */
  function ValueOf(node: Element, valtype: string, listname: Option<string>): Result<KnoraValue, Error>
  {
    var comment := Get(node.attrs, "comment");
    var permissions := Get(node.attrs, "permissions");
    if Get(node.attrs, "encoding") == Some("xml") then
      var ids := RefIds(node.xml);
      var resrefs :=
        if ids == [] then None
        else Some(Dedup(seq(|ids|, k requires 0 <= k < |ids| => TokenField(ids[k]))));
      Ok(KnoraValue(Standoff(node.xml), resrefs, comment, permissions))
    else if valtype == "list" then
      if listname.None? then Err(NoneOperand)
      else Ok(KnoraValue(Plain(listname.value + ":" + node.text), None, comment, permissions))
    else Ok(KnoraValue(Plain(node.text), None, comment, permissions))
  }

  /** The tags a value element may contain: the rich-text tags inside a `<text>` element,
      none inside any other. */
  function AllowedTags(tag: string): (tags: seq<string>)
    ensures tag != "text" ==> tags == []
  {
    if tag == "text" then RichtextTags else []
  }

  /**
   * The loop of KnoraValue from cursor `i` with the rich-text tag stack `stack`: a start
   * tag among the `allowed` tags is pushed, an end tag equal to the top of the stack pops
   * it, the end tag `valtype` closes the value; anything else raises.
   */
  function ScanValue(events: seq<Event>, i: nat, stack: seq<string>, allowed: seq<string>, valtype: string): (r: Result<nat, Error>)
    ensures r.Ok? ==> i < r.value <= |events|
    ensures r.Ok? ==> events[r.value - 1].End? && events[r.value - 1].tag == valtype
    decreases |events| - i
  {
    if i >= |events| then Err(EventsExhausted)
    else match events[i]
      case Start(sub) =>
        if sub.tag in allowed then ScanValue(events, i + 1, stack + [sub.tag], allowed, valtype)
        else Err(UnexpectedStart(sub.tag))
      case End(tag, _) =>
        if |stack| > 0 && tag == stack[|stack| - 1] then ScanValue(events, i + 1, stack[..|stack| - 1], allowed, valtype)
        else if tag == valtype then Ok(i + 1)
        else Err(UnexpectedEnd(tag, valtype))
  }

  /** KnoraValue for the start element `node`, whose start event precedes cursor `pos`. */
  function ValueSpec(events: seq<Event>, pos: nat, node: Element, valtype: string, listname: Option<string>): (r: Result<Parsed<KnoraValue>, Error>)
    ensures r.Ok? ==> pos < r.value.next <= |events|
  {
    var v :- ValueOf(node, valtype, listname);
    var next :- ScanValue(events, pos, [], AllowedTags(node.tag), valtype);
    Ok(Parsed(v, next))
  }

  /** `KnoraValue(context, node, valtype, listname)`. */
  method ParseValue(events: seq<Event>, pos: nat, node: Element, valtype: string, listname: Option<string>)
    returns (r: Result<Parsed<KnoraValue>, Error>)
    ensures r == ValueSpec(events, pos, node, valtype, listname)
  {
    var v :- ValueOf(node, valtype, listname);
    var allowed := AllowedTags(node.tag);
    var stack: seq<string> := [];
    var i := pos;
    while true
      invariant pos <= i
      invariant ScanValue(events, pos, [], allowed, valtype) == ScanValue(events, i, stack, allowed, valtype)
      decreases |events| - i
    {
      if i >= |events| {
        return Err(EventsExhausted);
      }
      var event := events[i];
      i := i + 1;
      match event {
        case Start(sub) =>
          if sub.tag in allowed {
            stack := stack + [sub.tag];
          } else {
            return Err(UnexpectedStart(sub.tag));
          }
        case End(tag, _) =>
          if |stack| > 0 && tag == stack[|stack| - 1] {
            stack := stack[..|stack| - 1];
          } else if tag == valtype {
            break;
          } else {
            return Err(UnexpectedEnd(tag, valtype));
          }
      }
    }
    return Ok(Parsed(v, i));
  }

  // ---------------------------------------------------------------------------------
  // KnoraProperty (xml_upload.py:168-199)
  // ---------------------------------------------------------------------------------

  /** The loop of KnoraProperty from cursor `i`, with the values read so far. */
  function ScanProperty(events: seq<Event>, i: nat, valtype: string, listname: Option<string>, values: seq<KnoraValue>)
    : (r: Result<Parsed<seq<KnoraValue>>, Error>)
    ensures r.Ok? ==> i < r.value.next <= |events|
    decreases |events| - i, 1
  {
    if i >= |events| then Err(EventsExhausted) else PropertyEvent(events, i, valtype, listname, values)
  }

  /** One turn of the property loop, at the event `events[i]`. */
  function PropertyEvent(events: seq<Event>, i: nat, valtype: string, listname: Option<string>, values: seq<KnoraValue>)
    : (r: Result<Parsed<seq<KnoraValue>>, Error>)
    requires i < |events|
    ensures r.Ok? ==> i < r.value.next <= |events|
    decreases |events| - i, 0
  {
    match events[i]
    case Start(sub) =>
      if sub.tag == valtype then
        match ValueSpec(events, i + 1, sub, valtype, listname)
        case Ok(p) => ScanProperty(events, p.next, valtype, listname, values + [p.item])
        case Err(e) => Err(e)
      else Err(UnexpectedStart(sub.tag))
    case End(tag, _) =>
      if tag in PropTagValtype then Ok(Parsed(values, i + 1))
      else Err(UnknownPropertyEnd(tag))
  }

  /** KnoraProperty for the start element `node` of a property of type `valtype`. */
  function PropertySpec(events: seq<Event>, pos: nat, node: Element, valtype: string, defaultOntology: Option<string>)
    : (r: Result<Parsed<KnoraProperty>, Error>)
    ensures r.Ok? ==> pos < r.value.next <= |events|
  {
    var rawName :- Attr(node.attrs, "name");
    var name :- QualifyName(rawName, defaultOntology);
    var body :- ScanProperty(events, pos, valtype, Get(node.attrs, "list"), []);
    Ok(Parsed(KnoraProperty(name, valtype, body.item), body.next))
  }

  /** `KnoraProperty(context, node, valtype, default_ontology)`. */
  method ParseProperty(events: seq<Event>, pos: nat, node: Element, valtype: string, defaultOntology: Option<string>)
    returns (r: Result<Parsed<KnoraProperty>, Error>)
    ensures r == PropertySpec(events, pos, node, valtype, defaultOntology)
  {
    var rawName :- Attr(node.attrs, "name");
    var name :- QualifyName(rawName, defaultOntology);
    var listname := Get(node.attrs, "list");
    var values: seq<KnoraValue> := [];
    var i := pos;
    while true
      invariant pos <= i
      invariant ScanProperty(events, pos, valtype, listname, []) == ScanProperty(events, i, valtype, listname, values)
      decreases |events| - i
    {
      if i >= |events| {
        return Err(EventsExhausted);
      }
      var event := events[i];
      match event {
        case Start(sub) =>
          if sub.tag == valtype {
            var value := ParseValue(events, i + 1, sub, valtype, listname);
            if value.Err? {
              return Err(value.error);
            }
            values := values + [value.value.item];
            i := value.value.next;
          } else {
            return Err(UnexpectedStart(sub.tag));
          }
        case End(tag, _) =>
          if tag in PropTagValtype {
            i := i + 1;
            break;
          } else {
            return Err(UnknownPropertyEnd(tag));
          }
      }
    }
    return Ok(Parsed(KnoraProperty(name, valtype, values), i));
  }

  // ---------------------------------------------------------------------------------
  // KnoraResource (xml_upload.py:227-290)
  // ---------------------------------------------------------------------------------

  /** The image and the properties read inside a resource element. */
  datatype ResourceBody = ResourceBody(image: Option<string>, properties: seq<KnoraProperty>)

  /** The loop of KnoraResource from cursor `i`; `resNode` is the resource element. */
  function ScanResource(events: seq<Event>, i: nat, resNode: Element, defaultOntology: Option<string>, body: ResourceBody)
    : (r: Result<Parsed<ResourceBody>, Error>)
    ensures r.Ok? ==> i < r.value.next <= |events|
    decreases |events| - i, 1
  {
    if i >= |events| then Err(EventsExhausted) else ResourceEvent(events, i, resNode, defaultOntology, body)
  }

  /** One turn of the resource loop, at the event `events[i]`. */
  function ResourceEvent(events: seq<Event>, i: nat, resNode: Element, defaultOntology: Option<string>, body: ResourceBody)
    : (r: Result<Parsed<ResourceBody>, Error>)
    requires i < |events|
    ensures r.Ok? ==> i < r.value.next <= |events|
    decreases |events| - i, 0
  {
    match events[i]
    case Start(sub) =>
      if sub.tag == "image" then
        ScanResource(events, i + 1, resNode, defaultOntology, body.(image := Some(resNode.text)))
      else if sub.tag in PropTagValtype then
        match PropertySpec(events, i + 1, sub, PropTagValtype[sub.tag], defaultOntology)
        case Ok(p) =>
          ScanResource(events, p.next, resNode, defaultOntology, body.(properties := body.properties + [p.item]))
        case Err(e) => Err(e)
      else Err(UnexpectedStart(sub.tag))
    case End(tag, text) =>
      if tag == "resource" then Ok(Parsed(body, i + 1))
      else if tag == "image" then ScanResource(events, i + 1, resNode, defaultOntology, body.(image := Some(text)))
      else Err(UnexpectedEnd(tag, "resource"))
  }

  /** KnoraResource for the resource element `node`. */
  function ResourceSpec(events: seq<Event>, pos: nat, node: Element, defaultOntology: Option<string>)
    : (r: Result<Parsed<KnoraResource>, Error>)
    ensures r.Ok? ==> pos < r.value.next <= |events|
  {
    var id :- Attr(node.attrs, "id");
    var labelText :- Attr(node.attrs, "label");
    var rawType :- Attr(node.attrs, "restype");
    var restype :- QualifyName(rawType, defaultOntology);
    var permissions :- Attr(node.attrs, "permissions");
    var body :- ScanResource(events, pos, node, defaultOntology, ResourceBody(None, []));
    Ok(Parsed(KnoraResource(id, labelText, restype, permissions, body.item.image, body.item.properties), body.next))
  }

  /** `KnoraResource(context, node, default_ontology)`. */
  method ParseResource(events: seq<Event>, pos: nat, node: Element, defaultOntology: Option<string>)
    returns (r: Result<Parsed<KnoraResource>, Error>)
    ensures r == ResourceSpec(events, pos, node, defaultOntology)
  {
    var id :- Attr(node.attrs, "id");
    var labelText :- Attr(node.attrs, "label");
    var rawType :- Attr(node.attrs, "restype");
    var restype :- QualifyName(rawType, defaultOntology);
    var permissions :- Attr(node.attrs, "permissions");
    var image: Option<string> := None;
    var properties: seq<KnoraProperty> := [];
    var i := pos;
    while true
      invariant pos <= i
      invariant ScanResource(events, pos, node, defaultOntology, ResourceBody(None, [])) ==
        ScanResource(events, i, node, defaultOntology, ResourceBody(image, properties))
      decreases |events| - i
    {
      if i >= |events| {
        return Err(EventsExhausted);
      }
      var event := events[i];
      match event {
        case Start(sub) =>
          if sub.tag == "image" {
            image := Some(node.text);
            i := i + 1;
          } else if sub.tag in PropTagValtype {
            var property := ParseProperty(events, i + 1, sub, PropTagValtype[sub.tag], defaultOntology);
            if property.Err? {
              return Err(property.error);
            }
            properties := properties + [property.value.item];
            i := property.value.next;
          } else {
            return Err(UnexpectedStart(sub.tag));
          }
        case End(tag, text) =>
          if tag == "resource" {
            i := i + 1;
            break;
          } else if tag == "image" {
            image := Some(text);
            i := i + 1;
          } else {
            return Err(UnexpectedEnd(tag, "resource"));
          }
      }
    }
    return Ok(Parsed(KnoraResource(id, labelText, restype, permissions, image, properties), i));
  }

  // ---------------------------------------------------------------------------------
  // XmlAllow and XmlPermission (xml_upload.py:387-455)
  // ---------------------------------------------------------------------------------

  /** `XmlAllow(context, node, project_context)`: reads no events; the permission is the
      element's text. */
  function AllowOf(node: Element, groupmap: map<string, string>, projectName: Option<string>): Result<XmlAllow, Error>
  {
    var token :- Attr(node.attrs, "group");
    var group :- ResolveGroup(token, groupmap, projectName);
    Ok(XmlAllow(group, node.text))
  }

  /** The loop of XmlPermission from cursor `i`, with the allows read so far. */
  function ScanPermission(events: seq<Event>, i: nat, groupmap: map<string, string>, projectName: Option<string>, allows: seq<XmlAllow>)
    : (r: Result<Parsed<seq<XmlAllow>>, Error>)
    ensures r.Ok? ==> i < r.value.next <= |events|
    decreases |events| - i, 1
  {
    if i >= |events| then Err(EventsExhausted) else PermissionEvent(events, i, groupmap, projectName, allows)
  }

  /** One turn of the permission loop, at the event `events[i]`. */
  function PermissionEvent(events: seq<Event>, i: nat, groupmap: map<string, string>, projectName: Option<string>, allows: seq<XmlAllow>)
    : (r: Result<Parsed<seq<XmlAllow>>, Error>)
    requires i < |events|
    ensures r.Ok? ==> i < r.value.next <= |events|
    decreases |events| - i, 0
  {
    match events[i]
      case Start(sub) =>
        if sub.tag == "allow" then
          match AllowOf(sub, groupmap, projectName)
          case Ok(a) => ScanPermission(events, i + 1, groupmap, projectName, allows + [a])
          case Err(e) => Err(e)
        else Err(UnexpectedStart(sub.tag))
      case End(tag, _) =>
        if tag == "allow" then ScanPermission(events, i + 1, groupmap, projectName, allows)
        else if tag == "resource" || tag == "permissions" then Ok(Parsed(allows, i + 1))
        else Err(UnexpectedEnd(tag, "resource"))
  }

  /** XmlPermission for the permissions element `node`. */
  function PermissionSpec(events: seq<Event>, pos: nat, node: Element, groupmap: map<string, string>, projectName: Option<string>)
    : (r: Result<Parsed<XmlPermission>, Error>)
    ensures r.Ok? ==> pos < r.value.next <= |events|
  {
    var id :- Attr(node.attrs, "id");
    var body :- ScanPermission(events, pos, groupmap, projectName, []);
    Ok(Parsed(XmlPermission(id, body.item), body.next))
  }

  /** `XmlPermission(context, node, project_context)`. */
  method ParsePermission(events: seq<Event>, pos: nat, node: Element, ctx: ProjectContext)
    returns (r: Result<Parsed<XmlPermission>, Error>)
    ensures r == PermissionSpec(events, pos, node, ctx.groupmap, ctx.projectName)
  {
    var id :- Attr(node.attrs, "id");
    var allows: seq<XmlAllow> := [];
    var i := pos;
    while true
      invariant pos <= i
      invariant ScanPermission(events, pos, ctx.groupmap, ctx.projectName, []) ==
        ScanPermission(events, i, ctx.groupmap, ctx.projectName, allows)
      decreases |events| - i
    {
      if i >= |events| {
        return Err(EventsExhausted);
      }
      var event := events[i];
      i := i + 1;
      match event {
        case Start(sub) =>
          if sub.tag == "allow" {
            var allow := AllowOf(sub, ctx.groupmap, ctx.projectName);
            if allow.Err? {
              return Err(allow.error);
            }
            allows := allows + [allow.value];
          } else {
            return Err(UnexpectedStart(sub.tag));
          }
        case End(tag, _) =>
          if tag == "resource" || tag == "permissions" {
            break;
          } else if tag != "allow" {
            return Err(UnexpectedEnd(tag, "resource"));
          }
      }
    }
    return Ok(Parsed(XmlPermission(id, allows), i));
  }

  // ---------------------------------------------------------------------------------
  // The top-level loop of xml_upload (xml_upload.py:563-582)
  // ---------------------------------------------------------------------------------

  /** What the top-level loop collects. */
  datatype Document = Document(
    resources: seq<KnoraResource>,
    permissions: map<string, XmlPermission>,
    shortcode: Option<string>,
    defaultOntology: Option<string>)

  /** The collected document together with the project name the context ends up with. */
  datatype DocumentRun = DocumentRun(doc: Document, projectName: Option<string>)

  const EmptyDocument := Document([], map[], None, None)

  /**
   * The top-level loop from cursor `i`: the root element sets the default ontology and
   * the shortcode and runs the context's shortcode setter; resource and permissions
   * elements are parsed (a later permission set replaces an earlier one with the same
   * id); every other event is skipped until the root closes.
   */
  function ScanDocument(
    events: seq<Event>, i: nat, projects: seq<ProjectInfo>, groupmap: map<string, string>,
    ctxShortcode: Option<string>, projectName: Option<string>, doc: Document)
    : Result<DocumentRun, Error>
    decreases |events| - i, 1
  {
    if i >= |events| then Err(EventsExhausted)
    else DocumentEvent(events, i, projects, groupmap, ctxShortcode, projectName, doc)
  }

  /** One turn of the top-level loop, at the event `events[i]`. */
  function DocumentEvent(
    events: seq<Event>, i: nat, projects: seq<ProjectInfo>, groupmap: map<string, string>,
    ctxShortcode: Option<string>, projectName: Option<string>, doc: Document)
    : Result<DocumentRun, Error>
    requires i < |events|
    decreases |events| - i, 0
  {
    match events[i]
      case Start(node) =>
        if node.tag == "knora" then
          match (Attr(node.attrs, "default-ontology"), Attr(node.attrs, "shortcode"))
          case (Ok(ontology), Ok(shortcode)) =>
            ScanDocument(events, i + 1, projects, groupmap, ctxShortcode,
              AfterShortcodeSet(projects, ctxShortcode, projectName),
              doc.(shortcode := Some(shortcode), defaultOntology := Some(ontology)))
          case (Err(e), _) => Err(e)
          case (_, Err(e)) => Err(e)
        else if node.tag == "resource" then
          match ResourceSpec(events, i + 1, node, doc.defaultOntology)
          case Ok(p) =>
            ScanDocument(events, p.next, projects, groupmap, ctxShortcode, projectName,
              doc.(resources := doc.resources + [p.item]))
          case Err(e) => Err(e)
        else if node.tag == "permissions" then
          match PermissionSpec(events, i + 1, node, groupmap, projectName)
          case Ok(p) =>
            ScanDocument(events, p.next, projects, groupmap, ctxShortcode, projectName,
              doc.(permissions := doc.permissions[p.item.id := p.item]))
          case Err(e) => Err(e)
        else ScanDocument(events, i + 1, projects, groupmap, ctxShortcode, projectName, doc)
      case End(tag, _) =>
        if tag == "knora" then Ok(DocumentRun(doc, projectName))
        else ScanDocument(events, i + 1, projects, groupmap, ctxShortcode, projectName, doc)
  }

  /** The whole document, read with the context `ctx` as xml_upload builds it. */
  function DocumentSpec(events: seq<Event>, projects: seq<ProjectInfo>, groupmap: map<string, string>,
    ctxShortcode: Option<string>, projectName: Option<string>): Result<DocumentRun, Error>
  {
    ScanDocument(events, 0, projects, groupmap, ctxShortcode, projectName, EmptyDocument)
  }

  /** The top-level loop: reads the whole event stream with the project context `ctx`,
      whose shortcode setter it runs at the root element. */
  method ParseDocument(events: seq<Event>, ctx: ProjectContext) returns (r: Result<Document, Error>)
    modifies ctx`projectName
    ensures match DocumentSpec(events, ctx.projects, ctx.groupmap, ctx.shortcode, old(ctx.projectName))
      case Ok(run) => r == Ok(run.doc) && ctx.projectName == run.projectName
      case Err(e) => r == Err(e)
  {
    var resources: seq<KnoraResource> := [];
    var permissions: map<string, XmlPermission> := map[];
    var shortcode: Option<string> := None;
    var defaultOntology: Option<string> := None;
    var i := 0;
    while true
      invariant DocumentSpec(events, ctx.projects, ctx.groupmap, ctx.shortcode, old(ctx.projectName)) ==
        ScanDocument(events, i, ctx.projects, ctx.groupmap, ctx.shortcode, ctx.projectName,
          Document(resources, permissions, shortcode, defaultOntology))
      decreases |events| - i
    {
      if i >= |events| {
        return Err(EventsExhausted);
      }
      var event := events[i];
      i := i + 1;
      match event {
        case Start(node) =>
          if node.tag == "knora" {
            var ontology :- Attr(node.attrs, "default-ontology");
            var code :- Attr(node.attrs, "shortcode");
            defaultOntology := Some(ontology);
            shortcode := Some(code);
            ctx.SetShortcode(code);
          } else if node.tag == "resource" {
            var resource := ParseResource(events, i, node, defaultOntology);
            if resource.Err? {
              return Err(resource.error);
            }
            resources := resources + [resource.value.item];
            i := resource.value.next;
          } else if node.tag == "permissions" {
            var permission := ParsePermission(events, i, node, ctx);
            if permission.Err? {
              return Err(permission.error);
            }
            permissions := permissions[permission.value.item.id := permission.value.item];
            i := permission.value.next;
          }
        case End(tag, _) =>
          if tag == "knora" {
            break;
          }
      }
    }
    return Ok(Document(resources, permissions, shortcode, defaultOntology));
  }
}

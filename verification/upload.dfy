/**
 * The second half of `xml_upload`: the permission lookup built from the parsed permission
 * sets, and the creation of the ordered resources one by one, each with the IRIs of the
 * resources created before it. The server is not modelled: the IRI it assigns to the k-th
 * created resource is an input.
 */
module Upload {
  import opened Wrappers
  import opened XmlModel
  import opened XmlParser
  import opened SortOrder
  import opened Payloads

  /** What is sent to create one resource. */
  datatype Creation = Creation(
    restype: string,
    labelText: string,
    permissions: Option<seq<Grant>>,
    image: Option<string>,
    values: map<string, PropVal>)

  /** `permissions_lookup`: every permission set as its permission instance. */
  function PermissionsLookup(permissions: map<string, XmlPermission>): (lookup: map<string, seq<Grant>>)
    ensures lookup.Keys == permissions.Keys
  {
    map key | key in permissions :: Grants(permissions[key].allows)
  }

  /** The instance looked up for a permission set is the one its string form reads back as,
      when the set's permissions and groups hold no separator. */
  lemma LookupMatchesString(permissions: map<string, XmlPermission>, key: string)
    requires key in permissions && permissions[key].allows != []
    requires forall a :: a in permissions[key].allows ==> ' ' !in a.permission && '|' !in a.permission && '|' !in a.group
    ensures PermissionsLookup(permissions)[key] == ParsePermissionString(PermissionString(permissions[key]))
  {
    PermissionStringRoundTrip(permissions[key]);
  }

  /** `resiri_lookup` before the k-th resource is created: each earlier resource's id to
      its IRI, a later resource overwriting an earlier one of the same id. */
  function Lookup(rs: seq<KnoraResource>, iri: nat -> string, k: nat): map<string, string>
    requires k <= |rs|
  {
    if k == 0 then map[] else Lookup(rs, iri, k - 1)[rs[k - 1].id := iri(k - 1)]
  }

  /** The image a resource is created with: none when its name is missing or empty, since
      the upload tests the name's truth. */
  function ImageToSend(image: Option<string>): (sent: Option<string>)
    ensures sent.Some? <==> image.Some? && image.value != ""
    ensures sent.Some? ==> sent == image
  {
    if image == Some("") then None else image
  }

  /** The creation request of a resource, given the lookups. */
  function CreationOf(r: KnoraResource, resiriLookup: map<string, string>, permissionsLookup: map<string, seq<Grant>>)
    : (c: Result<Creation, Error>)
    ensures c.Ok? <==> Propvals(r.properties, resiriLookup, permissionsLookup).Ok?
    ensures c.Err? ==> c.error == Propvals(r.properties, resiriLookup, permissionsLookup).error
    ensures c.Ok? ==>
      c.value.restype == r.restype && c.value.labelText == r.labelText &&
      c.value.values == Propvals(r.properties, resiriLookup, permissionsLookup).value
    ensures c.Ok? ==> c.value.permissions == Get(permissionsLookup, r.permissions) && c.value.image == ImageToSend(r.image)
    ensures c.Ok? ==> (r.permissions in permissionsLookup <==> c.value.permissions.Some?)
    ensures c.Ok? ==> (c.value.image.Some? <==> r.image.Some? && r.image.value != "")
  {
    var values :- Propvals(r.properties, resiriLookup, permissionsLookup);
    Ok(Creation(r.restype, r.labelText, Get(permissionsLookup, r.permissions), ImageToSend(r.image), values))
  }

  /** The creation requests of the first `k` resources, or the first error. */
  function Creations(rs: seq<KnoraResource>, iri: nat -> string, permissionsLookup: map<string, seq<Grant>>, k: nat)
    : Result<seq<Creation>, Error>
    requires k <= |rs|
  {
    if k == 0 then Ok([])
    else
      var prev :- Creations(rs, iri, permissionsLookup, k - 1);
      var c :- CreationOf(rs[k - 1], Lookup(rs, iri, k - 1), permissionsLookup);
      Ok(prev + [c])
  }

  /** Once the requests of a prefix fail, so do those of any longer prefix. */
  lemma {:induction false} CreationsErrSticks(rs: seq<KnoraResource>, iri: nat -> string, permissionsLookup: map<string, seq<Grant>>, n: nat, k: nat)
    requires n <= k <= |rs| && Creations(rs, iri, permissionsLookup, n).Err?
    ensures Creations(rs, iri, permissionsLookup, k) == Creations(rs, iri, permissionsLookup, n)
    decreases k
  {
    if n < k {
      CreationsErrSticks(rs, iri, permissionsLookup, n, k - 1);
    }
  }

  /** The requests of one more resource: those so far and its own, or its error. */
  lemma CreationsNext(rs: seq<KnoraResource>, iri: nat -> string, permissionsLookup: map<string, seq<Grant>>, k: nat, created: seq<Creation>)
    requires k < |rs| && Creations(rs, iri, permissionsLookup, k) == Ok(created)
    ensures var r := rs[k];
      Creations(rs, iri, permissionsLookup, k + 1) ==
        match Propvals(r.properties, Lookup(rs, iri, k), permissionsLookup)
        case Ok(values) => Ok(created + [Creation(r.restype, r.labelText, Get(permissionsLookup, r.permissions), ImageToSend(r.image), values)])
        case Err(e) => Err(e)
  {
  }

  /** `if resource.image:` of the creation loop: the image to upload, if any. */
  method StillImage(image: Option<string>) returns (sent: Option<string>)
    ensures sent == ImageToSend(image)
  {
    sent := None;
    if image.Some? && image.value != "" {
      sent := image;
    }
  }

  /** The creation loop (xml_upload.py:603-615): `iri(k)` is the IRI the server returns
      for the k-th resource. */
  method CreateResources(rs: seq<KnoraResource>, iri: nat -> string, permissionsLookup: map<string, seq<Grant>>)
    returns (r: Result<seq<Creation>, Error>)
    ensures r == Creations(rs, iri, permissionsLookup, |rs|)
  {
    var resiriLookup: map<string, string> := map[];
    var created: seq<Creation> := [];
    for k := 0 to |rs|
      invariant resiriLookup == Lookup(rs, iri, k)
      invariant Creations(rs, iri, permissionsLookup, k) == Ok(created)
    {
      var resource := rs[k];
      var values := GetPropvals(resource, resiriLookup, permissionsLookup);
      CreationsNext(rs, iri, permissionsLookup, k, created);
      if values.Err? {
        CreationsErrSticks(rs, iri, permissionsLookup, k + 1, |rs|);
        return Err(values.error);
      }
      var image := StillImage(resource.image);
      created := created + [Creation(resource.restype, resource.labelText, Get(permissionsLookup, resource.permissions), image, values.value)];
      resiriLookup := resiriLookup[resource.id := iri(k)];
    }
    return Ok(created);
  }

  /** The lookup knows exactly the ids of the resources created so far. */
  lemma {:induction false} LookupKeys(rs: seq<KnoraResource>, iri: nat -> string, k: nat)
    requires k <= |rs|
    ensures forall id :: id in Lookup(rs, iri, k) <==> id in Ids(rs[..k])
    decreases k
  {
    if k > 0 {
      LookupKeys(rs, iri, k - 1);
      assert Ids(rs[..k]) == Ids(rs[..k - 1]) + [rs[k - 1].id];
    }
  }

  /** A markup value whose every token's id is among its resrefs, as the parser builds it. */
  predicate RefsListed(v: KnoraValue)
  {
    v.value.Standoff? ==>
      forall k :: 0 <= k < |v.value.xml| && v.value.xml[k].Ref? ==>
        v.resrefs.Some? && TokenField(v.value.xml[k].id) in v.resrefs.value
  }

  /** The parser lists every token of a markup value among its resrefs. */
  lemma ValueOfRefsListed(node: Element, valtype: string, listname: Option<string>)
    ensures ValueOf(node, valtype, listname).Ok? ==> RefsListed(ValueOf(node, valtype, listname).value)
  {
    if ValueOf(node, valtype, listname).Ok? && Get(node.attrs, "encoding") == Some("xml") {
      var ids := RefIds(node.xml);
      var fields := seq(|ids|, k requires 0 <= k < |ids| => TokenField(ids[k]));
      forall k | 0 <= k < |node.xml| && node.xml[k].Ref?
        ensures ids != [] && TokenField(node.xml[k].id) in Dedup(fields)
      {
        assert Ref(node.xml[k].id) in node.xml;
        var j :| 0 <= j < |ids| && ids[j] == node.xml[k].id;
        assert fields[j] == TokenField(node.xml[k].id);
      }
    }
  }

  /** Every value of every property lists its tokens. */
  predicate PropertiesListed(props: seq<KnoraProperty>)
  {
    forall i, j :: 0 <= i < |props| && 0 <= j < |props[i].values| ==> RefsListed(props[i].values[j])
  }

  /** Every value of every property of the resource lists its tokens. */
  predicate ResourceListed(r: KnoraResource)
  {
    PropertiesListed(r.properties)
  }

  /** Every value of every property of the resources lists its tokens. */
  predicate AllRefsListed(rs: seq<KnoraResource>)
  {
    forall k :: 0 <= k < |rs| ==> ResourceListed(rs[k])
  }

  /** The values a property element collects list their tokens. */
  lemma {:induction false} ScanPropertyListed(events: seq<Event>, i: nat, valtype: string, listname: Option<string>, values: seq<KnoraValue>)
    requires forall j :: 0 <= j < |values| ==> RefsListed(values[j])
    requires ScanProperty(events, i, valtype, listname, values).Ok?
    ensures var vs := ScanProperty(events, i, valtype, listname, values).value.item;
      forall j :: 0 <= j < |vs| ==> RefsListed(vs[j])
    decreases |events| - i
  {
    match events[i]
    case Start(sub) =>
      var p := ValueSpec(events, i + 1, sub, valtype, listname).value;
      ValueOfRefsListed(sub, valtype, listname);
      ScanPropertyListed(events, p.next, valtype, listname, values + [p.item]);
    case End(_, _) =>
  }

  /** The properties a resource element collects list the tokens of their values. */
  lemma {:induction false} ScanResourceListed(events: seq<Event>, i: nat, resNode: Element, defaultOntology: Option<string>, body: ResourceBody)
    requires PropertiesListed(body.properties)
    requires ScanResource(events, i, resNode, defaultOntology, body).Ok?
    ensures PropertiesListed(ScanResource(events, i, resNode, defaultOntology, body).value.item.properties)
    decreases |events| - i
  {
    match events[i]
    case Start(sub) =>
      if sub.tag == "image" {
        ScanResourceListed(events, i + 1, resNode, defaultOntology, body.(image := Some(resNode.text)));
      } else {
        var valtype := PropTagValtype[sub.tag];
        var p := PropertySpec(events, i + 1, sub, valtype, defaultOntology).value;
        ScanPropertyListed(events, i + 1, valtype, Get(sub.attrs, "list"), []);
        var props := body.properties + [p.item];
        assert PropertiesListed(props) by {
          forall a, j | 0 <= a < |props| && 0 <= j < |props[a].values| ensures RefsListed(props[a].values[j]) {
            if a < |body.properties| {
              assert props[a] == body.properties[a];
            }
          }
        }
        ScanResourceListed(events, p.next, resNode, defaultOntology, body.(properties := props));
      }
    case End(tag, text) =>
      if tag == "image" {
        ScanResourceListed(events, i + 1, resNode, defaultOntology, body.(image := Some(text)));
      }
  }

  /** The resource elements the document loop collects list the tokens of their values. */
  lemma {:induction false} ScanDocumentListed(
    events: seq<Event>, i: nat, projects: seq<ProjectContexts.ProjectInfo>, groupmap: map<string, string>,
    ctxShortcode: Option<string>, projectName: Option<string>, doc: Document)
    requires AllRefsListed(doc.resources)
    requires ScanDocument(events, i, projects, groupmap, ctxShortcode, projectName, doc).Ok?
    ensures AllRefsListed(ScanDocument(events, i, projects, groupmap, ctxShortcode, projectName, doc).value.doc.resources)
    decreases |events| - i
  {
    match events[i]
    case Start(node) =>
      if node.tag == "knora" {
        var shortcode := node.attrs["shortcode"];
        var ontology := node.attrs["default-ontology"];
        ScanDocumentListed(events, i + 1, projects, groupmap, ctxShortcode,
          ProjectContexts.AfterShortcodeSet(projects, ctxShortcode, projectName),
          doc.(shortcode := Some(shortcode), defaultOntology := Some(ontology)));
      } else if node.tag == "resource" {
        var p := ResourceSpec(events, i + 1, node, doc.defaultOntology).value;
        ScanResourceListed(events, i + 1, node, doc.defaultOntology, ResourceBody(None, []));
        var rs := doc.resources + [p.item];
        assert AllRefsListed(rs) by {
          forall k | 0 <= k < |rs| ensures ResourceListed(rs[k]) {
            if k < |doc.resources| {
              assert rs[k] == doc.resources[k];
            }
          }
        }
        ScanDocumentListed(events, p.next, projects, groupmap, ctxShortcode, projectName, doc.(resources := rs));
      } else if node.tag == "permissions" {
        var p := PermissionSpec(events, i + 1, node, groupmap, projectName).value;
        ScanDocumentListed(events, p.next, projects, groupmap, ctxShortcode, projectName,
          doc.(permissions := doc.permissions[p.item.id := p.item]));
      } else {
        ScanDocumentListed(events, i + 1, projects, groupmap, ctxShortcode, projectName, doc);
      }
    case End(tag, _) =>
      if tag != "knora" {
        ScanDocumentListed(events, i + 1, projects, groupmap, ctxShortcode, projectName, doc);
      }
  }

  /** Every markup value of a parsed document lists all its tokens among its resrefs. */
  lemma DocumentListed(events: seq<Event>, projects: seq<ProjectContexts.ProjectInfo>, groupmap: map<string, string>,
    ctxShortcode: Option<string>, projectName: Option<string>)
    requires DocumentSpec(events, projects, groupmap, ctxShortcode, projectName).Ok?
    ensures AllRefsListed(DocumentSpec(events, projects, groupmap, ctxShortcode, projectName).value.doc.resources)
  {
    ScanDocumentListed(events, 0, projects, groupmap, ctxShortcode, projectName, EmptyDocument);
  }

  /** Reordering keeps every resource, so it keeps their tokens listed. */
  lemma PermutedListed(out: seq<KnoraResource>, rs: seq<KnoraResource>)
    requires multiset(out) == multiset(rs) && AllRefsListed(rs)
    ensures AllRefsListed(out)
  {
    forall k | 0 <= k < |out| ensures ResourceListed(out[k]) {
      FromInput(out, rs, k);
      var j :| 0 <= j < |rs| && rs[j] == out[k];
    }
  }

  /** Every reference of a ready resource names a resource before it. */
  lemma ReadyResolves(rs: seq<KnoraResource>, k: nat, x: Content)
    requires k < |rs| && Ready(rs[k], Ids(rs[..k])) && x in Resptrs(rs[k].properties)
    ensures x.Plain? && x.text in Ids(rs[..k])
  {
    var refs := Resptrs(rs[k].properties);
    var t :| 0 <= t < |refs| && refs[t] == x;
    assert Accepted(refs[t], Ids(rs[..k]));
  }

  /** A value of type `valtype` sent with the lookup `lookup`: a pointer goes out as the IRI
      of the resource it names, and every token of a markup text as an IRI. */
  predicate ValueResolves(valtype: string, v: KnoraValue, lookup: map<string, string>)
  {
    (valtype == "resptr" ==> (v.value.Plain? && v.value.text in lookup &&
      Payload(valtype, v, lookup) == Plain(lookup[v.value.text]))) &&
    (valtype == "text" && v.value.Standoff? ==>
      forall t :: 0 <= t < |v.value.xml| && v.value.xml[t].Ref? ==>
        Payload(valtype, v, lookup).xml[t].Iri? && Payload(valtype, v, lookup).xml[t].iri.Some?)
  }

  /** Every value of every resource resolves when its resource is created after those
      before it. */
  predicate UploadResolves(rs: seq<KnoraResource>, iri: nat -> string)
  {
    forall k, i, j :: 0 <= k < |rs| && 0 <= i < |rs[k].properties| && 0 <= j < |rs[k].properties[i].values| ==>
      ValueResolves(rs[k].properties[i].valtype, rs[k].properties[i].values[j], Lookup(rs, iri, k))
  }

  /**
   * Created in dependency order, a resource finds every resource it refers to already
   * created: each pointer value is sent as the IRI of that resource, never passed through,
   * and each token of its markup values becomes an IRI, never None.
   */
  lemma OrderedUploadResolves(rs: seq<KnoraResource>, iri: nat -> string, k: nat, i: nat, j: nat)
    requires DepOrdered(rs) && AllRefsListed(rs)
    requires k < |rs| && i < |rs[k].properties| && j < |rs[k].properties[i].values|
    ensures ValueResolves(rs[k].properties[i].valtype, rs[k].properties[i].values[j], Lookup(rs, iri, k))
  {
    var p, v, lookup := rs[k].properties[i], rs[k].properties[i].values[j], Lookup(rs, iri, k);
    assert Ready(rs[k], Ids(rs[..k]));
    LookupKeys(rs, iri, k);
    if p.valtype == "resptr" {
      ResptrsMembers(rs[k].properties, v.value);
      ReadyResolves(rs, k, v.value);
    }
    if p.valtype == "text" && v.value.Standoff? {
      SubstitutedTokens(v.value.xml, lookup);
      forall t | 0 <= t < |v.value.xml| && v.value.xml[t].Ref?
        ensures TokenField(v.value.xml[t].id) in lookup
      {
        assert RefsListed(v);
        var x := Plain(TokenField(v.value.xml[t].id));
        ResptrsMembers(rs[k].properties, x);
        ReadyResolves(rs, k, x);
      }
    }
  }

  /** Why the upload stops: the document does not parse, or the ordering stalls. */
  datatype Failure = ParseFailed(error: Error) | OrderStalled(stalled: SortError) | CreateFailed(error: Error)

  /**
   * `xml_upload` without the server: parse the document with no project name (the
   * shortcode setter never sets one), order the resources without the pass cap, and build
   * the creation requests with the permission lookup.
   */
  function UploadPlan(events: seq<Event>, projects: seq<ProjectContexts.ProjectInfo>, groupmap: map<string, string>, iri: nat -> string)
    : Result<seq<Creation>, Failure>
  {
    match DocumentSpec(events, projects, groupmap, None, None)
    case Err(e) => Err(ParseFailed(e))
    case Ok(run) =>
      match SortOrderAll(run.doc.resources)
      case Err(s) => Err(OrderStalled(s))
      case Ok(ordered) =>
        match Creations(ordered, iri, PermissionsLookup(run.doc.permissions), |ordered|)
        case Err(e) => Err(CreateFailed(e))
        case Ok(cs) => Ok(cs)
  }

  /** A successful plan creates every parsed resource once. */
  lemma {:induction false} CreationsLength(rs: seq<KnoraResource>, iri: nat -> string, permissionsLookup: map<string, seq<Grant>>, k: nat)
    requires k <= |rs|
    ensures Creations(rs, iri, permissionsLookup, k).Ok? ==> |Creations(rs, iri, permissionsLookup, k).value| == k
    decreases k
  {
    if k > 0 {
      CreationsLength(rs, iri, permissionsLookup, k - 1);
    }
  }

  /** When the plan succeeds it sends one creation request per parsed resource, and every
      reference among the resources resolves to an IRI when its referrer is created. */
  lemma UploadPlanComplete(events: seq<Event>, projects: seq<ProjectContexts.ProjectInfo>, groupmap: map<string, string>, iri: nat -> string)
    requires DocumentSpec(events, projects, groupmap, None, None).Ok?
    ensures var resources := DocumentSpec(events, projects, groupmap, None, None).value.doc.resources;
      UploadPlan(events, projects, groupmap, iri).Ok? ==>
        |UploadPlan(events, projects, groupmap, iri).value| == |resources| &&
        SortOrderAll(resources).Ok? && multiset(SortOrderAll(resources).value) == multiset(resources) &&
        DepOrdered(SortOrderAll(resources).value) && UploadResolves(SortOrderAll(resources).value, iri)
  {
    var resources := DocumentSpec(events, projects, groupmap, None, None).value.doc.resources;
    SortOrderAllCorrect(resources);
    if SortOrderAll(resources).Ok? {
      var ordered := SortOrderAll(resources).value;
      DocumentListed(events, projects, groupmap, None, None);
      PermutedListed(ordered, resources);
      forall k, i, j | 0 <= k < |ordered| && 0 <= i < |ordered[k].properties| && 0 <= j < |ordered[k].properties[i].values|
        ensures ValueResolves(ordered[k].properties[i].valtype, ordered[k].properties[i].values[j], Lookup(ordered, iri, k))
      {
        OrderedUploadResolves(ordered, iri, k, i, j);
      }
      assert |ordered| == |resources| by {
        assert |multiset(ordered)| == |multiset(resources)|;
      }
      CreationsLength(ordered, iri, PermissionsLookup(DocumentSpec(events, projects, groupmap, None, None).value.doc.permissions), |ordered|);
    }
  }
}

/**
 * What the streaming grammar accepts and what it builds: the rich-text rule of values,
 * the quirks of the property end tag and of repeated permission ids, and the group names
 * the upload can end up with.
 */
module ParserFacts {
  import opened Wrappers
  import opened Strings
  import opened XmlModel
  import opened ProjectContexts
  import opened XmlParser

  // ---------------------------------------------------------------------------------
  // Values and the rich-text stack
  // ---------------------------------------------------------------------------------

  /** Markup inside a value, as a forest: an element with its content and the siblings
      that follow it. */
  datatype Markup = Empty | Node(tag: string, inner: Markup, rest: Markup)

  /** The events of a markup forest, in document order. */
  function Events(m: Markup): (es: seq<Event>)
    ensures m.Node? ==> |es| >= 2 && es[0] == Start(Element(m.tag, map[], "", []))
  {
    match m
    case Empty => []
    case Node(tag, inner, rest) =>
      [Start(Element(tag, map[], "", []))] + Events(inner) + [End(tag, "")] + Events(rest)
  }

  /** Every element of the forest has one of the `allowed` tags. */
  predicate Within(m: Markup, allowed: seq<string>)
  {
    match m
    case Empty => true
    case Node(tag, inner, rest) => tag in allowed && Within(inner, allowed) && Within(rest, allowed)
  }

  /** The events `e` occur in `events` from cursor `i` on. */
  predicate Occurs(events: seq<Event>, i: nat, e: seq<Event>)
  {
    i + |e| <= |events| && forall k :: 0 <= k < |e| ==> events[i + k] == e[k]
  }

  /** The two halves of a concatenation occur one after the other. */
  lemma OccursSplit(events: seq<Event>, i: nat, a: seq<Event>, b: seq<Event>)
    requires Occurs(events, i, a + b)
    ensures Occurs(events, i, a) && Occurs(events, i + |a|, b)
  {
    forall k | 0 <= k < |a| ensures events[i + k] == a[k] {
      assert (a + b)[k] == a[k];
    }
    forall k | 0 <= k < |b| ensures events[i + |a| + k] == b[k] {
      assert (a + b)[|a| + k] == b[k];
    }
  }

  /** One event of what occurs. */
  lemma OccursAt(events: seq<Event>, i: nat, e: seq<Event>, k: nat)
    requires Occurs(events, i, e) && k < |e|
    ensures events[i + k] == e[k]
  {
  }

  /** Where the pieces of an element of the forest occur. */
  lemma Decompose(events: seq<Event>, i: nat, m: Markup)
    requires m.Node? && Occurs(events, i, Events(m))
    ensures |Events(m)| == 2 + |Events(m.inner)| + |Events(m.rest)|
    ensures events[i] == Start(Element(m.tag, map[], "", []))
    ensures Occurs(events, i + 1, Events(m.inner))
    ensures events[i + 1 + |Events(m.inner)|] == End(m.tag, "")
    ensures Occurs(events, i + 2 + |Events(m.inner)|, Events(m.rest))
  {
    var e := Events(m);
    assert e[0] == Start(Element(m.tag, map[], "", []));
    assert e[1 + |Events(m.inner)|] == End(m.tag, "");
    InnerOccurs(events, i, m);
    RestOccurs(events, i, m);
  }

  /** An element's events are its two tags, its content's and its siblings'. */
  lemma EventsLength(m: Markup)
    requires m.Node?
    ensures |Events(m)| == 2 + |Events(m.inner)| + |Events(m.rest)|
  {
  }

  /** The content of an element occurs just after its start tag. */
  lemma InnerOccurs(events: seq<Event>, i: nat, m: Markup)
    requires m.Node? && Occurs(events, i, Events(m))
    ensures Occurs(events, i + 1, Events(m.inner))
  {
    var start := [Start(Element(m.tag, map[], "", []))];
    var after := [End(m.tag, "")] + Events(m.rest);
    assert Events(m) == start + (Events(m.inner) + after);
    OccursSplit(events, i, start, Events(m.inner) + after);
    OccursSplit(events, i + 1, Events(m.inner), after);
  }

  /** The siblings of an element occur just after its end tag. */
  lemma RestOccurs(events: seq<Event>, i: nat, m: Markup)
    requires m.Node? && Occurs(events, i, Events(m))
    ensures Occurs(events, i + 2 + |Events(m.inner)|, Events(m.rest))
  {
    var head := [Start(Element(m.tag, map[], "", []))] + Events(m.inner) + [End(m.tag, "")];
    assert Events(m) == head + Events(m.rest);
    OccursSplit(events, i, head, Events(m.rest));
  }

  /** Well-nested markup of allowed tags is consumed whole and leaves the tag stack as it
      found it, whatever the value type. */
  lemma {:induction false} MarkupConsumed(events: seq<Event>, i: nat, stack: seq<string>, allowed: seq<string>, valtype: string, m: Markup)
    requires Within(m, allowed) && Occurs(events, i, Events(m))
    ensures ScanValue(events, i, stack, allowed, valtype) == ScanValue(events, i + |Events(m)|, stack, allowed, valtype)
    decreases m, 1
  {
    if m.Node? {
      var n := |Events(m.inner)|;
      EventsLength(m);
      RestOccurs(events, i, m);
      ElementConsumed(events, i, stack, allowed, valtype, m);
      MarkupConsumed(events, i + 2 + n, stack, allowed, valtype, m.rest);
    }
  }

  /** The first element of the forest, from its start tag to its end tag, is consumed whole. */
  lemma {:induction false} ElementConsumed(events: seq<Event>, i: nat, stack: seq<string>, allowed: seq<string>, valtype: string, m: Markup)
    requires m.Node? && Within(m, allowed) && Occurs(events, i, Events(m))
    ensures ScanValue(events, i, stack, allowed, valtype) == ScanValue(events, i + 2 + |Events(m.inner)|, stack, allowed, valtype)
    decreases m, 0
  {
    var n := |Events(m.inner)|;
    Decompose(events, i, m);
    StepPush(events, i, stack, allowed, valtype, m.tag);
    MarkupConsumed(events, i + 1, stack + [m.tag], allowed, valtype, m.inner);
    StepPop(events, i + 1 + n, stack, allowed, valtype, m.tag);
  }

  /** An allowed start tag is pushed. */
  lemma StepPush(events: seq<Event>, i: nat, stack: seq<string>, allowed: seq<string>, valtype: string, tag: string)
    requires i < |events| && events[i] == Start(Element(tag, map[], "", [])) && tag in allowed
    ensures ScanValue(events, i, stack, allowed, valtype) == ScanValue(events, i + 1, stack + [tag], allowed, valtype)
  {
  }

  /** The end tag of the innermost open tag pops it. */
  lemma StepPop(events: seq<Event>, i: nat, stack: seq<string>, allowed: seq<string>, valtype: string, tag: string)
    requires i < |events| && events[i] == End(tag, "")
    ensures ScanValue(events, i, stack + [tag], allowed, valtype) == ScanValue(events, i + 1, stack, allowed, valtype)
  {
    assert (stack + [tag])[..|stack|] == stack;
  }

  /** With no tag open, the value's own end tag closes it. */
  lemma StepClose(events: seq<Event>, i: nat, allowed: seq<string>, valtype: string)
    requires i < |events| && events[i].End? && events[i].tag == valtype
    ensures ScanValue(events, i, [], allowed, valtype) == Ok(i + 1)
  {
  }

  /** A text value holding well-nested rich-text markup and then its end tag parses, and
      the cursor ends just after that end tag. */
  lemma TextValueAccepted(events: seq<Event>, pos: nat, node: Element, m: Markup, listname: Option<string>)
    requires node.tag == "text" && Within(m, RichtextTags)
    requires ValueOf(node, "text", listname).Ok?
    requires Occurs(events, pos, Events(m)) && pos + |Events(m)| < |events|
    requires events[pos + |Events(m)|].End? && events[pos + |Events(m)|].tag == "text"
    ensures ValueSpec(events, pos, node, "text", listname) ==
      Ok(Parsed(ValueOf(node, "text", listname).value, pos + |Events(m)| + 1))
  {
    MarkupThenClose(events, pos, RichtextTags, "text", m);
    ValueSpecScanned(events, pos, node, "text", listname, pos + |Events(m)| + 1);
  }

  /** Well-nested markup of allowed tags followed by the value's end tag is scanned up to
      and including that end tag. */
  lemma MarkupThenClose(events: seq<Event>, pos: nat, allowed: seq<string>, valtype: string, m: Markup)
    requires Within(m, allowed) && Occurs(events, pos, Events(m)) && pos + |Events(m)| < |events|
    requires events[pos + |Events(m)|].End? && events[pos + |Events(m)|].tag == valtype
    ensures ScanValue(events, pos, [], allowed, valtype) == Ok(pos + |Events(m)| + 1)
  {
    MarkupConsumed(events, pos, [], allowed, valtype, m);
    StepClose(events, pos + |Events(m)|, allowed, valtype);
  }

  /** A value whose element is well-formed and whose scan ends at `next` parses, ending there. */
  lemma ValueSpecScanned(events: seq<Event>, pos: nat, node: Element, valtype: string, listname: Option<string>, next: nat)
    requires ValueOf(node, valtype, listname).Ok?
    requires ScanValue(events, pos, [], AllowedTags(node.tag), valtype) == Ok(next)
    ensures ValueSpec(events, pos, node, valtype, listname) == Ok(Parsed(ValueOf(node, valtype, listname).value, next))
  {
  }

  /** A value scan that succeeds consumed only allowed start tags; with no tags allowed
      and none open, it consumed exactly the value's own end tag. */
  lemma {:induction false} ScannedStartsAllowed(events: seq<Event>, i: nat, stack: seq<string>, allowed: seq<string>, valtype: string)
    requires ScanValue(events, i, stack, allowed, valtype).Ok?
    ensures var next := ScanValue(events, i, stack, allowed, valtype).value;
      forall k :: i <= k < next && events[k].Start? ==> events[k].node.tag in allowed
    ensures allowed == [] && stack == [] ==> ScanValue(events, i, stack, allowed, valtype).value == i + 1
    decreases |events| - i
  {
    match events[i]
    case Start(sub) =>
      ScannedStartsAllowed(events, i + 1, stack + [sub.tag], allowed, valtype);
    case End(tag, _) =>
      if |stack| > 0 && tag == stack[|stack| - 1] {
        ScannedStartsAllowed(events, i + 1, stack[..|stack| - 1], allowed, valtype);
      }
  }

  /**
   * A value that parses consumed, up to and including its end tag, only rich-text start
   * tags, and those only if it is a text value; a value of any other type consumed
   * exactly its end tag.
   */
  lemma ValueStartsAreRichtext(events: seq<Event>, pos: nat, node: Element, valtype: string, listname: Option<string>)
    requires ValueSpec(events, pos, node, valtype, listname).Ok?
    ensures var next := ValueSpec(events, pos, node, valtype, listname).value.next;
      forall k :: pos <= k < next && events[k].Start? ==> node.tag == "text" && events[k].node.tag in RichtextTags
    ensures node.tag != "text" ==> ValueSpec(events, pos, node, valtype, listname).value.next == pos + 1
  {
    ScannedStartsAllowed(events, pos, [], AllowedTags(node.tag), valtype);
  }

  /** A value of another type than text rejects any tag inside it, rich-text or not. */
  lemma NonTextRejectsMarkup(events: seq<Event>, pos: nat, node: Element, valtype: string, listname: Option<string>)
    requires node.tag != "text" && ValueOf(node, valtype, listname).Ok?
    requires pos < |events| && events[pos].Start?
    ensures ValueSpec(events, pos, node, valtype, listname) == Err(UnexpectedStart(events[pos].node.tag))
  {
  }

  // ---------------------------------------------------------------------------------
  // Quirks of the property and document loops
  // ---------------------------------------------------------------------------------

  /** A property is closed by the end tag of any property type, not only its own: a text
      property ended by `</boolean-prop>` parses, with the values read so far. */
  lemma AnyPropertyEndTagCloses(events: seq<Event>, i: nat, valtype: string, listname: Option<string>, values: seq<KnoraValue>)
    requires i < |events| && events[i].End? && events[i].tag in PropTagValtype
    ensures ScanProperty(events, i, valtype, listname, values) == Ok(Parsed(values, i + 1))
  {
  }

  /** A permission element is closed by `</permissions>` and also by `</resource>`, with
      the allows read so far. */
  lemma PermissionClosedByResourceEnd(events: seq<Event>, i: nat, groupmap: map<string, string>, projectName: Option<string>, allows: seq<XmlAllow>)
    requires i < |events| && events[i].End? && (events[i].tag == "resource" || events[i].tag == "permissions")
    ensures ScanPermission(events, i, groupmap, projectName, allows) == Ok(Parsed(allows, i + 1))
  {
  }

  /** The permission sets the document loop parses from cursor `i` on, in stream order, up
      to the root's end tag or to the first error. */
  function PermissionLog(
    events: seq<Event>, i: nat, projects: seq<ProjectInfo>, groupmap: map<string, string>,
    ctxShortcode: Option<string>, projectName: Option<string>, doc: Document): seq<XmlPermission>
    decreases |events| - i, 1
  {
    if i >= |events| then []
    else PermissionLogEvent(events, i, projects, groupmap, ctxShortcode, projectName, doc)
  }

  /** The permission sets parsed from the turn of the document loop at `events[i]` on. */
  function PermissionLogEvent(
    events: seq<Event>, i: nat, projects: seq<ProjectInfo>, groupmap: map<string, string>,
    ctxShortcode: Option<string>, projectName: Option<string>, doc: Document): seq<XmlPermission>
    requires i < |events|
    decreases |events| - i, 0
  {
    match events[i]
      case Start(node) =>
        if node.tag == "knora" then
          match (Attr(node.attrs, "default-ontology"), Attr(node.attrs, "shortcode"))
          case (Ok(ontology), Ok(shortcode)) =>
            PermissionLog(events, i + 1, projects, groupmap, ctxShortcode,
              AfterShortcodeSet(projects, ctxShortcode, projectName),
              doc.(shortcode := Some(shortcode), defaultOntology := Some(ontology)))
          case _ => []
        else if node.tag == "resource" then
          match ResourceSpec(events, i + 1, node, doc.defaultOntology)
          case Ok(p) =>
            PermissionLog(events, p.next, projects, groupmap, ctxShortcode, projectName,
              doc.(resources := doc.resources + [p.item]))
          case Err(_) => []
        else if node.tag == "permissions" then
          match PermissionSpec(events, i + 1, node, groupmap, projectName)
          case Ok(p) =>
            [p.item] + PermissionLog(events, p.next, projects, groupmap, ctxShortcode, projectName,
              doc.(permissions := doc.permissions[p.item.id := p.item]))
          case Err(_) => []
        else PermissionLog(events, i + 1, projects, groupmap, ctxShortcode, projectName, doc)
      case End(tag, _) =>
        if tag == "knora" then []
        else PermissionLog(events, i + 1, projects, groupmap, ctxShortcode, projectName, doc)
  }

  /** The set the permission parser reads when `events[j]` starts a `<permissions>` element,
      with the project name `pn`. */
  function SetReadAt(events: seq<Event>, j: nat, groupmap: map<string, string>, pn: Option<string>): Option<XmlPermission>
  {
    if j < |events| && events[j].Start? && events[j].node.tag == "permissions" &&
      PermissionSpec(events, j + 1, events[j].node, groupmap, pn).Ok?
    then Some(PermissionSpec(events, j + 1, events[j].node, groupmap, pn).value.item)
    else None
  }

  /** `s` is read from some `<permissions>` element starting at or after `from`, with one of
      the project names `names`. */
  ghost predicate ParsedAt(events: seq<Event>, from: nat, groupmap: map<string, string>, names: set<Option<string>>, s: XmlPermission)
  {
    exists j: nat, pn: Option<string> :: from <= j && pn in names && SetReadAt(events, j, groupmap, pn) == Some(s)
  }

  /** The project names the document loop can read permission sets with: the one it starts
      with, and the one the shortcode setter leaves at the root element. */
  function LoopNames(projects: seq<ProjectInfo>, ctxShortcode: Option<string>, projectName: Option<string>): (names: set<Option<string>>)
    ensures projectName in names
    ensures AfterShortcodeSet(projects, ctxShortcode, AfterShortcodeSet(projects, ctxShortcode, projectName)) in names
  {
    {projectName, AfterShortcodeSet(projects, ctxShortcode, projectName)}
  }

  /** Every set of the log is read by the permission parser from a `<permissions>` element of
      the stream, with the project name the loop holds at that point. */
  lemma {:induction false} PermissionLogParsed(
    events: seq<Event>, i: nat, projects: seq<ProjectInfo>, groupmap: map<string, string>,
    ctxShortcode: Option<string>, projectName: Option<string>, doc: Document)
    ensures forall k :: 0 <= k < |PermissionLog(events, i, projects, groupmap, ctxShortcode, projectName, doc)| ==>
      ParsedAt(events, i, groupmap, LoopNames(projects, ctxShortcode, projectName),
        PermissionLog(events, i, projects, groupmap, ctxShortcode, projectName, doc)[k])
    decreases |events| - i
  {
    var names := LoopNames(projects, ctxShortcode, projectName);
    if i < |events| {
      match events[i]
      case Start(node) =>
        if node.tag == "knora" {
          match (Attr(node.attrs, "default-ontology"), Attr(node.attrs, "shortcode"))
          case (Ok(ontology), Ok(shortcode)) =>
            var doc' := doc.(shortcode := Some(shortcode), defaultOntology := Some(ontology));
            var pn := AfterShortcodeSet(projects, ctxShortcode, projectName);
            PermissionLogParsed(events, i + 1, projects, groupmap, ctxShortcode, pn, doc');
            ParsedLater(events, i, i + 1, groupmap, LoopNames(projects, ctxShortcode, pn), names,
              PermissionLog(events, i + 1, projects, groupmap, ctxShortcode, pn, doc'));
          case _ =>
        } else if node.tag == "resource" {
          match ResourceSpec(events, i + 1, node, doc.defaultOntology)
          case Ok(p) =>
            var doc' := doc.(resources := doc.resources + [p.item]);
            PermissionLogParsed(events, p.next, projects, groupmap, ctxShortcode, projectName, doc');
            ParsedLater(events, i, p.next, groupmap, names, names,
              PermissionLog(events, p.next, projects, groupmap, ctxShortcode, projectName, doc'));
          case Err(_) =>
        } else if node.tag == "permissions" {
          match PermissionSpec(events, i + 1, node, groupmap, projectName)
          case Ok(p) =>
            var doc' := doc.(permissions := doc.permissions[p.item.id := p.item]);
            var rest := PermissionLog(events, p.next, projects, groupmap, ctxShortcode, projectName, doc');
            PermissionLogParsed(events, p.next, projects, groupmap, ctxShortcode, projectName, doc');
            ParsedLater(events, i, p.next, groupmap, names, names, rest);
            assert ParsedAt(events, i, groupmap, names, p.item) by {
              assert SetReadAt(events, i, groupmap, projectName) == Some(p.item);
            }
          case Err(_) =>
        } else {
          PermissionLogParsed(events, i + 1, projects, groupmap, ctxShortcode, projectName, doc);
          ParsedLater(events, i, i + 1, groupmap, names, names,
            PermissionLog(events, i + 1, projects, groupmap, ctxShortcode, projectName, doc));
        }
      case End(tag, _) =>
        if tag != "knora" {
          PermissionLogParsed(events, i + 1, projects, groupmap, ctxShortcode, projectName, doc);
          ParsedLater(events, i, i + 1, groupmap, names, names,
            PermissionLog(events, i + 1, projects, groupmap, ctxShortcode, projectName, doc));
        }
    }
  }

  /** Sets read at or after `a` with names among `inner` are read at or after any earlier `b`
      with names among any larger `outer`. */
  lemma ParsedLater(events: seq<Event>, b: nat, a: nat, groupmap: map<string, string>,
    inner: set<Option<string>>, outer: set<Option<string>>, sets: seq<XmlPermission>)
    requires b <= a && inner <= outer
    requires forall k :: 0 <= k < |sets| ==> ParsedAt(events, a, groupmap, inner, sets[k])
    ensures forall k :: 0 <= k < |sets| ==> ParsedAt(events, b, groupmap, outer, sets[k])
  {
  }

  /** In the upload, which starts without shortcode and project name, every set the document
      loop parses is read with no project name. */
  lemma UploadPermissionsRead(events: seq<Event>, projects: seq<ProjectInfo>, groupmap: map<string, string>)
    ensures var log := PermissionLog(events, 0, projects, groupmap, None, None, EmptyDocument);
      forall k :: 0 <= k < |log| ==> ParsedAt(events, 0, groupmap, {None}, log[k])
  {
    SetterWithoutShortcode(projects, None);
    assert LoopNames(projects, None, None) == {None};
    PermissionLogParsed(events, 0, projects, groupmap, None, None, EmptyDocument);
  }

  /** The map after storing each set of `sets` under its id, in order. */
  function Overwrite(m: map<string, XmlPermission>, sets: seq<XmlPermission>): map<string, XmlPermission>
    decreases |sets|
  {
    if sets == [] then m else Overwrite(m[sets[0].id := sets[0]], sets[1..])
  }

  /** Storing the sets adds exactly their ids. */
  lemma {:induction false} OverwriteKeys(m: map<string, XmlPermission>, sets: seq<XmlPermission>)
    ensures Overwrite(m, sets).Keys == m.Keys + set k | 0 <= k < |sets| :: sets[k].id
    decreases |sets|
  {
    if sets != [] {
      OverwriteKeys(m[sets[0].id := sets[0]], sets[1..]);
      var rest := set k | 0 <= k < |sets[1..]| :: sets[1..][k].id;
      var all := set k | 0 <= k < |sets| :: sets[k].id;
      assert all == {sets[0].id} + rest by {
        forall id | id in all ensures id in {sets[0].id} + rest {
          var k :| 0 <= k < |sets| && sets[k].id == id;
          if k > 0 {
            assert sets[1..][k - 1] == sets[k];
          }
        }
      }
    }
  }

  /** A set that no later set of the same id follows is the one stored under its id. */
  lemma {:induction false} OverwriteLast(m: map<string, XmlPermission>, sets: seq<XmlPermission>, k: nat)
    requires k < |sets| && forall j :: k < j < |sets| ==> sets[j].id != sets[k].id
    ensures sets[k].id in Overwrite(m, sets) && Overwrite(m, sets)[sets[k].id] == sets[k]
    decreases |sets|
  {
    var m' := m[sets[0].id := sets[0]];
    if k == 0 {
      OverwriteUntouched(m', sets[1..], sets[0].id);
    } else {
      forall j | k - 1 < j < |sets[1..]| ensures sets[1..][j].id != sets[1..][k - 1].id {
        assert sets[1..][j] == sets[j + 1];
      }
      OverwriteLast(m', sets[1..], k - 1);
    }
  }

  /** An id none of the sets carries keeps its entry. */
  lemma {:induction false} OverwriteUntouched(m: map<string, XmlPermission>, sets: seq<XmlPermission>, id: string)
    requires id in m && forall j :: 0 <= j < |sets| ==> sets[j].id != id
    ensures id in Overwrite(m, sets) && Overwrite(m, sets)[id] == m[id]
    decreases |sets|
  {
    if sets != [] {
      forall j | 0 <= j < |sets[1..]| ensures sets[1..][j].id != id {
        assert sets[1..][j] == sets[j + 1];
      }
      OverwriteUntouched(m[sets[0].id := sets[0]], sets[1..], id);
    }
  }

  /** The document loop stores the sets it parses one after the other under their ids. */
  lemma {:induction false} DocumentPermissionLog(
    events: seq<Event>, i: nat, projects: seq<ProjectInfo>, groupmap: map<string, string>,
    ctxShortcode: Option<string>, projectName: Option<string>, doc: Document)
    requires ScanDocument(events, i, projects, groupmap, ctxShortcode, projectName, doc).Ok?
    ensures ScanDocument(events, i, projects, groupmap, ctxShortcode, projectName, doc).value.doc.permissions ==
      Overwrite(doc.permissions, PermissionLog(events, i, projects, groupmap, ctxShortcode, projectName, doc))
    decreases |events| - i
  {
    match events[i]
    case Start(node) =>
      if node.tag == "knora" {
        var shortcode := node.attrs["shortcode"];
        var ontology := node.attrs["default-ontology"];
        DocumentPermissionLog(events, i + 1, projects, groupmap, ctxShortcode,
          AfterShortcodeSet(projects, ctxShortcode, projectName),
          doc.(shortcode := Some(shortcode), defaultOntology := Some(ontology)));
      } else if node.tag == "resource" {
        var p := ResourceSpec(events, i + 1, node, doc.defaultOntology).value;
        DocumentPermissionLog(events, p.next, projects, groupmap, ctxShortcode, projectName,
          doc.(resources := doc.resources + [p.item]));
      } else if node.tag == "permissions" {
        var p := PermissionSpec(events, i + 1, node, groupmap, projectName).value;
        var doc' := doc.(permissions := doc.permissions[p.item.id := p.item]);
        var rest := PermissionLog(events, p.next, projects, groupmap, ctxShortcode, projectName, doc');
        DocumentPermissionLog(events, p.next, projects, groupmap, ctxShortcode, projectName, doc');
        assert ([p.item] + rest)[0] == p.item && ([p.item] + rest)[1..] == rest;
      } else {
        DocumentPermissionLog(events, i + 1, projects, groupmap, ctxShortcode, projectName, doc);
      }
    case End(tag, _) =>
      if tag != "knora" {
        DocumentPermissionLog(events, i + 1, projects, groupmap, ctxShortcode, projectName, doc);
      }
  }

  /**
   * Permission sets with the same id: the later one replaces the earlier. Of every document
   * the loop reads, the permissions hold exactly the ids of the sets parsed from it, each
   * under the last set parsed with that id.
   */
  lemma LaterPermissionSetWins(
    events: seq<Event>, projects: seq<ProjectInfo>, groupmap: map<string, string>,
    ctxShortcode: Option<string>, projectName: Option<string>)
    requires DocumentSpec(events, projects, groupmap, ctxShortcode, projectName).Ok?
    ensures var log := PermissionLog(events, 0, projects, groupmap, ctxShortcode, projectName, EmptyDocument);
      var perms := DocumentSpec(events, projects, groupmap, ctxShortcode, projectName).value.doc.permissions;
      perms.Keys == (set k | 0 <= k < |log| :: log[k].id) &&
      forall k :: 0 <= k < |log| && (forall j :: k < j < |log| ==> log[j].id != log[k].id) ==>
        log[k].id in perms && perms[log[k].id] == log[k]
  {
    var log := PermissionLog(events, 0, projects, groupmap, ctxShortcode, projectName, EmptyDocument);
    DocumentPermissionLog(events, 0, projects, groupmap, ctxShortcode, projectName, EmptyDocument);
    OverwriteKeys(map[], log);
    forall k | 0 <= k < |log| && (forall j :: k < j < |log| ==> log[j].id != log[k].id)
      ensures Overwrite(map[], log)[log[k].id] == log[k]
    {
      OverwriteLast(map[], log, k);
    }
  }

  // ---------------------------------------------------------------------------------
  // Group names in the upload flow
  // ---------------------------------------------------------------------------------

  /** `knora-admin:<system group>`, possibly followed by further fields. */
  predicate AdminGroup(group: string)
  {
    var parts := Split(group, ':');
    |parts| > 1 && parts[0] == AdminOntology && parts[1] in SysGroups
  }

  /** A group an allow may name when no project name is known: an administrative
      system group or a group of the directory snapshot. */
  predicate KnownGroup(group: string, groupmap: map<string, string>)
  {
    AdminGroup(group) || group in groupmap.Values
  }

  /** Without a project name, a group token resolves only to a known group. */
  lemma ResolveWithoutProjectName(group: string, groupmap: map<string, string>)
    ensures ResolveGroup(group, groupmap, None).Ok? ==> KnownGroup(ResolveGroup(group, groupmap, None).value, groupmap)
  {
    var parts := Split(group, ':');
    if |parts| == 1 && parts[0] in SysGroups {
      assert group == parts[0] by { JoinSplit(group, ':'); }
      BareGroupIsAdmin(group);
    }
  }

  /** A bare system group resolves to an administrative group. */
  lemma BareGroupIsAdmin(name: string)
    requires name in SysGroups
    ensures AdminGroup(AdminOntology + ":" + name)
  {
    assert Split(AdminOntology + ":" + name, ':') == [AdminOntology, name] by {
      SysGroupsColonFree(name);
      SplitFree(name, ':');
      AdminOntologyColonFree();
      SplitAtFirst(AdminOntology, name, ':');
      assert AdminOntology + ":" + name == AdminOntology + [':'] + name;
    }
  }

  /** All allows of a list name known groups. */
  predicate AllowsKnown(allows: seq<XmlAllow>, groupmap: map<string, string>)
  {
    forall k :: 0 <= k < |allows| ==> KnownGroup(allows[k].group, groupmap)
  }

  /** All permission sets of a document name known groups. */
  predicate PermissionsKnown(permissions: map<string, XmlPermission>, groupmap: map<string, string>)
  {
    forall id :: id in permissions ==> AllowsKnown(permissions[id].allows, groupmap)
  }

  /** Without a project name, a permission set that parses names only known groups. */
  lemma {:induction false} PermissionKnownGroups(events: seq<Event>, i: nat, groupmap: map<string, string>, allows: seq<XmlAllow>)
    requires AllowsKnown(allows, groupmap)
    requires ScanPermission(events, i, groupmap, None, allows).Ok?
    ensures AllowsKnown(ScanPermission(events, i, groupmap, None, allows).value.item, groupmap)
    decreases |events| - i
  {
    match events[i]
    case Start(sub) =>
      var a := AllowOf(sub, groupmap, None).value;
      ResolveWithoutProjectName(sub.attrs["group"], groupmap);
      assert AllowsKnown(allows + [a], groupmap);
      PermissionKnownGroups(events, i + 1, groupmap, allows + [a]);
    case End(tag, _) =>
      if tag == "allow" {
        PermissionKnownGroups(events, i + 1, groupmap, allows);
      }
  }

  /**
   * The upload builds its context without a shortcode, so the document loop never learns a
   * project name, and every permission set it collects names only administrative system
   * groups or groups of the directory: a `:name` token never gets through.
   */
  lemma {:induction false} DocumentKnownGroups(
    events: seq<Event>, i: nat, projects: seq<ProjectInfo>, groupmap: map<string, string>, doc: Document)
    requires PermissionsKnown(doc.permissions, groupmap)
    requires ScanDocument(events, i, projects, groupmap, None, None, doc).Ok?
    ensures ScanDocument(events, i, projects, groupmap, None, None, doc).value.projectName == None
    ensures PermissionsKnown(ScanDocument(events, i, projects, groupmap, None, None, doc).value.doc.permissions, groupmap)
    decreases |events| - i
  {
    match events[i]
    case Start(node) =>
      if node.tag == "knora" {
        SetterWithoutShortcode(projects, None);
        var shortcode := node.attrs["shortcode"];
        var ontology := node.attrs["default-ontology"];
        DocumentKnownGroups(events, i + 1, projects, groupmap,
          doc.(shortcode := Some(shortcode), defaultOntology := Some(ontology)));
      } else if node.tag == "resource" {
        var p := ResourceSpec(events, i + 1, node, doc.defaultOntology).value;
        DocumentKnownGroups(events, p.next, projects, groupmap, doc.(resources := doc.resources + [p.item]));
      } else if node.tag == "permissions" {
        var p := PermissionSpec(events, i + 1, node, groupmap, None).value;
        PermissionKnownGroups(events, i + 1, groupmap, []);
        var perms := doc.permissions[p.item.id := p.item];
        assert PermissionsKnown(perms, groupmap);
        DocumentKnownGroups(events, p.next, projects, groupmap, doc.(permissions := perms));
      } else {
        DocumentKnownGroups(events, i + 1, projects, groupmap, doc);
      }
    case End(tag, _) =>
      if tag != "knora" {
        DocumentKnownGroups(events, i + 1, projects, groupmap, doc);
      }
  }

  /** The whole document as the upload reads it. */
  lemma UploadKnownGroups(events: seq<Event>, projects: seq<ProjectInfo>, groupmap: map<string, string>)
    requires DocumentSpec(events, projects, groupmap, None, None).Ok?
    ensures DocumentSpec(events, projects, groupmap, None, None).value.projectName == None
    ensures PermissionsKnown(DocumentSpec(events, projects, groupmap, None, None).value.doc.permissions, groupmap)
  {
    DocumentKnownGroups(events, 0, projects, groupmap, EmptyDocument);
  }
}

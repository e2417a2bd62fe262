# knora XML upload and KnoraProject, modelled in Dafny

This project models the core of the knora-py bulk import and proves properties about it. The import (`xml_upload`) reads an XML data file as a stream of start and end events. From that stream it builds:

- the resources;
- their properties and values;
- the named permission sets.

The project's group tokens are resolved through a `ProjectContext` snapshot of the server's projects and groups. The import then orders the resources so that every resource comes after the resources it refers to (`do_sortorder`). Finally it creates the resources one by one. Each creation request carries:

- the property values (`get_propvals`), where pointers to resources created earlier are replaced by their IRIs;
- the permission sets (`get_permission_instance`).

The project also models the client-side record of an admin-API project, `KnoraProject`:

- its setters and the `changed` set they maintain;
- `add_keyword` and `rm_keyword`;
- `fromJsonObj` and `toJsonObj`;
- the decision in `update` to send nothing when the update payload is empty.

## Layout

| File | Module | What it holds |
|---|---|---|
| `wrappers.dfy` | `Wrappers` | `Option` and `Result` |
| `strings.dfy` | `Strings` | `str.split` on one character, with its inverse `Join` |
| `xml_model.dfy` | `XmlModel` | The event stream and the parsed entities |
| `project_context.dfy` | `ProjectContexts` | `ProjectContext` as a class, and the resolution of `<allow group=…>` |
| `xml_parser.dfy` | `XmlParser` | The parsers |
| `parser_facts.dfy` | `ParserFacts` | Properties of the parsers |
| `xml_roundtrip.dfy` | `XmlRoundTrip` | Emitting a resource as events and parsing it back |
| `sort_order.dfy` | `SortOrder` | `get_resptrs` and `do_sortorder` |
| `propvals.dfy` | `Payloads` | `get_propvals`, `XmlPermission.__str__` and `get_permission_instance` |
| `upload.dfy` | `Upload` | The upload loop and the whole pipeline without the server |
| `knora_project.dfy` | `Projects` | `KnoraProject` |

More on each file:

- **`xml_model.dfy`:** the parsed entities are `KnoraValue`, `KnoraProperty`, `KnoraResource`, `XmlAllow` and `XmlPermission`. The file also holds the errors the parsers raise and the qualification of names.
- **`xml_parser.dfy`:** each parser loop is a method with a `while` loop over the events. Each is proved equal to a recursive specification function.

Where a parser reads past the end of the stream, `next(context)` raises `StopIteration`. The model returns `EventsExhausted` in that case.

Two Python failures are modelled as error values:

| Python failure | Error value |
|---|---|
| A missing attribute looked up with `attrib[...]` (KeyError) | `MissingAttribute` |
| `None + ':'` with no default ontology or project name (TypeError) | `NoneOperand` / `NoProjectName` |

### Where the model follows the code rather than the documentation

- **Resource `permissions` attribute.** The documentation describes it as optional. The code reads it with `attrib['permissions']` (xml_upload.py:244), so a resource without it raises. The model makes it required.
- **Stall report.** The documentation says it lists the unresolved references. The code prints every `resptr` of each stuck resource (xml_upload.py:516-522), and the model does the same.
- **Shortcode setter.** `ProjectContext.shortcode = val` never stores `val`. It matches the projects against the shortcode given to the constructor (xml_upload.py:70-74). The upload builds its context without a shortcode (xml_upload.py:558), so its project name stays unknown. `UploadContextRejectsOwnGroups` proves that a `:name` group token then always raises.
- **Setters that cannot succeed.** The `description`, `keywords` and `selfjoin` setters of `KnoraProject` refer to names that do not exist (`_descriptions`, `self_`, `self`). Each of them raises before it changes anything, because the class is `@strict` or the name is undefined. The model returns an error for each.

## Model

| member | source | states |
|---|---|---|
| Strings.Split | knora/dsplib/utils/xml_upload.py:169 | `str.split` on one character yields at least one field |
| Strings.SplitPiecesFree | knora/dsplib/utils/xml_upload.py:169 | no field of a split holds the separator |
| Strings.JoinSplit | knora/dsplib/utils/xml_upload.py:169 | joining the fields of a split with the separator gives back the string |
| Strings.SplitJoin | knora/dsplib/utils/xml_upload.py:169 | splitting a join of separator-free fields gives back the fields |
| Strings.SplitFree | knora/dsplib/utils/xml_upload.py:170 | a string without the separator splits into itself alone (the `len(tmp) > 1` test fails) |
| Strings.SplitAtFirst | knora/dsplib/utils/xml_upload.py:169-174 | the split of `a:b`, where `a` has no separator, is `a` followed by the split of `b` |
| Strings.SplitFirstPiece | knora/dsplib/utils/xml_upload.py:107 | the first field of `a:b` is the first field of `a` |
| XmlModel.TokenSplit | knora/dsplib/utils/xml_upload.py:103-107 | the token `IRI:<id>:IRI` splits into at least two fields; field 1 is the first field of the id (the whole id when it has no colon) |
| XmlModel.TokenField | knora/dsplib/utils/xml_upload.py:107 | `tmpid.split(':')[1]` is the id's first colon-field, and the id itself when it has no colon |
| XmlModel.RefIds | knora/dsplib/utils/xml_upload.py:103 | `findall` lists exactly the ids of the reference tokens in the markup |
| XmlModel.NoRefIds | knora/dsplib/utils/xml_upload.py:103-104 | markup without tokens yields no ids, so `resrefs` stays None |
| XmlModel.QualifyPrefixed | knora/dsplib/utils/xml_upload.py:169-172 | `p:x` with a non-empty prefix is kept verbatim |
| XmlModel.QualifyEmptyPrefix | knora/dsplib/utils/xml_upload.py:169-174 | `:x` becomes `<default ontology>:x`; without a default ontology it raises |
| XmlModel.QualifyDropsTail | knora/dsplib/utils/xml_upload.py:174 | `:x:y` keeps only `x` |
| XmlModel.QualifyBare | knora/dsplib/utils/xml_upload.py:175-176 | a bare name goes to `knora-admin` |
| ProjectContexts.ProjectNameOfFirstMatch | knora/dsplib/utils/xml_upload.py:55-59 | the project name is that of the first project with the shortcode, and is None exactly when no project has it |
| ProjectContexts.FindProjectName | knora/dsplib/utils/xml_upload.py:56-59 | the loop over the projects returns the first match's shortname |
| ProjectContexts.ProjectContext.constructor | knora/dsplib/utils/xml_upload.py:47-59 | stores the snapshot and the shortcode; the project name is set only for a non-empty shortcode, from the first matching project |
| ProjectContexts.ProjectContext.SetShortcode | knora/dsplib/utils/xml_upload.py:69-74 | the setter re-matches the stored shortcode, ignores `val`, and keeps the old name when nothing matches |
| ProjectContexts.SetterWithoutShortcode | knora/dsplib/utils/xml_upload.py:69-74 | with no stored shortcode the setter leaves the project name unchanged |
| ProjectContexts.SysGroupsColonFree | knora/dsplib/utils/xml_upload.py:395 | no built-in group name holds a colon |
| ProjectContexts.ResolveAdminGroup | knora/dsplib/utils/xml_upload.py:398-399 | `knora-admin:<system group>` is kept as written |
| ProjectContexts.ResolveNamespacedGroup | knora/dsplib/utils/xml_upload.py:400-403 | any other `ns:name` is looked up in the group map and raises when it is absent |
| ProjectContexts.ResolveProjectGroup | knora/dsplib/utils/xml_upload.py:404-407 | `:name` becomes `<project name>:name`, and raises when no project name is known |
| ProjectContexts.ResolveBareGroup | knora/dsplib/utils/xml_upload.py:408-412 | a bare token must be a system group, which then goes to `knora-admin`; otherwise it raises |
| ProjectContexts.UploadContextRejectsOwnGroups | knora/dsplib/utils/xml_upload.py:558-578 | a context built without a shortcode and then given the root's shortcode rejects every `:name` group |
| XmlParser.Attr | knora/dsplib/utils/xml_upload.py:234-244 | `attrib[name]` succeeds exactly when the attribute exists and raises otherwise |
| XmlParser.Dedup | knora/dsplib/utils/xml_upload.py:105-108 | `list(set(...))` keeps each id once and loses none |
| XmlParser.AllowedTags | knora/dsplib/utils/xml_upload.py:118 | only a `<text>` value may contain markup |
| XmlParser.ScanValue | knora/dsplib/utils/xml_upload.py:114-131 | a successful scan ends just after the value's own end tag |
| XmlParser.ValueSpec | knora/dsplib/utils/xml_upload.py:88-131 | a parsed value consumes at least one event and stays inside the stream |
| XmlParser.ParseValue | knora/dsplib/utils/xml_upload.py:88-131 | the `KnoraValue` loop returns what `ValueSpec` defines (value, comment, permissions, resrefs, the richtext stack, the end-tag errors) |
| XmlParser.ParseProperty | knora/dsplib/utils/xml_upload.py:168-199 | the `KnoraProperty` loop returns what `PropertySpec` defines (qualified name, list name, values of the declared type, any `*-prop` end tag closes) |
| XmlParser.ParseResource | knora/dsplib/utils/xml_upload.py:227-290 | the `KnoraResource` loop returns what `ResourceSpec` defines (id, label, qualified class, permissions, image, one property per `*-prop` start) |
| XmlParser.ParsePermission | knora/dsplib/utils/xml_upload.py:431-455 | the `XmlPermission` loop returns what `PermissionSpec` defines (the allows in order, closed by `</resource>` or `</permissions>`) |
| XmlParser.ParseDocument | knora/dsplib/utils/xml_upload.py:563-582 | the top-level loop returns `DocumentSpec`'s document and leaves the context's project name as the setter left it |
| ParserFacts.MarkupConsumed | knora/dsplib/utils/xml_upload.py:114-126 | well-nested allowed markup is skipped by the richtext stack without changing the scan's result |
| ParserFacts.TextValueAccepted | knora/dsplib/utils/xml_upload.py:114-128 | a `<text>` value whose content is any well-nested richtext markup parses and ends after `</text>` |
| ParserFacts.ScannedStartsAllowed | knora/dsplib/utils/xml_upload.py:117-122 | every start tag a successful scan passed is an allowed tag; with nothing allowed, the scan ends at the next event |
| ParserFacts.ValueStartsAreRichtext | knora/dsplib/utils/xml_upload.py:24-27 | the start tags inside a parsed value are richtext tags of a `<text>` value; any other value is a single end tag |
| ParserFacts.NonTextRejectsMarkup | knora/dsplib/utils/xml_upload.py:117-122 | a non-text value containing any start tag raises |
| ParserFacts.AnyPropertyEndTagCloses | knora/dsplib/utils/xml_upload.py:188-197 | on every stream and at every cursor, the end tag of any property type closes the property with the values read so far, not only its own end tag |
| ParserFacts.PermissionClosedByResourceEnd | knora/dsplib/utils/xml_upload.py:447-453 | on every stream and at every cursor, `</permissions>` and also `</resource>` close a permission set with the allows read so far |
| ParserFacts.PermissionLogParsed | knora/dsplib/utils/xml_upload.py:571-579 | each set in the log of the document loop is what the permission parser reads at a `<permissions>` start of the stream, with the project name the loop holds there: the initial one, or the one the shortcode setter leaves at the root |
| ParserFacts.UploadPermissionsRead | knora/dsplib/utils/xml_upload.py:558-579 | in the upload, which starts without shortcode, every parsed set is read with no project name |
| ParserFacts.OverwriteKeys | knora/dsplib/utils/xml_upload.py:579 | storing sets one after another under their ids adds exactly those ids |
| ParserFacts.OverwriteLast | knora/dsplib/utils/xml_upload.py:579 | after storing sets one after another, an id holds the last set stored under it |
| ParserFacts.DocumentPermissionLog | knora/dsplib/utils/xml_upload.py:568-582 | the document loop stores the permission sets it parses one after the other under their ids |
| ParserFacts.LaterPermissionSetWins | knora/dsplib/utils/xml_upload.py:568-582 | for every document the loop reads, the permissions hold exactly the ids of the sets parsed from it, each under the last set parsed with that id |
| ParserFacts.ResolveWithoutProjectName | knora/dsplib/utils/xml_upload.py:394-412 | without a project name every resolved group is an admin system group or a value of the group map |
| ParserFacts.BareGroupIsAdmin | knora/dsplib/utils/xml_upload.py:409-410 | a bare system group resolves to an admin system group |
| ParserFacts.PermissionKnownGroups | knora/dsplib/utils/xml_upload.py:440-455 | every allow a permission set collects names a known group |
| ParserFacts.DocumentKnownGroups | knora/dsplib/utils/xml_upload.py:568-582 | the document loop keeps every parsed permission set's groups known and never sets a project name |
| ParserFacts.UploadKnownGroups | knora/dsplib/utils/xml_upload.py:558-582 | every permission set of an uploaded document names known groups only |
| XmlRoundTrip.ValueRead | knora/dsplib/utils/xml_upload.py:88-131 | an emitted plain value parses back to itself |
| XmlRoundTrip.ValuesRead | knora/dsplib/utils/xml_upload.py:181-185 | emitted plain values are read back in order |
| XmlRoundTrip.PropertyRead | knora/dsplib/utils/xml_upload.py:168-199 | an emitted plain property parses back to itself |
| XmlRoundTrip.PropertiesRead | knora/dsplib/utils/xml_upload.py:247-281 | emitted properties are read back in order |
| XmlRoundTrip.ImageRead | knora/dsplib/utils/xml_upload.py:250-251 | an emitted image is read back |
| XmlRoundTrip.ResourceRoundTrip | knora/dsplib/utils/xml_upload.py:227-290 | parsing the events emitted for a plain resource gives back that resource and consumes exactly those events |
| SortOrder.GetResptrs | knora/dsplib/utils/xml_upload.py:319-333 | the loop over properties and values returns `Resptrs`: pointer values and text resrefs, in order |
| SortOrder.ValueRefsMembers | knora/dsplib/utils/xml_upload.py:326-332 | a value contributes exactly what it refers to |
| SortOrder.ValuesRefsMembers | knora/dsplib/utils/xml_upload.py:327-332 | a property's references are exactly those of some value |
| SortOrder.ResptrsMembers | knora/dsplib/utils/xml_upload.py:319-333 | `x` is in the references exactly when some property's value refers to `x` |
| SortOrder.AllAccepted | knora/dsplib/utils/xml_upload.py:500-508 | the inner loop answers whether every reference is an accepted id |
| SortOrder.SortPass | knora/dsplib/utils/xml_upload.py:496-512 | one pass splits the remaining resources as `Pass` defines, with `ok_resids` kept equal to the accepted ids |
| SortOrder.DoSortOrder | knora/dsplib/utils/xml_upload.py:478-529 | the loop returns `SortOrderSpec` (passes, stall check, cap) |
| SortOrder.PassShrinks | knora/dsplib/utils/xml_upload.py:496-512 | a pass leaves no more unresolved resources than it had, all taken from its input |
| SortOrder.PassKeeps | knora/dsplib/utils/xml_upload.py:496-512 | a pass neither loses nor invents resources |
| SortOrder.PassOrdered | knora/dsplib/utils/xml_upload.py:503-511 | a pass appends only resources whose references are all accepted earlier |
| SortOrder.SortOrderOrdered | knora/dsplib/utils/xml_upload.py:478-529 | a successful ordering puts every referenced resource before its referrer |
| SortOrder.SortOrderCorrect | knora/dsplib/utils/xml_upload.py:478-529 | below the cap, a successful ordering is a permutation of the input and dependency-ordered |
| SortOrder.ReferenceEarlier | knora/dsplib/utils/xml_upload.py:503-507 | in an ordered result every reference names an earlier resource |
| SortOrder.AbsentReferenceFails | knora/dsplib/utils/xml_upload.py:514-523 | a reference to an id no resource has makes the ordering stall |
| SortOrder.SelfReferenceFails | knora/dsplib/utils/xml_upload.py:514-523 | with unique ids, a resource that refers to itself makes the ordering stall |
| SortOrder.StalledReport | knora/dsplib/utils/xml_upload.py:514-523 | a stall reports at least one resource, each entry taken from the input |
| SortOrder.PassNoProgress | knora/dsplib/utils/xml_upload.py:496-512 | a pass that leaves every resource unresolved accepts none: none was ready |
| SortOrder.StallAccounted | knora/dsplib/utils/xml_upload.py:495-526 | at a stall the report lists, with id and references, exactly the resources the last pass left unresolved; these and the accepted ones, in dependency order, make up the input; after a pass without progress none of them was ready |
| SortOrder.SortOrderReport | knora/dsplib/utils/xml_upload.py:495-526 | `do_sortorder` stalls only with a report of at least one resource, listing exactly the unresolved rest of the input beside the accepted resources, none of it ready for them below 9999999 resources |
| SortOrder.UnacceptedReported | knora/dsplib/utils/xml_upload.py:514-522 | every input resource a stall did not accept is in the report with its id and all its references |
| SortOrder.CycleNeverAccepted | knora/dsplib/utils/xml_upload.py:503-512 | with identifying ids, two resources that refer to each other never enter a dependency order |
| SortOrder.TwoCycleReported | knora/dsplib/utils/xml_upload.py:495-526 | two resources referring to each other make the ordering stall (below the cap), and the report names both with their references |
| SortOrder.SortFromAllCorrect | knora/dsplib/utils/xml_upload.py:495-526 | the uncapped passes keep a permutation and produce an ordered result |
| SortOrder.SortOrderAllCorrect | knora/dsplib/utils/xml_upload.py:478-529 | the corrected ordering (no cap) is a permutation and dependency-ordered whenever it succeeds |
| SortOrder.CapUnreached | knora/dsplib/utils/xml_upload.py:495 | while the passes cannot reach the cap, the capped and uncapped orderings agree |
| SortOrder.SortOrderCapUnreached | knora/dsplib/utils/xml_upload.py:495 | for fewer than 10000 resources `do_sortorder` equals the uncapped ordering |
| SortOrder.CapDropsResource | knora/dsplib/utils/xml_upload.py:495 | a reference chain of 10001 resources comes back with 10000 resources and without the first, while the uncapped ordering keeps all |
| Payloads.Grants | knora/dsplib/utils/xml_upload.py:465-469 | one `(permission, group)` grant per allow, in order |
| Payloads.GetPermissionInstance | knora/dsplib/utils/xml_upload.py:465-469 | the loop adds exactly those grants |
| Payloads.AllowStrings | knora/dsplib/utils/xml_upload.py:472-474 | one `"<permission> <group>"` string per allow |
| Payloads.PermissionToString | knora/dsplib/utils/xml_upload.py:471-475 | `__str__` joins the allow strings with `\|` |
| Payloads.AllowStringRoundTrip | knora/dsplib/utils/xml_upload.py:474 | an allow string parses back to its grant when the permission holds no space |
| Payloads.PermissionStringRoundTrip | knora/dsplib/utils/xml_upload.py:471-475 | `__str__` of a set parses back to its grants; an empty set prints as the empty string |
| Payloads.ReplaceRef | knora/dsplib/utils/xml_upload.py:363 | `replace` puts the looked-up IRI (or None) exactly at the occurrences of the token |
| Payloads.SubstitutedTokens | knora/dsplib/utils/xml_upload.py:358-364 | after substitution no token is left; other markup is unchanged; each token becomes the IRI of its id, or None when the id is unknown |
| Payloads.SubstituteRefs | knora/dsplib/utils/xml_upload.py:359-363 | the token loop yields `Substituted` |
| Payloads.PayloadResolution | knora/dsplib/utils/xml_upload.py:351-366 | a pointer becomes its IRI when known and stays verbatim otherwise; text markup loses every token; other values are sent as read |
| Payloads.ItemShape | knora/dsplib/utils/xml_upload.py:368-378 | a value is sent bare exactly when it has neither comment nor permissions; otherwise as `{value, comment?, permissions?}`, with the permission looked up (None when unknown) |
| Payloads.ValuePayload | knora/dsplib/utils/xml_upload.py:350-366 | the per-value branch computes `Payload` |
| Payloads.PropertyItems | knora/dsplib/utils/xml_upload.py:348-378 | the value loop computes `Items` |
| Payloads.GetPropvals | knora/dsplib/utils/xml_upload.py:335-380 | the property loop computes `Propvals`, raising at the first property without values |
| Payloads.ItemsInOrder | knora/dsplib/utils/xml_upload.py:349-378 | one item per value, in order |
| Payloads.PropertyShape | knora/dsplib/utils/xml_upload.py:379 | no values raises (`vals[0]`), one value is sent alone, several as a list in order |
| Payloads.PropvalsErrSticks | knora/dsplib/utils/xml_upload.py:347-379 | once a property raises, the whole call raises with that error |
| Payloads.PropvalsOk | knora/dsplib/utils/xml_upload.py:379 | `get_propvals` succeeds exactly when every property has a value |
| Payloads.PropvalsFirstEmpty | knora/dsplib/utils/xml_upload.py:379 | a failure names the first property without values |
| Payloads.PropvalsKeys | knora/dsplib/utils/xml_upload.py:379 | the keys of the result are exactly the property names |
| Payloads.PropvalsLastWins | knora/dsplib/utils/xml_upload.py:379 | for a repeated property name the last property's values are sent |
| Upload.PermissionsLookup | knora/dsplib/utils/xml_upload.py:593-595 | the lookup has an entry for exactly the permission ids of the document |
| Upload.LookupMatchesString | knora/dsplib/utils/xml_upload.py:593-595 | the instance looked up for a set is what the set's string form reads back as |
| Upload.ImageToSend | knora/dsplib/utils/xml_upload.py:604-608 | an image is uploaded exactly when its name is present and not empty |
| Upload.StillImage | knora/dsplib/utils/xml_upload.py:604-608 | the test `if resource.image:` picks the image `ImageToSend` defines |
| Upload.CreationOf | knora/dsplib/utils/xml_upload.py:609-613 | a creation request fails exactly with `get_propvals`'s error; otherwise it carries the class, the label, the looked-up permissions (None for an unknown id), the image only when its name is not empty, and the values |
| Upload.CreationsErrSticks | knora/dsplib/utils/xml_upload.py:603-615 | a failed creation fails the rest of the upload with the same error |
| Upload.CreateResources | knora/dsplib/utils/xml_upload.py:603-615 | the upload loop sends, in order, the requests `Creations` defines, growing the IRI lookup by each created resource |
| Upload.LookupKeys | knora/dsplib/utils/xml_upload.py:614 | before resource `k` is created, the IRI lookup knows exactly the ids of the resources before it |
| Upload.ValueOfRefsListed | knora/dsplib/utils/xml_upload.py:103-108 | a parsed text value lists every id its markup tokens name |
| Upload.ReadyResolves | knora/dsplib/utils/xml_upload.py:503-507 | a resource accepted after its predecessors refers only to their ids |
| Upload.OrderedUploadResolves | knora/dsplib/utils/xml_upload.py:351-364 | in an ordered upload every pointer and every markup token resolves to an IRI, never to the raw id or None |
| Upload.CreationsLength | knora/dsplib/utils/xml_upload.py:603-615 | a successful upload sends one request per resource |
| Upload.ScanPropertyListed | knora/dsplib/utils/xml_upload.py:181-185 | the values a property element collects list their markup tokens among their resrefs |
| Upload.ScanResourceListed | knora/dsplib/utils/xml_upload.py:247-290 | the properties a resource element collects list their markup tokens |
| Upload.ScanDocumentListed | knora/dsplib/utils/xml_upload.py:568-582 | the resources the document loop collects list their markup tokens |
| Upload.DocumentListed | knora/dsplib/utils/xml_upload.py:568-582 | every markup value of every parsed document lists all its tokens among its resrefs |
| Upload.PermutedListed | knora/dsplib/utils/xml_upload.py:587 | reordering the resources keeps their tokens listed |
| Upload.UploadPlanComplete | knora/dsplib/utils/xml_upload.py:563-615 | a successful plan creates each parsed resource once, in a dependency order, and every pointer and markup token of every value resolves to an IRI when its resource is created |
| Projects.CreatePayload | knora/models/KnoraProject.py:252-272 | Create raises exactly when a required field is missing or empty, with the first such error; otherwise it carries exactly the sendable fields and their values |
| Projects.SendChanged | knora/models/KnoraProject.py:274-287 | the Update branch adds exactly the changed, sendable fields |
| Projects.UpdatePayload | knora/models/KnoraProject.py:273-287 | Update raises exactly when description or keywords is None; otherwise it carries exactly the changed, sendable fields |
| Projects.UpdateSendsOnlyChanged | knora/models/KnoraProject.py:273-287 | an update payload holds only changed fields |
| Projects.FixedNotSendable | knora/models/KnoraProject.py:250-288 | id, ontologies and logo are never sendable |
| Projects.PayloadsOmitFixedFields | knora/models/KnoraProject.py:250-288 | no payload carries id, ontologies or logo |
| Projects.SendableIsPayloadField | knora/models/KnoraProject.py:250-288 | only the seven payload fields are ever sendable |
| Projects.UpdateAllIsCreate | knora/models/KnoraProject.py:250-288 | with every payload field changed, Update sends what Create sends |
| Projects.Descriptions | knora/models/KnoraProject.py:218-224 | the description loop raises exactly when an entry lacks `value` |
| Projects.DescriptionsLanguages | knora/models/KnoraProject.py:220-222 | the languages are exactly those of the entries, defaulting to `en` |
| Projects.DescriptionsLastWins | knora/models/KnoraProject.py:221-222 | the last entry of a language gives its text |
| Projects.SetOf | knora/models/KnoraProject.py:225-228 | `set(list)` holds exactly the listed words |
| Projects.DecodeProject | knora/models/KnoraProject.py:205-248 | `fromJsonObj` raises at the first missing field; otherwise it copies the fields, turns the lists into sets and decodes the description |
| Projects.DecodedHasNothingToUpdate | knora/models/KnoraProject.py:300-307 | a freshly read project with a description has an empty update payload, so `update` sends nothing |
| Projects.DecodedWithoutDescription | knora/models/KnoraProject.py:224 | a project read without a description cannot be created or updated (`None.isEmpty()` raises) |
| Projects.LongnameChangeSent | knora/models/KnoraProject.py:109-112 | after the longname setter the update carries the new longname |
| Projects.KeywordAddSent | knora/models/KnoraProject.py:157-159 | after `add_keyword` the update carries the grown keyword set |
| Projects.KnoraProject.constructor | knora/models/KnoraProject.py:43-74 | stores the fields with nothing changed |
| Projects.KnoraProject.SetId | knora/models/KnoraProject.py:84-86 | always raises |
| Projects.KnoraProject.SetShortcode | knora/models/KnoraProject.py:92-94 | always raises |
| Projects.KnoraProject.SetOntologies | knora/models/KnoraProject.py:172-174 | always raises |
| Projects.KnoraProject.SetShortname | knora/models/KnoraProject.py:100-103 | stores the value and marks it changed |
| Projects.KnoraProject.SetLongname | knora/models/KnoraProject.py:109-112 | stores the value and marks it changed |
| Projects.KnoraProject.SetStatus | knora/models/KnoraProject.py:190-193 | stores the value and marks it changed |
| Projects.KnoraProject.SetLogo | knora/models/KnoraProject.py:199-202 | stores the value and marks it changed |
| Projects.KnoraProject.SetDescription | knora/models/KnoraProject.py:118-121 | raises (`_descriptions` is not declared, and the `@strict` class refuses it) |
| Projects.KnoraProject.SetKeywords | knora/models/KnoraProject.py:149-155 | raises (`self_` is undefined) |
| Projects.KnoraProject.SetSelfjoin | knora/models/KnoraProject.py:180-184 | raises (`self` is undefined) |
| Projects.KnoraProject.AddKeyword | knora/models/KnoraProject.py:157-159 | adds the keyword and marks keywords changed; raises and changes nothing when keywords is None |
| Projects.KnoraProject.RmKeyword | knora/models/KnoraProject.py:161-166 | removes a present keyword and marks keywords changed; raises and changes nothing when it is absent or keywords is None |
| Projects.KnoraProject.FromJsonObj | knora/models/KnoraProject.py:205-248 | `fromJsonObj` fails with `DecodeProject`'s error, or returns a new project holding the decoded fields with nothing changed |
| Projects.KnoraProject.Update | knora/models/KnoraProject.py:300-307 | raises with the update payload's error when it raises; sends nothing exactly when the payload is empty; otherwise raises when the id is None (`quote_plus(None)`), else PUTs the payload to the project's id |

## Left out

- I/O is not modelled: reading the file, `Connection`, login, the HTTP requests, the Sipi image upload, `print`/`pprint`. A PUT carries the project's id, not the URL `quote_plus` builds from it.
- The server's answers are inputs. The IRI the server assigns to the k-th created resource is a parameter `iri`. The projects and groups fetched by `ProjectContext` are parameters, as is the group directory.
- XML Schema validation (xml_upload.py:541-544) is left out. The parser assumes a well-formed event stream, and `etree.iterparse` is modelled as a sequence of start and end events.
- The serialisation of the markup (`etree.tostring` and the string replacements at xml_upload.py:97-102) is left out. A `KnoraStandoffXml` is modelled as a sequence of segments (text, reference token, substituted IRI); the class, imported from the module `dsplib.models.value` (xml_upload.py:13-14), is not part of this model.
- `exit(5)` after a stalled pass is modelled as the error `Stalled`, carrying the report the code prints.
- `resrefs` is a Python `list(set(...))`, whose order is unspecified. The model keeps the first occurrence of each id; only membership is promised.
- `value.value.replace(...)` updates the standoff object in place. The model computes the replaced value, so aliasing of that object is not captured.
- The resource classes of `ResourceInstanceFactory` and `create()` are left out. A request is modelled as a `Creation` value (class, label, permissions, image, values).
- A Permissions instance (imported from the module `dsplib.models.permission`, xml_upload.py:15, which is not part of this model) is modelled as the sequence of its `(permission, group)` grants.
- XmlRoundTrip.ResourceRoundTrip: only covers plain values without markup or resrefs, outside `list` properties (a list value is read back as `listname:text`); comments and permissions are covered. It also assumes a class and property names that are already qualified, and property types that have a `*-prop` tag.
- addDescription / rmDescription (KnoraProject.py:123-143) are left out, because they depend on the `Languages` enum in models/Helpers.py, which is not part of this model. LangString is modelled as a map from language to text, and `isEmpty` as emptiness of that map.
- Projects.KnoraProject.SetDescription, SetKeywords, SetSelfjoin: modelled only as the error they raise, with the message and the exception class left out. The `@strict` class refuses the undeclared `_descriptions`; `self_` and `self` are undefined names.
- Projects.DecodeProject: JSON `null` and an absent key are not distinguished (both are `None` for `json_obj.get`). `set(None)` raising TypeError is modelled as a missing field.
- Other `Actions` members, `create`, `read`, `delete`, `getAllProjects`, `__str__` and `print` of KnoraProject are left out. So is re-reading the project from the server's answer after `update`.
- Upload.UploadPlan, Upload.UploadPlanComplete: they order the resources with the corrected, uncapped `SortOrderAll`, not with the capped `do_sortorder` (line 495). On an input that needs more than 10000 passes the plan creates every resource, where the source drops the unresolved rest. Below 10000 resources the two orderings are equal (`SortOrder.SortOrderCapUnreached`), so there the plan is the source's.
- Python's dynamic typing is left out: `str(value)` coercions and the `isinstance` checks of the constructor.

## Findings

| source | as written | input that shows it | evidently intended | confidence | as-written member | corrected member |
|---|---|---|---|---|---|---|
| knora/dsplib/utils/xml_upload.py:495 | the passes stop after 10000 and return the accepted resources, silently dropping those still unresolved | 10001 resources where resource k refers to resource k+1: each pass accepts one, so after 10000 passes the first resource is missing from the result | every resource is ordered, or the upload stops with an error; it is never dropped without notice | not executed | SortOrder.CapDropsResource | SortOrder.SortOrderAllCorrect |

The upload pipeline `Upload.UploadPlan` uses the corrected ordering `SortOrderAll`; see "## Left out".

/**
 * The resource references of a resource (KnoraResource.get_resptrs) and the ordering of
 * the resources so that a resource comes after every resource it refers to (do_sortorder):
 * repeated passes over the unresolved resources, each accepting the resources whose
 * references are all accepted already, until none is left, a pass makes no progress, or
 * the pass counter reaches its cap.
 */
module SortOrder {
  import opened Wrappers
  import opened XmlModel

  // ---------------------------------------------------------------------------------
  // get_resptrs (xml_upload.py:319-333)
  // ---------------------------------------------------------------------------------

  /** The ids as plain values. */
  function PlainIds(ids: seq<string>): (cs: seq<Content>)
    ensures |cs| == |ids| && forall k :: 0 <= k < |ids| ==> cs[k] == Plain(ids[k])
  {
    seq(|ids|, k requires 0 <= k < |ids| => Plain(ids[k]))
  }

  /** What one value of a property of type `valtype` contributes: a pointer value itself,
      the referenced ids of a text value, nothing otherwise. */
  function ValueRefs(valtype: string, v: KnoraValue): seq<Content>
  {
    if valtype == "resptr" then [v.value]
    else if valtype == "text" && v.resrefs.Some? then PlainIds(v.resrefs.value)
    else []
  }

  /** What the values `vs` of a property of type `valtype` contribute, in order. */
  function ValuesRefs(valtype: string, vs: seq<KnoraValue>): seq<Content>
    decreases |vs|
  {
    if vs == [] then [] else ValuesRefs(valtype, vs[..|vs| - 1]) + ValueRefs(valtype, vs[|vs| - 1])
  }

  /** The references of a resource with properties `props`, in property then value order. */
  function Resptrs(props: seq<KnoraProperty>): seq<Content>
    decreases |props|
  {
    if props == [] then []
    else Resptrs(props[..|props| - 1]) + ValuesRefs(props[|props| - 1].valtype, props[|props| - 1].values)
  }

  /** One more value read. */
  lemma ValuesRefsSnoc(valtype: string, vs: seq<KnoraValue>, j: nat)
    requires j < |vs|
    ensures ValuesRefs(valtype, vs[..j + 1]) == ValuesRefs(valtype, vs[..j]) + ValueRefs(valtype, vs[j])
  {
    assert vs[..j + 1][..j] == vs[..j];
  }

  /** One more property read. */
  lemma ResptrsSnoc(props: seq<KnoraProperty>, i: nat)
    requires i < |props|
    ensures Resptrs(props[..i + 1]) == Resptrs(props[..i]) + ValuesRefs(props[i].valtype, props[i].values)
  {
    assert props[..i + 1][..i] == props[..i];
  }

  /** Regrouping a concatenation, the step the inner loop of `get_resptrs` needs. */
  lemma AppendAssoc(a: seq<Content>, b: seq<Content>, c: seq<Content>)
    ensures (a + b) + c == a + (b + c)
  {
  }

  /** `get_resptrs`. */
  method GetResptrs(r: KnoraResource) returns (resptrs: seq<Content>)
    ensures resptrs == Resptrs(r.properties)
  {
    var props := r.properties;
    resptrs := [];
    for i := 0 to |props|
      invariant resptrs == Resptrs(props[..i])
    {
      var p := props[i];
      ResptrsSnoc(props, i);
      ghost var before := resptrs;
      for j := 0 to |p.values|
        invariant resptrs == before + ValuesRefs(p.valtype, p.values[..j])
      {
        ValuesRefsSnoc(p.valtype, p.values, j);
        var v := p.values[j];
        var added: seq<Content> := [];
        if p.valtype == "resptr" {
          added := [v.value];
          assert added == ValueRefs(p.valtype, v);
        } else if p.valtype == "text" {
          if v.resrefs.Some? {
            added := PlainIds(v.resrefs.value);
          }
          assert added == ValueRefs(p.valtype, v);
        } else {
          assert added == ValueRefs(p.valtype, v);
        }
        AppendAssoc(before, ValuesRefs(p.valtype, p.values[..j]), added);
        resptrs := resptrs + added;
      }
      assert p.values[..|p.values|] == p.values;
    }
    assert props[..|props|] == props;
  }

  /** The references a value of a property of type `valtype` makes, stated directly. */
  predicate RefersTo(valtype: string, v: KnoraValue, x: Content)
  {
    (valtype == "resptr" && x == v.value) ||
    (valtype == "text" && v.resrefs.Some? && x.Plain? && x.text in v.resrefs.value)
  }

  lemma ValueRefsMembers(valtype: string, v: KnoraValue, x: Content)
    ensures x in ValueRefs(valtype, v) <==> RefersTo(valtype, v, x)
  {
    if valtype != "resptr" && valtype == "text" && v.resrefs.Some? {
      var ids := v.resrefs.value;
      if x in PlainIds(ids) {
        var t :| 0 <= t < |ids| && PlainIds(ids)[t] == x;
      }
      if x.Plain? && x.text in ids {
        var t :| 0 <= t < |ids| && ids[t] == x.text;
        assert PlainIds(ids)[t] == x;
      }
    }
  }

  /** What the values of a property contribute, value by value. */
  lemma {:induction false} ValuesRefsMembers(valtype: string, vs: seq<KnoraValue>, x: Content)
    ensures x in ValuesRefs(valtype, vs) <==> exists j :: 0 <= j < |vs| && RefersTo(valtype, vs[j], x)
    decreases |vs|
  {
    if vs != [] {
      var init := vs[..|vs| - 1];
      ValuesRefsMembers(valtype, init, x);
      ValueRefsMembers(valtype, vs[|vs| - 1], x);
      if x in ValuesRefs(valtype, init) {
        var j :| 0 <= j < |init| && RefersTo(valtype, init[j], x);
        assert vs[j] == init[j];
      }
      if exists j :: 0 <= j < |vs| && RefersTo(valtype, vs[j], x) {
        var j :| 0 <= j < |vs| && RefersTo(valtype, vs[j], x);
        if j < |init| { assert init[j] == vs[j]; }
      }
    }
  }

  /** Some value of the property refers to `x`. */
  predicate PropertyRefersTo(p: KnoraProperty, x: Content)
  {
    exists j :: 0 <= j < |p.values| && RefersTo(p.valtype, p.values[j], x)
  }

  /**
   * The references of a resource are exactly the pointer values of its `resptr`
   * properties and the referenced ids of the values of its `text` properties; no other
   * property contributes.
   */
  lemma {:induction false} ResptrsMembers(props: seq<KnoraProperty>, x: Content)
    ensures x in Resptrs(props) <==> exists k :: 0 <= k < |props| && PropertyRefersTo(props[k], x)
    decreases |props|
  {
    if props != [] {
      var init, last := props[..|props| - 1], props[|props| - 1];
      ResptrsMembers(init, x);
      ValuesRefsMembers(last.valtype, last.values, x);
      assert Resptrs(props) == Resptrs(init) + ValuesRefs(last.valtype, last.values);
      assert x in Resptrs(props) <==> x in Resptrs(init) || PropertyRefersTo(last, x);
      SomePropertySplit(props, init, x);
    }
  }

  /** Some property of `props` refers to `x` exactly when one before the last does or the last does. */
  lemma SomePropertySplit(props: seq<KnoraProperty>, init: seq<KnoraProperty>, x: Content)
    requires props != [] && init == props[..|props| - 1]
    ensures (exists k :: 0 <= k < |props| && PropertyRefersTo(props[k], x)) <==>
      (exists k :: 0 <= k < |init| && PropertyRefersTo(init[k], x)) || PropertyRefersTo(props[|props| - 1], x)
  {
    if exists k :: 0 <= k < |init| && PropertyRefersTo(init[k], x) {
      var k :| 0 <= k < |init| && PropertyRefersTo(init[k], x);
      assert props[k] == init[k];
    }
    if exists k :: 0 <= k < |props| && PropertyRefersTo(props[k], x) {
      var k :| 0 <= k < |props| && PropertyRefersTo(props[k], x);
      if k < |init| { assert init[k] == props[k]; }
    }
  }

  // ---------------------------------------------------------------------------------
  // do_sortorder (xml_upload.py:478-529)
  // ---------------------------------------------------------------------------------

  /** The ids of the resources, in order (`ok_resids` mirrors `ok_resources`). */
  function Ids(rs: seq<KnoraResource>): (ids: seq<string>)
    ensures |ids| == |rs| && forall k :: 0 <= k < |rs| ==> ids[k] == rs[k].id
  {
    seq(|rs|, k requires 0 <= k < |rs| => rs[k].id)
  }

  /** `resptr in ok_resids`: only a string can be among the accepted ids. */
  predicate Accepted(x: Content, okIds: seq<string>)
  {
    x.Plain? && x.text in okIds
  }

  /** A resource all of whose references are accepted ids. */
  predicate Ready(r: KnoraResource, okIds: seq<string>)
  {
    var refs := Resptrs(r.properties);
    forall t :: 0 <= t < |refs| ==> Accepted(refs[t], okIds)
  }

  /** Every resource of the sequence comes after all the resources it refers to. */
  predicate DepOrdered(rs: seq<KnoraResource>)
  {
    forall k :: 0 <= k < |rs| ==> Ready(rs[k], Ids(rs[..k]))
  }

  /** The accepted and the unresolved resources after a pass. */
  datatype PassResult = PassResult(ok: seq<KnoraResource>, notok: seq<KnoraResource>)

  /** One ordering pass over `rs`, starting from the accepted resources `ok0`; a resource
      may be accepted thanks to one accepted earlier in the same pass. */
  function Pass(rs: seq<KnoraResource>, ok0: seq<KnoraResource>): PassResult
    decreases |rs|
  {
    if rs == [] then PassResult(ok0, [])
    else
      var p := Pass(rs[..|rs| - 1], ok0);
      var r := rs[|rs| - 1];
      if Ready(r, Ids(p.ok)) then PassResult(p.ok + [r], p.notok) else PassResult(p.ok, p.notok + [r])
  }

  /** A stuck resource as the error report names it: its id and all its references. */
  datatype Stuck = Stuck(id: string, resptrs: seq<Content>)

  /** `exit(5)` after a pass without progress. */
  datatype SortError = Stalled(stuck: seq<Stuck>)

  function Report(notok: seq<KnoraResource>): (stuck: seq<Stuck>)
    ensures |stuck| == |notok|
    ensures forall k :: 0 <= k < |notok| ==> stuck[k] == Stuck(notok[k].id, Resptrs(notok[k].properties))
  {
    seq(|notok|, k requires 0 <= k < |notok| => Stuck(notok[k].id, Resptrs(notok[k].properties)))
  }

  /** The cap on the number of passes. */
  const MaxPasses := 10000

  /** The initial `notok_len`. */
  const InitialNotokLen := 9999999

  /**
   * The passes from the unresolved resources `remaining`, the accepted `ok`, the previous
   * unresolved count `notokLen` and the pass counter `cnt`: stop when nothing is left or
   * the cap is reached, fail when a pass does not make the unresolved count smaller.
   */
  function SortFrom(remaining: seq<KnoraResource>, ok: seq<KnoraResource>, notokLen: int, cnt: nat)
    : Result<seq<KnoraResource>, SortError>
    decreases MaxPasses - cnt
  {
    if |remaining| == 0 || cnt >= MaxPasses then Ok(ok)
    else
      var p := Pass(remaining, ok);
      if !(|p.notok| < notokLen) then Err(Stalled(Report(p.notok)))
      else SortFrom(p.notok, p.ok, |p.notok|, cnt + 1)
  }

  /** `do_sortorder(resources)`. */
  function SortOrderSpec(resources: seq<KnoraResource>): Result<seq<KnoraResource>, SortError>
  {
    SortFrom(resources, [], InitialNotokLen, 0)
  }

  /** `resptr in ok_resids` for every reference. */
  method AllAccepted(resptrs: seq<Content>, okIds: seq<string>) returns (ok: bool)
    ensures ok <==> forall t :: 0 <= t < |resptrs| ==> Accepted(resptrs[t], okIds)
  {
    ok := true;
    for t := 0 to |resptrs|
      invariant ok <==> forall u :: 0 <= u < t ==> Accepted(resptrs[u], okIds)
    {
      if !(resptrs[t].Plain? && resptrs[t].text in okIds) {
        ok := false;
      }
    }
  }

  /** One pass of `do_sortorder` over the unresolved resources, appending to the
      accepted ones and their ids. */
  method SortPass(remaining: seq<KnoraResource>, ok0: seq<KnoraResource>, ids0: seq<string>)
    returns (okResources: seq<KnoraResource>, okResids: seq<string>, notokResources: seq<KnoraResource>)
    requires ids0 == Ids(ok0)
    ensures PassResult(okResources, notokResources) == Pass(remaining, ok0)
    ensures okResids == Ids(okResources)
  {
    okResources, okResids, notokResources := ok0, ids0, [];
    for j := 0 to |remaining|
      invariant Pass(remaining[..j], ok0) == PassResult(okResources, notokResources)
      invariant okResids == Ids(okResources)
    {
      var resource := remaining[j];
      assert remaining[..j + 1][..j] == remaining[..j];
      var resptrs := GetResptrs(resource);
      var ok := AllAccepted(resptrs, okResids);
      if ok {
        okResources := okResources + [resource];
        okResids := okResids + [resource.id];
      } else {
        notokResources := notokResources + [resource];
      }
    }
    assert remaining[..|remaining|] == remaining;
  }

  /** `do_sortorder`. */
  method DoSortOrder(resources: seq<KnoraResource>) returns (r: Result<seq<KnoraResource>, SortError>)
    ensures r == SortOrderSpec(resources)
  {
    var remaining := resources;
    var okResources: seq<KnoraResource> := [];
    var okResids: seq<string> := [];
    var cnt := 0;
    var notokLen := InitialNotokLen;
    while |remaining| > 0 && cnt < MaxPasses
      invariant SortOrderSpec(resources) == SortFrom(remaining, okResources, notokLen, cnt)
      invariant okResids == Ids(okResources)
      decreases MaxPasses - cnt
    {
      var notokResources;
      okResources, okResids, notokResources := SortPass(remaining, okResources, okResids);
      if !(|notokResources| < notokLen) {
        return Err(Stalled(Report(notokResources)));
      }
      remaining := notokResources;
      notokLen := |notokResources|;
      cnt := cnt + 1;
    }
    return Ok(okResources);
  }

  // ---------------------------------------------------------------------------------
  // What a pass and the passes keep
  // ---------------------------------------------------------------------------------

  /** Appending a resource that is ready keeps the order. */
  lemma AppendReady(ok: seq<KnoraResource>, r: KnoraResource)
    requires DepOrdered(ok) && Ready(r, Ids(ok))
    ensures DepOrdered(ok + [r])
  {
    var s := ok + [r];
    forall k | 0 <= k < |s| ensures Ready(s[k], Ids(s[..k])) {
      assert s[..k] == ok[..k] || k == |ok|;
      if k == |ok| { assert s[..k] == ok; }
    }
  }

  /** Moving one more resource to either side keeps the count of every resource. */
  lemma MultisetSnoc(ok: seq<KnoraResource>, notok: seq<KnoraResource>, ok0: seq<KnoraResource>, init: seq<KnoraResource>, r: KnoraResource)
    requires multiset(ok) + multiset(notok) == multiset(ok0) + multiset(init)
    ensures multiset(ok + [r]) + multiset(notok) == multiset(ok0) + multiset(init + [r])
    ensures multiset(ok) + multiset(notok + [r]) == multiset(ok0) + multiset(init + [r])
  {
    assert multiset(init + [r]) == multiset(init) + multiset{r};
    assert multiset(ok + [r]) == multiset(ok) + multiset{r};
    assert multiset(notok + [r]) == multiset(notok) + multiset{r};
    assert multiset(ok) + multiset{r} + multiset(notok) == multiset(ok) + multiset(notok) + multiset{r};
  }

  /** A pass leaves no more unresolved resources than it started with, all of them from
      the pass's input. */
  lemma {:induction false} PassShrinks(rs: seq<KnoraResource>, ok0: seq<KnoraResource>)
    ensures |Pass(rs, ok0).notok| <= |rs|
    ensures forall r :: r in Pass(rs, ok0).notok ==> r in rs
    decreases |rs|
  {
    if rs != [] {
      PassShrinks(rs[..|rs| - 1], ok0);
    }
  }

  /** A pass keeps every resource, accepted or not. */
  lemma {:induction false} PassKeeps(rs: seq<KnoraResource>, ok0: seq<KnoraResource>)
    ensures multiset(Pass(rs, ok0).ok) + multiset(Pass(rs, ok0).notok) == multiset(ok0) + multiset(rs)
    decreases |rs|
  {
    if rs != [] {
      var init, r := rs[..|rs| - 1], rs[|rs| - 1];
      PassKeeps(init, ok0);
      var p := Pass(init, ok0);
      assert rs == init + [r];
      MultisetSnoc(p.ok, p.notok, ok0, init, r);
    }
  }

  /** A pass keeps the accepted resources ordered. */
  lemma {:induction false} PassOrdered(rs: seq<KnoraResource>, ok0: seq<KnoraResource>)
    requires DepOrdered(ok0)
    ensures DepOrdered(Pass(rs, ok0).ok)
    decreases |rs|
  {
    if rs != [] {
      var init, r := rs[..|rs| - 1], rs[|rs| - 1];
      PassOrdered(init, ok0);
      var p := Pass(init, ok0);
      if Ready(r, Ids(p.ok)) {
        AppendReady(p.ok, r);
      }
    }
  }

  /** Whatever the passes return is ordered when the accepted resources were. */
  lemma {:induction false} SortFromOrdered(remaining: seq<KnoraResource>, ok: seq<KnoraResource>, notokLen: int, cnt: nat)
    requires DepOrdered(ok)
    ensures SortFrom(remaining, ok, notokLen, cnt).Ok? ==> DepOrdered(SortFrom(remaining, ok, notokLen, cnt).value)
    decreases MaxPasses - cnt
  {
    if |remaining| > 0 && cnt < MaxPasses {
      var p := Pass(remaining, ok);
      PassOrdered(remaining, ok);
      if |p.notok| < notokLen {
        SortFromOrdered(p.notok, p.ok, |p.notok|, cnt + 1);
      }
    }
  }

  /** Whatever `do_sortorder` returns, for any number of resources, lists every resource
      after all the resources it refers to. */
  lemma SortOrderOrdered(resources: seq<KnoraResource>)
    ensures SortOrderSpec(resources).Ok? ==> DepOrdered(SortOrderSpec(resources).value)
  {
    SortFromOrdered(resources, [], InitialNotokLen, 0);
  }

  /** How far the unresolved count can be from the input size after `cnt` passes. */
  predicate Progress(remaining: seq<KnoraResource>, notokLen: int, cnt: nat, n: nat)
  {
    (cnt == 0 ==> |remaining| <= n) &&
    (cnt > 0 ==> |remaining| == notokLen && |remaining| + cnt <= n + 1)
  }

  /**
   * With fewer resources than the pass cap, a successful ordering is a permutation of the
   * input in which every resource comes after every resource it refers to.
   */
  lemma SortOrderCorrect(resources: seq<KnoraResource>)
    requires |resources| < MaxPasses
    ensures SortOrderSpec(resources).Ok? ==>
      multiset(SortOrderSpec(resources).value) == multiset(resources) && DepOrdered(SortOrderSpec(resources).value)
  {
    SortOrderCapUnreached(resources);
    SortOrderAllCorrect(resources);
  }

  /** An element of a permutation comes from the input. */
  lemma FromInput(out: seq<KnoraResource>, resources: seq<KnoraResource>, k: nat)
    requires multiset(out) == multiset(resources) && k < |out|
    ensures out[k] in resources
  {
    assert out[k] in multiset(out);
  }

  /** A reference of an accepted resource names a resource accepted before it. */
  lemma ReferenceEarlier(out: seq<KnoraResource>, k: nat, x: Content)
    requires DepOrdered(out) && k < |out| && x in Resptrs(out[k].properties)
    ensures x.Plain? && exists j :: 0 <= j < k && out[j].id == x.text
  {
    var refs := Resptrs(out[k].properties);
    var t :| 0 <= t < |refs| && refs[t] == x;
    assert Accepted(refs[t], Ids(out[..k]));
    var j :| 0 <= j < k && Ids(out[..k])[j] == x.text;
    assert out[..k][j] == out[j];
  }

  /** With fewer resources than the cap, a reference to an id that no resource has makes
      the ordering fail. */
  lemma AbsentReferenceFails(resources: seq<KnoraResource>, r: KnoraResource, x: Content)
    requires |resources| < MaxPasses && r in resources && x in Resptrs(r.properties)
    requires forall s :: s in resources ==> Plain(s.id) != x
    ensures SortOrderSpec(resources).Err?
  {
    if SortOrderSpec(resources).Ok? {
      var out := SortOrderSpec(resources).value;
      SortOrderCorrect(resources);
      assert r in multiset(out);
      var k :| 0 <= k < |out| && out[k] == r;
      ReferenceEarlier(out, k, x);
      var j :| 0 <= j < k && out[j].id == x.text;
      FromInput(out, resources, j);
      assert false;
    }
  }

  /** With fewer resources than the cap and ids that identify resources, a resource that
      refers to itself makes the ordering fail. */
  lemma SelfReferenceFails(resources: seq<KnoraResource>, r: KnoraResource)
    requires |resources| < MaxPasses && r in resources && Plain(r.id) in Resptrs(r.properties)
    requires forall a, b :: a in resources && b in resources && a.id == b.id ==> a == b
    ensures SortOrderSpec(resources).Err?
  {
    if SortOrderSpec(resources).Ok? {
      var out := SortOrderSpec(resources).value;
      SortOrderCorrect(resources);
      assert r in multiset(out);
      var k := FirstIndex(out, r);
      ReferenceEarlier(out, k, Plain(r.id));
      var j :| 0 <= j < k && out[j].id == r.id;
      FromInput(out, resources, j);
      assert false;
    }
  }

  /** The first position of `r`. */
  function FirstIndex(s: seq<KnoraResource>, r: KnoraResource): (k: nat)
    requires r in s
    ensures k < |s| && s[k] == r && forall j :: 0 <= j < k ==> s[j] != r
  {
    if s[0] == r then 0 else 1 + FirstIndex(s[1..], r)
  }

  /** A report of resources of the input names only resources of the input. */
  lemma ReportFromInput(notok: seq<KnoraResource>, resources: seq<KnoraResource>)
    requires forall r :: r in notok ==> r in resources
    ensures |Report(notok)| == |notok|
    ensures forall s :: s in Report(notok) ==> s in Report(resources)
  {
    forall s | s in Report(notok) ensures s in Report(resources) {
      var k :| 0 <= k < |notok| && Report(notok)[k] == s;
      assert notok[k] in notok;
      var j :| 0 <= j < |resources| && resources[j] == notok[k];
      assert Report(resources)[j] == s;
    }
  }

  /** The report names only resources of the input, and at least one. */
  lemma {:induction false} StalledReport(remaining: seq<KnoraResource>, ok: seq<KnoraResource>, notokLen: int, cnt: nat, resources: seq<KnoraResource>)
    requires notokLen == InitialNotokLen || notokLen == |remaining|
    requires forall r :: r in remaining ==> r in resources
    ensures SortFrom(remaining, ok, notokLen, cnt).Err? ==>
      var stuck := SortFrom(remaining, ok, notokLen, cnt).error.stuck;
      |stuck| > 0 && forall s :: s in stuck ==> s in Report(resources)
    decreases MaxPasses - cnt
  {
    if |remaining| > 0 && cnt < MaxPasses {
      var p := Pass(remaining, ok);
      PassShrinks(remaining, ok);
      if |p.notok| < notokLen {
        assert SortFrom(remaining, ok, notokLen, cnt) == SortFrom(p.notok, p.ok, |p.notok|, cnt + 1);
        StalledReport(p.notok, p.ok, |p.notok|, cnt + 1, resources);
      } else {
        assert SortFrom(remaining, ok, notokLen, cnt) == Err(Stalled(Report(p.notok)));
        ReportFromInput(p.notok, resources);
      }
    }
  }

  /**
   * When the ordering fails, it reports at least one resource, each of the input with its
   * id and all its references; the report lists exactly the resources left unresolved by
   * the last pass, which with the accepted ones, in dependency order, make up the input;
   * and below the initial unresolved count none of the listed resources was ready.
   */
  lemma SortOrderReport(resources: seq<KnoraResource>)
    ensures SortOrderSpec(resources).Err? ==>
      var stuck := SortOrderSpec(resources).error.stuck;
      |stuck| > 0 && (forall s :: s in stuck ==> s in Report(resources)) &&
      exists accepted, notok :: StallSplit(resources, accepted, notok) && stuck == Report(notok) &&
        (|resources| <= InitialNotokLen ==> NoneReady(accepted, notok))
  {
    StalledReport(resources, [], InitialNotokLen, 0, resources);
    StallAccounted(resources, [], InitialNotokLen, 0, resources);
  }

  /** How a stalled ordering accounts for its input: the resources accepted so far, in
      dependency order, and at least one unresolved resource, together the whole input. */
  predicate StallSplit(input: seq<KnoraResource>, accepted: seq<KnoraResource>, notok: seq<KnoraResource>)
  {
    multiset(accepted) + multiset(notok) == multiset(input) && DepOrdered(accepted) && |notok| > 0
  }

  /** None of the unresolved resources is ready for the accepted ones. */
  predicate NoneReady(accepted: seq<KnoraResource>, notok: seq<KnoraResource>)
  {
    forall k :: 0 <= k < |notok| ==> !Ready(notok[k], Ids(accepted))
  }

  /** A pass that leaves every resource unresolved accepts nothing: none was ready. */
  lemma {:induction false} PassNoProgress(rs: seq<KnoraResource>, ok0: seq<KnoraResource>)
    requires |Pass(rs, ok0).notok| >= |rs|
    ensures Pass(rs, ok0) == PassResult(ok0, rs) && NoneReady(ok0, rs)
    decreases |rs|
  {
    if rs != [] {
      var init, r := rs[..|rs| - 1], rs[|rs| - 1];
      var p := Pass(init, ok0);
      PassShrinks(init, ok0);
      assert !Ready(r, Ids(p.ok)) && Pass(rs, ok0) == PassResult(p.ok, p.notok + [r]);
      PassNoProgress(init, ok0);
      assert rs == init + [r];
      forall k | 0 <= k < |rs| ensures !Ready(rs[k], Ids(ok0)) {
        if k < |init| {
          assert rs[k] == init[k];
        }
      }
    }
  }

  /**
   * When the passes stall, the report lists exactly the resources of the last pass that
   * were left unresolved, which with the accepted ones make up the input; if the stall
   * came from a pass without progress, none of the listed resources was ready.
   */
  lemma {:induction false} StallAccounted(
    remaining: seq<KnoraResource>, ok: seq<KnoraResource>, notokLen: int, cnt: nat, input: seq<KnoraResource>)
    requires notokLen == InitialNotokLen || notokLen == |remaining|
    requires DepOrdered(ok) && multiset(ok) + multiset(remaining) == multiset(input)
    ensures SortFrom(remaining, ok, notokLen, cnt).Err? ==>
      exists accepted, notok :: StallSplit(input, accepted, notok) &&
        SortFrom(remaining, ok, notokLen, cnt).error.stuck == Report(notok) &&
        (|remaining| <= notokLen ==> NoneReady(accepted, notok))
    decreases MaxPasses - cnt
  {
    if |remaining| > 0 && cnt < MaxPasses {
      var p := Pass(remaining, ok);
      PassKeeps(remaining, ok);
      PassOrdered(remaining, ok);
      if |p.notok| < notokLen {
        StallAccounted(p.notok, p.ok, |p.notok|, cnt + 1, input);
      } else {
        if |remaining| <= notokLen {
          PassNoProgress(remaining, ok);
        }
        assert StallSplit(input, p.ok, p.notok);
      }
    }
  }

  /** Ids that identify the resources. */
  predicate UniqueIds(resources: seq<KnoraResource>)
  {
    forall a, b :: a in resources && b in resources && a.id == b.id ==> a == b
  }

  /** A resource of the input that the stall left unaccepted is in the report, with its id
      and all its references. */
  lemma UnacceptedReported(input: seq<KnoraResource>, accepted: seq<KnoraResource>, notok: seq<KnoraResource>, r: KnoraResource)
    requires StallSplit(input, accepted, notok) && r in input && r !in accepted
    ensures Stuck(r.id, Resptrs(r.properties)) in Report(notok)
  {
    assert r in multiset(input);
    assert r !in multiset(accepted);
    assert r in multiset(notok);
    var k :| 0 <= k < |notok| && notok[k] == r;
    assert Report(notok)[k] == Stuck(r.id, Resptrs(r.properties));
  }

  /** In a dependency order drawn from resources with identifying ids, neither of two
      resources that refer to each other ever appears. */
  lemma {:induction false} CycleNeverAccepted(out: seq<KnoraResource>, resources: seq<KnoraResource>, a: KnoraResource, b: KnoraResource, k: nat)
    requires DepOrdered(out) && k < |out| && forall j :: 0 <= j < |out| ==> out[j] in resources
    requires UniqueIds(resources) && a in resources && b in resources
    requires Plain(b.id) in Resptrs(a.properties) && Plain(a.id) in Resptrs(b.properties)
    ensures out[k] != a && out[k] != b
    decreases k
  {
    if out[k] == a || out[k] == b {
      var other := if out[k] == a then b else a;
      ReferenceEarlier(out, k, Plain(other.id));
      var j :| 0 <= j < k && out[j].id == other.id;
      CycleNeverAccepted(out, resources, a, b, j);
    }
  }

  /** Every element of a sequence whose multiset lies within the input's is of the input. */
  lemma WithinInput(out: seq<KnoraResource>, rest: seq<KnoraResource>, resources: seq<KnoraResource>)
    requires multiset(out) + multiset(rest) == multiset(resources)
    ensures forall j :: 0 <= j < |out| ==> out[j] in resources
  {
    forall j | 0 <= j < |out| ensures out[j] in resources {
      assert out[j] in multiset(out);
      assert out[j] in multiset(resources);
    }
  }

  /**
   * Two resources that refer to each other, with fewer resources than the pass cap and ids
   * that identify resources: the ordering fails, and its report names both, each with
   * all its references.
   */
  lemma TwoCycleReported(resources: seq<KnoraResource>, a: KnoraResource, b: KnoraResource)
    requires |resources| < MaxPasses && UniqueIds(resources) && a in resources && b in resources
    requires Plain(b.id) in Resptrs(a.properties) && Plain(a.id) in Resptrs(b.properties)
    ensures SortOrderSpec(resources).Err?
    ensures SortOrderSpec(resources).Err? ==>
      Stuck(a.id, Resptrs(a.properties)) in SortOrderSpec(resources).error.stuck &&
      Stuck(b.id, Resptrs(b.properties)) in SortOrderSpec(resources).error.stuck
  {
    if SortOrderSpec(resources).Ok? {
      var out := SortOrderSpec(resources).value;
      SortOrderCorrect(resources);
      WithinInput(out, [], resources);
      assert a in multiset(out);
      var k := FirstIndex(out, a);
      CycleNeverAccepted(out, resources, a, b, k);
      assert false;
    } else {
      SortOrderReport(resources);
      var accepted, notok :| StallSplit(resources, accepted, notok) &&
        SortOrderSpec(resources).error.stuck == Report(notok) &&
        (|resources| <= InitialNotokLen ==> NoneReady(accepted, notok));
      WithinInput(accepted, notok, resources);
      forall x | x == a || x == b ensures x !in accepted {
        if x in accepted {
          var k :| 0 <= k < |accepted| && accepted[k] == x;
          CycleNeverAccepted(accepted, resources, a, b, k);
        }
      }
      UnacceptedReported(resources, accepted, notok, a);
      UnacceptedReported(resources, accepted, notok, b);
    }
  }

  // ---------------------------------------------------------------------------------
  // The pass cap
  // ---------------------------------------------------------------------------------

  /** The passes without the cap on their number: they end because every pass that
      does not fail leaves fewer resources unresolved. */
  function SortFromAll(remaining: seq<KnoraResource>, ok: seq<KnoraResource>, notokLen: int)
    : Result<seq<KnoraResource>, SortError>
    decreases notokLen
  {
    if |remaining| == 0 then Ok(ok)
    else
      var p := Pass(remaining, ok);
      if !(|p.notok| < notokLen) then Err(Stalled(Report(p.notok)))
      else SortFromAll(p.notok, p.ok, |p.notok|)
  }

  /** The ordering without the cap on the number of passes. */
  function SortOrderAll(resources: seq<KnoraResource>): Result<seq<KnoraResource>, SortError>
  {
    SortFromAll(resources, [], InitialNotokLen)
  }

  lemma {:induction false} SortFromAllCorrect(remaining: seq<KnoraResource>, ok: seq<KnoraResource>, notokLen: int)
    requires DepOrdered(ok)
    ensures SortFromAll(remaining, ok, notokLen).Ok? ==>
      multiset(SortFromAll(remaining, ok, notokLen).value) == multiset(ok) + multiset(remaining) &&
      DepOrdered(SortFromAll(remaining, ok, notokLen).value)
    decreases notokLen
  {
    if |remaining| > 0 {
      var p := Pass(remaining, ok);
      PassKeeps(remaining, ok);
      PassOrdered(remaining, ok);
      if |p.notok| < notokLen {
        SortFromAllCorrect(p.notok, p.ok, |p.notok|);
      }
    }
  }

  /** Without the cap, a successful ordering is a permutation of the input, of any size,
      in which every resource comes after every resource it refers to. */
  lemma SortOrderAllCorrect(resources: seq<KnoraResource>)
    ensures SortOrderAll(resources).Ok? ==>
      multiset(SortOrderAll(resources).value) == multiset(resources) && DepOrdered(SortOrderAll(resources).value)
  {
    SortFromAllCorrect(resources, [], InitialNotokLen);
  }

  /** One pass that makes progress, as both orderings take it. */
  lemma SortStep(remaining: seq<KnoraResource>, ok: seq<KnoraResource>, notokLen: int, cnt: nat)
    requires |remaining| > 0 && cnt < MaxPasses && |Pass(remaining, ok).notok| < notokLen
    ensures SortFrom(remaining, ok, notokLen, cnt) ==
      SortFrom(Pass(remaining, ok).notok, Pass(remaining, ok).ok, |Pass(remaining, ok).notok|, cnt + 1)
    ensures SortFromAll(remaining, ok, notokLen) ==
      SortFromAll(Pass(remaining, ok).notok, Pass(remaining, ok).ok, |Pass(remaining, ok).notok|)
  {
  }

  lemma {:induction false} CapUnreached(remaining: seq<KnoraResource>, ok: seq<KnoraResource>, notokLen: int, cnt: nat, n: nat)
    requires n < MaxPasses && Progress(remaining, notokLen, cnt, n)
    ensures SortFrom(remaining, ok, notokLen, cnt) == SortFromAll(remaining, ok, notokLen)
    decreases MaxPasses - cnt
  {
    if |remaining| > 0 && cnt < MaxPasses {
      var p := Pass(remaining, ok);
      PassShrinks(remaining, ok);
      if |p.notok| < notokLen {
        SortStep(remaining, ok, notokLen, cnt);
        CapUnreached(p.notok, p.ok, |p.notok|, cnt + 1, n);
      }
    }
  }

  /** With fewer resources than the cap, the capped and the uncapped orderings agree. */
  lemma SortOrderCapUnreached(resources: seq<KnoraResource>)
    requires |resources| < MaxPasses
    ensures SortOrderSpec(resources) == SortOrderAll(resources)
  {
    CapUnreached(resources, [], InitialNotokLen, 0, |resources|);
  }

  /** A distinct id per position of a chain. */
  function ChainId(k: nat): (id: string)
    ensures |id| == k + 1
  {
    seq(k + 1, _ => 'r')
  }

  /** Resource `k` of a chain of `n + 1` resources points to resource `k + 1`; the last
      one points nowhere. */
  function ChainResource(k: nat, n: nat): KnoraResource
  {
    KnoraResource(ChainId(k), "", "", "", None,
      if k < n then [KnoraProperty("p", "resptr", [KnoraValue(Plain(ChainId(k + 1)), None, None, None)])] else [])
  }

  /** The first `m` resources of the chain, in chain order. */
  function Chain(m: nat, n: nat): (rs: seq<KnoraResource>)
    ensures |rs| == m && forall k :: 0 <= k < m ==> rs[k] == ChainResource(k, n)
  {
    seq(m, k requires 0 <= k < m => ChainResource(k, n))
  }

  /** The last `c` resources of the chain, from the end backwards. */
  function Done(n: nat, c: nat): (rs: seq<KnoraResource>)
    requires c <= n + 1
    ensures |rs| == c && forall t :: 0 <= t < c ==> rs[t] == ChainResource(n - t, n)
  {
    seq(c, t requires 0 <= t < c => ChainResource(n - t, n))
  }

  lemma ChainRefs(k: nat, n: nat)
    ensures Resptrs(ChainResource(k, n).properties) == if k < n then [Plain(ChainId(k + 1))] else []
  {
    if k < n {
      var props := ChainResource(k, n).properties;
      assert props[..0] == [];
      var vs := props[0].values;
      assert vs[..0] == [];
      assert ValuesRefs("resptr", vs) == [Plain(ChainId(k + 1))];
    }
  }

  /** The accepted ids are those of the last `c` resources of the chain. */
  lemma ChainAccepted(k: nat, n: nat, c: nat)
    requires k < n && c <= n + 1
    ensures ChainId(k + 1) in Ids(Done(n, c)) <==> k + c >= n
  {
    var ids := Ids(Done(n, c));
    if k + c >= n {
      assert ids[n - k - 1] == ChainId(k + 1);
    }
    if ChainId(k + 1) in ids {
      var t :| 0 <= t < c && ids[t] == ChainId(k + 1);
      assert |ChainId(n - t)| == |ChainId(k + 1)|;
    }
  }

  /** Once the last `c` resources are accepted, resource `k` is ready exactly when it is
      the next one back. */
  lemma ChainReady(k: nat, n: nat, c: nat)
    requires k <= n && c <= n + 1
    ensures Ready(ChainResource(k, n), Ids(Done(n, c))) <==> k == n || k + c >= n
  {
    ChainRefs(k, n);
    if k < n {
      ChainAccepted(k, n, c);
      var refs := Resptrs(ChainResource(k, n).properties);
      assert |refs| == 1 && refs[0] == Plain(ChainId(k + 1));
      if Ready(ChainResource(k, n), Ids(Done(n, c))) {
        assert Accepted(refs[0], Ids(Done(n, c)));
      }
    }
  }

  /** Dropping the last resource of a chain prefix leaves the shorter prefix. */
  lemma ChainPrefix(m: nat, n: nat)
    requires m > 0
    ensures Chain(m, n)[..m - 1] == Chain(m - 1, n) && Chain(m, n)[m - 1] == ChainResource(m - 1, n)
  {
  }

  /** Accepting the next resource back extends the accepted suffix by one. */
  lemma DoneSnoc(n: nat, c: nat)
    requires c <= n
    ensures Done(n, c) + [ChainResource(n - c, n)] == Done(n, c + 1)
  {
  }

  /** A pass over the first `n + 1 - c` resources accepts exactly the last of them. */
  lemma {:induction false} ChainPassPrefix(j: nat, n: nat, c: nat)
    requires c <= n && j <= n - c
    ensures Pass(Chain(j, n), Done(n, c)) == PassResult(Done(n, c), Chain(j, n))
  {
    if j > 0 {
      ChainPrefix(j, n);
      ChainPassPrefix(j - 1, n, c);
      ChainReady(j - 1, n, c);
      assert Chain(j - 1, n) + [ChainResource(j - 1, n)] == Chain(j, n);
    }
  }

  lemma ChainPass(n: nat, c: nat)
    requires c <= n
    ensures Pass(Chain(n + 1 - c, n), Done(n, c)) == PassResult(Done(n, c + 1), Chain(n - c, n))
  {
    var m := n + 1 - c;
    ChainPrefix(m, n);
    ChainPassPrefix(m - 1, n, c);
    ChainReady(m - 1, n, c);
    DoneSnoc(n, c);
  }

  lemma {:induction false} ChainCapped(c: nat)
    requires 1 <= c <= MaxPasses
    ensures SortFrom(Chain(MaxPasses + 1 - c, MaxPasses), Done(MaxPasses, c), MaxPasses + 1 - c, c) ==
      Ok(Done(MaxPasses, MaxPasses))
    decreases MaxPasses - c
  {
    if c < MaxPasses {
      ChainPass(MaxPasses, c);
      ChainCapped(c + 1);
    }
  }

  /** Without the cap, each pass over the chain accepts its last resource and moves on. */
  lemma ChainSortStep(n: nat, c: nat)
    requires c <= n
    ensures SortFromAll(Chain(n + 1 - c, n), Done(n, c), n + 1 - c) ==
      SortFromAll(Chain(n + 1 - (c + 1), n), Done(n, c + 1), n + 1 - (c + 1))
  {
    ChainPass(n, c);
  }

  lemma {:induction false} ChainUncapped(n: nat, c: nat)
    requires 1 <= c <= n + 1
    ensures SortFromAll(Chain(n + 1 - c, n), Done(n, c), n + 1 - c) == Ok(Done(n, n + 1))
    decreases n + 1 - c
  {
    if c <= n {
      ChainSortStep(n, c);
      ChainUncapped(n, c + 1);
    } else {
      assert Chain(n + 1 - c, n) == [];
    }
  }

  /**
   * A chain of one more resource than the cap, listed so that each pass accepts one
   * resource: the capped ordering stops after its last pass and returns all but the first
   * resource, which is silently left out; the uncapped ordering returns all of them.
   */
  lemma CapDropsResource()
    ensures var input := Chain(MaxPasses + 1, MaxPasses);
      SortOrderSpec(input).Ok? && |SortOrderSpec(input).value| == |input| - 1 &&
      input[0] !in SortOrderSpec(input).value &&
      SortOrderAll(input).Ok? && multiset(SortOrderAll(input).value) == multiset(input)
  {
    var n := MaxPasses;
    var input := Chain(n + 1, n);
    assert Done(n, 0) == [];
    ChainPass(n, 0);
    ChainCapped(1);
    assert SortOrderSpec(input) == Ok(Done(n, n));
    ChainUncapped(n, 1);
    SortOrderAllCorrect(input);
  }
}

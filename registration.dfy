/**
 * Turning the fetched `/meta_knowledge_graph` responses into provider
 * records (`Registry.register_endpoints`, after the concurrent fetches).
 *
 * A first pass keeps the endpoints whose fetch succeeded with a status
 * below 300 and a JSON body; a second pass builds one record per kept
 * endpoint, keyed by the endpoint's title, dropping only the endpoints
 * whose manifest cannot be read into a record.
 */
module Registration {
  import opened Json
  import Discovery

  /** The body of an HTTP response: decodable as JSON or not. */
  datatype Body = Parsed(json: Json) | NotJson

  /** What one manifest fetch produced: an exception (timeout, transport error) or a response. */
  datatype Fetch = Raised | Response(status: int, body: Body)

  /** One supported operation, taken from a manifest edge. */
  datatype Operation = Operation(subjectCategory: Json, edgePredicate: Json, objectCategory: Json)  // subject_category, predicate, object_category

  /** The record registered for one endpoint. */
  datatype KpRecord = KpRecord(
    url: string,
    infores: Json,
    maturity: Json,
    operations: seq<Operation>,
    preferredPrefixes: seq<(string, Json)>)  // details.preferred_prefixes, in node order

  const QuerySuffix: string := "/query"

  /** The manifest a fetch yields, if any (kp_registry/main.py:58-98); schema validation never rejects. */
  function Manifest(f: Fetch): (r: Option<Json>)
    ensures r.Some? <==> f.Response? && f.status < 300 && f.body.Parsed?
    ensures r.Some? ==> r.value == f.body.json
  {
    match f
    case Raised => None
    case Response(status, body) =>
      if status >= 300 then None
      else match body
        case NotJson => None
        case Parsed(j) => Some(j)
  }

  /**
   * A list comprehension whose element expression may raise: `f` applied to
   * every element of `xs`, in order, or None when any application raises.
   */
  function AllOf<T, U>(xs: seq<T>, f: T -> Option<U>): Option<seq<U>>
    decreases |xs|
  {
    if xs == [] then Some([])
    else
      var n := |xs| - 1;
      var init := AllOf(xs[..n], f);
      var last := f(xs[n]);
      if init.Some? && last.Some? then Some(init.value + [last.value]) else None
  }

  /**
   * The comprehension succeeds exactly when no element raises, and then
   * holds one value per element, in element order.
   */
  lemma {:induction false} AllOfSpec<T, U>(xs: seq<T>, f: T -> Option<U>)
    ensures AllOf(xs, f).Some? <==> forall k :: 0 <= k < |xs| ==> f(xs[k]).Some?
    ensures AllOf(xs, f).Some? ==> |AllOf(xs, f).value| == |xs|
    ensures AllOf(xs, f).Some? ==> forall k :: 0 <= k < |xs| ==> Some(AllOf(xs, f).value[k]) == f(xs[k])
    decreases |xs|
  {
    if xs != [] {
      var n := |xs| - 1;
      var front := xs[..n];
      AllOfSpec(front, f);
      assert forall k :: 0 <= k < n ==> front[k] == xs[k];
      var init := AllOf(front, f);
      if init.None? {
        var k :| 0 <= k < n && f(front[k]).None?;
        assert f(xs[k]).None?;
      }
    }
  }

  /** One edge as an operation, when it is a dictionary with `subject`, `predicate` and `object`. */
  function EdgeOperation(edge: Json): Option<Operation>
  {
    var s, p, o := Get(edge, "subject"), Get(edge, "predicate"), Get(edge, "object");
    if s.Found? && p.Found? && o.Found? then Some(Operation(s.value, p.value, o.value)) else None
  }

  /** One node category with its `id_prefixes`, when the node has them. */
  function NodePrefixes(node: (string, Json)): Option<(string, Json)>
  {
    var p := Get(node.1, "id_prefixes");
    if p.Found? then Some((node.0, p.value)) else None
  }

  /**
   * The record for an endpoint and its manifest, or None when building it
   * raises (kp_registry/main.py:101-128): the manifest must be a dictionary
   * whose `edges` iterate to readable edges and whose `nodes` is a dictionary
   * of readable nodes, and the title must be usable as a dictionary key.
   */
  function Record(e: Discovery.Endpoint, metaKg: Json): Option<KpRecord>
  {
    match Get(metaKg, "edges")
    case Found(edges) =>
      (match Iter(edges)
       case Some(items) =>
         (match AllOf(items, EdgeOperation)
          case Some(ops) =>
            (match Get(metaKg, "nodes")
             case Found(nodes) =>
               if !nodes.JObj? then None  // `.items()` on a non-dictionary
               else
                 (match AllOf(nodes.fields, NodePrefixes)
                  case Some(prefixes) =>
                    if Hashable(e.title) then Some(KpRecord(e.url + QuerySuffix, e.infores, e.maturity, ops, prefixes))
                    else None
                  case None => None)
             case _ => None)
          case None => None)
       case None => None)
    case _ => None
  }

  /** The record endpoint `e` contributes, given its fetch: None when it gets none. */
  function Contribution(e: Discovery.Endpoint, f: Fetch): Option<KpRecord>
  {
    match Manifest(f)
    case Some(metaKg) => Record(e, metaKg)
    case None => None
  }

  /** Endpoint `i` gets a record. */
  predicate Registers(endpoints: seq<Discovery.Endpoint>, fetches: seq<Fetch>, i: int)
    requires |endpoints| == |fetches|
  {
    0 <= i < |endpoints| && Contribution(endpoints[i], fetches[i]).Some?
  }

  /** The first pass: the (endpoint, manifest) pairs that survive the fetch checks, in order. */
  function MetaKgs(endpoints: seq<Discovery.Endpoint>, fetches: seq<Fetch>): seq<(Discovery.Endpoint, Json)>
    requires |endpoints| == |fetches|
    decreases |endpoints|
  {
    if endpoints == [] then []
    else
      var n := |endpoints| - 1;
      MetaKgs(endpoints[..n], fetches[..n])
        + (if Manifest(fetches[n]).Some? then [(endpoints[n], Manifest(fetches[n]).value)] else [])
  }

  /** The second pass: each readable manifest's record stored under its endpoint's title. */
  function Collect(metaKgs: seq<(Discovery.Endpoint, Json)>): map<Json, KpRecord>
    decreases |metaKgs|
  {
    if metaKgs == [] then map[]
    else
      var n := |metaKgs| - 1;
      var (e, j) := metaKgs[n];
      match Record(e, j)
      case Some(r) => Collect(metaKgs[..n])[e.title := r]
      case None => Collect(metaKgs[..n])
  }

  /** Each endpoint's title with the record it contributes, in endpoint order. */
  function Contributions(endpoints: seq<Discovery.Endpoint>, fetches: seq<Fetch>): seq<(Json, Option<KpRecord>)>
    requires |endpoints| == |fetches|
  {
    seq(|endpoints|, i requires 0 <= i < |endpoints| => (endpoints[i].title, Contribution(endpoints[i], fetches[i])))
  }

  /** Storing each contributed record under its title, in order; a later one replaces an earlier one. */
  function Store(cs: seq<(Json, Option<KpRecord>)>): map<Json, KpRecord>
    decreases |cs|
  {
    if cs == [] then map[]
    else
      var n := |cs| - 1;
      if cs[n].1.Some? then Store(cs[..n])[cs[n].0 := cs[n].1.value] else Store(cs[..n])
  }

  /** The registered providers, as one pass over the (endpoint, fetch) pairs. */
  function Registered(endpoints: seq<Discovery.Endpoint>, fetches: seq<Fetch>): map<Json, KpRecord>
    requires |endpoints| == |fetches|
  {
    Store(Contributions(endpoints, fetches))
  }

  /**
   * `register_endpoints` after the fetches: `responses[i]` is the outcome of
   * fetching `endpoints[i]`'s manifest.
   */
  method RegisterEndpoints(endpoints: seq<Discovery.Endpoint>, responses: seq<Fetch>) returns (kps: map<Json, KpRecord>)
    requires |endpoints| == |responses|
    ensures kps == Registered(endpoints, responses)
  {
    var metaKgs := KeepManifests(endpoints, responses);
    kps := BuildRecords(metaKgs);
    CollectMetaKgs(endpoints, responses);
  }

  /** The first loop: skip failed fetches, statuses of 300 or more and undecodable bodies. */
  method KeepManifests(endpoints: seq<Discovery.Endpoint>, responses: seq<Fetch>) returns (metaKgs: seq<(Discovery.Endpoint, Json)>)
    requires |endpoints| == |responses|
    ensures metaKgs == MetaKgs(endpoints, responses)
  {
    metaKgs := [];
    var i := 0;
    while i < |endpoints|
      invariant 0 <= i <= |endpoints|
      invariant metaKgs == MetaKgs(endpoints[..i], responses[..i])
    {
      assert endpoints[..i + 1][..i] == endpoints[..i];
      assert responses[..i + 1][..i] == responses[..i];
      var response := responses[i];
      if response.Raised? {
        i := i + 1;
        continue;
      }
      if response.status >= 300 {
        i := i + 1;
        continue;
      }
      if response.body.NotJson? {
        i := i + 1;
        continue;
      }
      metaKgs := metaKgs + [(endpoints[i], response.body.json)];
      i := i + 1;
    }
    assert endpoints[..i] == endpoints && responses[..i] == responses;
  }

  /** The second loop: store each record that can be built under its endpoint's title. */
  method BuildRecords(metaKgs: seq<(Discovery.Endpoint, Json)>) returns (kps: map<Json, KpRecord>)
    ensures kps == Collect(metaKgs)
  {
    kps := map[];
    var j := 0;
    while j < |metaKgs|
      invariant 0 <= j <= |metaKgs|
      invariant kps == Collect(metaKgs[..j])
    {
      assert metaKgs[..j + 1][..j] == metaKgs[..j];
      var (endpoint, metaKg) := metaKgs[j];
      var record := Record(endpoint, metaKg);
      if record.Some? {
        kps := kps[endpoint.title := record.value];
      }
      j := j + 1;
    }
    assert metaKgs[..j] == metaKgs;
  }

  /** The two passes compose to the one-pass definition. */
  lemma {:induction false} CollectMetaKgs(endpoints: seq<Discovery.Endpoint>, fetches: seq<Fetch>)
    requires |endpoints| == |fetches|
    ensures Collect(MetaKgs(endpoints, fetches)) == Registered(endpoints, fetches)
    decreases |endpoints|
  {
    if endpoints != [] {
      var n := |endpoints| - 1;
      CollectMetaKgs(endpoints[..n], fetches[..n]);
      var cs := Contributions(endpoints, fetches);
      assert Contributions(endpoints[..n], fetches[..n]) == cs[..n];
      var prior := MetaKgs(endpoints[..n], fetches[..n]);
      var c := Contribution(endpoints[n], fetches[n]);
      assert cs[n] == (endpoints[n].title, c);
      assert Store(cs) == if c.Some? then Store(cs[..n])[endpoints[n].title := c.value] else Store(cs[..n]);
      match Manifest(fetches[n])
      case Some(metaKg) =>
        var extended := prior + [(endpoints[n], metaKg)];
        assert MetaKgs(endpoints, fetches) == extended;
        assert extended[..|prior|] == prior && extended[|prior|] == (endpoints[n], metaKg);
        assert c == Record(endpoints[n], metaKg);
      case None =>
        assert MetaKgs(endpoints, fetches) == prior + [] == prior;
        assert c.None?;
    }
  }

  // ---------------------------------------------------------------------
  // What a record holds, and when one exists

  /**
   * A record's url is the endpoint's url followed by "/query"; it keeps the
   * endpoint's infores and maturity; it has exactly one operation per
   * manifest edge, in edge order, with `subject`, `predicate` and `object`
   * copied; and it maps each node category, in order, to its `id_prefixes`.
   */
  lemma RecordContents(e: Discovery.Endpoint, metaKg: Json)
    requires Record(e, metaKg).Some?
    ensures var r := Record(e, metaKg).value;
      && r.url == e.url + "/query" && r.infores == e.infores && r.maturity == e.maturity
    ensures Get(metaKg, "edges").Found? && Iter(Get(metaKg, "edges").value).Some?
    ensures var r := Record(e, metaKg).value;
      var edges := Iter(Get(metaKg, "edges").value).value;
      && |r.operations| == |edges|
      && forall k :: 0 <= k < |edges| ==>
        && Get(edges[k], "subject").Found? && Get(edges[k], "predicate").Found? && Get(edges[k], "object").Found?
        && r.operations[k].subjectCategory == Get(edges[k], "subject").value
        && r.operations[k].edgePredicate == Get(edges[k], "predicate").value
        && r.operations[k].objectCategory == Get(edges[k], "object").value
    ensures Get(metaKg, "nodes").Found? && Get(metaKg, "nodes").value.JObj?
    ensures var r := Record(e, metaKg).value;
      var nodes := Get(metaKg, "nodes").value.fields;
      && |r.preferredPrefixes| == |nodes|
      && forall k :: 0 <= k < |nodes| ==>
        Get(nodes[k].1, "id_prefixes").Found? && r.preferredPrefixes[k] == (nodes[k].0, Get(nodes[k].1, "id_prefixes").value)
  {
    var edges := Iter(Get(metaKg, "edges").value).value;
    AllOfSpec(edges, EdgeOperation);
    forall k | 0 <= k < |edges|
      ensures Get(edges[k], "subject").Found? && Get(edges[k], "predicate").Found? && Get(edges[k], "object").Found?
    {
      assert EdgeOperation(edges[k]).Some?;
    }
    AllOfSpec(Get(metaKg, "nodes").value.fields, NodePrefixes);
  }

  /** An edge can be read when it is a dictionary with `subject`, `predicate` and `object`. */
  predicate ReadableEdge(edge: Json)
  {
    Get(edge, "subject").Found? && Get(edge, "predicate").Found? && Get(edge, "object").Found?
  }

  /**
   * An endpoint with a manifest gets a record exactly when nothing in the
   * record construction raises: `edges` is present and iterable with only
   * readable edges, `nodes` is a dictionary whose every value has
   * `id_prefixes`, and the title can be a dictionary key.
   */
  lemma RecordDefinedIff(e: Discovery.Endpoint, metaKg: Json)
    ensures Record(e, metaKg).Some? <==>
      && Get(metaKg, "edges").Found?
      && Iter(Get(metaKg, "edges").value).Some?
      && (forall k :: 0 <= k < |Iter(Get(metaKg, "edges").value).value| ==>
            ReadableEdge(Iter(Get(metaKg, "edges").value).value[k]))
      && Get(metaKg, "nodes").Found? && Get(metaKg, "nodes").value.JObj?
      && (forall k :: 0 <= k < |Get(metaKg, "nodes").value.fields| ==>
            Get(Get(metaKg, "nodes").value.fields[k].1, "id_prefixes").Found?)
      && Hashable(e.title)
  {
    if Get(metaKg, "edges").Found? && Iter(Get(metaKg, "edges").value).Some? {
      var edges := Iter(Get(metaKg, "edges").value).value;
      AllOfSpec(edges, EdgeOperation);
      assert forall k :: 0 <= k < |edges| ==> (EdgeOperation(edges[k]).Some? <==> ReadableEdge(edges[k]));
    }
    if Get(metaKg, "nodes").Found? && Get(metaKg, "nodes").value.JObj? {
      AllOfSpec(Get(metaKg, "nodes").value.fields, NodePrefixes);
    }
  }

  // ---------------------------------------------------------------------
  // Which endpoints end up registered

  /** The stored titles are exactly those that come with a record. */
  lemma {:induction false} StoreKeys(cs: seq<(Json, Option<KpRecord>)>, title: Json)
    ensures title in Store(cs) <==> exists i :: 0 <= i < |cs| && cs[i].1.Some? && cs[i].0 == title
    decreases |cs|
  {
    if cs != [] {
      var n := |cs| - 1;
      StoreKeys(cs[..n], title);
      assert forall i :: 0 <= i < n ==> cs[..n][i] == cs[i];
    }
  }

  /** A title holds the record of its last contribution. */
  lemma {:induction false} StoreLastWins(cs: seq<(Json, Option<KpRecord>)>, i: nat)
    requires i < |cs| && cs[i].1.Some?
    requires forall j :: i < j < |cs| && cs[j].1.Some? ==> cs[j].0 != cs[i].0
    ensures cs[i].0 in Store(cs) && Store(cs)[cs[i].0] == cs[i].1.value
    decreases |cs|
  {
    var n := |cs| - 1;
    if i < n {
      assert cs[..n][i] == cs[i];
      StoreLastWins(cs[..n], i);
    }
  }

  /** Storing two runs of contributions: the second run overrides the first. */
  lemma {:induction false} StoreAppend(c1: seq<(Json, Option<KpRecord>)>, c2: seq<(Json, Option<KpRecord>)>)
    ensures Store(c1 + c2) == Store(c1) + Store(c2)
    decreases |c2|
  {
    if c2 == [] {
      assert c1 + c2 == c1;
    } else {
      var n := |c2| - 1;
      assert (c1 + c2)[..|c1 + c2| - 1] == c1 + c2[..n];
      StoreAppend(c1, c2[..n]);
    }
  }

  /** The registered titles are exactly the titles of the endpoints that get a record. */
  lemma RegisteredKeys(endpoints: seq<Discovery.Endpoint>, fetches: seq<Fetch>, title: Json)
    requires |endpoints| == |fetches|
    ensures title in Registered(endpoints, fetches) <==>
      exists i :: Registers(endpoints, fetches, i) && endpoints[i].title == title
  {
    var cs := Contributions(endpoints, fetches);
    StoreKeys(cs, title);
    if title in Registered(endpoints, fetches) {
      var i :| 0 <= i < |cs| && cs[i].1.Some? && cs[i].0 == title;
      assert Registers(endpoints, fetches, i);
    }
    if exists i :: Registers(endpoints, fetches, i) && endpoints[i].title == title {
      var i :| Registers(endpoints, fetches, i) && endpoints[i].title == title;
      assert cs[i].1.Some? && cs[i].0 == title;
    }
  }

  /**
   * The record stored under a title is that of the last endpoint with that
   * title that gets a record: a later endpoint overwrites an earlier one.
   */
  lemma RegisteredLastWins(endpoints: seq<Discovery.Endpoint>, fetches: seq<Fetch>, i: nat)
    requires |endpoints| == |fetches|
    requires Registers(endpoints, fetches, i)
    requires forall j :: i < j < |endpoints| && Registers(endpoints, fetches, j) ==> endpoints[j].title != endpoints[i].title
    ensures endpoints[i].title in Registered(endpoints, fetches)
    ensures Registered(endpoints, fetches)[endpoints[i].title] == Record(endpoints[i], Manifest(fetches[i]).value).value
  {
    var cs := Contributions(endpoints, fetches);
    forall j | i < j < |cs| && cs[j].1.Some?
      ensures cs[j].0 != cs[i].0
    {
      assert Registers(endpoints, fetches, j);
    }
    StoreLastWins(cs, i);
  }

  /** Registering two runs of endpoints: the second run's records override the first's. */
  lemma RegisteredAppend(e1: seq<Discovery.Endpoint>, f1: seq<Fetch>, e2: seq<Discovery.Endpoint>, f2: seq<Fetch>)
    requires |e1| == |f1| && |e2| == |f2|
    ensures Registered(e1 + e2, f1 + f2) == Registered(e1, f1) + Registered(e2, f2)
  {
    assert Contributions(e1 + e2, f1 + f2) == Contributions(e1, f1) + Contributions(e2, f2);
    StoreAppend(Contributions(e1, f1), Contributions(e2, f2));
  }

  /**
   * An endpoint that gets no record (failed fetch, status of 300 or more,
   * undecodable body, or a manifest that cannot be read) is dropped on its
   * own: the other endpoints are registered exactly as without it.
   */
  lemma DroppedAlone(endpoints: seq<Discovery.Endpoint>, fetches: seq<Fetch>, i: nat)
    requires |endpoints| == |fetches| && i < |endpoints|
    requires !Registers(endpoints, fetches, i)
    ensures Registered(endpoints, fetches) ==
      Registered(endpoints[..i] + endpoints[i + 1..], fetches[..i] + fetches[i + 1..])
  {
    var e1, e2, e3 := endpoints[..i], [endpoints[i]], endpoints[i + 1..];
    var f1, f2, f3 := fetches[..i], [fetches[i]], fetches[i + 1..];
    assert endpoints == e1 + e2 + e3 && fetches == f1 + f2 + f3;
    RegisteredAppend(e1 + e2, f1 + f2, e3, f3);
    RegisteredAppend(e1, f1, e2, f2);
    var c2 := Contributions(e2, f2);
    assert |c2| == 1 && c2[..0] == [] && c2[0].1.None?;
    assert Store(c2) == Store(c2[..0]) == map[];
    RegisteredAppend(e1, f1, e3, f3);
    assert Registered(e1, f1) + map[] == Registered(e1, f1);
  }
}

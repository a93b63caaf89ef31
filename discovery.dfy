/**
 * Turning the SmartAPI directory's hits into KP endpoints
 * (`Registry.retrieve_kp_endpoints_from_smartapi`, after the directory
 * response has been decoded).
 *
 * Each hit is parsed with per-field fallbacks, filtered by a chain of skip
 * rules, and expanded into one endpoint per server that has a `url`.  A
 * lookup failure that the code catches skips the hit; any other exception
 * propagates out of the whole discovery, which then yields no endpoints at
 * all (`Crashed`).
 */
module Discovery {
  import opened Json

  /** The path suffix that marks a service's meta knowledge graph route (21 characters). */
  const MetaKgSuffix: string := "/meta_knowledge_graph"

  /** Maturity assigned to a server that does not declare `x-maturity`. */
  const DefaultMaturity: string := "production"

  datatype Endpoint = Endpoint(
    id: Json,          // `_id`, or the title when the hit has none
    title: Json,       // the service title, suffixed with the maturity when the hit lists several servers
    infores: Json,     // `info.x-translator.infores`, or "infores:<id>"
    url: string,       // server url + path prefix, one trailing '/' removed
    maturity: Json,    // `x-maturity` of the server, or "production"
    operations: Json,  // `info.x-trapi.operations`, or null
    version: string)   // `info.x-trapi.version`

  /** Why a hit was skipped (each reason is logged by the source, then `continue`). */
  datatype Skip = NoTitle | NoComponent | NotKp | NoVersion | VersionMismatch | NoMetaKgPath | NoServers

  datatype HitOutcome = Kept(endpoints: seq<Endpoint>) | Skipped(reason: Skip) | Crashed(error: PyError)

  /** What one entry of `servers` contributes. */
  datatype ServerOutcome = Made(endpoint: Endpoint) | NoUrl | ServerCrash(error: PyError)

  /** The per-hit values every endpoint of the hit shares. */
  datatype HitContext = HitContext(
    id: Json, title: Json, infores: Json, operations: Json, version: string,
    prefix: string, multi: bool)

  predicate IsDigit(c: char)
  {
    '0' <= c <= '9'
  }

  /**
   * The leading `d.d` of the target TRAPI version, as `[0-9]\.[0-9]` matched
   * at the start of the string; None when the target does not start that way.
   */
  function TargetPrefix(target: string): (r: Option<string>)
    ensures r.Some? <==> |target| >= 3 && IsDigit(target[0]) && target[1] == '.' && IsDigit(target[2])
    ensures r.Some? ==> |r.value| == 3 && StartsWith(target, r.value)
  {
    if |target| >= 3 && IsDigit(target[0]) && target[1] == '.' && IsDigit(target[2])
    then Some(target[..3])
    else None
  }

  /** The version gate: the hit's version must start with the target's `d.d` followed by a dot. */
  predicate VersionAccepted(version: string, prefix: string)
  {
    StartsWith(version, prefix + ".")
  }

  /** Path `i` is the first of `paths` that ends in the manifest suffix, and `prefix` is what precedes the suffix. */
  predicate FirstMetaKgPath(paths: seq<string>, i: int, prefix: string)
  {
    0 <= i < |paths| && paths[i] == prefix + MetaKgSuffix
    && forall j :: 0 <= j < i ==> !EndsWith(paths[j], MetaKgSuffix)
  }

  /**
   * The path prefix of the first path that ends in `/meta_knowledge_graph`,
   * i.e. that path without its last 21 characters.
   */
  function MetaKgPrefix(paths: seq<string>): (r: Option<string>)
    ensures r.None? <==> forall i :: 0 <= i < |paths| ==> !EndsWith(paths[i], MetaKgSuffix)
    ensures r.Some? ==> exists i :: FirstMetaKgPath(paths, i, r.value)
  {
    if paths == [] then None
    else if EndsWith(paths[0], MetaKgSuffix) then
      var p := paths[0][..|paths[0]| - 21];
      assert FirstMetaKgPath(paths, 0, p);
      Some(p)
    else
      var r := MetaKgPrefix(paths[1..]);
      assert forall i :: 0 < i < |paths| ==> paths[i] == paths[1..][i - 1];
      if r.Some? then
        var i :| FirstMetaKgPath(paths[1..], i, r.value);
        assert FirstMetaKgPath(paths, i + 1, r.value);
        r
      else r
  }

  /** Drops one trailing '/', if there is one. */
  function StripSlash(url: string): (r: string)
    ensures |r| <= |url| && r == url[..|r|]
    ensures r == url <==> !EndsWith(url, "/")
    ensures r != url ==> r + "/" == url
  {
    if EndsWith(url, "/") then url[..|url| - 1] else url
  }

  /** `_id`, falling back to the title. */
  function IdOf(hit: Json, title: Json): Json
  {
    match Get(hit, "_id")
    case Found(id) => id
    case _ => title
  }

  /** `info.x-trapi.operations`, falling back to None (null). */
  function OperationsOf(hit: Json): Json
  {
    match Dig(hit, ["info", "x-trapi", "operations"])
    case Found(ops) => ops
    case _ => JNull
  }

  /** `x-maturity` of a server, falling back to "production". */
  function MaturityOf(server: Json): Json
  {
    match Get(server, "x-maturity")
    case Found(m) => m
    case _ => JStr(DefaultMaturity)
  }

  /** The endpoint title: `title_maturity` when the hit lists more than one server. */
  function EndpointTitle(title: Json, maturity: Json, multi: bool): Json
  {
    if multi then JStr(Str(title) + "_" + Str(maturity)) else title
  }

  /** One entry of `servers` (kp_registry/main.py:236-268). */
  function ServerEndpoint(ctx: HitContext, server: Json): ServerOutcome
  {
    match Get(server, "url")
    case NotSubscriptable => ServerCrash(TypeError)
    case Missing => NoUrl
    case Found(u) =>
      if u.JStr? then
        var maturity := MaturityOf(server);
        Made(Endpoint(ctx.id, EndpointTitle(ctx.title, maturity, ctx.multi), ctx.infores,
                      StripSlash(u.s + ctx.prefix), maturity, ctx.operations, ctx.version))
      // `url += prefix` on a list extends it, and `.endswith` then fails
      else if u.JArr? then ServerCrash(AttributeError)
      else ServerCrash(TypeError)
  }

  /** The server loop: endpoints in server order; the first crashing server aborts. */
  function ServersEndpoints(ctx: HitContext, servers: seq<Json>): Result<seq<Endpoint>, PyError>
    decreases |servers|
  {
    if servers == [] then Ok([])
    else
      match ServersEndpoints(ctx, servers[..|servers| - 1])
      case Err(e) => Err(e)
      case Ok(es) =>
        match ServerEndpoint(ctx, servers[|servers| - 1])
        case Made(e) => Ok(es + [e])
        case NoUrl => Ok(es)
        case ServerCrash(err) => Err(err)
  }

  /** The part of the hit processing that follows the version gate (kp_registry/main.py:218-233). */
  function HitTail(hit: Json, id: Json, title: Json, infores: Json, version: string): HitOutcome
  {
    match Get(hit, "paths")
    case Missing => Crashed(KeyError)      // `hit["paths"]` is outside every `try`
    case NotSubscriptable => Crashed(TypeError)
    case Found(paths) =>
      if !paths.JObj? then Crashed(AttributeError)
      else
        match MetaKgPrefix(Keys(paths.fields))
        case None => Skipped(NoMetaKgPath)
        case Some(prefix) => ServersStage(hit, HitContext(id, title, infores, OperationsOf(hit), version, prefix, false))
  }

  /**
   * The server loop of a hit (kp_registry/main.py:234-275); `base` carries
   * everything but the number of servers.
   */
  function ServersStage(hit: Json, base: HitContext): HitOutcome
  {
    match Get(hit, "servers")
    case Missing => Skipped(NoServers)
    case NotSubscriptable => Crashed(TypeError)
    case Found(servers) =>
      match Iter(servers)
      case None => Crashed(TypeError)
      case Some(items) =>
        match ServersEndpoints(base.(multi := Len(servers) > 1), items)
        case Ok(es) => Kept(es)
        case Err(e) => Crashed(e)
  }

  /** One hit (kp_registry/main.py:163-275). */
  function HitSpec(hit: Json, target: string): HitOutcome
  {
    match Dig(hit, ["info", "title"])
    case Missing => Skipped(NoTitle)
    case NotSubscriptable => Crashed(TypeError)
    case Found(title) =>
      var id := IdOf(hit, title);
      var inforesLookup := Dig(hit, ["info", "x-translator", "infores"]);
      if inforesLookup.NotSubscriptable? then Crashed(TypeError)
      else
        var infores := if inforesLookup.Found? then inforesLookup.value else JStr("infores:" + Str(id));
        match Dig(hit, ["info", "x-translator", "component"])
        case NotSubscriptable => Crashed(TypeError)
        case Missing => Skipped(NoComponent)
        case Found(component) =>
          if component != JStr("KP") then Skipped(NotKp)
          else
            match Dig(hit, ["info", "x-trapi", "version"])
            case NotSubscriptable => Crashed(TypeError)
            case Missing => Skipped(NoVersion)
            case Found(version) =>
              match TargetPrefix(target)
              case None => Crashed(AttributeError)   // the regex match is None
              case Some(p) =>
                if !version.JStr? then Crashed(AttributeError)
                else if !VersionAccepted(version.s, p) then Skipped(VersionMismatch)
                else HitTail(hit, id, title, infores, version.s)
  }

  /** The outcome of each hit, in order. */
  function Outcomes(hits: seq<Json>, target: string): (r: seq<HitOutcome>)
    ensures |r| == |hits|
  {
    seq(|hits|, i requires 0 <= i < |hits| => HitSpec(hits[i], target))
  }

  /** The hit loop's accumulation: kept endpoints in order; the first crash aborts. */
  function Accumulate(outcomes: seq<HitOutcome>): Result<seq<Endpoint>, PyError>
    decreases |outcomes|
  {
    if outcomes == [] then Ok([])
    else
      match Accumulate(outcomes[..|outcomes| - 1])
      case Err(e) => Err(e)
      case Ok(es) =>
        match outcomes[|outcomes| - 1]
        case Kept(more) => Ok(es + more)
        case Skipped(_) => Ok(es)
        case Crashed(e) => Err(e)
  }

  /** The hit loop over a list of hits. */
  function DiscoverHits(hits: seq<Json>, target: string): Result<seq<Endpoint>, PyError>
  {
    Accumulate(Outcomes(hits, target))
  }

  /** The whole discovery over the decoded directory response `registrations`. */
  function Discover(registrations: Json, target: string): Result<seq<Endpoint>, PyError>
  {
    match Get(registrations, "hits")
    case Found(hits) =>
      (match Iter(hits)
       case Some(items) => DiscoverHits(items, target)
       case None => Err(TypeError))
    case Missing => Err(KeyError)
    case NotSubscriptable => Err(TypeError)
  }

  /**
   * `retrieve_kp_endpoints_from_smartapi` after the directory query: loops
   * over the hits, appending each kept hit's endpoints.
   */
  method RetrieveKpEndpoints(registrations: Json, target: string) returns (r: Result<seq<Endpoint>, PyError>)
    ensures r == Discover(registrations, target)
  {
    var lookup := Get(registrations, "hits");
    if !lookup.Found? {
      return Err(Raised(lookup));
    }
    var iterated := Iter(lookup.value);
    if iterated.None? {
      return Err(TypeError);
    }
    var hits := iterated.value;
    var endpoints: seq<Endpoint> := [];
    var i := 0;
    while i < |hits|
      invariant 0 <= i <= |hits|
      invariant Accumulate(Outcomes(hits[..i], target)) == Ok(endpoints)
    {
      assert Outcomes(hits[..i + 1], target)[..i] == Outcomes(hits[..i], target);
      var outcome := ProcessHit(hits[i], target);
      match outcome {
        case Crashed(e) =>
          assert Outcomes(hits, target)[..i + 1] == Outcomes(hits[..i + 1], target);
          AccumulateCrashSticky(Outcomes(hits, target), i + 1);
          return Err(e);
        case Skipped(_) =>
        case Kept(more) =>
          endpoints := endpoints + more;
      }
      i := i + 1;
    }
    assert hits[..i] == hits;
    r := Ok(endpoints);
  }

  /** The body of the hit loop, with its `continue`s as early returns. */
  method ProcessHit(hit: Json, target: string) returns (o: HitOutcome)
    ensures o == HitSpec(hit, target)
  {
    var titleLookup := Dig(hit, ["info", "title"]);
    if titleLookup.Missing? {
      return Skipped(NoTitle);
    } else if titleLookup.NotSubscriptable? {
      return Crashed(TypeError);
    }
    var title := titleLookup.value;
    var id := IdOf(hit, title);
    var infores: Json;
    var inforesLookup := Dig(hit, ["info", "x-translator", "infores"]);
    if inforesLookup.Found? {
      infores := inforesLookup.value;
    } else if inforesLookup.Missing? {
      infores := JStr("infores:" + Str(id));
    } else {
      return Crashed(TypeError);
    }
    var componentLookup := Dig(hit, ["info", "x-translator", "component"]);
    if !componentLookup.Found? {
      return if componentLookup.Missing? then Skipped(NoComponent) else Crashed(TypeError);
    }
    if componentLookup.value != JStr("KP") {
      return Skipped(NotKp);
    }
    var versionLookup := Dig(hit, ["info", "x-trapi", "version"]);
    if !versionLookup.Found? {
      return if versionLookup.Missing? then Skipped(NoVersion) else Crashed(TypeError);
    }
    var version := versionLookup.value;
    var trapiVersion := TargetPrefix(target);
    if trapiVersion.None? || !version.JStr? {
      return Crashed(AttributeError);
    }
    if !VersionAccepted(version.s, trapiVersion.value) {
      return Skipped(VersionMismatch);
    }
    o := ProcessPaths(hit, id, title, infores, version.s);
  }

  /** The path-prefix lookup of one hit. */
  method ProcessPaths(hit: Json, id: Json, title: Json, infores: Json, version: string) returns (o: HitOutcome)
    ensures o == HitTail(hit, id, title, infores, version)
  {
    var pathsLookup := Get(hit, "paths");
    if !pathsLookup.Found? {
      return Crashed(Raised(pathsLookup));
    }
    var paths := pathsLookup.value;
    if !paths.JObj? {
      return Crashed(AttributeError);
    }
    var prefix := MetaKgPrefix(Keys(paths.fields));
    if prefix.None? {
      return Skipped(NoMetaKgPath);
    }
    o := ProcessServerList(hit, HitContext(id, title, infores, OperationsOf(hit), version, prefix.value, false));
  }

  /** The `servers` lookup of one hit and its server loop. */
  method ProcessServerList(hit: Json, base: HitContext) returns (o: HitOutcome)
    ensures o == ServersStage(hit, base)
  {
    var serversLookup := Get(hit, "servers");
    if serversLookup.Missing? {
      return Skipped(NoServers);
    } else if serversLookup.NotSubscriptable? {
      return Crashed(TypeError);
    }
    var servers := serversLookup.value;
    var iterated := Iter(servers);
    if iterated.None? {
      return Crashed(TypeError);
    }
    var endpoints := CollectServers(base.(multi := Len(servers) > 1), iterated.value);
    o := if endpoints.Ok? then Kept(endpoints.value) else Crashed(endpoints.error);
  }

  /** The server loop of one hit: one endpoint per server with a `url`, in server order. */
  method CollectServers(ctx: HitContext, servers: seq<Json>) returns (r: Result<seq<Endpoint>, PyError>)
    ensures r == ServersEndpoints(ctx, servers)
  {
    var endpoints: seq<Endpoint> := [];
    var i := 0;
    while i < |servers|
      invariant 0 <= i <= |servers|
      invariant ServersEndpoints(ctx, servers[..i]) == Ok(endpoints)
    {
      assert servers[..i + 1][..i] == servers[..i];
      match ServerEndpoint(ctx, servers[i]) {
        case ServerCrash(e) =>
          ServersCrashSticky(ctx, servers, i + 1);
          return Err(e);
        case NoUrl =>
        case Made(e) =>
          endpoints := endpoints + [e];
      }
      i := i + 1;
    }
    assert servers[..i] == servers;
    r := Ok(endpoints);
  }

  /** Once a prefix of the servers crashes, the whole server loop ends in that crash. */
  lemma {:induction false} ServersCrashSticky(ctx: HitContext, servers: seq<Json>, k: nat)
    requires k <= |servers| && ServersEndpoints(ctx, servers[..k]).Err?
    ensures ServersEndpoints(ctx, servers) == ServersEndpoints(ctx, servers[..k])
    decreases |servers|
  {
    if k < |servers| {
      var init := servers[..|servers| - 1];
      assert init[..k] == servers[..k];
      ServersCrashSticky(ctx, init, k);
    } else {
      assert servers[..k] == servers;
    }
  }

  /** Once a prefix of the hits crashes, the whole discovery ends in that crash. */
  lemma {:induction false} AccumulateCrashSticky(outcomes: seq<HitOutcome>, k: nat)
    requires k <= |outcomes| && Accumulate(outcomes[..k]).Err?
    ensures Accumulate(outcomes) == Accumulate(outcomes[..k])
    decreases |outcomes|
  {
    if k < |outcomes| {
      var init := outcomes[..|outcomes| - 1];
      assert init[..k] == outcomes[..k];
      AccumulateCrashSticky(init, k);
    } else {
      assert outcomes[..k] == outcomes;
    }
  }

  // ---------------------------------------------------------------------
  // Properties of the per-server expansion

  /** The servers that have a `url` key, in order. */
  function WithUrl(servers: seq<Json>): seq<Json>
    decreases |servers|
  {
    if servers == [] then []
    else
      var last := servers[|servers| - 1];
      WithUrl(servers[..|servers| - 1]) + (if Get(last, "url").Found? then [last] else [])
  }

  /** A server whose entry is not a dictionary, or whose `url` is not a string, aborts the discovery. */
  predicate Malformed(server: Json)
  {
    !server.JObj? || (Get(server, "url").Found? && !Get(server, "url").value.JStr?)
  }

  /** The server loop fails exactly when some server entry is malformed. */
  lemma {:induction false} ServersCrashIff(ctx: HitContext, servers: seq<Json>)
    ensures ServersEndpoints(ctx, servers).Err? <==> exists i :: 0 <= i < |servers| && Malformed(servers[i])
    decreases |servers|
  {
    if servers != [] {
      var init := servers[..|servers| - 1];
      ServersCrashIff(ctx, init);
      assert forall i :: 0 <= i < |init| ==> init[i] == servers[i];
      if exists i :: 0 <= i < |servers| && Malformed(servers[i]) {
        var i :| 0 <= i < |servers| && Malformed(servers[i]);
        if i < |init| {
          assert Malformed(init[i]);
        }
      }
    }
  }

  /**
   * Each server with a `url` yields exactly one endpoint, in server order:
   * the one built from that server.
   */
  lemma {:induction false} ServersOnePerUrl(ctx: HitContext, servers: seq<Json>, es: seq<Endpoint>)
    requires ServersEndpoints(ctx, servers) == Ok(es)
    ensures |es| == |WithUrl(servers)|
    ensures forall k :: 0 <= k < |es| ==> ServerEndpoint(ctx, WithUrl(servers)[k]) == Made(es[k])
    decreases |servers|
  {
    if servers != [] {
      var init := servers[..|servers| - 1];
      var prior :| ServersEndpoints(ctx, init) == Ok(prior);
      ServersOnePerUrl(ctx, init, prior);
    }
  }

  /**
   * The endpoint built from a server: its url is the server url plus the
   * path prefix with one trailing '/' dropped, its maturity defaults to
   * "production", its title is suffixed with the maturity when the hit has
   * several servers, and every other field is the hit's.
   */
  lemma ServerEndpointMade(ctx: HitContext, server: Json, e: Endpoint)
    requires ServerEndpoint(ctx, server) == Made(e)
    ensures Get(server, "url").Found? && Get(server, "url").value.JStr?
    ensures e.url == StripSlash(Get(server, "url").value.s + ctx.prefix)
    ensures e.maturity == MaturityOf(server)
    ensures e.title == (if ctx.multi then JStr(Str(ctx.title) + "_" + Str(e.maturity)) else ctx.title)
    ensures e.id == ctx.id && e.infores == ctx.infores
    ensures e.operations == ctx.operations && e.version == ctx.version
  {
  }

  // ---------------------------------------------------------------------
  // Properties of one hit

  /** A hit without `info.title` contributes no endpoints and does not abort the discovery. */
  lemma NoTitleSkipped(hit: Json, target: string)
    requires Dig(hit, ["info", "title"]).Missing?
    ensures HitSpec(hit, target) == Skipped(NoTitle)
  {
  }

  /** A hit with a title whose component is present but not "KP" is skipped. */
  lemma NotKpSkipped(hit: Json, target: string)
    requires Dig(hit, ["info", "title"]).Found?
    requires Dig(hit, ["info", "x-translator", "component"]).Found?
    requires Dig(hit, ["info", "x-translator", "component"]).value != JStr("KP")
    ensures HitSpec(hit, target) == Skipped(NotKp)
  {
    var xt := Dig(hit, ["info"]).value;
    assert Dig(hit, ["info", "x-translator", "infores"]) == Dig(Get(hit, "info").value, ["x-translator", "infores"]);
  }

  /**
   * A kept hit has a title, declares the component "KP", and has a string
   * TRAPI version that starts with the target's `d.d` and a dot.
   */
  lemma KeptGates(hit: Json, target: string)
    requires HitSpec(hit, target).Kept?
    ensures Dig(hit, ["info", "title"]).Found?
    ensures Dig(hit, ["info", "x-translator", "component"]) == Found(JStr("KP"))
    ensures TargetPrefix(target).Some?
    ensures var version := Dig(hit, ["info", "x-trapi", "version"]);
      version.Found? && version.value.JStr? && VersionAccepted(version.value.s, TargetPrefix(target).value)
  {
  }

  /** Unfolds a kept hit down to its server loop. */
  lemma KeptUnfold(hit: Json, target: string) returns (ctx: HitContext, servers: Json, items: seq<Json>)
    requires HitSpec(hit, target).Kept?
    ensures var title := Dig(hit, ["info", "title"]).value;
      var inforesLookup := Dig(hit, ["info", "x-translator", "infores"]);
      && Dig(hit, ["info", "title"]).Found?
      && ctx.title == title
      && ctx.id == IdOf(hit, title)
      && !inforesLookup.NotSubscriptable?
      && ctx.infores == (if inforesLookup.Found? then inforesLookup.value else JStr("infores:" + Str(ctx.id)))
      && Dig(hit, ["info", "x-trapi", "version"]) == Found(JStr(ctx.version))
      && ctx.operations == OperationsOf(hit)
    ensures Get(hit, "paths").Found? && Get(hit, "paths").value.JObj?
    ensures MetaKgPrefix(Keys(Get(hit, "paths").value.fields)) == Some(ctx.prefix)
    ensures Get(hit, "servers") == Found(servers) && Iter(servers) == Some(items)
    ensures ctx.multi == (Len(servers) > 1)
    ensures ServersEndpoints(ctx, items) == Ok(HitSpec(hit, target).endpoints)
  {
    var title := Dig(hit, ["info", "title"]).value;
    var id := IdOf(hit, title);
    var inforesLookup := Dig(hit, ["info", "x-translator", "infores"]);
    var infores := if inforesLookup.Found? then inforesLookup.value else JStr("infores:" + Str(id));
    var version := Dig(hit, ["info", "x-trapi", "version"]).value.s;
    assert HitSpec(hit, target) == HitTail(hit, id, title, infores, version);
    var paths := Get(hit, "paths").value;
    var prefix := MetaKgPrefix(Keys(paths.fields)).value;
    var base := HitContext(id, title, infores, OperationsOf(hit), version, prefix, false);
    assert HitTail(hit, id, title, infores, version) == ServersStage(hit, base);
    servers := Get(hit, "servers").value;
    items := Iter(servers).value;
    ctx := base.(multi := Len(servers) > 1);
  }

  /**
   * Every endpoint of a kept hit carries the hit's `_id` (or its title),
   * its `infores` (or "infores:" and the id), its version and its declared
   * operations (or null).
   */
  lemma KeptDefaults(hit: Json, target: string)
    requires HitSpec(hit, target).Kept?
    ensures var title := Dig(hit, ["info", "title"]).value;
      var id := if Get(hit, "_id").Found? then Get(hit, "_id").value else title;
      var inforesLookup := Dig(hit, ["info", "x-translator", "infores"]);
      var infores := if inforesLookup.Found? then inforesLookup.value else JStr("infores:" + Str(id));
      forall e :: e in HitSpec(hit, target).endpoints ==>
        && e.id == id && e.infores == infores
        && e.version == Dig(hit, ["info", "x-trapi", "version"]).value.s
        && e.operations == (if Dig(hit, ["info", "x-trapi", "operations"]).Found?
                            then Dig(hit, ["info", "x-trapi", "operations"]).value else JNull)
  {
    var es := HitSpec(hit, target).endpoints;
    var ctx, servers, items := KeptUnfold(hit, target);
    ServersOnePerUrl(ctx, items, es);
    forall e | e in es
      ensures e.id == ctx.id && e.infores == ctx.infores && e.version == ctx.version
        && e.operations == ctx.operations
    {
      var k :| 0 <= k < |es| && es[k] == e;
      ServerEndpointMade(ctx, WithUrl(items)[k], e);
    }
  }

  /**
   * A kept hit has a `/meta_knowledge_graph` path and a `servers` list, and
   * yields one endpoint per server with a `url`, in server order, whose url
   * is that server's url followed by the path prefix, one trailing '/'
   * removed, and whose title is `title_maturity` exactly when the hit lists
   * more than one server.
   */
  lemma KeptServers(hit: Json, target: string)
    requires HitSpec(hit, target).Kept?
    ensures Get(hit, "paths").Found? && Get(hit, "paths").value.JObj?
    ensures MetaKgPrefix(Keys(Get(hit, "paths").value.fields)).Some?
    ensures Get(hit, "servers").Found? && Iter(Get(hit, "servers").value).Some?
    ensures var es := HitSpec(hit, target).endpoints;
      var title := Dig(hit, ["info", "title"]).value;
      var prefix := MetaKgPrefix(Keys(Get(hit, "paths").value.fields)).value;
      var servers := Get(hit, "servers").value;
      var withUrl := WithUrl(Iter(servers).value);
      && |es| == |withUrl|
      && forall k :: 0 <= k < |es| ==>
        && Get(withUrl[k], "url").Found? && Get(withUrl[k], "url").value.JStr?
        && es[k].url == StripSlash(Get(withUrl[k], "url").value.s + prefix)
        && es[k].maturity == MaturityOf(withUrl[k])
        && es[k].title == (if Len(servers) > 1 then JStr(Str(title) + "_" + Str(es[k].maturity)) else title)
  {
    var ctx, servers, items := KeptUnfold(hit, target);
    var es := HitSpec(hit, target).endpoints;
    ServersOnePerUrl(ctx, items, es);
    forall k | 0 <= k < |es|
      ensures var server := WithUrl(items)[k];
        && Get(server, "url").Found? && Get(server, "url").value.JStr?
        && es[k].url == StripSlash(Get(server, "url").value.s + ctx.prefix)
        && es[k].maturity == MaturityOf(server)
        && es[k].title == (if ctx.multi then JStr(Str(ctx.title) + "_" + Str(es[k].maturity)) else ctx.title)
    {
      ServerEndpointMade(ctx, WithUrl(items)[k], es[k]);
    }
  }

  /**
   * A hit that passes every gate up to the version check but has no `paths`
   * key raises KeyError outside any handler.
   */
  lemma MissingPathsCrashes(hit: Json, target: string)
    requires Dig(hit, ["info", "title"]).Found?
    requires !Dig(hit, ["info", "x-translator", "infores"]).NotSubscriptable?
    requires Dig(hit, ["info", "x-translator", "component"]) == Found(JStr("KP"))
    requires TargetPrefix(target).Some?
    requires Dig(hit, ["info", "x-trapi", "version"]).Found?
    requires var v := Dig(hit, ["info", "x-trapi", "version"]).value;
      v.JStr? && VersionAccepted(v.s, TargetPrefix(target).value)
    requires Get(hit, "paths").Missing?
    ensures HitSpec(hit, target) == Crashed(KeyError)
  {
  }

  /** The TRAPI gate against the default target "1.3.0". */
  lemma VersionGateExamples()
    ensures TargetPrefix("1.3.0") == Some("1.3")
    ensures VersionAccepted("1.3.5", "1.3")
    ensures !VersionAccepted("1.4.0", "1.3")
    ensures !VersionAccepted("1.30.0", "1.3")
    ensures !VersionAccepted("1.3", "1.3")
  {
    assert "1.3.0"[..3] == "1.3";
    assert "1.4.0"[..4][2] != "1.3."[2];
    assert "1.30.0"[..4][3] != "1.3."[3];
  }

  // ---------------------------------------------------------------------
  // Properties of the hit loop

  /** Accumulating two runs of outcomes concatenates their endpoints; the first crash wins. */
  lemma {:induction false} AccumulateAppend(a: seq<HitOutcome>, b: seq<HitOutcome>)
    ensures Accumulate(a).Err? ==> Accumulate(a + b) == Accumulate(a)
    ensures Accumulate(a).Ok? && Accumulate(b).Err? ==> Accumulate(a + b) == Accumulate(b)
    ensures Accumulate(a).Ok? && Accumulate(b).Ok? ==>
      Accumulate(a + b) == Ok(Accumulate(a).value + Accumulate(b).value)
    decreases |b|
  {
    if b == [] {
      assert a + b == a;
      assert Accumulate(b) == Ok([]);
      assert Accumulate(a).Ok? ==> Accumulate(a).value + [] == Accumulate(a).value;
    } else {
      var init := b[..|b| - 1];
      var last := b[|b| - 1];
      assert (a + b)[..|a + b| - 1] == a + init;
      assert (a + b)[|a + b| - 1] == last;
      AccumulateAppend(a, init);
      if Accumulate(a).Ok? && Accumulate(init).Ok? && last.Kept? {
        var x, y := Accumulate(a).value, Accumulate(init).value;
        assert (x + y) + last.endpoints == x + (y + last.endpoints);
      }
    }
  }

  /** A skipped hit contributes nothing: removing it leaves the discovery unchanged. */
  lemma SkippedHitContributesNothing(a: seq<Json>, hit: Json, b: seq<Json>, target: string)
    requires HitSpec(hit, target).Skipped?
    ensures DiscoverHits(a + [hit] + b, target) == DiscoverHits(a + b, target)
  {
    var oa, ob, oh := Outcomes(a, target), Outcomes(b, target), [HitSpec(hit, target)];
    assert Outcomes(a + [hit] + b, target) == oa + oh + ob;
    assert Outcomes(a + b, target) == oa + ob;
    AccumulateAppend(oa + oh, ob);
    AccumulateAppend(oa, oh);
    AccumulateAppend(oa, ob);
    assert Accumulate(oh) == Ok([]) by {
      assert oh[..0] == [];
    }
    assert oa + [] == oa;
  }

  /** The hit loop fails exactly when some outcome is a crash. */
  lemma {:induction false} AccumulateCrashIff(outcomes: seq<HitOutcome>)
    ensures Accumulate(outcomes).Err? <==> exists i :: 0 <= i < |outcomes| && outcomes[i].Crashed?
    decreases |outcomes|
  {
    if outcomes != [] {
      var init := outcomes[..|outcomes| - 1];
      AccumulateCrashIff(init);
      assert forall i :: 0 <= i < |init| ==> init[i] == outcomes[i];
    }
  }

  /** The whole discovery fails exactly when some hit raises an uncaught exception. */
  lemma DiscoverCrashIff(hits: seq<Json>, target: string)
    ensures DiscoverHits(hits, target).Err? <==> exists i :: 0 <= i < |hits| && HitSpec(hits[i], target).Crashed?
  {
    var outcomes := Outcomes(hits, target);
    AccumulateCrashIff(outcomes);
    assert forall i :: 0 <= i < |hits| ==> outcomes[i] == HitSpec(hits[i], target);
  }
}

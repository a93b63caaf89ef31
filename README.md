# KP registry — a verified model

The KP registry keeps a catalog of Translator knowledge providers (KPs).
It discovers candidate services in the SmartAPI directory, fetches each one's
`/meta_knowledge_graph` manifest, and turns those into provider records.
Providers and their operations live in a two-table SQLite store that answers
"which KPs can serve this (subject category, predicate, object category)
pattern".

This project models the two parts of that system that hold its logic.

- **Discovery and registration** (`kp_registry/main.py`):
  - `Discovery` turns the decoded SmartAPI response into endpoints. This is
    `retrieve_kp_endpoints_from_smartapi` after the directory query. It
    applies the per-field fallbacks (`_id`, `infores`, maturity) and the skip
    rules (title, component `"KP"`, the TRAPI `d.d.` version gate, the
    manifest path, servers). Each endpoint's URL is built from its server's
    url and the path prefix, and titles are disambiguated when a hit lists
    several servers.
  - `Registration` turns (endpoint, fetch outcome) pairs into the title-keyed
    map of provider records. This is `register_endpoints` after the
    concurrent fetches.
  - Both are written as the source's loops, as methods proved equal to
    recursive specification functions. Lemmas state what those functions
    guarantee.
  - In `Discovery`, the loop body is split into `ProcessHit`, `ProcessPaths`
    and `ProcessServerList`. These follow the `continue` and exception
    branches of the body statement by statement. Each is proved equal to a
    specification function with the same branches: `HitSpec`, `HitTail` and
    `ServersStage`. What a hit yields is promised by the lemmas about those
    functions (`KeptGates`, `KeptDefaults`, `KeptServers` and the others),
    not by the methods' own contracts.
- **The capability store** (`kp_registry/registry.py`):
  - `RegistryTables` holds the two tables as sequences of rows, the `UNIQUE`
    constraints from `setup`, and `add`, `delete_one`, `delete_all`,
    `get_all`, `get_one` and `search` as functions on tables.
  - `RegistryLaws` proves what they promise. The invariant holds: both
    uniqueness constraints, plus every operation naming a stored provider.
    `add` fails exactly on a uniqueness conflict. Reads return what `add`
    stored. `delete_one` touches only its id. `search` finds exactly the
    matching providers.
  - `RegistryStore.Registry` is the connection object, written as a class
    whose methods update its tables in place.

The values the Python code works on are modelled by module `Json`. It covers
decoded JSON with ordered dictionaries, and Python's subscript, iteration,
`len` and `str()` on them. A subscript can fail with KeyError or TypeError.
The source catches only some of those exceptions, so each model keeps the
difference:

- A caught lookup failure skips one hit, server or record.
- Any other exception ends the whole call. Discovery then returns
  `Err(...)` and yields no endpoints.

Behaviour the code fixes and the model follows:

- **A hit that lacks `paths` ends the whole discovery.** Per-entry
  processing is sometimes described as tolerant of every malformed entry.
  But the code looks up `hit["paths"]` at kp_registry/main.py:222 outside
  every handler, so a hit with a title, component "KP" and an accepted
  version but no `paths` raises KeyError. That ends the whole discovery
  (`Discovery.MissingPathsCrashes`, `Discovery.DiscoverCrashIff`). The same
  holds for a hit or server entry of the wrong JSON type.
- **The target version is a parameter.** A target that does not start with
  `d.d` makes the gate at kp_registry/main.py:211 fail with AttributeError
  once a hit reaches it. The model returns that error; it does not exclude
  such targets.
- **A failed `add` is all-or-nothing only in the committed tables.** sqlite
  keeps the rows an `executemany` inserted before the conflicting one, and
  `add` does not roll back.
  - The class therefore separates `view`, what the connection reads, from
    `committed`, what the database holds.
  - A failed `add` leaves `committed` unchanged. Its earlier rows stay in
    `view` until `Close` (`__aexit__`, which closes without committing)
    discards them.
  - The next commit on the same connection, such as a `delete_one`, would
    store them. The service opens one connection per request
    (kp_registry/routers/kps.py:17-20), so the committed tables stay
    all-or-nothing per request.

## Model

| member | source | states |
|---|---|---|
| `Discovery.TargetPrefix` | kp_registry/main.py:208-211 | the target has a leading match of `[0-9]\.[0-9]` exactly when its first three characters are digit, dot, digit, and the match is those three characters |
| `Discovery.MetaKgPrefix` | kp_registry/main.py:222-233 | no prefix exactly when no path ends in `/meta_knowledge_graph`; otherwise the prefix is the first such path without that 21-character suffix, and no earlier path ends in it |
| `Discovery.StripSlash` | kp_registry/main.py:239-240 | the url is unchanged exactly when it does not end in '/'; otherwise exactly one trailing '/' is removed |
| `Discovery.RetrieveKpEndpoints` | kp_registry/main.py:161-277 | the hit loop returns the endpoints of every kept hit, in hit order; a non-dictionary response or missing `hits` raises; the first uncaught exception ends the discovery |
| `Discovery.ProcessHit` | kp_registry/main.py:162-233 | the loop body with its `continue`s follows the gate chain: no title skips, a non-dictionary raises TypeError, infores and `_id` fall back, a missing or non-"KP" component skips, a missing or mismatching version skips, a non-string version raises AttributeError |
| `Discovery.ProcessPaths` | kp_registry/main.py:218-233 | an absent `paths` raises KeyError, a non-dictionary one AttributeError, a manifest-less one skips the hit; otherwise the server loop runs with the path prefix and the declared operations (or null) |
| `Discovery.ProcessServerList` | kp_registry/main.py:234-275 | a hit without `servers` is skipped, a non-iterable `servers` raises; otherwise the server loop decides the hit, with titles disambiguated when there is more than one server |
| `Discovery.CollectServers` | kp_registry/main.py:235-268 | the server loop appends one endpoint per server with a url and skips servers without one; a malformed server ends the loop with its exception |
| `Discovery.ServersCrashIff` | kp_registry/main.py:235-247 | the server loop raises exactly when some server entry is not a dictionary or has a non-string `url` |
| `Discovery.ServersOnePerUrl` | kp_registry/main.py:234-268 | a loop without a crash yields exactly one endpoint per server with a url, in server order, namely the one built from that server |
| `Discovery.ServerEndpointMade` | kp_registry/main.py:236-268 | the endpoint built from a server has url = server url + prefix minus one trailing '/', maturity defaulting to "production", the title suffixed with the maturity exactly when there are several servers, and the hit's id, infores, operations and version |
| `Discovery.NoTitleSkipped` | kp_registry/main.py:163-167 | a hit without `info.title` is skipped and contributes no endpoints |
| `Discovery.NotKpSkipped` | kp_registry/main.py:183-198 | a titled hit whose component is not "KP" is skipped |
| `Discovery.KeptGates` | kp_registry/main.py:163-217 | a kept hit has a title, component "KP", and a string version starting with the target's `d.d` and a dot |
| `Discovery.KeptDefaults` | kp_registry/main.py:168-221 | every endpoint of a kept hit carries `_id` or else the title, `infores` or else "infores:" + id, the version, and the declared operations or else null |
| `Discovery.KeptServers` | kp_registry/main.py:222-275 | a kept hit has a manifest path and a `servers` list and yields exactly one endpoint per server with a url, in order, with the url built from server url and prefix, and the title suffixed with the maturity exactly when there are several servers |
| `Discovery.MissingPathsCrashes` | kp_registry/main.py:222 | a hit that passes every gate but has no `paths` raises KeyError, which no handler catches |
| `Discovery.VersionGateExamples` | kp_registry/main.py:199-217 | with target "1.3.0" the gate accepts "1.3.5" and rejects "1.4.0", "1.30.0" and "1.3" |
| `Discovery.AccumulateAppend` | kp_registry/main.py:162-277 | the endpoints of two runs of hits are the concatenation of each run's endpoints; the first crash wins |
| `Discovery.SkippedHitContributesNothing` | kp_registry/main.py:162-277 | removing a skipped hit from the input leaves the discovery's result unchanged |
| `Discovery.AccumulateCrashIff` | kp_registry/main.py:162-277 | the hit loop fails exactly when some hit's outcome is an uncaught exception |
| `Discovery.DiscoverCrashIff` | kp_registry/main.py:162-277 | the discovery over a list of hits fails exactly when some hit raises an exception that is not caught |
| `Registration.Manifest` | kp_registry/main.py:58-98 | a fetch yields a manifest exactly when it did not raise, its status is below 300 and its body is JSON; schema validation never rejects it |
| `Registration.AllOfSpec` | kp_registry/main.py:106-118 | a comprehension over edges or nodes succeeds exactly when no element raises, and then holds one value per element, in element order |
| `Registration.RegisterEndpoints` | kp_registry/main.py:45-130 | the two loops (fetch filtering, then record building) produce the title-keyed map of records of the endpoints that get one |
| `Registration.KeepManifests` | kp_registry/main.py:45-98 | the first loop keeps, in order, each endpoint whose fetch did not raise, answered below 300 and decoded as JSON, paired with that JSON |
| `Registration.BuildRecords` | kp_registry/main.py:99-128 | the second loop stores each record that can be built under its endpoint's title, in order, and skips the others |
| `Registration.CollectMetaKgs` | kp_registry/main.py:99-130 | building records from the filtered (endpoint, manifest) pairs gives the same map as deciding each endpoint in one pass |
| `Registration.RecordContents` | kp_registry/main.py:101-120 | a record's url is the endpoint url + "/query", it keeps infores and maturity, has one operation per edge in order, and maps each node category to its `id_prefixes` |
| `Registration.RecordDefinedIff` | kp_registry/main.py:101-128 | a record is built exactly when `edges` is iterable with only readable edges, `nodes` is a dictionary of nodes with `id_prefixes`, and the title is hashable |
| `Registration.StoreKeys` | kp_registry/main.py:99-102 | a title is stored exactly when some contribution with that title carries a record |
| `Registration.StoreLastWins` | kp_registry/main.py:99-102 | a title holds the record of the last contribution with that title |
| `Registration.StoreAppend` | kp_registry/main.py:99-128 | storing two runs of contributions gives the first run's map overridden by the second's |
| `Registration.RegisteredKeys` | kp_registry/main.py:99-120 | a title is a key of the result exactly when some endpoint with that title got a record |
| `Registration.RegisteredLastWins` | kp_registry/main.py:99-102 | the record stored under a title is that of the last endpoint with that title that got a record |
| `Registration.RegisteredAppend` | kp_registry/main.py:45-130 | registering two runs of endpoints gives the first run's map overridden by the second's |
| `Registration.DroppedAlone` | kp_registry/main.py:58-128 | an endpoint that gets no record is dropped alone: the others register exactly as without it |
| `RegistryTables.InsertRowsSpec` | kp_registry/registry.py:36-52 | a many-row insert under a UNIQUE key adds a prefix of the rows, all of them exactly when no key would occur twice, and keeps the table's keys unique |
| `RegistryTables.InsertRowsRejected` | kp_registry/registry.py:123-130 | a rejected insert stops at its conflict: the row right after the inserted ones has a key the table already holds |
| `RegistryTables.GetOne` | kp_registry/registry.py:82-109 | an unknown id raises TypeError; otherwise one entry per operation row of the id, in the model's scan order (insertion order), each carrying the details of the first of the id's provider rows in that order |
| `RegistryLaws.OpsOfCount` | kp_registry/registry.py:90-98 | the operations listed for an id hold each operation as often as the table holds that id's row for it |
| `RegistryLaws.GetOneUpToOrder` | kp_registry/registry.py:82-109 | for a stored id, whatever the scan order: each operation appears in the answer as often as the table holds its row for that id, and every entry carries the details of one stored row of that id |
| `RegistryTables.Merge` | kp_registry/registry.py:185-190 | the merged value has "url" from the details if they have one, else the row's url, and every other key as in the details |
| `RegistryLaws.AddSpec` | kp_registry/registry.py:111-150 | `add` succeeds exactly when no (id, url) pair and no operation tuple would be stored twice, within the batch or against stored rows, and then appends all the batch's rows; the store stays valid either way |
| `RegistryLaws.AddedTables` | kp_registry/registry.py:111-150 | a successful `add` appends every provider row and every operation row of the batch, in batch order |
| `RegistryLaws.BatchRowWithId` | kp_registry/registry.py:113-120 | in a batch of distinct ids, the only provider row of an id is the one built from its entry |
| `RegistryLaws.AddedProviderRow` | kp_registry/registry.py:113-129 | after a successful add of a fresh id, its first and its last provider row are the submitted one |
| `RegistryLaws.AddedOperationRows` | kp_registry/registry.py:131-147 | after a successful add of a fresh id, its operation rows are exactly the submitted operations, in order, and the store is valid |
| `RegistryLaws.BatchRowsOwned` | kp_registry/registry.py:111-147 | every stored operation and every inserted operation of a batch names a stored provider or one of the batch's providers |
| `RegistryLaws.AddThenGetAll` | kp_registry/registry.py:55-80 | after a successful add of a fresh id, `get_all` holds the submitted url, the details (`{}` when none were given) and exactly the submitted operations, in order |
| `RegistryLaws.AddThenGetOne` | kp_registry/registry.py:82-109 | after a successful add of a fresh id, `get_one` lists exactly the submitted operations (as a multiset; in submission order under the model's scan order), each with the submitted details |
| `RegistryLaws.DeleteOneSpec` | kp_registry/registry.py:152-164 | `delete_one` keeps the store valid, removes exactly the id's rows from both tables, and leaves every other id's `get_all` entry and `get_one` answer unchanged |
| `RegistryLaws.DeleteUnknownIsNoop` | kp_registry/registry.py:152-164 | deleting an id that is not stored changes nothing |
| `RegistryLaws.DeleteAllSpec` | kp_registry/registry.py:193-201 | after `delete_all` the store is valid, `get_all` is empty and every search is empty |
| `RegistryLaws.GetAllSpec` | kp_registry/registry.py:55-80 | `get_all` raises KeyError exactly when an operation names no stored provider; on a valid store it has one entry per stored id, with url and details of one of its rows and exactly its operations |
| `RegistryLaws.OpsOfMembers` | kp_registry/registry.py:69-79 | the operations listed for an id are exactly the operation rows of that id |
| `RegistryLaws.JoinRowsMembers` | kp_registry/registry.py:171-178 | the joined rows are exactly the provider rows whose id has an operation lying in the pattern |
| `RegistryLaws.RowsToDictSpec` | kp_registry/registry.py:185-191 | the comprehension succeeds exactly when every row's details are a dictionary; its keys are the rows' ids, each mapped to the merge of one of its rows |
| `RegistryLaws.SearchSpec` | kp_registry/registry.py:166-191 | `search` returns exactly the stored ids with an operation in S × E × T, each mapped to url merged with details of one of its rows; TypeError exactly when a matched row's details are not a dictionary |
| `RegistryLaws.SearchEmptyPattern` | kp_registry/registry.py:168-178 | an empty list of categories in any position gives an empty result |
| `RegistryStore.Registry.Open` | kp_registry/registry.py:21-53 | a new connection reads and holds the given valid tables |
| `RegistryStore.Registry.Add` | kp_registry/registry.py:111-150 | inserts the batch row by row; on success commits the tables `add` specifies; on a conflict answers "already exists", leaves the committed tables unchanged and the connection's view holding the rows inserted before the conflict; validity is kept |
| `RegistryStore.Registry.DeleteOne` | kp_registry/registry.py:152-164 | removes the id's rows from both tables and commits; validity is kept |
| `RegistryStore.Registry.DeleteAll` | kp_registry/registry.py:193-201 | empties both tables and commits |
| `RegistryStore.Registry.GetAll` | kp_registry/registry.py:55-80 | the two loops over the provider rows and the operation rows return what `get_all` specifies, including the KeyError of an orphaned operation |
| `RegistryStore.Registry.Close` | kp_registry/registry.py:28-32 | closing without commit discards what was not committed |

## Left out

- Network I/O and concurrency are not modelled:
  - the SmartAPI query and its fallback (kp_registry/main.py:142-160);
  - the concurrent manifest fetches (kp_registry/main.py:30-44).
  The decoded directory response and the outcome of each fetch are inputs.
- Logging has no effect on results and is not modelled.
- `MetaKnowledgeGraph.parse_obj` comes from an external library, and the
  code ignores its outcome. It is not modelled.
- `os.getenv("KP_TRAPI_VERSION")` and the regular expression are not
  modelled. The target version is a parameter.
- JSON numbers are integers only; floating point is not modelled.
- Dictionary-key collisions between equal values of different types (`1`,
  `1.0`, `True`) are not modelled.
- A JSON object is assumed to have distinct keys. With a repeated key, the
  model's lookup takes the first occurrence.
- `str()` of a non-string value is approximated: no quote escaping, and
  integers only. This affects only titles suffixed with a maturity and
  default infores built from a non-string title, `_id` or maturity.
- The version gate's two possible failures are not told apart.
  `version.startswith` on a non-string and `.group()` on a `None` regex
  match both raise AttributeError, so their order does not matter.
- SQL text and sqlite internals are not modelled. Tables are row sequences
  in insertion order, and a table scan returns them in that order.
- RegistryTables.GetOne: lists the rows in insertion order. The two
  queries of `get_one` have no ORDER BY and filter on the leading column of
  a UNIQUE constraint, so sqlite may answer from that index instead, giving
  the provider rows by url and the operations sorted by category. The
  order-free content is stated by `RegistryLaws.GetOneUpToOrder`.
- RegistryLaws.AddThenGetOne: its in-order clause holds for the model's
  insertion-order scan only; its multiset clause and the details hold
  whatever the order.
- `json.dumps` and `json.loads` of `details` are not modelled; details are
  stored as the JSON value itself.
- `str(uid)` in `get_one` is the identity, because ids are strings.
- `add` takes well-formed provider records: each has a url, operations
  whose three categories are strings, and optional details. A record
  lacking `url` or `operations` would raise KeyError, which is not modelled.
- The `raise err` branches of `add` are not modelled. The tables have no
  constraint other than UNIQUE, so they cannot be reached.
- `search`'s join order is chosen by sqlite's planner, and `SELECT
  DISTINCT` only removes repeated rows. The model joins in operation-table
  order and keeps the repeats, which the dictionary absorbs.
- RegistryLaws.SearchSpec: when an id has several provider rows (the same
  id under different urls), it states only that the value merges one of
  them. Which one wins depends on the join order.
- RegistryLaws.AddThenGetAll: stated for an id not stored before. An `add`
  of a stored id under a new url succeeds. `get_all` then reports the
  newest row with the operations of both, while `get_one` carries the
  details of whichever of the id's rows its query returns first.
- RegistryLaws.AddThenGetOne: also stated only for an id not stored
  before, for the same reason.
- Several simultaneous connections to one database are not modelled.
  `Registry` is one connection, and its `committed` tables are the
  database.
- The two components are not wired together. `register_endpoints`
  produces `subject_category` / `predicate` / `object_category` keys, while
  the store uses `source_type` / `edge_type` / `target_type`.
- Not modelled: the FastAPI routers and servers (kp_registry/routers/kps.py,
  kp_registry/server.py, server.py, main.py), the OpenAPI decoration
  (kp_registry/trapi_openapi.py), and the pydantic declarations, settings
  and packaging (kp_registry/models.py, kp_registry/config.py, setup.py).
- Maturity-preference search is described for the service, but
  `search` has no maturity argument, so it is not modelled.

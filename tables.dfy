/**
 * The two tables of the KP registry's store and the queries over them
 * (kp_registry/registry.py).
 *
 * `knowledge_providers(id, url, details)` is unique on the pair (id, url),
 * not on id alone; `operations(kp, source_type, edge_type, target_type)` is
 * unique on all four columns.  Tables are sequences of rows in insertion
 * order, which is the order a scan of the table returns them in.
 */
module RegistryTables {
  import opened Json

  /** A row of `knowledge_providers`; `details` is the JSON the row stores. */
  datatype ProviderRow = ProviderRow(id: string, url: string, details: Json)

  /** The three categories of an operation. */
  datatype OpTriple = OpTriple(sourceType: string, edgeType: string, targetType: string)

  /** A row of `operations`. */
  datatype OperationRow = OperationRow(kp: string, op: OpTriple)

  datatype Tables = Tables(providers: seq<ProviderRow>, operations: seq<OperationRow>)

  /** One provider of an `add` batch: its url, its `details` if given, and its operations. */
  datatype KpInput = KpInput(url: string, details: Option<Json>, operations: seq<OpTriple>)

  /** What `get_all` returns for one provider id. */
  datatype Entry = Entry(url: string, details: Json, operations: seq<OpTriple>)

  /** What `get_one` returns for one operation of the provider. */
  datatype OneEntry = OneEntry(op: OpTriple, details: Json)

  /** The outcome of an insert of many rows under a uniqueness constraint. */
  datatype Insertion<R> = Inserted(table: seq<R>) | Rejected(table: seq<R>)

  /** The outcome of `add`, with the tables the connection sees afterwards. */
  datatype AddOutcome = Added(tables: Tables) | AlreadyExists(tables: Tables)

  // ---------------------------------------------------------------------
  // Uniqueness constraints

  /** The uniqueness key of `knowledge_providers`: UNIQUE(id, url). */
  function ProviderKey(p: ProviderRow): (string, string)
  {
    (p.id, p.url)
  }

  /** The uniqueness key of `operations`: the whole row. */
  function OperationKey(o: OperationRow): OperationRow
  {
    o
  }

  function KeysOf<R, K>(rows: seq<R>, key: R -> K): (r: seq<K>)
    ensures |r| == |rows|
    ensures forall i :: 0 <= i < |rows| ==> r[i] == key(rows[i])
  {
    seq(|rows|, i requires 0 <= i < |rows| => key(rows[i]))
  }

  predicate Distinct<K(==)>(keys: seq<K>)
  {
    forall i, j :: 0 <= i < j < |keys| ==> keys[i] != keys[j]
  }

  /**
   * `executemany(INSERT ...)` under a uniqueness key: rows go in one at a
   * time, and the first row whose key is already present is rejected,
   * leaving the rows inserted before it in place.
   */
  function InsertRows<R, K(==)>(table: seq<R>, rows: seq<R>, key: R -> K): Insertion<R>
    decreases |rows|
  {
    if rows == [] then Inserted(table)
    else if key(rows[0]) in KeysOf(table, key) then Rejected(table)
    else InsertRows(table + [rows[0]], rows[1..], key)
  }

  /**
   * An insert adds a prefix of the rows, all of them when it succeeds; it
   * succeeds exactly when no key would occur twice, within the rows or
   * against the table; and it keeps the table's keys unique.
   */
  lemma {:induction false} InsertRowsSpec<R, K>(table: seq<R>, rows: seq<R>, key: R -> K)
    requires Distinct(KeysOf(table, key))
    ensures var r := InsertRows(table, rows, key);
      && |table| <= |r.table| <= |table| + |rows|
      && r.table == table + rows[..|r.table| - |table|]
      && (r.Inserted? ==> r.table == table + rows)
      && Distinct(KeysOf(r.table, key))
      && (r.Inserted? <==> Distinct(KeysOf(table + rows, key)))
    decreases |rows|
  {
    if rows != [] {
      var first := rows[0];
      var ks := KeysOf(table, key);
      if key(first) in ks {
        var i :| 0 <= i < |ks| && ks[i] == key(first);
        var all := KeysOf(table + rows, key);
        assert all[i] == all[|table|];
      } else {
        var next := table + [first];
        DistinctAppendKey(table, first, key);
        InsertRowsSpec(next, rows[1..], key);
        assert next + rows[1..] == table + rows;
        var r := InsertRows(next, rows[1..], key);
        assert r.table == next + rows[1..][..|r.table| - |next|];
        assert rows[1..][..|r.table| - |next|] == rows[1..|r.table| - |table|];
        assert rows[..|r.table| - |table|] == [first] + rows[1..|r.table| - |table|];
      }
    }
  }

  /** A row whose key is new keeps the table's keys unique. */
  lemma DistinctAppendKey<R, K>(table: seq<R>, row: R, key: R -> K)
    requires Distinct(KeysOf(table, key)) && key(row) !in KeysOf(table, key)
    ensures Distinct(KeysOf(table + [row], key))
  {
    var ks := KeysOf(table, key);
    var nk := KeysOf(table + [row], key);
    forall i, j | 0 <= i < j < |nk| ensures nk[i] != nk[j] {
      if j == |table| {
        assert nk[i] == ks[i];
      }
    }
  }

  /**
   * A rejected insert stops at its conflict: the row right after the
   * inserted ones has a key the table then already holds.
   */
  lemma {:induction false} InsertRowsRejected<R, K>(table: seq<R>, rows: seq<R>, key: R -> K)
    ensures var r := InsertRows(table, rows, key);
      r.Rejected? ==>
        && |table| <= |r.table| < |table| + |rows|
        && key(rows[|r.table| - |table|]) in KeysOf(r.table, key)
    decreases |rows|
  {
    if rows != [] && key(rows[0]) !in KeysOf(table, key) {
      var next := table + [rows[0]];
      InsertRowsRejected(next, rows[1..], key);
      var r := InsertRows(next, rows[1..], key);
      if r.Rejected? {
        assert rows[1..][|r.table| - |next|] == rows[|r.table| - |table|];
      }
    }
  }

  // ---------------------------------------------------------------------
  // The store's invariant

  function Ids(providers: seq<ProviderRow>): set<string>
  {
    set p | p in providers :: p.id
  }

  /** Every operation row names a stored provider id (what `get_all` relies on). */
  predicate Referential(t: Tables)
  {
    forall o :: o in t.operations ==> o.kp in Ids(t.providers)
  }

  /** Both uniqueness constraints hold and every operation belongs to a stored provider. */
  predicate Valid(t: Tables)
  {
    && Distinct(KeysOf(t.providers, ProviderKey))
    && Distinct(KeysOf(t.operations, OperationKey))
    && Referential(t)
  }

  // ---------------------------------------------------------------------
  // add

  /** `kp.get('details', {})`. */
  function DetailsOf(kp: KpInput): Json
  {
    match kp.details
    case Some(d) => d
    case None => JObj([])
  }

  /** The batch's ids are distinct, as keyword arguments always are. */
  predicate DistinctIds(batch: seq<(string, KpInput)>)
  {
    forall i, j :: 0 <= i < j < |batch| ==> batch[i].0 != batch[j].0
  }

  /** The `knowledge_providers` rows of a batch, in batch order (kp_registry/registry.py:113-120). */
  function ProviderValues(batch: seq<(string, KpInput)>): (r: seq<ProviderRow>)
    ensures |r| == |batch|
    ensures forall i :: 0 <= i < |batch| ==> r[i] == ProviderRow(batch[i].0, batch[i].1.url, DetailsOf(batch[i].1))
  {
    seq(|batch|, i requires 0 <= i < |batch| => ProviderRow(batch[i].0, batch[i].1.url, DetailsOf(batch[i].1)))
  }

  /** The `operations` rows of one provider of a batch. */
  function RowsFor(uid: string, ops: seq<OpTriple>): (r: seq<OperationRow>)
    ensures |r| == |ops|
    ensures forall j :: 0 <= j < |ops| ==> r[j] == OperationRow(uid, ops[j])
  {
    seq(|ops|, j requires 0 <= j < |ops| => OperationRow(uid, ops[j]))
  }

  /** The `operations` rows of a batch, provider by provider (kp_registry/registry.py:131-139). */
  function OperationValues(batch: seq<(string, KpInput)>): seq<OperationRow>
    decreases |batch|
  {
    if batch == [] then []
    else
      var n := |batch| - 1;
      OperationValues(batch[..n]) + RowsFor(batch[n].0, batch[n].1.operations)
  }

  /**
   * `add` (kp_registry/registry.py:111-150): insert the provider rows, then
   * the operation rows; a uniqueness failure in either stops there with
   * "KP already exists", leaving what was inserted before it uncommitted.
   */
  function AddBatch(t: Tables, batch: seq<(string, KpInput)>): AddOutcome
  {
    match InsertRows(t.providers, ProviderValues(batch), ProviderKey)
    case Rejected(ps) => AlreadyExists(Tables(ps, t.operations))
    case Inserted(ps) =>
      match InsertRows(t.operations, OperationValues(batch), OperationKey)
      case Rejected(os) => AlreadyExists(Tables(ps, os))
      case Inserted(os) => Added(Tables(ps, os))
  }

  // ---------------------------------------------------------------------
  // delete_one, delete_all

  /** The provider rows whose id is not `uid`, in order. */
  function ProvidersWithout(ps: seq<ProviderRow>, uid: string): seq<ProviderRow>
    decreases |ps|
  {
    if ps == [] then []
    else
      var n := |ps| - 1;
      ProvidersWithout(ps[..n], uid) + (if ps[n].id != uid then [ps[n]] else [])
  }

  /** The operation rows whose provider is not `uid`, in order. */
  function OperationsWithout(os: seq<OperationRow>, uid: string): seq<OperationRow>
    decreases |os|
  {
    if os == [] then []
    else
      var n := |os| - 1;
      OperationsWithout(os[..n], uid) + (if os[n].kp != uid then [os[n]] else [])
  }

  /** `delete_one(uid)` (kp_registry/registry.py:152-164). */
  function DeleteOne(t: Tables, uid: string): Tables
  {
    Tables(ProvidersWithout(t.providers, uid), OperationsWithout(t.operations, uid))
  }

  /** `delete_all()` (kp_registry/registry.py:193-201). */
  function DeleteAll(t: Tables): (r: Tables)
    ensures r.providers == [] && r.operations == []
  {
    Tables([], [])
  }

  // ---------------------------------------------------------------------
  // get_all

  /** The last row with a given id: the one whose url and details `get_all` keeps. */
  function LastWithId(ps: seq<ProviderRow>, id: string): (r: Option<ProviderRow>)
    ensures r.None? <==> id !in Ids(ps)
    ensures r.Some? ==> r.value in ps && r.value.id == id
    decreases |ps|
  {
    if ps == [] then None
    else
      var n := |ps| - 1;
      if ps[n].id == id then Some(ps[n])
      else
        var r := LastWithId(ps[..n], id);
        assert forall p :: p in ps ==> p in ps[..n] || p == ps[n];
        r
  }

  /** The operations of one provider id, in table order. */
  function OpsOf(os: seq<OperationRow>, id: string): seq<OpTriple>
    decreases |os|
  {
    if os == [] then []
    else
      var n := |os| - 1;
      OpsOf(os[..n], id) + (if os[n].kp == id then [os[n].op] else [])
  }

  /**
   * The dictionary `get_all` builds from the provider rows `ps` and the
   * operation rows `os`: per id, the url and details of its last row and
   * its operations in table order.
   */
  function EntryMap(ps: seq<ProviderRow>, os: seq<OperationRow>): map<string, Entry>
  {
    map id | id in Ids(ps) :: Entry(LastWithId(ps, id).value.url, LastWithId(ps, id).value.details, OpsOf(os, id))
  }

  /**
   * `get_all` (kp_registry/registry.py:55-80): one entry per stored id;
   * KeyError when an operation names an id with no provider row.
   */
  function Entries(t: Tables): Result<map<string, Entry>, PyError>
  {
    if Referential(t) then Ok(EntryMap(t.providers, t.operations))
    else Err(KeyError)
  }

  // ---------------------------------------------------------------------
  // get_one

  /** The first row with a given id: the one `fetchone()` returns. */
  function FirstWithId(ps: seq<ProviderRow>, id: string): (r: Option<ProviderRow>)
    ensures r.None? <==> id !in Ids(ps)
    ensures r.Some? ==> r.value in ps && r.value.id == id
    decreases |ps|
  {
    if ps == [] then None
    else
      var n := |ps| - 1;
      assert forall p :: p in ps ==> p in ps[..n] || p == ps[n];
      match FirstWithId(ps[..n], id)
      case Some(p) => Some(p)
      case None => if ps[n].id == id then Some(ps[n]) else None
  }

  /**
   * `get_one(uid)` (kp_registry/registry.py:82-109): one entry per
   * operation of `uid`, each carrying the details of the first provider row
   * with that id; an unknown uid makes `kp["id"]` fail on None (TypeError).
   */
  function GetOne(t: Tables, uid: string): (r: Result<seq<OneEntry>, PyError>)
    ensures r.Err? <==> uid !in Ids(t.providers)
    ensures r.Err? ==> r.error == TypeError
    ensures r.Ok? ==> |r.value| == |OpsOf(t.operations, uid)|
    ensures r.Ok? ==> forall k :: 0 <= k < |r.value| ==>
      r.value[k].op == OpsOf(t.operations, uid)[k]
      && r.value[k].details == FirstWithId(t.providers, uid).value.details
  {
    match FirstWithId(t.providers, uid)
    case None => Err(TypeError)
    case Some(kp) =>
      var ops := OpsOf(t.operations, uid);
      Ok(seq(|ops|, k requires 0 <= k < |ops| => OneEntry(ops[k], kp.details)))
  }

  /** The operations a `get_one` answer lists, in its order. */
  function EntryOps(entries: seq<OneEntry>): seq<OpTriple>
  {
    seq(|entries|, i requires 0 <= i < |entries| => entries[i].op)
  }

  // ---------------------------------------------------------------------
  // search

  /** An operation lies in the searched pattern when each category is among the requested ones. */
  predicate InPattern(op: OpTriple, sources: set<string>, edges: set<string>, targets: set<string>)
  {
    op.sourceType in sources && op.edgeType in edges && op.targetType in targets
  }

  function ProvidersWithId(ps: seq<ProviderRow>, id: string): (r: seq<ProviderRow>)
    ensures forall p :: p in r <==> p in ps && p.id == id
    decreases |ps|
  {
    if ps == [] then []
    else
      var n := |ps| - 1;
      ProvidersWithId(ps[..n], id) + (if ps[n].id == id then [ps[n]] else [])
  }

  /**
   * The rows of the join `operations JOIN knowledge_providers ON id = kp`
   * whose operation lies in the pattern, projected on (id, url, details),
   * operation by operation.  DISTINCT only removes repeats of a row, which
   * the dictionary built from the rows absorbs, so it is not applied here.
   */
  function JoinRows(t: Tables, sources: set<string>, edges: set<string>, targets: set<string>): seq<ProviderRow>
    decreases |t.operations|
  {
    if t.operations == [] then []
    else
      var n := |t.operations| - 1;
      var o := t.operations[n];
      JoinRows(Tables(t.providers, t.operations[..n]), sources, edges, targets)
        + (if InPattern(o.op, sources, edges, targets) then ProvidersWithId(t.providers, o.kp) else [])
  }

  /** `{'url': url, **details}`: "url" first, overridden by a "url" key of the details. */
  function Merge(p: ProviderRow): (r: Json)
    requires p.details.JObj?
    ensures r.JObj?
    ensures Get(r, "url") == (if Get(p.details, "url").Found? then Get(p.details, "url") else Found(JStr(p.url)))
    ensures forall k :: k != "url" ==> Get(r, k) == Get(p.details, k)
  {
    var fields := p.details.fields;
    var url := match Field(fields, "url") case Some(u) => u case None => JStr(p.url);
    var rest := WithoutKey(fields, "url");
    FieldWithoutKey(fields, "url");
    JObj([("url", url)] + rest)
  }

  function WithoutKey(fields: seq<(string, Json)>, key: string): seq<(string, Json)>
    decreases |fields|
  {
    if fields == [] then []
    else (if fields[0].0 == key then [] else [fields[0]]) + WithoutKey(fields[1..], key)
  }

  lemma {:induction false} FieldWithoutKey(fields: seq<(string, Json)>, key: string)
    ensures forall k :: k != key ==> Field(WithoutKey(fields, key), k) == Field(fields, k)
    decreases |fields|
  {
    if fields != [] {
      FieldWithoutKey(fields[1..], key);
      var w := WithoutKey(fields, key);
      if fields[0].0 != key {
        assert w[1..] == WithoutKey(fields[1..], key);
      } else {
        assert w == WithoutKey(fields[1..], key);
      }
    }
  }

  /**
   * The dictionary comprehension over the joined rows: each row's id maps
   * to its url merged with its details, later rows replacing earlier ones;
   * details that are not a dictionary make `**` raise TypeError.
   */
  function RowsToDict(rows: seq<ProviderRow>): Result<map<string, Json>, PyError>
    decreases |rows|
  {
    if rows == [] then Ok(map[])
    else
      var n := |rows| - 1;
      match RowsToDict(rows[..n])
      case Err(e) => Err(e)
      case Ok(m) => if rows[n].details.JObj? then Ok(m[rows[n].id := Merge(rows[n])]) else Err(TypeError)
  }

  /** `search(source_type, edge_type, target_type)` (kp_registry/registry.py:166-191). */
  function Search(t: Tables, sources: set<string>, edges: set<string>, targets: set<string>): Result<map<string, Json>, PyError>
  {
    RowsToDict(JoinRows(t, sources, edges, targets))
  }
}

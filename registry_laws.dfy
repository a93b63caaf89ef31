/**
 * What the KP registry's store promises (kp_registry/registry.py): its
 * invariant survives every update, `add` fails exactly on a uniqueness
 * conflict, reads return what `add` stored, `delete_one` touches only the
 * given id, and `search` finds exactly the providers with a matching
 * operation.
 */
module RegistryLaws {
  import opened Json
  import opened RegistryTables

  // ---------------------------------------------------------------------
  // Helpers about keys and row filters

  lemma KeysOfPrefix<R, K>(rows: seq<R>, n: nat, key: R -> K)
    requires n <= |rows|
    ensures KeysOf(rows[..n], key) == KeysOf(rows, key)[..n]
  {
  }

  lemma DistinctSnoc<R, K>(rows: seq<R>, x: R, key: R -> K)
    requires Distinct(KeysOf(rows, key))
    requires forall r :: r in rows ==> key(r) != key(x)
    ensures Distinct(KeysOf(rows + [x], key))
  {
    var ks := KeysOf(rows + [x], key);
    forall i, j | 0 <= i < j < |ks| ensures ks[i] != ks[j] {
      if j == |rows| {
        assert (rows + [x])[i] == rows[i];
        assert rows[i] in rows;
      } else {
        assert KeysOf(rows, key)[i] == ks[i] && KeysOf(rows, key)[j] == ks[j];
      }
    }
  }

  lemma {:induction false} ProvidersWithoutMembers(ps: seq<ProviderRow>, uid: string)
    ensures forall p :: p in ProvidersWithout(ps, uid) <==> p in ps && p.id != uid
    decreases |ps|
  {
    if ps != [] {
      var n := |ps| - 1;
      ProvidersWithoutMembers(ps[..n], uid);
      assert forall p :: p in ps <==> p in ps[..n] || p == ps[n];
    }
  }

  lemma {:induction false} OperationsWithoutMembers(os: seq<OperationRow>, uid: string)
    ensures forall o :: o in OperationsWithout(os, uid) <==> o in os && o.kp != uid
    decreases |os|
  {
    if os != [] {
      var n := |os| - 1;
      OperationsWithoutMembers(os[..n], uid);
      assert forall o :: o in os <==> o in os[..n] || o == os[n];
    }
  }

  lemma {:induction false} ProvidersWithoutDistinct(ps: seq<ProviderRow>, uid: string)
    requires Distinct(KeysOf(ps, ProviderKey))
    ensures Distinct(KeysOf(ProvidersWithout(ps, uid), ProviderKey))
    decreases |ps|
  {
    if ps != [] {
      var n := |ps| - 1;
      KeysOfPrefix(ps, n, ProviderKey);
      ProvidersWithoutDistinct(ps[..n], uid);
      if ps[n].id != uid {
        ProvidersWithoutMembers(ps[..n], uid);
        forall r | r in ProvidersWithout(ps[..n], uid) ensures ProviderKey(r) != ProviderKey(ps[n]) {
          var i :| 0 <= i < n && ps[..n][i] == r;
          assert KeysOf(ps, ProviderKey)[i] != KeysOf(ps, ProviderKey)[n];
        }
        DistinctSnoc(ProvidersWithout(ps[..n], uid), ps[n], ProviderKey);
      }
    }
  }

  lemma {:induction false} OperationsWithoutDistinct(os: seq<OperationRow>, uid: string)
    requires Distinct(KeysOf(os, OperationKey))
    ensures Distinct(KeysOf(OperationsWithout(os, uid), OperationKey))
    decreases |os|
  {
    if os != [] {
      var n := |os| - 1;
      KeysOfPrefix(os, n, OperationKey);
      OperationsWithoutDistinct(os[..n], uid);
      if os[n].kp != uid {
        OperationsWithoutMembers(os[..n], uid);
        forall r | r in OperationsWithout(os[..n], uid) ensures OperationKey(r) != OperationKey(os[n]) {
          var i :| 0 <= i < n && os[..n][i] == r;
          assert KeysOf(os, OperationKey)[i] != KeysOf(os, OperationKey)[n];
        }
        DistinctSnoc(OperationsWithout(os[..n], uid), os[n], OperationKey);
      }
    }
  }

  lemma {:induction false} ProvidersWithoutAbsent(ps: seq<ProviderRow>, uid: string)
    requires forall i :: 0 <= i < |ps| ==> ps[i].id != uid
    ensures ProvidersWithout(ps, uid) == ps
    decreases |ps|
  {
    if ps != [] {
      var n := |ps| - 1;
      ProvidersWithoutAbsent(ps[..n], uid);
      assert ps[..n] + [ps[n]] == ps;
    }
  }

  lemma {:induction false} OperationsWithoutAbsent(os: seq<OperationRow>, uid: string)
    requires forall i :: 0 <= i < |os| ==> os[i].kp != uid
    ensures OperationsWithout(os, uid) == os
    decreases |os|
  {
    if os != [] {
      var n := |os| - 1;
      OperationsWithoutAbsent(os[..n], uid);
      assert os[..n] + [os[n]] == os;
    }
  }

  // ---------------------------------------------------------------------
  // Helpers about the reads

  lemma {:induction false} OpsOfAppend(a: seq<OperationRow>, b: seq<OperationRow>, id: string)
    ensures OpsOf(a + b, id) == OpsOf(a, id) + OpsOf(b, id)
    decreases |b|
  {
    if b == [] {
      assert a + b == a;
    } else {
      var n := |b| - 1;
      assert (a + b)[..|a + b| - 1] == a + b[..n];
      OpsOfAppend(a, b[..n], id);
    }
  }

  lemma {:induction false} OpsOfAbsent(os: seq<OperationRow>, id: string)
    requires forall o :: o in os ==> o.kp != id
    ensures OpsOf(os, id) == []
    decreases |os|
  {
    if os != [] {
      var n := |os| - 1;
      assert os[n] in os;
      assert forall o :: o in os[..n] ==> o in os;
      OpsOfAbsent(os[..n], id);
    }
  }

  /** The operations `get_all` lists for an id are exactly the operation rows of that id. */
  lemma {:induction false} OpsOfMembers(os: seq<OperationRow>, id: string)
    ensures forall op :: op in OpsOf(os, id) <==> OperationRow(id, op) in os
    decreases |os|
  {
    if os != [] {
      var n := |os| - 1;
      OpsOfMembers(os[..n], id);
      assert forall o :: o in os <==> o in os[..n] || o == os[n];
    }
  }

  /** Each operation is listed for an id as often as the table holds its row. */
  lemma {:induction false} OpsOfCount(os: seq<OperationRow>, id: string, op: OpTriple)
    ensures multiset(OpsOf(os, id))[op] == multiset(os)[OperationRow(id, op)]
    decreases |os|
  {
    if os != [] {
      var n := |os| - 1;
      OpsOfCount(os[..n], id, op);
      assert os == os[..n] + [os[n]];
    }
  }

  lemma {:induction false} OpsOfRowsFor(uid: string, ops: seq<OpTriple>, id: string)
    ensures OpsOf(RowsFor(uid, ops), id) == (if id == uid then ops else [])
    decreases |ops|
  {
    if ops != [] {
      var n := |ops| - 1;
      var rows := RowsFor(uid, ops);
      assert rows[..n] == RowsFor(uid, ops[..n]);
      OpsOfRowsFor(uid, ops[..n], id);
      if id == uid {
        assert ops[..n] + [ops[n]] == ops;
      }
    }
  }

  /** Every operation row of a batch belongs to one of the batch's providers. */
  lemma {:induction false} OperationValuesOwners(batch: seq<(string, KpInput)>, o: OperationRow)
    requires o in OperationValues(batch)
    ensures exists i :: 0 <= i < |batch| && batch[i].0 == o.kp
    decreases |batch|
  {
    var n := |batch| - 1;
    if o in OperationValues(batch[..n]) {
      OperationValuesOwners(batch[..n], o);
      var i :| 0 <= i < n && batch[..n][i].0 == o.kp;
      assert batch[i].0 == o.kp;
    } else {
      assert batch[n].0 == o.kp;
    }
  }

  /** The operation rows a batch gives one of its providers are that provider's operations. */
  lemma {:induction false} OpsOfBatch(batch: seq<(string, KpInput)>, k: nat)
    requires DistinctIds(batch)
    requires k < |batch|
    ensures OpsOf(OperationValues(batch), batch[k].0) == batch[k].1.operations
    decreases |batch|
  {
    var n := |batch| - 1;
    var uid := batch[k].0;
    var front := batch[..n];
    assert forall i :: 0 <= i < n ==> front[i] == batch[i];
    assert OperationValues(batch) == OperationValues(front) + RowsFor(batch[n].0, batch[n].1.operations);
    OpsOfAppend(OperationValues(front), RowsFor(batch[n].0, batch[n].1.operations), uid);
    OpsOfRowsFor(batch[n].0, batch[n].1.operations, uid);
    if k == n {
      forall o | o in OperationValues(front) ensures o.kp != uid {
        OperationValuesOwners(front, o);
      }
      OpsOfAbsent(OperationValues(front), uid);
    } else {
      OpsOfBatch(front, k);
    }
  }

  lemma {:induction false} LastWithIdAppend(a: seq<ProviderRow>, b: seq<ProviderRow>, id: string)
    ensures LastWithId(a + b, id) == if id in Ids(b) then LastWithId(b, id) else LastWithId(a, id)
    decreases |b|
  {
    if b == [] {
      assert a + b == a;
    } else {
      var n := |b| - 1;
      assert (a + b)[..|a + b| - 1] == a + b[..n];
      assert forall p :: p in b <==> p in b[..n] || p == b[n];
      LastWithIdAppend(a, b[..n], id);
    }
  }

  lemma {:induction false} FirstWithIdAppend(a: seq<ProviderRow>, b: seq<ProviderRow>, id: string)
    ensures FirstWithId(a + b, id) == if id in Ids(a) then FirstWithId(a, id) else FirstWithId(b, id)
    decreases |b|
  {
    if b == [] {
      assert a + b == a;
    } else {
      var n := |b| - 1;
      assert (a + b)[..|a + b| - 1] == a + b[..n];
      FirstWithIdAppend(a, b[..n], id);
    }
  }

  // ---------------------------------------------------------------------
  // add

  /**
   * `add` succeeds exactly when neither table would hold a key twice — an
   * (id, url) pair already stored or repeated in the batch, or an operation
   * tuple already stored or repeated — and then appends all the batch's
   * rows; either way the store stays valid.
   */
  lemma AddSpec(t: Tables, batch: seq<(string, KpInput)>)
    requires Valid(t)
    ensures var r := AddBatch(t, batch);
      && Valid(r.tables)
      && (r.Added? <==>
            Distinct(KeysOf(t.providers + ProviderValues(batch), ProviderKey))
            && Distinct(KeysOf(t.operations + OperationValues(batch), OperationKey)))
      && (r.Added? ==> r.tables == Tables(t.providers + ProviderValues(batch), t.operations + OperationValues(batch)))
  {
    var pv := ProviderValues(batch);
    var ov := OperationValues(batch);
    InsertRowsSpec(t.providers, pv, ProviderKey);
    var pins := InsertRows(t.providers, pv, ProviderKey);
    assert forall p :: p in t.providers ==> p in pins.table;
    if pins.Rejected? {
      assert !Distinct(KeysOf(t.providers + pv, ProviderKey));
    } else {
      InsertRowsSpec(t.operations, ov, OperationKey);
      var oins := InsertRows(t.operations, ov, OperationKey);
      BatchRowsOwned(t, batch, |oins.table| - |t.operations|);
    }
  }

  /** Stored operations and any prefix of a batch's operations belong to the stored or the batch's providers. */
  lemma BatchRowsOwned(t: Tables, batch: seq<(string, KpInput)>, m: nat)
    requires Referential(t)
    requires m <= |OperationValues(batch)|
    ensures Referential(Tables(t.providers + ProviderValues(batch), t.operations + OperationValues(batch)[..m]))
  {
    var pv := ProviderValues(batch);
    var ov := OperationValues(batch);
    forall o | o in t.operations + ov[..m] ensures o.kp in Ids(t.providers + pv) {
      if o !in t.operations {
        assert o in ov;
        OperationValuesOwners(batch, o);
        var i :| 0 <= i < |batch| && batch[i].0 == o.kp;
        assert (t.providers + pv)[|t.providers| + i] == pv[i];
      }
    }
  }

  /** A successful `add` appends all of the batch's rows. */
  lemma AddedTables(t: Tables, batch: seq<(string, KpInput)>)
    requires Valid(t)
    requires AddBatch(t, batch).Added?
    ensures AddBatch(t, batch).tables == Tables(t.providers + ProviderValues(batch), t.operations + OperationValues(batch))
  {
    InsertRowsSpec(t.providers, ProviderValues(batch), ProviderKey);
    InsertRowsSpec(t.operations, OperationValues(batch), OperationKey);
  }

  /** After a successful `add` of a fresh id, its only provider row is the submitted one. */
  lemma AddedProviderRow(t: Tables, batch: seq<(string, KpInput)>, k: nat)
    requires Valid(t) && DistinctIds(batch) && k < |batch|
    requires batch[k].0 !in Ids(t.providers)
    requires AddBatch(t, batch).Added?
    ensures var t' := AddBatch(t, batch).tables;
      && LastWithId(t'.providers, batch[k].0) == Some(ProviderValues(batch)[k])
      && FirstWithId(t'.providers, batch[k].0) == Some(ProviderValues(batch)[k])
  {
    AddedTables(t, batch);
    var uid := batch[k].0;
    var pv := ProviderValues(batch);
    BatchRowWithId(batch, k);
    LastWithIdAppend(t.providers, pv, uid);
    FirstWithIdAppend(t.providers, pv, uid);
  }

  /** In a batch of distinct ids, the row of an id is the one built from its entry. */
  lemma BatchRowWithId(batch: seq<(string, KpInput)>, k: nat)
    requires DistinctIds(batch) && k < |batch|
    ensures var pv := ProviderValues(batch);
      && batch[k].0 in Ids(pv)
      && LastWithId(pv, batch[k].0) == Some(pv[k])
      && FirstWithId(pv, batch[k].0) == Some(pv[k])
  {
    var uid := batch[k].0;
    var pv := ProviderValues(batch);
    assert pv[k] in pv;
    var last := LastWithId(pv, uid).value;
    var j :| 0 <= j < |pv| && pv[j] == last;
    assert j == k;
    var first := FirstWithId(pv, uid).value;
    var j' :| 0 <= j' < |pv| && pv[j'] == first;
    assert j' == k;
  }

  /** After a successful `add` of a fresh id, its operation rows are exactly the submitted operations. */
  lemma AddedOperationRows(t: Tables, batch: seq<(string, KpInput)>, k: nat)
    requires Valid(t) && DistinctIds(batch) && k < |batch|
    requires batch[k].0 !in Ids(t.providers)
    requires AddBatch(t, batch).Added?
    ensures Valid(AddBatch(t, batch).tables)
    ensures OpsOf(AddBatch(t, batch).tables.operations, batch[k].0) == batch[k].1.operations
  {
    AddSpec(t, batch);
    AddedTables(t, batch);
    var uid := batch[k].0;
    OpsOfAppend(t.operations, OperationValues(batch), uid);
    OpsOfAbsent(t.operations, uid);
    OpsOfBatch(batch, k);
  }

  /**
   * Round trip through `get_all`: after a successful `add` of a fresh id,
   * that id's entry holds the submitted url, the details (`{}` when none
   * were given) and exactly the submitted operations, in order.
   */
  lemma AddThenGetAll(t: Tables, batch: seq<(string, KpInput)>, k: nat)
    requires Valid(t) && DistinctIds(batch) && k < |batch|
    requires batch[k].0 !in Ids(t.providers)
    requires AddBatch(t, batch).Added?
    ensures var r := Entries(AddBatch(t, batch).tables);
      && r.Ok?
      && batch[k].0 in r.value
      && r.value[batch[k].0] == Entry(batch[k].1.url, DetailsOf(batch[k].1), batch[k].1.operations)
  {
    AddedProviderRow(t, batch, k);
    AddedOperationRows(t, batch, k);
    var t' := AddBatch(t, batch).tables;
    assert ProviderValues(batch)[k] in t'.providers;
  }

  /**
   * Round trip through `get_one`: after a successful `add` of a fresh id,
   * `get_one` lists one entry per submitted operation, in order, each
   * carrying the submitted details.
   */
  lemma AddThenGetOne(t: Tables, batch: seq<(string, KpInput)>, k: nat)
    requires Valid(t) && DistinctIds(batch) && k < |batch|
    requires batch[k].0 !in Ids(t.providers)
    requires AddBatch(t, batch).Added?
    ensures var r := GetOne(AddBatch(t, batch).tables, batch[k].0);
      && r.Ok?
      && |r.value| == |batch[k].1.operations|
      && forall i :: 0 <= i < |r.value| ==> r.value[i] == OneEntry(batch[k].1.operations[i], DetailsOf(batch[k].1))
    ensures multiset(EntryOps(GetOne(AddBatch(t, batch).tables, batch[k].0).value)) == multiset(batch[k].1.operations)
  {
    AddedProviderRow(t, batch, k);
    AddedOperationRows(t, batch, k);
    assert EntryOps(GetOne(AddBatch(t, batch).tables, batch[k].0).value) == batch[k].1.operations;
  }

  /**
   * What `get_one` answers whatever order the database scans in: each
   * operation appears as often as the table holds its row for that id, and
   * every entry carries the details of one stored row of that id.
   */
  lemma GetOneUpToOrder(t: Tables, uid: string)
    requires uid in Ids(t.providers)
    ensures GetOne(t, uid).Ok?
    ensures forall op :: multiset(EntryOps(GetOne(t, uid).value))[op] == multiset(t.operations)[OperationRow(uid, op)]
    ensures exists p ::
      && p in t.providers && p.id == uid
      && forall i :: 0 <= i < |GetOne(t, uid).value| ==> GetOne(t, uid).value[i].details == p.details
  {
    var r := GetOne(t, uid).value;
    assert EntryOps(r) == OpsOf(t.operations, uid);
    forall op ensures multiset(EntryOps(r))[op] == multiset(t.operations)[OperationRow(uid, op)] {
      OpsOfCount(t.operations, uid, op);
    }
    var p := FirstWithId(t.providers, uid).value;
    assert p in t.providers && p.id == uid;
  }

  // ---------------------------------------------------------------------
  // delete_one, delete_all

  lemma {:induction false} LastWithIdWithout(ps: seq<ProviderRow>, uid: string, id: string)
    requires id != uid
    ensures LastWithId(ProvidersWithout(ps, uid), id) == LastWithId(ps, id)
    decreases |ps|
  {
    if ps != [] {
      var n := |ps| - 1;
      LastWithIdWithout(ps[..n], uid, id);
      LastWithIdAppend(ProvidersWithout(ps[..n], uid), if ps[n].id != uid then [ps[n]] else [], id);
    }
  }

  lemma {:induction false} FirstWithIdWithout(ps: seq<ProviderRow>, uid: string, id: string)
    requires id != uid
    ensures FirstWithId(ProvidersWithout(ps, uid), id) == FirstWithId(ps, id)
    decreases |ps|
  {
    if ps != [] {
      var n := |ps| - 1;
      FirstWithIdWithout(ps[..n], uid, id);
      FirstWithIdAppend(ProvidersWithout(ps[..n], uid), if ps[n].id != uid then [ps[n]] else [], id);
    }
  }

  lemma {:induction false} OpsOfWithout(os: seq<OperationRow>, uid: string, id: string)
    requires id != uid
    ensures OpsOf(OperationsWithout(os, uid), id) == OpsOf(os, id)
    decreases |os|
  {
    if os != [] {
      var n := |os| - 1;
      OpsOfWithout(os[..n], uid, id);
      OpsOfAppend(OperationsWithout(os[..n], uid), if os[n].kp != uid then [os[n]] else [], id);
    }
  }

  /**
   * `delete_one(uid)` keeps the store valid, removes `uid` from both
   * tables, and leaves every other id's `get_all` entry and `get_one`
   * answer as they were.
   */
  lemma DeleteOneSpec(t: Tables, uid: string)
    requires Valid(t)
    ensures var d := DeleteOne(t, uid);
      && Valid(d)
      && (forall p :: p in d.providers <==> p in t.providers && p.id != uid)
      && (forall o :: o in d.operations <==> o in t.operations && o.kp != uid)
      && Ids(d.providers) == Ids(t.providers) - {uid}
      && Entries(d).Ok? && Entries(t).Ok?
      && (forall id :: id in Entries(d).value ==> Entries(d).value[id] == Entries(t).value[id])
      && (forall id :: id != uid ==> GetOne(d, id) == GetOne(t, id))
  {
    var d := DeleteOne(t, uid);
    ProvidersWithoutMembers(t.providers, uid);
    OperationsWithoutMembers(t.operations, uid);
    ProvidersWithoutDistinct(t.providers, uid);
    OperationsWithoutDistinct(t.operations, uid);
    forall o | o in d.operations ensures o.kp in Ids(d.providers) {
      var p :| p in t.providers && p.id == o.kp;
      assert p in d.providers;
    }
    forall id | id in Ids(t.providers) - {uid} ensures id in Ids(d.providers) {
      var p :| p in t.providers && p.id == id;
      assert p in d.providers;
    }
    forall id | id in Entries(d).value ensures Entries(d).value[id] == Entries(t).value[id] {
      LastWithIdWithout(t.providers, uid, id);
      OpsOfWithout(t.operations, uid, id);
    }
    forall id | id != uid ensures GetOne(d, id) == GetOne(t, id) {
      FirstWithIdWithout(t.providers, uid, id);
      OpsOfWithout(t.operations, uid, id);
    }
  }

  /** `delete_one` of an id that is not stored changes nothing. */
  lemma DeleteUnknownIsNoop(t: Tables, uid: string)
    requires Valid(t)
    requires uid !in Ids(t.providers)
    ensures DeleteOne(t, uid) == t
  {
    forall i | 0 <= i < |t.providers| ensures t.providers[i].id != uid {
      assert t.providers[i] in t.providers;
    }
    forall i | 0 <= i < |t.operations| ensures t.operations[i].kp != uid {
      assert t.operations[i] in t.operations;
    }
    ProvidersWithoutAbsent(t.providers, uid);
    OperationsWithoutAbsent(t.operations, uid);
  }

  /** After `delete_all`, `get_all` and every `search` return an empty dictionary. */
  lemma DeleteAllSpec(t: Tables, sources: set<string>, edges: set<string>, targets: set<string>)
    ensures Valid(DeleteAll(t))
    ensures Entries(DeleteAll(t)) == Ok(map[])
    ensures Search(DeleteAll(t), sources, edges, targets) == Ok(map[])
  {
    assert Ids([]) == {};
  }

  // ---------------------------------------------------------------------
  // get_all

  /**
   * On a valid store `get_all` succeeds, has one entry per stored id, and
   * each entry takes its url and details from a row of that id and lists
   * exactly that id's operations; without the referential invariant it
   * raises KeyError.
   */
  lemma GetAllSpec(t: Tables)
    ensures Entries(t).Err? <==> !Referential(t)
    ensures Valid(t) ==> Entries(t).Ok? && Entries(t).value.Keys == Ids(t.providers)
    ensures Entries(t).Ok? ==> forall id :: id in Entries(t).value ==>
      && (exists p :: p in t.providers && p.id == id && p.url == Entries(t).value[id].url && p.details == Entries(t).value[id].details)
      && (forall op :: op in Entries(t).value[id].operations <==> OperationRow(id, op) in t.operations)
  {
    if Entries(t).Ok? {
      forall id | id in Entries(t).value
        ensures forall op :: op in Entries(t).value[id].operations <==> OperationRow(id, op) in t.operations
      {
        OpsOfMembers(t.operations, id);
      }
    }
  }

  // ---------------------------------------------------------------------
  // search

  /** A provider id matches a pattern when one of its operations lies in it. */
  predicate Matched(t: Tables, id: string, sources: set<string>, edges: set<string>, targets: set<string>)
  {
    exists o :: o in t.operations && o.kp == id && InPattern(o.op, sources, edges, targets)
  }

  lemma {:induction false} JoinRowsMembers(t: Tables, sources: set<string>, edges: set<string>, targets: set<string>)
    ensures forall p :: p in JoinRows(t, sources, edges, targets) <==>
      p in t.providers && Matched(t, p.id, sources, edges, targets)
    decreases |t.operations|
  {
    if t.operations != [] {
      var n := |t.operations| - 1;
      var t0 := Tables(t.providers, t.operations[..n]);
      JoinRowsMembers(t0, sources, edges, targets);
      assert forall o :: o in t.operations <==> o in t0.operations || o == t.operations[n];
    }
  }

  lemma {:induction false} RowsToDictSpec(rows: seq<ProviderRow>)
    ensures RowsToDict(rows).Ok? <==> forall p :: p in rows ==> p.details.JObj?
    ensures RowsToDict(rows).Err? ==> RowsToDict(rows).error == TypeError
    ensures RowsToDict(rows).Ok? ==> RowsToDict(rows).value.Keys == set p | p in rows :: p.id
    ensures RowsToDict(rows).Ok? ==> forall id :: id in RowsToDict(rows).value ==>
      exists p :: p in rows && p.id == id && p.details.JObj? && RowsToDict(rows).value[id] == Merge(p)
    decreases |rows|
  {
    if rows != [] {
      var n := |rows| - 1;
      RowsToDictSpec(rows[..n]);
      assert forall p :: p in rows <==> p in rows[..n] || p == rows[n];
    }
  }

  /**
   * `search(S, E, T)` returns exactly the stored ids with an operation whose
   * three categories lie in S, E and T, each mapped to the url merged with
   * the details of one of its rows; it raises TypeError exactly when a
   * matched row's details are not a dictionary.
   */
  lemma SearchSpec(t: Tables, sources: set<string>, edges: set<string>, targets: set<string>)
    ensures var r := Search(t, sources, edges, targets);
      && (r.Err? <==> exists p :: p in t.providers && Matched(t, p.id, sources, edges, targets) && !p.details.JObj?)
      && (r.Err? ==> r.error == TypeError)
      && (r.Ok? ==> r.value.Keys == set id | id in Ids(t.providers) && Matched(t, id, sources, edges, targets))
      && (r.Ok? ==> forall id :: id in r.value ==>
            exists p :: p in t.providers && p.id == id && p.details.JObj? && r.value[id] == Merge(p))
  {
    var rows := JoinRows(t, sources, edges, targets);
    JoinRowsMembers(t, sources, edges, targets);
    RowsToDictSpec(rows);
    var r := Search(t, sources, edges, targets);
    if r.Ok? {
      var matched := set id | id in Ids(t.providers) && Matched(t, id, sources, edges, targets);
      forall id | id in matched ensures id in r.value {
        var p :| p in t.providers && p.id == id;
        assert p in rows;
      }
    }
  }

  lemma {:induction false} JoinRowsEmptyPattern(t: Tables, sources: set<string>, edges: set<string>, targets: set<string>)
    requires sources == {} || edges == {} || targets == {}
    ensures JoinRows(t, sources, edges, targets) == []
    decreases |t.operations|
  {
    if t.operations != [] {
      var n := |t.operations| - 1;
      JoinRowsEmptyPattern(Tables(t.providers, t.operations[..n]), sources, edges, targets);
    }
  }

  /** An empty list of categories in any position makes `search` return nothing. */
  lemma SearchEmptyPattern(t: Tables, sources: set<string>, edges: set<string>, targets: set<string>)
    requires sources == {} || edges == {} || targets == {}
    ensures Search(t, sources, edges, targets) == Ok(map[])
  {
    JoinRowsEmptyPattern(t, sources, edges, targets);
  }
}

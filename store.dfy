/**
 * The KP registry as a connection to its database (kp_registry/registry.py).
 *
 * sqlite opens a transaction before the first insert or delete and keeps
 * it until `commit`.  An `executemany` that hits a uniqueness conflict
 * stops at that row but keeps the rows it inserted before it, and `add`
 * leaves without a rollback: those rows stay visible to this connection
 * and are lost when it closes without committing.  The class therefore
 * keeps two states: `view`, what this connection reads, and `committed`,
 * what the database holds.
 */
module RegistryStore {
  import opened Json
  import opened RegistryTables
  import RegistryLaws

  /** How an `add` request ends: stored and committed, or HTTP 400 "KP already exists". */
  datatype AddStatus = Created | AlreadyStored

  class Registry {
    /** The tables as this connection reads them, uncommitted changes included. */
    var view: Tables
    /** The tables as the database holds them. */
    var committed: Tables

    predicate Valid()
      reads this
    {
      RegistryTables.Valid(view) && RegistryTables.Valid(committed)
    }

    /** `__aenter__` and `setup` (kp_registry/registry.py:21-53): a connection to a database holding `stored`. */
    constructor Open(stored: Tables)
      requires RegistryTables.Valid(stored)
      ensures Valid()
      ensures view == stored && committed == stored
    {
      view := stored;
      committed := stored;
    }

    /**
     * `add(**kps)` (kp_registry/registry.py:111-150): insert the provider
     * rows one by one, then the operation rows one by one, and commit.  A
     * uniqueness conflict ends the request with nothing committed.
     */
    method Add(batch: seq<(string, KpInput)>) returns (status: AddStatus)
      requires Valid()
      modifies this
      ensures Valid()
      ensures view == AddBatch(old(view), batch).tables
      ensures status == Created <==> AddBatch(old(view), batch).Added?
      ensures status == Created ==> committed == view
      ensures status == AlreadyStored ==> committed == old(committed)
    {
      RegistryLaws.AddSpec(view, batch);
      var pv := ProviderValues(batch);
      var i := 0;
      while i < |pv|
        invariant 0 <= i <= |pv|
        invariant committed == old(committed)
        invariant view.operations == old(view).operations
        invariant InsertRows(old(view).providers, pv, ProviderKey) == InsertRows(view.providers, pv[i..], ProviderKey)
      {
        assert pv[i..][0] == pv[i] && pv[i..][1..] == pv[i + 1..];
        if ProviderKey(pv[i]) in KeysOf(view.providers, ProviderKey) {
          return AlreadyStored;
        }
        view := view.(providers := view.providers + [pv[i]]);
        i := i + 1;
      }
      var ov := OperationValues(batch);
      var providers := view.providers;
      var j := 0;
      while j < |ov|
        invariant 0 <= j <= |ov|
        invariant committed == old(committed)
        invariant view.providers == providers
        invariant InsertRows(old(view).operations, ov, OperationKey) == InsertRows(view.operations, ov[j..], OperationKey)
      {
        assert ov[j..][0] == ov[j] && ov[j..][1..] == ov[j + 1..];
        if OperationKey(ov[j]) in KeysOf(view.operations, OperationKey) {
          return AlreadyStored;
        }
        view := view.(operations := view.operations + [ov[j]]);
        j := j + 1;
      }
      committed := view;
      return Created;
    }

    /**
     * `delete_one(uid)` (kp_registry/registry.py:152-164): delete the
     * provider rows of `uid`, then its operation rows, and commit.
     */
    method DeleteOne(uid: string)
      requires Valid()
      modifies this
      ensures Valid()
      ensures view == RegistryTables.DeleteOne(old(view), uid)
      ensures committed == view
    {
      RegistryLaws.DeleteOneSpec(view, uid);
      view := view.(providers := ProvidersWithout(view.providers, uid));
      view := view.(operations := OperationsWithout(view.operations, uid));
      committed := view;
    }

    /** `delete_all()` (kp_registry/registry.py:193-201): empty both tables and commit. */
    method DeleteAll()
      requires Valid()
      modifies this
      ensures Valid()
      ensures view.providers == [] && view.operations == []
      ensures committed == view
    {
      view := view.(providers := []);
      view := view.(operations := []);
      committed := view;
    }

    /**
     * `get_all()` (kp_registry/registry.py:55-80): an entry per provider
     * row, a later row replacing an earlier one of the same id, then each
     * operation appended to its provider's entry; an operation whose
     * provider has no entry raises KeyError.
     */
    method GetAll() returns (r: Result<map<string, Entry>, PyError>)
      ensures r == Entries(view)
    {
      var ps := view.providers;
      var os := view.operations;
      var kps: map<string, Entry> := map[];
      var i := 0;
      while i < |ps|
        invariant 0 <= i <= |ps|
        invariant kps == EntryMap(ps[..i], [])
      {
        FirstPassStep(ps, i);
        kps := kps[ps[i].id := Entry(ps[i].url, ps[i].details, [])];
        i := i + 1;
      }
      assert ps[..i] == ps;
      var j := 0;
      while j < |os|
        invariant 0 <= j <= |os|
        invariant kps == EntryMap(ps, os[..j])
        invariant forall o :: o in os[..j] ==> o.kp in Ids(ps)
      {
        var o := os[j];
        if o.kp !in kps {
          assert o in view.operations;
          return Err(KeyError);
        }
        SecondPassStep(ps, os, j);
        kps := kps[o.kp := kps[o.kp].(operations := kps[o.kp].operations + [o.op])];
        j := j + 1;
      }
      assert os[..j] == os;
      return Ok(kps);
    }

    /**
     * `__aexit__` (kp_registry/registry.py:28-32): close the connection
     * without committing, so whatever was not committed is discarded.
     */
    method Close()
      requires Valid()
      modifies this
      ensures Valid()
      ensures view == old(committed) && committed == old(committed)
    {
      view := committed;
    }
  }

  /** The first pass of `get_all` over one more provider row. */
  lemma FirstPassStep(ps: seq<ProviderRow>, i: nat)
    requires i < |ps|
    ensures EntryMap(ps[..i + 1], []) == EntryMap(ps[..i], [])[ps[i].id := Entry(ps[i].url, ps[i].details, [])]
  {
    var a := ps[..i];
    var b := ps[..i + 1];
    assert b[..i] == a;
    assert forall p :: p in b <==> p in a || p == ps[i];
    assert Ids(b) == Ids(a) + {ps[i].id};
  }

  /** The second pass of `get_all` over one more operation row whose provider is stored. */
  lemma SecondPassStep(ps: seq<ProviderRow>, os: seq<OperationRow>, j: nat)
    requires j < |os|
    requires os[j].kp in Ids(ps)
    ensures var m := EntryMap(ps, os[..j]);
      EntryMap(ps, os[..j + 1]) == m[os[j].kp := m[os[j].kp].(operations := m[os[j].kp].operations + [os[j].op])]
  {
    var m := EntryMap(ps, os[..j]);
    var m' := EntryMap(ps, os[..j + 1]);
    var o := os[j];
    assert os[..j + 1][..j] == os[..j];
    forall id | id in Ids(ps)
      ensures m'[id] == if id == o.kp then m[id].(operations := m[id].operations + [o.op]) else m[id]
    {
      assert OpsOf(os[..j + 1], id) == OpsOf(os[..j], id) + (if o.kp == id then [o.op] else []);
    }
    assert m'.Keys == m.Keys;
  }
}

/**
  The store the batch job writes to, updated in place: the CVE table, the
  CWE, vendor and product reference tables, the Task ledger, and the Change
  and Event logs. Each method does what the corresponding Python code does,
  step by step, and is proved to leave the store exactly as the functions of
  CveUtil and Events say.
*/
module Database {
  import opened Wrappers
  import opened Feed
  import opened Tables
  import opened Models
  import opened CveUtil
  import opened Checksum
  import opened Events

  class Store {
    var cves: map<string, Cve>
    var cwes: seq<string>
    var vendors: seq<string>
    var products: seq<(string, string)>
    var tasks: seq<string>
    var changes: seq<Change>
    var events: seq<Event>

    /** The current contents of the store. */
    function Snapshot(): Db
      reads this
    {
      Db(cves, cwes, vendors, products, tasks, changes, events)
    }

    constructor (db: Db)
      ensures Snapshot() == db
    {
      cves, cwes, vendors, products := db.cves, db.cwes, db.vendors, db.products;
      tasks, changes, events := db.tasks, db.changes, db.events;
    }

    /** utils.py lines 83-89: create each CWE row that does not exist yet. */
    method AddCwes(list: seq<string>)
      modifies this
      ensures Snapshot() == old(Snapshot()).(cwes := InsertAll(old(cwes), list))
    {
      for i := 0 to |list|
        invariant Snapshot() == old(Snapshot()).(cwes := InsertAll(old(cwes), list[..i]))
      {
        assert list[..i + 1] == list[..i] + [list[i]];
        InsertAllSnoc(old(cwes), list[..i], list[i]);
        if list[i] !in cwes {
          cwes := cwes + [list[i]];
        }
      }
      assert list[..|list|] == list;
    }

    /** utils.py lines 103-106: create each missing product row under one vendor. */
    method AddProducts(vendor: string, names: seq<string>)
      modifies this
      ensures Snapshot() == old(Snapshot()).(products := InsertAll(old(products), Tag(vendor, names)))
    {
      for k := 0 to |names|
        invariant Snapshot() == old(Snapshot()).(products := InsertAll(old(products), Tag(vendor, names[..k])))
      {
        assert Tag(vendor, names[..k + 1]) == Tag(vendor, names[..k]) + [(vendor, names[k])];
        InsertAllSnoc(old(products), Tag(vendor, names[..k]), (vendor, names[k]));
        if (vendor, names[k]) !in products {
          products := products + [(vendor, names[k])];
        }
      }
      assert names[..|names|] == names;
    }

    /** utils.py lines 95-106: create each missing vendor, then each missing product under it. */
    method AddVendorsProducts(items: VendorProducts)
      modifies this
      ensures Snapshot() == old(Snapshot()).(vendors := InsertAll(old(vendors), VendorsOf(items)),
                                              products := InsertAll(old(products), ProductsOf(items)))
    {
      for i := 0 to |items|
        invariant Snapshot() == old(Snapshot()).(vendors := InsertAll(old(vendors), VendorsOf(items[..i])),
                                                 products := InsertAll(old(products), ProductsOf(items[..i])))
      {
        var (vendor, names) := items[i];
        assert items[..i + 1][..i] == items[..i];
        assert VendorsOf(items[..i + 1]) == VendorsOf(items[..i]) + [vendor];
        assert ProductsOf(items[..i + 1]) == ProductsOf(items[..i]) + Tag(vendor, names);
        InsertAllSnoc(old(vendors), VendorsOf(items[..i]), vendor);
        InsertAllAppend(old(products), ProductsOf(items[..i]), Tag(vendor, names));
        if vendor !in vendors {
          vendors := vendors + [vendor];
        }
        AddProducts(vendor, names);
      }
      assert items[..|items|] == items;
    }

    /**
      utils.py lines 50-108: build the record (failing before any write when
      the item has no description or problem-type entry), store it, then
      fill the reference tables.
    */
    method CreateCve(j: CveJson, env: Env) returns (ok: bool)
      modifies this
      ensures ok == CveUtil.CreateCve(old(Snapshot()), j, env).Some?
      ensures Snapshot() == CveUtil.CreateCve(old(Snapshot()), j, env).GetOr(old(Snapshot()))
    {
      if |j.problemTypes| == 0 || |j.descriptions| == 0 {
        return false;
      }
      var record := NewRecord(j, env).value;
      cves := cves[j.id := record];
      AddCwes(record.cwes);
      AddVendorsProducts(VendorProductsOf(j, env));
      ok := true;
    }

    /** utils.py lines 32-47: save one Change, then save every event under it. */
    method CreateChange(cve: string, j: CveJson, task: nat, evs: seq<Event>)
      modifies this
      ensures Snapshot() == CveUtil.CreateChange(old(Snapshot()), cve, j, task, evs)
    {
      var id := |changes|;
      changes := changes + [Change(j.lastModifiedDate, j.lastModifiedDate, cve, task, j)];
      for i := 0 to |evs|
        invariant changes == old(changes) + [Change(j.lastModifiedDate, j.lastModifiedDate, cve, task, j)]
        invariant events == old(events) + Attach(evs[..i], id)
        invariant Snapshot() == old(Snapshot()).(changes := changes, events := events)
      {
        assert Attach(evs[..i + 1], id) == Attach(evs[..i], id) + [evs[i].(change := Some(id))];
        events := events + [evs[i].(change := Some(id))];
      }
      assert evs[..|evs|] == evs;
    }

    /**
      events.py lines 46-79: create an unknown record with its `new_cve`
      event; for a known record with another date run every check in order,
      then overwrite its date and snapshot; record a Change only when there
      are events. `ok` is false when creating the record failed.
    */
    method CheckForUpdate(j: CveJson, task: nat, env: Env) returns (ok: bool)
      modifies this
      ensures ok == Events.CheckForUpdate(old(Snapshot()), j, task, env).Some?
      ensures Snapshot() == Events.CheckForUpdate(old(Snapshot()), j, task, env).GetOr(old(Snapshot()))
    {
      if j.id !in cves {
        ok := CreateCve(j, env);
        if ok {
          CreateChange(j.id, j, task, [PrepareEvent(j.id, j, NewCve, Obj([]))]);
        }
        return;
      }
      var cve := cves[j.id];
      ok := true;
      if CveHasChanged(cve, j) {
        var evs: seq<Event> := [];
        for i := 0 to |env.checks|
          invariant evs == RunChecks(env.checks[..i], cve, j)
        {
          assert env.checks[..i + 1][..i] == env.checks[..i];
          var found := env.checks[i](cve, j);
          if found.Some? {
            evs := evs + [PrepareEvent(cve.cveId, j, found.value.kind, found.value.details)];
          }
        }
        assert env.checks[..|env.checks|] == env.checks;
        cves := cves[j.id := cve.(updatedAt := j.lastModifiedDate, json := j)];
        if evs != [] {
          CreateChange(cve.cveId, j, task, evs);
        }
      }
    }

    /**
      events.py lines 83-99: stop unless the checksum changed, stop if the
      download failed, record one Task with the checksum, then process the
      items in feed order; an item that fails ends the run.
    */
    method HandleEvents(body: string, download: Option<seq<CveJson>>, env: Env) returns (outcome: RunOutcome)
      modifies this
      ensures (Snapshot(), outcome) == Events.HandleEvents(old(Snapshot()), body, download, env)
    {
      var gate := CheckChecksum(body, tasks);
      if gate.Failure? {
        return GateFailed(gate.error);
      }
      var (changed, checksum) := gate.value;
      if !changed {
        return UpToDate;
      }
      if download.None? {
        return FetchFailed;
      }
      var items := download.value;
      var task := |tasks|;
      tasks := tasks + [checksum];
      ghost var start := Snapshot();
      for i := 0 to |items|
        invariant ProcessItems(Snapshot(), items[i..], task, i, env) == ProcessItems(start, items, task, 0, env)
      {
        ProcessItemsUnfold(Snapshot(), items[i..], task, i, env);
        assert items[i..][0] == items[i] && items[i..][1..] == items[i + 1..];
        var ok := CheckForUpdate(items[i], task, env);
        if !ok {
          return Halted(i);
        }
      }
      outcome := Processed;
    }
  }
}

/**
  The helpers of CveUtil, as functions on a store snapshot: the change test,
  building an event, recording a Change with its events, and creating a CVE
  together with the CWE, vendor and product rows it references.
*/
module CveUtil {
  import opened Wrappers
  import opened Feed
  import opened Tables
  import opened Models

  /** cve_has_changed: the item's modification date is not the stored one. */
  predicate CveHasChanged(cve: Cve, j: CveJson) {
    j.lastModifiedDate != cve.updatedAt
  }

  /**
    prepare_event: an unsaved, unreviewed event stamped with the item's
    modification date. Every call gets its own payload value.
  */
  function PrepareEvent(cve: string, j: CveJson, kind: EventType, payload: Json): Event {
    Event(j.lastModifiedDate, j.lastModifiedDate, cve, kind, payload, false, None)
  }

  /** The baseScore of an impact block, or None when the block is absent. */
  function Score(impact: map<string, real>, block: string): Option<real> {
    if block in impact then Some(impact[block]) else None
  }

  /** The vendor → products items that create_cve walks to fill the reference tables. */
  function VendorProductsOf(j: CveJson, env: Env): VendorProducts {
    env.convertCpes(Arr(env.nestedLookup("cpe23Uri", j.configurations)))
  }

  /** The vendor names of the items, in order. */
  function VendorsOf(items: VendorProducts): (r: seq<string>)
    ensures |r| == |items| && forall k :: 0 <= k < |items| ==> r[k] == items[k].0
  {
    seq(|items|, k requires 0 <= k < |items| => items[k].0)
  }

  /** The products of one vendor as (vendor, product) rows, in order. */
  function Tag(vendor: string, products: seq<string>): (r: seq<(string, string)>)
    ensures |r| == |products| && forall k :: 0 <= k < |products| ==> r[k] == (vendor, products[k])
  {
    seq(|products|, k requires 0 <= k < |products| => (vendor, products[k]))
  }

  /** All (vendor, product) rows of the items, vendor by vendor. */
  function ProductsOf(items: VendorProducts): seq<(string, string)>
    decreases |items|
  {
    if items == [] then []
    else ProductsOf(items[..|items| - 1]) + Tag(items[|items| - 1].0, items[|items| - 1].1)
  }

  /** Every product row derived from the items names a vendor derived from them. */
  lemma {:induction false} ProductsUnderVendors(items: VendorProducts)
    ensures forall p :: p in ProductsOf(items) ==> p.0 in VendorsOf(items)
    decreases |items|
  {
    if items != [] {
      var n := |items| - 1;
      ProductsUnderVendors(items[..n]);
      forall p | p in ProductsOf(items) ensures p.0 in VendorsOf(items) {
        if p in ProductsOf(items[..n]) {
          var k :| 0 <= k < n && VendorsOf(items[..n])[k] == p.0;
          assert VendorsOf(items)[k] == p.0;
        } else {
          assert p in Tag(items[n].0, items[n].1);
          assert VendorsOf(items)[n] == p.0;
        }
      }
    }
  }

  /**
    The record create_cve stores, or None when the item has no description
    entry or no problem-type entry (the lookups at index 0 fail before
    anything is written).
  */
  function NewRecord(j: CveJson, env: Env): Option<Cve> {
    if |j.problemTypes| == 0 || |j.descriptions| == 0 then None
    else
      var cwes := env.getCwes(j.problemTypes[0]);
      var cpes := env.convertCpes(j.configurations);
      Some(Cve(
        j.id, j.descriptions[0], j, env.flattenVendors(cpes), cwes,
        Score(j.impact, BaseMetricV2), Score(j.impact, BaseMetricV3),
        j.publishedDate, j.lastModifiedDate))
  }

  /** Check-then-create of every CWE, then of every vendor and each of its products. */
  function AddReferences(db: Db, cwes: seq<string>, items: VendorProducts): Db {
    db.(cwes := InsertAll(db.cwes, cwes),
        vendors := InsertAll(db.vendors, VendorsOf(items)),
        products := InsertAll(db.products, ProductsOf(items)))
  }

  /** create_cve: None when the item cannot be normalised (nothing is written then). */
  function CreateCve(db: Db, j: CveJson, env: Env): Option<Db> {
    match NewRecord(j, env)
    case None => None
    case Some(cve) => Some(AddReferences(db.(cves := db.cves[j.id := cve]), cve.cwes, VendorProductsOf(j, env)))
  }

  /** The events as saved under Change number `k`. */
  function Attach(evs: seq<Event>, k: nat): (r: seq<Event>)
    ensures |r| == |evs|
    ensures forall i :: 0 <= i < |evs| ==> r[i] == evs[i].(change := Some(k))
  {
    seq(|evs|, i requires 0 <= i < |evs| => evs[i].(change := Some(k)))
  }

  /** create_change: one Change stamped and snapshotted from the item, then its events under it. */
  function CreateChange(db: Db, cve: string, j: CveJson, task: nat, evs: seq<Event>): Db {
    db.(changes := db.changes + [Change(j.lastModifiedDate, j.lastModifiedDate, cve, task, j)],
        events := db.events + Attach(evs, |db.changes|))
  }

  // ---------------------------------------------------------------------
  // Properties

  /**
    create_cve succeeds exactly when the item has a description and a
    problem-type entry; the record then carries the item's id, first
    description, dates and snapshot, the vendors flattened from the CPEs of
    its `configurations`, and a score exactly when its impact block is present. No Task, Change or Event is touched.
  */
  lemma CreateCveRecord(db: Db, j: CveJson, env: Env)
    ensures CreateCve(db, j, env).Some? <==> |j.descriptions| > 0 && |j.problemTypes| > 0
    ensures CreateCve(db, j, env).Some? ==>
      var db' := CreateCve(db, j, env).value;
      && db'.cves.Keys == db.cves.Keys + {j.id}
      && (forall id :: id in db.cves && id != j.id ==> db'.cves[id] == db.cves[id])
      && db'.cves[j.id].cveId == j.id
      && db'.cves[j.id].summary == j.descriptions[0]
      && db'.cves[j.id].json == j
      && db'.cves[j.id].createdAt == j.publishedDate
      && db'.cves[j.id].updatedAt == j.lastModifiedDate
      && db'.cves[j.id].cwes == env.getCwes(j.problemTypes[0])
      && db'.cves[j.id].vendors == env.flattenVendors(env.convertCpes(j.configurations))
      && (db'.cves[j.id].cvss2.None? <==> BaseMetricV2 !in j.impact)
      && (BaseMetricV2 in j.impact ==> db'.cves[j.id].cvss2 == Some(j.impact[BaseMetricV2]))
      && (db'.cves[j.id].cvss3.None? <==> BaseMetricV3 !in j.impact)
      && (BaseMetricV3 in j.impact ==> db'.cves[j.id].cvss3 == Some(j.impact[BaseMetricV3]))
      && db'.tasks == db.tasks && db'.changes == db.changes && db'.events == db.events
  {
  }

  /**
    After the reference pass every CWE, vendor and product the item names has
    a row, the rows that existed are still there unchanged and in place, no
    other row appears, and no key is duplicated.
  */
  lemma AddReferencesTables(db: Db, cwes: seq<string>, items: VendorProducts)
    ensures var db' := AddReferences(db, cwes, items);
      && (forall w :: w in db'.cwes <==> w in db.cwes || w in cwes)
      && (forall v :: v in db'.vendors <==> v in db.vendors || v in VendorsOf(items))
      && (forall p :: p in db'.products <==> p in db.products || p in ProductsOf(items))
      && |db.cwes| <= |db'.cwes| && db'.cwes[..|db.cwes|] == db.cwes
      && |db.vendors| <= |db'.vendors| && db'.vendors[..|db.vendors|] == db.vendors
      && |db.products| <= |db'.products| && db'.products[..|db.products|] == db.products
      && (TablesOk(db) ==> TablesOk(db'))
  {
    ProductsUnderVendors(items);
    InsertAllRows(db.cwes, cwes);
    InsertAllRows(db.vendors, VendorsOf(items));
    InsertAllRows(db.products, ProductsOf(items));
  }

  /** Running the reference pass again with the same input creates nothing. */
  lemma AddReferencesIdempotent(db: Db, cwes: seq<string>, items: VendorProducts)
    ensures AddReferences(AddReferences(db, cwes, items), cwes, items) == AddReferences(db, cwes, items)
  {
    InsertAllIdempotent(db.cwes, cwes);
    InsertAllIdempotent(db.vendors, VendorsOf(items));
    InsertAllIdempotent(db.products, ProductsOf(items));
  }

  /**
    create_change appends exactly one Change, stamped with the item's
    modification date and holding the item and the Task, and saves every
    given event, in order, under it; nothing else changes.
  */
  lemma CreateChangeAttaches(db: Db, cve: string, j: CveJson, task: nat, evs: seq<Event>)
    ensures var db' := CreateChange(db, cve, j, task, evs);
      && |db'.changes| == |db.changes| + 1
      && db'.changes[..|db.changes|] == db.changes
      && db'.changes[|db.changes|] == Change(j.lastModifiedDate, j.lastModifiedDate, cve, task, j)
      && |db'.events| == |db.events| + |evs|
      && db'.events[..|db.events|] == db.events
      && (forall i :: |db.events| <= i < |db'.events| ==> db'.events[i].change == Some(|db.changes|))
      && (forall i :: |db.events| <= i < |db'.events| ==> db'.events[i] == evs[i - |db.events|].(change := Some(|db.changes|)))
      && db'.cves == db.cves && db'.tasks == db.tasks
      && db'.cwes == db.cwes && db'.vendors == db.vendors && db'.products == db.products
  {
  }
}

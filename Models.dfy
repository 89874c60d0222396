/**
  The rows the pipeline reads and writes (Cve, Cwe, Vendor, Product, Task,
  Change, Event), a snapshot of the whole store, the collaborators the
  pipeline calls without this model seeing their code, and the consistency
  the pipeline keeps between the tables.
*/
module Models {
  import opened Wrappers
  import opened Feed
  import opened Tables

  /** A stored vulnerability record. */
  datatype Cve = Cve(
    cveId: string,
    summary: string,
    json: CveJson,
    vendors: seq<string>,
    cwes: seq<string>,
    cvss2: Option<real>,
    cvss3: Option<real>,
    createdAt: int,
    updatedAt: int)

  /** One audit record: everything that changed for one CVE in one Task. */
  datatype Change = Change(createdAt: int, updatedAt: int, cve: string, task: nat, json: CveJson)

  /** One classified event; `change` is None until the event is saved under a Change. */
  datatype Event = Event(
    createdAt: int,
    updatedAt: int,
    cve: string,
    kind: EventType,
    details: Json,
    isReviewed: bool,
    change: Option<nat>)

  /**
    A snapshot of the store. Tasks and Changes are identified by their index;
    a Task is its checksum; a Product row is (vendor name, product name).
  */
  datatype Db = Db(
    cves: map<string, Cve>,
    cwes: seq<string>,
    vendors: seq<string>,
    products: seq<(string, string)>,
    tasks: seq<string>,
    changes: seq<Change>,
    events: seq<Event>)

  /** One check class: inspects the stored record and the new item, may report one finding. */
  type Check = (Cve, CveJson) -> Option<Finding>

  /**
    The collaborators whose code is outside the model: get_cwes, convert_cpes,
    flatten_vendors and nested_lookup, and the check classes in the order
    they are discovered.
  */
  datatype Env = Env(
    getCwes: Json -> seq<string>,
    convertCpes: Json -> VendorProducts,
    flattenVendors: VendorProducts -> seq<string>,
    nestedLookup: (string, Json) -> seq<Json>,
    checks: seq<Check>)

  /** Reference tables: unique keys, and every product sits under a known vendor. */
  predicate TablesOk(db: Db) {
    && NoDup(db.cwes)
    && NoDup(db.vendors)
    && NoDup(db.products)
    && forall p :: p in db.products ==> p.0 in db.vendors
  }

  /**
    Each record is stored under its own id, mirrors the last accepted item,
    carries that item's modification date, and its CWE list is in the CWE table.
  */
  predicate CvesOk(db: Db) {
    forall id :: id in db.cves ==>
      && db.cves[id].cveId == id
      && db.cves[id].json.id == id
      && db.cves[id].updatedAt == db.cves[id].json.lastModifiedDate
      && forall w :: w in db.cves[id].cwes ==> w in db.cwes
  }

  /** Each Change belongs to a known record and Task and is stamped with its item's date. */
  predicate ChangeOk(db: Db, c: Change) {
    && c.cve in db.cves
    && c.task < |db.tasks|
    && c.createdAt == c.updatedAt == c.json.lastModifiedDate
  }

  /** Each saved Event hangs under an existing Change, for the same record, with its timestamps. */
  predicate EventOk(db: Db, e: Event) {
    && e.change.Some?
    && e.change.value < |db.changes|
    && e.cve == db.changes[e.change.value].cve
    && e.createdAt == e.updatedAt == db.changes[e.change.value].createdAt
  }

  predicate Valid(db: Db) {
    && TablesOk(db)
    && CvesOk(db)
    && (forall c :: c in db.changes ==> ChangeOk(db, c))
    && (forall e :: e in db.events ==> EventOk(db, e))
  }
}

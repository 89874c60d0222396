/**
  The batch job: the per-item update step (create, reclassify or skip) and
  the run that gates on the checksum, records one Task, then processes the
  feed items in order. Stated as functions on a store snapshot.
*/
module Events {
  import opened Wrappers
  import opened Feed
  import opened Tables
  import opened Models
  import opened CveUtil
  import opened Checksum

  /**
    The events the checks produce for one changed record, in check order:
    every check runs, and each one that reports a finding contributes one event.
  */
  function RunChecks(checks: seq<Check>, cve: Cve, j: CveJson): seq<Event>
    decreases |checks|
  {
    if checks == [] then []
    else
      var evs := RunChecks(checks[..|checks| - 1], cve, j);
      match checks[|checks| - 1](cve, j)
      case None => evs
      case Some(f) => evs + [PrepareEvent(cve.cveId, j, f.kind, f.details)]
  }

  /** The positions of the checks that report a finding, in increasing order. */
  function Fired(checks: seq<Check>, cve: Cve, j: CveJson): seq<nat>
    decreases |checks|
  {
    if checks == [] then []
    else
      var fired := Fired(checks[..|checks| - 1], cve, j);
      if checks[|checks| - 1](cve, j).Some? then fired + [|checks| - 1] else fired
  }

  /**
    The k-th event comes from the k-th check that reported a finding: the
    checks that fire are exactly those listed, in increasing order, and each
    event carries its check's type and details, the item's date and the record.
  */
  lemma {:induction false} RunChecksInOrder(checks: seq<Check>, cve: Cve, j: CveJson)
    ensures var evs, fired := RunChecks(checks, cve, j), Fired(checks, cve, j);
      && |fired| == |evs|
      && (forall a, b :: 0 <= a < b < |fired| ==> fired[a] < fired[b])
      && (forall i :: 0 <= i < |checks| ==> (checks[i](cve, j).Some? <==> i in fired))
      && (forall k :: 0 <= k < |fired| ==>
            && fired[k] < |checks|
            && checks[fired[k]](cve, j).Some?
            && evs[k] == PrepareEvent(cve.cveId, j, checks[fired[k]](cve, j).value.kind,
                                      checks[fired[k]](cve, j).value.details))
    decreases |checks|
  {
    if checks != [] {
      var n := |checks| - 1;
      var init := checks[..n];
      RunChecksInOrder(init, cve, j);
      assert forall i :: 0 <= i < n ==> init[i] == checks[i];
    }
  }

  /** Every event of a changed record is unsaved, unreviewed, for that record and stamped with the item's date. */
  lemma RunChecksStamped(checks: seq<Check>, cve: Cve, j: CveJson)
    ensures forall e :: e in RunChecks(checks, cve, j) ==>
      && e.createdAt == e.updatedAt == j.lastModifiedDate
      && e.cve == cve.cveId && !e.isReviewed && e.change.None?
  {
  }

  /**
    check_for_update. None when creating the record fails (the exception
    leaves the store as it was and ends the batch).
  */
  function CheckForUpdate(db: Db, j: CveJson, task: nat, env: Env): Option<Db> {
    if j.id !in db.cves then
      match CreateCve(db, j, env)
      case None => None
      case Some(db1) => Some(CreateChange(db1, j.id, j, task, [PrepareEvent(j.id, j, NewCve, Obj([]))]))
    else
      var cve := db.cves[j.id];
      if CveHasChanged(cve, j) then
        var evs := RunChecks(env.checks, cve, j);
        var db1 := db.(cves := db.cves[j.id := cve.(updatedAt := j.lastModifiedDate, json := j)]);
        Some(if evs != [] then CreateChange(db1, cve.cveId, j, task, evs) else db1)
      else
        Some(db)
  }

  /** How one run of the job ended. */
  datatype RunOutcome =
    | GateFailed(error: GateError)  // the checksum could not be read or compared
    | UpToDate                      // same checksum as the last Task: nothing done
    | FetchFailed                   // the batch could not be downloaded: no Task created
    | Processed                     // every item was processed
    | Halted(at: nat)               // item `at` raised; earlier items stay committed

  /** The items processed one after another in feed order, stopping at the first that fails. */
  function ProcessItems(db: Db, items: seq<CveJson>, task: nat, from: nat, env: Env): (Db, RunOutcome)
    decreases |items|
  {
    if items == [] then (db, Processed)
    else
      match CheckForUpdate(db, items[0], task, env)
      case None => (db, Halted(from))
      case Some(db1) => ProcessItems(db1, items[1..], task, from + 1, env)
  }

  /**
    handle_events: the checksum gate, then the download (None when it fails),
    then one Task holding the checksum, then every item under that Task.
  */
  function HandleEvents(db: Db, body: string, download: Option<seq<CveJson>>, env: Env): (Db, RunOutcome) {
    match CheckChecksum(body, db.tasks)
    case Failure(e) => (db, GateFailed(e))
    case Success(gate) =>
      if !gate.0 then (db, UpToDate)
      else if download.None? then (db, FetchFailed)
      else ProcessItems(db.(tasks := db.tasks + [gate.1]), download.value, |db.tasks|, 0, env)
  }

  // ---------------------------------------------------------------------
  // Properties of the update step

  /**
    An unknown id: the record is created with exactly one Change holding
    exactly one unreviewed `new_cve` event with an empty payload, all stamped
    with the item's date; the step fails only on an item with no description
    or no problem-type entry.
  */
  lemma NewIdCreatesOneChange(db: Db, j: CveJson, task: nat, env: Env)
    requires j.id !in db.cves
    ensures CheckForUpdate(db, j, task, env).Some? <==> |j.descriptions| > 0 && |j.problemTypes| > 0
    ensures CheckForUpdate(db, j, task, env).Some? ==>
      var db' := CheckForUpdate(db, j, task, env).value;
      && j.id in db'.cves
      && db'.cves[j.id] == NewRecord(j, env).value
      && db'.changes == db.changes + [Change(j.lastModifiedDate, j.lastModifiedDate, j.id, task, j)]
      && db'.events == db.events + [Event(j.lastModifiedDate, j.lastModifiedDate, j.id, NewCve, Obj([]), false, Some(|db.changes|))]
      && db'.tasks == db.tasks
    ensures CheckForUpdate(db, j, task, env).None? ==> NewRecord(j, env).None?
  {
  }

  /** A known id whose date equals the stored one: nothing at all changes. */
  lemma SameDateIsNoOp(db: Db, j: CveJson, task: nat, env: Env)
    requires j.id in db.cves && j.lastModifiedDate == db.cves[j.id].updatedAt
    ensures CheckForUpdate(db, j, task, env) == Some(db)
  {
  }

  /**
    A known id with another date: all checks run against the stored record,
    their events are kept in check order, a Change is added exactly when some
    check fired, and the record's date and snapshot are overwritten either way;
    its other fields and the reference tables and Tasks stay as they were.
  */
  lemma NewDateReclassifies(db: Db, j: CveJson, task: nat, env: Env)
    requires j.id in db.cves && j.lastModifiedDate != db.cves[j.id].updatedAt
    ensures CheckForUpdate(db, j, task, env).Some?
    ensures
      var db', cve := CheckForUpdate(db, j, task, env).value, db.cves[j.id];
      var evs := RunChecks(env.checks, cve, j);
      && db'.cves == db.cves[j.id := cve.(updatedAt := j.lastModifiedDate, json := j)]
      && db'.events == db.events + Attach(evs, |db.changes|)
      && (evs == [] ==> db'.changes == db.changes)
      && (evs != [] ==> db'.changes == db.changes + [Change(j.lastModifiedDate, j.lastModifiedDate, cve.cveId, task, j)])
      && db'.cwes == db.cwes && db'.vendors == db.vendors && db'.products == db.products
      && db'.tasks == db.tasks
  {
  }

  /**
    One update never records more than one Change: the Change and event logs
    only grow, by one Change exactly when events were recorded, and every
    new event hangs under that Change, unreviewed and stamped with the
    item's modification date, as is the Change.
  */
  lemma AtMostOneChange(db: Db, j: CveJson, task: nat, env: Env)
    requires CheckForUpdate(db, j, task, env).Some?
    ensures var db' := CheckForUpdate(db, j, task, env).value;
      && |db.changes| <= |db'.changes| <= |db.changes| + 1
      && db'.changes[..|db.changes|] == db.changes
      && |db.events| <= |db'.events| && db'.events[..|db.events|] == db.events
      && (|db'.changes| == |db.changes| + 1 <==> |db'.events| > |db.events|)
      && (|db'.changes| == |db.changes| + 1 ==>
            db'.changes[|db.changes|].createdAt == db'.changes[|db.changes|].updatedAt == j.lastModifiedDate
            && db'.changes[|db.changes|].task == task && db'.changes[|db.changes|].json == j)
      && (forall i :: |db.events| <= i < |db'.events| ==>
            && db'.events[i].change == Some(|db.changes|)
            && db'.events[i].createdAt == db'.events[i].updatedAt == j.lastModifiedDate
            && !db'.events[i].isReviewed)
  {
    if j.id in db.cves && CveHasChanged(db.cves[j.id], j) {
      var cve := db.cves[j.id];
      var evs := RunChecks(env.checks, cve, j);
      RunChecksStamped(env.checks, cve, j);
      var db' := CheckForUpdate(db, j, task, env).value;
      forall i | |db.events| <= i < |db'.events|
        ensures db'.events[i].createdAt == db'.events[i].updatedAt == j.lastModifiedDate && !db'.events[i].isReviewed
      {
        assert evs[i - |db.events|] in evs;
      }
    }
  }

  /** Delivering the same item again right after it was processed changes nothing. */
  lemma RedeliveryIsNoOp(db: Db, j: CveJson, task: nat, env: Env)
    requires CheckForUpdate(db, j, task, env).Some?
    ensures var db' := CheckForUpdate(db, j, task, env).value;
      CheckForUpdate(db', j, task, env) == Some(db')
  {
  }

  /** Creating a record keeps the store consistent. */
  lemma CreateCveValid(db: Db, j: CveJson, env: Env)
    requires Valid(db) && CreateCve(db, j, env).Some?
    ensures Valid(CreateCve(db, j, env).value) && j.id in CreateCve(db, j, env).value.cves
  {
    var cve := NewRecord(j, env).value;
    var db0 := db.(cves := db.cves[j.id := cve]);
    var db1 := CreateCve(db, j, env).value;
    AddReferencesTables(db0, cve.cwes, VendorProductsOf(j, env));
    assert CvesOk(db1);
    assert forall c :: c in db1.changes ==> ChangeOk(db1, c);
    assert forall e :: e in db1.events ==> EventOk(db1, e);
  }

  /** Recording a Change for a known record under an existing Task keeps the store consistent. */
  lemma CreateChangeValid(db: Db, cve: string, j: CveJson, task: nat, evs: seq<Event>)
    requires Valid(db) && cve in db.cves && task < |db.tasks|
    requires forall e :: e in evs ==> e.cve == cve && e.createdAt == e.updatedAt == j.lastModifiedDate
    ensures Valid(CreateChange(db, cve, j, task, evs))
  {
  }

  /** The update step keeps the store consistent when it runs under an existing Task. */
  lemma CheckForUpdateValid(db: Db, j: CveJson, task: nat, env: Env)
    requires Valid(db) && task < |db.tasks|
    requires CheckForUpdate(db, j, task, env).Some?
    ensures Valid(CheckForUpdate(db, j, task, env).value)
  {
    if j.id !in db.cves {
      var db1 := CreateCve(db, j, env).value;
      CreateCveValid(db, j, env);
      CreateCveRecord(db, j, env);
      CreateChangeValid(db1, j.id, j, task, [PrepareEvent(j.id, j, NewCve, Obj([]))]);
    } else if CveHasChanged(db.cves[j.id], j) {
      var cve := db.cves[j.id];
      var evs := RunChecks(env.checks, cve, j);
      var db1 := db.(cves := db.cves[j.id := cve.(updatedAt := j.lastModifiedDate, json := j)]);
      assert CvesOk(db1);
      assert forall c :: c in db1.changes ==> ChangeOk(db1, c);
      assert forall e :: e in db1.events ==> EventOk(db1, e);
      if evs != [] {
        RunChecksStamped(env.checks, cve, j);
        CreateChangeValid(db1, cve.cveId, j, task, evs);
      }
    }
  }

  // ---------------------------------------------------------------------
  // Properties of the run

  /** Processing items never touches the Task ledger. */
  lemma {:induction false} ProcessItemsKeepsTasks(db: Db, items: seq<CveJson>, task: nat, from: nat, env: Env)
    ensures ProcessItems(db, items, task, from, env).0.tasks == db.tasks
    decreases |items|
  {
    if items != [] {
      match CheckForUpdate(db, items[0], task, env)
      case None =>
      case Some(db1) =>
        if items[0].id !in db.cves { CreateCveRecord(db, items[0], env); }
        ProcessItemsKeepsTasks(db1, items[1..], task, from + 1, env);
    }
  }

  /** Continue with `ys` after a run that processed everything; keep a halted run as it is. */
  function ThenProcess(r: (Db, RunOutcome), ys: seq<CveJson>, task: nat, from: nat, env: Env): (Db, RunOutcome) {
    if r.1 == Processed then ProcessItems(r.0, ys, task, from, env) else r
  }

  /**
    Feed order: processing `xs + ys` is processing `xs`, then, only if all of
    `xs` went through, processing `ys` from where `xs` left the store.
  */
  lemma {:induction false} ProcessItemsAppend(db: Db, xs: seq<CveJson>, ys: seq<CveJson>, task: nat, from: nat, env: Env)
    ensures ProcessItems(db, xs + ys, task, from, env) == ThenProcess(ProcessItems(db, xs, task, from, env), ys, task, from + |xs|, env)
    decreases |xs|
  {
    if xs == [] {
      assert xs + ys == ys;
    } else {
      var zs := xs + ys;
      assert zs[0] == xs[0];
      assert zs[1..] == xs[1..] + ys;
      ProcessItemsUnfold(db, zs, task, from, env);
      ProcessItemsUnfold(db, xs, task, from, env);
      var step := CheckForUpdate(db, xs[0], task, env);
      if step.Some? {
        ProcessItemsAppend(step.value, xs[1..], ys, task, from + 1, env);
      }
    }
  }

  /** One step of ProcessItems on a non-empty feed. */
  lemma ProcessItemsUnfold(db: Db, items: seq<CveJson>, task: nat, from: nat, env: Env)
    requires items != []
    ensures ProcessItems(db, items, task, from, env) ==
      var step := CheckForUpdate(db, items[0], task, env);
      if step.None? then (db, Halted(from)) else ProcessItems(step.value, items[1..], task, from + 1, env)
  {
  }

  /** Processing items under an existing Task keeps the store consistent. */
  lemma {:induction false} ProcessItemsValid(db: Db, items: seq<CveJson>, task: nat, from: nat, env: Env)
    requires Valid(db) && task < |db.tasks|
    ensures Valid(ProcessItems(db, items, task, from, env).0)
    decreases |items|
  {
    if items != [] {
      match CheckForUpdate(db, items[0], task, env)
      case None =>
      case Some(db1) =>
        CheckForUpdateValid(db, items[0], task, env);
        if items[0].id !in db.cves { CreateCveRecord(db, items[0], env); }
        ProcessItemsValid(db1, items[1..], task, from + 1, env);
    }
  }

  /**
    The gate: when the checksum cannot be read, equals the last Task's, or the
    download fails, the store is left exactly as it was (no Task, no item);
    otherwise exactly one Task holding the fetched checksum is appended before
    the first item is processed, and all items are processed under it.
  */
  lemma HandleEventsGate(db: Db, body: string, download: Option<seq<CveJson>>, env: Env)
    ensures var (db', out) := HandleEvents(db, body, download, env);
      && (out.GateFailed? || out == UpToDate || out == FetchFailed ==> db' == db)
      && (CheckChecksum(body, db.tasks).Failure? ==> (db', out) == (db, GateFailed(CheckChecksum(body, db.tasks).error)))
      && (CheckChecksum(body, db.tasks).Success? && CheckChecksum(body, db.tasks).value.0 && download.None? ==>
            (db', out) == (db, FetchFailed))
      && (out == UpToDate <==> CheckChecksum(body, db.tasks).Success? && !CheckChecksum(body, db.tasks).value.0)
      && (CheckChecksum(body, db.tasks).Success? && CheckChecksum(body, db.tasks).value.0 && download.Some? ==>
            && db'.tasks == db.tasks + [ExtractDigest(body).value]
            && (db', out) == ProcessItems(db.(tasks := db.tasks + [ExtractDigest(body).value]), download.value, |db.tasks|, 0, env))
  {
    match CheckChecksum(body, db.tasks)
    case Failure(_) =>
    case Success(gate) =>
      if gate.0 && download.Some? {
        ProcessItemsKeepsTasks(db.(tasks := db.tasks + [gate.1]), download.value, |db.tasks|, 0, env);
        ProcessItemsOutcome(db.(tasks := db.tasks + [gate.1]), download.value, |db.tasks|, 0, env);
      }
  }

  /** Processing items ends either with all of them processed or halted at one of them. */
  lemma {:induction false} ProcessItemsOutcome(db: Db, items: seq<CveJson>, task: nat, from: nat, env: Env)
    ensures var out := ProcessItems(db, items, task, from, env).1;
      out == Processed || (out.Halted? && from <= out.at < from + |items|)
    decreases |items|
  {
    if items != [] {
      match CheckForUpdate(db, items[0], task, env)
      case None =>
      case Some(db1) => ProcessItemsOutcome(db1, items[1..], task, from + 1, env);
    }
  }

  /**
    Once a run has recorded its Task, a run on the same meta resource finds
    the checksum unchanged and does nothing, whatever the download would
    return. This holds also for a run that halted part-way: the items after
    the failing one are not processed until the upstream checksum changes.
  */
  lemma RerunIsUpToDate(db: Db, body: string, download: Option<seq<CveJson>>, later: Option<seq<CveJson>>, env: Env)
    requires HandleEvents(db, body, download, env).0.tasks != db.tasks
    ensures var db' := HandleEvents(db, body, download, env).0;
      HandleEvents(db', body, later, env) == (db', UpToDate)
  {
    HandleEventsGate(db, body, download, env);
  }

  /** A run keeps the store consistent. */
  lemma HandleEventsValid(db: Db, body: string, download: Option<seq<CveJson>>, env: Env)
    requires Valid(db)
    ensures Valid(HandleEvents(db, body, download, env).0)
  {
    match CheckChecksum(body, db.tasks)
    case Failure(_) =>
    case Success(gate) =>
      if gate.0 && download.Some? {
        var db1 := db.(tasks := db.tasks + [gate.1]);
        assert forall c :: c in db1.changes ==> ChangeOk(db1, c);
        assert forall e :: e in db1.events ==> EventOk(db1, e);
        ProcessItemsValid(db1, download.value, |db.tasks|, 0, env);
      }
  }
}

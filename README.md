# OpenCVE change detection, modelled in Dafny

This project models the batch job `handle_events` of OpenCVE. The job polls
the NVD "modified" feed and keeps a change log of CVE records.

- **Checksum gate.** It reads the SHA-256 digest out of the feed's `.meta`
  resource and compares it with the checksum of the last `Task`. When the
  digest is the same, it stops.
- **Run ledger.** Otherwise it downloads the batch, records one `Task` holding
  the new checksum, and then processes the items in feed order.
- **Per-item update (`check_for_update`).** There are three cases:
  - An unknown CVE id: the record is created with one `new_cve` event.
  - A known id whose `lastModifiedDate` differs from the stored `updated_at`:
    every check runs, and the record's date and JSON snapshot are overwritten.
  - A known id with the same date: nothing happens.
- **Change grouping (`create_change`).** All events of one update are saved
  under a single `Change`. That `Change` is stamped with the upstream date and
  holds the upstream record.
- **Record creation (`create_cve`).** It extracts the scores, CWEs, vendors and
  products. CWE, vendor and product rows are created only when missing
  (check-then-create).

Files:

- `Wrappers.dfy`: `Option` and `Result`.
- `Feed.dfy`: one decoded feed item (`CveJson`), a JSON value type and the
  event types.
- `Tables.dfy`: check-then-create on a table kept as its rows in creation order.
- `Checksum.dfy`: digest extraction and the checksum comparison.
- `Models.dfy`: the rows (`Cve`, `Change`, `Event`), a snapshot of the whole
  store (`Db`), the collaborators (`Env`) and the store's consistency
  predicate `Valid`.
- `CveUtil.dfy` and `Events.dfy`: the two source files as functions on a
  snapshot, with the lemmas about them.
- `Database.dfy`: class `Store`, whose fields are the tables. Its methods
  update the tables in place with the source's loops. Each method's `ensures`
  says that the new contents equal the matching function of `CveUtil` or
  `Events` applied to the old contents.

Collaborators whose code is not part of this model are fields of `Env`:
`get_cwes`, `convert_cpes`, `flatten_vendors`, `nested_lookup` and the check
classes. The check classes are an ordered sequence of functions that may
report a finding (an event type and its details).

In two places the code's behaviour is kept as written, although a safer behaviour would be expected:

- With no prior `Task`, the code fails: the checksum lookup reads a field of
  `None`. The model returns `GateFailed(NoPriorTask)`. It does not default to
  "changed".
- When one item fails (an item with an empty `description_data` or
  `problemtype_data` list), the exception ends the whole batch. Earlier items
  stay committed, and the `Task` has already been recorded. The model's run
  ends with `Halted(i)`. It does not isolate per-item failures.

## Model

| member | source | states |
|---|---|---|
| `Checksum.LastDigestBefore` | src/changes/tasks/events.py:29 | the position found holds `sha256:` followed by 64 word characters, and no later position below the bound does; with no result, no position does |
| `Checksum.ExtractDigest` | src/changes/tasks/events.py:29-30 | a digest is returned exactly when the pattern matches somewhere; it is 64 word characters and follows the last `sha256:` that has 64 word characters after it (greedy leading `.*`) |
| `Checksum.CheckChecksum` | src/changes/tasks/events.py:31-35 | no match fails with `NoDigest`, and no prior Task fails with `NoPriorTask`; otherwise `changed` holds exactly when the digest differs from the last Task's checksum; `(false, last)` is returned when they are equal, and the returned checksum is always the fetched digest |
| `Tables.InsertAllRows` | src/changes/utils.py:83-89 | after a check-then-create pass, the old rows are still a prefix of the table; a key has a row exactly when it had one before or was passed in; no key gets a second row |
| `Tables.InsertAllIdempotent` | src/changes/utils.py:83-89 | a second pass with the same keys creates nothing |
| `Tables.InsertAllAppend` | src/changes/utils.py:95-106 | a pass over `xs` followed by a pass over `ys` equals one pass over `xs + ys`, so the nested vendor/product loops equal one flat pass |
| `CveUtil.ProductsUnderVendors` | src/changes/utils.py:95-106 | every product row derived from the CPE items names a vendor derived from the same items |
| `CveUtil.CreateCveRecord` | src/changes/utils.py:50-80 | creation succeeds exactly when the item has a description entry and a problem-type entry; the record's id is `CVE_data_meta.ID`, its summary is the first description and its snapshot is the item; `created_at` is `publishedDate` and `updated_at` is `lastModifiedDate`; its CWEs are `get_cwes` of the first problem-type entry and its vendors are `flatten_vendors(convert_cpes(configurations))`; `cvss2` is None exactly when `baseMetricV2` is absent, and otherwise is its baseScore (likewise `cvss3` and `baseMetricV3`); other records, Tasks, Changes and Events are untouched |
| `CveUtil.AddReferencesTables` | src/changes/utils.py:83-106 | every CWE, vendor and (vendor, product) the item names gets a row, and no other row appears; existing rows keep their place and value; unique keys and "every product under a known vendor" are preserved |
| `CveUtil.AddReferencesIdempotent` | src/changes/utils.py:83-106 | running the CWE/vendor/product pass again with the same input adds nothing |
| `CveUtil.CreateChangeAttaches` | src/changes/utils.py:32-47 | exactly one Change is appended, stamped with `lastModifiedDate` and holding the item and the Task; every given event is appended in order pointing to that Change, so the number attached is the number of events; nothing else changes |
| `Events.RunChecksInOrder` | src/changes/tasks/events.py:61-70 | the k-th event comes from the k-th check that reported something; the firing checks are listed in increasing order and are exactly those that report; each event carries its check's type and details |
| `Events.RunChecksStamped` | src/changes/utils.py:20-29 | every event built for an update is unsaved and unreviewed, names the record, and has `created_at == updated_at ==` the item's `lastModifiedDate` |
| `Events.NewIdCreatesOneChange` | src/changes/tasks/events.py:52-55 | for an unknown id, the step fails exactly on an item with no description or no problem-type entry; otherwise the record is created with exactly one Change and exactly one unreviewed `new_cve` event with an empty payload, both stamped with the upstream date |
| `Events.SameDateIsNoOp` | src/changes/tasks/events.py:58 | a known id whose date equals the stored `updated_at` leaves the whole store unchanged |
| `Events.NewDateReclassifies` | src/changes/tasks/events.py:58-79 | for a known id with another date, the events are the check results in check order; the record's `updated_at` and snapshot are overwritten whether or not a check fired; a Change is added exactly when some check fired; the reference tables and Tasks are unchanged |
| `Events.AtMostOneChange` | src/changes/tasks/events.py:78-79 | a step adds at most one Change, and adds one exactly when it records events; the logs only grow; every new event points to the new Change, is unreviewed and carries the upstream date |
| `Events.RedeliveryIsNoOp` | src/changes/tasks/events.py:46-79 | delivering the same item again right after it was processed changes nothing |
| `Events.CreateCveValid` | src/changes/utils.py:70-106 | creating a record keeps the store consistent: unique reference keys, products under known vendors, each record's CWEs in the CWE table, `updated_at` equal to its snapshot's date |
| `Events.CreateChangeValid` | src/changes/utils.py:32-47 | recording a Change for a known record under an existing Task keeps the store consistent: each event points to an existing Change of the same record and carries its timestamps |
| `Events.CheckForUpdateValid` | src/changes/tasks/events.py:46-79 | one update step under an existing Task keeps the store consistent |
| `Events.ProcessItemsKeepsTasks` | src/changes/tasks/events.py:98-99 | processing items never changes the Task ledger |
| `Events.ProcessItemsAppend` | src/changes/tasks/events.py:98-99 | processing `xs + ys` processes `xs` first; it goes on with `ys` only if every item of `xs` went through |
| `Events.ProcessItemsOutcome` | src/changes/tasks/events.py:98-99 | processing ends with every item processed, or halted at the position of one of the items |
| `Events.ProcessItemsValid` | src/changes/tasks/events.py:98-99 | processing a batch under an existing Task keeps the store consistent |
| `Events.HandleEventsGate` | src/changes/tasks/events.py:85-99 | a failing gate ends with `GateFailed` and the store unchanged; an unchanged checksum ends with `UpToDate`, exactly then, and the store unchanged; a failed download ends with `FetchFailed` and the store unchanged, so no Task is created in any of these cases; otherwise exactly one Task with the fetched checksum is appended before the first item, and all items run under it |
| `Events.RerunIsUpToDate` | src/changes/tasks/events.py:85-95 | once a run has recorded its Task, a run on the same meta resource is up to date and does nothing, also after a run that halted part-way |
| `Events.HandleEventsValid` | src/changes/tasks/events.py:83-99 | a run keeps the store consistent |
| `CveUtil.CveHasChanged` | src/changes/utils.py:16-17 | the change test: the item's `lastModifiedDate` differs from the stored `updated_at`; its two outcomes are stated by `Events.SameDateIsNoOp` (equal date: nothing changes) and `Events.NewDateReclassifies` (other date: reclassify and overwrite) |
| `CveUtil.PrepareEvent` | src/changes/utils.py:20-29 | builds an unsaved, unreviewed event of the given type and details stamped twice with `lastModifiedDate`, with its own empty payload for `new_cve`; stated by `Events.RunChecksStamped` and `Events.NewIdCreatesOneChange` |
| `CveUtil.NewRecord` | src/changes/utils.py:50-80 | the record `create_cve` stores, or None when an index-0 lookup fails; its fields are stated by `CveUtil.CreateCveRecord` |
| `CveUtil.CreateCve` | src/changes/utils.py:50-108 | stores the record and runs the CWE and vendor/product passes; stated by `CveUtil.CreateCveRecord`, `CveUtil.AddReferencesTables`, `CveUtil.AddReferencesIdempotent` and `Events.CreateCveValid` |
| `CveUtil.CreateChange` | src/changes/utils.py:32-47 | appends one Change and its events under it; stated by `CveUtil.CreateChangeAttaches` and `Events.CreateChangeValid` |
| `Tables.InsertAll` | src/changes/utils.py:83-89 | check-then-create for each key in order; stated by `Tables.InsertAllRows`, `Tables.InsertAllIdempotent` and `Tables.InsertAllAppend` |
| `Events.RunChecks` | src/changes/tasks/events.py:61-70 | runs every check and keeps the findings in check order; stated by `Events.RunChecksInOrder` and `Events.RunChecksStamped` |
| `Events.CheckForUpdate` | src/changes/tasks/events.py:46-79 | the three-way step; stated by `Events.NewIdCreatesOneChange`, `Events.SameDateIsNoOp`, `Events.NewDateReclassifies`, `Events.AtMostOneChange`, `Events.RedeliveryIsNoOp` and `Events.CheckForUpdateValid` |
| `Events.ProcessItems` | src/changes/tasks/events.py:98-99 | the item loop in feed order, stopping at the first failing item; stated by `Events.ProcessItemsKeepsTasks`, `Events.ProcessItemsAppend`, `Events.ProcessItemsOutcome` and `Events.ProcessItemsValid` |
| `Events.HandleEvents` | src/changes/tasks/events.py:83-99 | gate, download, one Task, then the items; stated by `Events.HandleEventsGate`, `Events.RerunIsUpToDate` and `Events.HandleEventsValid` |
| `Database.Store.AddCwes` | src/changes/utils.py:83-89 | the CWE table becomes the check-then-create pass over the CWE list; nothing else changes |
| `Database.Store.AddProducts` | src/changes/utils.py:103-106 | the product table becomes the check-then-create pass over the vendor's products; nothing else changes |
| `Database.Store.AddVendorsProducts` | src/changes/utils.py:92-106 | the vendor and product tables become the check-then-create passes over all vendors and all (vendor, product) pairs; nothing else changes |
| `Database.Store.CreateCve` | src/changes/utils.py:50-108 | the store becomes `CveUtil.CreateCve` of the old store, and `ok` says whether creation succeeded (the store is unchanged when it failed) |
| `Database.Store.CreateChange` | src/changes/utils.py:32-47 | the store becomes `CveUtil.CreateChange` of the old store |
| `Database.Store.CheckForUpdate` | src/changes/tasks/events.py:46-79 | the store becomes `Events.CheckForUpdate` of the old store; `ok` is false exactly when record creation failed |
| `Database.Store.HandleEvents` | src/changes/tasks/events.py:83-99 | the store and the outcome are `Events.HandleEvents` of the old store |

## Left out

- HTTP downloads, gzip and JSON decoding are not modelled. The meta resource's
  text is an input, and so is the downloaded batch (`None` when the download
  fails).
- Celery task registration and logging are not modelled. `handle_events`
  returns nothing; the model returns a `RunOutcome` so that each way the run
  ends can be stated.
- Django ORM persistence is an in-memory snapshot. Row ids are positions.
  `Task.created_at` comes from the clock and is not modelled: the "last Task"
  is the last one appended.
- `arrow` date parsing is not modelled. Dates are integers.
- The `json` field accesses that can raise `KeyError` (a missing `impact`,
  `cve` or `configurations` key) are not modelled: a feed item has typed
  fields. Only the two index-0 lookups that can fail on a well-formed item
  are modelled: `description_data[0]` and `problemtype_data[0]`.
- Scores are `real`, not floating point.
- `Checksum.IsWordChar`: only the ASCII part of `\w` is modelled. Python's `\w`
  on `str` patterns also matches non-ASCII letters and digits.
- `Events.NewDateReclassifies`: writes that the check classes make to the
  stored record are not modelled. A check is a pure function of the stored
  record and the item, and `check_for_update` itself writes only `updated_at`
  and `json` (src/changes/tasks/events.py:73-75). So a reclassified record
  keeps the summary, scores, CWE list and vendor list it was created with,
  and every check sees the record as it was before the update, not as an
  earlier check left it. The store invariant that a record's CWEs are in the
  CWE table relies on this.
- `BaseCheck.__subclasses__()` discovery is replaced by a given ordered
  sequence of checks. The check classes are not part of this model. They are
  taken to build their event through `prepare_event` from a type and details,
  so each event gets the upstream date. A check that raises is not modelled.
- `nested_lookup`, `convert_cpes`, `get_cwes` and `flatten_vendors` are not
  part of this model. They are uninterpreted functions in `Env`. Because
  `flatten_vendors` is uninterpreted, nothing is stated about how a record's
  encoded vendor list relates to the vendor and product tables. Only the CWE
  list is tied to its table.
- The shared mutable default `payload={}` of `prepare_event` is not
  reproduced. Every event gets its own payload value.
- Concurrency is not modelled. Under the single-flight assumption, races on
  check-then-create and overlapping runs cannot arise. Each per-item step is
  taken as one atomic write.
- Changes to `Event.is_reviewed` made by other parts of the system are not
  modelled.
- Views, URL routing and user/subscription models are not part of this model.

# Open-Meteo daily ingest: a Dafny model

This project models the deterministic bookkeeping inside the Airflow DAG
`open_meteo_ingest_daily`, which runs once per logical day `ds`:

- **Request fan-out** (`build_requests`). The configured city list becomes one
  request per city, each stamped with `ds`.
- **Record merges.** `fetch_weather` adds the API payload to a request.
  `write_raw_file` adds the raw file path to a fetched item.
- **Raw data-lake paths.**
  - The city segment is the city name with every space replaced by `_`.
  - The raw file is `raw_base/load_date=<ds>/city=<segment>.json`.
  - The quarantine destination is `raw_base/quarantine/load_date=<ds>`.
- **Keyed upsert into `raw.open_meteo_current`** (`upsert_raw_to_postgres`).
  - The table is a map keyed by `(load_date, city_name)`.
  - The statement is PostgreSQL's `INSERT ... ON CONFLICT DO UPDATE`, written
    for one row. The model's upsert runs it once per item, in list order, and
    returns the number of items. That per-row behaviour is what the statement
    was written for.
  - The call as written hands the whole list of row tuples to ONE execution of
    the statement. That execution is rejected for every list length, so the
    task raises and the table is unchanged. `RawStore.ExecuteAsCalled` models
    this; see "## Findings".
- **Data-quality gate** (`dq_rowcount`, `branch_on_dq`, `quarantine_and_fail`).
  - If the day has at least one row, the run publishes.
  - Otherwise it moves the day's partition to quarantine, if the partition
    exists, and fails.
  - As the DAG is wired, `dq_rowcount` has no upstream task, so nothing makes
    it wait for the load. It counts the rows the table held when the run
    started. `DayRun.GateAsWired` models this; see "## Findings".

The modules follow the DAG's tasks:

- `Paths`: pathlib paths, the city segment, and the partition, raw-file and
  quarantine locations.
- `Requests`: the per-city records, `build_requests`, and the merges done by
  `fetch_weather` and `write_raw_file`.
- `RawStore`: the table as a map.
  - `UpsertAll` is the batch as a fold of single-row upserts.
  - `Latest` is an independent reference: the row of the last item with a
    given key.
  - The class `RawTable` holds the rows and updates them in a loop.
- `Quality`: the row count, the gate, and the failing quarantine task.
- `DayRun`: one whole run, with the tasks composed by their data flow.
  - `WriteAllExpanded` and `LoadInput` are the file writes as line 143 maps
    them. That line maps over the configuration dict as well as over the
    items, so every write instance fails and nothing is loaded.
  - `DayBatch` is the batch with the configuration bound once, as
    `write_raw_file.partial(cfg=cfg).expand(item=fetched)` would map it.
  - `GateAsWired` is the gate as the DAG orders it: before the load.
  - `GateAfterLoad` is the gate with the load ordered first (`loaded >> dq_ok`).

The DAG does not implement these parts of the wider pipeline, so they are not
modelled:

- classifying fetch failures, and a backoff schedule of its own (the only
  retry behaviour is the scheduler settings at
  `dags/open_meteo_ingest_daily.py:18-24`);
- a raw-to-typed transform;
- daily and weekly tables;
- a weekly rollup.

The upsert task receives the whole list of items (lines 90 and 101-102). The
statement's insert branch lists no `ingested_at` column (line 93), so only its
update branch sets that column.

## Model

| member | source | states |
|---|---|---|
| `Paths.RenderJoin` | dags/open_meteo_ingest_daily.py:83-86 | the text of `p / name` is the text of `p`, then `/`, then `name` |
| `Paths.CitySegment` | dags/open_meteo_ingest_daily.py:78 | the segment has the name's length; each position is `_` where the name has a space and the name's character elsewhere; it contains no space |
| `Paths.CitySegmentCollision` | dags/open_meteo_ingest_daily.py:78 | two names get the same segment iff they have the same length and differ only where both have a space or an underscore |
| `Paths.CitySegmentIdempotent` | dags/open_meteo_ingest_daily.py:78 | rewriting a segment a second time changes nothing |
| `Paths.RawFileLocation` | dags/open_meteo_ingest_daily.py:80-83 | the raw file's parent is the day's partition directory; its text is `raw_base/load_date=<ds>/city=<segment>.json` |
| `Paths.QuarantineLocation` | dags/open_meteo_ingest_daily.py:123-125 | the quarantine destination has the partition's directory name and lies in `raw_base/quarantine`; its text is `raw_base/quarantine/load_date=<ds>` |
| `Paths.QuarantineIsolated` | dags/open_meteo_ingest_daily.py:124-125 | no quarantine destination is the partition directory or a raw file of any day |
| `Paths.PartitionDirInjective` | dags/open_meteo_ingest_daily.py:80 | two days share a partition directory iff they are the same day |
| `Paths.RawFilePathCollision` | dags/open_meteo_ingest_daily.py:77-83 | two items write the same raw file iff they are for the same day and their city names agree except for spaces versus underscores |
| `Requests.BuildRequests` | dags/open_meteo_ingest_daily.py:57-58 | there is exactly one request per city, in list order; request i has city i's name, lat and lon; every request has the same `ds` |
| `Requests.BuildRequestsAppend` | dags/open_meteo_ingest_daily.py:58 | fanning out a concatenated city list gives the concatenation of the two fan-outs (order is preserved) |
| `Requests.FetchWeather` | dags/open_meteo_ingest_daily.py:72 | the merged record keeps every field of the request and adds the payload |
| `Requests.WriteRawFile` | dags/open_meteo_ingest_daily.py:76-86 | it succeeds iff `cfg` is the config dict. It then returns the input item with all fields unchanged, plus `raw_path` = `raw_base/load_date=<ds>/city=<segment>.json`. Given a `(key, value)` pair of the dict, it fails at the `cfg["raw_base"]` lookup, before any filesystem change |
| `RawStore.UpsertAllSpec` | dags/open_meteo_ingest_daily.py:92-102 | after a batch, a key is present iff it was present before or the batch writes it; it holds the row of the last item with that key, or else its old row |
| `RawStore.LatestSome` | dags/open_meteo_ingest_daily.py:92-101 | the batch determines a row for a key iff some item in the batch has that key |
| `RawStore.LatestIsLastWrite` | dags/open_meteo_ingest_daily.py:95-99 | an item that no later item shares a key with supplies that key's row |
| `RawStore.UpsertLastWriteWins` | dags/open_meteo_ingest_daily.py:95-99 | after a batch, each item's key is present and holds the lat, lon and payload of the last item with that key |
| `RawStore.UpsertOthersUnchanged` | dags/open_meteo_ingest_daily.py:93-99 | the batch neither adds, removes nor changes a row under a key it does not write |
| `RawStore.UpsertKeys` | dags/open_meteo_ingest_daily.py:93-99 | the keys after a batch are the old keys plus the batch's keys; there is one row per key, and no row is deleted |
| `RawStore.UpsertShadowed` | dags/open_meteo_ingest_daily.py:95-99 | a later batch that writes every key of an earlier batch leaves the same table as if the earlier batch had never run |
| `RawStore.UpsertIdempotent` | dags/open_meteo_ingest_daily.py:92-102 | upserting the same batch twice gives the same table as upserting it once |
| `RawStore.ReingestReplaces` | dags/open_meteo_ingest_daily.py:95-99 | after two writes of the same key, the table is as if only the second had happened, and the key holds the second row |
| `RawStore.ExecuteAsCalled` | dags/open_meteo_ingest_daily.py:92-102 | one execution receives the whole list as parameters for five placeholders, and fails for every length. An empty list leaves the placeholders as text. Any length other than five is a count mismatch. Exactly five puts a whole tuple in each placeholder. The result is always a failure, so no table is produced |
| `RawStore.AsCalledLosesBatch` | dags/open_meteo_ingest_daily.py:92-103 | for one item with a new key, the call as written fails, while the per-row upsert stores the item's row under its key |
| `RawStore.RawTable.constructor` | dags/open_meteo_ingest_daily.py:91 | the table starts with the given rows |
| `RawStore.RawTable.UpsertRaw` | dags/open_meteo_ingest_daily.py:90-103 | the new rows are the old rows with each item upserted in list order; the return value is the number of items |
| `Quality.CountPositive` | dags/open_meteo_ingest_daily.py:109-113 | the day's row count is positive iff some row has `load_date = ds` |
| `Quality.DqRowcount` | dags/open_meteo_ingest_daily.py:107-113 | the check passes iff the table has a row with `load_date = ds` |
| `Quality.BranchOnDq` | dags/open_meteo_ingest_daily.py:117-118 | returns `"publish_dataset"` iff the check passed, and `"quarantine_and_fail"` iff it failed |
| `Quality.QuarantineAndFail` | dags/open_meteo_ingest_daily.py:122-131 | always fails with `DQ failed for <ds>; partition moved to quarantine`; it changes the filesystem iff the partition exists, and then it creates `raw_base/quarantine` and renames the partition to its quarantine destination |
| `Quality.RowsForDateAfterUpsert` | dags/open_meteo_ingest_daily.py:93-113 | the day's rows after a batch are its earlier rows plus the keys of the batch's items for that day |
| `Quality.CountNeverDrops` | dags/open_meteo_ingest_daily.py:93-113 | an upsert never lowers any day's row count, so a day that passed the check still passes after more loads |
| `Quality.GateAfterUpsert` | dags/open_meteo_ingest_daily.py:93-118 | after a batch, the gate publishes iff the day already had rows or the batch has an item for that day |
| `DayRun.WriteAllExpanded` | dags/open_meteo_ingest_daily.py:143 | as written, the writes are the cross product of the items with the config dict's two entries. Each is `write_raw_file` given a `(key, value)` pair: two instances per item, and every one fails |
| `DayRun.LoadInput` | dags/open_meteo_ingest_daily.py:145 | the upsert receives a batch iff every mapped write succeeded; the batch then holds their results, in order |
| `DayRun.ExpandedWritesLoadNothing` | dags/open_meteo_ingest_daily.py:140-145 | with at least one city, no batch reaches the upsert as written, although the intended batch would write the first city's row |
| `DayRun.DayBatchItem` | dags/open_meteo_ingest_daily.py:140-145 | in the intended batch (configuration bound once), item i has key `(ds, city i)`, city i's coordinates, payload i and city i's raw file path |
| `DayRun.DayBatchKeys` | dags/open_meteo_ingest_daily.py:140-145 | the intended batch writes exactly one key `(ds, name)` per configured city name |
| `DayRun.DayRunLoadsCity` | dags/open_meteo_ingest_daily.py:140-145 | after the intended load, each city's row for `ds` holds that city's coordinates and fetched payload (for a repeated name, the last entry) |
| `DayRun.DayRunOtherDaysUntouched` | dags/open_meteo_ingest_daily.py:93-99 | the run neither adds nor changes rows of any other day |
| `DayRun.GateAsWired` | dags/open_meteo_ingest_daily.py:147-148 | as wired, the run publishes iff the table had a row for `ds` when the run started, and quarantines iff it had none; the run's own batch plays no part |
| `DayRun.DayRunGate` | dags/open_meteo_ingest_daily.py:145-148 | after the intended load, the run publishes iff it had at least one city or the day already had rows; otherwise it quarantines. The intended load binds the configuration once, upserts row by row and orders the count after it (`loaded >> dq_ok`, which the DAG lacks). |
| `DayRun.FreshDayQuarantined` | dags/open_meteo_ingest_daily.py:147-154 | on the first run of a day with at least one city, the gate as wired quarantines, although the intended load writes every city's row and the gate after it publishes |
| `DayRun.DayRunRerun` | dags/open_meteo_ingest_daily.py:92-102 | re-running a day, with any payloads, leaves the table as the second run alone would |

## Left out

- HTTP: the sensor and the fetch (`dags/open_meteo_ingest_daily.py:37-46`, `63-71`) are network I/O.
  - Each payload is a parameter.
  - A fetch that fails, and so stops the run before the upsert, is not modelled.
- Requests.BuildRequests: the city list is typed as `seq<City>`, so malformed configuration is excluded.
  - A city entry without `name`, `lat` or `lon` raises `KeyError` at line 58.
  - A `cities` value that is not a list of objects raises `TypeError`.
  - Neither failure is modelled.
- Configuration: reading the city list and `raw_base` from Airflow Variables is a foreign call (lines 50-53).
  - Both are inputs.
  - The default base `/opt/airflow/data/raw/open_meteo` is not modelled.
- Filesystem writes: `mkdir`, `write_text`, `exists` and `rename` are not performed.
  - The model gives the paths these calls receive.
  - `QuarantineAndFail` takes the partition's existence as a parameter and returns the changes it asks for.
  - A rename that fails, for example onto a non-empty quarantine directory, raises a different error. The task fails either way.
- Serialisation: `json.dumps` and the `::jsonb` cast are not modelled. The table stores the payload as the `Json` value the API returned.
- `ingested_at` is not modelled.
  - On conflict it becomes `now()`, a clock reading.
  - On insert it takes the column default, which is defined outside this file.
- Paths.Render does not model pathlib's normalisation of `raw_base`: a trailing separator and empty or `.` components.
  - `raw_base` is taken as written.
  - A city name that contains `/` is treated as one component. pathlib would split it.
- Dates: `ds` and `load_date` are compared as strings. The cast to the SQL `date` type is not modelled; it preserves equality for the scheduler's `YYYY-MM-DD` form.
- Database: the table state is a value passed to the functions.
  - Connections, transactions, atomicity and concurrent writers are not modelled.
  - `RawStore.ExecuteAsCalled` models only the outcome of the call as written: one execution fails and changes nothing. It does not model the hook's and driver's code, which is not part of this model. `RawTable.UpsertRaw` and the `DayRun` lemmas use the per-row upsert the statement was written for.
- Floats: `lat` and `lon` are `real` values. They are carried from the configuration to the table without arithmetic.
- Orchestration is not modelled:
  - `publish_dataset` and its dataset outlet (lines 134-136);
  - the retry settings (lines 18-24), whose delay schedule the scheduler computes;
  - the DAG schedule, catch-up, pools and `max_active_runs` (lines 26-34);
  - the task dependencies (lines 150-154), except that `DayRun.GateAsWired` takes the missing edge into `dq_rowcount` into account.
- DayRun.FetchAll models the mapped fetch (line 142) as an index-wise map with one payload per request.
- DayRun.DayBatch is the batch with the configuration bound once. Line 143 as written does not produce it: the writes are mapped over the config dict's entries as well and all fail (see "## Findings"). `DayRun.WriteAllExpanded` models that expansion.
- DayRun.DayBatchItem describes the intended batch. As written, line 143 produces no batch.
- DayRun.DayBatchKeys gives the keys of the intended batch. As written, no keys are written.
- DayRun.DayRunLoadsCity gives the rows after the intended load. As written, the load does not happen and the table keeps its rows.
- DayRun.WriteAllExpanded does not model an empty city list. With no items, Airflow expands to zero instances and skips the downstream tasks. The table is unchanged either way.
- The raw-to-typed transform, the daily and weekly tables, the weekly rollup and the retry/backoff algorithm are not part of this model. No code in the DAG implements them.

## Findings

| source | as written | input that shows it | evidently intended | confidence | as-written member | corrected member |
|---|---|---|---|---|---|---|
| dags/open_meteo_ingest_daily.py:147 | `dq_rowcount` has no upstream task (lines 150-154 add none), so it does not wait for the load and counts the rows present when the run starts | the first run of a day whose city list is `[c]`: the count is 0, the run takes `quarantine_and_fail` and raises, although the intended load writes `c`'s row | the count runs after the load (`loaded >> dq_ok`), so a run that loaded any city publishes | not executed; high | `DayRun.GateAsWired` with `DayRun.FreshDayQuarantined` | `DayRun.DayRunGate` |
| dags/open_meteo_ingest_daily.py:102 | the list of row tuples is the parameter list of one execution of a five-placeholder statement, so the execution is rejected for every list length | a batch of one item for a new key: the count mismatches, the task raises, and the key stays absent | one upsert per item in list order, then return `len(items)` | not executed; medium, because it rests on the hook's and driver's parameter binding, which is outside this file | `RawStore.ExecuteAsCalled` with `RawStore.AsCalledLosesBatch` | `RawStore.RawTable.UpsertRaw` |
| dags/open_meteo_ingest_daily.py:143 | `write_raw_file.expand(item=fetched, cfg=cfg)` maps over `cfg` as well. Dynamic mapping takes the cross product of the keyword arguments and maps a dict as its `(key, value)` pairs, so each instance gets a pair and raises `TypeError` at `cfg["raw_base"]` (line 80) | `cities = [c]`: two write instances, both fail, and the upsert never receives a batch | the configuration is bound once (`write_raw_file.partial(cfg=cfg).expand(item=fetched)`), giving one write per item | not executed; medium, because it rests on Airflow's mapping rules, which are outside this file | `DayRun.WriteAllExpanded` with `DayRun.ExpandedWritesLoadNothing` | `DayRun.DayBatch` with `DayRun.DayRunLoadsCity` |

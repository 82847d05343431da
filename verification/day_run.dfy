/**
 * One daily run end to end: fan the cities out into requests, attach each
 * fetched payload, attach each raw file path, upsert the batch, and gate on
 * the day's row count. As the DAG is wired, nothing orders the row count
 * after the upsert (`GateAsWired`); `GateAfterLoad` is the gate run after
 * the intended load (configuration bound once, one upsert per row), which
 * the rest of the module reasons about.
 */
module DayRun {
  import opened Wrappers
  import opened Paths
  import opened Requests
  import opened RawStore
  import opened Quality

  /** The mapped `fetch_weather` over the requests, one payload per request. */
  function FetchAll(reqs: seq<Request>, payloads: seq<Json>): seq<FetchedItem>
    requires |payloads| == |reqs|
  {
    seq(|reqs|, i requires 0 <= i < |reqs| => FetchWeather(reqs[i], payloads[i]))
  }

  /** The mapped `write_raw_file` with the configuration bound once
      (`write_raw_file.partial(cfg=cfg).expand(item=fetched)`): one write per
      item, each given the config dict. */
  function WriteAll(fetched: seq<FetchedItem>, cities: seq<City>, rawBase: string): seq<WrittenItem> {
    seq(|fetched|, i requires 0 <= i < |fetched| => WriteRawFile(fetched[i], ConfigDict(cities, rawBase)).value)
  }

  /** The batch `upsert_raw_to_postgres` is meant to receive for day `ds`. */
  function DayBatch(cities: seq<City>, payloads: seq<Json>, rawBase: string, ds: Date): seq<WrittenItem>
    requires |payloads| == |cities|
  {
    WriteAll(FetchAll(BuildRequests(cities, ds), payloads), cities, rawBase)
  }

  /** `write_raw_file.expand(item=fetched, cfg=cfg)` as written: the cross
      product of the items with the config dict's two entries. */
  function WriteAllExpanded(fetched: seq<FetchedItem>, cities: seq<City>, rawBase: string): (r: seq<Result<WrittenItem, WriteError>>)
    ensures |r| == 2 * |fetched|
    ensures forall i :: 0 <= i < |r| ==> r[i].Failure?
  {
    if fetched == [] then []
    else [ WriteRawFile(fetched[0], CitiesPair(cities)),
           WriteRawFile(fetched[0], RawBasePair(rawBase)) ]
         + WriteAllExpanded(fetched[1..], cities, rawBase)
  }

  /** What the upsert task receives from the mapped writes: their results in
      order, provided every instance succeeded; otherwise it does not run. */
  function LoadInput(results: seq<Result<WrittenItem, WriteError>>): (batch: Option<seq<WrittenItem>>)
    ensures batch.Some? <==> forall i :: 0 <= i < |results| ==> results[i].Success?
    ensures batch.Some? ==>
              && |batch.value| == |results|
              && forall i :: 0 <= i < |results| ==> batch.value[i] == results[i].value
  {
    if results == [] then Some([])
    else if results[0].Failure? then None
    else match LoadInput(results[1..])
         case None => None
         case Some(rest) => Some([results[0].value] + rest)
  }

  /** With at least one city, the writes as expanded all fail, so no batch
      reaches the upsert and the table keeps its rows; the intended batch
      would have written a row for the first city. */
  lemma ExpandedWritesLoadNothing(t: Table, cities: seq<City>, payloads: seq<Json>, rawBase: string, ds: Date)
    requires |payloads| == |cities| && |cities| > 0
    ensures LoadInput(WriteAllExpanded(FetchAll(BuildRequests(cities, ds), payloads), cities, rawBase)).None?
    ensures RowKey(ds, cities[0].name) in UpsertAll(t, DayBatch(cities, payloads, rawBase, ds))
  {
    var results := WriteAllExpanded(FetchAll(BuildRequests(cities, ds), payloads), cities, rawBase);
    assert results[0].Failure?;
    var batch := DayBatch(cities, payloads, rawBase, ds);
    DayBatchItem(cities, payloads, rawBase, ds, 0);
    UpsertAllSpec(t, batch, KeyOf(batch[0]));
    LatestSome(batch, KeyOf(batch[0]));
  }

  /** Item `i` of the day's batch carries city `i`'s key, coordinates,
      payload `i` and the city's raw file path. */
  lemma DayBatchItem(cities: seq<City>, payloads: seq<Json>, rawBase: string, ds: Date, i: nat)
    requires |payloads| == |cities| && i < |cities|
    ensures |DayBatch(cities, payloads, rawBase, ds)| == |cities|
    ensures KeyOf(DayBatch(cities, payloads, rawBase, ds)[i]) == RowKey(ds, cities[i].name)
    ensures RowOf(DayBatch(cities, payloads, rawBase, ds)[i]) == RawRow(cities[i].lat, cities[i].lon, payloads[i])
    ensures DayBatch(cities, payloads, rawBase, ds)[i].rawPath == Render(RawFilePath(rawBase, ds, cities[i].name))
  {
    var w := DayBatch(cities, payloads, rawBase, ds)[i];
    RawFileLocation(rawBase, ds, cities[i].name);
    assert w == WriteRawFile(FetchWeather(BuildRequests(cities, ds)[i], payloads[i]), ConfigDict(cities, rawBase)).value;
  }

  /** The keys the day's batch writes: one per configured city name, all for `ds`. */
  lemma DayBatchKeys(cities: seq<City>, payloads: seq<Json>, rawBase: string, ds: Date)
    requires |payloads| == |cities|
    ensures BatchKeys(DayBatch(cities, payloads, rawBase, ds))
         == set i | 0 <= i < |cities| :: RowKey(ds, cities[i].name)
  {
    var batch := DayBatch(cities, payloads, rawBase, ds);
    forall k | k in BatchKeys(batch) ensures k in set i | 0 <= i < |cities| :: RowKey(ds, cities[i].name) {
      var i :| 0 <= i < |batch| && KeyOf(batch[i]) == k;
      DayBatchItem(cities, payloads, rawBase, ds, i);
    }
    forall i | 0 <= i < |cities| ensures RowKey(ds, cities[i].name) in BatchKeys(batch) {
      DayBatchItem(cities, payloads, rawBase, ds, i);
    }
  }

  /** After the run, each configured city's row for `ds` holds that city's
      coordinates and fetched payload (the last entry wins for a repeated name). */
  lemma DayRunLoadsCity(t: Table, cities: seq<City>, payloads: seq<Json>, rawBase: string, ds: Date, i: nat)
    requires |payloads| == |cities| && i < |cities|
    requires forall j :: i < j < |cities| ==> cities[j].name != cities[i].name
    ensures RowKey(ds, cities[i].name) in UpsertAll(t, DayBatch(cities, payloads, rawBase, ds))
    ensures UpsertAll(t, DayBatch(cities, payloads, rawBase, ds))[RowKey(ds, cities[i].name)]
         == RawRow(cities[i].lat, cities[i].lon, payloads[i])
  {
    var batch := DayBatch(cities, payloads, rawBase, ds);
    DayBatchItem(cities, payloads, rawBase, ds, i);
    forall j | i < j < |batch| ensures KeyOf(batch[j]) != KeyOf(batch[i]) {
      DayBatchItem(cities, payloads, rawBase, ds, j);
    }
    UpsertLastWriteWins(t, batch, i);
  }

  /** Rows of other days are neither changed nor added by the run. */
  lemma DayRunOtherDaysUntouched(t: Table, cities: seq<City>, payloads: seq<Json>, rawBase: string, ds: Date, k: RowKey)
    requires |payloads| == |cities|
    requires k.loadDate != ds
    ensures k in UpsertAll(t, DayBatch(cities, payloads, rawBase, ds)) <==> k in t
    ensures k in t ==> UpsertAll(t, DayBatch(cities, payloads, rawBase, ds))[k] == t[k]
  {
    DayBatchKeys(cities, payloads, rawBase, ds);
    UpsertOthersUnchanged(t, DayBatch(cities, payloads, rawBase, ds), k);
  }

  /** The branch a run takes as the DAG is wired: `dq_rowcount` has no
      upstream task, so it does not wait for the load and counts the rows
      the table held when the run started. The batch plays no part. */
  function GateAsWired(t: Table, ds: Date): (task: string)
    ensures task == PublishDataset <==> exists k :: k in t && k.loadDate == ds
    ensures task == QuarantineAndFailTask <==> forall k :: k in t ==> k.loadDate != ds
  {
    BranchOnDq(DqRowcount(t, ds))
  }

  /** The branch taken after the intended load: the `DayBatch` upserted row by
      row, with the count ordered after it (`loaded >> dq_ok`). */
  function GateAfterLoad(t: Table, cities: seq<City>, payloads: seq<Json>, rawBase: string, ds: Date): string
    requires |payloads| == |cities|
  {
    BranchOnDq(DqRowcount(UpsertAll(t, DayBatch(cities, payloads, rawBase, ds)), ds))
  }

  /** After the intended load, the run publishes iff it had at least one
      city or the day already had rows; otherwise it takes the quarantine branch. */
  lemma DayRunGate(t: Table, cities: seq<City>, payloads: seq<Json>, rawBase: string, ds: Date)
    requires |payloads| == |cities|
    ensures GateAfterLoad(t, cities, payloads, rawBase, ds) == PublishDataset
        <==> |cities| > 0 || DqRowcount(t, ds)
  {
    var batch := DayBatch(cities, payloads, rawBase, ds);
    GateAfterUpsert(t, batch, ds);
    if |cities| > 0 {
      DayBatchItem(cities, payloads, rawBase, ds, 0);
      assert batch[0].ds == ds;
    }
  }

  /** The first run of a day with at least one city: as wired, the count
      finds no row and the run quarantines and fails, although the intended
      load writes a row for every city and the gate after it publishes. */
  lemma FreshDayQuarantined(t: Table, cities: seq<City>, payloads: seq<Json>, rawBase: string, ds: Date)
    requires |payloads| == |cities| && |cities| > 0
    requires forall k :: k in t ==> k.loadDate != ds
    ensures GateAsWired(t, ds) == QuarantineAndFailTask
    ensures forall i :: 0 <= i < |cities| ==>
              RowKey(ds, cities[i].name) in UpsertAll(t, DayBatch(cities, payloads, rawBase, ds))
    ensures GateAfterLoad(t, cities, payloads, rawBase, ds) == PublishDataset
  {
    DayRunGate(t, cities, payloads, rawBase, ds);
    DayBatchKeys(cities, payloads, rawBase, ds);
    UpsertKeys(t, DayBatch(cities, payloads, rawBase, ds));
  }

  /** Re-running a day, with whatever payloads the API returns the second
      time, leaves the table exactly as the second run alone would. */
  lemma DayRunRerun(t: Table, cities: seq<City>, first: seq<Json>, second: seq<Json>, rawBase: string, ds: Date)
    requires |first| == |cities| && |second| == |cities|
    ensures UpsertAll(UpsertAll(t, DayBatch(cities, first, rawBase, ds)), DayBatch(cities, second, rawBase, ds))
         == UpsertAll(t, DayBatch(cities, second, rawBase, ds))
  {
    DayBatchKeys(cities, first, rawBase, ds);
    DayBatchKeys(cities, second, rawBase, ds);
    UpsertShadowed(t, DayBatch(cities, first, rawBase, ds), DayBatch(cities, second, rawBase, ds));
  }
}

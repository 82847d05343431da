/**
 * The raw table `raw.open_meteo_current`, keyed by (load_date, city_name).
 * Each item of a batch is written with PostgreSQL's
 * `INSERT ... ON CONFLICT (load_date, city_name) DO UPDATE`: a new key gets
 * a row, an existing key has its lat, lon and payload replaced.
 */
module RawStore {
  import opened Wrappers
  import opened Requests

  /** The table's primary key. */
  datatype RowKey = RowKey(loadDate: Date, cityName: string)

  /** The non-key columns the statement writes. */
  datatype RawRow = RawRow(lat: Coordinate, lon: Coordinate, payload: Json)

  /** The table's contents: at most one row per key. */
  type Table = map<RowKey, RawRow>

  function KeyOf(item: WrittenItem): RowKey {
    RowKey(item.ds, item.cityName)
  }

  function RowOf(item: WrittenItem): RawRow {
    RawRow(item.lat, item.lon, item.payload)
  }

  /** The keys a batch writes. */
  function BatchKeys(items: seq<WrittenItem>): set<RowKey> {
    set i | 0 <= i < |items| :: KeyOf(items[i])
  }

  /** One execution of the upsert statement. */
  function UpsertRow(t: Table, item: WrittenItem): Table {
    t[KeyOf(item) := RowOf(item)]
  }

  /** The table after upserting every item of a batch in list order. */
  function UpsertAll(t: Table, items: seq<WrittenItem>): Table
    decreases |items|
  {
    if items == [] then t
    else UpsertRow(UpsertAll(t, items[..|items| - 1]), items[|items| - 1])
  }

  /** Reference view of a batch: the row carried by the last item with key `k`, if any. */
  function Latest(items: seq<WrittenItem>, k: RowKey): Option<RawRow>
    decreases |items|
  {
    if items == [] then None
    else if KeyOf(items[|items| - 1]) == k then Some(RowOf(items[|items| - 1]))
    else Latest(items[..|items| - 1], k)
  }

  /** The batch fold agrees with the reference view: a key is present after
      the batch iff it was before or the batch writes it, and it holds the
      last row the batch wrote for it, else its old row. */
  lemma {:induction false} UpsertAllSpec(t: Table, items: seq<WrittenItem>, k: RowKey)
    ensures k in UpsertAll(t, items) <==> k in t || Latest(items, k).Some?
    ensures k in UpsertAll(t, items) ==>
              UpsertAll(t, items)[k] == (if Latest(items, k).Some? then Latest(items, k).value else t[k])
  {
    if items != [] {
      UpsertAllSpec(t, items[..|items| - 1], k);
    }
  }

  /** The reference view finds a row for `k` iff some item of the batch has key `k`. */
  lemma {:induction false} LatestSome(items: seq<WrittenItem>, k: RowKey)
    ensures Latest(items, k).Some? <==> k in BatchKeys(items)
  {
    if items != [] {
      var init := items[..|items| - 1];
      LatestSome(init, k);
      assert BatchKeys(items) == BatchKeys(init) + {KeyOf(items[|items| - 1])} by {
        forall key | key in BatchKeys(items) ensures key in BatchKeys(init) + {KeyOf(items[|items| - 1])} {
          var i :| 0 <= i < |items| && KeyOf(items[i]) == key;
          if i < |items| - 1 { assert init[i] == items[i]; }
        }
        forall key | key in BatchKeys(init) ensures key in BatchKeys(items) {
          var i :| 0 <= i < |init| && KeyOf(init[i]) == key;
          assert items[i] == init[i];
        }
      }
    }
  }

  /** The item that wins for its key is the last one with that key. */
  lemma {:induction false} LatestIsLastWrite(items: seq<WrittenItem>, i: nat)
    requires i < |items|
    requires forall j :: i < j < |items| ==> KeyOf(items[j]) != KeyOf(items[i])
    ensures Latest(items, KeyOf(items[i])) == Some(RowOf(items[i]))
  {
    if i < |items| - 1 {
      var init := items[..|items| - 1];
      assert init[i] == items[i];
      forall j | i < j < |init| ensures KeyOf(init[j]) != KeyOf(init[i]) {
        assert init[j] == items[j];
      }
      LatestIsLastWrite(init, i);
    }
  }

  /** After a batch, the key of each item holds the row of the last item
      with that key, and keys the batch does not write are untouched. */
  lemma UpsertLastWriteWins(t: Table, items: seq<WrittenItem>, i: nat)
    requires i < |items|
    requires forall j :: i < j < |items| ==> KeyOf(items[j]) != KeyOf(items[i])
    ensures KeyOf(items[i]) in UpsertAll(t, items)
    ensures UpsertAll(t, items)[KeyOf(items[i])] == RowOf(items[i])
  {
    LatestIsLastWrite(items, i);
    UpsertAllSpec(t, items, KeyOf(items[i]));
  }

  /** Rows under keys the batch does not write are unchanged, and no such row appears. */
  lemma UpsertOthersUnchanged(t: Table, items: seq<WrittenItem>, k: RowKey)
    requires k !in BatchKeys(items)
    ensures k in UpsertAll(t, items) <==> k in t
    ensures k in t ==> UpsertAll(t, items)[k] == t[k]
  {
    LatestSome(items, k);
    UpsertAllSpec(t, items, k);
  }

  lemma SingletonBatchKeys(item: WrittenItem)
    ensures BatchKeys([item]) == {KeyOf(item)}
  {
    assert KeyOf([item][0]) in BatchKeys([item]);
  }

  /** The table's keys after a batch: the old keys and the batch's keys. */
  lemma UpsertKeys(t: Table, items: seq<WrittenItem>)
    ensures UpsertAll(t, items).Keys == t.Keys + BatchKeys(items)
  {
    forall k ensures k in UpsertAll(t, items) <==> k in t.Keys + BatchKeys(items) {
      UpsertAllSpec(t, items, k);
      LatestSome(items, k);
    }
  }

  /** A batch that writes every key an earlier batch wrote erases all trace
      of the earlier one: only the latest write per key counts. */
  lemma UpsertShadowed(t: Table, earlier: seq<WrittenItem>, later: seq<WrittenItem>)
    requires BatchKeys(earlier) <= BatchKeys(later)
    ensures UpsertAll(UpsertAll(t, earlier), later) == UpsertAll(t, later)
  {
    var mid := UpsertAll(t, earlier);
    forall k ensures k in UpsertAll(mid, later) <==> k in UpsertAll(t, later) {
      UpsertAllSpec(mid, later, k);
      UpsertAllSpec(t, later, k);
      UpsertAllSpec(t, earlier, k);
      LatestSome(earlier, k);
      LatestSome(later, k);
    }
    forall k | k in UpsertAll(t, later) ensures UpsertAll(mid, later)[k] == UpsertAll(t, later)[k] {
      UpsertAllSpec(mid, later, k);
      UpsertAllSpec(t, later, k);
      UpsertAllSpec(t, earlier, k);
      LatestSome(earlier, k);
      LatestSome(later, k);
    }
  }

  /** Upserting the same batch twice leaves the table as upserting it once. */
  lemma UpsertIdempotent(t: Table, items: seq<WrittenItem>)
    ensures UpsertAll(UpsertAll(t, items), items) == UpsertAll(t, items)
  {
    UpsertShadowed(t, items, items);
  }

  /** Re-ingesting a key replaces its row: after two writes of the same key
      the table is as if only the second had happened. */
  lemma ReingestReplaces(t: Table, first: WrittenItem, second: WrittenItem)
    requires KeyOf(first) == KeyOf(second)
    ensures UpsertAll(UpsertAll(t, [first]), [second]) == UpsertAll(t, [second])
    ensures UpsertAll(UpsertAll(t, [first]), [second])[KeyOf(second)] == RowOf(second)
  {
    SingletonBatchKeys(first);
    SingletonBatchKeys(second);
    UpsertShadowed(t, [first], [second]);
    UpsertLastWriteWins(t, [second], 0);
  }

  /** Why an execution of the upsert statement fails. */
  datatype DbError =
    | SyntaxError           // no parameters: the `%s` placeholders reach the server as text
    | ArgumentCountMismatch // the number of parameters differs from the number of placeholders
    | RecordForScalarColumn // each placeholder receives a whole row tuple, not a column value

  /** The number of `%s` placeholders in the upsert statement. */
  const UpsertPlaceholders := 5

  /** The upsert as `upsert_raw_to_postgres` calls it: the whole list of row
      tuples is the parameter list of ONE execution of a statement with five
      placeholders. Every list length is rejected; a rejected statement
      changes no row, so the table stays `t`. */
  function ExecuteAsCalled(t: Table, rows: seq<WrittenItem>): (r: Result<Table, DbError>)
    ensures r.Failure?
    ensures |rows| == 0 ==> r.error == SyntaxError
    ensures |rows| == UpsertPlaceholders ==> r.error == RecordForScalarColumn
    ensures 0 < |rows| && |rows| != UpsertPlaceholders ==> r.error == ArgumentCountMismatch
  {
    if |rows| == 0 then Failure(SyntaxError)
    else if |rows| != UpsertPlaceholders then Failure(ArgumentCountMismatch)
    else Failure(RecordForScalarColumn)
  }

  /** A one-item batch for a new key: as called, the load fails and the key
      stays absent; the per-row upsert stores the item's row under it. */
  lemma AsCalledLosesBatch(t: Table, item: WrittenItem)
    requires KeyOf(item) !in t
    ensures ExecuteAsCalled(t, [item]) == Failure(ArgumentCountMismatch)
    ensures KeyOf(item) in UpsertAll(t, [item]) && UpsertAll(t, [item])[KeyOf(item)] == RowOf(item)
  {
    UpsertLastWriteWins(t, [item], 0);
  }

  /** The raw table as the warehouse holds it. */
  class RawTable {
    var rows: Table

    constructor (initial: Table)
      ensures rows == initial
    {
      rows := initial;
    }

    /** `upsert_raw_to_postgres`: one upsert per item in list order; returns the number of items. */
    method UpsertRaw(items: seq<WrittenItem>) returns (n: nat)
      modifies this
      ensures rows == UpsertAll(old(rows), items)
      ensures n == |items|
    {
      var i := 0;
      while i < |items|
        invariant i <= |items|
        invariant rows == UpsertAll(old(rows), items[..i])
      {
        assert items[..i + 1][..i] == items[..i];
        rows := UpsertRow(rows, items[i]);
        i := i + 1;
      }
      assert items[..|items|] == items;
      n := |items|;
    }
  }
}

/**
 * The data-quality gate that ends a daily run: count the raw rows loaded
 * for the day, publish the dataset when there is at least one, otherwise
 * move the day's partition to quarantine and fail the run.
 */
module Quality {
  import opened Wrappers
  import opened Paths
  import opened Requests
  import opened RawStore

  /** The rows `where load_date = ds`. */
  function RowsForDate(t: Table, ds: Date): set<RowKey> {
    set k | k in t && k.loadDate == ds
  }

  /** `select count(*) ... where load_date = ds`. */
  function CountForDate(t: Table, ds: Date): nat {
    |RowsForDate(t, ds)|
  }

  lemma CountPositive(t: Table, ds: Date)
    ensures CountForDate(t, ds) > 0 <==> exists k :: k in t && k.loadDate == ds
  {
    if k :| k in t && k.loadDate == ds {
      assert k in RowsForDate(t, ds);
    }
  }

  /** `dq_rowcount`: true iff the table holds at least one row for day `ds`. */
  function DqRowcount(t: Table, ds: Date): (ok: bool)
    ensures ok <==> exists k :: k in t && k.loadDate == ds
  {
    CountPositive(t, ds);
    CountForDate(t, ds) > 0
  }

  /** The task ids `branch_on_dq` chooses between. */
  const PublishDataset := "publish_dataset"
  const QuarantineAndFailTask := "quarantine_and_fail"

  /** `branch_on_dq`: the id of the task to run next. */
  function BranchOnDq(dqOk: bool): (task: string)
    ensures task == PublishDataset <==> dqOk
    ensures task == QuarantineAndFailTask <==> !dqOk
  {
    if dqOk then PublishDataset else QuarantineAndFailTask
  }

  /** A filesystem change `quarantine_and_fail` asks for. */
  datatype FsEffect = MakeDirs(dir: Path) | Rename(src: Path, dst: Path)

  /** The `ValueError` the task raises, with the changes made before raising. */
  datatype Quarantined = Quarantined(effects: seq<FsEffect>, message: string)

  /** `quarantine_and_fail`: when the day's partition exists, create the
      quarantine directory and move the partition into it; in every case fail. */
  function QuarantineAndFail(rawBase: string, ds: Date, partitionExists: bool): (r: Result<(), Quarantined>)
    ensures r.Failure?
    ensures r.error.message == "DQ failed for " + ds + "; partition moved to quarantine"
    ensures r.error.effects != [] <==> partitionExists
    ensures partitionExists ==>
              r.error.effects == [ MakeDirs(Parent(QuarantineDir(rawBase, ds))),
                                   Rename(PartitionDir(rawBase, ds), QuarantineDir(rawBase, ds)) ]
  {
    var src := PartitionDir(rawBase, ds);
    var dst := QuarantineDir(rawBase, ds);
    var effects := if partitionExists then [MakeDirs(Parent(dst)), Rename(src, dst)] else [];
    Failure(Quarantined(effects, "DQ failed for " + ds + "; partition moved to quarantine"))
  }

  /** Rows loaded for a day after a batch: those already there and those the batch wrote for it. */
  lemma RowsForDateAfterUpsert(t: Table, items: seq<WrittenItem>, d: Date)
    ensures RowsForDate(UpsertAll(t, items), d)
         == RowsForDate(t, d) + (set i | 0 <= i < |items| && items[i].ds == d :: KeyOf(items[i]))
  {
    UpsertKeys(t, items);
  }

  /** Upserts never lower a day's row count, so a day that passed the gate keeps passing it. */
  lemma CountNeverDrops(t: Table, items: seq<WrittenItem>, d: Date)
    ensures CountForDate(t, d) <= CountForDate(UpsertAll(t, items), d)
  {
    RowsForDateAfterUpsert(t, items, d);
    SubsetCardinality(RowsForDate(t, d), RowsForDate(UpsertAll(t, items), d));
  }

  lemma {:induction false} SubsetCardinality(a: set<RowKey>, b: set<RowKey>)
    requires a <= b
    ensures |a| <= |b|
    decreases a
  {
    if a != {} {
      var x :| x in a;
      SubsetCardinality(a - {x}, b - {x});
    }
  }

  /** After a batch, the gate publishes iff the day already had rows or the batch holds an item for it. */
  lemma GateAfterUpsert(t: Table, items: seq<WrittenItem>, ds: Date)
    ensures BranchOnDq(DqRowcount(UpsertAll(t, items), ds)) == PublishDataset
        <==> DqRowcount(t, ds) || exists i :: 0 <= i < |items| && items[i].ds == ds
  {
    UpsertKeys(t, items);
    if i :| 0 <= i < |items| && items[i].ds == ds {
      assert KeyOf(items[i]) in UpsertAll(t, items);
    }
    if k :| k in UpsertAll(t, items) && k.loadDate == ds {
      if k !in t {
        var i :| 0 <= i < |items| && KeyOf(items[i]) == k;
        assert items[i].ds == ds;
      }
    }
  }
}

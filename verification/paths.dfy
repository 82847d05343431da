/**
 * Locations in the raw data lake. The DAG writes one JSON file per city
 * under a partition directory for the run's day, and on a failed quality
 * check moves that day's partition under a quarantine directory.
 */
module Paths {

  /** A path as `pathlib` builds it: the configured base followed by the
      components appended with the `/` operator. */
  datatype Path = Path(base: string, parts: seq<string>)

  /** `Path(raw_base)`. */
  function Root(rawBase: string): Path {
    Path(rawBase, [])
  }

  /** `p / name`, for a relative component `name`. */
  function Join(p: Path, name: string): Path {
    Path(p.base, p.parts + [name])
  }

  /** `p.parent`, for a path with at least one component. */
  function Parent(p: Path): Path
    requires p.parts != []
  {
    Path(p.base, p.parts[..|p.parts| - 1])
  }

  /** `p.name`, for a path with at least one component. */
  function Name(p: Path): string
    requires p.parts != []
  {
    p.parts[|p.parts| - 1]
  }

  /** `str(p)`: the base, then `/` and each component in turn. */
  function Render(p: Path): string
    decreases |p.parts|
  {
    if p.parts == [] then p.base
    else Render(Parent(p)) + "/" + Name(p)
  }

  lemma RenderJoin(p: Path, name: string)
    ensures Render(Join(p, name)) == Render(p) + "/" + name
  {
    assert Parent(Join(p, name)) == p;
  }

  predicate IsSpaceOrUnderscore(c: char) {
    c == ' ' || c == '_'
  }

  /** The file-name segment of a city: `city_name.replace(" ", "_")`. */
  function CitySegment(name: string): (seg: string)
    ensures |seg| == |name|
    ensures forall i :: 0 <= i < |name| ==>
              seg[i] == (if name[i] == ' ' then '_' else name[i])
    ensures ' ' !in seg
  {
    if name == [] then []
    else [if name[0] == ' ' then '_' else name[0]] + CitySegment(name[1..])
  }

  /** Two names that agree everywhere except where both hold a space or an underscore. */
  predicate SameUpToSpaces(a: string, b: string) {
    |a| == |b| &&
    forall i :: 0 <= i < |a| ==>
      a[i] == b[i] || (IsSpaceOrUnderscore(a[i]) && IsSpaceOrUnderscore(b[i]))
  }

  /** Two city names get the same segment exactly when they differ only in
      spaces versus underscores ("New York" and "New_York" share one). */
  lemma CitySegmentCollision(a: string, b: string)
    ensures CitySegment(a) == CitySegment(b) <==> SameUpToSpaces(a, b)
  {
    var sa, sb := CitySegment(a), CitySegment(b);
    if sa == sb {
      forall i | 0 <= i < |a|
        ensures a[i] == b[i] || (IsSpaceOrUnderscore(a[i]) && IsSpaceOrUnderscore(b[i]))
      {
        assert sa[i] == sb[i];
      }
    }
    if SameUpToSpaces(a, b) {
      forall i | 0 <= i < |sa| ensures sa[i] == sb[i] {
        assert a[i] == b[i] || (IsSpaceOrUnderscore(a[i]) && IsSpaceOrUnderscore(b[i]));
      }
    }
  }

  /** Rewriting a segment again changes nothing. */
  lemma CitySegmentIdempotent(name: string)
    ensures CitySegment(CitySegment(name)) == CitySegment(name)
  {
    var s := CitySegment(name);
    assert forall i :: 0 <= i < |s| ==> CitySegment(s)[i] == s[i];
  }

  /** The day's partition directory: `raw_base / f"load_date={ds}"`. */
  function PartitionDir(rawBase: string, ds: string): Path {
    Join(Root(rawBase), "load_date=" + ds)
  }

  /** The raw file of one city: `partition / f"city={city}.json"`. */
  function RawFilePath(rawBase: string, ds: string, cityName: string): Path {
    Join(PartitionDir(rawBase, ds), "city=" + CitySegment(cityName) + ".json")
  }

  /** Where a failed day's partition goes: `raw_base / "quarantine" / f"load_date={ds}"`. */
  function QuarantineDir(rawBase: string, ds: string): Path {
    Join(Join(Root(rawBase), "quarantine"), "load_date=" + ds)
  }

  /** The raw file sits directly in the day's partition directory, and its
      text is `raw_base/load_date=<ds>/city=<segment>.json`. */
  lemma RawFileLocation(rawBase: string, ds: string, cityName: string)
    ensures Parent(RawFilePath(rawBase, ds, cityName)) == PartitionDir(rawBase, ds)
    ensures Render(RawFilePath(rawBase, ds, cityName))
         == rawBase + "/" + "load_date=" + ds + "/" + "city=" + CitySegment(cityName) + ".json"
  {
    RenderJoin(Root(rawBase), "load_date=" + ds);
    RenderJoin(PartitionDir(rawBase, ds), "city=" + CitySegment(cityName) + ".json");
  }

  /** The quarantine destination keeps the partition's directory name, lives
      in `raw_base/quarantine`, and its text is `raw_base/quarantine/load_date=<ds>`. */
  lemma QuarantineLocation(rawBase: string, ds: string)
    ensures Name(QuarantineDir(rawBase, ds)) == Name(PartitionDir(rawBase, ds))
    ensures Parent(QuarantineDir(rawBase, ds)) == Join(Root(rawBase), "quarantine")
    ensures Render(QuarantineDir(rawBase, ds))
         == rawBase + "/" + "quarantine" + "/" + "load_date=" + ds
  {
    RenderJoin(Root(rawBase), "quarantine");
    RenderJoin(Join(Root(rawBase), "quarantine"), "load_date=" + ds);
  }

  /** A quarantined partition never lands on a live partition or raw file. */
  lemma QuarantineIsolated(rawBase: string, ds: string, day: string, cityName: string)
    ensures QuarantineDir(rawBase, ds) != PartitionDir(rawBase, day)
    ensures QuarantineDir(rawBase, ds) != RawFilePath(rawBase, day, cityName)
  {
    var q := QuarantineDir(rawBase, ds);
    assert q.parts[0] == "quarantine";
    assert PartitionDir(rawBase, day).parts[0] == "load_date=" + day;
    assert RawFilePath(rawBase, day, cityName).parts[0] == "load_date=" + day;
    assert ("load_date=" + day)[0] == 'l';
  }

  /** Different days have different partition directories. */
  lemma PartitionDirInjective(rawBase: string, d1: string, d2: string)
    ensures PartitionDir(rawBase, d1) == PartitionDir(rawBase, d2) <==> d1 == d2
  {
    if PartitionDir(rawBase, d1) == PartitionDir(rawBase, d2) {
      assert PartitionDir(rawBase, d1).parts[0] == "load_date=" + d1;
      assert d1 == ("load_date=" + d1)[10..];
      assert d2 == ("load_date=" + d2)[10..];
    }
  }

  /** Two items share a raw file exactly when they are for the same day and
      their city names agree up to spaces versus underscores. */
  lemma RawFilePathCollision(rawBase: string, d1: string, c1: string, d2: string, c2: string)
    ensures RawFilePath(rawBase, d1, c1) == RawFilePath(rawBase, d2, c2)
        <==> d1 == d2 && SameUpToSpaces(c1, c2)
  {
    CitySegmentCollision(c1, c2);
    var f1, f2 := "city=" + CitySegment(c1) + ".json", "city=" + CitySegment(c2) + ".json";
    if RawFilePath(rawBase, d1, c1) == RawFilePath(rawBase, d2, c2) {
      assert Parent(RawFilePath(rawBase, d1, c1)) == PartitionDir(rawBase, d1);
      assert Parent(RawFilePath(rawBase, d2, c2)) == PartitionDir(rawBase, d2);
      PartitionDirInjective(rawBase, d1, d2);
      assert Name(RawFilePath(rawBase, d1, c1)) == f1;
      assert Name(RawFilePath(rawBase, d2, c2)) == f2;
      assert f1 == f2;
      assert |CitySegment(c1)| == |CitySegment(c2)|;
      assert CitySegment(c1) == f1[5..|f1| - 5];
      assert CitySegment(c2) == f2[5..|f2| - 5];
    }
  }
}

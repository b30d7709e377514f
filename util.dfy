/**
 * Times and the small helpers of the util package: `MaxTime` and `MinTime`
 * (internal/util/util.go), and `MergeStringMaps`, whose source is not part of this model.
 */
module Util {
  import opened Wrappers

  /**
   * An instant as the exact, unbounded count of nanoseconds since the Unix epoch. It equals
   * `time.Time.UnixNano` only between the years 1678 and 2262, where that count fits an int64.
   * Clock readings ("now") are parameters.
   */
  type Time = int

  /** `time.Duration`: signed nanoseconds. */
  type Duration = int

  const Second: Duration := 1_000_000_000
  const Hour: Duration := 3600 * Second

  /**
   * Go's zero `time.Time{}` (January 1, year 1, UTC), the "not set" marker that
   * `IsZero` tests for. It lies before every instant a cloud API reports.
   */
  const ZeroTime: Time := -62_135_596_800 * Second

  predicate IsZero(t: Time) {
    t == ZeroTime
  }

  /**
   * A time written as text in a provider reply, with what `time.Parse` makes of it under the
   * layout its caller uses: the instant, or the library's error. Parsing itself is not modelled.
   */
  datatype TimeText = TimeText(text: string, parsed: Result<Time, string>)

  /** `a.After(b)` and `a.Before(b)`. */
  predicate After(a: Time, b: Time) { a > b }
  predicate Before(a: Time, b: Time) { a < b }

  /** `time.Unix(sec, 0)`: the instant `sec` whole seconds after the epoch. */
  function Unix(sec: int): (r: Time)
    ensures r % Second == 0 && r / Second == sec
  {
    sec * Second
  }

  /** The later of two times; on a tie, the second argument. */
  function MaxTime(a: Time, b: Time): (r: Time)
    ensures r == a || r == b
    ensures !Before(r, a) && !Before(r, b)
    ensures r == a ==> After(a, b) || a == b
  {
    if After(a, b) then a else b
  }

  /** The earlier of two times; on a tie, the second argument. */
  function MinTime(a: Time, b: Time): (r: Time)
    ensures r == a || r == b
    ensures !After(r, a) && !After(r, b)
    ensures r == a ==> Before(a, b) || a == b
  {
    if Before(a, b) then a else b
  }

  /**
   * `util.MergeStringMaps(maps...)`. Its source is not part of this model; it is taken to be
   * the union of the maps in which a later map's value wins on a shared key, which is what
   * pkg/core/runner_test.go expects of it.
   */
  function MergeStringMaps(maps: seq<map<string, string>>): (r: map<string, string>)
    ensures forall i, k :: 0 <= i < |maps| && k in maps[i] ==> k in r
    ensures |maps| > 0 ==> forall k :: k in maps[|maps| - 1] ==> r[k] == maps[|maps| - 1][k]
  {
    if |maps| == 0 then map[]
    else
      var n := |maps| - 1;
      assert forall i :: 0 <= i < n ==> maps[..n][i] == maps[i];
      MergeStringMaps(maps[..n]) + maps[n]
  }

  /** Every merged key comes from one of the maps. */
  lemma {:induction false} MergeStringMapsKeys(maps: seq<map<string, string>>, k: string)
    requires k in MergeStringMaps(maps)
    ensures exists i :: 0 <= i < |maps| && k in maps[i]
  {
    var n := |maps| - 1;
    if k !in maps[n] {
      MergeStringMapsKeys(maps[..n], k);
      var i :| 0 <= i < n && k in maps[..n][i];
      assert maps[i] == maps[..n][i];
    }
  }

  /** A key takes its value from the last map that has it. */
  lemma {:induction false} MergeStringMapsValue(maps: seq<map<string, string>>, k: string, i: nat)
    requires i < |maps| && k in maps[i]
    requires forall j :: i < j < |maps| ==> k !in maps[j]
    ensures k in MergeStringMaps(maps) && MergeStringMaps(maps)[k] == maps[i][k]
  {
    var n := |maps| - 1;
    if i < n {
      assert forall j :: i < j < n ==> maps[..n][j] == maps[j];
      MergeStringMapsValue(maps[..n], k, i);
    }
  }

  /**
   * Merging one session's tags with a declaration's: every key of either, with the
   * declaration's value on a shared key.
   */
  lemma MergeTwo(base: map<string, string>, over: map<string, string>)
    ensures MergeStringMaps([base, over]) == base + over
  {
    assert [base, over][..1] == [base];
    MergeOne(base);
  }

  /** Merging a single map copies it. */
  lemma MergeOne(m: map<string, string>)
    ensures MergeStringMaps([m]) == m
  {
    assert [m][..0] == [];
  }
}

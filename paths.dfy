/**
 * Where the cache keeps its files. A path is the sequence of its
 * components below the working directory, as `pathlib` joins them.
 */
module Paths {

  /** The resources whose responses are kept as timestamped snapshots. */
  datatype Kind = Trips | Parking | Odometer | RemoteControl | Statistics

  type Path = seq<string>

  const CacheDir := "cache"

  /** The directory of a kind under the cache, which is also its file name prefix. */
  function Dir(k: Kind): string
  {
    match k
    case Trips => "trips"
    case Parking => "parking"
    case Odometer => "odometer"
    case RemoteControl => "remote_control"
    case Statistics => "statistics"
  }

  /** `cache/<dir>/<dir>-<stamp>`, the stamp being the text of the current time. */
  function SnapshotPath(k: Kind, stamp: string): Path
  {
    [CacheDir, Dir(k), Dir(k) + "-" + stamp]
  }

  /** What the pattern `cache/<dir>/<dir>*` of the latest-file lookup matches. */
  predicate InLatestGlob(k: Kind, p: Path)
  {
    |p| == 3 && p[0] == CacheDir && p[1] == Dir(k) && Dir(k) <= p[2]
  }

  /** Every snapshot is seen by the lookup of its own kind and of no other. */
  lemma {:induction false} SnapshotInOwnGlob(k: Kind, stamp: string)
    ensures InLatestGlob(k, SnapshotPath(k, stamp))
    ensures forall j :: j != k ==> !InLatestGlob(j, SnapshotPath(k, stamp))
  {
    var p := SnapshotPath(k, stamp);
    assert Dir(k) <= p[2];
  }

  /** Python `s[i:j]` for non-negative bounds: out-of-range bounds are clamped. */
  function Slice(s: string, i: nat, j: nat): (r: string)
    ensures |r| <= (if j < i then 0 else j - i)
    ensures i <= j <= |s| ==> r == s[i..j]
  {
    var lo := if i < |s| then i else |s|;
    var hi := if j < lo then lo else if j < |s| then j else |s|;
    s[lo..hi]
  }

  /** `base / part`: pathlib drops an empty part. */
  function Join(base: Path, part: string): Path
  {
    if part == "" then base else base + [part]
  }

  /** `cache/trips/<id[0:2]>/<id[2:4]>/<id>`, where a trip's details are kept. */
  function DetailPath(id: string): Path
  {
    Join(Join(Join([CacheDir, "trips"], Slice(id, 0, 2)), Slice(id, 2, 4)), id)
  }

  /** For a trip id of four or more characters the path has all five components. */
  lemma {:induction false} DetailPathShape(id: string)
    requires |id| >= 4
    ensures DetailPath(id) == [CacheDir, "trips", id[0..2], id[2..4], id]
  {
  }

  /** The last component of a non-empty id's path is the id; the empty id names `cache/trips` itself. */
  lemma {:induction false} DetailPathEnds(id: string)
    ensures id == "" ==> DetailPath(id) == [CacheDir, "trips"]
    ensures id != "" ==> 4 <= |DetailPath(id)| <= 5 && DetailPath(id)[|DetailPath(id)| - 1] == id
  {
    if |id| >= 4 {
      DetailPathShape(id);
    } else if |id| > 2 {
      assert Slice(id, 0, 2) == id[0..2] && Slice(id, 2, 4) == id[2..];
    } else if id != "" {
      assert Slice(id, 0, 2) == id && Slice(id, 2, 4) == "";
    }
  }

  /**
   * Different ids give different component lists. Each component is one
   * path segment only when the id has no '/', so for such ids different
   * trips never share a detail file.
   */
  lemma {:induction false} DetailPathInjective(a: string, b: string)
    requires DetailPath(a) == DetailPath(b)
    ensures a == b
  {
    DetailPathEnds(a);
    DetailPathEnds(b);
  }

  /**
   * For ids of four or more characters no detail path is a proper prefix of
   * another, so when the ids have no '/' no trip's file is another trip's
   * directory. Shorter ids are not covered: "ab" names `cache/trips/ab/ab`,
   * a directory of the id "abab".
   */
  lemma {:induction false} DetailPathsPrefixFree(a: string, b: string)
    requires |a| >= 4 && |b| >= 4 && DetailPath(a) <= DetailPath(b)
    ensures a == b
  {
    DetailPathShape(a);
    DetailPathShape(b);
    assert DetailPath(a)[4] == DetailPath(b)[4];
  }

  /**
   * Neither a detail file nor any directory made for it under `cache/trips`
   * is matched by the latest-trips lookup, so the trip snapshots and the
   * trip details can be kept apart.
   */
  lemma {:induction false} DetailOutsideTripsGlob(id: string, n: nat)
    requires 3 <= n <= |DetailPath(id)|
    ensures !InLatestGlob(Trips, DetailPath(id)[..n])
  {
    DetailPathEnds(id);
    var p := DetailPath(id)[..n];
    if n == 3 {
      if |id| >= 4 {
        DetailPathShape(id);
      } else if |id| > 2 {
        assert Slice(id, 0, 2) == id[0..2] && Slice(id, 2, 4) == id[2..];
      } else {
        assert Slice(id, 0, 2) == id && Slice(id, 2, 4) == "";
      }
      assert |p[2]| <= 2;
      assert !(Dir(Trips) <= p[2]);
    }
  }

  /** On Windows every ':' is removed from a path's text before it is opened for writing. */
  function StripColons(s: string): (r: string)
    ensures ':' !in r
    ensures |r| <= |s|
    ensures forall c :: c != ':' ==> multiset(r)[c] == multiset(s)[c]
  {
    if s == [] then []
    else
      var rest := StripColons(s[1..]);
      assert s == [s[0]] + s[1..];
      if s[0] == ':' then rest else [s[0]] + rest
  }

  /** The other characters keep their order: stripping works piece by piece. */
  lemma {:induction false} StripColonsAppend(a: string, b: string)
    ensures StripColons(a + b) == StripColons(a) + StripColons(b)
    decreases |a|
  {
    if a != [] {
      assert (a + b)[1..] == a[1..] + b;
      StripColonsAppend(a[1..], b);
    } else {
      assert a + b == b;
    }
  }

  /** A text without ':' is left as it is, so stripping twice is stripping once. */
  lemma {:induction false} StripColonsNoColon(s: string)
    requires ':' !in s
    ensures StripColons(s) == s
    decreases |s|
  {
    if s != [] {
      assert s[0] != ':';
      StripColonsNoColon(s[1..]);
    }
  }

  lemma {:induction false} StripColonsIdempotent(s: string)
    ensures StripColons(StripColons(s)) == StripColons(s)
  {
    StripColonsNoColon(StripColons(s));
  }
}

/**
 * Geohash-prefix clustering as both the zoomed-out map and the bucket cache do
 * it: records are filed under the first `precision` characters of their
 * geohash, and each bucket becomes one summary at the mean of its members'
 * coordinates, counting its members.
 *
 * Grouping works on a snapshot of each record (its key and coordinates), which
 * is all the summaries read.
 */
module Clustering {
  import opened Wrappers
  import opened Foreign
  import opened Grouping
  import opened SafeParkingAreas
  import opened NoParkingAreas
  import opened SetAnnotations
  import opened ClusterAnnotations

  /** The key length both clustering sites use. */
  const DefaultPrecision: nat := 5

  /** The coordinates of one record, as the summaries read them. */
  datatype Site = Site(latitude: Option<real>, longitude: Option<real>)

  /** A safe area's bucket: the first `precision` characters of its geohash, "" when it has none. */
  function SafeKey(geohash: Option<string>, precision: nat): (k: string)
    ensures geohash.None? ==> k == ""
    ensures geohash.Some? ==> k <= geohash.value && |k| == (if |geohash.value| < precision then |geohash.value| else precision)
  {
    match geohash
    case None => ""
    case Some(g) => Prefix(g, precision)
  }

  /** A no-parking area's bucket: the first `precision` characters of its geohash. */
  function DangerKey(geohash: string, precision: nat): (k: string)
    ensures k <= geohash && |k| == (if |geohash| < precision then |geohash| else precision)
  {
    Prefix(geohash, precision)
  }

  /** Each safe area with its bucket key. */
  function SafeEntries(all: seq<SafeParkingArea>, precision: nat): (es: seq<Keyed<Site>>)
    reads all
    ensures |es| == |all|
    ensures forall i :: 0 <= i < |all| ==>
      es[i] == Keyed(SafeKey(all[i].geohash, precision), Site(all[i].latitude, all[i].longitude))
  {
    if all == [] then []
    else
      var a := all[|all| - 1];
      SafeEntries(all[..|all| - 1], precision) + [Keyed(SafeKey(a.geohash, precision), Site(a.latitude, a.longitude))]
  }

  /** Each no-parking area with its bucket key; its coordinates are always present. */
  function DangerEntries(all: seq<NoParkingArea>, precision: nat): (es: seq<Keyed<Site>>)
    reads all
    ensures |es| == |all|
    ensures forall i :: 0 <= i < |all| ==>
      es[i] == Keyed(DangerKey(all[i].geohash, precision), Site(Some(all[i].latitude), Some(all[i].longitude)))
  {
    if all == [] then []
    else
      var a := all[|all| - 1];
      DangerEntries(all[..|all| - 1], precision)
        + [Keyed(DangerKey(a.geohash, precision), Site(Some(a.latitude), Some(a.longitude)))]
  }

  predicate HasLatitude(sites: seq<Site>) {
    exists i :: 0 <= i < |sites| && sites[i].latitude.Some?
  }

  predicate HasLongitude(sites: seq<Site>) {
    exists i :: 0 <= i < |sites| && sites[i].longitude.Some?
  }

  /** How many sites have a latitude. */
  function LatitudeCount(sites: seq<Site>): nat {
    if sites == [] then 0
    else LatitudeCount(sites[..|sites| - 1]) + (if sites[|sites| - 1].latitude.Some? then 1 else 0)
  }

  /** The present latitudes added left to right. */
  function LatitudeSum(sites: seq<Site>): real {
    if sites == [] then 0.0 else LatitudeSum(sites[..|sites| - 1]) + sites[|sites| - 1].latitude.GetOr(0.0)
  }

  /** How many sites have a longitude. */
  function LongitudeCount(sites: seq<Site>): nat {
    if sites == [] then 0
    else LongitudeCount(sites[..|sites| - 1]) + (if sites[|sites| - 1].longitude.Some? then 1 else 0)
  }

  /** The present longitudes added left to right. */
  function LongitudeSum(sites: seq<Site>): real {
    if sites == [] then 0.0 else LongitudeSum(sites[..|sites| - 1]) + sites[|sites| - 1].longitude.GetOr(0.0)
  }

  /**
   * `compactMap { $0.latitude }`: one entry per present latitude, so as many
   * entries as there are latitudes and adding up to their sum, each a latitude
   * of some site.
   */
  function Latitudes(sites: seq<Site>): (xs: seq<real>)
    ensures |xs| == LatitudeCount(sites) && Sum(xs) == LatitudeSum(sites)
    ensures forall j :: 0 <= j < |xs| ==> exists i :: 0 <= i < |sites| && sites[i].latitude == Some(xs[j])
    ensures xs == [] <==> !HasLatitude(sites)
  {
    if sites == [] then []
    else
      var init := sites[..|sites| - 1];
      var last := sites[|sites| - 1];
      var ys := Latitudes(init);
      assert (ys + [last.latitude.GetOr(0.0)])[..|ys|] == ys;
      var xs := if last.latitude.Some? then ys + [last.latitude.value] else ys;
      assert forall i :: 0 <= i < |init| ==> init[i] == sites[i];
      assert HasLatitude(sites) <==> HasLatitude(init) || last.latitude.Some?;
      xs
  }

  /**
   * `compactMap { $0.longitude }`: one entry per present longitude, so as many
   * entries as there are longitudes and adding up to their sum, each a
   * longitude of some site.
   */
  function Longitudes(sites: seq<Site>): (xs: seq<real>)
    ensures |xs| == LongitudeCount(sites) && Sum(xs) == LongitudeSum(sites)
    ensures forall j :: 0 <= j < |xs| ==> exists i :: 0 <= i < |sites| && sites[i].longitude == Some(xs[j])
    ensures xs == [] <==> !HasLongitude(sites)
  {
    if sites == [] then []
    else
      var init := sites[..|sites| - 1];
      var last := sites[|sites| - 1];
      var ys := Longitudes(init);
      assert (ys + [last.longitude.GetOr(0.0)])[..|ys|] == ys;
      var xs := if last.longitude.Some? then ys + [last.longitude.value] else ys;
      assert forall i :: 0 <= i < |init| ==> init[i] == sites[i];
      assert HasLongitude(sites) <==> HasLongitude(init) || last.longitude.Some?;
      xs
  }

  /** `m` is the mean of `n` values adding up to `total`, or 0 when there are none. */
  predicate IsMean(m: real, n: nat, total: real) {
    if n == 0 then m == 0.0 else m * n as real == total
  }

  /**
   * Where a bucket is drawn: at the mean of its members' present latitudes and
   * at the mean of their present longitudes, each 0 when there is none.
   */
  function Centroid(sites: seq<Site>): (c: Coordinate)
    ensures IsMean(c.latitude, LatitudeCount(sites), LatitudeSum(sites))
    ensures IsMean(c.longitude, LongitudeCount(sites), LongitudeSum(sites))
  {
    var lats, lngs := Latitudes(sites), Longitudes(sites);
    Coordinate(Average(lats), Average(lngs))
  }

  /** One summary per group: its centroid, its size and its key. */
  function Summarise(gs: seq<Group<Site>>): (ss: seq<ClusterSummary>)
    ensures |ss| == |gs|
    ensures forall i :: 0 <= i < |gs| ==> ss[i] == ClusterSummary(Centroid(gs[i].members), |gs[i].members|, gs[i].key)
  {
    if gs == [] then [] else [ClusterSummary(Centroid(gs[0].members), |gs[0].members|, gs[0].key)] + Summarise(gs[1..])
  }

  /**
   * The buckets of `es`, one summary each: one per key present, each at the
   * centroid of the records filed under its key and counting them.
   */
  function Summaries(es: seq<Keyed<Site>>): (ss: seq<ClusterSummary>)
    ensures forall i, j :: 0 <= i < j < |ss| ==> ss[i].geohash != ss[j].geohash
    ensures forall k :: HasKey(es, k) <==> exists i :: 0 <= i < |ss| && ss[i].geohash == k
    ensures forall i :: 0 <= i < |ss| ==>
      ss[i].coordinate == Centroid(Members(es, ss[i].geohash)) && ss[i].count == |Members(es, ss[i].geohash)|
  {
    Summarise(GroupBy(es))
  }

  function SumCounts(ss: seq<ClusterSummary>): int {
    if ss == [] then 0 else ss[0].count + SumCounts(ss[1..])
  }

  /** How many entries carry key `k`. */
  function KeyCount<T>(es: seq<Keyed<T>>, k: string): nat {
    if es == [] then 0 else KeyCount(es[..|es| - 1], k) + (if es[|es| - 1].key == k then 1 else 0)
  }

  lemma {:induction false} MembersCount<T>(es: seq<Keyed<T>>, k: string)
    ensures |Members(es, k)| == KeyCount(es, k)
  {
    if es != [] {
      MembersCount(es[..|es| - 1], k);
    }
  }

  lemma {:induction false} SumCountsSummarise(gs: seq<Group<Site>>)
    ensures SumCounts(Summarise(gs)) == TotalCount(gs)
  {
    if gs != [] {
      assert Summarise(gs)[1..] == Summarise(gs[1..]);
      SumCountsSummarise(gs[1..]);
    }
  }

  /**
   * The summaries partition the records: one per distinct key, each counting
   * exactly the records with its key, never empty, and the counts add up to the
   * number of records.
   */
  lemma SummariesPartition(es: seq<Keyed<Site>>)
    ensures forall i, j :: 0 <= i < j < |Summaries(es)| ==> Summaries(es)[i].geohash != Summaries(es)[j].geohash
    ensures forall k :: HasKey(es, k) <==> exists i :: 0 <= i < |Summaries(es)| && Summaries(es)[i].geohash == k
    ensures forall i :: 0 <= i < |Summaries(es)| ==>
      Summaries(es)[i].count == KeyCount(es, Summaries(es)[i].geohash) > 0
    ensures SumCounts(Summaries(es)) == |es|
  {
    var gs := GroupBy(es);
    var ss := Summaries(es);
    GroupByShape(es);
    forall k | HasKey(es, k) ensures exists i :: 0 <= i < |ss| && ss[i].geohash == k {
      var g :| g in gs && g.key == k;
      var i :| 0 <= i < |gs| && gs[i] == g;
      assert ss[i].geohash == k;
    }
    forall i | 0 <= i < |ss| ensures ss[i].count == KeyCount(es, ss[i].geohash) > 0 {
      assert gs[i] in gs;
      MembersCount(es, gs[i].key);
    }
    SumCountsSummarise(gs);
    GroupSizesSum(es);
  }

  /** A bucket with at least one latitude is drawn between its lowest and highest latitude. */
  lemma CentroidLatitudeWithin(sites: seq<Site>, lo: real, hi: real)
    requires HasLatitude(sites)
    requires forall i :: 0 <= i < |sites| && sites[i].latitude.Some? ==> lo <= sites[i].latitude.value <= hi
    ensures lo <= Centroid(sites).latitude <= hi
  {
    var xs := Latitudes(sites);
    forall j | 0 <= j < |xs| ensures lo <= xs[j] <= hi {
      var i :| 0 <= i < |sites| && sites[i].latitude == Some(xs[j]);
    }
    AverageBounds(xs, lo, hi);
  }

  /** A bucket with at least one longitude is drawn between its lowest and highest longitude. */
  lemma CentroidLongitudeWithin(sites: seq<Site>, lo: real, hi: real)
    requires HasLongitude(sites)
    requires forall i :: 0 <= i < |sites| && sites[i].longitude.Some? ==> lo <= sites[i].longitude.value <= hi
    ensures lo <= Centroid(sites).longitude <= hi
  {
    var xs := Longitudes(sites);
    forall j | 0 <= j < |xs| ensures lo <= xs[j] <= hi {
      var i :| 0 <= i < |sites| && sites[i].longitude == Some(xs[j]);
    }
    AverageBounds(xs, lo, hi);
  }

  /** A bucket none of whose members has a latitude is drawn at latitude 0. */
  lemma CentroidWithoutLatitudes(sites: seq<Site>)
    requires !HasLatitude(sites)
    ensures Centroid(sites).latitude == 0.0
  {
  }
}

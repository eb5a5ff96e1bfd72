/**
 * The memoising bucket cache behind the zoomed-out map: the first request
 * groups what the repository returns and stores the result; every later request
 * returns what was stored.
 */
module SetUnitCaching {
  import opened Wrappers
  import opened Grouping
  import opened SafeParkingAreas
  import opened NoParkingAreas
  import opened SetAnnotations
  import opened ClusterAnnotations
  import opened Clustering

  /**
   * What the repository's `getSafeAreaCluster` / `getDangerAreaCluster` return.
   * Their code is not part of this model; the records they hand out are fields
   * here, and they may change between calls.
   */
  class ClusterSource {
    var safeAll: seq<SafeParkingArea>
    var dangerAll: seq<NoParkingArea>

    constructor (safeAll: seq<SafeParkingArea>, dangerAll: seq<NoParkingArea>)
      ensures this.safeAll == safeAll && this.dangerAll == dangerAll
    {
      this.safeAll := safeAll;
      this.dangerAll := dangerAll;
    }
  }

  /** Each safe summary as a safe-set pin, in order. */
  function SafeSets(ss: seq<ClusterSummary>): (r: seq<SafeSetAnnotation>)
    ensures |r| == |ss|
    ensures forall i :: 0 <= i < |ss| ==> r[i] == SafeSetAnnotation("safeSet", ss[i].coordinate, ss[i].count)
  {
    if ss == [] then [] else [SafeSetAnnotation("safeSet", ss[0].coordinate, ss[0].count)] + SafeSets(ss[1..])
  }

  /** Each danger summary as a danger-set pin, in order. */
  function DangerSets(ss: seq<ClusterSummary>): (r: seq<DangerSetAnnotation>)
    ensures |r| == |ss|
    ensures forall i :: 0 <= i < |ss| ==> r[i] == DangerSetAnnotation("dangerSet", ss[i].coordinate, ss[i].count)
  {
    if ss == [] then [] else [DangerSetAnnotation("dangerSet", ss[0].coordinate, ss[0].count)] + DangerSets(ss[1..])
  }

  function SafeSetCounts(r: seq<SafeSetAnnotation>): int {
    if r == [] then 0 else r[0].count + SafeSetCounts(r[1..])
  }

  function DangerSetCounts(r: seq<DangerSetAnnotation>): int {
    if r == [] then 0 else r[0].count + DangerSetCounts(r[1..])
  }

  lemma {:induction false} SafeSetsCount(ss: seq<ClusterSummary>)
    ensures SafeSetCounts(SafeSets(ss)) == SumCounts(ss)
  {
    if ss != [] {
      assert SafeSets(ss)[1..] == SafeSets(ss[1..]);
      SafeSetsCount(ss[1..]);
    }
  }

  lemma {:induction false} DangerSetsCount(ss: seq<ClusterSummary>)
    ensures DangerSetCounts(DangerSets(ss)) == SumCounts(ss)
  {
    if ss != [] {
      assert DangerSets(ss)[1..] == DangerSets(ss[1..]);
      DangerSetsCount(ss[1..]);
    }
  }

  /** The safe-set pins built from a fresh grouping count every record fetched exactly once. */
  lemma SafeSetsCountEveryRecord(es: seq<Keyed<Site>>)
    ensures SafeSetCounts(SafeSets(Summarise(GroupBy(es)))) == |es|
  {
    SafeSetsCount(Summaries(es));
    SummariesPartition(es);
  }

  /** The danger-set pins built from a fresh grouping count every record fetched exactly once. */
  lemma DangerSetsCountEveryRecord(es: seq<Keyed<Site>>)
    ensures DangerSetCounts(DangerSets(Summarise(GroupBy(es)))) == |es|
  {
    DangerSetsCount(Summaries(es));
    SummariesPartition(es);
  }

  class SetUnitCache {
    var safeAreaSet: Option<seq<Group<Site>>>
    var dangerAreaSet: Option<seq<Group<Site>>>
    var safeSetSummaries: Option<seq<SafeSetAnnotation>>
    var dangerSetSummaries: Option<seq<DangerSetAnnotation>>
    const repository: ClusterSource
    const precision: nat

    /** Stored pins are always the pins of the stored buckets. */
    ghost predicate Valid()
      reads this
    {
      && (safeSetSummaries.Some? ==>
            safeAreaSet.Some? && safeSetSummaries.value == SafeSets(Summarise(safeAreaSet.value)))
      && (dangerSetSummaries.Some? ==>
            dangerAreaSet.Some? && dangerSetSummaries.value == DangerSets(Summarise(dangerAreaSet.value)))
    }

    /** A new cache holds nothing yet. */
    constructor (repository: ClusterSource, precision: nat)
      ensures this.repository == repository && this.precision == precision
      ensures safeAreaSet == None && dangerAreaSet == None
      ensures safeSetSummaries == None && dangerSetSummaries == None
      ensures Valid()
    {
      this.repository := repository;
      this.precision := precision;
      safeAreaSet, dangerAreaSet := None, None;
      safeSetSummaries, dangerSetSummaries := None, None;
    }

    /** The initialiser with its default precision of 5. */
    constructor WithDefaultPrecision(repository: ClusterSource)
      ensures this.repository == repository && precision == DefaultPrecision
      ensures safeAreaSet == None && dangerAreaSet == None
      ensures safeSetSummaries == None && dangerSetSummaries == None
      ensures Valid()
    {
      this.repository := repository;
      precision := 5;
      safeAreaSet, dangerAreaSet := None, None;
      safeSetSummaries, dangerSetSummaries := None, None;
    }

    /** The safe buckets a request would use now: the stored ones, or a fresh grouping. */
    ghost function SafeBuckets(): seq<Group<Site>>
      reads this, repository, repository.safeAll
    {
      if safeAreaSet.Some? then safeAreaSet.value else GroupBy(SafeEntries(repository.safeAll, precision))
    }

    /** The danger buckets a request would use now: the stored ones, or a fresh grouping. */
    ghost function DangerBuckets(): seq<Group<Site>>
      reads this, repository, repository.dangerAll
    {
      if dangerAreaSet.Some? then dangerAreaSet.value else GroupBy(DangerEntries(repository.dangerAll, precision))
    }

    /** `getSafeCluster`: the stored buckets if any, otherwise group the repository's safe areas and store them. */
    method GetSafeCluster() returns (c: seq<Group<Site>>)
      modifies this`safeAreaSet
      ensures c == old(SafeBuckets())
      ensures safeAreaSet == Some(c)
      ensures old(safeAreaSet).Some? ==> safeAreaSet == old(safeAreaSet)
    {
      if safeAreaSet.Some? {
        return safeAreaSet.value;
      }
      c := GroupBy(SafeEntries(repository.safeAll, precision));
      safeAreaSet := Some(c);
    }

    /** `getDangerCluster`: the stored buckets if any, otherwise group the repository's no-parking areas and store them. */
    method GetDangerCluster() returns (c: seq<Group<Site>>)
      modifies this`dangerAreaSet
      ensures c == old(DangerBuckets())
      ensures dangerAreaSet == Some(c)
      ensures old(dangerAreaSet).Some? ==> dangerAreaSet == old(dangerAreaSet)
    {
      if dangerAreaSet.Some? {
        return dangerAreaSet.value;
      }
      c := GroupBy(DangerEntries(repository.dangerAll, precision));
      dangerAreaSet := Some(c);
    }

    /**
     * `getSafeSummaries`: the stored pins if any, without touching the
     * repository; otherwise one "safeSet" pin per bucket, stored for next time.
     */
    method GetSafeSummaries() returns (r: seq<SafeSetAnnotation>)
      requires Valid()
      modifies this`safeAreaSet, this`safeSetSummaries
      ensures Valid()
      ensures old(safeSetSummaries).Some? ==> r == old(safeSetSummaries).value && unchanged(this)
      ensures old(safeSetSummaries).None? ==> r == SafeSets(Summarise(old(SafeBuckets())))
      ensures safeSetSummaries == Some(r) && safeAreaSet.Some?
      ensures old(safeAreaSet).Some? ==> safeAreaSet == old(safeAreaSet)
    {
      if safeSetSummaries.Some? {
        return safeSetSummaries.value;
      }
      var grouped := GetSafeCluster();
      r := SafeSets(Summarise(grouped));
      safeSetSummaries := Some(r);
    }

    /**
     * `getDangerSummaries`: the stored pins if any, without touching the
     * repository; otherwise one "dangerSet" pin per bucket, stored for next time.
     */
    method GetDangerSummaries() returns (r: seq<DangerSetAnnotation>)
      requires Valid()
      modifies this`dangerAreaSet, this`dangerSetSummaries
      ensures Valid()
      ensures old(dangerSetSummaries).Some? ==> r == old(dangerSetSummaries).value && unchanged(this)
      ensures old(dangerSetSummaries).None? ==> r == DangerSets(Summarise(old(DangerBuckets())))
      ensures dangerSetSummaries == Some(r) && dangerAreaSet.Some?
      ensures old(dangerAreaSet).Some? ==> dangerAreaSet == old(dangerAreaSet)
    {
      if dangerSetSummaries.Some? {
        return dangerSetSummaries.value;
      }
      var grouped := GetDangerCluster();
      r := DangerSets(Summarise(grouped));
      dangerSetSummaries := Some(r);
    }
  }

  /**
   * Two requests in a row give the same safe pins, even when the repository's
   * records change in between; on a new cache those pins count every record the
   * repository held at the first request.
   */
  method SafeSummariesAreMemoised(cache: SetUnitCache, changed: seq<SafeParkingArea>)
    returns (first: seq<SafeSetAnnotation>, second: seq<SafeSetAnnotation>)
    requires cache.Valid() && cache.safeAreaSet.None? && cache.safeSetSummaries.None?
    modifies cache, cache.repository
    ensures first == second
    ensures SafeSetCounts(first) == |old(cache.repository.safeAll)|
  {
    SafeSetsCountEveryRecord(SafeEntries(cache.repository.safeAll, cache.precision));
    first := cache.GetSafeSummaries();
    cache.repository.safeAll := changed;
    second := cache.GetSafeSummaries();
  }

  /**
   * Two requests in a row give the same danger pins, even when the repository's
   * records change in between; on a new cache those pins count every record the
   * repository held at the first request.
   */
  method DangerSummariesAreMemoised(cache: SetUnitCache, changed: seq<NoParkingArea>)
    returns (first: seq<DangerSetAnnotation>, second: seq<DangerSetAnnotation>)
    requires cache.Valid() && cache.dangerAreaSet.None? && cache.dangerSetSummaries.None?
    modifies cache, cache.repository
    ensures first == second
    ensures DangerSetCounts(first) == |old(cache.repository.dangerAll)|
  {
    DangerSetsCountEveryRecord(DangerEntries(cache.repository.dangerAll, cache.precision));
    first := cache.GetDangerSummaries();
    cache.repository.dangerAll := changed;
    second := cache.GetDangerSummaries();
  }
}

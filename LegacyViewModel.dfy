/**
 * The older map view model: a fixed zoom threshold of 3000 m, raw pins only
 * when zoomed in, and the list of the 20 safe areas nearest the centre, ranked
 * by squared distance in index units.
 */
module LegacyViewModel {
  import opened Wrappers
  import opened Numerics
  import opened SafeParkingAreas
  import opened NoParkingAreas
  import Repository

  /** Below this altitude, in metres, the map counts as zoomed in. */
  const ZoomAltitude: real := 3000.0

  /** How many nearby parking lots the list shows at most. */
  const NearbyLimit: nat := 20

  /** `altitude < 3000`: the gate is strict, so exactly 3000 m counts as zoomed out. */
  function IsZoomedIn(altitude: real): (r: bool)
    ensures r <==> altitude < ZoomAltitude
  {
    altitude < 3000.0
  }

  /**
   * What the camera sink sends: the safe and danger areas it makes pins of (one
   * pin per area, in order), and the nearby list only when zoomed in.
   */
  datatype CameraEmission = CameraEmission(safe: seq<SafeParkingArea>, danger: seq<NoParkingArea>,
                                           nearby: Option<seq<SafeParkingArea>>)

  /** A filter sink: the pins while the filter is on and the map is zoomed in, otherwise none. */
  function FilterOutput<A>(altitude: real, filter: bool, pins: seq<A>): (r: seq<A>)
    ensures r == pins || r == []
    ensures r == pins <== IsZoomedIn(altitude) && filter
    ensures r == [] <== !IsZoomedIn(altitude) || !filter
  {
    if altitude < 3000.0 then (if filter then pins else []) else []
  }

  // ---- Ranking ----

  /** A safe area together with its squared index distance from the centre. */
  datatype Ranked = Ranked(area: SafeParkingArea, distance: int)

  /** `dLat * dLat + dLng * dLng` in index units; never negative. */
  function SquaredDistance(latIndex: int, lngIndex: int, centreLat: int, centreLng: int): (d: int)
    ensures d >= 0
    ensures d == 0 <==> latIndex == centreLat && lngIndex == centreLng
  {
    var dLat := latIndex - centreLat;
    var dLng := lngIndex - centreLng;
    dLat * dLat + dLng * dLng
  }

  predicate Sorted(rs: seq<Ranked>) {
    forall i, j :: 0 <= i < j < |rs| ==> rs[i].distance <= rs[j].distance
  }

  /** Puts `x` into a sorted list after every element that is not farther. */
  function Insert(x: Ranked, rs: seq<Ranked>): (r: seq<Ranked>)
    requires Sorted(rs)
    ensures Sorted(r)
    ensures multiset(r) == multiset(rs) + multiset{x}
    ensures |r| == |rs| + 1
  {
    if rs == [] then [x]
    else if rs[|rs| - 1].distance <= x.distance then rs + [x]
    else
      var init := rs[..|rs| - 1];
      var last := rs[|rs| - 1];
      assert rs == init + [last];
      var ins := Insert(x, init);
      InsertStaysBelow(x, init, last, ins);
      ins + [last]
  }

  /** Adding something nearer than `last` to the rest keeps everything up to `last`. */
  lemma InsertStaysBelow(x: Ranked, init: seq<Ranked>, last: Ranked, ins: seq<Ranked>)
    requires Sorted(init + [last]) && x.distance <= last.distance
    requires multiset(ins) == multiset(init) + multiset{x}
    ensures forall k :: 0 <= k < |ins| ==> ins[k].distance <= last.distance
  {
    var rs := init + [last];
    assert forall t :: 0 <= t < |init| ==> rs[t] == init[t];
    assert rs[|init|] == last;
    forall k | 0 <= k < |ins| ensures ins[k].distance <= last.distance {
      assert ins[k] in multiset(ins);
      if ins[k] != x {
        assert ins[k] in multiset(init);
        var t :| 0 <= t < |init| && init[t] == ins[k];
        assert rs[t] == init[t];
      }
    }
  }

  /** `sorted(by: { $0.distance < $1.distance })`: a permutation ordered by distance. */
  function SortByDistance(rs: seq<Ranked>): (r: seq<Ranked>)
    ensures Sorted(r)
    ensures multiset(r) == multiset(rs)
    ensures |r| == |rs|
  {
    if rs == [] then []
    else
      var init := rs[..|rs| - 1];
      assert rs == init + [rs[|rs| - 1]];
      Insert(rs[|rs| - 1], SortByDistance(init))
  }

  /** Keeps the safe areas that have both indices, in order. */
  function Candidates(objs: seq<SafeParkingArea>): (r: seq<SafeParkingArea>)
    reads objs
    ensures |r| <= |objs|
    ensures forall j :: 0 <= j < |r| ==> r[j] in objs && r[j].latIndex.Some? && r[j].lngIndex.Some?
    ensures forall i :: 0 <= i < |objs| && objs[i].latIndex.Some? && objs[i].lngIndex.Some? ==> objs[i] in r
  {
    if objs == [] then []
    else
      var rest := Candidates(objs[1..]);
      assert forall i :: 1 <= i < |objs| ==> objs[i] == objs[1..][i - 1];
      (if objs[0].latIndex.Some? && objs[0].lngIndex.Some? then [objs[0]] else []) + rest
  }

  /**
   * The filter keeps each safe area with both indices as often as it occurs,
   * and drops every other one.
   */
  lemma {:induction false} CandidatesMultiplicity(objs: seq<SafeParkingArea>)
    ensures forall o :: o in objs ==>
      multiset(Candidates(objs))[o] == if o.latIndex.Some? && o.lngIndex.Some? then multiset(objs)[o] else 0
  {
    if objs != [] {
      CandidatesMultiplicity(objs[1..]);
      assert objs == [objs[0]] + objs[1..];
      forall o | o in objs
        ensures multiset(Candidates(objs))[o] == if o.latIndex.Some? && o.lngIndex.Some? then multiset(objs)[o] else 0
      {
        if o !in objs[1..] {
          assert multiset(objs[1..])[o] == 0;
          assert multiset(Candidates(objs[1..]))[o] == 0;
        }
      }
    }
  }

  /** Pairs each candidate with its squared distance from the centre indices. */
  function RankAll(cs: seq<SafeParkingArea>, centreLat: int, centreLng: int): (r: seq<Ranked>)
    requires forall j :: 0 <= j < |cs| ==> cs[j].latIndex.Some? && cs[j].lngIndex.Some?
    reads cs
    ensures |r| == |cs|
    ensures forall j :: 0 <= j < |cs| ==>
      r[j] == Ranked(cs[j], SquaredDistance(cs[j].latIndex.value, cs[j].lngIndex.value, centreLat, centreLng))
  {
    if cs == [] then []
    else
      [Ranked(cs[0], SquaredDistance(cs[0].latIndex.value, cs[0].lngIndex.value, centreLat, centreLng))]
        + RankAll(cs[1..], centreLat, centreLng)
  }

  function Areas(rs: seq<Ranked>): (r: seq<SafeParkingArea>)
    ensures |r| == |rs|
    ensures forall j :: 0 <= j < |rs| ==> r[j] == rs[j].area
  {
    if rs == [] then [] else [rs[0].area] + Areas(rs[1..])
  }

  /** `sorted(by:)` then `prefix(20)`: the first 20, or all, of the list ordered by distance. */
  function TakeNearest(rs: seq<Ranked>): (r: seq<Ranked>)
    ensures Sorted(r)
    ensures |r| == if |rs| < NearbyLimit then |rs| else NearbyLimit
    ensures forall j :: 0 <= j < |r| ==> r[j] in rs
    ensures r == SortByDistance(rs)[..|r|]
  {
    var sorted := SortByDistance(rs);
    var k := if |sorted| < 20 then |sorted| else 20;
    forall j | 0 <= j < k ensures sorted[j] in rs {
      assert sorted[j] in multiset(sorted);
    }
    sorted[..k]
  }

  /** The ranked candidates nearest first, cut to at most 20. */
  function NearestRanked(objs: seq<SafeParkingArea>, latitude: real, longitude: real): (r: seq<Ranked>)
    reads objs
    ensures Sorted(r)
    ensures |r| == if |Candidates(objs)| < NearbyLimit then |Candidates(objs)| else NearbyLimit
    ensures forall j :: 0 <= j < |r| ==> r[j].area in objs && r[j].distance >= 0
  {
    var cs := Candidates(objs);
    var ranked := RankAll(cs, Trunc(latitude * 1000.0), Trunc(longitude * 1000.0));
    var r := TakeNearest(ranked);
    forall j | 0 <= j < |r| ensures r[j].area in objs && r[j].distance >= 0 {
      var t :| 0 <= t < |ranked| && ranked[t] == r[j];
      assert r[j].area == cs[t];
    }
    r
  }

  /**
   * The nearby list with the candidate filter the code evidently intends (both
   * indices present): at most 20 safe areas from `objs`, nearest first.
   */
  function Nearest(objs: seq<SafeParkingArea>, latitude: real, longitude: real): (r: seq<SafeParkingArea>)
    reads objs
    ensures |r| == if |Candidates(objs)| < NearbyLimit then |Candidates(objs)| else NearbyLimit
    ensures forall j :: 0 <= j < |r| ==> r[j] in objs && r[j].latIndex.Some? && r[j].lngIndex.Some?
  {
    var rs := NearestRanked(objs, latitude, longitude);
    forall j | 0 <= j < |rs| ensures rs[j].area.latIndex.Some? && rs[j].area.lngIndex.Some? {
      var ranked := RankAll(Candidates(objs), Trunc(latitude * 1000.0), Trunc(longitude * 1000.0));
      assert rs[j] in multiset(SortByDistance(ranked));
      assert rs[j] in multiset(ranked);
    }
    Areas(rs)
  }

  /**
   * Nothing left out is nearer than anything kept: every candidate missing from
   * the list is at least as far as every entry in it.
   */
  lemma NearestKeepsTheNearest(objs: seq<SafeParkingArea>, latitude: real, longitude: real, c: Ranked)
    requires c in RankAll(Candidates(objs), Trunc(latitude * 1000.0), Trunc(longitude * 1000.0))
    requires c !in NearestRanked(objs, latitude, longitude)
    ensures forall j :: 0 <= j < |NearestRanked(objs, latitude, longitude)| ==>
      NearestRanked(objs, latitude, longitude)[j].distance <= c.distance
  {
    var ranked := RankAll(Candidates(objs), Trunc(latitude * 1000.0), Trunc(longitude * 1000.0));
    var sorted := SortByDistance(ranked);
    var r := NearestRanked(objs, latitude, longitude);
    assert r == TakeNearest(ranked);
    assert c in multiset(sorted);
    var m :| 0 <= m < |sorted| && sorted[m] == c;
    assert forall t :: 0 <= t < |r| ==> sorted[t] == r[t] != c;
  }

  // ---- The candidate filter as written ----

  /** Line 128's filter as written: `latIndex` is checked twice and `lngIndex` never. */
  function CandidatesAsWritten(objs: seq<SafeParkingArea>): (r: seq<SafeParkingArea>)
    reads objs
    ensures forall j :: 0 <= j < |r| ==> r[j] in objs && r[j].latIndex.Some?
    ensures forall i :: 0 <= i < |objs| && objs[i].latIndex.Some? ==> objs[i] in r
  {
    if objs == [] then []
    else
      var rest := CandidatesAsWritten(objs[1..]);
      assert forall i :: 1 <= i < |objs| ==> objs[i] == objs[1..][i - 1];
      (if objs[0].latIndex.Some? && objs[0].latIndex.Some? then [objs[0]] else []) + rest
  }

  /**
   * The nearby list as written: the distance step force-unwraps `lngIndex`, so
   * it traps when some candidate has a latitude index but no longitude index;
   * otherwise it is the intended list.
   */
  function NearestAsWritten(objs: seq<SafeParkingArea>, latitude: real, longitude: real): (r: Result<seq<SafeParkingArea>, Trap>)
    reads objs
    ensures r.Err? <==> exists i :: 0 <= i < |objs| && objs[i].latIndex.Some? && objs[i].lngIndex.None?
    ensures r.Err? ==> r.error == NilUnwrap
    ensures r.Ok? ==> r.value == Nearest(objs, latitude, longitude)
  {
    var cs := CandidatesAsWritten(objs);
    if exists j :: 0 <= j < |cs| && cs[j].lngIndex.None? then Err(NilUnwrap)
    else
      Ok(Nearest(objs, latitude, longitude))
  }

  /** A safe area with a latitude index but no longitude index makes the list trap. */
  lemma NearestAsWrittenTraps(objs: seq<SafeParkingArea>, i: int, latitude: real, longitude: real)
    requires 0 <= i < |objs| && objs[i].latIndex.Some? && objs[i].lngIndex.None?
    ensures NearestAsWritten(objs, latitude, longitude).Err?
  {
  }

  /**
   * The trap cannot fire from the camera sink: the box query only returns safe
   * areas with both indices, so there the list as written is the intended one.
   */
  lemma NearestAsWrittenSafeOnQueryResults(store: seq<SafeParkingArea>, latitude: real, longitude: real)
    ensures var objs := Repository.GetSafeArea(store, latitude, longitude);
      NearestAsWritten(objs, latitude, longitude) == Ok(Nearest(objs, latitude, longitude))
  {
  }

  /**
   * The camera sink: zoomed in, the safe and danger areas of the box query
   * around the centre, each kind only while its filter is on, and the nearby
   * list drawn from the safe query; zoomed out, no pins and no nearby list.
   */
  function CameraOutput(altitude: real, safeFilter: bool, dangerFilter: bool,
                        safeStore: seq<SafeParkingArea>, dangerStore: seq<NoParkingArea>,
                        latitude: real, longitude: real): (e: CameraEmission)
    reads safeStore, dangerStore
    ensures !IsZoomedIn(altitude) ==> e == CameraEmission([], [], None)
    ensures IsZoomedIn(altitude) ==>
      && e.safe == FilterOutput(altitude, safeFilter, Repository.GetSafeArea(safeStore, latitude, longitude))
      && e.danger == FilterOutput(altitude, dangerFilter, Repository.GetDangerArea(dangerStore, latitude, longitude))
      && e.nearby == Some(Nearest(Repository.GetSafeArea(safeStore, latitude, longitude), latitude, longitude))
    ensures forall j :: 0 <= j < |e.safe| ==> e.safe[j] in safeStore
    ensures forall j :: 0 <= j < |e.danger| ==> e.danger[j] in dangerStore
    ensures e.nearby.Some? ==> forall j :: 0 <= j < |e.nearby.value| ==>
      e.nearby.value[j] in Repository.GetSafeArea(safeStore, latitude, longitude)
    ensures e.nearby.Some? ==> |e.nearby.value| <= NearbyLimit
  {
    if altitude < 3000.0 then
      var safeObjs := Repository.GetSafeArea(safeStore, latitude, longitude);
      var dangerObjs := Repository.GetDangerArea(dangerStore, latitude, longitude);
      CameraEmission(if safeFilter then safeObjs else [], if dangerFilter then dangerObjs else [],
                     Some(Nearest(safeObjs, latitude, longitude)))
    else
      CameraEmission([], [], None)
  }
}

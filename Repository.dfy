/**
 * The two store queries: every record whose integer indices fall in a box of
 * about ±0.01 degrees around a centre, both ends included.
 */
module Repository {
  import opened Wrappers
  import opened Numerics
  import opened SafeParkingAreas
  import opened NoParkingAreas

  /** Half the side of the query box, in degrees. */
  const Radius: real := 0.01

  /** The scale the query bounds are computed at. */
  const QueryScale: real := 1000.0

  /** Inclusive index bounds of a query. */
  datatype Box = Box(latMin: int, latMax: int, lngMin: int, lngMax: int) {
    predicate Contains(latIndex: int, lngIndex: int) {
      latMin <= latIndex <= latMax && lngMin <= lngIndex <= lngMax
    }
  }

  /**
   * The bounds both queries compute: the centre ±0.01 degrees, scaled by 1000 and
   * truncated. Because truncation is monotone the box is never empty, and it
   * always holds the centre's own truncated index.
   */
  function QueryBox(latitude: real, longitude: real): (b: Box)
    ensures b.latMin <= b.latMax && b.lngMin <= b.lngMax
    ensures b.Contains(Trunc(latitude * QueryScale), Trunc(longitude * QueryScale))
  {
    TruncMonotone((latitude - Radius) * QueryScale, latitude * QueryScale);
    TruncMonotone(latitude * QueryScale, (latitude + Radius) * QueryScale);
    TruncMonotone((longitude - Radius) * QueryScale, longitude * QueryScale);
    TruncMonotone(longitude * QueryScale, (longitude + Radius) * QueryScale);
    Box(Trunc((latitude - 0.01) * 1000.0), Trunc((latitude + 0.01) * 1000.0),
        Trunc((longitude - 0.01) * 1000.0), Trunc((longitude + 0.01) * 1000.0))
  }

  /** The store's `where` test for a safe area: a nil index compares false. */
  predicate SafeInBox(b: Box, latIndex: Option<int>, lngIndex: Option<int>) {
    latIndex.Some? && lngIndex.Some? && b.Contains(latIndex.value, lngIndex.value)
  }

  /** The safe areas of `store` that pass the box test, in store order. */
  function SafeWithin(store: seq<SafeParkingArea>, b: Box): (r: seq<SafeParkingArea>)
    reads store
    ensures |r| <= |store|
    ensures forall j :: 0 <= j < |r| ==> r[j] in store && SafeInBox(b, r[j].latIndex, r[j].lngIndex)
    ensures forall i :: 0 <= i < |store| && SafeInBox(b, store[i].latIndex, store[i].lngIndex) ==> store[i] in r
  {
    if store == [] then []
    else
      var rest := SafeWithin(store[1..], b);
      assert forall i :: 1 <= i < |store| ==> store[i] == store[1..][i - 1];
      (if SafeInBox(b, store[0].latIndex, store[0].lngIndex) then [store[0]] else []) + rest
  }

  /**
   * `getSafeArea(latitude:longitude:)`: exactly the stored safe areas whose both
   * indices lie in the query box; each one returned has both indices set.
   */
  function GetSafeArea(store: seq<SafeParkingArea>, latitude: real, longitude: real): (r: seq<SafeParkingArea>)
    reads store
    ensures forall j :: 0 <= j < |r| ==> r[j] in store && r[j].latIndex.Some? && r[j].lngIndex.Some?
    ensures forall i :: 0 <= i < |store| ==>
      (store[i] in r <==> SafeInBox(QueryBox(latitude, longitude), store[i].latIndex, store[i].lngIndex))
  {
    SafeWithin(store, QueryBox(latitude, longitude))
  }

  /** The no-parking areas of `store` whose indices lie in `b`, in store order. */
  function DangerWithin(store: seq<NoParkingArea>, b: Box): (r: seq<NoParkingArea>)
    reads store
    ensures |r| <= |store|
    ensures forall j :: 0 <= j < |r| ==> r[j] in store && b.Contains(r[j].latInt, r[j].lngInt)
    ensures forall i :: 0 <= i < |store| && b.Contains(store[i].latInt, store[i].lngInt) ==> store[i] in r
  {
    if store == [] then []
    else
      var rest := DangerWithin(store[1..], b);
      assert forall i :: 1 <= i < |store| ==> store[i] == store[1..][i - 1];
      (if b.Contains(store[0].latInt, store[0].lngInt) then [store[0]] else []) + rest
  }

  /** `getDangerArea(latitude:longitude:)`: the same box, applied to `latInt` / `lngInt`. */
  function GetDangerArea(store: seq<NoParkingArea>, latitude: real, longitude: real): (r: seq<NoParkingArea>)
    reads store
    ensures forall j :: 0 <= j < |r| ==> r[j] in store
    ensures forall i :: 0 <= i < |store| ==>
      (store[i] in r <==> QueryBox(latitude, longitude).Contains(store[i].latInt, store[i].lngInt))
  {
    DangerWithin(store, QueryBox(latitude, longitude))
  }

  /** A safe area indexed exactly at the centre is always found. */
  lemma SafeCentreFound(store: seq<SafeParkingArea>, i: int, latitude: real, longitude: real)
    requires 0 <= i < |store|
    requires store[i].latIndex == Some(Trunc(latitude * QueryScale))
    requires store[i].lngIndex == Some(Trunc(longitude * QueryScale))
    ensures store[i] in GetSafeArea(store, latitude, longitude)
  {
    assert QueryBox(latitude, longitude).Contains(Trunc(latitude * QueryScale), Trunc(longitude * QueryScale));
  }

  /**
   * A safe area indexed by `prepareIndexing` is found by a query centred on its
   * own coordinates.
   */
  lemma IndexedSafeAreaFound(store: seq<SafeParkingArea>, i: int, encode: Foreign.GeohashEncoder)
    requires 0 <= i < |store| && store[i].Indexed(encode)
    ensures store[i] in GetSafeArea(store, store[i].latitude.value, store[i].longitude.value)
  {
    SafeCentreFound(store, i, store[i].latitude.value, store[i].longitude.value);
  }
}

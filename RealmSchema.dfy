/**
 * The store's schema version and the migration that rewrites the search
 * indices of records written under schema version 0.
 */
module RealmSchema {
  import opened Wrappers
  import opened Numerics
  import opened SafeParkingAreas
  import opened NoParkingAreas
  import Repository

  /** The schema version the app opens the store with. */
  const CurrentVersion: nat := 2

  /** The scale the 0 -> 1 migration writes indices at. */
  const MigrationScale: real := 10000.0

  predicate DistinctObjects<T(==)>(s: seq<T>) {
    forall i, j :: 0 <= i < j < |s| ==> s[i] != s[j]
  }

  /** The 0 -> 1 step for no-parking areas: every record's indices, at the migration scale. */
  method MigrateNoParking(noParking: seq<NoParkingArea>)
    requires DistinctObjects(noParking)
    modifies noParking`latInt, noParking`lngInt
    ensures forall i :: 0 <= i < |noParking| ==>
      noParking[i].latInt == RoundHalfAway(noParking[i].latitude * MigrationScale)
      && noParking[i].lngInt == RoundHalfAway(noParking[i].longitude * MigrationScale)
  {
    var k := 0;
    while k < |noParking|
      invariant 0 <= k <= |noParking|
      invariant forall i :: 0 <= i < k ==>
        noParking[i].latInt == RoundHalfAway(noParking[i].latitude * MigrationScale)
        && noParking[i].lngInt == RoundHalfAway(noParking[i].longitude * MigrationScale)
    {
      var area := noParking[k];
      area.latInt := RoundHalfAway(area.latitude * 10000.0);
      area.lngInt := RoundHalfAway(area.longitude * 10000.0);
      k := k + 1;
    }
  }

  /**
   * The 0 -> 1 step for safe areas: a record with both coordinates gets its
   * indices at the migration scale; a record missing one is skipped.
   */
  method MigrateSafe(safe: seq<SafeParkingArea>)
    requires DistinctObjects(safe)
    modifies safe`latIndex, safe`lngIndex
    ensures forall i :: 0 <= i < |safe| ==>
      if safe[i].latitude.Some? && safe[i].longitude.Some? then
        safe[i].latIndex == Some(RoundHalfAway(safe[i].latitude.value * MigrationScale))
        && safe[i].lngIndex == Some(RoundHalfAway(safe[i].longitude.value * MigrationScale))
      else
        safe[i].latIndex == old(safe[i].latIndex) && safe[i].lngIndex == old(safe[i].lngIndex)
  {
    var k := 0;
    while k < |safe|
      invariant 0 <= k <= |safe|
      invariant forall i :: 0 <= i < k ==>
        if safe[i].latitude.Some? && safe[i].longitude.Some? then
          safe[i].latIndex == Some(RoundHalfAway(safe[i].latitude.value * MigrationScale))
          && safe[i].lngIndex == Some(RoundHalfAway(safe[i].longitude.value * MigrationScale))
        else
          safe[i].latIndex == old(safe[i].latIndex) && safe[i].lngIndex == old(safe[i].lngIndex)
      invariant forall i :: k <= i < |safe| ==>
        safe[i].latIndex == old(safe[i].latIndex) && safe[i].lngIndex == old(safe[i].lngIndex)
    {
      var area := safe[k];
      if area.latitude.Some? && area.longitude.Some? {
        area.latIndex := Some(RoundHalfAway(area.latitude.value * 10000.0));
        area.lngIndex := Some(RoundHalfAway(area.longitude.value * 10000.0));
      }
      k := k + 1;
    }
  }

  /**
   * The migration block: from schema version 0 both kinds of record are
   * re-indexed; from version 1 or later nothing changes. Only index fields are
   * ever written, so coordinates and geohashes survive.
   */
  method Migrate(oldSchemaVersion: nat, noParking: seq<NoParkingArea>, safe: seq<SafeParkingArea>)
    requires DistinctObjects(noParking) && DistinctObjects(safe)
    modifies noParking`latInt, noParking`lngInt, safe`latIndex, safe`lngIndex
    ensures oldSchemaVersion >= 1 ==>
      (forall i :: 0 <= i < |noParking| ==> unchanged(noParking[i]))
      && (forall i :: 0 <= i < |safe| ==> unchanged(safe[i]))
    ensures forall i :: 0 <= i < |noParking| ==> noParking[i].geohash == old(noParking[i].geohash)
    ensures forall i :: 0 <= i < |safe| ==>
      safe[i].Details() == old(safe[i].Details()) && safe[i].geohash == old(safe[i].geohash)
    ensures oldSchemaVersion < 1 ==> forall i :: 0 <= i < |noParking| ==>
      noParking[i].latInt == RoundHalfAway(noParking[i].latitude * MigrationScale)
      && noParking[i].lngInt == RoundHalfAway(noParking[i].longitude * MigrationScale)
    ensures oldSchemaVersion < 1 ==> forall i :: 0 <= i < |safe| ==>
      if safe[i].latitude.Some? && safe[i].longitude.Some? then
        safe[i].latIndex == Some(RoundHalfAway(safe[i].latitude.value * MigrationScale))
        && safe[i].lngIndex == Some(RoundHalfAway(safe[i].longitude.value * MigrationScale))
      else
        safe[i].latIndex == old(safe[i].latIndex) && safe[i].lngIndex == old(safe[i].lngIndex)
  {
    if oldSchemaVersion < 1 {
      MigrateNoParking(noParking);
      MigrateSafe(safe);
    }
  }

  /**
   * The migration writes indices at ten-thousandths of a degree while the
   * queries bound them at thousandths: for any latitude of at least 0.01
   * degrees, a migrated index lies above the upper bound of the query box
   * centred on the record itself, so such a record is not found until it is
   * indexed again.
   */
  lemma MigratedIndexAboveQueryBox(latitude: real, longitude: real)
    requires latitude >= 0.01
    ensures RoundHalfAway(latitude * MigrationScale) > Repository.QueryBox(latitude, longitude).latMax
  {
    var box := Repository.QueryBox(latitude, longitude);
    assert box.latMax as real <= (latitude + 0.01) * 1000.0;
    assert RoundHalfAway(latitude * MigrationScale) as real > latitude * MigrationScale - 0.5;
  }
}

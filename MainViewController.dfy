/**
 * How the main map screen brings the pins of one kind up to date: it adds the
 * new pins whose coordinate is not shown yet, removes the shown pins whose
 * coordinate is no longer wanted, and keeps one circle overlay per pin in step
 * with them. Also the two filter buttons.
 */
module MainViewController {
  import opened Foreign

  /** The pin types the screen passes to `updateAnnotations(ofType:with:)`, plus any other pin on the map. */
  datatype AnnotationKind = SafeKind | DangerKind | ClusterKind | ParkInfoKind | OtherKind

  datatype MapAnnotation = MapAnnotation(kind: AnnotationKind, coordinate: Coordinate)

  datatype Overlay = Circle(center: Coordinate, radius: real) | OtherOverlay

  /** `zoneRadius`: the circle drawn around a single pin, in metres. */
  const ZoneRadius: real := 50.0

  /** The circle drawn around a bucket pin, in metres. */
  const ClusterRadius: real := 1800.0

  function RadiusFor(kind: AnnotationKind): (r: real)
    ensures r == (if kind == ClusterKind then ClusterRadius else ZoneRadius)
  {
    if kind.ClusterKind? then 1800.0 else 50.0
  }

  /** The coordinates of the pins of one kind, in map order. */
  function OfKind(anns: seq<MapAnnotation>, kind: AnnotationKind): (r: seq<Coordinate>)
    ensures forall c :: c in r <==> MapAnnotation(kind, c) in anns
  {
    if anns == [] then []
    else (if anns[0].kind == kind then [anns[0].coordinate] else []) + OfKind(anns[1..], kind)
  }

  /** `toAdd`: the new coordinates that no shown pin of the kind has, in order. */
  function ToAdd(existing: seq<Coordinate>, wanted: seq<Coordinate>): (r: seq<Coordinate>)
    ensures forall c :: c in r <==> c in wanted && c !in existing
  {
    if wanted == [] then []
    else (if wanted[0] !in existing then [wanted[0]] else []) + ToAdd(existing, wanted[1..])
  }

  /** `toRemove`: the shown coordinates of the kind that no new pin has, in order. */
  function ToRemove(existing: seq<Coordinate>, wanted: seq<Coordinate>): (r: seq<Coordinate>)
    ensures forall c :: c in r <==> c in existing && c !in wanted
  {
    if existing == [] then []
    else (if existing[0] !in wanted then [existing[0]] else []) + ToRemove(existing[1..], wanted)
  }

  /** `removeAnnotations(toRemove)`: every pin of the kind at a removed coordinate goes. */
  function WithoutRemoved(anns: seq<MapAnnotation>, kind: AnnotationKind, toRemove: seq<Coordinate>): (r: seq<MapAnnotation>)
    ensures forall a :: a in r <==> a in anns && !(a.kind == kind && a.coordinate in toRemove)
  {
    if anns == [] then []
    else
      (if anns[0].kind == kind && anns[0].coordinate in toRemove then [] else [anns[0]])
        + WithoutRemoved(anns[1..], kind, toRemove)
  }

  /** `overlaysToRemove` and `removeOverlays`: the circles centred on a removed coordinate go. */
  function KeptOverlays(overlays: seq<Overlay>, toRemove: seq<Coordinate>): (r: seq<Overlay>)
    ensures forall o :: o in r <==> o in overlays && !(o.Circle? && o.center in toRemove)
  {
    if overlays == [] then []
    else
      (if overlays[0].Circle? && overlays[0].center in toRemove then [] else [overlays[0]])
        + KeptOverlays(overlays[1..], toRemove)
  }

  /** `addAnnotations(toAdd)`: one pin of the kind per coordinate. */
  function Pins(kind: AnnotationKind, cs: seq<Coordinate>): (r: seq<MapAnnotation>)
    ensures |r| == |cs|
    ensures forall i :: 0 <= i < |cs| ==> r[i] == MapAnnotation(kind, cs[i])
  {
    if cs == [] then [] else Pins(kind, cs[..|cs| - 1]) + [MapAnnotation(kind, cs[|cs| - 1])]
  }

  /** One circle of the given radius per coordinate. */
  function Circles(cs: seq<Coordinate>, radius: real): (r: seq<Overlay>)
    ensures |r| == |cs|
    ensures forall i :: 0 <= i < |cs| ==> r[i] == Circle(cs[i], radius)
  {
    if cs == [] then [] else Circles(cs[..|cs| - 1], radius) + [Circle(cs[|cs| - 1], radius)]
  }

  lemma PinsAt(kind: AnnotationKind, cs: seq<Coordinate>)
    ensures forall a :: a in Pins(kind, cs) <==> a.kind == kind && a.coordinate in cs
  {
    var ps := Pins(kind, cs);
    forall a: MapAnnotation | a.kind == kind && a.coordinate in cs ensures a in ps {
      var i :| 0 <= i < |cs| && cs[i] == a.coordinate;
      assert ps[i] == a;
    }
  }

  lemma CirclesAt(cs: seq<Coordinate>, radius: real)
    ensures forall o :: o in Circles(cs, radius) <==> o.Circle? && o.radius == radius && o.center in cs
  {
    var circles := Circles(cs, radius);
    forall o: Overlay | o.Circle? && o.radius == radius && o.center in cs ensures o in circles {
      var i :| 0 <= i < |cs| && cs[i] == o.center;
      assert circles[i] == o;
    }
  }

  /**
   * The pins on the map after an update of `kind` to the coordinates `wanted`:
   * every pin of another kind stays, and the pins of the kind stand at exactly
   * the wanted coordinates.
   */
  function AfterUpdate(anns: seq<MapAnnotation>, kind: AnnotationKind, wanted: seq<Coordinate>): (r: seq<MapAnnotation>)
    ensures forall a :: a in r <==> (a in anns && a.kind != kind) || (a.kind == kind && a.coordinate in wanted)
  {
    var existing := OfKind(anns, kind);
    PinsAt(kind, ToAdd(existing, wanted));
    WithoutRemoved(anns, kind, ToRemove(existing, wanted)) + Pins(kind, ToAdd(existing, wanted))
  }

  /**
   * The overlays on the map after an update of `kind` to the coordinates
   * `wanted`: each pin added brings one circle at its coordinate, 1800 m for a
   * bucket pin and 50 m otherwise; the circles removed are exactly those centred
   * on a removed pin.
   */
  function OverlaysAfterUpdate(anns: seq<MapAnnotation>, overlays: seq<Overlay>, kind: AnnotationKind,
                               wanted: seq<Coordinate>): (r: seq<Overlay>)
    ensures var existing := OfKind(anns, kind);
      forall o :: o in r <==>
        (o in overlays && !(o.Circle? && o.center in existing && o.center !in wanted))
        || (o.Circle? && o.radius == RadiusFor(kind) && o.center in wanted && o.center !in existing)
  {
    var existing := OfKind(anns, kind);
    CirclesAt(ToAdd(existing, wanted), RadiusFor(kind));
    KeptOverlays(overlays, ToRemove(existing, wanted)) + Circles(ToAdd(existing, wanted), RadiusFor(kind))
  }

  /** After an update, the pins of the kind stand at exactly the new coordinates. */
  lemma UpdateShowsExactlyTheNewPins(anns: seq<MapAnnotation>, kind: AnnotationKind, wanted: seq<Coordinate>)
    ensures forall c :: c in OfKind(AfterUpdate(anns, kind, wanted), kind) <==> c in wanted
  {
    var after := AfterUpdate(anns, kind, wanted);
    forall c ensures c in OfKind(after, kind) <==> c in wanted {
      assert MapAnnotation(kind, c).kind == kind;
    }
  }

  lemma {:induction false} OfKindAppend(x: seq<MapAnnotation>, y: seq<MapAnnotation>, k: AnnotationKind)
    ensures OfKind(x + y, k) == OfKind(x, k) + OfKind(y, k)
  {
    if x != [] {
      var head := if x[0].kind == k then [x[0].coordinate] else [];
      assert (x + y)[0] == x[0] && (x + y)[1..] == x[1..] + y;
      OfKindAppend(x[1..], y, k);
      assert OfKind(x + y, k) == head + (OfKind(x[1..], k) + OfKind(y, k));
      assert head + (OfKind(x[1..], k) + OfKind(y, k)) == (head + OfKind(x[1..], k)) + OfKind(y, k);
    } else {
      assert x + y == y;
    }
  }

  lemma {:induction false} OfKindPins(kind: AnnotationKind, cs: seq<Coordinate>, k: AnnotationKind)
    requires k != kind
    ensures OfKind(Pins(kind, cs), k) == []
  {
    if cs != [] {
      OfKindPins(kind, cs[..|cs| - 1], k);
      OfKindAppend(Pins(kind, cs[..|cs| - 1]), [MapAnnotation(kind, cs[|cs| - 1])], k);
    }
  }

  lemma {:induction false} OfKindWithoutRemoved(anns: seq<MapAnnotation>, kind: AnnotationKind,
                                               toRemove: seq<Coordinate>, k: AnnotationKind)
    requires k != kind
    ensures OfKind(WithoutRemoved(anns, kind, toRemove), k) == OfKind(anns, k)
  {
    if anns != [] {
      var head := if anns[0].kind == kind && anns[0].coordinate in toRemove then [] else [anns[0]];
      OfKindAppend(head, WithoutRemoved(anns[1..], kind, toRemove), k);
      OfKindWithoutRemoved(anns[1..], kind, toRemove, k);
    }
  }

  /** The pins of every other kind stay exactly as they were, in the same order. */
  lemma UpdateKeepsOtherKinds(anns: seq<MapAnnotation>, kind: AnnotationKind, wanted: seq<Coordinate>, k: AnnotationKind)
    requires k != kind
    ensures OfKind(AfterUpdate(anns, kind, wanted), k) == OfKind(anns, k)
  {
    var existing := OfKind(anns, kind);
    var kept := WithoutRemoved(anns, kind, ToRemove(existing, wanted));
    var added := Pins(kind, ToAdd(existing, wanted));
    OfKindAppend(kept, added, k);
    OfKindWithoutRemoved(anns, kind, ToRemove(existing, wanted), k);
    OfKindPins(kind, ToAdd(existing, wanted), k);
  }

  lemma {:induction false} WithoutNothing(anns: seq<MapAnnotation>, kind: AnnotationKind)
    ensures WithoutRemoved(anns, kind, []) == anns
  {
    if anns != [] {
      WithoutNothing(anns[1..], kind);
    }
  }

  lemma {:induction false} NothingToAdd(existing: seq<Coordinate>, wanted: seq<Coordinate>)
    requires forall c :: c in wanted ==> c in existing
    ensures ToAdd(existing, wanted) == []
  {
    if wanted != [] {
      assert wanted[0] in wanted;
      NothingToAdd(existing, wanted[1..]);
    }
  }

  lemma {:induction false} NothingToRemove(existing: seq<Coordinate>, wanted: seq<Coordinate>)
    requires forall c :: c in existing ==> c in wanted
    ensures ToRemove(existing, wanted) == []
  {
    if existing != [] {
      assert existing[0] in existing;
      NothingToRemove(existing[1..], wanted);
    }
  }

  /** Repeating an update with the same pins leaves the map's pins as they are. */
  lemma UpdateIsIdempotent(anns: seq<MapAnnotation>, kind: AnnotationKind, wanted: seq<Coordinate>)
    ensures AfterUpdate(AfterUpdate(anns, kind, wanted), kind, wanted) == AfterUpdate(anns, kind, wanted)
  {
    var once := AfterUpdate(anns, kind, wanted);
    UpdateShowsExactlyTheNewPins(anns, kind, wanted);
    var shown := OfKind(once, kind);
    NothingToAdd(shown, wanted);
    NothingToRemove(shown, wanted);
    WithoutNothing(once, kind);
    assert once + Pins(kind, []) == once;
  }

  /** The parts of the map view the update reads and changes. */
  class MapView {
    var annotations: seq<MapAnnotation>
    var overlays: seq<Overlay>

    constructor (annotations: seq<MapAnnotation>, overlays: seq<Overlay>)
      ensures this.annotations == annotations && this.overlays == overlays
    {
      this.annotations := annotations;
      this.overlays := overlays;
    }

    /** `updateAnnotations(ofType:with:)` for the pins of `kind`, given the coordinates of the new pins. */
    method UpdateAnnotations(kind: AnnotationKind, wanted: seq<Coordinate>)
      modifies this`annotations, this`overlays
      ensures annotations == AfterUpdate(old(annotations), kind, wanted)
      ensures overlays == OverlaysAfterUpdate(old(annotations), old(overlays), kind, wanted)
    {
      var existing := OfKind(annotations, kind);
      var toAdd := ToAdd(existing, wanted);
      var toRemove := ToRemove(existing, wanted);
      annotations := WithoutRemoved(annotations, kind, toRemove);
      overlays := KeptOverlays(overlays, toRemove);
      annotations := annotations + Pins(kind, toAdd);
      AddCircles(toAdd, RadiusFor(kind));
    }

    /** The loop that adds one circle per added pin. */
    method AddCircles(toAdd: seq<Coordinate>, radius: real)
      modifies this`overlays
      ensures overlays == old(overlays) + Circles(toAdd, radius)
    {
      ghost var kept := overlays;
      for i := 0 to |toAdd|
        invariant overlays == kept + Circles(toAdd[..i], radius)
      {
        AddCircle(toAdd, i, radius);
        overlays := overlays + [Circle(toAdd[i], radius)];
      }
      assert toAdd[..|toAdd|] == toAdd;
    }
  }

  /** The circles for one more coordinate are the circles so far and one more. */
  lemma AddCircle(cs: seq<Coordinate>, i: nat, radius: real)
    requires i < |cs|
    ensures Circles(cs[..i + 1], radius) == Circles(cs[..i], radius) + [Circle(cs[i], radius)]
  {
    assert cs[..i + 1][..i] == cs[..i];
  }

  // ---- The filter buttons ----

  /** The current values of the two filter subjects; both start on. */
  class FilterSubjects {
    var safeFilter: bool
    var dangerFilter: bool

    constructor ()
      ensures safeFilter && dangerFilter
    {
      safeFilter, dangerFilter := true, true;
    }

    /** `toggleSafeFilter`: sends the negation of the current value. */
    method ToggleSafeFilter() returns (sent: bool)
      modifies this`safeFilter
      ensures sent == !old(safeFilter) && safeFilter == sent
    {
      sent := !safeFilter;
      safeFilter := sent;
    }

    /** `toggleDangerFilter`: sends the negation of the current value. */
    method ToggleDangerFilter() returns (sent: bool)
      modifies this`dangerFilter
      ensures sent == !old(dangerFilter) && dangerFilter == sent
    {
      sent := !dangerFilter;
      dangerFilter := sent;
    }
  }
}

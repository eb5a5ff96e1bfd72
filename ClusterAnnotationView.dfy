/**
 * The badge MapKit draws for a cluster of pins: which number it shows and in
 * which colour, and the member-type count it decides that with.
 */
module ClusterAnnotationViews {
  import opened Wrappers
  import opened SetAnnotations

  /**
   * What a pin inside a MapKit cluster can be. The two bucket pins are declared
   * `RadarAnnotaion`; the raw parking-lot pin is one too, since the badge code
   * instantiates `count(annotationType:)` with it; the raw camera pin and any
   * other annotation are not.
   */
  datatype Member =
    | SafeSetMember(count: int)
    | DangerSetMember(count: int)
    | SafePin
    | DangerPin
    | OtherPin

  predicate IsRadar(m: Member) {
    m.SafeSetMember? || m.DangerSetMember? || m.SafePin?
  }

  /** The annotation a view shows: a MapKit cluster of members, or a single pin. */
  datatype ViewAnnotation = Cluster(members: seq<Member>) | Single(pin: Member)

  /** The member types `count(annotationType:)` is asked about. */
  datatype MemberType = SafeSetType | DangerSetType | SafePinType

  predicate HasType(m: Member, t: MemberType) {
    match t
    case SafeSetType => m.SafeSetMember?
    case DangerSetType => m.DangerSetMember?
    case SafePinType => m.SafePin?
  }

  function CountType(ms: seq<Member>, t: MemberType): (n: nat)
    ensures n <= |ms|
    ensures n > 0 <==> exists i :: 0 <= i < |ms| && HasType(ms[i], t)
  {
    if ms == [] then 0
    else
      var init := ms[..|ms| - 1];
      assert forall i :: 0 <= i < |init| ==> init[i] == ms[i];
      CountType(init, t) + (if HasType(ms[|ms| - 1], t) then 1 else 0)
  }

  /** Some member of `ms` has type `t`. */
  predicate Holds(ms: seq<Member>, t: MemberType) {
    exists i :: 0 <= i < |ms| && HasType(ms[i], t)
  }

  predicate AllRadar(ms: seq<Member>) {
    forall i :: 0 <= i < |ms| ==> IsRadar(ms[i])
  }

  /**
   * `count(annotationType:)`: 0 for anything but a cluster; for a cluster, how
   * many members have the type, trapping when a member is not a `RadarAnnotaion`.
   */
  function CountOfType(annotation: Option<ViewAnnotation>, t: MemberType): (r: Result<nat, Trap>)
    ensures r.Err? <==> annotation.Some? && annotation.value.Cluster? && !AllRadar(annotation.value.members)
    ensures r.Ok? && r.value > 0 ==> annotation.Some? && annotation.value.Cluster?
    ensures annotation.Some? && annotation.value.Cluster? && AllRadar(annotation.value.members) ==>
      (r.Ok? && r.value > 0 <==> exists i :: 0 <= i < |annotation.value.members| && HasType(annotation.value.members[i], t))
  {
    match annotation
    case Some(Cluster(ms)) =>
      if AllRadar(ms) then Ok(CountType(ms, t)) else Err(UnexpectedAnnotationType)
    case _ => Ok(0)
  }

  /** The sum of the safe-bucket members' counts; every other member adds nothing. */
  function SafeSetTotal(ms: seq<Member>): int {
    if ms == [] then 0
    else SafeSetTotal(ms[..|ms| - 1]) + (if ms[|ms| - 1].SafeSetMember? then ms[|ms| - 1].count else 0)
  }

  /** The sum of the danger-bucket members' counts; every other member adds nothing. */
  function DangerSetTotal(ms: seq<Member>): int {
    if ms == [] then 0
    else DangerSetTotal(ms[..|ms| - 1]) + (if ms[|ms| - 1].DangerSetMember? then ms[|ms| - 1].count else 0)
  }

  datatype BadgeColor = SafeInfo | SystemRed

  /** What the drawn badge shows. */
  datatype Badge = Badge(count: int, color: BadgeColor)

  /**
   * The badge `prepareForDisplay` draws: nothing new for a single pin; a trap if
   * a cluster member is not a `RadarAnnotaion`; otherwise the safe-bucket total
   * if there is a safe bucket, else the danger-bucket total if there is a danger
   * bucket, else the number of members.
   */
  function BadgeFor(annotation: Option<ViewAnnotation>): (r: Result<Option<Badge>, Trap>)
    ensures r.Err? <==> annotation.Some? && annotation.value.Cluster? && !AllRadar(annotation.value.members)
    ensures r == Ok(None) <==> !(annotation.Some? && annotation.value.Cluster?)
    ensures r.Ok? && r.value.Some? ==>
      var ms := annotation.value.members;
      && (Holds(ms, SafeSetType) ==> r.value.value == Badge(SafeSetTotal(ms), SafeInfo))
      && (!Holds(ms, SafeSetType) && Holds(ms, DangerSetType) ==> r.value.value == Badge(DangerSetTotal(ms), SystemRed))
      && (!Holds(ms, SafeSetType) && !Holds(ms, DangerSetType) ==>
            r.value.value.count == |ms| && (r.value.value.color == SafeInfo <==> Holds(ms, SafePinType)))
  {
    match annotation
    case Some(Cluster(ms)) =>
      if !AllRadar(ms) then Err(UnexpectedAnnotationType)
      else if CountType(ms, SafeSetType) > 0 then Ok(Some(Badge(SafeSetTotal(ms), SafeInfo)))
      else if CountType(ms, DangerSetType) > 0 then Ok(Some(Badge(DangerSetTotal(ms), SystemRed)))
      else if CountType(ms, SafePinType) > 0 then Ok(Some(Badge(|ms|, SafeInfo)))
      else Ok(Some(Badge(|ms|, SystemRed)))
    case _ => Ok(None)
  }

  class ClusterAnnotationView {
    var annotation: Option<ViewAnnotation>
    var image: Option<Badge>

    constructor (annotation: Option<ViewAnnotation>)
      ensures this.annotation == annotation && image == None
    {
      this.annotation := annotation;
      image := None;
    }

    /** `count(annotationType:)` on the view's own annotation. */
    method Count(t: MemberType) returns (r: Result<nat, Trap>)
      ensures r == CountOfType(annotation, t)
    {
      match annotation {
        case Some(Cluster(ms)) =>
          var i := 0;
          var n := 0;
          while i < |ms|
            invariant 0 <= i <= |ms|
            invariant AllRadar(ms[..i]) && n == CountType(ms[..i], t)
          {
            if !IsRadar(ms[i]) {
              assert !AllRadar(ms);
              return Err(UnexpectedAnnotationType);
            }
            assert ms[..i + 1][..i] == ms[..i];
            if HasType(ms[i], t) {
              n := n + 1;
            }
            i := i + 1;
          }
          assert ms[..i] == ms;
          r := Ok(n);
        case _ =>
          r := Ok(0);
      }
    }

    /**
     * `prepareForDisplay`: works out the badge and sets `image` to it; a single
     * pin leaves `image` alone, and a member that is not a `RadarAnnotaion` traps
     * before anything is drawn.
     */
    method PrepareForDisplay() returns (outcome: Result<(), Trap>)
      modifies this`image
      ensures BadgeFor(annotation).Err? ==> outcome == Err(BadgeFor(annotation).error) && image == old(image)
      ensures BadgeFor(annotation) == Ok(None) ==> outcome == Ok(()) && image == old(image)
      ensures BadgeFor(annotation).Ok? && BadgeFor(annotation).value.Some? ==>
        outcome == Ok(()) && image == BadgeFor(annotation).value
    {
      if !annotation.Some? || !annotation.value.Cluster? {
        return Ok(());
      }
      var ms := annotation.value.members;
      var total := |ms|;
      var safeSets := Count(SafeSetType);
      if safeSets.Err? {
        return Err(safeSets.error);
      }
      var dangerSets := Count(DangerSetType);
      var safePins := Count(SafePinType);
      if safeSets.value > 0 {
        var count := 0;
        var i := 0;
        while i < |ms|
          invariant 0 <= i <= |ms|
          invariant count == SafeSetTotal(ms[..i])
        {
          assert ms[..i + 1][..i] == ms[..i];
          if ms[i].SafeSetMember? {
            count := count + ms[i].count;
          }
          i := i + 1;
        }
        assert ms[..i] == ms;
        image := Some(Badge(count, SafeInfo));
      } else if dangerSets.value > 0 {
        var count := 0;
        var i := 0;
        while i < |ms|
          invariant 0 <= i <= |ms|
          invariant count == DangerSetTotal(ms[..i])
        {
          assert ms[..i + 1][..i] == ms[..i];
          if ms[i].DangerSetMember? {
            count := count + ms[i].count;
          }
          i := i + 1;
        }
        assert ms[..i] == ms;
        image := Some(Badge(count, SystemRed));
      } else if safePins.value > 0 {
        image := Some(Badge(total, SafeInfo));
      } else {
        image := Some(Badge(total, SystemRed));
      }
      outcome := Ok(());
    }
  }

  // ---- What the badge means ----

  /** A cluster holding a pin that is no `RadarAnnotaion`, such as a camera pin, traps. */
  lemma RawPinTraps(ms: seq<Member>, i: int)
    requires 0 <= i < |ms| && !IsRadar(ms[i])
    ensures BadgeFor(Some(Cluster(ms))).Err?
    ensures CountOfType(Some(Cluster(ms)), SafeSetType).Err?
  {
  }

  /**
   * A non-empty cluster that does not trap shows a bucket total, unless it holds
   * raw parking-lot pins only; then it shows how many there are, in the safe
   * colour. The red member-count branch is never taken for a non-empty cluster.
   */
  lemma BadgeIsATotalOrPinCount(ms: seq<Member>)
    requires ms != [] && AllRadar(ms)
    ensures BadgeFor(Some(Cluster(ms))) == Ok(Some(Badge(SafeSetTotal(ms), SafeInfo)))
         || BadgeFor(Some(Cluster(ms))) == Ok(Some(Badge(DangerSetTotal(ms), SystemRed)))
         || BadgeFor(Some(Cluster(ms))) == Ok(Some(Badge(|ms|, SafeInfo)))
  {
    assert HasType(ms[0], SafeSetType) || HasType(ms[0], DangerSetType) || HasType(ms[0], SafePinType);
  }

  /** A cluster of raw parking-lot pins only shows their number in the safe colour. */
  lemma SafePinClusterBadge(ms: seq<Member>)
    requires ms != []
    requires forall i :: 0 <= i < |ms| ==> ms[i] == SafePin
    ensures BadgeFor(Some(Cluster(ms))) == Ok(Some(Badge(|ms|, SafeInfo)))
  {
    assert HasType(ms[0], SafePinType);
  }

  /** The cluster members made from a list of safe-bucket pins. */
  function SafeMembers(pins: seq<SafeSetAnnotation>): (ms: seq<Member>)
    ensures |ms| == |pins|
    ensures forall i :: 0 <= i < |pins| ==> ms[i] == SafeSetMember(pins[i].count)
  {
    if pins == [] then [] else SafeMembers(pins[..|pins| - 1]) + [SafeSetMember(pins[|pins| - 1].count)]
  }

  function PinTotal(pins: seq<SafeSetAnnotation>): int {
    if pins == [] then 0 else PinTotal(pins[..|pins| - 1]) + pins[|pins| - 1].count
  }

  lemma {:induction false} SafeMembersTotal(pins: seq<SafeSetAnnotation>)
    ensures SafeSetTotal(SafeMembers(pins)) == PinTotal(pins)
  {
    if pins != [] {
      var ms := SafeMembers(pins);
      assert ms[..|ms| - 1] == SafeMembers(pins[..|pins| - 1]);
      SafeMembersTotal(pins[..|pins| - 1]);
    }
  }

  /**
   * A cluster of safe-bucket pins shows the sum of their counts in the safe
   * colour, whatever danger buckets are mixed in.
   */
  lemma SafeBucketsBadge(pins: seq<SafeSetAnnotation>, dangers: seq<Member>)
    requires pins != []
    requires forall i :: 0 <= i < |dangers| ==> dangers[i].DangerSetMember?
    ensures BadgeFor(Some(Cluster(SafeMembers(pins) + dangers))) == Ok(Some(Badge(PinTotal(pins), SafeInfo)))
  {
    var ms := SafeMembers(pins) + dangers;
    assert HasType(ms[0], SafeSetType);
    SafeMembersTotal(pins);
    SafeSetTotalIgnoresDangers(SafeMembers(pins), dangers);
  }

  lemma {:induction false} SafeSetTotalIgnoresDangers(ms: seq<Member>, dangers: seq<Member>)
    requires forall i :: 0 <= i < |dangers| ==> dangers[i].DangerSetMember?
    ensures SafeSetTotal(ms + dangers) == SafeSetTotal(ms)
  {
    if dangers == [] {
      assert ms + dangers == ms;
    } else {
      var init := dangers[..|dangers| - 1];
      assert (ms + dangers)[..|ms + dangers| - 1] == ms + init;
      SafeSetTotalIgnoresDangers(ms, init);
    }
  }
}

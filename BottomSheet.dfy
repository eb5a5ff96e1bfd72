/**
 * The draggable bottom sheet on the map screen: three snap heights, a current
 * step that a finished swipe moves by one, and the offset of the sheet's top
 * edge that follows the finger while dragging. The app carries two copies of
 * the sheet, the current one and an older one; their snapping is the same.
 */
module BottomSheets {
  import opened Wrappers

  /** The states of a pan gesture the sheet distinguishes. */
  datatype PanState = Began | Changed | Ended | Cancelled | Failed

  /** `currentStep` starts at the bottom snap point. */
  const InitialStep: int := 2

  /** The number of snap points `attach` defines. */
  const StepCount: nat := 3

  /** The placeholder the location label shows until an address arrives. */
  const PlaceholderLocationText: string := "현재장소: 서울특별시 도봉대로 231-565"

  /** `sheetHeights`: the top-edge offsets of the three snap points, highest sheet first. */
  function SnapHeights(superHeight: real): (hs: seq<real>)
    ensures |hs| == StepCount
    ensures superHeight > 0.0 ==> hs[0] < hs[1] < hs[2]
    ensures superHeight >= 0.0 ==> forall i :: 0 <= i < |hs| ==> 0.0 <= hs[i] <= superHeight
  {
    [superHeight * 0.1, superHeight * 0.5, superHeight * 0.85]
  }

  /**
   * The step a finished swipe snaps to: one up (towards 0) when the vertical
   * velocity is negative, one down otherwise, never leaving `[0, count - 1]`.
   */
  function NextStep(step: int, count: int, velocityY: real): (next: int)
    requires 0 <= step < count
    ensures 0 <= next < count
    ensures velocityY < 0.0 ==> next == (if step == 0 then 0 else step - 1)
    ensures velocityY >= 0.0 ==> next == (if step == count - 1 then step else step + 1)
  {
    if velocityY < 0.0 then (if step - 1 > 0 then step - 1 else 0)
    else (if step + 1 < count - 1 then step + 1 else count - 1)
  }

  /** The offset while dragging: the snap offset moved by the finger, never above the screen's top. */
  function DragOffset(base: real, translationY: real): (offset: real)
    ensures offset >= 0.0
    ensures offset >= base + translationY
    ensures base + translationY >= 0.0 ==> offset == base + translationY
  {
    if base + translationY > 0.0 then base + translationY else 0.0
  }

  /**
   * With the three snap heights, an upward swipe never lowers the sheet and a
   * downward swipe never raises it, and enough swipes in one direction reach
   * the end snap point.
   */
  lemma SwipeDirection(superHeight: real, step: int, velocityY: real)
    requires superHeight > 0.0 && 0 <= step < StepCount
    ensures var hs := SnapHeights(superHeight);
      velocityY < 0.0 ==> hs[NextStep(step, StepCount, velocityY)] <= hs[step]
    ensures var hs := SnapHeights(superHeight);
      velocityY >= 0.0 ==> hs[NextStep(step, StepCount, velocityY)] >= hs[step]
    ensures NextStep(NextStep(step, StepCount, -1.0), StepCount, -1.0) == 0
    ensures NextStep(NextStep(step, StepCount, 1.0), StepCount, 1.0) == StepCount - 1
  {
  }

  /** The sheet of the current map screen. */
  class MultiStepBottomSheet {
    /** Whether the sheet has a superview; only `attach` gives it one. */
    var attached: bool
    var superHeight: real
    var sheetHeights: seq<real>
    var currentStep: int
    /** The offset of `bottomConstraint`; None while there is no constraint. */
    var offset: Option<real>
    var locationText: string
    var parkSavingButtonHidden: bool
    var parkSavingButtonInteractive: bool

    /** Once attached there are three heights; the step always indexes them. */
    ghost predicate Valid()
      reads this
    {
      && 0 <= currentStep < StepCount
      && (attached ==> |sheetHeights| == StepCount && offset.Some?)
    }

    constructor ()
      ensures Valid() && !attached && currentStep == InitialStep
      ensures sheetHeights == [] && offset == None
      ensures locationText == PlaceholderLocationText
    {
      attached, superHeight, sheetHeights := false, 0.0, [];
      currentStep, offset := 2, None;
      locationText := PlaceholderLocationText;
      parkSavingButtonHidden, parkSavingButtonInteractive := false, true;
    }

    /** `attach(to:)`: take the superview's height, build the snap heights and start at the bottom one. */
    method Attach(superviewHeight: real)
      requires Valid()
      modifies this`attached, this`superHeight, this`sheetHeights, this`offset
      ensures Valid() && attached
      ensures superHeight == superviewHeight
      ensures sheetHeights == SnapHeights(superviewHeight)
      ensures offset == Some(sheetHeights[2])
      ensures currentStep == old(currentStep)
    {
      attached := true;
      superHeight := superviewHeight;
      sheetHeights := [superHeight * 0.1, superHeight * 0.5, superHeight * 0.85];
      offset := Some(sheetHeights[2]);
    }

    /**
     * `handlePan`: without a superview nothing happens; while the finger moves
     * the offset follows it from the current snap height; when the gesture ends
     * or is cancelled the step moves one towards the swipe and the offset snaps
     * to that step's height; other states change nothing.
     */
    method HandlePan(state: PanState, translationY: real, velocityY: real)
      requires Valid()
      modifies this`currentStep, this`offset
      ensures Valid()
      ensures !attached || state !in {Changed, Ended, Cancelled} ==> currentStep == old(currentStep) && offset == old(offset)
      ensures attached && state == Changed ==>
        currentStep == old(currentStep) && offset == Some(DragOffset(sheetHeights[currentStep], translationY))
      ensures attached && state in {Ended, Cancelled} ==>
        currentStep == NextStep(old(currentStep), |sheetHeights|, velocityY)
        && offset == Some(sheetHeights[currentStep])
    {
      if !attached {
        return;
      }
      match state
      case Changed =>
        var baseOffset := sheetHeights[currentStep];
        var newOffset := baseOffset + translationY;
        offset := Some(if newOffset > 0.0 then newOffset else 0.0);
      case Ended | Cancelled =>
        var directionUp := velocityY < 0.0;
        if directionUp {
          currentStep := if currentStep - 1 > 0 then currentStep - 1 else 0;
        } else {
          currentStep := if currentStep + 1 < |sheetHeights| - 1 then currentStep + 1 else |sheetHeights| - 1;
        }
        offset := Some(sheetHeights[currentStep]);
      case _ =>
    }

    /** `updateCurrentAddress(with:)`: the label shows the address as given. */
    method UpdateCurrentAddress(info: string)
      modifies this`locationText
      ensures locationText == info
    {
      locationText := info;
    }

    /** `makeAvailableParkedInfoButton(with:)`: with a saved location the button is hidden and inert. */
    method MakeAvailableParkedInfoButton(isValid: bool)
      modifies this`parkSavingButtonHidden, this`parkSavingButtonInteractive
      ensures parkSavingButtonHidden == isValid
      ensures parkSavingButtonInteractive == !isValid
      ensures parkSavingButtonHidden != parkSavingButtonInteractive
    {
      parkSavingButtonHidden := isValid;
      parkSavingButtonInteractive := !isValid;
    }
  }

  /** The label prefix of the older sheet. */
  const LocationPrefix: string := "현재장소: "

  /** The older sheet's `updateCurrentAddress(with:)` label: the prefix, then the address. */
  function LegacyLocationText(info: string): (text: string)
    ensures |text| == |LocationPrefix| + |info|
    ensures text[..|LocationPrefix|] == LocationPrefix && text[|LocationPrefix|..] == info
  {
    LocationPrefix + info
  }

  /** Two different addresses never show the same label on the older sheet. */
  lemma LegacyLocationTextInjective(a: string, b: string)
    requires LegacyLocationText(a) == LegacyLocationText(b)
    ensures a == b
  {
    assert a == LegacyLocationText(a)[|LocationPrefix|..];
  }

  /** The older copy of the sheet: the same snapping, and an address label with a prefix. */
  class LegacyBottomSheet {
    var attached: bool
    var superHeight: real
    var sheetHeights: seq<real>
    var currentStep: int
    var offset: Option<real>
    var locationText: string

    ghost predicate Valid()
      reads this
    {
      && 0 <= currentStep < StepCount
      && (attached ==> |sheetHeights| == StepCount && offset.Some?)
    }

    constructor ()
      ensures Valid() && !attached && currentStep == InitialStep
      ensures sheetHeights == [] && offset == None
      ensures locationText == PlaceholderLocationText
    {
      attached, superHeight, sheetHeights := false, 0.0, [];
      currentStep, offset := 2, None;
      locationText := PlaceholderLocationText;
    }

    /** `attach(to:)`, as in the current sheet. */
    method Attach(superviewHeight: real)
      requires Valid()
      modifies this`attached, this`superHeight, this`sheetHeights, this`offset
      ensures Valid() && attached
      ensures superHeight == superviewHeight
      ensures sheetHeights == SnapHeights(superviewHeight)
      ensures offset == Some(sheetHeights[2])
      ensures currentStep == old(currentStep)
    {
      attached := true;
      superHeight := superviewHeight;
      sheetHeights := [superHeight * 0.1, superHeight * 0.5, superHeight * 0.85];
      offset := Some(sheetHeights[2]);
    }

    /** `handlePan`, as in the current sheet. */
    method HandlePan(state: PanState, translationY: real, velocityY: real)
      requires Valid()
      modifies this`currentStep, this`offset
      ensures Valid()
      ensures !attached || state !in {Changed, Ended, Cancelled} ==> currentStep == old(currentStep) && offset == old(offset)
      ensures attached && state == Changed ==>
        currentStep == old(currentStep) && offset == Some(DragOffset(sheetHeights[currentStep], translationY))
      ensures attached && state in {Ended, Cancelled} ==>
        currentStep == NextStep(old(currentStep), |sheetHeights|, velocityY)
        && offset == Some(sheetHeights[currentStep])
    {
      if !attached {
        return;
      }
      match state
      case Changed =>
        var baseOffset := sheetHeights[currentStep];
        var newOffset := baseOffset + translationY;
        offset := Some(if newOffset > 0.0 then newOffset else 0.0);
      case Ended | Cancelled =>
        var directionUp := velocityY < 0.0;
        if directionUp {
          currentStep := if currentStep - 1 > 0 then currentStep - 1 else 0;
        } else {
          currentStep := if currentStep + 1 < |sheetHeights| - 1 then currentStep + 1 else |sheetHeights| - 1;
        }
        offset := Some(sheetHeights[currentStep]);
      case _ =>
    }

    /** `updateCurrentAddress(with:)`: the label shows the prefix and then the address. */
    method UpdateCurrentAddress(info: string)
      modifies this`locationText
      ensures locationText == LegacyLocationText(info)
    {
      locationText := "현재장소: " + info;
    }
  }
}

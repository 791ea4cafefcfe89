/** The mobile result sheet of `src/components/layout/BottomSheetMobile.jsx`:
    three heights, moved one step by swipes and toggled by taps on the
    header, opened to the middle height by a new analysis. */
module BottomSheet {
  import opened Wrappers
  import opened Classification

  datatype SheetState = Collapsed | Mid | Full

  /** The position of a state from lowest to highest. */
  function Rank(s: SheetState): nat {
    match s
    case Collapsed => 0
    case Mid => 1
    case Full => 2
  }

  /** `goUp`: one step higher; the full sheet stays full. */
  function GoUp(s: SheetState): (r: SheetState)
    ensures Rank(r) == if Rank(s) < 2 then Rank(s) + 1 else 2
  {
    if s == Collapsed then Mid else if s == Mid then Full else Full
  }

  /** `goDown`: one step lower; the collapsed sheet stays collapsed. */
  function GoDown(s: SheetState): (r: SheetState)
    ensures Rank(r) == if Rank(s) > 0 then Rank(s) - 1 else 0
  {
    if s == Full then Mid else if s == Mid then Collapsed else Collapsed
  }

  /** A state is determined by its rank. */
  lemma RankInjective(s: SheetState, t: SheetState)
    requires Rank(s) == Rank(t)
    ensures s == t
  {
  }

  /** Going down undoes going up, except from the full sheet; going up
      undoes going down, except from the collapsed sheet. */
  lemma UpThenDown(s: SheetState)
    ensures s != Full ==> GoDown(GoUp(s)) == s
    ensures s != Collapsed ==> GoUp(GoDown(s)) == s
    ensures GoUp(Full) == Full && GoDown(Collapsed) == Collapsed
  {
    if s != Full {
      RankInjective(GoDown(GoUp(s)), s);
    }
    if s != Collapsed {
      RankInjective(GoUp(GoDown(s)), s);
    }
  }

  /** `toggleFromTap`: the middle sheet opens fully, every other state goes
      to the middle. */
  function TapToggle(s: SheetState): (r: SheetState)
    ensures r == Full <==> s == Mid
    ensures r != Full ==> r == Mid
  {
    if s == Mid then Full else Mid
  }

  /** Vertical travel, in pixels, below which a touch is not a swipe. */
  const SwipeThreshold: real := 60.0

  function Abs(x: real): real {
    if x < 0.0 then -x else x
  }

  /** The state after a touch that moved up by `diff` pixels (start minus
      end). */
  function Swipe(s: SheetState, diff: real): (r: SheetState)
    ensures Abs(diff) < SwipeThreshold ==> r == s
    ensures Abs(diff) >= SwipeThreshold && diff > 0.0 ==> r == GoUp(s)
    ensures Abs(diff) >= SwipeThreshold && diff <= 0.0 ==> r == GoDown(s)
  {
    if Abs(diff) < SwipeThreshold then s
    else if diff > 0.0 then GoUp(s)
    else GoDown(s)
  }

  /** A swipe up followed by an equally long swipe down returns to the start
      unless the sheet began full. */
  lemma SwipeUpThenDown(s: SheetState, d: real)
    requires d >= SwipeThreshold && s != Full
    ensures Swipe(Swipe(s, d), -d) == s
  {
    UpThenDown(s);
  }

  /** `getHeight`, in `svh` units. */
  function HeightSvh(s: SheetState): (r: nat)
    ensures r in {18, 45, 85}
  {
    if s == Collapsed then 18 else if s == Mid then 45 else 85
  }

  /** A higher state is a taller sheet. */
  lemma HeightFollowsRank(s: SheetState, t: SheetState)
    requires Rank(s) < Rank(t)
    ensures HeightSvh(s) < HeightSvh(t)
  {
  }

  /** The results body shows in the middle and full states only. */
  predicate ShowsResults(s: SheetState) {
    s == Mid || s == Full
  }

  /** The state a change of analysis leads to. */
  function StateForAnalysis(hasAnalysis: bool): (r: SheetState)
    ensures ShowsResults(r) <==> hasAnalysis
  {
    if hasAnalysis then Mid else Collapsed
  }

  /** The header line, one tag per text. */
  datatype StatusLabel = StartPrompt | OutsideCityLabel | ProtectedAreaLabel | NoDataLabel | NormativeLabel

  /** `statusLabel`: no analysis, outside the city, protected area, no
      data, then the default, in that order. */
  function Label(a: Option<Analysis>): (r: StatusLabel)
    ensures r == StartPrompt <==> a.None?
    ensures a.Some? && a.value.status == OutsideCdmx ==> r == OutsideCityLabel
    ensures r == ProtectedAreaLabel <==> a.Some? && a.value.status != OutsideCdmx && a.value.isANP
    ensures r == NoDataLabel <==> a.Some? && a.value.status == NoData && !a.value.isANP
    ensures r == NormativeLabel <==>
      a.Some? && !a.value.isANP && (a.value.status.UrbanSoil? || a.value.status.ConservationSoil?)
  {
    if a.None? then StartPrompt
    else if a.value.status == OutsideCdmx then OutsideCityLabel
    else if a.value.isANP then ProtectedAreaLabel
    else if a.value.status.NoData? then NoDataLabel
    else NormativeLabel
  }

  /** The sheet's state and the `startY` of the current touch. */
  class Sheet {
    var state: SheetState
    var startY: real

    constructor ()
      ensures state == Collapsed && startY == 0.0
    {
      state := Collapsed;
      startY := 0.0;
    }

    /** `handleTouchStart`: remember where a touch on the header began. */
    method TouchStart(y: real, onHeader: bool)
      modifies this
      ensures startY == (if onHeader then y else old(startY))
      ensures state == old(state)
    {
      if onHeader {
        startY := y;
      }
    }

    /** `handleTouchEnd`: a swipe of at least the threshold moves one step. */
    method TouchEnd(endY: real)
      modifies this
      ensures state == Swipe(old(state), old(startY) - endY)
      ensures startY == old(startY)
    {
      var diff := startY - endY;
      if Abs(diff) < SwipeThreshold {
        return;
      }
      if diff > 0.0 {
        state := GoUp(state);
      } else {
        state := GoDown(state);
      }
    }

    /** A click on the header; the handler is attached only while there is
      an analysis. */
    method Tap(hasAnalysis: bool)
      modifies this
      ensures state == (if hasAnalysis then TapToggle(old(state)) else old(state))
      ensures startY == old(startY)
    {
      if hasAnalysis {
        state := TapToggle(state);
      }
    }

    /** The effect on a new `analysis` prop. */
    method AnalysisChanged(hasAnalysis: bool)
      modifies this
      ensures state == StateForAnalysis(hasAnalysis)
      ensures startY == old(startY)
    {
      if hasAnalysis {
        state := Mid;
      } else {
        state := Collapsed;
      }
    }
  }
}

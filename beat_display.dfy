/**
 * The colouring rule of the beat display: four circles, one per beat of
 * the bar, coloured by the current beat and by the beats a queued or
 * playing drum fill occupies. Colours are tags; the geometry is not modelled.
 */
module BeatDisplay {
  import opened Wrappers

  /** A beat of the bar; `AsUsize` numbers them 1..4. */
  datatype Beat = One | Two | Three | Four {
    function AsUsize(): (n: nat)
      ensures 1 <= n <= 4
    {
      match this
      case One => 1
      case Two => 2
      case Three => 3
      case Four => 4
    }
  }

  datatype DrumFill = TwoBeat | ThreeBeat | FourBeat

  /** How many beats a fill lasts. */
  function FillLength(fill: DrumFill): (length: nat)
  {
    match fill
    case TwoBeat => 2
    case ThreeBeat => 3
    case FourBeat => 4
  }

  datatype Color = Default | CurrentBeat | Fill

  datatype BeatDisplay = BeatDisplay(beat: Option<Beat>, fill: Option<DrumFill>)

  /** One drawn circle: the beat index it stands for and its colour. */
  datatype Circle = Circle(index: nat, color: Color)

  /** A fill occupies exactly the last `FillLength(fill)` beats of the bar. */
  function DoesDrumFillOccupyBeat(beatIndex: nat, fill: DrumFill): (occupied: bool)
    ensures beatIndex >= 1 ==> (occupied <==> beatIndex + FillLength(fill) > 4)
    ensures fill == FourBeat ==> occupied
  {
    match fill
    case TwoBeat => beatIndex > 2
    case ThreeBeat => beatIndex > 1
    case FourBeat => true
  }

  predicate IsCurrentBeat(display: BeatDisplay, beatIndex: nat)
  {
    display.beat.Some? && display.beat.value.AsUsize() == beatIndex
  }

  function CircleColor(display: BeatDisplay, beatIndex: nat): (color: Color)
    ensures IsCurrentBeat(display, beatIndex) ==> color == CurrentBeat
    ensures color == CurrentBeat ==> IsCurrentBeat(display, beatIndex)
    ensures color == Fill <==>
      !IsCurrentBeat(display, beatIndex) && display.fill.Some? && DoesDrumFillOccupyBeat(beatIndex, display.fill.value)
  {
    if display.beat.Some? && display.beat.value.AsUsize() == beatIndex then CurrentBeat
    else if display.fill.Some? && DoesDrumFillOccupyBeat(beatIndex, display.fill.value) then Fill
    else Default
  }

  /** The circles `draw` lays out, left to right. */
  function Draw(display: BeatDisplay): (circles: seq<Circle>)
    ensures |circles| == 4
    ensures forall k :: 0 <= k < 4 ==> circles[k] == Circle(k + 1, CircleColor(display, k + 1))
  {
    seq(4, k requires 0 <= k < 4 => Circle(k + 1, CircleColor(display, k + 1)))
  }

  /** The beat indices 1..4 a fill occupies. */
  function OccupiedBeats(fill: DrumFill): (beats: set<nat>)
  {
    set i: nat | 1 <= i <= 4 && DoesDrumFillOccupyBeat(i, fill)
  }

  /** How many of `circles` have colour `c`. */
  function CountColor(circles: seq<Circle>, c: Color): (count: nat)
  {
    if circles == [] then 0
    else (if circles[0].color == c then 1 else 0) + CountColor(circles[1..], c)
  }

  lemma OccupancyUpwardClosed(fill: DrumFill, i: nat, j: nat)
    requires i <= j && DoesDrumFillOccupyBeat(i, fill)
    ensures DoesDrumFillOccupyBeat(j, fill)
  {
  }

  /** Over the indices 1..4, the number of occupied beats is the fill's length. */
  lemma OccupiedCountIsLength(fill: DrumFill)
    ensures |OccupiedBeats(fill)| == FillLength(fill)
  {
    match fill
    case TwoBeat =>
      assert OccupiedBeats(fill) == {3, 4};
    case ThreeBeat =>
      assert OccupiedBeats(fill) == {2, 3, 4};
    case FourBeat =>
      assert OccupiedBeats(fill) == {1, 2, 3, 4};
  }

  lemma CountColorOfFour(circles: seq<Circle>, c: Color)
    requires |circles| == 4
    ensures CountColor(circles, c)
         == (if circles[0].color == c then 1 else 0) + (if circles[1].color == c then 1 else 0)
          + (if circles[2].color == c then 1 else 0) + (if circles[3].color == c then 1 else 0)
  {
    assert CountColor(circles[3..], c) == if circles[3].color == c then 1 else 0 by {
      assert circles[3..][1..] == [];
    }
    assert CountColor(circles[2..], c) == (if circles[2].color == c then 1 else 0) + CountColor(circles[3..], c) by {
      assert circles[2..][1..] == circles[3..];
    }
    assert CountColor(circles[1..], c) == (if circles[1].color == c then 1 else 0) + CountColor(circles[2..], c) by {
      assert circles[1..][1..] == circles[2..];
    }
  }

  /** The circles stand for the indices 1, 2, 3, 4, one each, in order. */
  lemma DrawCoversTheBar(display: BeatDisplay)
    ensures |Draw(display)| == 4
    ensures forall k :: 0 <= k < 4 ==> Draw(display)[k].index == k + 1
    ensures (set c | c in Draw(display) :: c.index) == {1, 2, 3, 4}
  {
    var circles := Draw(display);
    var indices := set c | c in circles :: c.index;
    assert circles[0].index == 1 && circles[1].index == 2 && circles[2].index == 3 && circles[3].index == 4;
    forall i | i in indices ensures i in {1, 2, 3, 4} {
      var c :| c in circles && c.index == i;
      var k :| 0 <= k < 4 && circles[k] == c;
    }
  }

  /** With nothing playing, every circle has the default colour. */
  lemma IdleDisplayIsDefault()
    ensures forall k :: 0 <= k < 4 ==> Draw(BeatDisplay(None, None))[k].color == Default
  {
  }

  /** Exactly one circle shows the current beat, and only when there is one. */
  lemma OneCurrentBeatCircle(display: BeatDisplay)
    ensures CountColor(Draw(display), CurrentBeat) == if display.beat.Some? then 1 else 0
  {
    CountColorOfFour(Draw(display), CurrentBeat);
  }

  /** Between beats, the fill colours as many circles as it is long. */
  lemma FillCirclesMatchLength(fill: DrumFill)
    ensures CountColor(Draw(BeatDisplay(None, Some(fill))), Fill) == FillLength(fill)
  {
    CountColorOfFour(Draw(BeatDisplay(None, Some(fill))), Fill);
  }
}

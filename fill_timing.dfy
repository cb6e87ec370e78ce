/**
 * How the fill the controller schedules lines up with the bar, and which
 * beats the same fill occupies when it is handed to the beat display.
 */
module FillTiming {
  import opened DrumFillDemo
  import BeatDisplay

  /**
   * The beat of the bar (1..4) a fill queued on `beat` starts on: waiting
   * for an interval of n beats lands on the first bar position after the
   * current beat's that is a multiple of n.
   */
  function FillStartBeat(beat: nat): (start: nat)
    requires 1 <= beat <= 4
    ensures 1 <= start <= 4
  {
    var interval := FillFor(beat).interval;
    var position := beat - 1;
    var boundary := (position / interval + 1) * interval;
    boundary % 4 + 1
  }

  /** The display's name for a fill of the given length. */
  function DisplayedFill(beats: nat): (fill: BeatDisplay.DrumFill)
    ensures 2 <= beats <= 4 ==> BeatDisplay.FillLength(fill) == beats
  {
    if beats == 2 then BeatDisplay.TwoBeat
    else if beats == 3 then BeatDisplay.ThreeBeat
    else BeatDisplay.FourBeat
  }

  /**
   * Whatever beat it is queued on, the fill starts on a later beat of the
   * bar or on the next downbeat, and lasts exactly to the end of that bar,
   * so the loop body's wait for the bar resumes the loop on a downbeat.
   */
  lemma FillEndsOnBarLine(beat: nat)
    requires 1 <= beat <= 4
    ensures FillStartBeat(beat) > beat || FillStartBeat(beat) == 1
    ensures FillStartBeat(beat) - 1 + FillFor(beat).beats == 4
  {
    if beat == 1 {
      assert FillStartBeat(beat) == 2;
    } else if beat == 2 {
      assert FillStartBeat(beat) == 3;
    } else {
      assert FillFor(beat).interval == 4;
      assert FillStartBeat(beat) == 1;
    }
  }

  /**
   * The fill handed to the display occupies exactly the beats from the
   * scheduled fill's start beat to the bar line.
   */
  lemma DisplayedFillOccupiesFillBeats(beat: nat, index: nat)
    requires 1 <= beat <= 4 && 1 <= index <= 4
    ensures BeatDisplay.DoesDrumFillOccupyBeat(index, DisplayedFill(FillFor(beat).beats)) <==> FillStartBeat(beat) <= index
  {
    FillEndsOnBarLine(beat);
  }
}

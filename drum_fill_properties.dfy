/**
 * What the drum fill controller promises, proved about the step functions
 * its methods are verified against.
 */
module DrumFillProperties {
  import opened Wrappers
  import opened Kira
  import opened DrumFillDemo

  // ---------------------------------------------------------------------------
  // The sequences start_sequence builds

  /** The beat markers of one bar: Beat(1)..Beat(n), each followed by a one-beat wait. */
  lemma {:induction false} BeatTicksLayout(n: nat)
    ensures |BeatTicks(n)| == 2 * n
    ensures forall k :: 0 <= k < n ==>
      BeatTicks(n)[2 * k] == EmitCustomEvent(Beat(k + 1)) && BeatTicks(n)[2 * k + 1] == Wait(1)
  {
    if n > 0 {
      BeatTicksLayout(n - 1);
    }
  }

  /** The loop body: wait for the bar, mark the loop, announce it, play the loop, then the four beats. */
  lemma LoopBodyLayout(sounds: SoundBank)
    ensures |LoopBody(sounds)| == 12
    ensures LoopBody(sounds)[..4]
         == [WaitForInterval(4), Action.StartLoop, EmitCustomEvent(AudioEvent.StartLoop), Play(sounds.loopSound)]
    ensures forall k :: 0 <= k < 4 ==>
      LoopBody(sounds)[4 + 2 * k] == EmitCustomEvent(Beat(k + 1)) && LoopBody(sounds)[5 + 2 * k] == Wait(1)
    ensures forall k :: 0 <= k < 12 ==> !LoopBody(sounds)[k].StopSequenceAndInstances?
  {
  }

  /** Every sequence ends with the loop body: 12 actions from `Stopped`, 16 from `Looping`. */
  lemma SequenceEndsWithLoopBody(sounds: SoundBank, state: PlaybackState, ids: seq<SequenceId>)
    requires state.Stopped? || (state.Looping? && ids != [])
    ensures |SequenceFor(sounds, state, ids)| == if state.Stopped? then 12 else 16
    ensures SequenceFor(sounds, state, ids)[|SequenceFor(sounds, state, ids)| - 12..] == LoopBody(sounds)
  {
  }

  /**
   * From `Looping(beat)` the fill is chosen by the beat: beat 1 queues a
   * 3-beat fill on the next beat, beat 2 a 2-beat fill on the next beat,
   * any other beat a 4-beat fill on the next bar.
   */
  lemma FillChosenByBeat(sounds: SoundBank, beat: nat, ids: seq<SequenceId>)
    requires ids != []
    ensures beat == 1 ==> QueuedState(Looping(beat)) == QueueingFill(3)
    ensures beat == 1 ==> SequenceFor(sounds, Looping(beat), ids)[..3]
                          == [WaitForInterval(1), Play(sounds.fill3b), EmitCustomEvent(StartFill(3))]
    ensures beat == 2 ==> QueuedState(Looping(beat)) == QueueingFill(2)
    ensures beat == 2 ==> SequenceFor(sounds, Looping(beat), ids)[..3]
                          == [WaitForInterval(1), Play(sounds.fill2b), EmitCustomEvent(StartFill(2))]
    ensures beat != 1 && beat != 2 ==> QueuedState(Looping(beat)) == QueueingFill(4)
    ensures beat != 1 && beat != 2 ==>
              SequenceFor(sounds, Looping(beat), ids)[..3] == [WaitForInterval(4), Play(sounds.fill4b), EmitCustomEvent(StartFill(4))]
  {
  }

  /**
   * The fill stops the most recently started sequence, with the short fade,
   * right after playing and announcing the fill and before the loop body;
   * it is the only stop in the sequence. From `Stopped` nothing is stopped.
   */
  lemma FillStopsPreviousSequence(sounds: SoundBank, state: PlaybackState, ids: seq<SequenceId>)
    requires state.Stopped? || (state.Looping? && ids != [])
    ensures var s := SequenceFor(sounds, state, ids);
      forall k :: 0 <= k < |s| ==>
        (s[k].StopSequenceAndInstances? <==> state.Looping? && k == 3)
    ensures state.Looping? ==> SequenceFor(sounds, state, ids)[3] == StopSequenceAndInstances(ids[|ids| - 1], ShortFade)
    ensures state.Looping? ==> SequenceFor(sounds, state, ids)[1].Play? && SequenceFor(sounds, state, ids)[2] == EmitCustomEvent(StartFill(FillFor(state.beat).beats))
  {
  }

  // ---------------------------------------------------------------------------
  // start_sequence

  /** While a fill is queued or playing, start_sequence changes nothing and calls nothing. */
  lemma StartSequenceDuringFillIsNoOp(sounds: SoundBank, d: Demo)
    requires d.playback.QueueingFill? || d.playback.PlayingFill?
    ensures StartSequenceStep(sounds, d) == (d, Ok)
  {
  }

  /** From `Looping` with no tracked sequence, `last().unwrap()` panics before anything changes. */
  lemma StartSequenceWithoutPreviousPanics(sounds: SoundBank, beat: nat, engine: Engine<AudioEvent>)
    ensures StartSequenceStep(sounds, Demo(Looping(beat), [], engine)) == (Demo(Looping(beat), [], engine), Panic)
  {
  }

  /**
   * When the engine refuses the sequence, no id is tracked and nothing is
   * logged, but the state was already set: `QueueingFill` from `Looping`,
   * still `Stopped` from `Stopped`.
   */
  lemma StartSequenceRefused(sounds: SoundBank, d: Demo)
    requires d.playback.Stopped? || (d.playback.Looping? && d.ids != [])
    requires d.engine.room == 0
    ensures StartSequenceStep(sounds, d) == (Demo(QueuedState(d.playback), d.ids, d.engine), EngineError)
    ensures d.playback.Looping? ==> StartSequenceStep(sounds, d).0.playback == QueueingFill(FillFor(d.playback.beat).beats)
  {
  }

  /**
   * When the engine accepts the sequence, exactly one fresh id is appended;
   * the metronome is started only when starting from `Stopped`, and that
   * second command can still be refused. The state stays `Stopped` (the
   * StartLoop event will set `Looping`), or becomes `QueueingFill`.
   */
  lemma StartSequenceAccepted(sounds: SoundBank, d: Demo)
    requires d.playback.Stopped? || (d.playback.Looping? && d.ids != [])
    requires d.engine.room > 0
    ensures var (d', outcome) := StartSequenceStep(sounds, d);
      d'.ids == d.ids + [d.engine.nextId] &&
      d'.playback == (if d.playback.Stopped? then Stopped else QueueingFill(FillFor(d.playback.beat).beats)) &&
      d'.engine.calls == d.engine.calls + [StartSequenceCall(SequenceFor(sounds, d.playback, d.ids), d.engine.nextId)]
                         + (if d.playback.Stopped? && d.engine.room > 1 then [StartMetronomeCall] else []) &&
      d'.engine.nextId == d.engine.nextId + 1 &&
      d'.engine.events == d.engine.events &&
      (outcome == Ok <==> d.playback.Looping? || d.engine.room > 1) &&
      (outcome != Ok ==> outcome == EngineError)
  {
  }

  /**
   * Until the StartLoop event arrives the state stays `Stopped`, so a second
   * start_sequence starts a second loop sequence and a second metronome.
   */
  lemma StartSequenceTwiceFromStopped(sounds: SoundBank, d: Demo)
    requires d.playback.Stopped? && d.engine.room >= 4
    ensures var (once, first) := StartSequenceStep(sounds, d);
      var (twice, second) := StartSequenceStep(sounds, once);
      var n := d.engine.nextId;
      first == Ok && second == Ok &&
      twice.playback == Stopped &&
      twice.ids == d.ids + [n, n + 1] &&
      twice.engine.calls == d.engine.calls
        + [StartSequenceCall(LoopBody(sounds), n), StartMetronomeCall,
           StartSequenceCall(LoopBody(sounds), n + 1), StartMetronomeCall]
  {
    var once := StartSequenceStep(sounds, d).0;
    StartSequenceAccepted(sounds, d);
    StartSequenceAccepted(sounds, once);
    assert SequenceFor(sounds, Stopped, d.ids) == LoopBody(sounds);
    assert SequenceFor(sounds, Stopped, once.ids) == LoopBody(sounds);
    assert once.ids + [d.engine.nextId + 1] == d.ids + [d.engine.nextId, d.engine.nextId + 1];
  }

  // ---------------------------------------------------------------------------
  // stop

  lemma {:induction false} StopCallsLayout(ids: seq<SequenceId>)
    ensures forall k :: 0 <= k < |ids| ==> StopCalls(ids)[k] == StopSequenceCall(ids[k], ShortFade)
  {
    if ids != [] {
      StopCallsLayout(ids[1..]);
    }
  }

  /** Submitting commands one by one: all are accepted when there is room for them, else a prefix. */
  lemma {:induction false} SubmitAllEffect(engine: Engine<AudioEvent>, calls: seq<Call<AudioEvent>>)
    ensures var (e, ok) := SubmitAll(engine, calls);
      (ok <==> |calls| <= engine.room) &&
      e.calls == engine.calls + (if ok then calls else calls[..engine.room]) &&
      e.room == (if ok then engine.room - |calls| else 0) &&
      e.events == engine.events && e.nextId == engine.nextId
    decreases |calls|
  {
    if calls != [] && engine.room > 0 {
      var next := engine.Submit(calls[0]).value;
      SubmitAllEffect(next, calls[1..]);
      if |calls| <= engine.room {
        assert [calls[0]] + calls[1..] == calls;
      } else {
        assert [calls[0]] + calls[1..][..next.room] == calls[..engine.room];
      }
    }
  }

  /**
   * stop issues one faded stop per tracked id, in order, then stops the
   * metronome and sets `Stopped`. The tracked ids are gone even when a
   * command is refused; then the state is left as it was.
   */
  lemma StopTearsDown(d: Demo)
    ensures var (d', outcome) := StopStep(d);
      var n := |d.ids|;
      d'.ids == [] &&
      d'.engine.events == d.engine.events && d'.engine.nextId == d.engine.nextId &&
      (outcome == Ok <==> d.engine.room > n) &&
      (outcome == Ok ==>
         d'.playback == Stopped &&
         d'.engine.calls == d.engine.calls + StopCalls(d.ids) + [StopMetronomeCall]) &&
      (outcome != Ok ==>
         outcome == EngineError && d'.playback == d.playback &&
         d'.engine.calls == d.engine.calls + StopCalls(d.ids)[..if n <= d.engine.room then n else d.engine.room])
  {
    SubmitAllEffect(d.engine, StopCalls(d.ids));
    StopCallsLayout(d.ids);
  }

  /** stop from `Stopped` stays `Stopped`; with nothing tracked it still stops the metronome. */
  lemma StopWhenStopped(d: Demo)
    requires d.playback.Stopped?
    ensures StopStep(d).0.playback == Stopped && StopStep(d).0.ids == []
    ensures d.ids == [] && d.engine.room > 0 ==>
      StopStep(d) == (Demo(Stopped, [], d.engine.(calls := d.engine.calls + [StopMetronomeCall], room := d.engine.room - 1)), Ok)
  {
  }

  // ---------------------------------------------------------------------------
  // check_for_events

  lemma {:induction false} ApplyEventsAppend(state: PlaybackState, a: seq<Event<AudioEvent>>, b: seq<Event<AudioEvent>>)
    ensures ApplyEvents(state, a + b) == ApplyEvents(ApplyEvents(state, a), b)
    decreases |a|
  {
    if a != [] {
      assert (a + b)[1..] == a[1..] + b;
      ApplyEventsAppend(ApplyEvent(state, a[0]), a[1..], b);
    } else {
      assert a + b == b;
    }
  }

  /** The transitions of one event: StartLoop and StartFill overwrite any state, Beat only moves `Looping`. */
  lemma EventTransitions(state: PlaybackState, beats: nat, beat: nat)
    ensures ApplyEvents(state, [Custom(AudioEvent.StartLoop)]) == Looping(1)
    ensures ApplyEvents(state, [Custom(StartFill(beats))]) == PlayingFill(beats)
    ensures ApplyEvents(state, [Custom(Beat(beat))]) == if state.Looping? then Looping(beat) else state
    ensures ApplyEvents(state, [EngineInternal]) == state
  {
  }

  /** A StartLoop or StartFill event erases everything that happened before it. */
  lemma OverwritingEventForgetsHistory(s: PlaybackState, t: PlaybackState, before: seq<Event<AudioEvent>>,
                                       other: seq<Event<AudioEvent>>, e: AudioEvent, after: seq<Event<AudioEvent>>)
    requires e.StartLoop? || e.StartFill?
    ensures ApplyEvents(s, before + [Custom(e)] + after) == ApplyEvents(t, other + [Custom(e)] + after)
  {
    ApplyEventsAppend(s, before + [Custom(e)], after);
    ApplyEventsAppend(s, before, [Custom(e)]);
    ApplyEventsAppend(t, other + [Custom(e)], after);
    ApplyEventsAppend(t, other, [Custom(e)]);
    assert [Custom(e)][1..] == [];
  }

  predicate OnlyBeats(events: seq<Event<AudioEvent>>)
  {
    forall k :: 0 <= k < |events| ==> events[k].Custom? && events[k].event.Beat?
  }

  /** Beat events leave any state but `Looping` alone; `Looping` follows the last beat. */
  lemma {:induction false} BeatsFollowOnlyLooping(state: PlaybackState, events: seq<Event<AudioEvent>>)
    requires OnlyBeats(events)
    ensures !state.Looping? ==> ApplyEvents(state, events) == state
    ensures state.Looping? && events != [] ==> ApplyEvents(state, events) == Looping(events[|events| - 1].event.beat)
    decreases |events|
  {
    if events != [] {
      BeatsFollowOnlyLooping(ApplyEvent(state, events[0]), events[1..]);
    }
  }

  /** check_for_events empties the queue and touches nothing but the state. */
  lemma CheckForEventsDrainsQueue(d: Demo)
    ensures CheckForEventsStep(d).engine.events == []
    ensures CheckForEventsStep(d).ids == d.ids
    ensures CheckForEventsStep(d).engine.calls == d.engine.calls
    ensures CheckForEventsStep(d).engine.room == d.engine.room && CheckForEventsStep(d).engine.nextId == d.engine.nextId
  {
  }

  // ---------------------------------------------------------------------------
  // update and the tracked ids

  lemma UpdateDispatches(sounds: SoundBank, d: Demo)
    ensures UpdateStep(sounds, d, Message.StartSequence) == StartSequenceStep(sounds, d)
    ensures UpdateStep(sounds, d, Message.Stop) == StopStep(d)
    ensures UpdateStep(sounds, d, GoToDemoSelect) == (d, Ok)
  {
  }

  /** Tracked ids were all handed out by the engine, oldest first, none twice. */
  predicate Tracked(d: Demo)
  {
    (forall k :: 0 <= k < |d.ids| ==> d.ids[k] < d.engine.nextId) &&
    (forall j, k :: 0 <= j < k < |d.ids| ==> d.ids[j] < d.ids[k])
  }

  /** Every operation keeps the tracked ids issued and distinct; a new id is never one already tracked. */
  lemma OperationsKeepIdsTracked(sounds: SoundBank, d: Demo, message: Message)
    requires Tracked(d)
    ensures Tracked(UpdateStep(sounds, d, message).0)
    ensures Tracked(CheckForEventsStep(d))
    ensures |UpdateStep(sounds, d, message).0.ids| > |d.ids| ==>
      UpdateStep(sounds, d, message).0.ids[|d.ids|] !in d.ids
  {
  }

  /**
   * A StartLoop event still queued when stop runs sets `Looping` with no
   * tracked sequence, and the next start_sequence then panics in `unwrap`.
   */
  lemma StaleStartLoopThenStartSequencePanics(sounds: SoundBank, d: Demo)
    requires d.engine.events == [Custom(AudioEvent.StartLoop)]
    requires d.engine.room > |d.ids|
    ensures var stopped := StopStep(d);
      stopped.1 == Ok &&
      CheckForEventsStep(stopped.0).playback == Looping(1) &&
      StartSequenceStep(sounds, CheckForEventsStep(stopped.0)).1 == Panic
  {
    StopTearsDown(d);
    EventTransitions(StopStep(d).0.playback, 0, 0);
  }
}

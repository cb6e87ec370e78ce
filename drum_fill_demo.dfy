/**
 * The playback controller of the drum fill demo: it builds quantised
 * sequences for the engine, tears them down, and follows the events the
 * sequences emit to know whether the loop or a fill is playing.
 *
 * Every operation is a method of `DrumFillDemo` proved against a step
 * function over `Demo`, the value of the controller's state together with
 * the engine's; the properties of the step functions are proved in
 * `DrumFillProperties`.
 */
module DrumFillDemo {
  import opened Wrappers
  import opened Kira

  datatype Message = GoToDemoSelect | StartSequence | Stop

  /** The custom events the demo's sequences emit. */
  datatype AudioEvent = StartLoop | StartFill(beats: nat) | Beat(beat: nat)

  datatype PlaybackState = Stopped | Looping(beat: nat) | QueueingFill(beats: nat) | PlayingFill(beats: nat)

  /** How an operation ends: normally, with an engine error passed up by `?`, or in a panic. */
  datatype Outcome = Ok | EngineError | Panic

  /** The sounds loaded when the demo is created. */
  datatype SoundBank = SoundBank(loopSound: SoundId, fill2b: SoundId, fill3b: SoundId, fill4b: SoundId)

  type Sequence = seq<Action<AudioEvent>>

  /** The fill queued from a beat of the playing loop: its length and the interval it waits for. */
  datatype FillPlan = FillPlan(beats: nat, interval: nat)

  function FillFor(beat: nat): (plan: FillPlan)
    ensures plan == FillPlan(3, 1) <==> beat == 1
    ensures plan == FillPlan(2, 1) <==> beat == 2
    ensures plan == FillPlan(4, 4) <==> beat != 1 && beat != 2
  {
    if beat == 1 then FillPlan(3, 1)
    else if beat == 2 then FillPlan(2, 1)
    else FillPlan(4, 4)
  }

  function FillSound(sounds: SoundBank, beats: nat): (sound: SoundId)
  {
    if beats == 3 then sounds.fill3b
    else if beats == 2 then sounds.fill2b
    else sounds.fill4b
  }

  /** What a fill sequence does before the loop: wait, play the fill, announce it, stop the previous sequence. */
  function FillPrefix(sounds: SoundBank, beat: nat, previous: SequenceId): (prefix: Sequence)
  {
    var plan := FillFor(beat);
    [WaitForInterval(plan.interval), Play(FillSound(sounds, plan.beats)),
     EmitCustomEvent(StartFill(plan.beats)), StopSequenceAndInstances(previous, ShortFade)]
  }

  /** Beat markers 1..n of one bar, each followed by a one-beat wait. */
  function BeatTicks(n: nat): (ticks: Sequence)
  {
    if n == 0 then [] else BeatTicks(n - 1) + [EmitCustomEvent(Beat(n)), Wait(1)]
  }

  /** The part every sequence ends with: the repeating bar of the drum loop. */
  function LoopBody(sounds: SoundBank): (body: Sequence)
  {
    [WaitForInterval(4), Action.StartLoop, EmitCustomEvent(AudioEvent.StartLoop), Play(sounds.loopSound)] + BeatTicks(4)
  }

  /** The sequence `start_sequence` builds from the given state; from `Looping` it needs a previous id. */
  function SequenceFor(sounds: SoundBank, state: PlaybackState, ids: seq<SequenceId>): (sequence: Sequence)
    requires state.Looping? ==> ids != []
  {
    (if state.Looping? then FillPrefix(sounds, state.beat, ids[|ids| - 1]) else []) + LoopBody(sounds)
  }

  /** The state `start_sequence` sets before it calls the engine. */
  function QueuedState(state: PlaybackState): (queued: PlaybackState)
  {
    if state.Looping? then QueueingFill(FillFor(state.beat).beats) else state
  }

  /** The controller's state and the engine's, as one value. */
  datatype Demo = Demo(playback: PlaybackState, ids: seq<SequenceId>, engine: Engine<AudioEvent>)

  function StartSequenceStep(sounds: SoundBank, d: Demo): (result: (Demo, Outcome))
  {
    if d.playback.QueueingFill? || d.playback.PlayingFill? then (d, Ok)
    else if d.playback.Looping? && d.ids == [] then (d, Panic)
    else
      var queued := QueuedState(d.playback);
      var started := d.engine.StartSequence(SequenceFor(sounds, d.playback, d.ids));
      if started.1.None? then (Demo(queued, d.ids, started.0), EngineError)
      else
        var ids := d.ids + [started.1.value];
        if !queued.Stopped? then (Demo(queued, ids, started.0), Ok)
        else match started.0.Submit(StartMetronomeCall)
          case None => (Demo(queued, ids, started.0), EngineError)
          case Some(engine) => (Demo(queued, ids, engine), Ok)
  }

  /** One faded stop per id, in order. */
  function StopCalls(ids: seq<SequenceId>): (calls: seq<Call<AudioEvent>>)
    ensures |calls| == |ids|
  {
    if ids == [] then [] else [StopSequenceCall(ids[0], ShortFade)] + StopCalls(ids[1..])
  }

  /** Hand the engine `calls` one by one, stopping at the first it refuses; says whether all were accepted. */
  function SubmitAll(engine: Engine<AudioEvent>, calls: seq<Call<AudioEvent>>): (result: (Engine<AudioEvent>, bool))
    decreases |calls|
  {
    if calls == [] then (engine, true)
    else match engine.Submit(calls[0])
      case None => (engine, false)
      case Some(next) => SubmitAll(next, calls[1..])
  }

  function StopStep(d: Demo): (result: (Demo, Outcome))
  {
    var stopped := SubmitAll(d.engine, StopCalls(d.ids));
    if !stopped.1 then (Demo(d.playback, [], stopped.0), EngineError)
    else match stopped.0.Submit(StopMetronomeCall)
      case None => (Demo(d.playback, [], stopped.0), EngineError)
      case Some(engine) => (Demo(Stopped, [], engine), Ok)
  }

  /** How one popped event changes the playback state. */
  function ApplyEvent(state: PlaybackState, event: Event<AudioEvent>): (next: PlaybackState)
    ensures event == Custom(AudioEvent.StartLoop) ==> next == Looping(1)
    ensures event.Custom? && event.event.StartFill? ==> next == PlayingFill(event.event.beats)
    ensures event.Custom? && event.event.Beat? && state.Looping? ==> next == Looping(event.event.beat)
    ensures next != state ==> event.Custom? && (event.event.StartLoop? || event.event.StartFill? || state.Looping?)
  {
    match event
    case EngineInternal => state
    case Custom(StartLoop) => Looping(1)
    case Custom(StartFill(beats)) => PlayingFill(beats)
    case Custom(Beat(beat)) => if state.Looping? then Looping(beat) else state
  }

  /** The state after handling `events` oldest first. */
  function ApplyEvents(state: PlaybackState, events: seq<Event<AudioEvent>>): (final: PlaybackState)
    decreases |events|
  {
    if events == [] then state else ApplyEvents(ApplyEvent(state, events[0]), events[1..])
  }

  function CheckForEventsStep(d: Demo): (polled: Demo)
  {
    Demo(ApplyEvents(d.playback, d.engine.events), d.ids, d.engine.(events := []))
  }

  function UpdateStep(sounds: SoundBank, d: Demo, message: Message): (result: (Demo, Outcome))
  {
    match message
    case StartSequence => StartSequenceStep(sounds, d)
    case Stop => StopStep(d)
    case GoToDemoSelect => (d, Ok)
  }

  /** The non-UI part of the demo: the playback state, the started sequences and the engine. */
  class DrumFillDemo {
    const audioManager: AudioManager<AudioEvent>
    const sounds: SoundBank
    var playbackState: PlaybackState
    var sequenceIds: seq<SequenceId>

    function Snapshot(): Demo
      reads this, audioManager
    {
      Demo(playbackState, sequenceIds, audioManager.State())
    }

    /** A freshly created demo: stopped, with no sequences. */
    constructor (audioManager: AudioManager<AudioEvent>, sounds: SoundBank)
      ensures this.audioManager == audioManager && this.sounds == sounds
      ensures playbackState == Stopped && sequenceIds == []
    {
      this.audioManager := audioManager;
      this.sounds := sounds;
      playbackState := Stopped;
      sequenceIds := [];
    }

    /**
     * Start the loop from `Stopped`, or queue a fill chosen from the current
     * beat when the loop is playing; does nothing while a fill is queued or playing.
     */
    method StartSequence() returns (outcome: Outcome)
      modifies this, audioManager
      ensures (Snapshot(), outcome) == StartSequenceStep(sounds, old(Snapshot()))
    {
      if playbackState.QueueingFill? || playbackState.PlayingFill? {
        return Ok;
      }
      var sequence: Sequence := [];
      if playbackState.Looping? {
        if sequenceIds == [] {
          // `last().unwrap()` on an empty list
          return Panic;
        }
        var previousSequenceId := sequenceIds[|sequenceIds| - 1];
        var beat := playbackState.beat;
        if beat == 1 {
          playbackState := QueueingFill(3);
          sequence := sequence + [WaitForInterval(1)];
          sequence := sequence + [Play(sounds.fill3b)];
          sequence := sequence + [EmitCustomEvent(StartFill(3))];
        } else if beat == 2 {
          playbackState := QueueingFill(2);
          sequence := sequence + [WaitForInterval(1)];
          sequence := sequence + [Play(sounds.fill2b)];
          sequence := sequence + [EmitCustomEvent(StartFill(2))];
        } else {
          playbackState := QueueingFill(4);
          sequence := sequence + [WaitForInterval(4)];
          sequence := sequence + [Play(sounds.fill4b)];
          sequence := sequence + [EmitCustomEvent(StartFill(4))];
        }
        sequence := sequence + [StopSequenceAndInstances(previousSequenceId, ShortFade)];
      }
      sequence := sequence + [WaitForInterval(4)];
      sequence := sequence + [Action.StartLoop];
      sequence := sequence + [EmitCustomEvent(AudioEvent.StartLoop)];
      sequence := sequence + [Play(sounds.loopSound)];
      ghost var head := sequence;
      for i := 1 to 5
        invariant sequence == head + BeatTicks(i - 1)
      {
        sequence := sequence + [EmitCustomEvent(Beat(i))];
        sequence := sequence + [Wait(1)];
      }
      assert sequence == SequenceFor(sounds, old(playbackState), old(sequenceIds));
      var id := audioManager.StartSequence(sequence);
      if id.None? {
        return EngineError;
      }
      sequenceIds := sequenceIds + [id.value];
      if playbackState.Stopped? {
        var ok := audioManager.StartMetronome();
        if !ok {
          return EngineError;
        }
      }
      outcome := Ok;
    }

    /** Stop every tracked sequence with the short fade, then the metronome. */
    method Stop() returns (outcome: Outcome)
      modifies this, audioManager
      ensures (Snapshot(), outcome) == StopStep(old(Snapshot()))
    {
      var ids := sequenceIds;
      // `drain(..)` leaves the list empty, also when the loop below returns early
      sequenceIds := [];
      for i := 0 to |ids|
        invariant SubmitAll(audioManager.State(), StopCalls(ids[i..])) == SubmitAll(old(audioManager.State()), StopCalls(ids))
        invariant playbackState == old(playbackState) && sequenceIds == []
      {
        var ok := audioManager.StopSequenceAndInstances(ids[i], ShortFade);
        if !ok {
          return EngineError;
        }
      }
      var ok := audioManager.StopMetronome();
      if !ok {
        return EngineError;
      }
      playbackState := Stopped;
      outcome := Ok;
    }

    /** Handle every pending engine event, oldest first. */
    method CheckForEvents() returns (outcome: Outcome)
      modifies this, audioManager
      ensures outcome == Ok && Snapshot() == CheckForEventsStep(old(Snapshot()))
    {
      while true
        invariant ApplyEvents(playbackState, audioManager.events) == ApplyEvents(old(playbackState), old(audioManager.events))
        invariant sequenceIds == old(sequenceIds)
        invariant audioManager.State() == old(audioManager.State()).(events := audioManager.events)
        decreases |audioManager.events|
      {
        var event := audioManager.PopEvent();
        if event.None? {
          break;
        }
        match event.value {
          case Custom(e) =>
            match e {
              case StartLoop =>
                playbackState := Looping(1);
              case StartFill(beats) =>
                playbackState := PlayingFill(beats);
              case Beat(beat) =>
                if playbackState.Looping? {
                  playbackState := Looping(beat);
                }
            }
          case EngineInternal =>
        }
      }
      outcome := Ok;
    }

    method Update(message: Message) returns (outcome: Outcome)
      modifies this, audioManager
      ensures (Snapshot(), outcome) == UpdateStep(sounds, old(Snapshot()), message)
    {
      match message {
        case StartSequence =>
          outcome := StartSequence();
        case Stop =>
          outcome := Stop();
        case GoToDemoSelect =>
          outcome := Ok;
      }
    }
  }
}

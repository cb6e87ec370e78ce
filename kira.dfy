/**
 * An abstract model of the kira `AudioManager` the drum fill demo drives.
 *
 * The engine is an opaque collaborator: what it does on its audio thread is
 * not modelled. What the demo can observe of it is kept: the commands it has
 * accepted (a log), the queue of events its sequences have emitted, the ids it
 * hands out for started sequences, and the fact that any command may be
 * refused. A refusal is modelled by `room`, the number of further commands
 * the engine will accept; a refused command changes nothing.
 */
module Kira {
  import opened Wrappers

  /** Handle of a started sequence (kira's `SequenceId`). */
  type SequenceId = nat

  /** Handle of a loaded sound (kira's `SoundId`). */
  type SoundId = nat

  /** The 0.01-second fade-out the demo passes to every stop, as an opaque tag. */
  datatype Fade = ShortFade

  /** One step of a quantised sequence; intervals and waits are whole beats. */
  datatype Action<E> =
    | WaitForInterval(interval: nat)
    | Wait(beats: nat)
    | Play(sound: SoundId)
    | StopSequenceAndInstances(target: SequenceId, fade: Fade)
    | StartLoop
    | EmitCustomEvent(event: E)

  /** What `pop_event` yields: a custom event emitted by a sequence, or one of the engine's own. */
  datatype Event<E> = Custom(event: E) | EngineInternal

  /** A command the engine has accepted. */
  datatype Call<E> =
    | StartSequenceCall(actions: seq<Action<E>>, id: SequenceId)
    | StopSequenceCall(id: SequenceId, fade: Fade)
    | StartMetronomeCall
    | StopMetronomeCall

  /** The observable state of the engine. */
  datatype Engine<E> = Engine(calls: seq<Call<E>>, events: seq<Event<E>>, nextId: SequenceId, room: nat)
  {
    /** Hand one command to the engine: `None` when it refuses it. */
    function Submit(call: Call<E>): (r: Option<Engine<E>>)
      ensures r.Some? <==> room > 0
      ensures r.Some? ==> r.value.calls == calls + [call] && r.value.room + 1 == room
      ensures r.Some? ==> r.value.events == events && r.value.nextId == nextId
    {
      if room == 0 then None else Some(this.(calls := calls + [call], room := room - 1))
    }

    /** Start a sequence: the new engine state and the fresh id, or no id when refused. */
    function StartSequence(actions: seq<Action<E>>): (r: (Engine<E>, Option<SequenceId>))
      ensures r.1.None? <==> room == 0
      ensures r.1.None? ==> r.0 == this
      ensures r.1.Some? ==> r.1.value == nextId && r.0.nextId == nextId + 1
      ensures r.1.Some? ==> r.0.calls == calls + [StartSequenceCall(actions, nextId)]
      ensures r.0.events == events
    {
      if room == 0 then (this, None)
      else (this.(calls := calls + [StartSequenceCall(actions, nextId)], nextId := nextId + 1, room := room - 1), Some(nextId))
    }

    /** Take the oldest pending event, if any. */
    function PopEvent(): (r: (Engine<E>, Option<Event<E>>))
      ensures r.1.None? <==> events == []
      ensures r.1.Some? ==> [r.1.value] + r.0.events == events
      ensures r.0.calls == calls && r.0.nextId == nextId && r.0.room == room
    {
      if events == [] then (this, None) else (this.(events := events[1..]), Some(events[0]))
    }
  }

  /** The engine as the object the demo holds and calls. */
  class AudioManager<E> {
    var calls: seq<Call<E>>
    var events: seq<Event<E>>
    var nextId: SequenceId
    var room: nat

    function State(): Engine<E>
      reads this
    {
      Engine(calls, events, nextId, room)
    }

    /** An engine that has accepted nothing yet, with the given pending events and capacity. */
    constructor (events: seq<Event<E>>, room: nat)
      ensures State() == Engine([], events, 0, room)
    {
      this.calls := [];
      this.events := events;
      this.nextId := 0;
      this.room := room;
    }

    method StartSequence(actions: seq<Action<E>>) returns (id: Option<SequenceId>)
      modifies this
      ensures (State(), id) == old(State()).StartSequence(actions)
    {
      if room == 0 {
        id := None;
      } else {
        calls := calls + [StartSequenceCall(actions, nextId)];
        id := Some(nextId);
        nextId := nextId + 1;
        room := room - 1;
      }
    }

    /** Accept `call` if there is room; `ok` says whether it was accepted. */
    method Command(call: Call<E>) returns (ok: bool)
      modifies this
      ensures ok <==> old(State()).Submit(call).Some?
      ensures State() == if ok then old(State()).Submit(call).value else old(State())
    {
      ok := room > 0;
      if ok {
        calls := calls + [call];
        room := room - 1;
      }
    }

    method StopSequenceAndInstances(id: SequenceId, fade: Fade) returns (ok: bool)
      modifies this
      ensures ok <==> old(State()).Submit(StopSequenceCall(id, fade)).Some?
      ensures State() == if ok then old(State()).Submit(StopSequenceCall(id, fade)).value else old(State())
    {
      ok := Command(StopSequenceCall(id, fade));
    }

    method StartMetronome() returns (ok: bool)
      modifies this
      ensures ok <==> old(State()).Submit(StartMetronomeCall).Some?
      ensures State() == if ok then old(State()).Submit(StartMetronomeCall).value else old(State())
    {
      ok := Command(StartMetronomeCall);
    }

    method StopMetronome() returns (ok: bool)
      modifies this
      ensures ok <==> old(State()).Submit(StopMetronomeCall).Some?
      ensures State() == if ok then old(State()).Submit(StopMetronomeCall).value else old(State())
    {
      ok := Command(StopMetronomeCall);
    }

    method PopEvent() returns (event: Option<Event<E>>)
      modifies this
      ensures (State(), event) == old(State()).PopEvent()
    {
      if events == [] {
        event := None;
      } else {
        event := Some(events[0]);
        events := events[1..];
      }
    }
  }
}

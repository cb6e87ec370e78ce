# Drum fill demo: playback controller and beat display

This project models the non-UI core of the kira drum fill demo.

**The playback controller** is `DrumFillDemo` in `src/drum_fill_demo.rs`. The "Start loop" button starts a looping drum sequence on the kira engine. While anything plays, the same button sends `Stop` instead. A separate "Play drum fill" button is enabled only while the loop plays; it sends the same `StartSequence` message, which then queues a drum fill. The beat the loop is on decides which fill:

- beat 1 gives a 3-beat fill on the next beat;
- beat 2 gives a 2-beat fill on the next beat;
- any other beat gives a 4-beat fill on the next bar.

The fill sequence stops the previous sequence and then loops again. Stop tears everything down. A polling step reads the events the sequences emit (`StartLoop`, `StartFill(n)`, `Beat(n)`) and moves the playback state between `Stopped`, `Looping(n)`, `QueueingFill(n)` and `PlayingFill(n)`.

**The beat display** is `BeatDisplay` in `src/ui/screen/drum_fill_demo/beat_display.rs`. It colours four circles, one per beat. The current beat gets one colour, the beats a fill occupies get another, and every other circle gets the default.

Layout:

- `wrappers.dfy`: `Option`.
- `kira.dfy`: the engine as an abstract collaborator, class `Kira.AudioManager`. It keeps a log of the commands it accepted, a queue of pending events, a counter that hands out fresh sequence ids, and `room`, the number of further commands it will accept. A refused command changes nothing, and that is how every `?` on an engine call is modelled. Sequence actions are a datatype. Intervals and waits are whole beats. The 0.01 fade is the tag `ShortFade`.
- `drum_fill_demo.dfy`: the class `DrumFillDemo.DrumFillDemo` with `StartSequence`, `Stop`, `CheckForEvents` and `Update`. Each method builds or changes state step by step, as the source does. Each is proved equal to a step function over `Demo`, which holds the playback state, the tracked ids and the engine state.
- `drum_fill_properties.dfy`: what the step functions promise.
- `beat_display.dfy`: the occupancy and colouring rule and the four circles `draw` lays out.
- `fill_timing.dfy`: links the two cores. The fill chosen on a beat ends on the bar line. Handed to the display, that fill occupies exactly the beats from its start beat to the bar line.

These behaviours of the code are kept as they are:

- `start_sequence` sets `QueueingFill` before the engine call that can fail. On refusal the state has changed but no id is tracked.
- From `Stopped`, the state stays `Stopped` until the `StartLoop` event arrives.
- `check_for_events` returns from a fill to `Looping(1)` only through the `StartLoop` event that the fill sequence's loop body emits.
- `StartLoop` and `StartFill` overwrite any state.
- Superseded ids stay in `sequence_ids`. The list grows with every fill, and `stop` stops every id again.
- `stop` with nothing playing issues one engine call: it stops the metronome.
- While the state is still `Stopped`, "Start loop" can be pressed twice before the `StartLoop` event arrives. That starts two loop sequences and two metronomes (`StartSequenceTwiceFromStopped`).
- `Vec::drain(..)` empties `sequence_ids` even when a refused stop ends the loop early. The state is then left as it was.
- `last().unwrap()` panics when the state is `Looping` and no id is tracked. The model gives this the outcome `Panic` with nothing changed. `StaleStartLoopThenStartSequencePanics` shows how to reach it: a `StartLoop` event still queued when `stop` runs sets `Looping` with an empty list.

## Model

| member | source | states |
|---|---|---|
| `DrumFillDemo.DrumFillDemo.constructor` | src/drum_fill_demo.rs:84-95 | a new demo is `Stopped` and tracks no sequence |
| `DrumFillDemo.DrumFillDemo.StartSequence` | src/drum_fill_demo.rs:108-153 | builds the action list step by step, including the four-beat loop; the new state, ids and engine log are exactly `StartSequenceStep` of the old ones |
| `DrumFillDemo.DrumFillDemo.Stop` | src/drum_fill_demo.rs:155-163 | drains the ids, issuing one faded stop per id, then stops the metronome and sets `Stopped`; the result is exactly `StopStep`, including early exit on refusal |
| `DrumFillDemo.DrumFillDemo.CheckForEvents` | src/drum_fill_demo.rs:165-185 | pops events until the queue is empty; the final state is the events applied oldest first, and nothing else changes |
| `DrumFillDemo.DrumFillDemo.Update` | src/drum_fill_demo.rs:187-198 | dispatches each message as `UpdateStep` does |
| `DrumFillDemo.StopCalls` | src/drum_fill_demo.rs:156-159 | one stop command per tracked id |
| `DrumFillProperties.BeatTicksLayout` | src/drum_fill_demo.rs:140-143 | the loop emits `Beat(1)`..`Beat(n)` in order, each followed by a one-beat wait |
| `DrumFillProperties.LoopBodyLayout` | src/drum_fill_demo.rs:136-143 | the loop body is 12 actions: wait for the bar, start the loop, emit `StartLoop`, play the loop, then `Beat(1..4)` with waits; it contains no stop |
| `DrumFillProperties.SequenceEndsWithLoopBody` | src/drum_fill_demo.rs:111-143 | every built sequence ends with the loop body; 12 actions from `Stopped`, 16 from `Looping` |
| `DrumFillProperties.FillChosenByBeat` | src/drum_fill_demo.rs:114-133 | beat 1 gives `QueueingFill(3)`, interval 1, the 3-beat sound and `StartFill(3)`; beat 2 gives `QueueingFill(2)`, interval 1 and `StartFill(2)`; any other beat gives `QueueingFill(4)`, interval 4 and `StartFill(4)` |
| `DrumFillProperties.FillStopsPreviousSequence` | src/drum_fill_demo.rs:113-134 | a fill stops the last tracked id with the short fade, at position 3, after its play and `StartFill` emit and before the loop body; it is the only stop; a sequence from `Stopped` stops nothing |
| `DrumFillDemo.FillFor` | src/drum_fill_demo.rs:114-133 | beat 1 gives a 3-beat fill with a 1-beat interval, beat 2 a 2-beat fill with a 1-beat interval, and exactly the other beats a 4-beat fill with a 4-beat interval |
| `DrumFillProperties.StartSequenceDuringFillIsNoOp` | src/drum_fill_demo.rs:109-152 | in `QueueingFill` or `PlayingFill`, state, ids and engine are unchanged and the result is success |
| `DrumFillProperties.StartSequenceWithoutPreviousPanics` | src/drum_fill_demo.rs:112-113 | `Looping` with no tracked id panics before anything changes |
| `DrumFillProperties.StartSequenceRefused` | src/drum_fill_demo.rs:114-145 | when the engine refuses the sequence, no id is pushed and nothing is logged, but `QueueingFill` has already been set |
| `DrumFillProperties.StartSequenceAccepted` | src/drum_fill_demo.rs:144-148 | an accepted sequence appends exactly the fresh id; the metronome starts only from `Stopped`, and a refusal of it is an error; the state is `Stopped` or `QueueingFill(n)` |
| `DrumFillProperties.StartSequenceTwiceFromStopped` | src/drum_fill_demo.rs:144-148 | two start_sequence calls from `Stopped` both succeed: two fresh ids are tracked, two loop sequences and two metronome starts are logged, and the state stays `Stopped` |
| `DrumFillProperties.StopCallsLayout` | src/drum_fill_demo.rs:156-159 | the k-th stop command stops the k-th tracked id with the short fade |
| `DrumFillProperties.SubmitAllEffect` | src/drum_fill_demo.rs:156-159 | commands issued in a `?` loop are all accepted exactly when there is room for all of them; otherwise only the prefix that fits is logged |
| `DrumFillProperties.StopTearsDown` | src/drum_fill_demo.rs:155-163 | afterwards no id is tracked; on success the log gains one faded stop per id, in order, then the metronome stop, and the state is `Stopped`; on refusal the state is unchanged |
| `DrumFillProperties.StopWhenStopped` | src/drum_fill_demo.rs:155-163 | stop from `Stopped` stays `Stopped`; with nothing tracked it issues only the metronome stop |
| `DrumFillDemo.ApplyEvent` | src/drum_fill_demo.rs:167-181 | `StartLoop` gives `Looping(1)`, `StartFill(b)` gives `PlayingFill(b)`, `Beat(b)` from `Looping` gives `Looping(b)`; no other event changes the state |
| `DrumFillProperties.ApplyEventsAppend` | src/drum_fill_demo.rs:166-183 | handling a queue in two parts is the same as handling it at once |
| `DrumFillProperties.EventTransitions` | src/drum_fill_demo.rs:167-181 | `StartLoop` sets `Looping(1)` and `StartFill(b)` sets `PlayingFill(b)` from any state; `Beat(b)` sets `Looping(b)` only from `Looping`; other engine events change nothing |
| `DrumFillProperties.OverwritingEventForgetsHistory` | src/drum_fill_demo.rs:169-174 | after a `StartLoop` or `StartFill` event, the state no longer depends on the earlier state or on earlier events |
| `DrumFillProperties.BeatsFollowOnlyLooping` | src/drum_fill_demo.rs:175-179 | beat events leave every state except `Looping` alone; `Looping` ends on the last beat |
| `DrumFillProperties.CheckForEventsDrainsQueue` | src/drum_fill_demo.rs:165-185 | the event queue is empty afterwards; ids and the engine log are untouched |
| `DrumFillProperties.UpdateDispatches` | src/drum_fill_demo.rs:187-198 | `StartSequence` runs start_sequence, `Stop` runs stop, and `GoToDemoSelect` changes nothing |
| `DrumFillProperties.OperationsKeepIdsTracked` | src/drum_fill_demo.rs:144-163 | every operation keeps the tracked ids issued by the engine and strictly increasing; an appended id was not tracked before |
| `DrumFillProperties.StaleStartLoopThenStartSequencePanics` | src/drum_fill_demo.rs:108-185 | stop, then a `StartLoop` event left in the queue, then start_sequence: the state becomes `Looping(1)` with no id, and the unwrap panics |
| `BeatDisplay.CircleColor` | src/ui/screen/drum_fill_demo/beat_display.rs:29-41 | the current beat is `CurrentBeat`, fill or not; any other index is `Fill` exactly when a fill is present and occupies it, else `Default` |
| `BeatDisplay.Draw` | src/ui/screen/drum_fill_demo/beat_display.rs:65-88 | four circles; the k-th stands for index k+1 and has its colour |
| `BeatDisplay.DoesDrumFillOccupyBeat` | src/ui/screen/drum_fill_demo/beat_display.rs:21-27 | for indices from 1, a fill occupies exactly the indices i with i + length > 4 (`TwoBeat` above 2, `ThreeBeat` above 1); `FourBeat` occupies every index |
| `BeatDisplay.OccupancyUpwardClosed` | src/ui/screen/drum_fill_demo/beat_display.rs:21-27 | if a fill occupies an index, it occupies every larger one |
| `BeatDisplay.OccupiedCountIsLength` | src/ui/screen/drum_fill_demo/beat_display.rs:21-27 | among 1..4, the number of occupied indices is the fill's length (2, 3 or 4) |
| `BeatDisplay.DrawCoversTheBar` | src/ui/screen/drum_fill_demo/beat_display.rs:69-79 | the circles stand for indices 1, 2, 3, 4, one each, in order |
| `BeatDisplay.IdleDisplayIsDefault` | src/ui/screen/drum_fill_demo/beat_display.rs:29-41 | with no beat and no fill, every circle is `Default` |
| `BeatDisplay.OneCurrentBeatCircle` | src/ui/screen/drum_fill_demo/beat_display.rs:30-34 | exactly one circle is `CurrentBeat` when there is a beat, none otherwise |
| `BeatDisplay.FillCirclesMatchLength` | src/ui/screen/drum_fill_demo/beat_display.rs:35-39 | with no current beat, the number of `Fill` circles is the fill's length |
| `FillTiming.FillEndsOnBarLine` | src/drum_fill_demo.rs:98-133 | with the start beat computed from the fill's interval, the chosen fill starts on a later beat or on the next downbeat, and it lasts exactly to the end of that bar |
| `FillTiming.DisplayedFillOccupiesFillBeats` | src/ui/screen/drum_fill_demo/beat_display.rs:21-27 | the fill handed to the display occupies exactly the beats from the scheduled fill's start beat to the bar line |

## Left out

- `DrumFillDemo::new` loads `.ogg` files from the working directory, builds the engine and sets the 128 BPM float tempo. All of that is I/O or foreign calls. The constructor takes the engine and the loaded sound ids as parameters and models only the initial field values.
- The kira engine internals are left out: real-time scheduling on the audio thread, playback, fades, metronome timing, and events arriving while the demo runs. The event queue is an input. Which specific error a refused command raises is not modelled, only that it is refused.
- A panic is modelled as the outcome `Panic`, with unwinding not modelled.
- `view`, `PlaybackState::to_string`, layout, `hash_layout` and the float geometry and float colours of `draw` are left out. Colours are the tags `Default`, `CurrentBeat` and `Fill`.
- The styling, the header and screen wrapper, demo selection and screen navigation are UI only and are left out.
- `src/ui/screen/drum_fill_demo.rs` is not part of this model. It is a stub iteration whose `update` and `check_for_events` are empty.
- The underwater demo is not part of this model. It pushes one sequence and tweens a parameter inside the library.
- `Beat` and `DrumFill` are declared in a parent module that is not shown. They are modelled as enums, with `Beat` numbered 1..4 by `AsUsize` and `DrumFill` of lengths 2, 3 and 4.
- FillTiming.DisplayedFill: no shown code hands the controller's fill to the beat display (the owner of `Beat` and `DrumFill` is not part of this model), so the link from a fill of n beats to the display's `DrumFill` of length n is assumed. Colours are not linked: the current beat's colour overrides the fill's.

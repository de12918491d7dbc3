# new_synth core in Dafny

A model of three parts of the new_synth software synthesizer, with proofs of
what they guarantee.

- **Voice allocation** (`voice_allocation.dfy`, module `VoiceAllocation`):
  the `voiceAllocator` class. It keeps a fixed pool of 8 slots, each with a
  voice pointer, an in-use flag and the last note's frequency. It also keeps
  the voice count `nVoices` and a rotating cursor `nextVoice`. `noteOn`
  claims the first free slot in cyclic order from the cursor. `noteOff`
  releases every voice. The class `Allocator` keeps the source's arrays.
  Its methods are proved against pure functions over a `Pool` snapshot
  (`Claim`, `AfterNoteOn`, `AfterNoteOff`). Voices are not modelled: each
  call the allocator makes on a voice is appended to a ghost log. The
  search loop of `noteOn` is the method `FreeSlot`. `NoteOn` calls it and
  then updates the claimed slot, as the loop body does before returning.
- **Oscillator** (`oscillators.dfy`, module `Oscillators`): the `Oscillator`
  class. It holds a saw/square waveform switch, a base frequency and a
  detune factor. Every setter pushes `baseFrequency * detune` to both
  generators. A generator is modelled as its frequency plus a count of the
  samples taken from it. A sample is a token naming the generator and the
  sample's position in its output.
- **MIDI input filter** (`midi_input.dfy`, module `MidiInput`): the
  `midiCallback` function and its static `messagebuffer` queue. Decoding is
  a pure function over the message bytes (`bv8`). The kind constants are
  0x80 (note-off), 0x90 (note-on) and 0xB0 (control change), as in the
  MIDI 1.0 Detailed Specification's status-byte table. The `switch` that
  names the kind is modelled case by case, with its missing `break`s. The
  queue is a class whose `Receive` method runs the callback.

Behaviour of the code worth noting, which the model follows:

- With `nVoices == 0`, `noteOn`'s loop condition `i < nVoices + nextVoice`
  is false at once. So `i % nVoices` is never evaluated and `noteOn` does
  nothing (`Claim` is `None`).
- After a claim, the cursor moves from where it was (`(nextVoice + 1) %
  nVoices`), not past the claimed slot (`CursorTrailsClaim`).
- When every slot is busy, `noteOn` drops the request; nothing is stolen.
- `noteOff` ignores its frequency argument and releases every voice.
- Only note-on and note-off pass the MIDI filter, so control-change
  messages never reach the queue. The queue is never appended to
  (`NeverEnqueues`).

## Model

| member | source | states |
|---|---|---|
| VoiceAllocation.ActiveSlots | src/voiceAllocator.cpp:6 | The loops bounded by `i < nVoices && i < 8` visit no slot for nVoices <= 0, nVoices slots up to 8, and exactly 8 slots for nVoices >= 8 |
| VoiceAllocation.ProbeIsMod | src/voiceAllocator.cpp:15-17 | The slot probed at offset k from the cursor is `(nextVoice + k) % nVoices`, as `j = i % nVoices` computes it |
| VoiceAllocation.AdvanceIsMod | src/voiceAllocator.cpp:28-29 | The cursor after a claim is `(nextVoice + 1) % nVoices` |
| VoiceAllocation.ProbeFrom | src/voiceAllocator.cpp:15-20 | The first offset whose slot is free: every earlier offset is busy, and None exactly when all remaining offsets are busy |
| VoiceAllocation.ProbeStops | src/voiceAllocator.cpp:15-20 | Probing over busy slots up to a free one stops at that free one |
| VoiceAllocation.Claim | src/voiceAllocator.cpp:15-20 | The slot noteOn claims is below nVoices and free; None exactly when all nVoices slots are busy |
| VoiceAllocation.ProbeFound | src/voiceAllocator.cpp:17-20 | A free slot reached after only busy ones is the slot `Claim` names |
| VoiceAllocation.ProbeExhausted | src/voiceAllocator.cpp:15-33 | When the loop finds no free slot, `Claim` is None |
| VoiceAllocation.AfterNoteOn | src/voiceAllocator.cpp:14-33 | On a claim, only the claimed slot changes: free to in use, with the note recorded; the cursor advances by one and stays in range. With no free slot the pool is unchanged |
| VoiceAllocation.AfterNoteOff | src/voiceAllocator.cpp:35-42 | Every slot is free afterwards; notes and cursor are unchanged; the pool keeps its shape |
| VoiceAllocation.NoteOnCalls | src/voiceAllocator.cpp:24-25 | A claim makes exactly two calls, setFrequency(f) then noteOn, both on the claimed slot's voice; a dropped request makes no voice call |
| VoiceAllocation.NoteOffCalls | src/voiceAllocator.cpp:36-38 | noteOff calls noteOff on the voice of each slot below the voice count, in slot order |
| VoiceAllocation.NoteOnRun | src/voiceAllocator.cpp:14-33 | Any sequence of noteOns keeps the cursor inside [0, nVoices) and slots at or past nVoices free |
| VoiceAllocation.PairRun | src/voiceAllocator.cpp:14-42 | Any sequence of noteOn/noteOff pairs keeps the same pool shape |
| VoiceAllocation.PoolCapacity | src/voiceAllocator.cpp:44-47 | At most nVoices slots are ever in use |
| VoiceAllocation.NoteOnCount | src/voiceAllocator.cpp:14-33 | A noteOn adds one busy slot exactly when it claims, and the count stays at most nVoices |
| VoiceAllocation.NoteOffIdempotent | src/voiceAllocator.cpp:35-42 | A second noteOff leaves the same pool as one |
| VoiceAllocation.WindowStep | src/voiceAllocator.cpp:15-29 | From an all-free start, each noteOn before the pool fills claims the cursor slot and moves the cursor on |
| VoiceAllocation.WindowFull | src/voiceAllocator.cpp:15-33 | Once all nVoices slots are taken, noteOn claims nothing and changes nothing |
| VoiceAllocation.FullWindowClaim | src/voiceAllocator.cpp:15-33 | Once the pool is full, every further noteOn is dropped |
| VoiceAllocation.WindowClaim | src/voiceAllocator.cpp:15-33 | The m-th noteOn from an all-free pool claims slot cursor + m (mod nVoices) while m < nVoices, and nothing after |
| VoiceAllocation.Exclusivity | src/voiceAllocator.cpp:15-33 | From an all-free pool, noteOns without noteOff claim cursor, cursor+1, ... (mod nVoices); from the (nVoices+1)-th on, every request is dropped |
| VoiceAllocation.ExclusiveSlots | src/voiceAllocator.cpp:44-46 | Two successful claims in a run of noteOns never name the same slot |
| VoiceAllocation.PairStep | src/voiceAllocator.cpp:15-41 | A noteOn/noteOff pair on an all-free pool claims the cursor slot and advances the cursor by one |
| VoiceAllocation.PairClaim | src/voiceAllocator.cpp:15-41 | Each pair in a run claims slot c + m (mod nVoices) |
| VoiceAllocation.RoundRobin | src/voiceAllocator.cpp:15-41 | From an all-free pool, the k-th noteOn/noteOff pair claims slot (cursor + k) mod nVoices |
| VoiceAllocation.RoundRobinNoRepeat | src/voiceAllocator.cpp:15-41 | Within any nVoices consecutive pairs no slot is used twice |
| VoiceAllocation.RoundRobinPeriodic | src/voiceAllocator.cpp:15-41 | The slots used by pairs repeat with period nVoices |
| VoiceAllocation.RoundRobinCoversPool | src/voiceAllocator.cpp:15-41 | The first nVoices pairs use every slot below nVoices |
| VoiceAllocation.CursorTrailsClaim | src/voiceAllocator.cpp:28-29 | With slot 0 busy and the cursor at 0, noteOn claims slot 1 but the cursor becomes 1, not 2 |
| VoiceAllocation.Allocator.constructor | src/voiceAllocator.cpp:4-12 | Copies the first min(nVoices, 8) voice pointers, marks all 8 slots free, zeroes the notes, puts the cursor at 0 |
| VoiceAllocation.Allocator.FreeSlot | src/voiceAllocator.cpp:15-20 | The search loop returns exactly the slot `Claim` names, or None |
| VoiceAllocation.Allocator.NoteOn | src/voiceAllocator.cpp:14-33 | The new slot state is `AfterNoteOn` of the old one, the voice calls are `NoteOnCalls` of the claim, and the object stays valid |
| VoiceAllocation.Allocator.NoteOff | src/voiceAllocator.cpp:35-42 | The new slot state is `AfterNoteOff` of the old one, the voice calls are `NoteOffCalls`, and the object stays valid |
| Oscillators.Initial | src/oscillator.cpp:4-13 | A fresh oscillator has the saw selected, base frequency 220, detune 1, and both generators untouched |
| Oscillators.Selected | src/oscillator.cpp:21-27 | The generator tick reads is the saw when the wave is SAW, the square otherwise |
| Oscillators.AfterSwitchWave | src/oscillator.cpp:17-19 | The waveform changes to the other one; no frequency field or generator changes |
| Oscillators.AfterTick | src/oscillator.cpp:21-27 | The sample comes from the selected generator; only that generator advances; nothing else changes |
| Oscillators.AfterUpdateFrequency | src/oscillator.cpp:39-42 | Both generators get base times detune, the same value whatever wave is selected; nothing else changes |
| Oscillators.AfterSetBaseFrequency | src/oscillator.cpp:29-32 | Stores f, keeps detune and wave, and leaves both generators at f * detune with their sample counts (phase) kept |
| Oscillators.AfterSetDetune | src/oscillator.cpp:34-37 | Stores d, keeps the base frequency and wave, and leaves both generators at base * d with their sample counts (phase) kept |
| Oscillators.SwitchWaveInvolution | src/oscillator.cpp:17-19 | switchWave twice is the identity |
| Oscillators.SetterOrder | src/oscillator.cpp:29-42 | setDetune(d) then setBaseFrequency(f), or the reverse order, gives the same oscillator, with both generators at f * d |
| Oscillators.InitialSync | src/oscillator.cpp:4-13 | The constructor does not retune, so a fresh oscillator is in sync exactly when both generators start at 220 Hz |
| Oscillators.SyncPreserved | src/oscillator.cpp:17-42 | Once the generators run at base times detune, every later call keeps it so |
| Oscillators.SyncAfterSetter | src/oscillator.cpp:29-42 | After any setter call, whatever came before, the generators run at base times detune |
| Oscillators.TicksCounted | src/oscillator.cpp:21-27 | Over any sequence of calls, the samples taken from both generators grow by the number of tick calls |
| Oscillators.Oscillator.constructor | src/oscillator.cpp:4-13 | The new object's fields are `Initial` |
| Oscillators.Oscillator.SwitchWave | src/oscillator.cpp:17-19 | The fields change as `AfterSwitchWave` says |
| Oscillators.Oscillator.Tick | src/oscillator.cpp:21-27 | Returns the sample and updates the fields as `AfterTick` says |
| Oscillators.Oscillator.SetBaseFrequency | src/oscillator.cpp:29-32 | The fields change as `AfterSetBaseFrequency` says |
| Oscillators.Oscillator.SetDetune | src/oscillator.cpp:34-37 | The fields change as `AfterSetDetune` says |
| Oscillators.Oscillator.UpdateFrequency | src/oscillator.cpp:39-42 | The fields change as `AfterUpdateFrequency` says |
| MidiInput.Kind | src/midiReader.cpp:15 | The message kind has a zero low nibble and is at most the status byte |
| MidiInput.Channel | src/midiReader.cpp:16-19 | The channel is in 1..16 |
| MidiInput.StatusSplit | src/midiReader.cpp:15-19 | Kind and channel minus one give back the status byte, both as bit-or and as a sum |
| MidiInput.Decode | src/midiReader.cpp:8-23 | A message passes exactly when it has at least 3 bytes and a 0x80-0x9F status. A 2-byte note message throws out-of-range. A passed message has kind note-on or note-off, a channel in 1..16 that rebuilds the status byte, and bytes 1 and 2 as data. A message under 2 bytes is discarded as too short, and a status of 0xF0 and up as a system message |
| MidiInput.ShortAndSystemDiscarded | src/midiReader.cpp:8-9 | Messages shorter than 2 bytes and system messages (0xF0 and up) are discarded |
| MidiInput.OnlyNotesPass | src/midiReader.cpp:17 | Every kind other than note-on and note-off returns early, including data bytes below 0x80 in the status position |
| MidiInput.EntryPoint | src/midiReader.cpp:33-44 | The switch enters at the first case labelled with the kind when one exists, else at the first `default`, else it runs no case |
| MidiInput.TypeSwitch | src/midiReader.cpp:33-44 | The switch as written: note-on and note-off cases without a `break`, a control-change case with one, then `default` |
| MidiInput.Execute | src/midiReader.cpp:33-44 | Entering at case i, typeName ends as the name of the first case at or after i that ends in a `break`, or of the last case |
| MidiInput.TypeName | src/midiReader.cpp:32-44 | After the switch, typeName is the name one of its cases assigns, never the initial empty string |
| MidiInput.FallThrough | src/midiReader.cpp:33-44 | With the breaks as written, note-on, note-off and control change all leave typeName "ControlChange\t"; every other kind leaves "Unknown\t" |
| MidiInput.Enqueued | src/midiReader.cpp:46-49 | The tail pushes at most one entry, and only for an accepted control-change message, carrying its channel and both data bytes |
| MidiInput.NeverEnqueues | src/midiReader.cpp:46-52 | No message is ever appended to the queue |
| MidiInput.MessageBuffer.constructor | src/midiReader.cpp:3 | The queue starts empty |
| MidiInput.MessageBuffer.Receive | src/midiReader.cpp:6-54 | Returns the decoding outcome; appends what the tail would push; prints "unknown" exactly for accepted messages that are not control changes |

## Left out

- VoiceAllocation.Allocator.NoteOn: requires nVoices <= 8. With more voices, `i % nVoices` can reach 8 or more and index past the 8-slot arrays, which is undefined behaviour in C++.
- VoiceAllocation.Allocator.constructor: voice pointers at or past nVoices are left uninitialised in C++; here they are `None`.
- The `std::cout` trace lines in `noteOn` (src/voiceAllocator.cpp:16, 18, 22) are output only and are not modelled.
- Voice objects (src/voice.cpp, src/voice.h) are not part of this model. The allocator's calls on them are recorded as `VoiceCall`s in a ghost log.
- Floating point: frequencies and notes are real numbers, and `float` rounding is not modelled. `baseFrequency * detune` has the same operand order in both setter paths, so `SetterOrder` also holds for floats.
- The STK generators BlitSaw and BlitSquare are not part of this model. Their default frequency is a constructor parameter, and their sample values are opaque tokens.
- The `std::cout` lines in the oscillator constructor are output only.
- MidiInput.MessageBuffer.Receive: the `deltatime` and `userdata` parameters are unused by the callback and are left out. The `std::cout` of "unknown" is the returned flag `printsUnknown`. The out-of-range exception is the outcome `OutOfRange`, after which nothing else happens.
- The `MidiReader` constructor (RtMidi port scanning and the device prompt on standard input), the empty `pollMidiEvents` and `midiNoteToHz` (floating-point `pow`) in src/midiReader.cpp are not modelled: device I/O and floating-point maths.
- src/main.cpp (GUI and audio threads, hardware output, the shared `running` flag), src/toggleSwitch.h (UI widget) and src/synthParameters.h are not part of this model: UI, I/O and concurrency.

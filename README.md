# MIDI control surface: a verified model of the gesture-to-bytes path

This Dafny project models the core of a browser MIDI control surface. The
surface is a touch screen with three kinds of control:

- a piano keyboard;
- a row of pattern buttons;
- two sliders (pitch bend and modulation) and a transport bar.

Each control turns a pointer gesture into MIDI 1.0 messages and sends them to
a Web MIDI output port. The model covers every step of that path:

- the byte builders for note-on, note-off, control change, pitch bend and
  system exclusive;
- the output gate that drops every message while no port is selected;
- the controls' state machines: the exclusive pink toggle group, momentary
  buttons, the throttled sliders with spring-back, the transport commands and
  the loop latch;
- the keyboard's key layout, hit test, velocity map and registry of contacts
  (touches and the mouse), each of which holds a note.

Files:

- `common.dfy`: `Option`; JavaScript's `Math.round` and `Math.max(0, Math.min(1, x))` over exact reals; rectangles (module `Geometry`); the touch points of a touch event (module `TouchEvents`).
- `midi.dfy` (module `Midi`): the builders; `Parse`, a decoder for MIDI 1.0 Channel Voice Messages that is the builders' partner; `Sounding`, the per-note balance of a message log; and the `MidiOut` class with the output gate.
- `controls.dfy` (module `Controls`): the `PatternButtons`, `Sliders`/`Slider` and `Transport` classes, with the MIDI Machine Control (MMA RP-013) command frames and their decoder.
- `keyboard.dfy` (module `KeyboardWidget`): the semitone table, the layout functions, the `Build` and `GetKeyAt` loops, `CalcVelocity`, the pure contact registry `Contacts` with `Press`/`Release`, and the `Keyboard` class, whose handlers are proved against that registry.

What reaches the device is recorded in the ghost log `MidiOut.sent`. The two
widgets that hold notes, `PatternButtons` and `Keyboard`, also keep a ghost
log, `emitted`, of every message they asked to send, whether or not a port was
selected. Properties about which notes are left sounding are stated over
`emitted`, because the selected port may change between two events, and each
of their handlers states that `sent` grows by exactly the gated part of what it
emitted. `Sliders`, `Slider` and `Transport` keep no such log: their handlers
state directly what `port.sent` grows by.

Where the code and its written description disagree, the model follows the
code:

- The builders never reject out-of-range bytes. Nothing in `js/midi.js` checks
  them, so the model has no error path there. Instead it proves what the bytes
  are, and that in-range events decode back to themselves.
- There is only one send throttle, `Sliders.lastSendTime` (`js/controls.js:83`),
  and the pitch and modulation sliders share it. It is not kept per slider.
  `Sliders` is therefore one object that both `Slider`s point to.
- A binding is not always ended by exactly one note-off. A contact that starts
  again while it is still tracked, for instance a second mouse button pressed
  before the first is released (two mousedowns, then one mouseup), overwrites
  its `activeTouches` entry (`js/keyboard.js:98`, and likewise
  `js/keyboard.js:122` for a touch identifier). The note it held is then never
  ended. `RebindLeavesStuckNote` proves that from any balanced state this
  leaves a note sounding once more than its holders, and
  `RestartLeavesNoteSounding` gives a concrete case. The model keeps the
  overwrite, so `Balanced` is proved preserved only for a start by an untracked
  contact (`PressKeepsBalance`); `NoExtraOffs` holds in every case.

## Model

| member | source | states |
|---|---|---|
| JsMath.RoundHalfUp | js/controls.js:211 | `Math.round(x)` is the integer within half a unit of x, halves rounded up |
| JsMath.Clamp01 | js/controls.js:127 | the clamp lies in [0, 1], is the identity on [0, 1], and gives 0 below and 1 above |
| Geometry.VerticalRatioOutside | js/controls.js:126 | a point at or above a rectangle's top has ratio <= 0; at or below its bottom, ratio >= 1 |
| Geometry.VerticalRatioMonotone | js/keyboard.js:158 | the ratio down a rectangle does not decrease as the point moves down |
| Midi.OrBelow | js/midi.js:65 | OR-ing lo into hi * 2^k gives hi * 2^k + lo when lo < 2^k, so OR-ing a channel into a status nibble adds it |
| Midi.AndMask | js/midi.js:78-79 | `v & (2^k - 1)` is `v mod 2^k` |
| Midi.NoteOnMsg | js/midi.js:64-66 | note-on is exactly `[0x90 + channel, note, velocity]` for channels 0-15 |
| Midi.NoteOffMsg | js/midi.js:68-70 | note-off is exactly `[0x80 + channel, note, 0]` |
| Midi.ControlChangeMsg | js/midi.js:72-74 | control change is exactly `[0xB0 + channel, controller, value]` |
| Midi.PitchBendMsg | js/midi.js:76-81 | status `0xE0 + channel`; both data bytes < 128, lsb = value mod 128, msb = (value / 128) mod 128; msb * 128 + lsb = value for every value in [0, 16383] |
| Midi.SevenBitHalves | js/midi.js:78-79 | both seven-bit halves lie below 128 and put back together give every value in [0, 16383] |
| Midi.SysexMsg | js/midi.js:83-85 | the system-exclusive bytes are passed through unchanged |
| Midi.PitchBendExamples | js/midi.js:76-81 | 8192 gives `E0 00 40`, 16383 gives `E0 7F 7F`, 0 gives `E0 00 00` |
| Midi.ParseEncode | js/midi.js:64-81 | every in-range channel-voice event is sent as bytes that decode back to the same event |
| Midi.StatusSplit | js/midi.js:65 | a status byte `kind * 16 + channel` splits back into its kind and its channel |
| Midi.EncodeParse | js/midi.js:64-81 | every message that decodes as a channel-voice event is exactly what the builders send for it |
| Midi.SoundingAppend | js/midi.js:58-62 | a log's per-note balance of note-ons minus note-offs is additive over concatenation |
| Midi.NoteMessagesDelta | js/midi.js:64-70 | a note-on with non-zero velocity starts only its own note; a note-off ends only its own note |
| Midi.GateSlices | js/midi.js:58-62 | what the gate lets through over two steps is what it lets through in each step, in order |
| Midi.MidiOut.constructor | js/midi.js:2 | no output is selected at first, and nothing has been sent |
| Midi.MidiOut.SelectOutput | js/midi.js:45-56 | a port is selected iff the id is non-empty and present among the outputs, and then it is that port; the log is untouched |
| Midi.MidiOut.Send | js/midi.js:58-62 | with a port selected, the log grows by exactly `data`; with none, nothing changes |
| Midi.MidiOut.NoteOn | js/midi.js:64-66 | sends the note-on through the gate; velocity defaults to 100 and channel to 0 |
| Midi.MidiOut.NoteOff | js/midi.js:68-70 | sends the note-off through the gate; channel defaults to 0 |
| Midi.MidiOut.CC | js/midi.js:72-74 | sends the control change through the gate; channel defaults to 0 |
| Midi.MidiOut.PitchBend | js/midi.js:76-81 | sends the pitch bend through the gate; channel defaults to 0 |
| Midi.MidiOut.Sysex | js/midi.js:83-85 | sends the unchanged system-exclusive bytes through the gate |
| Controls.PinkNotes | js/controls.js:6-19 | the pink group is exactly the notes 24 to 31, and no yellow or green button plays one of them |
| Controls.PatternButtons.constructor | js/controls.js:3-4 | no pink button is active at first, nothing has been emitted, and the group invariant holds |
| Controls.PatternButtons.TogglePink | js/controls.js:50-69 | pressing the active pink button sends only its note-off and clears it; pressing another sends the old note-off strictly before the new note-on at velocity 100 and makes it active; at most one pink note is active and exactly it is left sounding |
| Controls.PatternButtons.MomentaryOn | js/controls.js:71-74 | sends `noteOn(midi, 100)` and leaves the pink group's state and sounding notes alone |
| Controls.PatternButtons.MomentaryOff | js/controls.js:76-79 | sends `noteOff(midi)`, even with no earlier note-on, and leaves the pink group alone |
| Controls.PatternButtons.Press | js/controls.js:32-41 | a touchstart or mousedown on a momentary button sends its note-on; on a pink button it toggles: the active one sends only its note-off, another sends the old note-off, if any, strictly before its own note-on at velocity 100 |
| Controls.PatternButtons.Release | js/controls.js:36-43 | touchend, touchcancel, mouseup and mouseleave end a momentary button's note; pink buttons ignore them |
| Controls.PinkSoundingStep | js/controls.js:50-69 | each of the three toggle outcomes leaves exactly the new active pink note sounding |
| Controls.OtherNoteKeepsPink | js/controls.js:71-79 | a momentary button's message does not change which pink notes are sounding |
| Controls.PitchValue | js/controls.js:209-212 | for a clamped ratio the pitch value lies in [0, 16383]: top gives 16383, middle 8192, bottom 0 |
| Controls.ModValue | js/controls.js:213-216 | for a clamped ratio the modulation value lies in [0, 127]: top gives 127, bottom 0 |
| Controls.SliderValuesMonotone | js/controls.js:209-216 | moving a slider down never raises either value |
| Controls.SliderMessage | js/controls.js:209-217 | a slider sends a pitch bend of the pitch value, or control change 1 with the modulation value |
| Controls.Sliders.constructor | js/controls.js:83 | the shared `lastSendTime` starts at 0 and no send has passed the throttle yet |
| Controls.Sliders.SendValue | js/controls.js:203-218 | within 15 ms of the last send nothing is sent and `lastSendTime` is kept; otherwise `lastSendTime` becomes now and exactly one message is sent; sends that pass are always at least 15 ms apart |
| Controls.TrackRatio | js/controls.js:124-127 | the slider position lies in [0, 1]: at or above the track's top it is 0, at or below its bottom 1 |
| Controls.Slider.constructor | js/controls.js:116-122 | the modulation slider announces control change 1 = 0; the pitch slider sends nothing |
| Controls.Slider.Move | js/controls.js:124-130 | the clamped position goes through the shared throttle |
| Controls.Slider.TouchStart | js/controls.js:133-137 | the first changed touch takes the slider and moves it |
| Controls.Slider.TouchMove | js/controls.js:139-144 | only the touch driving the slider moves it |
| Controls.Slider.TouchEnd | js/controls.js:146-159 | when the driving touch ends or is cancelled it lets go, and a spring-back slider sends pitch bend 8192 without the throttle; other touches are ignored |
| Controls.Slider.MouseDown | js/controls.js:162-167 | the mouse takes the slider and moves it |
| Controls.Slider.MouseMove | js/controls.js:168-170 | a mouse move moves the slider only while the mouse holds it |
| Controls.Slider.MouseUp | js/controls.js:171-179 | releasing a held slider lets go, and a spring-back slider sends pitch bend 8192 without the throttle |
| Controls.FirstTouch | js/controls.js:141-142 | finds the first changed touch whose identifier is the driving one, and none before it matches |
| Controls.MmcRoundTrip | js/controls.js:222-228 | each MMC command's `F0 7F 7F 06 cmd F7` frame decodes to that command, and only that frame does |
| Controls.TransportCommands | js/controls.js:222-230 | the six command buttons carry the MMC frames of Rewind, Fast Forward, Stop, Play, Pause and Record Strobe; the seventh is the loop latch on controller 117 |
| Controls.LoopMessage | js/controls.js:253 | the loop latch sends control change 117 with 127 when on and 0 when off |
| Controls.Transport.constructor | js/controls.js:232 | the loop latch starts off |
| Controls.Transport.Fire | js/controls.js:244-256 | a command button sends its fixed 6-byte frame once and leaves the latch; the loop button flips the latch and sends its new state |
| Controls.Transport.FireLoopTwice | js/controls.js:249-254 | two presses of the loop button restore the latch, having sent its two states in turn |
| KeyboardWidget.BlackPitchClasses | js/keyboard.js:35 | a note's key is black exactly when its pitch class is 1, 3, 6, 8 or 10 |
| KeyboardWidget.BlackKeysApart | js/keyboard.js:3-16 | no two adjacent semitones are both black |
| KeyboardWidget.KeyClassification | js/keyboard.js:33-46 | a key is among the white (black) keys iff its index is in range, its note is `startMidi + index`, and that note is white (black) in the table; the white count plus the black count is the key count |
| KeyboardWidget.WhiteKeyMember | js/keyboard.js:40-44 | membership in the white keys, key by key |
| KeyboardWidget.BlackKeyMember | js/keyboard.js:40-44 | membership in the black keys, key by key |
| KeyboardWidget.KeyCounts | js/keyboard.js:33-46 | the white count plus the black count equals the key count |
| KeyboardWidget.WhitesBefore | js/keyboard.js:60-62 | `whitesBefore(i)` is the number of white keys placed before key i, the length of the white list built from the first i keys |
| KeyboardWidget.BlackKeysSparse | js/keyboard.js:40-44 | the black list holds at most half of the keys, rounded up, and is rounded up only when the last key is black |
| KeyboardWidget.WhiteKeysPrefix | js/keyboard.js:40-44 | the white keys of a shorter range are the first white keys of a longer one |
| KeyboardWidget.BlackKeyBetweenWhites | js/keyboard.js:58-63 | a black key sits after white key number `whitesBefore(i)`: the white key just before that boundary is key i - 1, the one just after is key i + 1 |
| KeyboardWidget.WhiteKeyBeforeBlack | js/keyboard.js:58-63 | the last white key before a black key at i > 0 is key i - 1 |
| KeyboardWidget.WhiteKeyAfterBlack | js/keyboard.js:58-63 | the first white key after a black key at i is key i + 1 |
| KeyboardWidget.WhitesAfterBlack | js/keyboard.js:40-44 | the key after a black key is white, so the next white key is key i + 1 |
| KeyboardWidget.LayoutStep | js/keyboard.js:40-44 | each further key joins the white list or the black list, by its colour, and the other list stays as it is |
| KeyboardWidget.Build | js/keyboard.js:27-46 | key i has note `startMidi + i`, and the white and black lists are exactly the classified keys in order |
| KeyboardWidget.FirstHitIndex | js/keyboard.js:140-151 | finds the first key whose rectangle contains the point, and no key before it contains it |
| KeyboardWidget.KeyAt | js/keyboard.js:138-153 | a black key whenever some black rectangle contains the point; otherwise a white key that contains it, or none exactly when no white rectangle contains it |
| KeyboardWidget.GetKeyAt | js/keyboard.js:138-153 | the searching loops with early return find exactly the key `KeyAt` describes |
| KeyboardWidget.CalcVelocity | js/keyboard.js:155-161 | the velocity lies in [1, 127]; a strike at or above the key's top gives 1, at or below its bottom 127 |
| KeyboardWidget.VelocityMonotone | js/keyboard.js:155-161 | striking lower on a key never gives a lower velocity |
| KeyboardWidget.BoundAfterSet | js/keyboard.js:122 | binding a contact to a note lowers the count of holders of the note it held by one and raises the new note's count by one |
| KeyboardWidget.BoundAfterRemove | js/keyboard.js:131 | removing a contact lowers only the count of its own note, by one |
| KeyboardWidget.PressEffect | js/keyboard.js:122-124 | `activeTouches.set` binds the contact to the note, replacing any earlier binding, keeps every other binding, and one note-on of that note at that velocity is appended |
| KeyboardWidget.ReleaseEffect | js/keyboard.js:128-131 | afterwards the contact is not tracked and every other binding stays; a tracked contact appends exactly one note-off of the note it held, an untracked one changes nothing |
| KeyboardWidget.StartContactEffect | js/keyboard.js:117-124 | a contact that misses every key changes nothing; one that hits is bound to that key's note, and exactly one note-on of it is appended, at a velocity in [1, 127] |
| KeyboardWidget.TouchStartedEffect | js/keyboard.js:117-125 | a touch that lands on a key (black or white) is tracked under its identifier on that key's note and adds one message; one that lands on none changes nothing |
| KeyboardWidget.PressKeepsNoExtraOffs | js/keyboard.js:117-125 | after a start, no note has been ended more often than its holding contacts allow |
| KeyboardWidget.ReleaseKeepsNoExtraOffs | js/keyboard.js:127-136 | after an end, no note has been ended more often than its holding contacts allow: one note-off per tracked end, none for an untracked one |
| KeyboardWidget.PressKeepsBalance | js/keyboard.js:117-125 | a start by an untracked contact sends one note-on and keeps every note's sounding count equal to its holders |
| KeyboardWidget.ReleaseKeepsBalance | js/keyboard.js:127-136 | an end keeps every note's sounding count equal to its holders |
| KeyboardWidget.ReleaseIdempotent | js/keyboard.js:127-136 | after an end the contact is untracked, and a second end sends nothing and changes nothing |
| KeyboardWidget.RebindLeavesStuckNote | js/keyboard.js:98 | from any balanced state, starting a still-tracked contact on another note leaves its old note sounding once more than its holders, so the state is no longer balanced |
| KeyboardWidget.RestartLeavesNoteSounding | js/keyboard.js:92-114 | a second mousedown before the mouseup overwrites the binding, leaving the first note sounding with nothing tracked |
| KeyboardWidget.StartAllStep | js/keyboard.js:70-75 | a touchstart handles its changed touches one after the other, in order |
| KeyboardWidget.EndAllStep | js/keyboard.js:77-82 | a touchend handles its changed touches one after the other, in order |
| KeyboardWidget.EndAllReleases | js/keyboard.js:77-82 | after a touchend none of its touches is tracked, and every other contact keeps its note |
| KeyboardWidget.EndAllAgain | js/keyboard.js:77-89 | delivering the same touchend or touchcancel again changes nothing |
| KeyboardWidget.Keyboard.constructor | js/keyboard.js:18-25 | the layout is built as by `Build`, with no contacts and nothing sent |
| KeyboardWidget.Keyboard.Start | js/keyboard.js:117-124 | a contact that misses every key changes nothing and sends nothing; one that hits binds to its note and sends exactly one note-on at the strike's velocity |
| KeyboardWidget.Keyboard.End | js/keyboard.js:127-136 | a tracked contact sends exactly one note-off for its recorded note and is removed; an untracked one changes nothing |
| KeyboardWidget.Keyboard.HandleTouchStart | js/keyboard.js:117-125 | a touch is a contact start under the touch's identifier, with the effect `TouchStarted` gives the registry |
| KeyboardWidget.Keyboard.HandleTouchEnd | js/keyboard.js:127-136 | a touchend is a contact end |
| KeyboardWidget.Keyboard.MouseDown | js/keyboard.js:92-100 | the mouse starts like a touch, under its own contact id |
| KeyboardWidget.Keyboard.MouseUp | js/keyboard.js:102-112 | the mouseup ends the mouse's note if it holds one |
| KeyboardWidget.Keyboard.OnTouchStart | js/keyboard.js:70-75 | each changed touch starts in turn |
| KeyboardWidget.Keyboard.OnTouchEnd | js/keyboard.js:77-82 | each changed touch ends in turn |
| KeyboardWidget.Keyboard.OnTouchCancel | js/keyboard.js:84-89 | a touchcancel has exactly the effect of a touchend |

## Left out

- `js/main.js` is not part of this model: it is the page bootstrap, the retry loop that waits for Web MIDI, and debug logging.
- `MIDI.init` and `MIDI.populateOutputs` (`js/midi.js:5-43`) are browser I/O: requesting MIDI access, filling the `<select>`, and reacting to hot-plug. The ports on offer are an input map to `SelectOutput`.
- The connection status text, all DOM construction, CSS class toggling (`active`, `loop-active`, `activePinkEl`), `setThumbPosition` and the 150 ms flash timeout are presentation only.
- `getBoundingClientRect`, `performance.now()` and touch events come from the browser. They are parameters of the methods: rectangles, a time `now`, and touch points.
- Floating point: ratios, `Math.round` and the throttle comparison use exact reals, not IEEE doubles. `Math.round` is `Floor(x + 0.5)`.
- Event-listener registration and dispatch are not modelled. Each handler is one method call, and every touch of one event is handled at the same `now`.
- Each mousedown that hits a key installs one `window` mouseup listener, which removes itself when it fires (`js/keyboard.js:102-113`); a mousedown that hits no key installs none (`js/keyboard.js:95`). Listeners only accumulate across mousedowns with no mouseup between them. When several fire on one mouseup, only the first finds the mouse's note, so `Keyboard.MouseUp` models their net effect as one firing.
- The output port is modelled as accepting every message. When MIDI access was granted only without system exclusive (`js/main.js:67-79`), Web MIDI refuses the transport's SysEx frames, but `MidiOut.Sysex` still records them in `sent`.
- NoteOnMsg: the bytes are stated only for channels 0 to 15. `BitOr` models JavaScript's `|` on non-negative integers, without the 32-bit conversion, and no caller passes a wider channel.
- NoteOffMsg: the bytes are stated only for channels 0 to 15, for the same reason.
- ControlChangeMsg: the bytes are stated only for channels 0 to 15, for the same reason.
- PitchBendMsg: takes a non-negative value. The two's-complement `&` and `>>` of a negative JavaScript number are not modelled, and the sliders only ever produce values in [0, 16383].
- Controls.PatternButtons.TogglePink: requires a pink note and `MomentaryOn`/`MomentaryOff` require a non-pink one. Those are the only notes the button wiring at `js/controls.js:32-44` passes them.
- Controls.Sliders.SendValue: requires a ratio in [0, 1], which is what `onMove` always passes after clamping.
- Controls.Slider.Move: requires a track of positive height. On a track of zero height the JavaScript ratio is NaN (when `clientY` equals the top) or plus or minus Infinity (otherwise, which the clamp turns into 0 or 1); exact reals express neither.
- KeyboardWidget.Keyboard.Start: requires one rectangle per key, each of positive height, for the same reason. The same holds for `HandleTouchStart`, `MouseDown` and `OnTouchStart`.
- KeyboardWidget.CalcVelocity: requires a key rectangle of positive height, for the same reason.
- Midi.Parse: recognises a note-off only with release velocity 0, the only one this surface sends. Other release velocities decode to nothing.

/**
 * The discrete and continuous controls: the pattern buttons (an exclusive
 * "pink" toggle group and momentary buttons), the pitch-bend and modulation
 * sliders with their shared send throttle, and the transport buttons.
 *
 * The pattern buttons keep a ghost log `emitted` of every message they asked
 * the MIDI object to send, whether or not an output was selected at the time;
 * what reached the device is the gated part of it, in `port.sent`. The sliders
 * and the transport state what they send in terms of `port.sent` directly.
 */
module Controls {
  import opened Options
  import opened JsMath
  import opened Geometry
  import opened TouchEvents
  import opened Midi

  // ---------------------------------------------------------------------------
  // Pattern buttons
  // ---------------------------------------------------------------------------

  datatype Group = Pink | Yellow | Green

  datatype PatternButton = PatternButton(name: string, midi: int, group: Group)

  const PatternTable: seq<PatternButton> := [
    PatternButton("C", 24, Pink),
    PatternButton("C#", 25, Pink),
    PatternButton("D", 26, Pink),
    PatternButton("D#", 27, Pink),
    PatternButton("E", 28, Pink),
    PatternButton("F", 29, Pink),
    PatternButton("F#", 30, Pink),
    PatternButton("G", 31, Pink),
    PatternButton("G#", 32, Yellow),
    PatternButton("A", 33, Yellow),
    PatternButton("Bb", 34, Yellow),
    PatternButton("B", 35, Green)
  ]

  /** The note of some button of the exclusive pink group. */
  predicate IsPinkNote(midi: int) {
    exists i :: 0 <= i < |PatternTable| && PatternTable[i].group == Pink && PatternTable[i].midi == midi
  }

  /** The pink group is the octave of notes 24 to 31, and no other button plays one of them. */
  lemma PinkNotes(midi: int)
    ensures IsPinkNote(midi) <==> 24 <= midi <= 31
    ensures forall i :: 0 <= i < |PatternTable| && PatternTable[i].group != Pink ==> !IsPinkNote(PatternTable[i].midi)
  {
    if 24 <= midi <= 31 {
      assert PatternTable[midi - 24].group == Pink && PatternTable[midi - 24].midi == midi;
    }
  }

  /** The pink notes with an outstanding note-on in `log` are exactly `active`. */
  ghost predicate PinkSounding(log: seq<Message>, active: Option<int>) {
    forall n :: IsPinkNote(n) ==> Sounding(log, n) == (if active == Some(n) then 1 else 0)
  }

  class PatternButtons {
    /** The note of the active pink button, if any. */
    var activePink: Option<int>
    ghost var emitted: seq<Message>
    const port: MidiOut

    /** At most one pink button is active, and exactly its note is left sounding by the group. */
    ghost predicate Valid()
      reads this
    {
      (activePink.Some? ==> IsPinkNote(activePink.value)) &&
      PinkSounding(emitted, activePink)
    }

    constructor (port: MidiOut)
      ensures Valid() && this.port == port
      ensures activePink == None && emitted == []
    {
      this.port := port;
      activePink := None;
      emitted := [];
    }

    /**
     * Presses a pink button: pressing the active one releases it; pressing another
     * releases the active one, if any, strictly before starting the new one.
     */
    method TogglePink(midi: int)
      requires Valid() && IsPinkNote(midi)
      modifies this, port
      ensures Valid()
      ensures old(activePink) == Some(midi) ==>
        activePink == None && emitted == old(emitted) + [NoteOffMsg(midi, 0)]
      ensures old(activePink) == None ==>
        activePink == Some(midi) && emitted == old(emitted) + [NoteOnMsg(midi, 100, 0)]
      ensures old(activePink).Some? && old(activePink) != Some(midi) ==>
        activePink == Some(midi) &&
        emitted == old(emitted) + [NoteOffMsg(old(activePink).value, 0), NoteOnMsg(midi, 100, 0)]
      ensures port.output == old(port.output)
      ensures port.sent == old(port.sent) + Gate(port.output, emitted[|old(emitted)|..])
    {
      ghost var log0 := emitted;
      if activePink == Some(midi) {
        port.NoteOff(midi);
        emitted := emitted + [NoteOffMsg(midi, 0)];
        activePink := None;
        PinkSoundingStep(log0, [NoteOffMsg(midi, 0)], Some(midi), None);
      } else {
        ghost var msgs: seq<Message> := [];
        if activePink.Some? {
          port.NoteOff(activePink.value);
          msgs := [NoteOffMsg(activePink.value, 0)];
        }
        port.NoteOn(midi, 100);
        msgs := msgs + [NoteOnMsg(midi, 100, 0)];
        emitted := emitted + msgs;
        PinkSoundingStep(log0, msgs, activePink, Some(midi));
        activePink := Some(midi);
      }
    }

    /** Presses a momentary (yellow or green) button: starts its note, whatever came before. */
    method MomentaryOn(midi: int)
      requires Valid() && !IsPinkNote(midi)
      modifies this, port
      ensures Valid() && activePink == old(activePink)
      ensures emitted == old(emitted) + [NoteOnMsg(midi, 100, 0)]
      ensures port.output == old(port.output)
      ensures port.sent == old(port.sent) + Gate(port.output, [NoteOnMsg(midi, 100, 0)])
    {
      port.NoteOn(midi, 100);
      OtherNoteKeepsPink(emitted, NoteOnMsg(midi, 100, 0), midi, activePink);
      emitted := emitted + [NoteOnMsg(midi, 100, 0)];
    }

    /** Releases a momentary button: ends its note even if it was never started (a mouse leaving the button). */
    method MomentaryOff(midi: int)
      requires Valid() && !IsPinkNote(midi)
      modifies this, port
      ensures Valid() && activePink == old(activePink)
      ensures emitted == old(emitted) + [NoteOffMsg(midi, 0)]
      ensures port.output == old(port.output)
      ensures port.sent == old(port.sent) + Gate(port.output, [NoteOffMsg(midi, 0)])
    {
      port.NoteOff(midi);
      OtherNoteKeepsPink(emitted, NoteOffMsg(midi, 0), midi, activePink);
      emitted := emitted + [NoteOffMsg(midi, 0)];
    }

    /** A touchstart or mousedown on button `i`: a pink button toggles, any other starts its note. */
    method Press(i: nat)
      requires Valid() && i < |PatternTable|
      modifies this, port
      ensures Valid()
      ensures PatternTable[i].group != Pink ==>
        activePink == old(activePink) && emitted == old(emitted) + [NoteOnMsg(PatternTable[i].midi, 100, 0)]
      ensures PatternTable[i].group == Pink && old(activePink) == Some(PatternTable[i].midi) ==>
        activePink == None && emitted == old(emitted) + [NoteOffMsg(PatternTable[i].midi, 0)]
      ensures PatternTable[i].group == Pink && old(activePink) == None ==>
        activePink == Some(PatternTable[i].midi) && emitted == old(emitted) + [NoteOnMsg(PatternTable[i].midi, 100, 0)]
      ensures PatternTable[i].group == Pink && old(activePink).Some? && old(activePink) != Some(PatternTable[i].midi) ==>
        activePink == Some(PatternTable[i].midi) &&
        emitted == old(emitted) + [NoteOffMsg(old(activePink).value, 0), NoteOnMsg(PatternTable[i].midi, 100, 0)]
      ensures old(emitted) <= emitted
      ensures port.output == old(port.output)
      ensures port.sent == old(port.sent) + Gate(port.output, emitted[|old(emitted)|..])
    {
      var btn := PatternTable[i];
      PinkNotes(btn.midi);
      if btn.group == Pink {
        assert IsPinkNote(btn.midi);
        TogglePink(btn.midi);
      } else {
        MomentaryOn(btn.midi);
      }
    }

    /**
     * A touchend, touchcancel, mouseup or mouseleave on button `i`: a momentary
     * button ends its note; the pink buttons listen to none of these.
     */
    method Release(i: nat)
      requires Valid() && i < |PatternTable|
      modifies this, port
      ensures Valid() && activePink == old(activePink)
      ensures PatternTable[i].group == Pink ==> emitted == old(emitted)
      ensures PatternTable[i].group != Pink ==> emitted == old(emitted) + [NoteOffMsg(PatternTable[i].midi, 0)]
      ensures port.output == old(port.output)
      ensures port.sent == old(port.sent) + Gate(port.output, emitted[|old(emitted)|..])
    {
      var btn := PatternTable[i];
      if btn.group != Pink {
        PinkNotes(btn.midi);
        MomentaryOff(btn.midi);
      }
    }
  }

  /**
   * Appending `msgs` to a log whose pink notes sounding are `before` leaves
   * `after` sounding, for the three ways a toggle can go.
   */
  lemma PinkSoundingStep(log: seq<Message>, msgs: seq<Message>, before: Option<int>, after: Option<int>)
    requires PinkSounding(log, before)
    requires after.Some? ==> IsPinkNote(after.value)
    requires
      || (before.Some? && after == None && msgs == [NoteOffMsg(before.value, 0)])
      || (before == None && after.Some? && msgs == [NoteOnMsg(after.value, 100, 0)])
      || (before.Some? && after.Some? && before != after &&
          msgs == [NoteOffMsg(before.value, 0), NoteOnMsg(after.value, 100, 0)])
    ensures PinkSounding(log + msgs, after)
  {
    forall n | IsPinkNote(n)
      ensures Sounding(log + msgs, n) == (if after == Some(n) then 1 else 0)
    {
      SoundingAppend(log, msgs, n);
      if before.Some? { NoteMessagesDelta(before.value, 100, n); }
      if after.Some? { NoteMessagesDelta(after.value, 100, n); }
      if |msgs| == 2 {
        assert msgs == [msgs[0]] + [msgs[1]];
        SoundingAppend([msgs[0]], [msgs[1]], n);
        assert [msgs[0]][..0] == [];
        assert [msgs[1]][..0] == [];
      } else {
        assert msgs[..0] == [];
      }
    }
  }

  /** A message about a note outside the pink group leaves the pink group's sounding notes alone. */
  lemma OtherNoteKeepsPink(log: seq<Message>, m: Message, midi: int, active: Option<int>)
    requires PinkSounding(log, active) && !IsPinkNote(midi)
    requires m == NoteOnMsg(midi, 100, 0) || m == NoteOffMsg(midi, 0)
    ensures PinkSounding(log + [m], active)
  {
    forall n | IsPinkNote(n)
      ensures Sounding(log + [m], n) == (if active == Some(n) then 1 else 0)
    {
      assert (log + [m])[..|log|] == log;
      NoteMessagesDelta(midi, 100, n);
    }
  }

  // ---------------------------------------------------------------------------
  // Sliders
  // ---------------------------------------------------------------------------

  /** Minimum time in milliseconds between two throttled slider sends. */
  const ThrottleMs: real := 15.0

  /** The controller number of the modulation wheel. */
  const ModWheelController := 1

  /** The 14-bit pitch-bend value for a slider position: top (0) is 16383, bottom (1) is 0. */
  function PitchValue(ratio: real): (v: int)
    ensures 0.0 <= ratio <= 1.0 ==> 0 <= v <= 16383
    ensures ratio == 0.0 ==> v == 16383
    ensures ratio == 0.5 ==> v == PitchBendCentre
    ensures ratio == 1.0 ==> v == 0
  {
    RoundHalfUp((1.0 - ratio) * 16383.0)
  }

  /** The 7-bit modulation value for a slider position: top (0) is 127, bottom (1) is 0. */
  function ModValue(ratio: real): (v: int)
    ensures 0.0 <= ratio <= 1.0 ==> 0 <= v <= 127
    ensures ratio == 0.0 ==> v == 127
    ensures ratio == 1.0 ==> v == 0
  {
    RoundHalfUp((1.0 - ratio) * 127.0)
  }

  /** Moving a slider down never raises the value it sends. */
  lemma SliderValuesMonotone(r1: real, r2: real)
    requires r1 <= r2
    ensures PitchValue(r2) <= PitchValue(r1)
    ensures ModValue(r2) <= ModValue(r1)
  {
    RoundHalfUpMonotone((1.0 - r2) * 16383.0, (1.0 - r1) * 16383.0);
    RoundHalfUpMonotone((1.0 - r2) * 127.0, (1.0 - r1) * 127.0);
  }

  /** The message a slider at `ratio` sends: a pitch bend, or a modulation-wheel control change. */
  function SliderMessage(ratio: real, isPitch: bool): (m: Message)
    requires 0.0 <= ratio <= 1.0
    ensures isPitch ==> Parse(m) == Some(PitchBendEvent(0, PitchValue(ratio)))
    ensures !isPitch ==> Parse(m) == Some(ControlChangeEvent(0, ModWheelController, ModValue(ratio)))
  {
    if isPitch then PitchBendMsg(PitchValue(ratio), 0)
    else ControlChangeMsg(ModWheelController, ModValue(ratio), 0)
  }

  /** Consecutive times at least the throttle interval apart. */
  ghost predicate Spaced(times: seq<real>) {
    forall i :: 0 < i < |times| ==> times[i] - times[i - 1] >= ThrottleMs
  }

  /** The sliders' shared state: one `lastSendTime` throttles both of them. */
  class Sliders {
    var lastSendTime: real
    /** The times of the sends that passed the throttle, in order. */
    ghost var sendTimes: seq<real>
    const port: MidiOut

    /** Throttled sends are spaced by at least the throttle interval, the first one too (the clock starts at 0). */
    ghost predicate Valid()
      reads this
    {
      Spaced([0.0] + sendTimes) &&
      lastSendTime == ([0.0] + sendTimes)[|sendTimes|]
    }

    constructor (port: MidiOut)
      ensures Valid() && this.port == port
      ensures lastSendTime == 0.0 && sendTimes == []
    {
      this.port := port;
      lastSendTime := 0.0;
      sendTimes := [];
    }

    /**
     * Sends the value for `ratio` at time `now`, unless less than the throttle
     * interval has passed since the last send, in which case nothing happens.
     */
    method SendValue(ratio: real, isPitch: bool, now: real)
      requires Valid() && 0.0 <= ratio <= 1.0
      modifies this, port
      ensures Valid()
      ensures port.output == old(port.output)
      ensures now - old(lastSendTime) < ThrottleMs ==>
        lastSendTime == old(lastSendTime) && sendTimes == old(sendTimes) && port.sent == old(port.sent)
      ensures now - old(lastSendTime) >= ThrottleMs ==>
        lastSendTime == now && sendTimes == old(sendTimes) + [now] &&
        port.sent == old(port.sent) + Gate(port.output, [SliderMessage(ratio, isPitch)])
    {
      if now - lastSendTime < ThrottleMs {
        return;
      }
      ghost var times := [0.0] + sendTimes;
      assert [0.0] + (sendTimes + [now]) == times + [now];
      lastSendTime := now;
      sendTimes := sendTimes + [now];
      if isPitch {
        port.PitchBend(PitchValue(ratio));
      } else {
        port.CC(ModWheelController, ModValue(ratio));
      }
    }
  }

  /** The slider position for a pointer at height `clientY` over the track. */
  function TrackRatio(clientY: real, track: Rect): (r: real)
    requires HasHeight(track)
    ensures 0.0 <= r <= 1.0
    ensures clientY <= track.top ==> r == 0.0
    ensures clientY >= track.bottom ==> r == 1.0
  {
    VerticalRatioOutside(clientY, track);
    Clamp01(VerticalRatio(clientY, track))
  }

  /** One slider: which touch drives it, whether the mouse holds it, and whether it springs back to centre. */
  class Slider {
    const springBack: bool
    const bank: Sliders
    var activeTouch: Option<int>
    var mouseDown: bool

    ghost predicate Valid()
      reads this, bank
    {
      bank.Valid()
    }

    /** Builds the slider; the modulation wheel (no spring-back) announces its rest value 0 at once. */
    constructor (bank: Sliders, springBack: bool)
      requires bank.Valid()
      modifies bank.port
      ensures Valid() && this.bank == bank && this.springBack == springBack
      ensures activeTouch == None && !mouseDown
      ensures bank.port.output == old(bank.port.output)
      ensures bank.port.sent ==
        old(bank.port.sent) + Gate(bank.port.output, if springBack then [] else [ControlChangeMsg(ModWheelController, 0, 0)])
    {
      this.bank := bank;
      this.springBack := springBack;
      activeTouch := None;
      mouseDown := false;
      new;
      if !springBack {
        bank.port.CC(ModWheelController, 0);
      }
    }

    /** onMove: the clamped position of `clientY` on the track, sent through the throttle. */
    method Move(clientY: real, track: Rect, now: real)
      requires Valid() && HasHeight(track)
      modifies bank, bank.port
      ensures Valid()
      ensures bank.port.output == old(bank.port.output)
      ensures now - old(bank.lastSendTime) < ThrottleMs ==>
        bank.lastSendTime == old(bank.lastSendTime) && bank.port.sent == old(bank.port.sent)
      ensures now - old(bank.lastSendTime) >= ThrottleMs ==>
        bank.lastSendTime == now &&
        bank.port.sent == old(bank.port.sent) + Gate(bank.port.output, [SliderMessage(TrackRatio(clientY, track), springBack)])
    {
      bank.SendValue(TrackRatio(clientY, track), springBack, now);
    }

    /** touchstart: the first changed touch takes the slider and moves it. */
    method TouchStart(touch: TouchPoint, track: Rect, now: real)
      requires Valid() && HasHeight(track)
      modifies this, bank, bank.port
      ensures Valid() && activeTouch == Some(touch.identifier) && mouseDown == old(mouseDown)
      ensures bank.port.output == old(bank.port.output)
      ensures now - old(bank.lastSendTime) < ThrottleMs ==>
        bank.lastSendTime == old(bank.lastSendTime) && bank.port.sent == old(bank.port.sent)
      ensures now - old(bank.lastSendTime) >= ThrottleMs ==>
        bank.lastSendTime == now &&
        bank.port.sent == old(bank.port.sent) + Gate(bank.port.output, [SliderMessage(TrackRatio(touch.clientY, track), springBack)])
    {
      activeTouch := Some(touch.identifier);
      Move(touch.clientY, track, now);
    }

    /**
     * touchmove: the changed touch that drives the slider, if any, moves it.
     * Every touch of one event is handled at the same time `now`.
     */
    method TouchMove(changed: seq<TouchPoint>, track: Rect, now: real)
      requires Valid() && HasHeight(track)
      modifies bank, bank.port
      ensures Valid()
      ensures bank.port.output == old(bank.port.output)
      ensures
        var k := FirstTouch(changed, activeTouch);
        if k == |changed| || now - old(bank.lastSendTime) < ThrottleMs then
          bank.lastSendTime == old(bank.lastSendTime) && bank.port.sent == old(bank.port.sent)
        else
          bank.lastSendTime == now &&
          bank.port.sent == old(bank.port.sent) + Gate(bank.port.output, [SliderMessage(TrackRatio(changed[k].clientY, track), springBack)])
    {
      var k := FirstTouch(changed, activeTouch);
      var i := 0;
      while i < |changed|
        invariant 0 <= i <= |changed|
        invariant Valid()
        invariant bank.port.output == old(bank.port.output)
        invariant i <= k ==> bank.lastSendTime == old(bank.lastSendTime) && bank.port.sent == old(bank.port.sent)
        invariant i > k ==>
          if now - old(bank.lastSendTime) < ThrottleMs then
            bank.lastSendTime == old(bank.lastSendTime) && bank.port.sent == old(bank.port.sent)
          else
            bank.lastSendTime == now &&
            bank.port.sent == old(bank.port.sent) + Gate(bank.port.output, [SliderMessage(TrackRatio(changed[k].clientY, track), springBack)])
      {
        if Some(changed[i].identifier) == activeTouch {
          Move(changed[i].clientY, track, now);
        }
        i := i + 1;
      }
    }

    /**
     * touchend and touchcancel: if the driving touch is among the changed ones it
     * lets go of the slider, and a spring-back slider sends the centre value at
     * once, without consulting the throttle. Other touches are ignored.
     */
    method TouchEnd(changed: seq<TouchPoint>)
      requires Valid()
      modifies this, bank.port
      ensures Valid() && mouseDown == old(mouseDown)
      ensures bank.port.output == old(bank.port.output)
      ensures FirstTouch(changed, old(activeTouch)) < |changed| ==>
        activeTouch == None &&
        bank.port.sent == old(bank.port.sent) + Gate(bank.port.output, if springBack then [PitchBendMsg(PitchBendCentre, 0)] else [])
      ensures FirstTouch(changed, old(activeTouch)) == |changed| ==>
        activeTouch == old(activeTouch) && bank.port.sent == old(bank.port.sent)
    {
      var k := FirstTouch(changed, activeTouch);
      var i := 0;
      while i < |changed|
        invariant 0 <= i <= |changed|
        invariant Valid() && mouseDown == old(mouseDown)
        invariant bank.port.output == old(bank.port.output)
        invariant i <= k ==> activeTouch == old(activeTouch) && bank.port.sent == old(bank.port.sent)
        invariant i > k ==>
          activeTouch == None &&
          bank.port.sent == old(bank.port.sent) + Gate(bank.port.output, if springBack then [PitchBendMsg(PitchBendCentre, 0)] else [])
      {
        if Some(changed[i].identifier) == activeTouch {
          activeTouch := None;
          if springBack {
            bank.port.PitchBend(PitchBendCentre);
          }
        }
        i := i + 1;
      }
    }

    /** mousedown on the track: the mouse takes the slider and moves it. */
    method MouseDown(clientY: real, track: Rect, now: real)
      requires Valid() && HasHeight(track)
      modifies this, bank, bank.port
      ensures Valid() && mouseDown && activeTouch == old(activeTouch)
      ensures bank.port.output == old(bank.port.output)
      ensures now - old(bank.lastSendTime) < ThrottleMs ==>
        bank.lastSendTime == old(bank.lastSendTime) && bank.port.sent == old(bank.port.sent)
      ensures now - old(bank.lastSendTime) >= ThrottleMs ==>
        bank.lastSendTime == now &&
        bank.port.sent == old(bank.port.sent) + Gate(bank.port.output, [SliderMessage(TrackRatio(clientY, track), springBack)])
    {
      mouseDown := true;
      Move(clientY, track, now);
    }

    /** mousemove anywhere in the window: moves the slider only while the mouse holds it. */
    method MouseMove(clientY: real, track: Rect, now: real)
      requires Valid() && HasHeight(track)
      modifies bank, bank.port
      ensures Valid()
      ensures bank.port.output == old(bank.port.output)
      ensures !mouseDown || now - old(bank.lastSendTime) < ThrottleMs ==>
        bank.lastSendTime == old(bank.lastSendTime) && bank.port.sent == old(bank.port.sent)
      ensures mouseDown && now - old(bank.lastSendTime) >= ThrottleMs ==>
        bank.lastSendTime == now &&
        bank.port.sent == old(bank.port.sent) + Gate(bank.port.output, [SliderMessage(TrackRatio(clientY, track), springBack)])
    {
      if mouseDown {
        Move(clientY, track, now);
      }
    }

    /** mouseup anywhere in the window: lets go of a held slider; a spring-back slider sends the centre value, unthrottled. */
    method MouseUp()
      requires Valid()
      modifies this, bank.port
      ensures Valid() && !mouseDown && activeTouch == old(activeTouch)
      ensures bank.port.output == old(bank.port.output)
      ensures bank.port.sent ==
        old(bank.port.sent) + Gate(bank.port.output, if old(mouseDown) && springBack then [PitchBendMsg(PitchBendCentre, 0)] else [])
    {
      if mouseDown {
        mouseDown := false;
        if springBack {
          bank.port.PitchBend(PitchBendCentre);
        }
      }
    }
  }

  /** The position of the first touch in `changed` whose identifier is `active`, or `|changed|` if there is none. */
  function FirstTouch(changed: seq<TouchPoint>, active: Option<int>): (k: nat)
    ensures k <= |changed|
    ensures k < |changed| ==> Some(changed[k].identifier) == active
    ensures forall j :: 0 <= j < k ==> Some(changed[j].identifier) != active
  {
    if changed == [] then 0
    else if Some(changed[0].identifier) == active then 0
    else 1 + FirstTouch(changed[1..], active)
  }

  // ---------------------------------------------------------------------------
  // Transport
  // ---------------------------------------------------------------------------

  /** MIDI Machine Control commands (MMA RP-013) used by the transport buttons. */
  datatype MmcCommand = Stop | Play | FastForward | Rewind | RecordStrobe | Pause

  function MmcCode(c: MmcCommand): int {
    match c
    case Stop => 0x01
    case Play => 0x02
    case FastForward => 0x04
    case Rewind => 0x05
    case RecordStrobe => 0x06
    case Pause => 0x09
  }

  /** A command as a Universal Real Time SysEx message to all devices: `F0 7F 7F 06 <cmd> F7`. */
  function MmcFrame(c: MmcCommand): Message {
    [0xF0, 0x7F, 0x7F, 0x06, MmcCode(c), 0xF7]
  }

  function ParseMmc(m: Message): Option<MmcCommand> {
    if |m| != 6 || m[..4] != [0xF0, 0x7F, 0x7F, 0x06] || m[5] != 0xF7 then None
    else if m[4] == 0x01 then Some(Stop)
    else if m[4] == 0x02 then Some(Play)
    else if m[4] == 0x04 then Some(FastForward)
    else if m[4] == 0x05 then Some(Rewind)
    else if m[4] == 0x06 then Some(RecordStrobe)
    else if m[4] == 0x09 then Some(Pause)
    else None
  }

  /** Each command's frame reads back as that command, and only a command's own frame reads as it. */
  lemma MmcRoundTrip(c: MmcCommand, m: Message)
    ensures ParseMmc(MmcFrame(c)) == Some(c)
    ensures ParseMmc(m) == Some(c) ==> m == MmcFrame(c)
  {
    if ParseMmc(m) == Some(c) {
      assert m == m[..4] + [m[4], m[5]];
    }
  }

  datatype TransportButton = TransportButton(title: string, cmd: Option<Message>, cc: Option<int>)

  const TransportTable: seq<TransportButton> := [
    TransportButton("Rewind", Some([0xF0, 0x7F, 0x7F, 0x06, 0x05, 0xF7]), None),
    TransportButton("Forward", Some([0xF0, 0x7F, 0x7F, 0x06, 0x04, 0xF7]), None),
    TransportButton("Stop", Some([0xF0, 0x7F, 0x7F, 0x06, 0x01, 0xF7]), None),
    TransportButton("Play", Some([0xF0, 0x7F, 0x7F, 0x06, 0x02, 0xF7]), None),
    TransportButton("Pause", Some([0xF0, 0x7F, 0x7F, 0x06, 0x09, 0xF7]), None),
    TransportButton("Record", Some([0xF0, 0x7F, 0x7F, 0x06, 0x06, 0xF7]), None),
    TransportButton("Loop", None, Some(117))
  ]

  /** The controller the loop latch sends. */
  const LoopController := 117

  /** The six command buttons send the MMC command their label names; the seventh is the loop latch. */
  lemma TransportCommands()
    ensures |TransportTable| == 7
    ensures TransportTable[0].cmd == Some(MmcFrame(Rewind))
    ensures TransportTable[1].cmd == Some(MmcFrame(FastForward))
    ensures TransportTable[2].cmd == Some(MmcFrame(Stop))
    ensures TransportTable[3].cmd == Some(MmcFrame(Play))
    ensures TransportTable[4].cmd == Some(MmcFrame(Pause))
    ensures TransportTable[5].cmd == Some(MmcFrame(RecordStrobe))
    ensures TransportTable[6].cmd == None && TransportTable[6].cc == Some(LoopController)
  {
  }

  /** The control change the loop latch sends for its new state. */
  function LoopMessage(state: bool): (m: Message)
    ensures Parse(m) == Some(ControlChangeEvent(0, LoopController, if state then 127 else 0))
  {
    ControlChangeMsg(LoopController, if state then 127 else 0, 0)
  }

  class Transport {
    var loopState: bool
    const port: MidiOut

    constructor (port: MidiOut)
      ensures this.port == port && !loopState
    {
      this.port := port;
      loopState := false;
    }

    /**
     * A press of transport button `i`: a command button sends its fixed SysEx
     * message once; the loop button flips the latch and sends its new state.
     */
    method Fire(i: nat)
      requires i < |TransportTable|
      modifies this, port
      ensures port.output == old(port.output)
      ensures TransportTable[i].cmd.Some? ==>
        loopState == old(loopState) && port.sent == old(port.sent) + Gate(port.output, [TransportTable[i].cmd.value])
      ensures TransportTable[i].cmd.None? && TransportTable[i].cc.Some? ==>
        loopState == !old(loopState) &&
        port.sent == old(port.sent) + Gate(port.output, [ControlChangeMsg(TransportTable[i].cc.value, if loopState then 127 else 0, 0)])
      ensures TransportTable[i].cmd.None? && TransportTable[i].cc.None? ==>
        loopState == old(loopState) && port.sent == old(port.sent)
    {
      var btn := TransportTable[i];
      if btn.cmd.Some? {
        port.Sysex(btn.cmd.value);
      } else if btn.cc.Some? {
        loopState := !loopState;
        port.CC(btn.cc.value, if loopState then 127 else 0);
      }
    }

    /** Two presses of the loop button restore the latch, having sent both of its states in turn. */
    method FireLoopTwice()
      modifies this, port
      ensures loopState == old(loopState)
      ensures port.output == old(port.output)
      ensures port.sent == old(port.sent) + Gate(port.output, [LoopMessage(!old(loopState)), LoopMessage(old(loopState))])
    {
      TransportCommands();
      Fire(6);
      Fire(6);
    }
  }
}

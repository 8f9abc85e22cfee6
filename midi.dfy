/**
 * The MIDI object: channel-voice message builders, a system-exclusive
 * passthrough, and the output gate every message goes through.
 *
 * Messages are lists of byte values, as handed to the Web MIDI output's
 * `send`. The JavaScript bitwise operators `|` and `&` are modelled on
 * non-negative integers; `value >> 7` is modelled as `value / 128`, which has
 * the same low bits as the 32-bit arithmetic shift for every non-negative value.
 */
module Midi {
  import opened Options

  type Message = seq<int>

  // ---------------------------------------------------------------------------
  // Bitwise operators on non-negative integers
  // ---------------------------------------------------------------------------

  function Pow2(k: nat): (p: nat)
    ensures p >= 1
  {
    if k == 0 then 1 else 2 * Pow2(k - 1)
  }

  /** `a | b`, one binary digit at a time from the least significant end. */
  function BitOr(a: nat, b: nat): nat
    decreases a + b
  {
    if a == 0 then b
    else if b == 0 then a
    else 2 * BitOr(a / 2, b / 2) + (if a % 2 == 1 || b % 2 == 1 then 1 else 0)
  }

  /** `a & b`, one binary digit at a time from the least significant end. */
  function BitAnd(a: nat, b: nat): nat
    decreases a + b
  {
    if a == 0 || b == 0 then 0
    else 2 * BitAnd(a / 2, b / 2) + (if a % 2 == 1 && b % 2 == 1 then 1 else 0)
  }

  /** Or-ing a value below 2^k into a multiple of 2^k is addition: `0x90 | ch == 0x90 + ch` for a channel below 16. */
  lemma {:induction false} OrBelow(hi: nat, lo: nat, k: nat)
    requires lo < Pow2(k)
    ensures BitOr(hi * Pow2(k), lo) == hi * Pow2(k) + lo
  {
    if k == 0 || hi == 0 || lo == 0 {
    } else {
      var p := Pow2(k - 1);
      var a := hi * Pow2(k);
      assert a == 2 * (hi * p);
      assert a / 2 == hi * p && a % 2 == 0;
      OrBelow(hi, lo / 2, k - 1);
    }
  }

  /** A mask of k one-bits keeps the value modulo 2^k: `value & 0x7F == value % 128`. */
  lemma {:induction false} AndMask(v: nat, k: nat)
    ensures BitAnd(v, Pow2(k) - 1) == v % Pow2(k)
  {
    if k == 0 || v == 0 {
    } else {
      var p := Pow2(k - 1);
      assert Pow2(k) - 1 == 2 * (p - 1) + 1;
      assert (Pow2(k) - 1) / 2 == p - 1 && (Pow2(k) - 1) % 2 == 1;
      AndMask(v / 2, k - 1);
      ModOfDouble(v, p);
    }
  }

  lemma ModOfDouble(v: nat, p: nat)
    requires p > 0
    ensures v % (2 * p) == 2 * ((v / 2) % p) + v % 2
  {
    var q, r := v / 2, v % 2;
    var t, s := q / p, q % p;
    assert q == p * t + s;
    assert v == (2 * p) * t + (2 * s + r);
    DivModUnique(v, 2 * p, t, 2 * s + r);
  }

  lemma DivModUnique(n: int, d: int, q: int, r: int)
    requires d > 0 && 0 <= r < d && n == d * q + r
    ensures n % d == r
  {
    var q', r' := n / d, n % d;
    assert d * (q - q') == r' - r;
    if q - q' >= 1 {
      assert false;
    } else if q - q' <= -1 {
      assert false;
    }
  }

  /** `v & 0x7F` is the low seven bits of `v`. */
  lemma Low7(v: nat)
    ensures BitAnd(v, 0x7F) == v % 128
  {
    assert Pow2(7) == 128 by {
      assert Pow2(4) == 16;
    }
    AndMask(v, 7);
  }

  /** The status byte `kind | channel` for a status nibble `kind` (0x8, 0x9, 0xB or 0xE). */
  lemma StatusByte(kind: nat, channel: nat)
    ensures channel < 16 ==> BitOr(kind * 16, channel) == kind * 16 + channel
  {
    if channel < 16 {
      assert Pow2(4) == 16;
      OrBelow(kind, channel, 4);
    }
  }

  // ---------------------------------------------------------------------------
  // Message builders (midi.js noteOn, noteOff, cc, pitchBend, sysex)
  // ---------------------------------------------------------------------------

  /** Note-on: status `0x90 | channel`, then the note and the velocity. */
  function NoteOnMsg(note: int, velocity: int, channel: nat): (m: Message)
    ensures channel < 16 ==> m == [0x90 + channel, note, velocity]
  {
    StatusByte(0x9, channel);
    [BitOr(0x90, channel), note, velocity]
  }

  /** Note-off: status `0x80 | channel`, the note, and a release velocity of 0. */
  function NoteOffMsg(note: int, channel: nat): (m: Message)
    ensures channel < 16 ==> m == [0x80 + channel, note, 0]
  {
    StatusByte(0x8, channel);
    [BitOr(0x80, channel), note, 0]
  }

  /** Control change: status `0xB0 | channel`, the controller number and its value. */
  function ControlChangeMsg(controller: int, value: int, channel: nat): (m: Message)
    ensures channel < 16 ==> m == [0xB0 + channel, controller, value]
  {
    StatusByte(0xB, channel);
    [BitOr(0xB0, channel), controller, value]
  }

  /**
   * Pitch bend: status `0xE0 | channel`, then the low seven bits and the next
   * seven bits of the 14-bit value. Both data bytes are always below 128, and a
   * value in [0, 16383] is recovered exactly as msb * 128 + lsb.
   */
  function PitchBendMsg(value: nat, channel: nat): (m: Message)
    ensures |m| == 3 && 0 <= m[1] < 128 && 0 <= m[2] < 128
    ensures channel < 16 ==> m[0] == 0xE0 + channel
    ensures m[1] == value % 128 && m[2] == (value / 128) % 128
    ensures value <= 16383 ==> m[2] * 128 + m[1] == value
  {
    StatusByte(0xE, channel);
    Low7(value);
    Low7(value / 128);
    SevenBitHalves(value);
    [BitOr(0xE0, channel), BitAnd(value, 0x7F), BitAnd(value / 128, 0x7F)]
  }

  /** A 14-bit value is its high seven bits times 128 plus its low seven bits. */
  lemma SevenBitHalves(value: nat)
    ensures 0 <= value % 128 < 128 && 0 <= (value / 128) % 128 < 128
    ensures value <= 16383 ==> ((value / 128) % 128) * 128 + value % 128 == value
  {
    if value <= 16383 {
      var hi := value / 128;
      assert hi < 128;
      DivModUnique(hi, 128, 0, hi);
    }
  }

  /** System exclusive: the bytes are passed through unchanged. */
  function SysexMsg(data: Message): (m: Message)
    ensures m == data
  {
    data
  }

  /** The centre (rest) position of the pitch-bend wheel. */
  const PitchBendCentre := 8192

  lemma PitchBendExamples()
    ensures PitchBendMsg(8192, 0) == [0xE0, 0x00, 0x40]
    ensures PitchBendMsg(16383, 0) == [0xE0, 0x7F, 0x7F]
    ensures PitchBendMsg(0, 0) == [0xE0, 0x00, 0x00]
  {
  }

  // ---------------------------------------------------------------------------
  // Decoding: the receiver's view of the same bytes (MIDI 1.0 Channel Voice Messages)
  // ---------------------------------------------------------------------------

  datatype ChannelVoice =
    | NoteOnEvent(channel: nat, note: nat, velocity: nat)
    | NoteOffEvent(channel: nat, note: nat)
    | ControlChangeEvent(channel: nat, controller: nat, value: nat)
    | PitchBendEvent(channel: nat, value: nat)

  predicate IsDataByte(b: int) {
    0 <= b < 128
  }

  predicate ValidEvent(e: ChannelVoice) {
    e.channel < 16 &&
    match e
    case NoteOnEvent(_, note, velocity) => IsDataByte(note) && IsDataByte(velocity)
    case NoteOffEvent(_, note) => IsDataByte(note)
    case ControlChangeEvent(_, controller, value) => IsDataByte(controller) && IsDataByte(value)
    case PitchBendEvent(_, value) => value < 16384
  }

  /** The builder that sends each kind of channel-voice event. */
  function Encode(e: ChannelVoice): Message {
    match e
    case NoteOnEvent(c, note, velocity) => NoteOnMsg(note, velocity, c)
    case NoteOffEvent(c, note) => NoteOffMsg(note, c)
    case ControlChangeEvent(c, controller, value) => ControlChangeMsg(controller, value, c)
    case PitchBendEvent(c, value) => PitchBendMsg(value, c)
  }

  /**
   * Reads a three-byte channel-voice message: a status byte (high nibble the
   * kind, low nibble the channel) and two data bytes below 128. Note-offs are
   * recognised with the release velocity 0 that this surface sends.
   */
  function Parse(m: Message): Option<ChannelVoice> {
    if |m| != 3 || !(0x80 <= m[0] < 0x100) || !IsDataByte(m[1]) || !IsDataByte(m[2]) then None
    else
      var kind, channel := m[0] / 16, m[0] % 16;
      if kind == 0x9 then Some(NoteOnEvent(channel, m[1], m[2]))
      else if kind == 0x8 && m[2] == 0 then Some(NoteOffEvent(channel, m[1]))
      else if kind == 0xB then Some(ControlChangeEvent(channel, m[1], m[2]))
      else if kind == 0xE then Some(PitchBendEvent(channel, m[2] * 128 + m[1]))
      else None
  }

  /** Every in-range event is sent as bytes that read back as that same event. */
  lemma ParseEncode(e: ChannelVoice)
    requires ValidEvent(e)
    ensures Parse(Encode(e)) == Some(e)
  {
    var kind := match e
      case NoteOnEvent(_, _, _) => 0x9
      case NoteOffEvent(_, _) => 0x8
      case ControlChangeEvent(_, _, _) => 0xB
      case PitchBendEvent(_, _) => 0xE;
    StatusSplit(kind, e.channel);
    assert Encode(e)[0] == kind * 16 + e.channel;
  }

  /** A status byte splits back into its kind nibble and its channel. */
  lemma StatusSplit(kind: nat, channel: nat)
    requires channel < 16
    ensures (kind * 16 + channel) / 16 == kind && (kind * 16 + channel) % 16 == channel
  {
    DivModUnique(kind * 16 + channel, 16, kind, channel);
  }

  /** Every well-formed channel-voice message is exactly what the builders send for the event it denotes. */
  lemma EncodeParse(m: Message)
    ensures Parse(m).Some? ==> ValidEvent(Parse(m).value) && Encode(Parse(m).value) == m
  {
    if Parse(m).Some? {
      var kind, channel := m[0] / 16, m[0] % 16;
      assert m[0] == kind * 16 + channel;
      assert m == [m[0], m[1], m[2]];
      if kind == 0xE {
        var value := m[2] * 128 + m[1];
        DivModUnique(value, 128, m[2], m[1]);
        assert value / 128 == m[2];
        DivModUnique(m[2], 128, 0, m[2]);
      }
    }
  }

  // ---------------------------------------------------------------------------
  // Which notes a log of messages leaves sounding
  // ---------------------------------------------------------------------------

  /**
   * +1 if `m` starts note `n` (a note-on with non-zero velocity, any channel),
   * -1 if it ends it (a note-off, or a note-on with velocity 0), 0 otherwise.
   */
  function NoteDelta(m: Message, n: int): int {
    if |m| != 3 || m[1] != n then 0
    else if 0x90 <= m[0] < 0xA0 && m[2] != 0 then 1
    else if 0x80 <= m[0] < 0x90 || (0x90 <= m[0] < 0xA0 && m[2] == 0) then -1
    else 0
  }

  /** Note-ons minus note-offs of note `n` in a log. */
  function Sounding(log: seq<Message>, n: int): int {
    if log == [] then 0 else Sounding(log[..|log| - 1], n) + NoteDelta(log[|log| - 1], n)
  }

  lemma {:induction false} SoundingAppend(a: seq<Message>, b: seq<Message>, n: int)
    ensures Sounding(a + b, n) == Sounding(a, n) + Sounding(b, n)
  {
    if b == [] {
      assert a + b == a;
    } else {
      var b' := b[..|b| - 1];
      assert (a + b)[..|a + b| - 1] == a + b';
      SoundingAppend(a, b', n);
    }
  }

  /** A note-on with a non-zero velocity starts exactly its own note; a note-off ends exactly its own note. */
  lemma NoteMessagesDelta(note: int, velocity: int, n: int)
    requires velocity != 0
    ensures NoteDelta(NoteOnMsg(note, velocity, 0), n) == (if n == note then 1 else 0)
    ensures NoteDelta(NoteOffMsg(note, 0), n) == (if n == note then -1 else 0)
  {
  }

  // ---------------------------------------------------------------------------
  // The output gate (midi.js selectOutput and send)
  // ---------------------------------------------------------------------------

  /** A Web MIDI output port, known by its id. */
  datatype Port = Port(id: string)

  /** What reaches the device when `msgs` are sent through `output`: all of them, or nothing when no output is selected. */
  function Gate(output: Option<Port>, msgs: seq<Message>): seq<Message> {
    if output.Some? then msgs else []
  }

  /** What a handler lets through, in two steps, is what the first step lets through followed by what the second does. */
  lemma GateSlices(output: Option<Port>, start: seq<Message>, mid: seq<Message>, end: seq<Message>)
    requires start <= mid <= end
    ensures Gate(output, end[|start|..]) == Gate(output, mid[|start|..]) + Gate(output, end[|mid|..])
  {
    assert end[|start|..] == mid[|start|..] + end[|mid|..];
  }

  class MidiOut {
    var output: Option<Port>
    /** Every message the selected output has been handed, in order. */
    ghost var sent: seq<Message>

    constructor ()
      ensures output == None && sent == []
    {
      output := None;
      sent := [];
    }

    /** Selects the port with id `id` among `outputs`; an empty or unknown id deselects. */
    method SelectOutput(id: string, outputs: map<string, Port>)
      modifies this
      ensures output.Some? <==> id != "" && id in outputs
      ensures output.Some? ==> output.value == outputs[id]
      ensures sent == old(sent)
    {
      if id != "" && id in outputs {
        output := Some(outputs[id]);
      } else {
        output := None;
      }
    }

    /** Hands `data` to the selected output; with none selected it is dropped silently. */
    method Send(data: Message)
      modifies this
      ensures output == old(output)
      ensures output.Some? ==> sent == old(sent) + [data]
      ensures output.None? ==> sent == old(sent)
    {
      if output.Some? {
        sent := sent + [data];
      }
    }

    method NoteOn(note: int, velocity: int := 100, channel: nat := 0)
      modifies this
      ensures output == old(output)
      ensures sent == old(sent) + Gate(output, [NoteOnMsg(note, velocity, channel)])
    {
      Send(NoteOnMsg(note, velocity, channel));
    }

    method NoteOff(note: int, channel: nat := 0)
      modifies this
      ensures output == old(output)
      ensures sent == old(sent) + Gate(output, [NoteOffMsg(note, channel)])
    {
      Send(NoteOffMsg(note, channel));
    }

    method CC(controller: int, value: int, channel: nat := 0)
      modifies this
      ensures output == old(output)
      ensures sent == old(sent) + Gate(output, [ControlChangeMsg(controller, value, channel)])
    {
      Send(ControlChangeMsg(controller, value, channel));
    }

    method PitchBend(value: nat, channel: nat := 0)
      modifies this
      ensures output == old(output)
      ensures sent == old(sent) + Gate(output, [PitchBendMsg(value, channel)])
    {
      Send(PitchBendMsg(value, channel));
    }

    method Sysex(data: Message)
      modifies this
      ensures output == old(output)
      ensures sent == old(sent) + Gate(output, [data])
    {
      Send(SysexMsg(data));
    }
  }
}

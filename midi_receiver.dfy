// The hub's MIDI input: decoding of 32-bit Universal MIDI Packet words that
// carry MIDI 1.0 channel-voice messages, the 50 ms debounce of repeated
// control changes, and the display names of notes and controllers.

module MidiReceiver {
  import opened Common

  /** An unsigned 32-bit UMP word. */
  type Word32 = w: nat | w < 0x1_0000_0000

  const CC_DEBOUNCE_MS: int := 50

  datatype MessageType = NoteOn | NoteOff | ControlChange | PitchBend

  /** One decoded message; fields that do not apply to the message type are None. */
  datatype MidiLog = MidiLog(
    kind: MessageType,
    channel: nat,
    note: Option<nat>,
    velocity: Option<nat>,
    controller: Option<nat>,
    ccValue: Option<nat>,
    pitchBend: Option<nat>,
    timestamp: int)

  /** The last value seen for a (channel, controller) pair and when it was seen. */
  datatype CcEntry = CcEntry(value: nat, time: int)

  /** `"\(channel):\(controller)"`: the decimal rendering is injective, so the pair stands for the string key. */
  type CcKey = (nat, nat)

  // ----- field extraction -----

  function MessageTypeOf(w: Word32): (t: nat)
    ensures t < 16
  {
    (w / 0x1000_0000) % 16
  }

  function StatusOf(w: Word32): (s: nat)
    ensures s < 256
  {
    (w / 0x1_0000) % 256
  }

  function Data1Of(w: Word32): (d: nat)
    ensures d < 256
  {
    (w / 0x100) % 256
  }

  function Data2Of(w: Word32): (d: nat)
    ensures d < 256
  {
    w % 256
  }

  /** `status & 0x0F`. */
  function ChannelOf(w: Word32): (c: nat)
    ensures c < 16
  {
    StatusOf(w) % 16
  }

  /** `status & 0xF0`. */
  function KindOf(w: Word32): (k: nat)
    ensures k < 256 && k % 16 == 0
  {
    StatusOf(w) / 16 * 16
  }

  /**
   * `Int(data2) << 7 | Int(data1)`, a bitwise OR. The shifted data2 occupies bits 7..14 and data1
   * bits 0..7, so the two overlap in bit 7: that bit is set when data1 >= 128 or data2 is odd.
   */
  function PitchBendOf(data1: nat, data2: nat): (p: nat)
    requires data1 < 256 && data2 < 256
    ensures p < 0x8000
    ensures data1 < 128 ==> p == data2 * 128 + data1
  {
    data2 * 128 + data1 % 128 + (if data1 >= 128 && data2 % 2 == 0 then 128 else 0)
  }

  /** A UMP word of message type 2 carrying `status`, `data1`, `data2` in its low three bytes. */
  function EncodeChannelVoice(group: nat, status: nat, data1: nat, data2: nat): (w: Word32)
    requires group < 16 && status < 256 && data1 < 256 && data2 < 256
  {
    0x2000_0000 + group * 0x100_0000 + status * 0x1_0000 + data1 * 0x100 + data2
  }

  lemma EncodeDecode(group: nat, status: nat, data1: nat, data2: nat)
    requires group < 16 && status < 256 && data1 < 256 && data2 < 256
    ensures var w := EncodeChannelVoice(group, status, data1, data2);
      MessageTypeOf(w) == 2 && StatusOf(w) == status && Data1Of(w) == data1 && Data2Of(w) == data2
  {
    var w := EncodeChannelVoice(group, status, data1, data2);
    var low := status * 0x1_0000 + data1 * 0x100 + data2;
    assert low < 0x100_0000;
    assert w == (0x20 + group) * 0x100_0000 + low;
    assert w / 0x1000_0000 == 2;
    assert w / 0x1_0000 == (0x20 + group) * 0x100 + status;
    assert w / 0x100 == ((0x20 + group) * 0x100 + status) * 0x100 + data1;
  }

  // ----- decoding with debounce state -----

  /** One packet: the CC table after it and the message it yields (None when it is skipped). */
  function Receive(last: map<CcKey, CcEntry>, w: Word32, now: int): (r: (map<CcKey, CcEntry>, Option<MidiLog>))
  {
    if MessageTypeOf(w) != 2 then (last, None)
    else
      var channel := ChannelOf(w);
      var data1 := Data1Of(w);
      var data2 := Data2Of(w);
      var kind := KindOf(w);
      if kind == 0x90 then
        if data2 > 0 then
          (last, Some(MidiLog(NoteOn, channel, Some(data1), Some(data2), None, None, None, now)))
        else
          (last, Some(MidiLog(NoteOff, channel, Some(data1), Some(0), None, None, None, now)))
      else if kind == 0x80 then
        (last, Some(MidiLog(NoteOff, channel, Some(data1), Some(data2), None, None, None, now)))
      else if kind == 0xB0 then
        var key := (channel, data1);
        if key in last && now - last[key].time < CC_DEBOUNCE_MS && last[key].value == data2 then
          (last, None)
        else
          (last[key := CcEntry(data2, now)],
           Some(MidiLog(ControlChange, channel, None, None, Some(data1), Some(data2), None, now)))
      else if kind == 0xE0 then
        (last, Some(MidiLog(PitchBend, channel, None, None, None, None, Some(PitchBendOf(data1, data2)), now)))
      else
        (last, None)
  }

  /** A whole event list, packet by packet, each with its arrival time. */
  function ReceiveAll(last: map<CcKey, CcEntry>, packets: seq<(Word32, int)>): (r: (map<CcKey, CcEntry>, seq<MidiLog>))
    ensures |r.1| <= |packets|
  {
    if packets == [] then (last, [])
    else
      var prev := ReceiveAll(last, packets[..|packets| - 1]);
      var step := Receive(prev.0, packets[|packets| - 1].0, packets[|packets| - 1].1);
      (step.0, prev.1 + (if step.1.Some? then [step.1.value] else []))
  }

  class MidiReceiverService {
    var lastCCValues: map<CcKey, CcEntry>

    constructor ()
      ensures lastCCValues == map[]
    {
      lastCCValues := map[];
    }

    /** Decodes one packet received at `now`, updating the debounce table. */
    method HandleMidiPacket(w: Word32, now: int) returns (log: Option<MidiLog>)
      modifies this
      ensures (lastCCValues, log) == Receive(old(lastCCValues), w, now)
    {
      log := None;
      if MessageTypeOf(w) != 2 {
        return;
      }
      var channel := ChannelOf(w);
      var data1 := Data1Of(w);
      var data2 := Data2Of(w);
      var kind := KindOf(w);
      if kind == 0x90 {
        if data2 > 0 {
          log := Some(MidiLog(NoteOn, channel, Some(data1), Some(data2), None, None, None, now));
        } else {
          log := Some(MidiLog(NoteOff, channel, Some(data1), Some(0), None, None, None, now));
        }
      } else if kind == 0x80 {
        log := Some(MidiLog(NoteOff, channel, Some(data1), Some(data2), None, None, None, now));
      } else if kind == 0xB0 {
        var key := (channel, data1);
        if key in lastCCValues {
          var entry := lastCCValues[key];
          if now - entry.time < CC_DEBOUNCE_MS && entry.value == data2 {
            return;
          }
        }
        lastCCValues := lastCCValues[key := CcEntry(data2, now)];
        log := Some(MidiLog(ControlChange, channel, None, None, Some(data1), Some(data2), None, now));
      } else if kind == 0xE0 {
        log := Some(MidiLog(PitchBend, channel, None, None, None, None, Some(PitchBendOf(data1, data2)), now));
      }
    }

    /** Walks an event list in order and collects the messages it yields. */
    method HandleMidiEventList(packets: seq<(Word32, int)>) returns (logs: seq<MidiLog>)
      modifies this
      ensures (lastCCValues, logs) == ReceiveAll(old(lastCCValues), packets)
    {
      logs := [];
      ghost var start := lastCCValues;
      var i := 0;
      while i < |packets|
        invariant 0 <= i <= |packets|
        invariant (lastCCValues, logs) == ReceiveAll(start, packets[..i])
      {
        ReceiveAllAppend(start, packets[..i], packets[i]);
        assert packets[..i + 1] == packets[..i] + [packets[i]];
        ghost var before := lastCCValues;
        ghost var logsBefore := logs;
        assert (before, logsBefore) == ReceiveAll(start, packets[..i]);
        var log := HandleMidiPacket(packets[i].0, packets[i].1);
        assert (lastCCValues, log) == Receive(before, packets[i].0, packets[i].1);
        if log.Some? {
          logs := logs + [log.value];
        }
        ghost var step := Receive(before, packets[i].0, packets[i].1);
        assert lastCCValues == step.0;
        assert logs == logsBefore + (if step.1.Some? then [step.1.value] else []);
        assert ReceiveAll(start, packets[..i] + [packets[i]]) == (step.0, logsBefore + (if step.1.Some? then [step.1.value] else []));
        assert (lastCCValues, logs) == ReceiveAll(start, packets[..i + 1]);
        i := i + 1;
      }
      assert packets[..i] == packets;
    }
  }

  // ----- properties of decoding -----

  /** Only message type 2 (MIDI 1.0 channel voice) is decoded; every other word is dropped without effect. */
  lemma OnlyChannelVoiceDecoded(last: map<CcKey, CcEntry>, w: Word32, now: int)
    ensures Receive(last, w, now).1.Some? ==> MessageTypeOf(w) == 2
    ensures MessageTypeOf(w) != 2 ==> Receive(last, w, now) == (last, None)
  {
  }

  /** Status nibbles other than 0x8, 0x9, 0xB, 0xE yield nothing and leave the table alone. */
  lemma OtherKindsIgnored(last: map<CcKey, CcEntry>, w: Word32, now: int)
    requires KindOf(w) !in {0x80, 0x90, 0xB0, 0xE0}
    ensures Receive(last, w, now) == (last, None)
  {
  }

  /** A Note On is reported exactly when the status is 0x9n and the velocity is positive; velocity 0 is a Note Off. */
  lemma NoteOnIff(last: map<CcKey, CcEntry>, w: Word32, now: int)
    ensures var r := Receive(last, w, now).1;
      (r.Some? && r.value.kind == NoteOn) <==> (MessageTypeOf(w) == 2 && KindOf(w) == 0x90 && Data2Of(w) > 0)
    ensures MessageTypeOf(w) == 2 && KindOf(w) == 0x90 && Data2Of(w) == 0 ==>
      Receive(last, w, now).1 == Some(MidiLog(NoteOff, ChannelOf(w), Some(Data1Of(w)), Some(0), None, None, None, now))
  {
  }

  /** Every decoded message carries the status byte's low nibble as its channel and the packet's arrival time. */
  lemma DecodedChannel(last: map<CcKey, CcEntry>, w: Word32, now: int)
    ensures var r := Receive(last, w, now).1;
      r.Some? ==> r.value.channel == ChannelOf(w) && r.value.channel < 16 && r.value.timestamp == now
  {
  }

  /** With 7-bit data bytes the pitch bend is the 14-bit value data2·128 + data1, so it lies in 0..16383. */
  lemma PitchBendFourteenBit(data1: nat, data2: nat)
    requires data1 < 128 && data2 < 128
    ensures PitchBendOf(data1, data2) == data2 * 128 + data1
    ensures PitchBendOf(data1, data2) <= 16383
  {
  }

  /** When data1 has its top bit set, the OR differs from the arithmetic sum of the two 7-bit fields. */
  lemma PitchBendOverlap()
    ensures PitchBendOf(128, 1) == 128
  {
  }

  /**
   * A control change is dropped exactly when the same (channel, controller) carried the same
   * value less than 50 ms earlier; otherwise it is reported and recorded, and no other key changes.
   */
  lemma ControlChangeDebounce(last: map<CcKey, CcEntry>, w: Word32, now: int)
    requires MessageTypeOf(w) == 2 && KindOf(w) == 0xB0
    ensures var key := (ChannelOf(w), Data1Of(w));
      var r := Receive(last, w, now);
      (r.1.None? <==> key in last && now - last[key].time < 50 && last[key].value == Data2Of(w))
      && (r.1.None? ==> r.0 == last)
      && (r.1.Some? ==> r.1.value.kind == ControlChange && r.1.value.ccValue == Some(Data2Of(w))
                        && r.0 == last[key := CcEntry(Data2Of(w), now)])
  {
  }

  /** Only control changes touch the debounce table. */
  lemma TableChangesOnlyOnControlChange(last: map<CcKey, CcEntry>, w: Word32, now: int)
    ensures Receive(last, w, now).0 != last ==> MessageTypeOf(w) == 2 && KindOf(w) == 0xB0
  {
  }

  /** A repeated control change 50 ms or more after the first is reported again. */
  lemma RepeatAfterWindowReported(last: map<CcKey, CcEntry>, w: Word32, t: int, later: int)
    requires MessageTypeOf(w) == 2 && KindOf(w) == 0xB0
    requires later >= t + 50
    requires Receive(last, w, t).1.Some?
    ensures var first := Receive(last, w, t);
      Receive(first.0, w, later).1.Some?
  {
  }

  /** A repeated control change within 50 ms of one that was reported is dropped. */
  lemma RepeatWithinWindowDropped(last: map<CcKey, CcEntry>, w: Word32, t: int, later: int)
    requires MessageTypeOf(w) == 2 && KindOf(w) == 0xB0
    requires t <= later < t + 50
    requires Receive(last, w, t).1.Some?
    ensures var first := Receive(last, w, t);
      Receive(first.0, w, later) == (first.0, None)
  {
  }

  /** The event list yields messages in packet order: appending a packet appends at most its one message. */
  lemma {:induction false} ReceiveAllAppend(last: map<CcKey, CcEntry>, packets: seq<(Word32, int)>, p: (Word32, int))
    ensures var before := ReceiveAll(last, packets);
      var step := Receive(before.0, p.0, p.1);
      ReceiveAll(last, packets + [p]) == (step.0, before.1 + (if step.1.Some? then [step.1.value] else []))
  {
    assert (packets + [p])[..|packets|] == packets;
  }

  /** Without control changes the debounce table is untouched by an event list. */
  lemma {:induction false} ReceiveAllKeepsTable(last: map<CcKey, CcEntry>, packets: seq<(Word32, int)>)
    requires forall i :: 0 <= i < |packets| ==> KindOf(packets[i].0) != 0xB0
    ensures ReceiveAll(last, packets).0 == last
  {
    if packets != [] {
      ReceiveAllKeepsTable(last, packets[..|packets| - 1]);
      TableChangesOnlyOnControlChange(ReceiveAll(last, packets[..|packets| - 1]).0, packets[|packets| - 1].0, packets[|packets| - 1].1);
    }
  }

  // ----- names -----

  const NOTE_NAMES: seq<string> := ["C", "C#", "D", "D#", "E", "F", "F#", "G", "G#", "A", "A#", "B"]

  /** Pitch class index and octave of a MIDI note; middle C (60) is in octave 4. */
  function NoteParts(n: nat): (r: (nat, int))
    ensures r.0 < 12 && r.1 >= -1
    ensures n == (r.1 + 1) * 12 + r.0
  {
    (n % 12, n / 12 - 1)
  }

  /**
   * The note's name and octave, as in "C#4"; "?" when the message carries no note. The name of
   * the pitch class comes first and the rest reads back as the octave.
   */
  function NoteName(note: Option<nat>): (s: string)
    ensures note.None? <==> s == "?"
    ensures note.Some? ==> var name := NOTE_NAMES[NoteParts(note.value).0]; |name| < |s| && s[..|name|] == name
    ensures note.Some? ==> var name := NOTE_NAMES[NoteParts(note.value).0];
      (IsDigits(s[|name|..]) || (s[|name|] == '-' && IsDigits(s[|name| + 1..])))
      && SignedValue(s[|name|..]) == NoteParts(note.value).1
  {
    match note
    case None => "?"
    case Some(n) =>
      var parts := NoteParts(n);
      var name := NOTE_NAMES[parts.0];
      var s := name + IntToString(parts.1);
      assert s[|name|..] == IntToString(parts.1);
      IntToStringRoundTrip(parts.1);
      s
  }

  /**
   * The name identifies the note: the pitch-class name and the octave read back from it give
   * the note number again, since the twelve names are distinct.
   */
  lemma NoteNameReadsBack(n: nat)
    ensures var name := NOTE_NAMES[n % 12]; var s := NoteName(Some(n));
      (SignedValue(s[|name|..]) + 1) * 12 + n % 12 == n
  {
  }

  lemma NoteNameExamples()
    ensures NoteName(Some(60)) == "C4"
    ensures NoteName(Some(0)) == "C-1"
    ensures NoteName(Some(69)) == "A4"
  {
    assert NatToString(4) == "4";
    assert NatToString(1) == "1";
  }

  /** Abbreviated names of the well-known controllers; every other number is "CC". */
  function CcNameFor(cc: nat): (s: string)
    ensures s == "CC" <==> cc !in {1, 7, 10, 11, 64, 65, 66, 67}
  {
    match cc
    case 1 => "Mod"
    case 7 => "Vol"
    case 10 => "Pan"
    case 11 => "Expr"
    case 64 => "Sustain"
    case 65 => "Porta"
    case 66 => "Sost"
    case 67 => "Soft"
    case _ => "CC"
  }
}

/** The device-to-channel tables of config/inputMapping.ts and their
    lookups in `InputDeviceMapper`, and `validateInputMapping`. */
module InputMapping {
  import opened Wrappers
  import opened Channels
  import opened Seqs

  /** `KEYBOARD_MAPPING`. */
  const KeyboardMapping: map<string, Channel> := map[
    "e" := LeftHand, "E" := LeftHand,
    "i" := RightHand, "I" := RightHand,
    "x" := LeftFoot, "X" := LeftFoot,
    "n" := RightFoot, "N" := RightFoot
  ]

  /** `MIDI_NOTE_MAPPING`. */
  const MidiNoteMapping: map<int, Channel> := map[60 := LeftHand, 62 := RightHand, 64 := LeftFoot, 65 := RightFoot]

  /** `HID_BUTTON_MAPPING` and `GAMEPAD_BUTTON_MAPPING` (the same table). */
  const ButtonMapping: map<int, Channel> := map[0 := LeftHand, 1 := RightHand, 2 := LeftFoot, 3 := RightFoot]

  /** `fromKeyboard(key)`: `null` for any key the table does not list. */
  function FromKeyboard(key: string): (c: Option<Channel>)
    ensures c == Some(LeftHand) <==> key == "e" || key == "E"
    ensures c == Some(RightHand) <==> key == "i" || key == "I"
    ensures c == Some(LeftFoot) <==> key == "x" || key == "X"
    ensures c == Some(RightFoot) <==> key == "n" || key == "N"
  {
    if key in KeyboardMapping then Some(KeyboardMapping[key]) else None
  }

  /** `fromMIDI(note)`. */
  function FromMidi(note: int): (c: Option<Channel>)
    ensures c.Some? <==> note in {60, 62, 64, 65}
    ensures forall ch :: c == Some(ch) <==> note == MidiNoteOf(ch)
  {
    if note in MidiNoteMapping then Some(MidiNoteMapping[note]) else None
  }

  /** `fromHID(buttonId)`. */
  function FromHid(button: int): (c: Option<Channel>)
    ensures c.Some? <==> 0 <= button <= 3
    ensures forall ch :: c == Some(ch) <==> button == ButtonOf(ch)
  {
    if button in ButtonMapping then Some(ButtonMapping[button]) else None
  }

  /** `fromGamepad(buttonIndex)`: the same table as `fromHID`. */
  function FromGamepad(button: int): (c: Option<Channel>)
    ensures c == FromHid(button)
  {
    if button in ButtonMapping then Some(ButtonMapping[button]) else None
  }

  /** `KEYBOARD_LABELS`. */
  function KeyboardLabel(c: Channel): string {
    match c
    case LeftHand => "E"
    case RightHand => "I"
    case LeftFoot => "X"
    case RightFoot => "N"
  }

  /** `MIDI_NOTE_LABELS`. */
  function MidiLabel(c: Channel): string {
    match c
    case LeftHand => "C4 (60)"
    case RightHand => "D4 (62)"
    case LeftFoot => "E4 (64)"
    case RightFoot => "F4 (65)"
  }

  /** `HID_BUTTON_LABELS`. */
  function HidLabel(c: Channel): string {
    match c
    case LeftHand => "Button 1"
    case RightHand => "Button 2"
    case LeftFoot => "Button 3"
    case RightFoot => "Button 4"
  }

  /** `GAMEPAD_BUTTON_LABELS`. */
  function GamepadLabel(c: Channel): string {
    match c
    case LeftHand => "A Button"
    case RightHand => "B Button"
    case LeftFoot => "X Button"
    case RightFoot => "Y Button"
  }

  /** The note a channel is played on, and the button it is pressed on. */
  function MidiNoteOf(c: Channel): int {
    match c
    case LeftHand => 60
    case RightHand => 62
    case LeftFoot => 64
    case RightFoot => 65
  }

  function ButtonOf(c: Channel): int {
    match c
    case LeftHand => 0
    case RightHand => 1
    case LeftFoot => 2
    case RightFoot => 3
  }

  /** The key shown for a channel maps back to it, and so do its MIDI note
      and its button; each table is one-to-one on its recognised inputs. */
  lemma LabelsRoundTrip(c: Channel)
    ensures FromKeyboard(KeyboardLabel(c)) == Some(c)
    ensures FromMidi(MidiNoteOf(c)) == Some(c)
    ensures FromHid(ButtonOf(c)) == Some(c) && FromGamepad(ButtonOf(c)) == Some(c)
    ensures forall n :: FromMidi(n) == Some(c) ==> n == MidiNoteOf(c)
    ensures forall b :: FromHid(b) == Some(c) ==> b == ButtonOf(c)
  {
  }

  /** The label strings label the buttons 1-based: `Button k+1` for button
      `k`, and all four channel labels differ within each table. */
  lemma LabelsDistinct(c: Channel, d: Channel)
    requires c != d
    ensures KeyboardLabel(c) != KeyboardLabel(d) && MidiLabel(c) != MidiLabel(d)
    ensures HidLabel(c) != HidLabel(d) && GamepadLabel(c) != GamepadLabel(d)
    ensures HidLabel(c)[7] as int - '1' as int == ButtonOf(c)
  {
  }

  datatype Validation = Validation(isValid: bool, missing: seq<Channel>)

  /** The channels some key of `table` maps to. */
  predicate Mapped(table: map<string, Channel>, c: Channel) {
    c in table.Values
  }

  /** The required channels, in their fixed order, that no key of `table`
      maps to. */
  function Missing(table: map<string, Channel>): seq<Channel> {
    Filter(AllChannels, (c: Channel) => !Mapped(table, c))
  }

  /** `Missing` lists exactly the unmapped channels, once each. */
  lemma MissingFacts(table: map<string, Channel>)
    ensures forall c :: c in Missing(table) <==> !Mapped(table, c)
    ensures Distinct(Missing(table))
    ensures |Missing(table)| == 0 <==> forall c :: Mapped(table, c)
  {
    ChannelCoordinates(LeftHand, LeftHand);
    FilterDistinct(AllChannels, (c: Channel) => !Mapped(table, c));
    forall c ensures c in AllChannels {
      ChannelCoordinates(c, c);
    }
    if |Missing(table)| > 0 {
      assert Missing(table)[0] in Missing(table);
    }
  }

  lemma AllChannelsInOrder()
    ensures Increasing(AllChannels, (c: Channel) => ChannelIndex(c))
  {
    forall i, j | 0 <= i < j < |AllChannels|
      ensures ChannelIndex(AllChannels[i]) < ChannelIndex(AllChannels[j])
    {
      assert forall k :: 0 <= k < |AllChannels| ==> ChannelIndex(AllChannels[k]) == k;
    }
  }

  /** `Missing` keeps the order of `AllChannels`. */
  lemma MissingInOrder(table: map<string, Channel>)
    ensures forall i, j :: 0 <= i < j < |Missing(table)| ==> ChannelIndex(Missing(table)[i]) < ChannelIndex(Missing(table)[j])
  {
    AllChannelsInOrder();
    FilterIncreasing(AllChannels, (c: Channel) => !Mapped(table, c), (c: Channel) => ChannelIndex(c));
  }

  /** `validateInputMapping()` over a keyboard table: the required channels,
      in their fixed order, that no key maps to. */
  function ValidateInputMapping(table: map<string, Channel>): (v: Validation)
    ensures forall c :: c in v.missing <==> !Mapped(table, c)
    ensures Distinct(v.missing)
    ensures forall i, j :: 0 <= i < j < |v.missing| ==> ChannelIndex(v.missing[i]) < ChannelIndex(v.missing[j])
    ensures v.isValid <==> |v.missing| == 0
    ensures v.isValid <==> forall c :: Mapped(table, c)
  {
    var missing := Missing(table);
    MissingFacts(table);
    MissingInOrder(table);
    Validation(|missing| == 0, missing)
  }

  /** The shipped keyboard table covers every channel. */
  lemma ShippedMappingIsValid()
    ensures ValidateInputMapping(KeyboardMapping) == Validation(true, [])
  {
    forall c ensures Mapped(KeyboardMapping, c) {
      LabelsRoundTrip(c);
      assert KeyboardMapping[KeyboardLabel(c)] == c;
    }
    var v := ValidateInputMapping(KeyboardMapping);
    assert v.isValid;
    assert v.missing == [];
  }
}

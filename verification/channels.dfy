/** The closed enumerations of the timing engine: the four input channels
    (`InputType` in types/evaluation.ts) and the session settings of
    types/index.ts. */
module Channels {

  /** One of the four independent input sources. */
  datatype Channel = LeftHand | RightHand | LeftFoot | RightFoot

  datatype BodyPart = Hand | Foot

  datatype Side = Left | Right

  /** `trainingRange`: one side, or both sides. */
  datatype TrainingRange = LeftOnly | RightOnly | Both

  /** `trainingType`: how the beat is presented. */
  datatype TrainingType = Visual | Audio

  /** Where an input event came from; informational only. */
  datatype InputSource = Keyboard | Usb | Midi | Gamepad | Touch

  /** The fixed order in which the source enumerates the channels. */
  const AllChannels: seq<Channel> := [LeftHand, RightHand, LeftFoot, RightFoot]

  /** A channel's position in `AllChannels`. */
  function ChannelIndex(c: Channel): (i: nat)
    ensures i < |AllChannels| && AllChannels[i] == c
  {
    match c
    case LeftHand => 0
    case RightHand => 1
    case LeftFoot => 2
    case RightFoot => 3
  }

  function BodyPartOf(c: Channel): BodyPart {
    match c
    case LeftHand => Hand
    case RightHand => Hand
    case LeftFoot => Foot
    case RightFoot => Foot
  }

  function SideOf(c: Channel): Side {
    match c
    case LeftHand => Left
    case LeftFoot => Left
    case RightHand => Right
    case RightFoot => Right
  }

  /** A channel is determined by its body part and its side, and every
      channel occurs exactly once in `AllChannels`. */
  lemma ChannelCoordinates(c: Channel, d: Channel)
    ensures BodyPartOf(c) == BodyPartOf(d) && SideOf(c) == SideOf(d) ==> c == d
    ensures c in AllChannels
    ensures |AllChannels| == 4
    ensures forall i, j :: 0 <= i < j < |AllChannels| ==> AllChannels[i] != AllChannels[j]
  {
  }
}

/**
 * What the receiver consumes (decoded message events, inbound receiver events) and
 * what it emits (one trace entry per outbound notification, in the order they are sent).
 */
module Events {
  import opened Wrappers
  import opened Fields

  /** The decoder's `MessageEvent`: what one sample may complete. */
  datatype MessageEvent =
    | Error
    | PacketNid(dataUnit: DataUnit)
    | VoiceHeaderPacket(headerAlg: CryptoAlgorithm)
    | LinkControl
    | CryptoControl(ccAlg: CryptoAlgorithm)
    | LowSpeedDataFragment
    | VoiceFramePacket(frame: VoiceFrame)
    | TrunkingControl(tsbk: Tsbk)
    | VoiceTerm

  /**
   * A batch of baseband samples, each given by what the decoder's `feed` returned for it,
   * or a command to change the tracked control-channel frequency.
   */
  datatype ReceiverEvent =
    | Baseband(samples: seq<Option<MessageEvent>>)
    | SetControlFreq(freq: U32)

  /** One outbound action of the receiver. */
  datatype Out =
    | UiSetFreq(uiFreq: U32)              // UIEvent::SetFreq
    | SdrSetFreq(sdrFreq: U32)            // ControllerEvent::SetFreq
    | UiSetTalkGroup(tg: TalkGroup)       // UIEvent::SetTalkGroup
    | AudioVoiceFrame(frame: VoiceFrame)  // AudioEvent::VoiceFrame
    | AudioEndTransmission                // AudioEvent::EndTransmission
    | DecoderResync                       // msg.recv.resync()
    | ExtraSamples(count: nat)            // the extra sink, called on a batch of this length
}

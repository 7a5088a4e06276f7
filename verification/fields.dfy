/**
 * The already-decoded P25 values the receiver works with: frequencies, talkgroups,
 * channels, crypto algorithms, data units and trunking signalling blocks (TSBKs).
 * Decoding them from bits belongs to the P25 decoder library and is not modelled.
 */
module Fields {
  import opened Wrappers

  /** Rust `u32`, `u16` and `u8`. */
  type U32 = x: int | 0 <= x < 0x1_0000_0000
  type U16 = x: int | 0 <= x < 0x1_0000
  type U8 = x: int | 0 <= x < 0x100

  /** Number of entries of the channel-parameter table: one per 4-bit channel identifier. */
  const CHANNEL_COUNT: nat := 16

  /**
   * A channel identifier. P25 carries it in 4 bits, so it always indexes the table;
   * this is what makes the unchecked indexing of the table in recv.rs safe.
   */
  type ChannelId = x: int | 0 <= x < CHANNEL_COUNT

  /** The 12-bit channel number (offset from the base frequency of its table entry). */
  type ChannelNumber = x: int | 0 <= x < 0x1000

  datatype Channel = Channel(id: ChannelId, number: ChannelNumber)

  /**
   * The frequency-computation parameters of one table entry, as decoded by the P25 library.
   * Their layout is irrelevant to the receiver: it only hands them to `rx_freq`.
   */
  type ChannelParams

  /** The library's `rx_freq`: the receive frequency of a channel number under given parameters. */
  type RxFreq = (ChannelParams, ChannelNumber) -> U32

  /**
   * A talkgroup: nobody, the default (unassigned) group, everybody, or a concrete 16-bit
   * group identifier. Only a concrete group can be marked encrypted.
   */
  datatype TalkGroup = Nobody | Default | Everybody | Other(id: U16)

  /** The crypto algorithm field of a voice header or crypto-control packet. */
  datatype CryptoAlgorithm = Unencrypted | Encrypted(algId: U8)

  /** The data unit named by a packet's network identifier (NID). */
  datatype DataUnit =
    | VoiceHeader
    | VoiceSimpleTerminator
    | VoiceLCFrameGroup
    | TrunkingSignaling
    | VoiceCCFrameGroup
    | DataPacket
    | VoiceLCTerminator

  /** The TSBK opcodes the library recognises; the receiver acts on the first two only. */
  datatype TsbkOpcode = GroupVoiceUpdate | ChannelParamsUpdate | OtherOpcode(code: U8)

  /** One (channel, talkgroup) pair of a group voice traffic update. */
  datatype Grant = Grant(channel: Channel, talkgroup: TalkGroup)

  /**
   * The TSBK payload under both decodings the receiver may apply to it: as a group voice
   * traffic update (an ordered list of grants) and as a channel-parameters update.
   * Which one is used depends on the opcode.
   */
  datatype TsbkPayload = TsbkPayload(grants: seq<Grant>, paramsId: ChannelId, params: ChannelParams)

  /** A trunking signalling block with its manufacturer code, CRC verdict and opcode. */
  datatype Tsbk = Tsbk(mfg: U8, crcValid: bool, opcode: Option<TsbkOpcode>, payload: TsbkPayload)

  /** One decoded voice frame, handed to the audio subsystem unchanged. */
  type VoiceFrame
}

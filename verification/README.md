# p25rx trunking receiver — a Dafny model

This project models the trunking decision logic of p25rx's `P25Receiver` (src/recv.rs). The
receiver is driven by samples that a P25 decoder turns into messages. From those messages it
decides when to leave the control channel to follow a talkgroup's voice traffic, and when to
come back. It learns channel-frequency parameters from trunking signalling blocks (TSBKs). It
blacklists talkgroups found to carry encrypted voice. It tells the UI, the tuner (SDR) and the
audio subsystem what it does, and asks the decoder to resynchronise after every retune.

Layout:

- `wrappers.dfy` (`Wrappers`): `Option`.
- `fields.dfy` (`Fields`): the decoded P25 values: `u32`/`u16`/`u8` ranges, the 4-bit channel
  id, `Channel`, `TalkGroup`, `CryptoAlgorithm`, `DataUnit`, `TsbkOpcode`, `Tsbk`. It also has
  the abstract `ChannelParams` and `VoiceFrame` types and the `RxFreq` function type.
- `events.dfy` (`Events`): the decoder's `MessageEvent`, the inbound `ReceiverEvent`, and `Out`.
  Each `Out` entry is one outbound notification.
- `trunking.dfy` (`Trunking`): the decision logic as pure step functions over a `Session`
  value. A `Session` holds the control frequency, the current talkgroup, the table and the
  encrypted set. Each step gives the next session and the notifications it sends, in order:
  `FollowStep` (`use_talkgroup`), `CryptoStep` (`handle_crypto`), `ScanStep` (the group voice
  update loop), `TsbkStep`, `MessageStep`, `SampleStep`, `BatchStep`, `EventStep` and `RunStep`.
- `recv.dfy` (`Recv`): the class `P25Receiver`. It has the source's fields: `controlFreq`,
  `curTalkgroup`, the table `channels` as a 16-entry array written in place, and `encrypted`.
  It also keeps `trace`, the ordered record of every notification sent. `UseTalkgroup`,
  `HandleCrypto`, `SetControlFreq`, `HandleSample`, `HandleEvent` and `Run` are each proved to
  follow their step function exactly; `UseTalkgroup`, `HandleCrypto` and `SetControlFreq` also
  state their effect directly. The helpers `SetFreq`, `SwitchControl`, `Resync` and
  `RxFrequency` have no step function and state their effect directly.
- `properties.dfy` (`TrunkingProperties`): lemmas about the step functions. They cover the
  single steps and whole runs of events.

Modelling decisions:

- `MessageReceiver::feed` is the foreign decoder. A baseband batch is therefore modelled as
  the sequence of what `feed` returned for each sample (`Option<MessageEvent>`).
  `recv.resync()` becomes a `DecoderResync` trace entry.
- Each channel send (`ui`, `sdr`, `audio`) is a trace entry, appended in the order the source
  sends it. The extra sample sink's `handle_samples` call is the entry `ExtraSamples(n)`.
- `ChannelParams::rx_freq` is foreign. It is the function-valued constant `rxFreq`, fixed
  when the receiver is constructed. Nothing is assumed about it.
- The TSBK is modelled already decoded: manufacturer code, CRC verdict, `Option` of opcode,
  and its payload under both decodings (grant list, and channel-parameters update). The
  opcode picks which decoding is used, as at recv.rs:158-175.
- Channel ids are 4-bit values and the table has 16 entries. The unchecked indexing at
  recv.rs:172 and recv.rs:201 is therefore safe, and the model states that fact in the
  `ChannelId` type.
- One might expect `cur_talkgroup` to be unassigned exactly when the receiver is parked on
  the control channel. The code does not keep that invariant: returning
  to control (recv.rs:88-90, recv.rs:124-132, recv.rs:181-192) never resets the talkgroup.
  The model follows the code, and `TalkgroupKeptWhenParked` states the behaviour.

## Model

| member | source | states |
|---|---|---|
| `Recv.P25Receiver.constructor` | src/recv.rs:69-86 | control frequency 0, talkgroup `Default`, empty encrypted set, every table entry absent, nothing sent; equals `Initial()` |
| `Recv.P25Receiver.SetFreq` | src/recv.rs:92-97 | sends the UI `SetFreq(f)`, then the tuner `SetFreq(f)`; nothing else changes |
| `Recv.P25Receiver.SwitchControl` | src/recv.rs:88-90 | retunes UI and tuner to the stored control frequency |
| `Recv.P25Receiver.Resync` | src/recv.rs:131 | records one decoder resync |
| `Recv.P25Receiver.SetControlFreq` | src/recv.rs:109 | only `controlFreq` changes (frame); it becomes `freq`; the step sends nothing |
| `Recv.P25Receiver.RxFrequency` | src/recv.rs:201-204 | a frequency exists iff the channel's table entry is present, and then it is `rx_freq(params, number)` |
| `Recv.P25Receiver.UseTalkgroup` | src/recv.rs:194-212 | succeeds iff the talkgroup is not a known-encrypted group and the channel's entry is present; on failure nothing changes or is sent; on success the talkgroup becomes `tg` and `[UiSetFreq(f), SdrSetFreq(f), UiSetTalkGroup(tg)]` is sent; agrees with `FollowStep` |
| `Recv.P25Receiver.HandleCrypto` | src/recv.rs:181-192 | unencrypted: no change; otherwise sends `[UiSetFreq(cf), SdrSetFreq(cf), DecoderResync]` and adds the current group to `encrypted` exactly when it is concrete; talkgroup and table untouched (frame); agrees with `CryptoStep` |
| `Recv.P25Receiver.HandleSample` | src/recv.rs:114-179 | new state and sent notifications are those of `SampleStep`; the scan loop with early exit follows `ScanStep`; the control frequency is unchanged |
| `Recv.P25Receiver.HandleEvent` | src/recv.rs:101-110 | a batch's samples are handled in order, then `ExtraSamples(n)` once; a command sets the control frequency; agrees with `EventStep` |
| `Recv.P25Receiver.Run` | src/recv.rs:99-112 | over any finite sequence of inbound events, state and trace are those of `RunStep` |
| `Trunking.ScanStep` | src/recv.rs:159-169 | a group voice update changes no part of the state but the current talkgroup |
| `Trunking.MessageStep` | src/recv.rs:122-178 | a message keeps the control frequency and the table size, never shrinks the encrypted set (the only insert is line 190), and never removes a known table entry (line 172 only overwrites) |
| `Trunking.SampleStep` | src/recv.rs:114-120 | a sample that decodes to nothing is a no-op; otherwise the same guarantees as for a message |
| `Trunking.BatchStep` | src/recv.rs:103-105 | the samples of a batch, in order, keep the control frequency, never shrink the encrypted set and never remove a known table entry |
| `Trunking.RunStep` | src/recv.rs:99-112 | across any sequence of inbound events the encrypted set only grows and a known table entry stays known |
| `TrunkingProperties.FollowRefusesEncrypted` | src/recv.rs:195-199 | a known-encrypted group is refused on every channel, with no change and nothing sent |
| `TrunkingProperties.FollowByTable` | src/recv.rs:201-211 | otherwise an absent entry refuses and a present one follows at `rx_freq(params, number)`, UI then tuner then talkgroup |
| `TrunkingProperties.ScanFollowsFirst` | src/recv.rs:163-168 | when grant k is the first followable one, the scan follows it, adds exactly one resync, and ignores all later grants |
| `TrunkingProperties.ScanNoneFollowable` | src/recv.rs:163-168 | when no grant is followable, the scan changes nothing and sends nothing |
| `TrunkingProperties.ScanOutput` | src/recv.rs:159-169 | a scan sends nothing, or exactly UI freq, tuner freq (same value), the followed talkgroup, and a resync |
| `TrunkingProperties.SkipsUnknownChannel` | src/recv.rs:163-168 | in `[(chA, g1), (chB, g2)] + rest` with chA unknown, chB known and g2 not encrypted, g2 is followed on chB and `rest` is not considered |
| `TrunkingProperties.TsbkRejected` | src/recv.rs:145-156 | a block with a non-zero manufacturer code, a bad CRC or no recognised opcode changes nothing and sends nothing, whatever its payload |
| `TrunkingProperties.OtherOpcodeIgnored` | src/recv.rs:174 | recognised opcodes other than the two handled are ignored |
| `TrunkingProperties.ParamsUpdateWritesOne` | src/recv.rs:170-173 | a valid channel-parameters update writes `Some(params)` at its id only, sends nothing, and afterwards that id's channels can be followed at `rx_freq(params, number)` |
| `TrunkingProperties.IgnoredMessages` | src/recv.rs:122-139 | `Error`, `LinkControl`, `LowSpeedDataFragment` (and `VoiceTerm`, line 177) are no-ops |
| `TrunkingProperties.VoiceFrameForwarded` | src/recv.rs:140-143 | a voice frame is only forwarded to audio |
| `TrunkingProperties.TerminatorReturnsToControl` | src/recv.rs:124-134 | a voice-ended terminator sends exactly `[UiSetFreq(cf), SdrSetFreq(cf), AudioEndTransmission, DecoderResync]` and changes nothing; other data units are no-ops |
| `TrunkingProperties.TalkgroupKeptWhenParked` | src/recv.rs:88-90 | returning to control keeps the last followed talkgroup |
| `TrunkingProperties.CryptoBlacklistsCurrent` | src/recv.rs:181-192 | encryption in a voice header or crypto-control packet while following `Other(x)` sends the receiver to control with a resync and adds x; the table is untouched |
| `TrunkingProperties.CryptoWithoutGroup` | src/recv.rs:186-191 | with a non-concrete talkgroup (`Default`, `Nobody`, `Everybody`), encryption only returns to control and resyncs |
| `TrunkingProperties.UnencryptedIgnored` | src/recv.rs:182-184 | an unencrypted algorithm field is a no-op |
| `TrunkingProperties.RetuneThenResync` | src/recv.rs:124-169 | a message retunes the tuner iff its notifications end with a decoder resync, and each tuner retune follows the UI retune to the same frequency |
| `TrunkingProperties.TalkgroupChangeAnnounced` | src/recv.rs:206-209 | the talkgroup changes only through a trunking block, and the UI is then told the new talkgroup |
| `TrunkingProperties.EncryptedOnlyWhenCurrent` | src/recv.rs:189-190 | a group enters the encrypted set only if it was current when an encrypted algorithm was seen in a header or crypto-control packet |
| `TrunkingProperties.EncryptedNeverRetried` | src/recv.rs:195-199 | a group once in the encrypted set is refused on every channel after any further events |
| `TrunkingProperties.ControlFreqOnlyByCommand` | src/recv.rs:109 | events that contain no control-frequency command never change the control frequency |
| `TrunkingProperties.ControlFreqTakesEffectOnReturn` | src/recv.rs:88-90 | a control-frequency command sends nothing and changes nothing else; the next voice-ended terminator retunes to the new frequency |
| `TrunkingProperties.MessageNeverCallsExtra` | src/recv.rs:122-178 | handling a message never involves the extra sink |
| `TrunkingProperties.BatchNeverCallsExtra` | src/recv.rs:103-105 | handling a batch's samples never involves the extra sink |
| `TrunkingProperties.ExtraCalledOnceAfterBatch` | src/recv.rs:102-107 | for a batch, the extra sink is called exactly once, as the last action, with the batch length |

## Left out

- The P25 decoder (`MessageReceiver::feed`, `recv.resync()` internals): it is a foreign
  library. Its output is given per sample, and resync is only recorded. The model therefore
  does not capture how a resync changes what later samples decode to.
- Payload decoding (`GroupTrafficUpdate`, `ChannelParamsUpdate`, `crc_valid`, `opcode`) and
  `ChannelParams::rx_freq`: these are foreign. They appear as given fields and as an
  uninterpreted function value.
- The mpsc channels, the blocking `recv`, and the `.expect(...)` panics when a send or receive
  fails: that failure is process-fatal I/O. `Run` covers a finite prefix of the unbounded loop.
- `WriteSamples::handle_samples` and the samples themselves: these are `f32` data written to
  an I/O stream. The extra sink is recorded only as the call `ExtraSamples(n)`, with the batch
  length, and `NopExtra` is that call doing nothing.
- The `Checkout` buffer pool: it is resource management only.
- src/consts.rs: it holds only constants (buffer count and sizes, sample rates) that the
  decision logic does not use.
- `TalkGroup`: the variants `Nobody` and `Everybody` are taken from the P25 library's type,
  which is not part of this model; the receiver only ever distinguishes concrete groups
  (`Other`) from the rest, and stores and announces whichever variant a grant carries.
/**
 * The receiver's decision logic as pure functions over its abstract state: each function
 * gives the state after one step and the notifications the step sends, in order.
 * The imperative receiver in module Recv is proved to follow these functions exactly.
 */
module Trunking {
  import opened Wrappers
  import opened Fields
  import opened Events

  /** The receiver's session state: control frequency, followed talkgroup, table, encrypted groups. */
  datatype Session = Session(
    controlFreq: U32,
    curTalkgroup: TalkGroup,
    channels: seq<Option<ChannelParams>>,
    encrypted: set<U16>)
  {
    /** The table keeps its fixed size. */
    predicate Valid() { |channels| == CHANNEL_COUNT }
  }

  /**
   * What can only grow from `s` to `t`: the encrypted set, and the set of known table
   * entries (an entry may be overwritten but is never removed).
   */
  ghost predicate Evolves(s: Session, t: Session)
  {
    && s.encrypted <= t.encrypted
    && |s.channels| == |t.channels|
    && (forall i :: 0 <= i < |s.channels| && s.channels[i].Some? ==> t.channels[i].Some?)
  }

  /** The state after a step and what the step sent. */
  datatype Step = Step(next: Session, out: seq<Out>)

  /** The outcome of an attempt to follow a talkgroup. */
  datatype Attempt = Attempt(ok: bool, step: Step)

  /** The state of a freshly constructed receiver. */
  function Initial(): (s: Session)
  {
    Session(0, Default, seq(CHANNEL_COUNT, _ => None), {})
  }

  /** A step that changes nothing and sends nothing. */
  function Stay(s: Session): Step
  {
    Step(s, [])
  }

  /** Retune: tell the UI, then the tuner. */
  function Retune(freq: U32): seq<Out>
  {
    [UiSetFreq(freq), SdrSetFreq(freq)]
  }

  /** Return to the control channel last set. */
  function ReturnToControl(s: Session): seq<Out>
  {
    Retune(s.controlFreq)
  }

  /** Follow a talkgroup on a channel, unless it is known encrypted or the channel is unknown. */
  function FollowStep(s: Session, rx: RxFreq, tg: TalkGroup, ch: Channel): Attempt
    requires s.Valid()
  {
    if tg.Other? && tg.id in s.encrypted then
      Attempt(false, Stay(s))
    else
      match s.channels[ch.id]
      case None => Attempt(false, Stay(s))
      case Some(p) =>
        Attempt(true, Step(s.(curTalkgroup := tg), Retune(rx(p, ch.number)) + [UiSetTalkGroup(tg)]))
  }

  /** React to a crypto algorithm field: any algorithm but Unencrypted sends the receiver home. */
  function CryptoStep(s: Session, alg: CryptoAlgorithm): Step
  {
    if alg.Unencrypted? then
      Stay(s)
    else
      var encrypted := if s.curTalkgroup.Other? then s.encrypted + {s.curTalkgroup.id} else s.encrypted;
      Step(s.(encrypted := encrypted), ReturnToControl(s) + [DecoderResync])
  }

  /**
   * Scan a group voice update's grants in order and follow the first one that can be followed.
   * Whatever happens, the scan changes no part of the state but the followed talkgroup.
   */
  function ScanStep(s: Session, rx: RxFreq, grants: seq<Grant>): (r: Step)
    requires s.Valid()
    ensures r.next == s.(curTalkgroup := r.next.curTalkgroup)
    decreases |grants|
  {
    if grants == [] then
      Stay(s)
    else
      var a := FollowStep(s, rx, grants[0].talkgroup, grants[0].channel);
      if a.ok then Step(a.step.next, a.step.out + [DecoderResync])
      else ScanStep(s, rx, grants[1..])
  }

  /** A trunking block: rejected by manufacturer, then CRC, then opcode; otherwise acted on. */
  function TsbkStep(s: Session, rx: RxFreq, t: Tsbk): Step
    requires s.Valid()
  {
    if t.mfg != 0 then Stay(s)
    else if !t.crcValid then Stay(s)
    else
      match t.opcode
      case None => Stay(s)
      case Some(GroupVoiceUpdate) => ScanStep(s, rx, t.payload.grants)
      case Some(ChannelParamsUpdate) =>
        Step(s.(channels := s.channels[t.payload.paramsId := Some(t.payload.params)]), [])
      case Some(OtherOpcode(_)) => Stay(s)
  }

  /** True of the two terminators that end a voice transmission. */
  predicate EndsVoice(du: DataUnit)
  {
    du == VoiceLCTerminator || du == VoiceSimpleTerminator
  }

  /** Route one decoded message: it keeps the control frequency and only lets the state grow. */
  function MessageStep(s: Session, rx: RxFreq, m: MessageEvent): (r: Step)
    requires s.Valid()
    ensures r.next.Valid() && Evolves(s, r.next)
    ensures r.next.controlFreq == s.controlFreq
  {
    match m
    case Error => Stay(s)
    case PacketNid(du) =>
      if EndsVoice(du) then Step(s, ReturnToControl(s) + [AudioEndTransmission, DecoderResync])
      else Stay(s)
    case VoiceHeaderPacket(alg) => CryptoStep(s, alg)
    case LinkControl => Stay(s)
    case CryptoControl(alg) => CryptoStep(s, alg)
    case LowSpeedDataFragment => Stay(s)
    case VoiceFramePacket(vf) => Step(s, [AudioVoiceFrame(vf)])
    case TrunkingControl(t) => TsbkStep(s, rx, t)
    case VoiceTerm => Stay(s)
  }

  /** One sample: only a sample that completes a message has an effect. */
  function SampleStep(s: Session, rx: RxFreq, decoded: Option<MessageEvent>): (r: Step)
    requires s.Valid()
    ensures r.next.Valid() && Evolves(s, r.next)
    ensures r.next.controlFreq == s.controlFreq
    ensures decoded.None? ==> r == Stay(s)
  {
    match decoded
    case None => Stay(s)
    case Some(m) => MessageStep(s, rx, m)
  }

  /** Samples of a batch, handled in order: they keep the control frequency and only let the state grow. */
  function BatchStep(s: Session, rx: RxFreq, samples: seq<Option<MessageEvent>>): (r: Step)
    requires s.Valid()
    ensures r.next.Valid() && Evolves(s, r.next)
    ensures r.next.controlFreq == s.controlFreq
    decreases |samples|
  {
    if samples == [] then
      Stay(s)
    else
      var before := BatchStep(s, rx, samples[..|samples| - 1]);
      var last := samples[|samples| - 1];
      var t := SampleStep(before.next, rx, last);
      Step(t.next, before.out + t.out)
  }

  /** One inbound event: a batch is decoded sample by sample and then shown to the extra sink. */
  function EventStep(s: Session, rx: RxFreq, e: ReceiverEvent): Step
    requires s.Valid()
  {
    match e
    case Baseband(samples) =>
      var b := BatchStep(s, rx, samples);
      Step(b.next, b.out + [ExtraSamples(|samples|)])
    case SetControlFreq(f) => Stay(s.(controlFreq := f))
  }

  /**
   * A sequence of inbound events, handled in order. Across any such sequence the encrypted
   * set only grows and a known table entry stays known.
   */
  function RunStep(s: Session, rx: RxFreq, events: seq<ReceiverEvent>): (r: Step)
    requires s.Valid()
    ensures r.next.Valid() && Evolves(s, r.next)
    decreases |events|
  {
    if events == [] then
      Stay(s)
    else
      var before := RunStep(s, rx, events[..|events| - 1]);
      var t := EventStep(before.next, rx, events[|events| - 1]);
      Step(t.next, before.out + t.out)
  }
}

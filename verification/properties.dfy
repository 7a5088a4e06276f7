/**
 * Properties of the receiver's decision logic: the first-match scan of group voice updates,
 * the encrypted-talkgroup blacklist, the validation of trunking blocks, return to control,
 * retune-then-resync, and what a whole run of events can and cannot change.
 */
module TrunkingProperties {
  import opened Wrappers
  import opened Fields
  import opened Events
  import opened Trunking

  // ----- Following one talkgroup -----

  /** A known-encrypted talkgroup is refused on every channel, with nothing changed or sent. */
  lemma FollowRefusesEncrypted(s: Session, rx: RxFreq, x: U16, ch: Channel)
    requires s.Valid() && x in s.encrypted
    ensures FollowStep(s, rx, Other(x), ch) == Attempt(false, Stay(s))
  {
  }

  /**
   * The table lookup decides the rest: an absent entry refuses, a present one follows
   * at the frequency the entry gives for the channel number.
   */
  lemma FollowByTable(s: Session, rx: RxFreq, tg: TalkGroup, ch: Channel)
    requires s.Valid() && !(tg.Other? && tg.id in s.encrypted)
    ensures s.channels[ch.id].None? ==> FollowStep(s, rx, tg, ch) == Attempt(false, Stay(s))
    ensures s.channels[ch.id].Some? ==>
      var f := rx(s.channels[ch.id].value, ch.number);
      FollowStep(s, rx, tg, ch)
        == Attempt(true, Step(s.(curTalkgroup := tg), [UiSetFreq(f), SdrSetFreq(f), UiSetTalkGroup(tg)]))
  {
  }

  // ----- Group voice update: first match -----

  /**
   * If grant `k` is the first that can be followed, the scan follows it, sends one resync
   * after it, and does not look at any later grant.
   */
  lemma {:induction false} ScanFollowsFirst(s: Session, rx: RxFreq, grants: seq<Grant>, k: nat)
    requires s.Valid() && k < |grants|
    requires forall j :: 0 <= j < k ==> !FollowStep(s, rx, grants[j].talkgroup, grants[j].channel).ok
    requires FollowStep(s, rx, grants[k].talkgroup, grants[k].channel).ok
    ensures var a := FollowStep(s, rx, grants[k].talkgroup, grants[k].channel);
            ScanStep(s, rx, grants) == Step(a.step.next, a.step.out + [DecoderResync])
    ensures ScanStep(s, rx, grants) == ScanStep(s, rx, grants[..k + 1])
    decreases k
  {
    if k > 0 {
      assert grants[1..][..k] == grants[1..k + 1];
      assert grants[..k + 1][1..] == grants[1..k + 1];
      assert grants[..k + 1][0] == grants[0];
      ScanFollowsFirst(s, rx, grants[1..], k - 1);
    }
  }

  /** If no grant can be followed, the scan changes nothing and sends nothing. */
  lemma {:induction false} ScanNoneFollowable(s: Session, rx: RxFreq, grants: seq<Grant>)
    requires s.Valid()
    requires forall j :: 0 <= j < |grants| ==> !FollowStep(s, rx, grants[j].talkgroup, grants[j].channel).ok
    ensures ScanStep(s, rx, grants) == Stay(s)
    decreases |grants|
  {
    if grants != [] {
      ScanNoneFollowable(s, rx, grants[1..]);
    }
  }

  /**
   * The scan either does nothing, or retunes once (UI before tuner), announces the talkgroup
   * it now follows, and resyncs the decoder.
   */
  lemma {:induction false} ScanOutput(s: Session, rx: RxFreq, grants: seq<Grant>)
    requires s.Valid()
    ensures var r := ScanStep(s, rx, grants);
            r.out == [] ||
            (|r.out| == 4 && r.out[0].UiSetFreq? && r.out[1] == SdrSetFreq(r.out[0].uiFreq)
             && r.out[2] == UiSetTalkGroup(r.next.curTalkgroup) && r.out[3] == DecoderResync)
    ensures ScanStep(s, rx, grants).out == [] ==> ScanStep(s, rx, grants) == Stay(s)
    decreases |grants|
  {
    if grants != [] && !FollowStep(s, rx, grants[0].talkgroup, grants[0].channel).ok {
      ScanOutput(s, rx, grants[1..]);
    }
  }

  /**
   * A grant on an unknown channel is skipped, and the next one, on a known channel with a
   * talkgroup not known encrypted, is followed; nothing after it is considered.
   */
  lemma SkipsUnknownChannel(s: Session, rx: RxFreq, chA: Channel, g1: TalkGroup,
                            chB: Channel, g2: TalkGroup, rest: seq<Grant>)
    requires s.Valid()
    requires s.channels[chA.id].None? && s.channels[chB.id].Some?
    requires !(g2.Other? && g2.id in s.encrypted)
    ensures var f := rx(s.channels[chB.id].value, chB.number);
            ScanStep(s, rx, [Grant(chA, g1), Grant(chB, g2)] + rest)
              == Step(s.(curTalkgroup := g2), [UiSetFreq(f), SdrSetFreq(f), UiSetTalkGroup(g2), DecoderResync])
  {
    ScanFollowsFirst(s, rx, [Grant(chA, g1), Grant(chB, g2)] + rest, 1);
  }

  // ----- Trunking blocks -----

  /**
   * A block from another manufacturer, with a bad CRC or with an unrecognised opcode
   * changes nothing and sends nothing, whatever its payload says.
   */
  lemma TsbkRejected(s: Session, rx: RxFreq, t: Tsbk)
    requires s.Valid()
    requires t.mfg != 0 || !t.crcValid || t.opcode.None?
    ensures MessageStep(s, rx, TrunkingControl(t)) == Stay(s)
  {
  }

  /** Opcodes other than the two handled are ignored. */
  lemma OtherOpcodeIgnored(s: Session, rx: RxFreq, t: Tsbk)
    requires s.Valid()
    requires t.opcode.Some? && t.opcode.value.OtherOpcode?
    ensures MessageStep(s, rx, TrunkingControl(t)) == Stay(s)
  {
  }

  /**
   * A valid channel-parameters update writes its entry and no other, sends nothing, and
   * from then on that entry gives the frequency of every channel with its identifier.
   */
  lemma ParamsUpdateWritesOne(s: Session, rx: RxFreq, t: Tsbk, tg: TalkGroup, number: ChannelNumber)
    requires s.Valid()
    requires t.mfg == 0 && t.crcValid && t.opcode == Some(ChannelParamsUpdate)
    requires !(tg.Other? && tg.id in s.encrypted)
    ensures var r := MessageStep(s, rx, TrunkingControl(t));
            && r.out == []
            && r.next == s.(channels := r.next.channels)
            && r.next.channels[t.payload.paramsId] == Some(t.payload.params)
            && (forall i :: 0 <= i < CHANNEL_COUNT && i != t.payload.paramsId ==> r.next.channels[i] == s.channels[i])
            && FollowStep(r.next, rx, tg, Channel(t.payload.paramsId, number)).ok
            && FollowStep(r.next, rx, tg, Channel(t.payload.paramsId, number)).step.out[1]
                 == SdrSetFreq(rx(t.payload.params, number))
  {
  }

  // ----- Other messages -----

  /** Error, link-control, low-speed-data and voice-terminator events are ignored. */
  lemma IgnoredMessages(s: Session, rx: RxFreq, m: MessageEvent)
    requires s.Valid()
    requires m.Error? || m.LinkControl? || m.LowSpeedDataFragment? || m.VoiceTerm?
    ensures MessageStep(s, rx, m) == Stay(s)
  {
  }

  /** A voice frame only goes to the audio subsystem. */
  lemma VoiceFrameForwarded(s: Session, rx: RxFreq, vf: VoiceFrame)
    requires s.Valid()
    ensures MessageStep(s, rx, VoiceFramePacket(vf)) == Step(s, [AudioVoiceFrame(vf)])
  {
  }

  /**
   * A voice-ended terminator returns to control and ends the transmission once, whatever the
   * state; it leaves the talkgroup, the table and the encrypted set alone. Other data units do nothing.
   */
  lemma TerminatorReturnsToControl(s: Session, rx: RxFreq, du: DataUnit)
    requires s.Valid()
    ensures EndsVoice(du) ==>
      MessageStep(s, rx, PacketNid(du))
        == Step(s, [UiSetFreq(s.controlFreq), SdrSetFreq(s.controlFreq), AudioEndTransmission, DecoderResync])
    ensures !EndsVoice(du) ==> MessageStep(s, rx, PacketNid(du)) == Stay(s)
  {
  }

  /**
   * Returning to control does not reset the followed talkgroup: the receiver is parked on
   * the control channel while still recording the last group it followed.
   */
  lemma TalkgroupKeptWhenParked(s: Session, rx: RxFreq, x: U16, du: DataUnit)
    requires s.Valid() && s.curTalkgroup == Other(x) && EndsVoice(du)
    ensures MessageStep(s, rx, PacketNid(du)).next.curTalkgroup == Other(x)
    ensures MessageStep(s, rx, PacketNid(du)).out[1] == SdrSetFreq(s.controlFreq)
  {
  }

  /**
   * Encryption seen (in a voice header or a crypto-control packet) while following a concrete
   * group: back to control, resync, and the group is blacklisted; the table is untouched.
   */
  lemma CryptoBlacklistsCurrent(s: Session, rx: RxFreq, m: MessageEvent, x: U16)
    requires s.Valid() && s.curTalkgroup == Other(x)
    requires (m.VoiceHeaderPacket? && !m.headerAlg.Unencrypted?) || (m.CryptoControl? && !m.ccAlg.Unencrypted?)
    ensures MessageStep(s, rx, m)
      == Step(s.(encrypted := s.encrypted + {x}),
              [UiSetFreq(s.controlFreq), SdrSetFreq(s.controlFreq), DecoderResync])
  {
  }

  /** With no concrete group followed, encryption only sends the receiver home. */
  lemma CryptoWithoutGroup(s: Session, alg: CryptoAlgorithm)
    requires !s.curTalkgroup.Other? && !alg.Unencrypted?
    ensures CryptoStep(s, alg) == Step(s, [UiSetFreq(s.controlFreq), SdrSetFreq(s.controlFreq), DecoderResync])
  {
  }

  /** An unencrypted algorithm field is ignored. */
  lemma UnencryptedIgnored(s: Session)
    ensures CryptoStep(s, Unencrypted) == Stay(s)
  {
  }

  // ----- What one message can do -----

  /**
   * A message retunes the tuner exactly when its handling ends with a decoder resync,
   * and each tuner retune comes right after the UI is told the same frequency.
   */
  lemma RetuneThenResync(s: Session, rx: RxFreq, m: MessageEvent)
    requires s.Valid()
    ensures var out := MessageStep(s, rx, m).out;
            (exists i :: 0 <= i < |out| && out[i].SdrSetFreq?)
              <==> (|out| > 0 && out[|out| - 1] == DecoderResync)
    ensures var out := MessageStep(s, rx, m).out;
            forall i :: 0 <= i < |out| && out[i].SdrSetFreq? ==> 0 < i && out[i - 1] == UiSetFreq(out[i].sdrFreq)
  {
    if m.TrunkingControl? {
      ScanOutput(s, rx, m.tsbk.payload.grants);
    }
    var out := MessageStep(s, rx, m).out;
    if |out| > 0 && out[|out| - 1] == DecoderResync {
      assert out[1].SdrSetFreq?;
    }
  }

  /**
   * A message changes the followed talkgroup only by following a grant, and then the UI is
   * told the new talkgroup.
   */
  lemma TalkgroupChangeAnnounced(s: Session, rx: RxFreq, m: MessageEvent)
    requires s.Valid()
    ensures var r := MessageStep(s, rx, m);
            r.next.curTalkgroup != s.curTalkgroup ==>
              m.TrunkingControl? && UiSetTalkGroup(r.next.curTalkgroup) in r.out
  {
    if m.TrunkingControl? {
      ScanOutput(s, rx, m.tsbk.payload.grants);
    }
  }

  /**
   * A talkgroup enters the encrypted set only when it was the current group as an
   * encrypted algorithm was seen.
   */
  lemma EncryptedOnlyWhenCurrent(s: Session, rx: RxFreq, m: MessageEvent, x: U16)
    requires s.Valid()
    requires x in MessageStep(s, rx, m).next.encrypted && x !in s.encrypted
    ensures s.curTalkgroup == Other(x)
    ensures (m.VoiceHeaderPacket? && !m.headerAlg.Unencrypted?) || (m.CryptoControl? && !m.ccAlg.Unencrypted?)
  {
  }

  // ----- Whole runs -----

  /** A group once found encrypted is never followed again, on any channel, after any events. */
  lemma EncryptedNeverRetried(s: Session, rx: RxFreq, events: seq<ReceiverEvent>, x: U16, ch: Channel)
    requires s.Valid() && x in s.encrypted
    ensures var t := RunStep(s, rx, events).next;
            FollowStep(t, rx, Other(x), ch) == Attempt(false, Stay(t))
  {
  }

  /** Without a control-frequency command, the control frequency never changes. */
  lemma {:induction false} ControlFreqOnlyByCommand(s: Session, rx: RxFreq, events: seq<ReceiverEvent>)
    requires s.Valid()
    requires forall k :: 0 <= k < |events| ==> events[k].Baseband?
    ensures RunStep(s, rx, events).next.controlFreq == s.controlFreq
    decreases |events|
  {
    if events != [] {
      var init := events[..|events| - 1];
      ControlFreqOnlyByCommand(s, rx, init);
    }
  }

  /**
   * A control-frequency command sends nothing and changes nothing else; the new frequency
   * is the one the next voice-ended terminator retunes to.
   */
  lemma ControlFreqTakesEffectOnReturn(s: Session, rx: RxFreq, f: U32, du: DataUnit)
    requires s.Valid() && EndsVoice(du)
    ensures EventStep(s, rx, SetControlFreq(f)) == Step(s.(controlFreq := f), [])
    ensures MessageStep(EventStep(s, rx, SetControlFreq(f)).next, rx, PacketNid(du)).out[..2]
      == [UiSetFreq(f), SdrSetFreq(f)]
  {
  }

  /** Handling a message never calls the extra sink. */
  lemma MessageNeverCallsExtra(s: Session, rx: RxFreq, m: MessageEvent)
    requires s.Valid()
    ensures forall i :: 0 <= i < |MessageStep(s, rx, m).out| ==> !MessageStep(s, rx, m).out[i].ExtraSamples?
  {
    if m.TrunkingControl? {
      ScanOutput(s, rx, m.tsbk.payload.grants);
    }
  }

  /** Handling a batch's samples never calls the extra sink. */
  lemma {:induction false} BatchNeverCallsExtra(s: Session, rx: RxFreq, samples: seq<Option<MessageEvent>>)
    requires s.Valid()
    ensures forall i :: 0 <= i < |BatchStep(s, rx, samples).out| ==> !BatchStep(s, rx, samples).out[i].ExtraSamples?
    decreases |samples|
  {
    if samples != [] {
      var init := samples[..|samples| - 1];
      BatchNeverCallsExtra(s, rx, init);
      var last := samples[|samples| - 1];
      if last.Some? {
        MessageNeverCallsExtra(BatchStep(s, rx, init).next, rx, last.value);
      }
    }
  }

  /** The extra sink sees a batch exactly once, after all its samples were handled. */
  lemma ExtraCalledOnceAfterBatch(s: Session, rx: RxFreq, samples: seq<Option<MessageEvent>>)
    requires s.Valid()
    ensures var out := EventStep(s, rx, Baseband(samples)).out;
            && |out| > 0 && out[|out| - 1] == ExtraSamples(|samples|)
            && (forall i :: 0 <= i < |out| - 1 ==> !out[i].ExtraSamples?)
  {
    BatchNeverCallsExtra(s, rx, samples);
  }
}

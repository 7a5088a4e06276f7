/**
 * The P25 trunking receiver (`P25Receiver` of recv.rs): its session state lives in fields
 * that its methods update in place, and every notification it sends to the UI, the tuner,
 * the audio subsystem, the decoder (resync) or the extra sample sink is appended to `trace`.
 * Each method is proved to do exactly what the matching step function of module Trunking says.
 */
module Recv {
  import opened Wrappers
  import opened Fields
  import opened Events
  import opened Trunking

  class P25Receiver {
    var controlFreq: U32
    var curTalkgroup: TalkGroup
    /** The channel-parameter table, written in place; entries start absent. */
    const channels: array<Option<ChannelParams>>
    /** Talkgroups seen carrying encrypted voice; never followed again. */
    var encrypted: set<U16>
    /** Every outbound notification, in the order it was sent. */
    var trace: seq<Out>
    /** The decoder library's frequency computation for a table entry and a channel number. */
    const rxFreq: RxFreq

    predicate Valid()
    {
      channels.Length == CHANNEL_COUNT
    }

    /** The session state as the step functions of module Trunking see it. */
    ghost function Model(): (s: Session)
      reads this, channels
      ensures Valid() ==> s.Valid()
    {
      Session(controlFreq, curTalkgroup, channels[..], encrypted)
    }

    /** A fresh receiver: control frequency 0, no talkgroup, empty table and set, nothing sent. */
    constructor (rxFreq: RxFreq)
      ensures Valid() && fresh(channels) && this.rxFreq == rxFreq
      ensures controlFreq == 0 && curTalkgroup == Default && encrypted == {}
      ensures forall i :: 0 <= i < channels.Length ==> channels[i] == None
      ensures trace == []
      ensures Model() == Initial()
    {
      controlFreq := 0;
      channels := new Option<ChannelParams>[CHANNEL_COUNT](_ => None);
      curTalkgroup := Default;
      encrypted := {};
      trace := [];
      this.rxFreq := rxFreq;
      new;
      assert channels[..] == seq(CHANNEL_COUNT, _ => None);
    }

    /** Tell the UI and then the tuner to go to `freq`. */
    method SetFreq(freq: U32)
      modifies this`trace
      ensures trace == old(trace) + [UiSetFreq(freq), SdrSetFreq(freq)]
    {
      trace := trace + [UiSetFreq(freq)];
      trace := trace + [SdrSetFreq(freq)];
    }

    /** Retune to the control frequency last set. */
    method SwitchControl()
      modifies this`trace
      ensures trace == old(trace) + [UiSetFreq(controlFreq), SdrSetFreq(controlFreq)]
    {
      SetFreq(controlFreq);
    }

    /** Ask the decoder to resynchronise (its internals are not modelled). */
    method Resync()
      modifies this`trace
      ensures trace == old(trace) + [DecoderResync]
    {
      trace := trace + [DecoderResync];
    }

    /**
     * The control-frequency command of the event loop: only the stored frequency changes,
     * so a new control frequency is used at the next return to control and not before.
     */
    method SetControlFreq(freq: U32)
      requires Valid()
      modifies this`controlFreq
      ensures controlFreq == freq
      ensures Model() == EventStep(old(Model()), rxFreq, ReceiverEvent.SetControlFreq(freq)).next
      ensures EventStep(old(Model()), rxFreq, ReceiverEvent.SetControlFreq(freq)).out == []
    {
      controlFreq := freq;
    }

    /** The receive frequency of a channel, if its table entry is known. */
    method RxFrequency(ch: Channel) returns (freq: Option<U32>)
      requires Valid()
      ensures freq.Some? <==> channels[ch.id].Some?
      ensures freq.Some? ==> freq.value == rxFreq(channels[ch.id].value, ch.number)
    {
      match channels[ch.id]
      case Some(p) => freq := Some(rxFreq(p, ch.number));
      case None => freq := None;
    }

    /**
     * Follow `tg` on `ch`: refused, with nothing changed or sent, when `tg` is known encrypted
     * (whatever the channel) or when the channel's table entry is absent; otherwise the
     * receiver switches to `tg` (whichever group it followed before) and retunes.
     */
    method UseTalkgroup(tg: TalkGroup, ch: Channel) returns (ok: bool)
      requires Valid()
      modifies this`curTalkgroup, this`trace
      ensures ok <==> !(tg.Other? && tg.id in encrypted) && channels[ch.id].Some?
      ensures !ok ==> curTalkgroup == old(curTalkgroup) && trace == old(trace)
      ensures ok ==> curTalkgroup == tg
      ensures ok ==> var f := rxFreq(channels[ch.id].value, ch.number);
                     trace == old(trace) + [UiSetFreq(f), SdrSetFreq(f), UiSetTalkGroup(tg)]
      ensures ok == FollowStep(old(Model()), rxFreq, tg, ch).ok
      ensures Model() == FollowStep(old(Model()), rxFreq, tg, ch).step.next
      ensures trace == old(trace) + FollowStep(old(Model()), rxFreq, tg, ch).step.out
    {
      if tg.Other? {
        if tg.id in encrypted {
          return false;
        }
      }

      var freq := RxFrequency(ch);
      if freq.None? {
        return false;
      }

      curTalkgroup := tg;

      SetFreq(freq.value);
      trace := trace + [UiSetTalkGroup(tg)];

      ok := true;
    }

    /**
     * React to a crypto algorithm field. Unencrypted: nothing. Otherwise return to control,
     * resync, and remember the current talkgroup as encrypted if it is a concrete group.
     */
    method HandleCrypto(alg: CryptoAlgorithm)
      requires Valid()
      modifies this`encrypted, this`trace
      ensures alg.Unencrypted? ==> encrypted == old(encrypted) && trace == old(trace)
      ensures !alg.Unencrypted? ==>
        trace == old(trace) + [UiSetFreq(controlFreq), SdrSetFreq(controlFreq), DecoderResync]
      ensures !alg.Unencrypted? ==>
        encrypted == if curTalkgroup.Other? then old(encrypted) + {curTalkgroup.id} else old(encrypted)
      ensures Model() == CryptoStep(old(Model()), alg).next
      ensures trace == old(trace) + CryptoStep(old(Model()), alg).out
    {
      if alg.Unencrypted? {
        return;
      }

      SwitchControl();
      Resync();

      if curTalkgroup.Other? {
        encrypted := encrypted + {curTalkgroup.id};
      }
    }

    /** Handle what the decoder made of one sample. */
    method HandleSample(decoded: Option<MessageEvent>)
      requires Valid()
      modifies this, channels
      ensures controlFreq == old(controlFreq)
      ensures Model() == SampleStep(old(Model()), rxFreq, decoded).next
      ensures trace == old(trace) + SampleStep(old(Model()), rxFreq, decoded).out
    {
      if decoded.None? {
        return;
      }

      match decoded.value
      case Error =>
      case PacketNid(du) =>
        if du == VoiceLCTerminator || du == VoiceSimpleTerminator {
          SwitchControl();
          trace := trace + [AudioEndTransmission];
          Resync();
        }
      case VoiceHeaderPacket(alg) => HandleCrypto(alg);
      case LinkControl =>
      case CryptoControl(alg) => HandleCrypto(alg);
      case LowSpeedDataFragment =>
      case VoiceFramePacket(vf) =>
        trace := trace + [AudioVoiceFrame(vf)];
      case TrunkingControl(tsbk) =>
        if tsbk.mfg != 0 {
          return;
        }

        if !tsbk.crcValid {
          return;
        }

        var opcode;
        match tsbk.opcode {
          case Some(o) => opcode := o;
          case None => return;
        }

        match opcode {
          case GroupVoiceUpdate =>
            var updates := tsbk.payload.grants;
            ghost var s0, t0 := Model(), trace;
            for i := 0 to |updates|
              invariant Model() == s0 && trace == t0
              invariant ScanStep(s0, rxFreq, updates) == ScanStep(s0, rxFreq, updates[i..])
            {
              var ok := UseTalkgroup(updates[i].talkgroup, updates[i].channel);
              if ok {
                Resync();
                break;
              }
              assert updates[i..][1..] == updates[i + 1..];
            }
          case ChannelParamsUpdate =>
            channels[tsbk.payload.paramsId] := Some(tsbk.payload.params);
          case OtherOpcode(_) =>
        }
      case VoiceTerm =>
    }

    /**
     * One inbound event of the loop: a batch's samples are handled in order and then the
     * whole batch goes to the extra sink, once; a command changes the control frequency.
     */
    method HandleEvent(e: ReceiverEvent)
      requires Valid()
      modifies this, channels
      ensures Model() == EventStep(old(Model()), rxFreq, e).next
      ensures trace == old(trace) + EventStep(old(Model()), rxFreq, e).out
    {
      match e
      case Baseband(samples) =>
        ghost var s0, t0 := Model(), trace;
        for j := 0 to |samples|
          invariant Model() == BatchStep(s0, rxFreq, samples[..j]).next
          invariant trace == t0 + BatchStep(s0, rxFreq, samples[..j]).out
        {
          assert samples[..j + 1][..j] == samples[..j];
          HandleSample(samples[j]);
        }
        assert samples[..|samples|] == samples;
        // the extra sink sees the whole batch, once
        trace := trace + [ExtraSamples(|samples|)];
      case SetControlFreq(freq) =>
        SetControlFreq(freq);
    }

    /** The event loop, over a finite sequence of inbound events handled in order. */
    method Run(events: seq<ReceiverEvent>)
      requires Valid()
      modifies this, channels
      ensures Model() == RunStep(old(Model()), rxFreq, events).next
      ensures trace == old(trace) + RunStep(old(Model()), rxFreq, events).out
    {
      ghost var s0, t0 := Model(), trace;
      for k := 0 to |events|
        invariant Model() == RunStep(s0, rxFreq, events[..k]).next
        invariant trace == t0 + RunStep(s0, rxFreq, events[..k]).out
      {
        assert events[..k + 1][..k] == events[..k];
        HandleEvent(events[k]);
      }
      assert events[..|events|] == events;
    }
  }
}

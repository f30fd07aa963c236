/**
 * The mediation engine: it takes one inbound MIDI event at a time, publishes
 * a Raw message for it and the typed messages it stands for, keeps the two
 * monitoring logs, and refreshes the port registry.
 */
module Mediation {
  import opened Wrappers
  import Midi = MidiEvents
  import opened Messages
  import opened Mappings
  import opened MonitorLog
  import opened Decoder
  import opened Knobs
  import Decimal

  /** The 1-based channel number. */
  function ChannelToInt(channel: Midi.Channel): (n: U8)
    ensures 1 <= n <= 16
  {
    match channel
    case Ch1 => 1
    case Ch2 => 2
    case Ch3 => 3
    case Ch4 => 4
    case Ch5 => 5
    case Ch6 => 6
    case Ch7 => 7
    case Ch8 => 8
    case Ch9 => 9
    case Ch10 => 10
    case Ch11 => 11
    case Ch12 => 12
    case Ch13 => 13
    case Ch14 => 14
    case Ch15 => 15
    case Ch16 => 16
  }

  /** Distinct channels get distinct numbers. */
  lemma ChannelToIntInjective(a: Midi.Channel, b: Midi.Channel)
    ensures ChannelToInt(a) == ChannelToInt(b) <==> a == b
  {
  }

  // ---------------------------------------------------------------------------
  // Classification of inbound events

  /** The label and value a recognised controller is published with. */
  function ControlOf(control: Midi.ControlChange): (r: Option<(ControllerLabel, MidiValue)>)
    ensures r.None? <==> control.OtherControl?
    ensures control.Undefined? ==> r == Some((Numbered(control.control), LowRes(control.value)))
    ensures r.Some? && !control.Undefined? ==> r.value.0.Special? && r.value.1 == HighRes(control.hiValue)
    ensures control.UndefinedHighRes? ==>
      r.value.0.name == "UndefinedHighRes-" + Decimal.DecimalString(control.control1) + "-" + Decimal.DecimalString(control.control2)
  {
    match control
    case Undefined(c, v) => Some((Numbered(c), LowRes(v)))
    case UndefinedHighRes(c1, c2, v) =>
      Some((Special("UndefinedHighRes-" + Decimal.DecimalString(c1) + "-" + Decimal.DecimalString(c2)), HighRes(v)))
    case ModWheel(v) => Some((Special("ModWheel"), HighRes(v)))
    case Breath(v) => Some((Special("Breath"), HighRes(v)))
    case Foot(v) => Some((Special("Foot"), HighRes(v)))
    case Portamento(v) => Some((Special("Portamento"), HighRes(v)))
    case DataEntry(v) => Some((Special("DataEntry"), HighRes(v)))
    case Volume(v) => Some((Special("Volume"), HighRes(v)))
    case Balance(v) => Some((Special("Balance"), HighRes(v)))
    case Pan(v) => Some((Special("Pan"), HighRes(v)))
    case Expression(v) => Some((Special("Expression"), HighRes(v)))
    case Effect1(v) => Some((Special("Effect1"), HighRes(v)))
    case Effect2(v) => Some((Special("Effect2"), HighRes(v)))
    case GeneralPurpose1(v) => Some((Special("GeneralPurpose1"), HighRes(v)))
    case GeneralPurpose2(v) => Some((Special("GeneralPurpose2"), HighRes(v)))
    case GeneralPurpose3(v) => Some((Special("GeneralPurpose3"), HighRes(v)))
    case GeneralPurpose4(v) => Some((Special("GeneralPurpose4"), HighRes(v)))
    case OtherControl(_) => None
  }

  /** A controller with a name of its own: neither 7-bit `Undefined`, nor `UndefinedHighRes`, nor unrecognised. */
  predicate IsNamed(control: Midi.ControlChange)
  {
    !control.Undefined? && !control.UndefinedHighRes? && !control.OtherControl?
  }

  /** The named controller a label name stands for, carrying the value `v`. */
  function NamedControl(name: string, v: Midi.U14): Option<Midi.ControlChange>
  {
    match name
    case "ModWheel" => Some(Midi.ModWheel(v))
    case "Breath" => Some(Midi.Breath(v))
    case "Foot" => Some(Midi.Foot(v))
    case "Portamento" => Some(Midi.Portamento(v))
    case "DataEntry" => Some(Midi.DataEntry(v))
    case "Volume" => Some(Midi.Volume(v))
    case "Balance" => Some(Midi.Balance(v))
    case "Pan" => Some(Midi.Pan(v))
    case "Expression" => Some(Midi.Expression(v))
    case "Effect1" => Some(Midi.Effect1(v))
    case "Effect2" => Some(Midi.Effect2(v))
    case "GeneralPurpose1" => Some(Midi.GeneralPurpose1(v))
    case "GeneralPurpose2" => Some(Midi.GeneralPurpose2(v))
    case "GeneralPurpose3" => Some(Midi.GeneralPurpose3(v))
    case "GeneralPurpose4" => Some(Midi.GeneralPurpose4(v))
    case _ => None
  }

  /** Reading a named controller's label back gives the controller, whatever value it is given. */
  lemma NamedControlRoundTrip(a: Midi.ControlChange, v: Midi.U14)
    requires IsNamed(a)
    ensures NamedControl(ControlOf(a).value.0.name, v) == Some(a.(hiValue := v))
    ensures NamedControl(ControlOf(a).value.0.name, a.hiValue) == Some(a)
  {
  }

  /** The label of a 14-bit controller does not depend on its value. */
  lemma LabelIgnoresValue(a: Midi.ControlChange, v: Midi.U14)
    requires !a.Undefined? && !a.OtherControl?
    ensures ControlOf(a.(hiValue := v)).value.0 == ControlOf(a).value.0
  {
  }

  /** Two `UndefinedHighRes` controllers share a label exactly when both controller numbers agree. */
  lemma HighResLabelsDistinct(a: Midi.ControlChange, b: Midi.ControlChange)
    requires a.UndefinedHighRes? && b.UndefinedHighRes?
    ensures ControlOf(a).value.0 == ControlOf(b).value.0 <==> a.control1 == b.control1 && a.control2 == b.control2
  {
    var prefix := "UndefinedHighRes-";
    var ta := Decimal.DecimalString(a.control1) + ['-'] + Decimal.DecimalString(a.control2);
    var tb := Decimal.DecimalString(b.control1) + ['-'] + Decimal.DecimalString(b.control2);
    assert ControlOf(a).value.0.name == prefix + ta;
    assert ControlOf(b).value.0.name == prefix + tb;
    if ControlOf(a).value.0 == ControlOf(b).value.0 {
      assert ta == (prefix + ta)[|prefix|..] == (prefix + tb)[|prefix|..] == tb;
      Decimal.SplitAtSeparator(Decimal.DecimalString(a.control1), Decimal.DecimalString(a.control2),
                               Decimal.DecimalString(b.control1), Decimal.DecimalString(b.control2), '-');
      Decimal.DecimalStringInjective(a.control1, b.control1);
      Decimal.DecimalStringInjective(a.control2, b.control2);
    }
  }

  /**
   * Two 14-bit controllers, at most one of them `UndefinedHighRes`, are
   * published under the same label exactly when they are the same kind of
   * controller.
   */
  lemma NamedLabelsDistinct(a: Midi.ControlChange, b: Midi.ControlChange)
    requires !a.Undefined? && !a.OtherControl? && !b.Undefined? && !b.OtherControl?
    requires !(a.UndefinedHighRes? && b.UndefinedHighRes?)
    ensures ControlOf(a).value.0 == ControlOf(b).value.0 <==> a.(hiValue := b.hiValue) == b
  {
    LabelIgnoresValue(a, b.hiValue);
    if a.UndefinedHighRes? {
      HighResLabelNotNamed(a, b);
    } else if b.UndefinedHighRes? {
      HighResLabelNotNamed(b, a);
    } else {
      NamedControlRoundTrip(a, b.hiValue);
      NamedControlRoundTrip(b, b.hiValue);
    }
  }

  /**
   * Two 14-bit controllers are published under the same label exactly when
   * they are the same kind of controller, with the same controller numbers
   * for `UndefinedHighRes`.
   */
  lemma ControlLabelsDistinct(a: Midi.ControlChange, b: Midi.ControlChange)
    requires !a.Undefined? && !a.OtherControl? && !b.Undefined? && !b.OtherControl?
    ensures ControlOf(a).value.0 == ControlOf(b).value.0 <==> a.(hiValue := b.hiValue) == b
  {
    if a.UndefinedHighRes? && b.UndefinedHighRes? {
      HighResLabelsDistinct(a, b);
    } else {
      NamedLabelsDistinct(a, b);
    }
  }

  /** The label of an `UndefinedHighRes` controller is longer than any name, so it never equals a named controller's. */
  lemma HighResLabelNotNamed(a: Midi.ControlChange, b: Midi.ControlChange)
    requires a.UndefinedHighRes? && IsNamed(b)
    ensures ControlOf(a).value.0 != ControlOf(b).value.0
  {
    assert |ControlOf(a).value.0.name| >= 19;
  }

  /** What an inbound event leads to beyond its Raw message. */
  datatype Action =
    | SendNote(on: bool, note: NotePayload)
    | SendControl(controller: ControllerLabel, value: MidiValue, channel: Midi.Channel)
    | Ignore

  function Classify(msg: Midi.MidiMsg): (a: Action)
    ensures a.SendNote? <==> msg.ChannelVoice? && (msg.msg.NoteOn? || msg.msg.NoteOff?)
    ensures a.SendNote? ==>
      a.on == msg.msg.NoteOn? && a.note == NotePayload(ChannelToInt(msg.channel), msg.msg.note, msg.msg.velocity)
    ensures a.SendControl? <==> msg.ChannelVoice? && msg.msg.ControlChange? && !msg.msg.control.OtherControl?
    ensures a.SendControl? ==> a.channel == msg.channel && ControlOf(msg.msg.control) == Some((a.controller, a.value))
    // Numbered controllers carry 7-bit LowRes values, named ones HighRes values
    ensures a.SendControl? ==> (a.controller.Numbered? <==> a.value.LowRes?)
    ensures a.SendControl? && a.value.LowRes? ==> a.value.low <= 127
  {
    match msg
    case ChannelVoice(channel, voice) =>
      (match voice
      case NoteOn(note, velocity) => SendNote(true, NotePayload(ChannelToInt(channel), note, velocity))
      case NoteOff(note, velocity) => SendNote(false, NotePayload(ChannelToInt(channel), note, velocity))
      case ControlChange(control) =>
        (match ControlOf(control)
         case Some((controller, value)) => SendControl(controller, value, channel)
         case None => Ignore)
      case OtherVoice(_) => Ignore)
    case OtherMidi(_) => Ignore
  }

  // ---------------------------------------------------------------------------
  // Messages sent for one control change and for one event

  /** The ControlChange message with the decoded value, then the Knob message if an entry matches. */
  function ControlChangeMessages(mode: ControllerValueMode, known: KnownValues, knobs: seq<KnobMapping>,
                                 controller: ControllerLabel, value: MidiValue, channel: Midi.Channel)
    : (r: seq<TetherMidiMessage>)
    ensures 1 <= |r| <= 2
    ensures r[0].ControlChange? && r[0].cc.channel == ChannelToInt(channel) && r[0].cc.controller == controller
    ensures r[0].cc.value == Decode(mode, known, controller, value).sent
    ensures mode == Absolute ==> r[0].cc.value == value
    ensures |r| == 2 <==> exists i :: 0 <= i < |knobs| && Matches(knobs[i], ChannelToInt(channel), controller)
    // the knob position is taken from the decoded value, not the raw one
    ensures |r| == 2 ==> r[1].Knob? && r[1].knob.position == PositionOf(r[0].cc.value)
    ensures |r| == 2 ==> exists i :: IsFirstMatch(knobs, ChannelToInt(channel), controller, i) && r[1].knob.index == i % 256
  {
    var channelNumber := ChannelToInt(channel);
    var sent := Decode(mode, known, controller, value).sent;
    [ControlChange(ControlChangePayload(channelNumber, controller, sent))] + KnobMessages(knobs, channelNumber, controller, sent)
  }

  /** The ControlChange message comes first and the Knob messages for the same decoded value follow. */
  lemma ControlChangeMessagesInTurn(mode: ControllerValueMode, known: KnownValues, knobs: seq<KnobMapping>,
                                    controller: ControllerLabel, value: MidiValue, channel: Midi.Channel)
    ensures var sent := Decode(mode, known, controller, value).sent;
      ControlChangeMessages(mode, known, knobs, controller, value, channel)
      == [ControlChange(ControlChangePayload(ChannelToInt(channel), controller, sent))] + KnobMessages(knobs, ChannelToInt(channel), controller, sent)
  {
  }

  /** The messages an event produces after its Raw message. */
  function Outputs(mode: ControllerValueMode, known: KnownValues, knobs: seq<KnobMapping>, msg: Midi.MidiMsg)
    : (r: seq<TetherMidiMessage>)
    ensures |r| <= 2
    ensures forall i :: 0 <= i < |r| ==> !r[i].Raw?
    ensures r == [] <==> Classify(msg).Ignore?
    // a note event sends exactly one note message of the same kind, on channel 1..16
    ensures msg.ChannelVoice? && msg.msg.NoteOn? ==> r == [NoteOn(NotePayload(ChannelToInt(msg.channel), msg.msg.note, msg.msg.velocity))]
    ensures msg.ChannelVoice? && msg.msg.NoteOff? ==> r == [NoteOff(NotePayload(ChannelToInt(msg.channel), msg.msg.note, msg.msg.velocity))]
    ensures r != [] && (r[0].NoteOn? || r[0].NoteOff?) ==> |r| == 1 && 1 <= r[0].payload.channel <= 16
    // a Knob message is never first and always follows its ControlChange message
    ensures r != [] ==> !r[0].Knob?
    ensures |r| == 2 ==> r[0].ControlChange? && r[1].Knob?
  {
    match Classify(msg)
    case SendNote(on, note) => [if on then NoteOn(note) else NoteOff(note)]
    case SendControl(controller, value, channel) => ControlChangeMessages(mode, known, knobs, controller, value, channel)
    case Ignore => []
  }

  /** The decoder state after an event. */
  function KnownAfter(mode: ControllerValueMode, known: KnownValues, msg: Midi.MidiMsg): (r: KnownValues)
    ensures StoredLowRes(known) ==> StoredLowRes(r)
    ensures !Classify(msg).SendControl? || mode == Absolute ==> r == known
    ensures Classify(msg).SendControl? ==> r.Keys == known.Keys + {KeyOf(Classify(msg).controller)} || r == known
    // every other controller's remembered value is untouched
    ensures Classify(msg).SendControl? ==>
      forall k :: k in known && k != KeyOf(Classify(msg).controller) ==> k in r && r[k] == known[k]
  {
    match Classify(msg)
    case SendControl(controller, value, _) => Decode(mode, known, controller, value).known
    case _ => known
  }

  /** The same controller on two channels reads and writes one decoder slot. */
  lemma DecoderStateIgnoresChannel(mode: ControllerValueMode, known: KnownValues, knobs: seq<KnobMapping>,
                                   c1: Midi.Channel, c2: Midi.Channel, control: Midi.ControlChange)
    ensures var e1 := Midi.ChannelVoice(c1, Midi.ControlChange(control));
      var e2 := Midi.ChannelVoice(c2, Midi.ControlChange(control));
      && KnownAfter(mode, known, e1) == KnownAfter(mode, known, e2)
      && (Outputs(mode, known, knobs, e1) == [] <==> Outputs(mode, known, knobs, e2) == [])
      && (Outputs(mode, known, knobs, e1) != [] ==> Outputs(mode, known, knobs, e1)[0].cc.value == Outputs(mode, known, knobs, e2)[0].cc.value)
  {
  }

  // ---------------------------------------------------------------------------
  // Port registry

  /** `SystemTime` readings are supplied by the caller. */
  type Timestamp = int

  datatype PortInformation = PortInformation(index: nat, fullName: string, lastReceived: Timestamp)

  type Ports = map<string, PortInformation>

  /** `format!("{index}")`. */
  function PortKey(index: nat): (k: string)
    // the key is the index in decimal: all digits, reading back as the index
    ensures Decimal.AllDigits(k) && Decimal.ParseDecimal(k) == index
    ensures 1 <= |k| && (|k| > 1 ==> k[0] != '0')
  {
    Decimal.DecimalString(index)
  }

  /** Every entry sits under the decimal text of its own index. */
  predicate KeyedByIndex(ports: Ports)
  {
    forall k :: k in ports ==> k == PortKey(ports[k].index)
  }

  /** The registry after traffic on port `index`: only that entry's timestamp changes, and only if it exists. */
  function Touched(ports: Ports, index: nat, now: Timestamp): (r: Ports)
    ensures r.Keys == ports.Keys
    ensures forall k :: k in ports && k != PortKey(index) ==> r[k] == ports[k]
    ensures PortKey(index) in ports ==> r[PortKey(index)] == ports[PortKey(index)].(lastReceived := now)
    ensures KeyedByIndex(ports) ==> KeyedByIndex(r)
  {
    var key := PortKey(index);
    if key in ports then ports[key := ports[key].(lastReceived := now)] else ports
  }

  /** In a registry keyed by index, the entry touched for `index` is exactly the one whose index is `index`. */
  lemma TouchedEntryIsThePort(ports: Ports, index: nat)
    requires KeyedByIndex(ports)
    ensures forall k :: k in ports ==> (k == PortKey(index) <==> ports[k].index == index)
  {
    forall k | k in ports
      ensures k == PortKey(index) <==> ports[k].index == index
    {
      Decimal.DecimalStringInjective(ports[k].index, index);
    }
  }

  // ---------------------------------------------------------------------------
  // The engine

  /** Logging two batches of messages in turn logs their concatenation. */
  lemma LogInTurn(log: seq<LogEntry>, first: seq<TetherMidiMessage>, second: seq<TetherMidiMessage>)
    ensures PushAll(PushAll(log, Summaries(first)), Summaries(second)) == PushAll(log, Summaries(first + second))
  {
    SummariesConcat(first, second);
    PushAllConcat(log, Summaries(first), Summaries(second));
  }

  class MediationDataModel {
    var midiMessageLog: seq<Midi.MidiMsg>
    var tetherMessageLog: seq<LogEntry>
    /** Everything sent on the outbound channel, oldest first. */
    var outbound: seq<TetherMidiMessage>
    var portsMetadata: Ports
    var tetherConnected: bool
    var tetherUri: Option<string>
    var controllerMode: ControllerValueMode
    var knownControllerValues: KnownValues
    var knobs: seq<KnobMapping>

    /**
     * Both logs are within their capacity, the decoder holds only 7-bit
     * LowRes values, and every port sits under its own index.
     */
    ghost predicate Valid()
      reads this
    {
      LogsValid() && DecoderValid() && PortsValid()
    }

    ghost predicate LogsValid()
      reads this`midiMessageLog, this`tetherMessageLog
    {
      |midiMessageLog| <= MONITOR_LOG_LENGTH && |tetherMessageLog| <= MONITOR_LOG_LENGTH
    }

    ghost predicate DecoderValid()
      reads this`knownControllerValues
    {
      StoredLowRes(knownControllerValues)
    }

    ghost predicate PortsValid()
      reads this`portsMetadata
    {
      KeyedByIndex(portsMetadata)
    }

    constructor (controllerMode: ControllerValueMode)
      ensures Valid()
      ensures this.controllerMode == controllerMode
      ensures midiMessageLog == [] && tetherMessageLog == [] && outbound == []
      ensures portsMetadata == map[] && knownControllerValues == map[] && knobs == []
      ensures !tetherConnected && tetherUri == None
    {
      midiMessageLog := [];
      tetherMessageLog := [];
      outbound := [];
      portsMetadata := map[];
      tetherConnected := false;
      tetherUri := None;
      this.controllerMode := controllerMode;
      knownControllerValues := map[];
      knobs := [];
    }

    /** Registers a port, or overwrites the entry of the same index. */
    method AddPort(index: nat, fullName: string, now: Timestamp)
      requires Valid()
      modifies this`portsMetadata
      ensures Valid()
      ensures portsMetadata == old(portsMetadata)[PortKey(index) := PortInformation(index, fullName, now)]
    {
      var portKey := PortKey(index);
      portsMetadata := portsMetadata[portKey := PortInformation(index, fullName, now)];
    }

    /** Logs the summary of one non-Raw message and sends it. */
    method Publish(m: TetherMidiMessage)
      requires LogsValid() && !m.Raw?
      modifies this`outbound, this`tetherMessageLog
      ensures LogsValid()
      ensures outbound == old(outbound) + [m]
      ensures tetherMessageLog == PushAll(old(tetherMessageLog), Summaries([m]))
    {
      tetherMessageLog := PushBack(tetherMessageLog, SummaryOf(m)[0]);
      outbound := outbound + [m];
    }

    method HandleIncoming(portIndex: nat, msg: Midi.MidiMsg, now: Timestamp)
      requires Valid()
      modifies this`midiMessageLog, this`tetherMessageLog, this`outbound, this`knownControllerValues, this`portsMetadata
      ensures Valid()
      // the Raw message comes first, then the typed messages
      ensures outbound == old(outbound) + [Raw(msg)] + Outputs(controllerMode, old(knownControllerValues), knobs, msg)
      // one inbound entry per event, one outbound entry per typed message
      ensures midiMessageLog == PushBack(old(midiMessageLog), msg)
      ensures tetherMessageLog == PushAll(old(tetherMessageLog), Summaries(Outputs(controllerMode, old(knownControllerValues), knobs, msg)))
      ensures knownControllerValues == KnownAfter(controllerMode, old(knownControllerValues), msg)
      ensures portsMetadata == Touched(old(portsMetadata), portIndex, now)
    {
      Translate(msg);
      UpdatePortInfo(portIndex, now);
    }

    /** Logs and publishes the Raw message for an event, then its typed messages. */
    method Translate(msg: Midi.MidiMsg)
      requires Valid()
      modifies this`midiMessageLog, this`tetherMessageLog, this`outbound, this`knownControllerValues
      ensures Valid()
      ensures outbound == old(outbound) + [Raw(msg)] + Outputs(controllerMode, old(knownControllerValues), knobs, msg)
      ensures midiMessageLog == PushBack(old(midiMessageLog), msg)
      ensures tetherMessageLog == PushAll(old(tetherMessageLog), Summaries(Outputs(controllerMode, old(knownControllerValues), knobs, msg)))
      ensures knownControllerValues == KnownAfter(controllerMode, old(knownControllerValues), msg)
    {
      midiMessageLog := PushBack(midiMessageLog, msg);
      outbound := outbound + [Raw(msg)];
      Dispatch(msg);
    }

    /** Sends and logs the typed messages of an event, decoding a control change on the way. */
    method Dispatch(msg: Midi.MidiMsg)
      requires LogsValid() && DecoderValid()
      modifies this`tetherMessageLog, this`outbound, this`knownControllerValues
      ensures LogsValid() && DecoderValid()
      ensures outbound == old(outbound) + Outputs(controllerMode, old(knownControllerValues), knobs, msg)
      ensures tetherMessageLog == PushAll(old(tetherMessageLog), Summaries(Outputs(controllerMode, old(knownControllerValues), knobs, msg)))
      ensures knownControllerValues == KnownAfter(controllerMode, old(knownControllerValues), msg)
    {
      ghost var typed := Outputs(controllerMode, knownControllerValues, knobs, msg);
      var action := Classify(msg);
      match action {
        case SendNote(on, note) =>
          Publish(if on then NoteOn(note) else NoteOff(note));
          assert typed == [if on then NoteOn(note) else NoteOff(note)];
        case SendControl(controller, value, channel) =>
          SendControlChange(controller, value, channel);
          assert typed == ControlChangeMessages(controllerMode, old(knownControllerValues), knobs, controller, value, channel);
        case Ignore =>
          assert typed == [];
      }
    }

    /** Decodes the value, sends the ControlChange message and, when the knob list has a match, the Knob message. */
    method SendControlChange(controller: ControllerLabel, value: MidiValue, channel: Midi.Channel)
      requires LogsValid() && DecoderValid()
      requires value.LowRes? ==> value.low <= 127
      modifies this`knownControllerValues, this`outbound, this`tetherMessageLog
      ensures LogsValid() && DecoderValid()
      ensures knownControllerValues == Decode(controllerMode, old(knownControllerValues), controller, value).known
      ensures outbound == old(outbound) + ControlChangeMessages(controllerMode, old(knownControllerValues), knobs, controller, value, channel)
      ensures tetherMessageLog == PushAll(old(tetherMessageLog),
        Summaries(ControlChangeMessages(controllerMode, old(knownControllerValues), knobs, controller, value, channel)))
    {
      ControlChangeMessagesInTurn(controllerMode, knownControllerValues, knobs, controller, value, channel);
      var channelNumber := ChannelToInt(channel);
      var sendAbsoluteValue := DecodeValue(controller, value);
      PublishDecoded(channelNumber, controller, sendAbsoluteValue);
    }

    /** Sends and logs the ControlChange message for a decoded value, then the Knob message if an entry matches. */
    method PublishDecoded(channelNumber: U8, controller: ControllerLabel, sendAbsoluteValue: MidiValue)
      requires LogsValid()
      modifies this`outbound, this`tetherMessageLog
      ensures LogsValid()
      ensures outbound == old(outbound) + [ControlChange(ControlChangePayload(channelNumber, controller, sendAbsoluteValue))]
                          + KnobMessages(knobs, channelNumber, controller, sendAbsoluteValue)
      ensures tetherMessageLog == PushAll(old(tetherMessageLog),
        Summaries([ControlChange(ControlChangePayload(channelNumber, controller, sendAbsoluteValue))]
                  + KnobMessages(knobs, channelNumber, controller, sendAbsoluteValue)))
    {
      var ccMessage := ControlChange(ControlChangePayload(channelNumber, controller, sendAbsoluteValue));
      Publish(ccMessage);
      PublishKnob(channelNumber, controller, sendAbsoluteValue);
      LogInTurn(old(tetherMessageLog), [ccMessage], KnobMessages(knobs, channelNumber, controller, sendAbsoluteValue));
    }

    /** Sends the Knob message for the first matching entry of the knob list, if there is one. */
    method PublishKnob(channelNumber: int, controller: ControllerLabel, sendAbsoluteValue: MidiValue)
      requires LogsValid()
      modifies this`outbound, this`tetherMessageLog
      ensures LogsValid()
      ensures outbound == old(outbound) + KnobMessages(knobs, channelNumber, controller, sendAbsoluteValue)
      ensures tetherMessageLog == PushAll(old(tetherMessageLog), Summaries(KnobMessages(knobs, channelNumber, controller, sendAbsoluteValue)))
    {
      if |knobs| > 0 {
        var found := FindKnob(knobs, channelNumber, controller);
        if found.Some? {
          var position := PositionOf(sendAbsoluteValue);
          Publish(Knob(KnobPayload(found.value % 256, position)));
        }
      }
    }

    /** The value to send for a control change, remembering it under the controller's key in Relative LowRes updates. */
    method DecodeValue(controller: ControllerLabel, value: MidiValue) returns (sendAbsoluteValue: MidiValue)
      requires DecoderValid()
      requires value.LowRes? ==> value.low <= 127
      modifies this`knownControllerValues
      ensures DecoderValid()
      ensures Decoded(sendAbsoluteValue, knownControllerValues) == Decode(controllerMode, old(knownControllerValues), controller, value)
    {
      match controllerMode {
        case Relative =>
          var key := KeyOf(controller);
          match value {
            case LowRes(x) =>
              if key in knownControllerValues {
                var prevValue := AsU8(knownControllerValues[key]);
                var absoluteValue := RelativeStep(prevValue, x);
                knownControllerValues := knownControllerValues[key := LowRes(absoluteValue)];
                sendAbsoluteValue := LowRes(absoluteValue);
              } else {
                var lastKnownValue := LowRes(x);
                knownControllerValues := knownControllerValues[key := lastKnownValue];
                sendAbsoluteValue := LowRes(x);
              }
            case HighRes(x) =>
              sendAbsoluteValue := HighRes(x);
          }
        case Absolute =>
          sendAbsoluteValue := value;
      }
    }

    /** Stamps the entry keyed by the port's index with `now`; never adds an entry. */
    method UpdatePortInfo(index: nat, now: Timestamp)
      requires PortsValid()
      modifies this`portsMetadata
      ensures PortsValid()
      ensures portsMetadata == Touched(old(portsMetadata), index, now)
    {
      var target := PortKey(index);
      var updated := portsMetadata;
      var remaining := portsMetadata.Keys;
      while remaining != {}
        invariant remaining <= portsMetadata.Keys
        invariant updated == if target in portsMetadata && target !in remaining
                             then portsMetadata[target := portsMetadata[target].(lastReceived := now)]
                             else portsMetadata
        decreases remaining
      {
        var key :| key in remaining;
        if key == target {
          updated := updated[key := updated[key].(lastReceived := now)];
        }
        remaining := remaining - {key};
      }
      portsMetadata := updated;
    }

    /** Replaces the knob list with the named device's, or keeps it when the table has no such device. */
    method AddKnobMapping(name: string, table: seq<DeviceWithMapping>)
      requires Valid()
      modifies this`knobs
      ensures Valid()
      ensures knobs == match LoadKnobMappings(table, name)
                       case Ok(loaded) => loaded
                       case Err(_) => old(knobs)
    {
      match LoadKnobMappings(table, name)
      case Ok(loaded) =>
        knobs := loaded;
      case Err(_) =>
    }
  }
}

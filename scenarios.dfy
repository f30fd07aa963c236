/**
 * Sessions of the mediation engine from a fresh model: each method drives one
 * model through a few inbound events and returns what it sent.
 */
module Scenarios {
  import opened Wrappers
  import Midi = MidiEvents
  import opened Messages
  import opened Mappings
  import opened Decoder
  import Knobs
  import opened Mediation

  /** Without a knob list, a 7-bit controller event sends one ControlChange message with the decoded value. */
  lemma UndefinedControlOutputs(mode: ControllerValueMode, known: KnownValues, channel: Midi.Channel, c: Midi.U7, v: Midi.U7)
    ensures var e := Midi.ChannelVoice(channel, Midi.ControlChange(Midi.Undefined(c, v)));
      var d := Decode(mode, known, Numbered(c), LowRes(v));
      && Outputs(mode, known, [], e) == [ControlChange(ControlChangePayload(ChannelToInt(channel), Numbered(c), d.sent))]
      && KnownAfter(mode, known, e) == d.known
  {
  }

  /** Feeds one event of controller `c` on channel 1 to a model without a knob list. */
  method FeedController(model: MediationDataModel, c: Midi.U7, v: Midi.U7, now: Timestamp)
    requires model.Valid() && model.knobs == []
    modifies model
    ensures model.Valid() && model.knobs == [] && model.controllerMode == old(model.controllerMode)
    ensures var d := Decode(model.controllerMode, old(model.knownControllerValues), Numbered(c), LowRes(v));
      && model.outbound == old(model.outbound)
           + [Raw(Midi.ChannelVoice(Midi.Ch1, Midi.ControlChange(Midi.Undefined(c, v)))),
              ControlChange(ControlChangePayload(1, Numbered(c), d.sent))]
      && model.knownControllerValues == d.known
  {
    var e := Midi.ChannelVoice(Midi.Ch1, Midi.ControlChange(Midi.Undefined(c, v)));
    UndefinedControlOutputs(model.controllerMode, model.knownControllerValues, Midi.Ch1, c, v);
    model.HandleIncoming(0, e, now);
  }

  /** The decoder steps of the relative session: first touch at 64, then +2, then -2. */
  lemma EncoderDecodes()
    ensures Decode(Relative, map[], Numbered(7), LowRes(64)) == Decoded(LowRes(64), map["7" := LowRes(64)])
    ensures Decode(Relative, map["7" := LowRes(64)], Numbered(7), LowRes(2)) == Decoded(LowRes(66), map["7" := LowRes(66)])
    ensures Decode(Relative, map["7" := LowRes(66)], Numbered(7), LowRes(126)).sent == LowRes(64)
  {
    assert KeyOf(Numbered(7)) == "7";
    assert RelativeStep(64, 2) == 66;
    assert RelativeStep(66, 126) == 64;
  }

  /** A relative encoder on controller 7 turned +0, +2, then -2 from first touch at 64. */
  method RelativeEncoderSession() returns (sent: seq<TetherMidiMessage>)
    ensures sent == [
      Raw(Midi.ChannelVoice(Midi.Ch1, Midi.ControlChange(Midi.Undefined(7, 64)))),
      ControlChange(ControlChangePayload(1, Numbered(7), LowRes(64))),
      Raw(Midi.ChannelVoice(Midi.Ch1, Midi.ControlChange(Midi.Undefined(7, 2)))),
      ControlChange(ControlChangePayload(1, Numbered(7), LowRes(66))),
      Raw(Midi.ChannelVoice(Midi.Ch1, Midi.ControlChange(Midi.Undefined(7, 126)))),
      ControlChange(ControlChangePayload(1, Numbered(7), LowRes(64)))]
  {
    var model := new MediationDataModel(Relative);
    EncoderDecodes();
    FeedController(model, 7, 64, 0);
    FeedController(model, 7, 2, 1);
    FeedController(model, 7, 126, 2);
    sent := model.outbound;
  }

  /** In Absolute mode a 7-bit controller passes through untouched, and no knob list means no Knob message. */
  method AbsolutePassThroughSession() returns (sent: seq<TetherMidiMessage>, known: KnownValues)
    ensures sent == [
      Raw(Midi.ChannelVoice(Midi.Ch1, Midi.ControlChange(Midi.Undefined(7, 100)))),
      ControlChange(ControlChangePayload(1, Numbered(7), LowRes(100)))]
    ensures known == map[]
  {
    var model := new MediationDataModel(Absolute);
    var e := Midi.ChannelVoice(Midi.Ch1, Midi.ControlChange(Midi.Undefined(7, 100)));
    model.HandleIncoming(0, e, 0);
    sent := model.outbound;
    known := model.knownControllerValues;
  }

  /** Feeds one event on port 0 and keeps only what it sent. */
  method Deliver(model: MediationDataModel, e: Midi.MidiMsg)
    requires model.Valid()
    modifies model
    ensures model.Valid() && model.knobs == old(model.knobs) && model.controllerMode == old(model.controllerMode)
    ensures model.outbound == old(model.outbound) + [Raw(e)] + Outputs(model.controllerMode, old(model.knownControllerValues), model.knobs, e)
  {
    model.HandleIncoming(0, e, 0);
  }

  /** Feeds one event on a port and keeps only its effect on the port table. */
  method Stamp(model: MediationDataModel, portIndex: nat, e: Midi.MidiMsg, now: Timestamp)
    requires model.Valid()
    modifies model
    ensures model.Valid() && model.portsMetadata == Touched(old(model.portsMetadata), portIndex, now)
  {
    model.HandleIncoming(portIndex, e, now);
  }

  /** A mod wheel at 8192 on channel 3 matches a channel-less ModWheel entry at index 0. */
  lemma ModWheelOutputs(knobs: seq<KnobMapping>, e: Midi.MidiMsg)
    requires knobs == [KnobMapping(None, Special("ModWheel"))]
    requires e == Midi.ChannelVoice(Midi.Ch3, Midi.ControlChange(Midi.ModWheel(8192)))
    ensures Outputs(Absolute, map[], knobs, e) == [
      ControlChange(ControlChangePayload(3, Special("ModWheel"), HighRes(8192))),
      Knob(KnobPayload(0, Position(8192, 16256)))]
  {
    assert Knobs.Matches(knobs[0], 3, Special("ModWheel"));
    assert Knobs.FindKnob(knobs, 3, Special("ModWheel")) == Some(0);
  }

  /** A mod wheel on channel 3 with a channel-less knob entry for it: the Knob message follows at half travel. */
  method ModWheelKnobSession() returns (sent: seq<TetherMidiMessage>)
    ensures sent == [
      Raw(Midi.ChannelVoice(Midi.Ch3, Midi.ControlChange(Midi.ModWheel(8192)))),
      ControlChange(ControlChangePayload(3, Special("ModWheel"), HighRes(8192))),
      Knob(KnobPayload(0, Position(8192, 16256)))]
  {
    var model := new MediationDataModel(Absolute);
    var table := [DeviceWithMapping("Controller", [KnobMapping(None, Special("ModWheel"))])];
    assert IsFirstDevice(table, "Controller", 0);
    LoadReturnsFirstDevice(table, "Controller", 0);
    model.AddKnobMapping("Controller", table);
    var e := Midi.ChannelVoice(Midi.Ch3, Midi.ControlChange(Midi.ModWheel(8192)));
    ModWheelOutputs(model.knobs, e);
    Deliver(model, e);
    sent := model.outbound;
  }

  /** A note on channel 10 is sent as a NoteOn with the 1-based channel. */
  method NoteSession() returns (sent: seq<TetherMidiMessage>)
    ensures sent == [
      Raw(Midi.ChannelVoice(Midi.Ch10, Midi.NoteOn(60, 127))),
      NoteOn(NotePayload(10, 60, 127))]
  {
    var model := new MediationDataModel(Absolute);
    var e := Midi.ChannelVoice(Midi.Ch10, Midi.NoteOn(60, 127));
    model.HandleIncoming(0, e, 0);
    sent := model.outbound;
  }

  /** Traffic stamps a registered port and leaves an unregistered one absent. */
  method PortSession() returns (ports: Ports)
    ensures ports == map["0" := PortInformation(0, "Keys", 5)]
  {
    var model := new MediationDataModel(Absolute);
    assert PortKey(0) == "0" && PortKey(3) == "3";
    model.AddPort(0, "Keys", 1);
    var e := Midi.OtherMidi("clock");
    Stamp(model, 0, e, 5);
    Stamp(model, 3, e, 6);
    ports := model.portsMetadata;
  }
}

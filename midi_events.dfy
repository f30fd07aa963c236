/**
 * The inbound MIDI events the mediation engine consumes, shaped as the
 * `midi_msg` crate delivers them: a channel-voice message on one of sixteen
 * channels, or some other message the engine does not inspect. Data bytes
 * are 7-bit; the named controllers carry a 14-bit value.
 */
module MidiEvents {
  type U7 = x: int | 0 <= x < 128
  type U14 = x: int | 0 <= x < 16384

  datatype Channel =
    | Ch1 | Ch2 | Ch3 | Ch4 | Ch5 | Ch6 | Ch7 | Ch8
    | Ch9 | Ch10 | Ch11 | Ch12 | Ch13 | Ch14 | Ch15 | Ch16

  /** Controller identities; `OtherControl` stands for every variant the engine leaves unhandled. */
  datatype ControlChange =
    | Undefined(control: U7, value: U7)
    | UndefinedHighRes(control1: U7, control2: U7, hiValue: U14)
    | ModWheel(hiValue: U14)
    | Breath(hiValue: U14)
    | Foot(hiValue: U14)
    | Portamento(hiValue: U14)
    | DataEntry(hiValue: U14)
    | Volume(hiValue: U14)
    | Balance(hiValue: U14)
    | Pan(hiValue: U14)
    | Expression(hiValue: U14)
    | Effect1(hiValue: U14)
    | Effect2(hiValue: U14)
    | GeneralPurpose1(hiValue: U14)
    | GeneralPurpose2(hiValue: U14)
    | GeneralPurpose3(hiValue: U14)
    | GeneralPurpose4(hiValue: U14)
    | OtherControl(controlDescription: string)

  datatype ChannelVoiceMsg =
    | NoteOn(note: U7, velocity: U7)
    | NoteOff(note: U7, velocity: U7)
    | ControlChange(control: ControlChange)
    | OtherVoice(voiceDescription: string)

  datatype MidiMsg =
    | ChannelVoice(channel: Channel, msg: ChannelVoiceMsg)
    | OtherMidi(description: string)
}

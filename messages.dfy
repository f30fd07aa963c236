/** The outbound messages the engine publishes and their payloads. */
module Messages {
  import MidiEvents

  type U8 = x: int | 0 <= x < 256
  type U16 = x: int | 0 <= x < 65536

  datatype ControllerLabel = Numbered(number: U8) | Special(name: string)

  datatype MidiValue = LowRes(low: U8) | HighRes(high: U16)

  datatype NotePayload = NotePayload(channel: U8, note: U8, velocity: U8)

  datatype ControlChangePayload = ControlChangePayload(channel: U8, controller: ControllerLabel, value: MidiValue)

  /** A knob position held exactly, as numerator ÷ divisor, in place of a 32-bit float. */
  datatype Position = Position(numerator: nat, divisor: nat)

  datatype KnobPayload = KnobPayload(index: U8, position: Position)

  /**
   * `Raw` stands for the encoded debug text of the inbound event; the model
   * keeps the event itself, so two Raw messages are equal exactly when their
   * events are.
   */
  datatype TetherMidiMessage =
    | Raw(event: MidiEvents.MidiMsg)
    | NoteOn(payload: NotePayload)
    | NoteOff(payload: NotePayload)
    | ControlChange(cc: ControlChangePayload)
    | Knob(knob: KnobPayload)
}

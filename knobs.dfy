/**
 * The knob resolver: the first entry of the loaded knob list that matches a
 * control change gives the knob index, and the sent value gives its position.
 */
module Knobs {
  import opened Wrappers
  import opened Messages
  import opened Mappings

  const MAX_LORES: nat := 127
  /** 2^14 - 128: the 14-bit value whose low seven bits are zero and high seven bits all set. */
  const MAX_HIRES: nat := 0x4000 - 128

  /**
   * The `find` predicate. An entry that names a channel matches on the
   * channel alone; otherwise the label must agree in kind and in number or name.
   */
  predicate Matches(knob: KnobMapping, channel: int, controller: ControllerLabel)
    ensures knob.channel.Some? ==> (Matches(knob, channel, controller) <==> knob.channel.value == channel)
    ensures knob.channel.None? ==> (Matches(knob, channel, controller) <==> knob.controller == controller)
  {
    match knob.channel
    case Some(c) => c == channel
    case None =>
      match knob.controller
      case Numbered(n) => controller.Numbered? && controller.number == n
      case Special(s) => controller.Special? && controller.name == s
  }

  /** An entry with a channel answers the same for every label; one without answers the same on every channel. */
  lemma MatchIgnoresLabelOrChannel(knob: KnobMapping, channel: int, other: int, controller: ControllerLabel, another: ControllerLabel)
    ensures knob.channel.Some? ==> (Matches(knob, channel, controller) <==> Matches(knob, channel, another))
    ensures knob.channel.None? ==> (Matches(knob, channel, controller) <==> Matches(knob, other, controller))
  {
  }

  /** Entry i matches and no entry before it does. */
  predicate IsFirstMatch(knobs: seq<KnobMapping>, channel: int, controller: ControllerLabel, i: int)
  {
    && 0 <= i < |knobs|
    && Matches(knobs[i], channel, controller)
    && forall j :: 0 <= j < i ==> !Matches(knobs[j], channel, controller)
  }

  /** The position in `knobs` of the first matching entry. */
  function FindKnob(knobs: seq<KnobMapping>, channel: int, controller: ControllerLabel): (r: Option<nat>)
    ensures r.Some? ==> IsFirstMatch(knobs, channel, controller, r.value)
    ensures r.None? <==> forall j :: 0 <= j < |knobs| ==> !Matches(knobs[j], channel, controller)
  {
    if knobs == [] then None
    else if Matches(knobs[0], channel, controller) then Some(0)
    else
      match FindKnob(knobs[1..], channel, controller)
      case None => None
      case Some(k) => Some(k + 1)
  }

  /** The sent value as a fraction of its resolution's ceiling. */
  function PositionOf(value: MidiValue): (p: Position)
    ensures p.divisor == if value.LowRes? then MAX_LORES else MAX_HIRES
    ensures p.numerator == if value.LowRes? then value.low else value.high
  {
    match value
    case LowRes(x) => Position(x, MAX_LORES)
    case HighRes(x) => Position(x, MAX_HIRES)
  }

  /** 7-bit values give positions in 0..1; a 14-bit value above MAX_HIRES gives one above 1. */
  lemma PositionRange(value: MidiValue)
    ensures PositionOf(value).divisor > 0
    ensures value.LowRes? ==> (PositionOf(value).numerator <= PositionOf(value).divisor <==> value.low <= 127)
    ensures value.HighRes? ==> (PositionOf(value).numerator <= PositionOf(value).divisor <==> value.high <= 16256)
  {
  }

  /** The Knob message, if any, that follows a ControlChange message. */
  function KnobMessages(knobs: seq<KnobMapping>, channel: int, controller: ControllerLabel, sent: MidiValue): (r: seq<TetherMidiMessage>)
    ensures |r| <= 1
    ensures |r| == 1 <==> exists i :: 0 <= i < |knobs| && Matches(knobs[i], channel, controller)
    ensures |r| == 1 ==> r[0].Knob? && r[0].knob.position == PositionOf(sent)
    // the index is the first matching position, truncated to a byte by `as u8`
    ensures |r| == 1 ==> exists i :: IsFirstMatch(knobs, channel, controller, i) && r[0].knob.index == i % 256
  {
    if |knobs| == 0 then []
    else
      match FindKnob(knobs, channel, controller)
      case None => []
      case Some(i) => [Knob(KnobPayload(i % 256, PositionOf(sent)))]
  }

  /** With fewer than 257 entries the emitted index is a valid index of the first matching entry. */
  lemma KnobIndexValid(knobs: seq<KnobMapping>, channel: int, controller: ControllerLabel, sent: MidiValue)
    requires |knobs| <= 256
    requires KnobMessages(knobs, channel, controller, sent) != []
    ensures IsFirstMatch(knobs, channel, controller, KnobMessages(knobs, channel, controller, sent)[0].knob.index)
  {
    var i := FindKnob(knobs, channel, controller).value;
    assert i % 256 == i;
  }
}

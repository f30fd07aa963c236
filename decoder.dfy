/**
 * The controller value decoder. In Relative mode a 7-bit controller value is
 * an increment to the last value remembered for the controller's key; the
 * first value seen for a key is taken as absolute.
 */
module Decoder {
  import opened Wrappers
  import opened Messages
  import Decimal

  datatype ControllerValueMode = Absolute | Relative

  /** Last known value per controller key. */
  type KnownValues = map<string, MidiValue>

  /** The decoder key: the controller's number in decimal, or its name. The channel plays no part. */
  function KeyOf(controller: ControllerLabel): (k: string)
    // a numbered key is the shortest all-digit text that reads back as the controller number
    ensures controller.Numbered? ==>
      && Decimal.AllDigits(k) && Decimal.ParseDecimal(k) == controller.number
      && 1 <= |k| && (|k| > 1 ==> k[0] != '0')
    ensures controller.Special? ==> k == controller.name
  {
    match controller
    case Numbered(n) => Decimal.DecimalString(n)
    case Special(s) => s
  }

  /** The two's-complement reading of a 7-bit value: the increment in -64..63 congruent to it modulo 128. */
  function Increment(x: U8): (r: int)
    ensures (x - r) % 128 == 0
    ensures x < 128 ==> -64 <= r < 64
    ensures x < 64 <==> r == x
  {
    if x < 64 then x else x - 128
  }

  /** Rust's `Ord::clamp`. */
  function Clamp(v: int, lo: int, hi: int): (r: int)
    requires lo <= hi
    ensures lo <= r <= hi
    ensures lo <= v <= hi ==> r == v
    ensures v < lo ==> r == lo
    ensures hi < v ==> r == hi
  {
    if v < lo then lo else if hi < v then hi else v
  }

  /** `try_into::<u8>()`: the value when it fits in a byte. */
  function TryIntoU8(v: int): (r: Option<U8>)
    ensures r.Some? <==> 0 <= v < 256
    ensures r.Some? ==> r.value == v
  {
    if 0 <= v < 256 then Some(v) else None
  }

  /** The remembered value read as a byte; a 14-bit value is truncated by `as u8`. */
  function AsU8(v: MidiValue): (r: U8)
    ensures v.LowRes? ==> r == v.low
    ensures v.HighRes? ==> r == v.high % 256
  {
    match v
    case LowRes(x) => x
    case HighRes(x) => x % 256
  }

  /**
   * One relative step from a remembered value `prev` by the raw value `x`:
   * the increment is added and the sum saturates at 0 and 127.
   */
  function RelativeStep(prev: U8, x: U8): (r: U8)
    ensures r <= 127
    ensures 0 <= prev + Increment(x) <= 127 ==> r == prev + Increment(x)
    ensures prev + Increment(x) < 0 ==> r == 0
    ensures 127 < prev + Increment(x) ==> r == 127
  {
    TryIntoU8(Clamp(prev + Increment(x), 0, 127)).GetOr(0)
  }

  /** Every remembered value is a LowRes value in 0..127. */
  predicate StoredLowRes(known: KnownValues)
  {
    forall k :: k in known ==> known[k].LowRes? && known[k].low <= 127
  }

  /** The value to send and the decoder state after one controller update. */
  datatype Decoded = Decoded(sent: MidiValue, known: KnownValues)

  function Decode(mode: ControllerValueMode, known: KnownValues, controller: ControllerLabel, value: MidiValue): (d: Decoded)
    // pass-through: Absolute mode and HighRes values are sent as they are and leave the state alone
    ensures mode == Absolute || value.HighRes? ==> d == Decoded(value, known)
    // a Relative LowRes update stores exactly the value it sends, under the controller's key
    ensures mode == Relative && value.LowRes? ==> d.sent.LowRes? && d.known == known[KeyOf(controller) := d.sent]
    // first touch: an unseen key takes the raw value as absolute
    ensures mode == Relative && value.LowRes? && KeyOf(controller) !in known ==> d.sent == value
    // a remembered key moves by the increment, saturating at 0..127
    ensures mode == Relative && value.LowRes? && KeyOf(controller) in known ==>
      d.sent == LowRes(RelativeStep(AsU8(known[KeyOf(controller)]), value.low))
    // the decoder state only ever holds 7-bit LowRes values
    ensures StoredLowRes(known) && (value.LowRes? ==> value.low <= 127) ==> StoredLowRes(d.known)
  {
    match mode
    case Absolute => Decoded(value, known)
    case Relative =>
      var key := KeyOf(controller);
      match value
      case HighRes(_) => Decoded(value, known)
      case LowRes(x) =>
        if key in known then
          var absolute := RelativeStep(AsU8(known[key]), x);
          Decoded(LowRes(absolute), known[key := LowRes(absolute)])
        else
          Decoded(LowRes(x), known[key := LowRes(x)])
  }

  /** On a state that holds only LowRes values the HighRes fallback is never taken. */
  lemma RememberedValueIsLowRes(known: KnownValues, controller: ControllerLabel)
    requires StoredLowRes(known) && KeyOf(controller) in known
    ensures AsU8(known[KeyOf(controller)]) == known[KeyOf(controller)].low
  {
  }

  /**
   * With a remembered value p, a Relative LowRes update by x sends and stores
   * clamp(p + (x < 64 ? x : x - 128), 0, 127).
   */
  lemma RelativeFormula(known: KnownValues, controller: ControllerLabel, x: U8)
    requires StoredLowRes(known) && KeyOf(controller) in known
    ensures var p := known[KeyOf(controller)].low;
      var d := Decode(Relative, known, controller, LowRes(x));
      && d.sent == LowRes(Clamp(p + (if x < 64 then x else x - 128), 0, 127))
      && d.known[KeyOf(controller)] == d.sent
  {
  }

  /** Numbered(7) and Special("7") share one decoder slot. */
  lemma NumberedAndSpecialCollide()
    ensures KeyOf(Numbered(7)) == KeyOf(Special("7"))
  {
  }

  /** Distinct controller numbers never share a decoder slot. */
  lemma NumberedKeysDistinct(a: U8, b: U8)
    ensures KeyOf(Numbered(a)) == KeyOf(Numbered(b)) <==> a == b
  {
    Decimal.DecimalStringInjective(a, b);
  }

  /** Decoding a sequence of raw LowRes updates on one controller. */
  function DecodeAll(mode: ControllerValueMode, known: KnownValues, controller: ControllerLabel, raws: seq<U8>): (r: seq<MidiValue>)
    ensures |r| == |raws|
    ensures StoredLowRes(known) && (forall i :: 0 <= i < |raws| ==> raws[i] <= 127) ==>
      forall i :: 0 <= i < |r| ==> r[i].LowRes? && r[i].low <= 127
    decreases |raws|
  {
    if raws == [] then []
    else
      var d := Decode(mode, known, controller, LowRes(raws[0]));
      [d.sent] + DecodeAll(mode, d.known, controller, raws[1..])
  }

  /** From a fresh decoder the raw values 64, 2, 126 on one key are read as 64, then +2, then -2. */
  lemma FreshRelativeSequence()
    ensures DecodeAll(Relative, map[], Numbered(7), [64, 2, 126]) == [LowRes(64), LowRes(66), LowRes(64)]
  {
    var d1 := Decode(Relative, map[], Numbered(7), LowRes(64));
    var d2 := Decode(Relative, d1.known, Numbered(7), LowRes(2));
    assert d2.sent == LowRes(66);
    var d3 := Decode(Relative, d2.known, Numbered(7), LowRes(126));
    assert d3.sent == LowRes(64);
    assert [2, 126][1..] == [126];
    assert [64, 2, 126][1..] == [2, 126];
  }

  /** Absolute mode is the identity on every sequence of values whatever the state. */
  lemma {:induction false} AbsoluteIsIdentity(known: KnownValues, controller: ControllerLabel, raws: seq<U8>)
    ensures DecodeAll(Absolute, known, controller, raws) == seq(|raws|, i requires 0 <= i < |raws| => LowRes(raws[i]))
    decreases |raws|
  {
    if raws != [] {
      AbsoluteIsIdentity(known, controller, raws[1..]);
    }
  }
}

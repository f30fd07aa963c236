/**
 * Per-device knob mappings: a static table of devices, each with an ordered
 * list of knob mappings whose positions are the knob indices.
 */
module Mappings {
  import opened Wrappers
  import opened Messages

  /** A mapping entry: when `channel` is given, the entry matches on channel alone. */
  datatype KnobMapping = KnobMapping(channel: Option<int>, controller: ControllerLabel)

  datatype DeviceWithMapping = DeviceWithMapping(name: string, knobs: seq<KnobMapping>)

  /** Device i is the first in table order whose name is exactly `name`. */
  predicate IsFirstDevice(table: seq<DeviceWithMapping>, name: string, i: int)
  {
    && 0 <= i < |table|
    && table[i].name == name
    && forall j :: 0 <= j < i ==> table[j].name != name
  }

  /** The error `load_knob_mappings` returns when no device has the name. */
  function NotFound(name: string): (m: string)
    // the fixed text, with its two spaces, followed by the name asked for
    ensures |m| == 33 + |name| && m[33..] == name
    ensures m[..33] == "Could not find device with name  "
  {
    "Could not find device with name  " + name
  }

  /** The search in table order that `iter().find` performs. */
  function FindDevice(table: seq<DeviceWithMapping>, name: string): (r: Option<nat>)
    ensures r.Some? ==> IsFirstDevice(table, name, r.value)
    ensures r.None? <==> forall j :: 0 <= j < |table| ==> table[j].name != name
  {
    if table == [] then None
    else if table[0].name == name then Some(0)
    else
      match FindDevice(table[1..], name)
      case None => None
      case Some(k) => Some(k + 1)
  }

  /** The knob list of the first device named exactly `name`, or an error when there is none. */
  function LoadKnobMappings(table: seq<DeviceWithMapping>, name: string): (r: Result<seq<KnobMapping>, string>)
    ensures r.Ok? ==> exists i :: IsFirstDevice(table, name, i) && r.value == table[i].knobs
    ensures r.Err? <==> forall j :: 0 <= j < |table| ==> table[j].name != name
    ensures r.Err? ==> r.error == NotFound(name)
  {
    match FindDevice(table, name)
    case Some(i) => Ok(table[i].knobs)
    case None => Err(NotFound(name))
  }

  /** Conversely, the first device with the name is the one whose knobs are returned, in stored order. */
  lemma LoadReturnsFirstDevice(table: seq<DeviceWithMapping>, name: string, i: int)
    requires IsFirstDevice(table, name, i)
    ensures LoadKnobMappings(table, name) == Ok(table[i].knobs)
  {
    var r := LoadKnobMappings(table, name);
    var k :| IsFirstDevice(table, name, k) && r.value == table[k].knobs;
    assert !(k < i) && !(i < k);
  }

  /** A later device with the same name is shadowed: appending devices never changes a found result. */
  lemma {:induction false} LaterDevicesShadowed(table: seq<DeviceWithMapping>, more: seq<DeviceWithMapping>, name: string)
    requires LoadKnobMappings(table, name).Ok?
    ensures LoadKnobMappings(table + more, name) == LoadKnobMappings(table, name)
  {
    var i :| IsFirstDevice(table, name, i) && LoadKnobMappings(table, name).value == table[i].knobs;
    var whole := table + more;
    assert IsFirstDevice(whole, name, i) by {
      forall j | 0 <= j < i
        ensures whole[j].name != name
      {
        assert whole[j] == table[j];
      }
      assert whole[i] == table[i];
    }
    LoadReturnsFirstDevice(whole, name, i);
  }
}

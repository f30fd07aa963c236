# tether-midi-mediator: mediation engine model

This project models the mediation engine of tether-midi-mediator in Dafny.
The engine takes one inbound MIDI event at a time, tagged with its port index.
For each event it:

- publishes a `Raw` message;
- publishes the typed messages the event stands for: `NoteOn`, `NoteOff`, `ControlChange`, and a `Knob` message when a knob entry matches;
- keeps two monitoring logs, each bounded to 16 entries;
- stamps the port the event came from in the port registry.

A control change passes through the controller value decoder first.
In Absolute mode the decoder passes values through.
In Relative mode a 7-bit value is a signed step added to the controller's last known value.
The knob list comes from the device mapping table, and the first matching entry gives the knob index.

Files and modules:

- `wrappers.dfy` (`Wrappers`): `Option` and `Result`.
- `decimal.dfy` (`Decimal`): decimal text of naturals, the `to_string` / `format!("{n}")` used for decoder and port keys.
- `midi_events.dfy` (`MidiEvents`): the inbound MIDI events as the engine inspects them.
- `messages.dfy` (`Messages`): controller labels, values, payloads and outbound messages.
- `mappings.rs` → `mappings.dfy` (`Mappings`): `KnobMapping`, `DeviceWithMapping`, `load_knob_mappings`.
- `decoder.dfy` (`Decoder`): the value decoder, i.e. the first half of `send_control_change`.
- `knobs.dfy` (`Knobs`): the knob search, the position, and the constants `MAX_LORES` and `MAX_HIRES`.
- `monitor_log.dfy` (`MonitorLog`): the bounded logs (`MONITOR_LOG_LENGTH` = 16).
- `mediation.dfy` (`Mediation`):
  - the functions that specify one event: `Classify`, `Outputs`, `KnownAfter`, `Touched`;
  - the class `MediationDataModel`, whose methods update its fields in place as the Rust struct's do.
- `scenarios.dfy` (`Scenarios`): end-to-end sessions on a fresh model.

How the types are modelled:

- An outbound message is a value in the sequence field `outbound`, which stands for the sender.
- A `Raw` message carries the event itself, in place of its encoded debug text.
- The Rust `u8` and `u16` fields are the subset types `U8` (0..255) and `U16` (0..65535).
- The MIDI data carried by an inbound event is narrower: `U7` (0..127) for data bytes and `U14` (0..16383) for a 14-bit controller value. These are the ranges a parsed MIDI message can hold.
- A knob position is the exact fraction `numerator / divisor`, in place of an `f32`.

## Model

| member | source | states |
|---|---|---|
| Decimal.DecimalString | src/mediation/mod.rs:257 | the key text is nonempty, all digits, has no leading zero and parses back to the number |
| Decimal.DecimalStringInjective | src/mediation/mod.rs:84 | two indices get the same port key exactly when they are equal |
| Decimal.SplitAtSeparator | src/mediation/mod.rs:158 | a digit text, a non-digit separator and any text split back uniquely at the separator, as the "-" in the UndefinedHighRes label does |
| Mappings.FindDevice | src/mediation/mappings.rs:24 | the `find` returns the first device with exactly that name, and none exactly when no device has it |
| Mappings.LoadKnobMappings | src/mediation/mappings.rs:19-31 | Ok holds the knob list of the first device with that name, in table order; Err exactly when no device has the name, with the not-found message |
| Mappings.NotFound | src/mediation/mappings.rs:29 | the error text is the fixed prefix "Could not find device with name", two spaces, then exactly the name asked for |
| Mappings.LoadReturnsFirstDevice | src/mediation/mappings.rs:24-27 | whenever device i is the first with that name, the load returns its knobs |
| Mappings.LaterDevicesShadowed | src/mediation/mappings.rs:24 | appending devices to a table never changes a successful lookup: the first match wins |
| Decoder.KeyOf | src/mediation/mod.rs:256-259 | a Numbered key is the shortest all-digit text (no leading zero) that reads back as the controller number; a Special key is the name itself; the channel plays no part |
| Decoder.Increment | src/mediation/mod.rs:270 | for a 7-bit value, the increment is congruent to the raw value mod 128, lies in -64..63, and equals the raw value exactly when it is below 64 |
| Decoder.Clamp | src/mediation/mod.rs:271 | the result lies in the bounds, is the input inside them and the nearer bound outside |
| Decoder.TryIntoU8 | src/mediation/mod.rs:272 | the conversion succeeds exactly for 0..255 and keeps the value |
| Decoder.AsU8 | src/mediation/mod.rs:263-269 | a remembered LowRes value is read as is, a HighRes one truncated to its low byte |
| Decoder.RelativeStep | src/mediation/mod.rs:270-272 | the new value never exceeds 127, equals previous plus increment when that is in range, and saturates at 0 and 127 |
| Decoder.Decode | src/mediation/mod.rs:254-289 | Absolute mode and HighRes values pass through with the state unchanged; a Relative LowRes value is stored under the controller key as sent; first touch sends the raw value; a remembered key moves by the saturated step; the state keeps holding only LowRes 0..127 |
| Decoder.RememberedValueIsLowRes | src/mediation/mod.rs:263-268 | on a state holding only LowRes values, the HighRes truncation branch changes nothing |
| Decoder.RelativeFormula | src/mediation/mod.rs:262-275 | with remembered value p, the update sends and stores clamp(p + (x < 64 ? x : x - 128), 0, 127) |
| Decoder.NumberedAndSpecialCollide | src/mediation/mod.rs:256-259 | Numbered(7) and Special("7") share one decoder slot |
| Decoder.NumberedKeysDistinct | src/mediation/mod.rs:257 | two numbered controllers share a slot exactly when their numbers are equal |
| Decoder.DecodeAll | src/mediation/mod.rs:254-289 | a run of updates yields one value per input, all LowRes 0..127 when the state and inputs are |
| Decoder.FreshRelativeSequence | src/mediation/mod.rs:262-280 | from an empty state, raw 64, 2, 126 on one controller are sent as 64, 66, 64 |
| Decoder.AbsoluteIsIdentity | src/mediation/mod.rs:288 | in Absolute mode every run of values is sent unchanged, whatever the state |
| Knobs.Matches | src/mediation/mod.rs:305-323 | an entry with a channel matches exactly when the channel is equal, whatever the label; one without matches exactly when the label is equal |
| Knobs.MatchIgnoresLabelOrChannel | src/mediation/mod.rs:305-323 | an entry with a channel gives the same answer for every label; one without gives the same answer on every channel |
| Knobs.FindKnob | src/mediation/mod.rs:304-324 | the search returns the first matching entry's position, and none exactly when no entry matches |
| Knobs.PositionOf | src/mediation/mod.rs:326-329 | the position is the sent value over 127 for LowRes and over MAX_HIRES for HighRes |
| Knobs.PositionRange | src/mediation/mod.rs:42-43 | the divisor is positive; a LowRes position is at most 1 exactly for 0..127, a HighRes one exactly for 0..16256 |
| Knobs.KnobMessages | src/mediation/mod.rs:303-340 | at most one Knob message, present exactly when some entry matches, with the first match's position truncated to a byte and the sent value's position |
| Knobs.KnobIndexValid | src/mediation/mod.rs:331 | with at most 256 entries the emitted index is the first matching entry's valid index |
| MonitorLog.PushBack | src/mediation/mod.rs:41 | a push appends the entry; below capacity every earlier entry is kept and the log grows by one; a full log drops only its oldest entry and stays at 16 |
| MonitorLog.PushAll | src/mediation/mod.rs:47-48 | pushes keep a log within capacity |
| MonitorLog.Window | src/mediation/mod.rs:47-48 | the window of a history has min(length, 16) entries |
| MonitorLog.PushBackWindow | src/mediation/mod.rs:99 | pushing onto the window of a history gives the window of the longer history: the oldest entry is evicted first |
| MonitorLog.PushAllWindow | src/mediation/mod.rs:47-48 | after any pushes a log holds exactly the last 16 entries pushed, in arrival order |
| MonitorLog.PushAllConcat | src/mediation/mod.rs:297-336 | pushing two batches in turn is pushing their concatenation |
| MonitorLog.SummaryOf | src/mediation/mod.rs:297-336 | Raw leaves no tether log entry and every typed message leaves exactly one; NoteOn and NoteOff with the same payload leave the same note entry; ControlChange and Knob messages leave their own payloads |
| MonitorLog.Summaries | src/mediation/mod.rs:297-336 | a stream without Raw messages gives one log entry per message |
| MonitorLog.SummariesOfTyped | src/mediation/mod.rs:297-336 | a stream without Raw messages gives one entry per message, in order, each the one SummaryOf gives |
| MonitorLog.SummariesOfRaw | src/mediation/mod.rs:99-102 | Raw messages leave no entry in the tether log |
| MonitorLog.SummariesConcat | src/mediation/mod.rs:297-336 | the summaries of a concatenated stream are the concatenated summaries |
| Mediation.ChannelToInt | src/mediation/mod.rs:361-380 | every channel maps to 1..16 |
| Mediation.ChannelToIntInjective | src/mediation/mod.rs:361-380 | distinct channels get distinct numbers |
| Mediation.ControlOf | src/mediation/mod.rs:134-233 | an undefined controller is Numbered with a LowRes value; every named one is Special with its 14-bit HighRes value; the high-res undefined label is "UndefinedHighRes-c1-c2"; every other controller is ignored |
| Mediation.NamedControlRoundTrip | src/mediation/mod.rs:134-233 | reading a named controller's label back through NamedControl gives the same kind of controller, with any value and with its own |
| Mediation.LabelIgnoresValue | src/mediation/mod.rs:134-233 | a 14-bit controller's label does not depend on its value |
| Mediation.HighResLabelNotNamed | src/mediation/mod.rs:134-233 | the "UndefinedHighRes-c1-c2" label never equals a named controller's label |
| Mediation.NamedLabelsDistinct | src/mediation/mod.rs:134-233 | two 14-bit controllers, at most one of them UndefinedHighRes, get the same label exactly when they are the same kind |
| Mediation.HighResLabelsDistinct | src/mediation/mod.rs:152-160 | two UndefinedHighRes controllers get the same label exactly when both controller numbers agree, so "1-23" and "12-3" never collide |
| Mediation.ControlLabelsDistinct | src/mediation/mod.rs:134-233 | any two 14-bit controllers get the same label exactly when they are the same kind, with the same numbers for UndefinedHighRes |
| Mediation.Classify | src/mediation/mod.rs:104-244 | note events become note sends on channel 1..16; recognised control changes become control sends whose Numbered label goes with a LowRes value; everything else is ignored |
| Mediation.ControlChangeMessages | src/mediation/mod.rs:291-340 | first the ControlChange message with the decoded value, channel and label; second, exactly when an entry matches, the Knob message of the first match with the decoded value's position |
| Mediation.Outputs | src/mediation/mod.rs:96-246 | at most two typed messages, never Raw, none exactly for ignored events; a note event sends exactly its note message; a Knob message only ever follows its ControlChange |
| Mediation.KnownAfter | src/mediation/mod.rs:254-289 | only a control change in Relative mode can change the decoder state; it adds at most its own key and leaves every other key with its value; the state keeps holding LowRes 0..127 |
| Mediation.DecoderStateIgnoresChannel | src/mediation/mod.rs:256-259 | for any knob list, the same controller on two channels reads and writes the same decoder slot and sends the same ControlChange value |
| Mediation.PortKey | src/mediation/mod.rs:84 | the registry key of a port is its index in decimal: the shortest all-digit text (no leading zero) reading back as the index; the same text is compared in update_port_info |
| Mediation.Touched | src/mediation/mod.rs:343-349 | traffic never adds or removes a port; only the entry under the index's key gets the new timestamp |
| Mediation.TouchedEntryIsThePort | src/mediation/mod.rs:84-89 | in a registry built by add_port, the key matched is exactly the entry with that index |
| Mediation.MediationDataModel.constructor | src/mediation/mod.rs:61-80 | everything starts empty, disconnected, in the given mode |
| Mediation.MediationDataModel.AddPort | src/mediation/mod.rs:82-94 | the port is stored, or overwritten, under its decimal index |
| Mediation.MediationDataModel.HandleIncoming | src/mediation/mod.rs:96-246 | Raw first, then exactly the typed outputs; one inbound log entry per event and one outbound log entry per typed message; decoder state as KnownAfter; registry as Touched; invariants kept |
| Mediation.MediationDataModel.Translate | src/mediation/mod.rs:97-244 | logs the event and sends its Raw message, then exactly the typed outputs, with the same log and decoder results as HandleIncoming |
| Mediation.MediationDataModel.Dispatch | src/mediation/mod.rs:104-244 | sends and logs exactly the typed outputs of the event; decoder state as KnownAfter |
| Mediation.MediationDataModel.SendControlChange | src/mediation/mod.rs:248-341 | sends exactly ControlChangeMessages and logs each, with the decoder state after Decode |
| Mediation.MediationDataModel.PublishDecoded | src/mediation/mod.rs:291-340 | sends and logs the ControlChange message of the decoded value, then the Knob message of the first matching entry |
| Mediation.MediationDataModel.Publish | src/mediation/mod.rs:297-300 | `outbound` grows by exactly the message, and the outbound log pushes its one summary entry; the log stays within capacity |
| Mediation.MediationDataModel.PublishKnob | src/mediation/mod.rs:303-339 | `outbound` grows by exactly the Knob message of the first matching entry, or by nothing, and the outbound log pushes its summary |
| Mediation.MediationDataModel.DecodeValue | src/mediation/mod.rs:254-289 | the value and state the decoder produces, equal to Decode |
| Mediation.MediationDataModel.UpdatePortInfo | src/mediation/mod.rs:343-349 | the loop over the registry ends with exactly Touched |
| Mediation.MediationDataModel.AddKnobMapping | src/mediation/mod.rs:351-358 | the knob list becomes the loaded list, or stays as it was when the device is missing |
| Scenarios.RelativeEncoderSession | src/mediation/mod.rs:262-280 | Relative mode, controller 7 on channel 1, raw 64, 2, 126: Raw then ControlChange with 64, 66, 64 |
| Scenarios.AbsolutePassThroughSession | src/mediation/mod.rs:288-300 | Absolute mode, no knobs, controller 7 = 100: Raw then ControlChange(1, Numbered(7), LowRes(100)), decoder state untouched |
| Scenarios.ModWheelKnobSession | src/mediation/mod.rs:303-338 | a channel-less ModWheel entry and ModWheel 8192 on channel 3: Raw, ControlChange(3, "ModWheel", HighRes(8192)), Knob(0, 8192/16256) |
| Scenarios.NoteSession | src/mediation/mod.rs:108-118 | NoteOn 60/127 on channel 10: Raw then NoteOn(10, 60, 127) |
| Scenarios.PortSession | src/mediation/mod.rs:343-349 | traffic stamps a registered port and never creates an entry for an unregistered one |

## Left out

- Channels and threads: the senders and receivers, and the state-message receiver, are left out. Sending is appending to `outbound`, and a failed send (the `unwrap`) is not modelled.
- Raw payload encoding: the debug text and its MessagePack encoding (with the `expect` on failure) are left out. `Raw` carries the event itself.
- Log text: a log entry is the event or payload itself, in place of its `{:?}` text.
- `SystemTime::now()`: it is a `now` parameter. Monotonic timestamps are therefore not a property of the model.
- `f32` division: a knob position is the exact pair (value, divisor). Float rounding is not modelled.
- `load_knob_mappings`: the `include_str!` JSON file, its parsing and the `expect` on malformed JSON are left out. The table is a parameter of `LoadKnobMappings` and `AddKnobMapping`, and the error text is kept.
- The logging macros (`debug!`, `warn!`, `error!`, `info!`) are left out.
- `tether_connected` and `tether_uri` are set in `new` and never changed afterwards (src/mediation/mod.rs:74-75). Nothing in the code reads `tether_state_rx` (src/mediation/mod.rs:54), so the receiver is left out.
- Inbound events are taken as already parsed: data bytes are 7-bit and 14-bit controller values are at most 16383, as `MidiEvents` types them. The Rust fields are wider (`u8`, `u16`). `MediationDataModel.SendControlChange` and `MediationDataModel.DecodeValue` require a LowRes value to be at most 127, and the `StoredLowRes` invariant of the decoder relies on it.
- MIDI events other than note on/off and control changes are left out. So are controllers the engine does not handle. They are `OtherMidi`, `OtherVoice` and `OtherControl`, carrying a description the engine never inspects.
- `MediationDataModel.Valid` bounds each log and keeps the decoder and registry invariants. It does not tie `tetherMessageLog` to `outbound` directly. That link is stated per method through `PushAll`/`Summaries`, and `PushAllWindow` shows what it amounts to: the log holds the last 16 summaries.

Behaviour of the code that a reader might not expect, modelled as written:

- The code uses `MAX_HIRES` = 2^14 − 128 = 16256, where the 14-bit ceiling 16383 might be expected. So a HighRes value in 16257..16383 gives a position above 1 (`Knobs.PositionRange`).
- A knob entry that names a channel matches on the channel alone, whatever its label (`Knobs.Matches`). A reader might expect it to need both channel and label.
- A device missing from the table is an `Err`. `add_knob_mapping` then keeps the knob list it had; it does not install an empty list.
- The outbound log records only typed messages. The Raw message is not logged there; only the event goes to the inbound log.
- `KnobMapping.channel` is declared `u8` in src/mediation/mappings.rs:9, while src/mediation/mod.rs:305 reads it as an `Option`. The model follows the use: `Option<int>`, with `None` for an entry without a channel.
- `i as u8` truncates a knob index of 256 or more. The model keeps the truncation (`% 256`), and `Knobs.KnobIndexValid` shows the index is valid when the list has at most 256 entries.

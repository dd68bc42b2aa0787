/**
 * The state snapshot pushed by the controller host: one JSON document per
 * socket message, decoded wholesale into a `State`.
 */
module Snapshot {
  import opened Wrappers

  /** A named value attached to a control; `value` is a JSON number in 0..1. */
  datatype Binding = Binding(name: string, value: real, displayedValue: string)

  /** A pad or a knob, with zero or more bindings. */
  datatype Control = Control(name: string, bindings: seq<Binding>)

  datatype BrowserResult = BrowserResult(name: string, isSelected: bool)

  datatype Device = Device(name: string, enabled: bool, isSelected: bool)

  datatype TrackType = Group | Instrument | Audio | Hybrid | Effect | Master

  /** `kind` is the source's `type` field (a reserved word here). */
  datatype Track = Track(name: string, arm: bool, isSelected: bool, kind: TrackType, devices: seq<Device>)

  /** `browserResults` is `null` when the host has no browser open. */
  datatype State = State(
    pads: seq<Control>,
    knobs: seq<Control>,
    mode: string,
    browserResults: Option<seq<BrowserResult>>,
    tracks: seq<Track>)
}

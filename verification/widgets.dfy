/**
 * The small mappings the widgets apply: `Box` spacing and style, `Text`
 * weight, and the labels `Bindings` puts on pads and knobs.
 */
module Widgets {
  import opened Wrappers
  import opened Snapshot
  import opened HexColor
  import opened Shadow

  datatype Space = Sm | Md | Lg

  /** `Box`'s spacing in viewport-width units; an omitted `space` means `md`. */
  function SpaceDim(space: Option<Space>): (d: real)
    ensures space == Some(Sm) ==> d == 0.5
    ensures space.None? || space == Some(Md) ==> d == 1.0
    ensures space == Some(Lg) ==> d == 2.0
  {
    match space.GetOr(Md)
    case Sm => 0.5
    case Md => 1.0
    case Lg => 2.0
  }

  /** The spacing grows strictly from `sm` through `md` to `lg`, and the default is `md`. */
  lemma SpaceDimOrdered()
    ensures 0.0 < SpaceDim(Some(Sm)) < SpaceDim(Some(Md)) < SpaceDim(Some(Lg))
    ensures SpaceDim(None) == SpaceDim(Some(Md))
  {
  }

  /** What `Box` computes before the caller's own `style` is spread over it. */
  datatype BoxStyle = BoxStyle(shadow: ShadowStyle, borderRadius: real, padding: real, rowGap: real, columnGap: real)

  /** `Box` under `theme`; `neuShadow` is the shadow argument it hands to `useNeuBoxShadow`. */
  function Box(theme: Theme, space: Option<Space>, neuShadow: ShadowRequest): (b: BoxStyle)
    requires neuShadow.Request? ==> IsColor(Merge(theme, neuShadow.overrides).color)
    // Padding and both gaps are one and the same spacing; the corners follow the theme.
    ensures b.padding == b.rowGap == b.columnGap == SpaceDim(space)
    ensures b.borderRadius == theme.roundness
    ensures b.shadow.NoStyle? <==> neuShadow.Disabled?
    // The shadow is the one `useNeuBoxShadow` derives from the same argument.
    ensures b.shadow == UseNeuBoxShadow(theme, neuShadow)
  {
    var dim := SpaceDim(space);
    BoxStyle(UseNeuBoxShadow(theme, neuShadow), theme.roundness, dim, dim, dim)
  }

  datatype Weight = Light | Medium | Bold

  /** `Text`'s CSS font weight; an omitted `weight` means `bold`. */
  function FontWeight(weight: Option<Weight>): (w: int)
    ensures weight == Some(Light) ==> w == 400
    ensures weight == Some(Medium) ==> w == 700
    ensures weight.None? || weight == Some(Bold) ==> w == 1000
  {
    match weight.GetOr(Bold)
    case Light => 400
    case Medium => 700
    case Bold => 1000
  }

  /** Heavier names give strictly heavier weights, and the default is the heaviest. */
  lemma FontWeightOrdered()
    ensures FontWeight(Some(Light)) < FontWeight(Some(Medium)) < FontWeight(Some(Bold))
    ensures forall w :: FontWeight(Some(w)) <= FontWeight(None)
  {
  }

  /** `bindings.find(b => b.name.length > 0)`, as an index. */
  function FirstNamed(bindings: seq<Binding>): (r: Option<nat>)
    ensures r.Some? ==> r.value < |bindings| && bindings[r.value].name != []
    ensures r.Some? ==> forall j :: 0 <= j < r.value ==> bindings[j].name == []
    ensures r.None? ==> forall j :: 0 <= j < |bindings| ==> bindings[j].name == []
    decreases |bindings|
  {
    if bindings == [] then None
    else if |bindings[0].name| > 0 then Some(0)
    else match FirstNamed(bindings[1..]) {
      case None => None
      case Some(i) => Some(i + 1)
    }
  }

  /** What a knob shows: a label, and the indicator position when a binding was found. */
  datatype KnobFace = KnobFace(text: string, percentage: Option<real>)

  /** The knob for one control: the first binding with a non-empty name, or an empty label. */
  function KnobFor(control: Control): (k: KnobFace)
    ensures k.text == [] <==> forall j :: 0 <= j < |control.bindings| ==> control.bindings[j].name == []
    ensures k.percentage.None? <==> k.text == []
    ensures k.text != [] ==>
      exists i :: 0 <= i < |control.bindings| && control.bindings[i].name == k.text
        && control.bindings[i].value == k.percentage.value
        && (forall j :: 0 <= j < i ==> control.bindings[j].name == [])
  {
    match FirstNamed(control.bindings)
    case None => KnobFace([], None)
    case Some(i) => KnobFace(control.bindings[i].name, Some(control.bindings[i].value))
  }

  /** The pad label: the first binding's name, absent when the pad has no binding. */
  function PadText(control: Control): (t: Option<string>)
    ensures t.None? <==> control.bindings == []
    ensures t.Some? ==> t.value == control.bindings[0].name
  {
    if control.bindings == [] then None else Some(control.bindings[0].name)
  }

  /** The pad and knob faces `Bindings` lays out. */
  datatype BindingsView = BindingsView(pads: seq<Option<string>>, knobs: seq<KnobFace>)

  /** `Bindings`: nothing without a snapshot, otherwise one face per pad and per knob, in order. */
  function Bindings(state: Option<State>): (v: Option<BindingsView>)
    ensures v.None? <==> state.None?
    ensures v.Some? ==> |v.value.pads| == |state.value.pads| && |v.value.knobs| == |state.value.knobs|
    ensures v.Some? ==> forall i :: 0 <= i < |v.value.pads| ==> v.value.pads[i] == PadText(state.value.pads[i])
    ensures v.Some? ==> forall i :: 0 <= i < |v.value.knobs| ==> v.value.knobs[i] == KnobFor(state.value.knobs[i])
  {
    match state
    case None => None
    case Some(s) =>
      Some(BindingsView(
        seq(|s.pads|, i requires 0 <= i < |s.pads| => PadText(s.pads[i])),
        seq(|s.knobs|, i requires 0 <= i < |s.knobs| => KnobFor(s.knobs[i]))))
  }
}

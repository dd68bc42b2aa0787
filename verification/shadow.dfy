/**
 * The theme and the neumorphic box shadow derived from it.
 *
 * `useNeuBoxShadow(props)` merges `{ color: theme.bg, ...theme, ...props }`
 * and hands the result to `neuBoxShadow`, which yields an empty style for
 * `false` and otherwise two shadow layers: one offset down-right in the
 * darkened colour, one offset up-left in the lightened colour.
 *
 * An object spread is modelled field by field: an `Option` field that is
 * `None` is a key the caller left out, so the theme's value shows through.
 */
module Shadow {
  import opened Wrappers
  import opened HexColor

  /** Display parameters; lengths are CSS pixels, `space` and `roundness` viewport units. */
  datatype Theme = Theme(
    bg: string,
    fg: string,
    blur: real,
    distance: real,
    intensity: real,
    space: real,
    roundness: real)

  /** The theme every view starts from. */
  const DefaultTheme: Theme := Theme("#f6f5f4", "#c64600", 15.0, 5.0, 0.4, 1.0, 0.5)

  /** `Partial<NeuShadowProps>`: any subset of the shadow fields. */
  datatype ShadowOverrides = ShadowOverrides(
    color: Option<string>,
    distance: Option<real>,
    blur: Option<real>,
    intensity: Option<real>,
    inset: Option<bool>)

  /** Nothing overridden: what an omitted `props` argument spreads. */
  const NoOverrides: ShadowOverrides := ShadowOverrides(None, None, None, None, None)

  /** The argument of `useNeuBoxShadow`: `false`, or a (possibly empty) set of overrides. */
  datatype ShadowRequest = Disabled | Request(overrides: ShadowOverrides)

  /** The merged parameters; `inset` is still optional, `neuBoxShadow` defaults it. */
  datatype ShadowParams = ShadowParams(color: string, distance: real, blur: real, intensity: real, inset: Option<bool>)

  /** One layer of a CSS `box-shadow`. */
  datatype ShadowLayer = ShadowLayer(inset: bool, dx: real, dy: real, blur: real, color: string)

  /** The style `neuBoxShadow` contributes: nothing, or a `box-shadow` list. */
  datatype ShadowStyle = NoStyle | BoxShadow(layers: seq<ShadowLayer>)

  /** The theme's own shadow parameters, before any caller override. */
  function ThemeShadow(theme: Theme): ShadowParams {
    ShadowParams(theme.bg, theme.distance, theme.blur, theme.intensity, None)
  }

  /** `{ color: theme.bg, ...theme, ...props }`, restricted to the fields a shadow reads. */
  function Merge(theme: Theme, o: ShadowOverrides): (p: ShadowParams)
    // Each field is the caller's when supplied, the theme's otherwise.
    ensures p.color == (if o.color.Some? then o.color.value else theme.bg)
    ensures p.distance == (if o.distance.Some? then o.distance.value else theme.distance)
    ensures p.blur == (if o.blur.Some? then o.blur.value else theme.blur)
    ensures p.intensity == (if o.intensity.Some? then o.intensity.value else theme.intensity)
    ensures p.inset == o.inset
  {
    ShadowParams(
      o.color.GetOr(theme.bg),
      o.distance.GetOr(theme.distance),
      o.blur.GetOr(theme.blur),
      o.intensity.GetOr(theme.intensity),
      o.inset)
  }

  /** Without overrides the merge is the theme's own shadow. */
  lemma MergeNothing(theme: Theme)
    ensures Merge(theme, NoOverrides) == ThemeShadow(theme)
  {
  }

  /** When the caller supplies every field, the theme has no say. */
  lemma MergeComplete(t1: Theme, t2: Theme, o: ShadowOverrides)
    requires o.color.Some? && o.distance.Some? && o.blur.Some? && o.intensity.Some?
    ensures Merge(t1, o) == Merge(t2, o)
  {
  }

  /**
   * Fields the caller supplies leave the theme out; fields it omits keep the
   * theme's value, whatever the overrides say elsewhere.
   */
  lemma MergeFieldwise(theme: Theme, theme': Theme, o: ShadowOverrides)
    requires o.color.None? ==> theme.bg == theme'.bg
    requires o.distance.None? ==> theme.distance == theme'.distance
    requires o.blur.None? ==> theme.blur == theme'.blur
    requires o.intensity.None? ==> theme.intensity == theme'.intensity
    ensures Merge(theme, o) == Merge(theme', o)
  {
  }

  /** The CSS of `neuBoxShadow`; `None` is the `false` argument. */
  function NeuBoxShadow(props: Option<ShadowParams>): (s: ShadowStyle)
    requires props.Some? ==> IsColor(props.value.color)
    ensures s.NoStyle? <==> props.None?
    ensures s.BoxShadow? ==> |s.layers| == 2 && IsColor(s.layers[0].color) && IsColor(s.layers[1].color)
  {
    match props
    case None => NoStyle
    case Some(p) =>
      var inset := p.inset.GetOr(false);
      var dark := Luminance(p.color, -p.intensity);
      var light := Luminance(p.color, p.intensity);
      BoxShadow([
        ShadowLayer(inset, p.distance, p.distance, p.blur, dark),
        ShadowLayer(inset, -p.distance, -p.distance, p.blur, light)
      ])
  }

  /** `useNeuBoxShadow(props)` under `theme`. */
  function UseNeuBoxShadow(theme: Theme, req: ShadowRequest): (s: ShadowStyle)
    requires req.Request? ==> IsColor(Merge(theme, req.overrides).color)
    ensures s.NoStyle? <==> req.Disabled?
    // A request is shadowed with the merged parameters.
    ensures req.Request? ==> s == NeuBoxShadow(Some(Merge(theme, req.overrides)))
  {
    match req
    case Disabled => NeuBoxShadow(None)
    case Request(o) => NeuBoxShadow(Some(Merge(theme, o)))
  }

  /**
   * The two layers are mirror images: same inset flag and blur, opposite
   * offsets of the merged distance, and an inset only when asked for.
   */
  lemma ShadowLayersMirror(theme: Theme, o: ShadowOverrides)
    requires IsColor(Merge(theme, o).color)
    ensures var s := UseNeuBoxShadow(theme, Request(o));
      && s.BoxShadow? && |s.layers| == 2
      && s.layers[0].inset == s.layers[1].inset == (o.inset == Some(true))
      && s.layers[0].blur == s.layers[1].blur == Merge(theme, o).blur
      && s.layers[0].dx == s.layers[0].dy == Merge(theme, o).distance
      && s.layers[1].dx == s.layers[1].dy == -Merge(theme, o).distance
  {
  }

  /**
   * With a non-negative intensity the down-right layer is no lighter than the
   * base colour in any channel, and the up-left layer no darker.
   */
  lemma ShadowBracketsBase(theme: Theme, o: ShadowOverrides, k: nat)
    requires IsColor(Merge(theme, o).color) && k < 3
    requires Merge(theme, o).intensity >= 0.0
    ensures var s := UseNeuBoxShadow(theme, Request(o));
      var base := Merge(theme, o).color;
      && s.BoxShadow? && |s.layers| == 2
      && Channel(s.layers[0].color, k) <= Channel(base, k) <= Channel(s.layers[1].color, k)
  {
    var p := Merge(theme, o);
    var s := UseNeuBoxShadow(theme, Request(o));
    assert s.layers[0].color == Luminance(p.color, -p.intensity);
    assert s.layers[1].color == Luminance(p.color, p.intensity);
    LuminancePair(p.color, p.intensity, k);
  }

  /**
   * The down-right layer takes the colour darkened by the intensity, the
   * up-left layer the same colour lightened by it.
   */
  lemma NeuShadowColors(p: ShadowParams)
    requires IsColor(p.color)
    ensures var s := NeuBoxShadow(Some(p));
      && s.BoxShadow? && |s.layers| == 2
      && s.layers[0].color == Luminance(p.color, -p.intensity)
      && s.layers[1].color == Luminance(p.color, p.intensity)
  {
  }

  /** A layer coloured `Luminance(base, intensity)` has the scaled channels of `base`. */
  lemma LayerChannel(base: string, intensity: real, k: nat, layer: string)
    requires IsColor(base) && k < 3 && layer == Luminance(base, intensity)
    ensures Channel(layer, k) == ScaleChannel(Channel(base, k), intensity)
  {
    LuminanceChannel(base, intensity, k);
  }

  /**
   * Channel by channel, the down-right layer is the base colour scaled by
   * `1 - intensity` and the up-left layer the base colour scaled by
   * `1 + intensity`.
   */
  lemma NeuShadowChannels(p: ShadowParams, k: nat)
    requires IsColor(p.color) && k < 3
    ensures var s := NeuBoxShadow(Some(p));
      && s.BoxShadow? && |s.layers| == 2
      && Channel(s.layers[0].color, k) == ScaleChannel(Channel(p.color, k), -p.intensity)
      && Channel(s.layers[1].color, k) == ScaleChannel(Channel(p.color, k), p.intensity)
  {
    var s := NeuBoxShadow(Some(p));
    assert s.layers[0].color == Luminance(p.color, -p.intensity);
    assert s.layers[1].color == Luminance(p.color, p.intensity);
    LayerChannel(p.color, -p.intensity, k, s.layers[0].color);
    LayerChannel(p.color, p.intensity, k, s.layers[1].color);
  }

  /** `NeuShadowChannels` for the shadow `useNeuBoxShadow` builds from the merged parameters. */
  lemma ShadowLayerChannels(theme: Theme, o: ShadowOverrides, k: nat)
    requires IsColor(Merge(theme, o).color) && k < 3
    ensures var s := UseNeuBoxShadow(theme, Request(o));
      var p := Merge(theme, o);
      && s.BoxShadow? && |s.layers| == 2
      && Channel(s.layers[0].color, k) == ScaleChannel(Channel(p.color, k), -p.intensity)
      && Channel(s.layers[1].color, k) == ScaleChannel(Channel(p.color, k), p.intensity)
  {
    NeuShadowChannels(Merge(theme, o), k);
  }

  /** With zero intensity both layers take the base colour unchanged. */
  lemma FlatShadowKeepsColor(theme: Theme, o: ShadowOverrides)
    requires IsColor(Merge(theme, o).color)
    requires Merge(theme, o).intensity == 0.0
    ensures var s := UseNeuBoxShadow(theme, Request(o));
      && s.BoxShadow? && |s.layers| == 2
      && s.layers[0].color == s.layers[1].color == Merge(theme, o).color
  {
    var p := Merge(theme, o);
    assert -p.intensity == 0.0;
    LuminanceIdentity(p.color);
  }

  /** The default theme's background is a colour `luminance` accepts. */
  lemma DefaultThemeShadows(o: ShadowOverrides)
    requires o.color.None?
    ensures IsColor(Merge(DefaultTheme, o).color)
  {
  }
}

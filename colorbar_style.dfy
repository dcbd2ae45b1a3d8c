/**
 * The pure part of `addColorbar`: the style written onto the colorbar's
 * container (a default right-hand vertical bar, then at most one of four
 * position presets on top of it) and the tick configuration handed to the
 * colorbar.
 */
module ColorbarStyle {
  import opened Js
  import opened DomModel

  /** The bar's thickness: `options.width || '2.5%'`. */
  function Thickness(width: JsValue): JsValue {
    Or(width, Str("2.5%"))
  }

  /** The style every container starts from: a vertical bar, right-hand, centred vertically. */
  function DefaultStyles(width: JsValue): Style {
    map[
      Position := Str("absolute"),
      BoxSizing := Str("border-box"),
      Border := Str("solid 1px #555"),
      Cursor := Str("initial"),
      Width := Thickness(width),
      Height := Str("50%"),
      Right := Str("5%"),
      Top := Str("50%"),
      Transform := Str("translateY(-50%)")
    ]
  }

  /** The keys of `addColorbar`'s `positionStyles` table. */
  datatype Anchor = LeftAnchor | RightAnchor | TopAnchor | BottomAnchor

  /**
   * `options.position in positionStyles`: the preset that a position value
   * selects, if any. Only the four strings name a preset.
   */
  function PresetOf(position: JsValue): Option<Anchor> {
    if position == Str("left") then Some(LeftAnchor)
    else if position == Str("right") then Some(RightAnchor)
    else if position == Str("top") then Some(TopAnchor)
    else if position == Str("bottom") then Some(BottomAnchor)
    else None
  }

  /** `positionStyles[anchor]`; the top and bottom presets turn the bar horizontal. */
  function PositionStyles(anchor: Anchor, width: JsValue): Style {
    match anchor
    case LeftAnchor => map[Left := Str("5%"), Right := Str("unset")]
    case RightAnchor => map[Right := Str("5%"), Left := Str("unset")]
    case TopAnchor => map[
      Top := Str("5%"),
      Bottom := Str("unset"),
      Height := Thickness(width),
      Width := Str("50%"),
      Transform := Str("translateX(-50%)")
    ]
    case BottomAnchor => map[
      Bottom := Str("5%"),
      Top := Str("unset"),
      Height := Thickness(width),
      Width := Str("50%"),
      Transform := Str("translateX(-50%)")
    ]
  }

  predicate Horizontal(position: JsValue) {
    position == Str("top") || position == Str("bottom")
  }

  /**
   * The container's style: the defaults assigned onto an empty style, then the
   * selected preset, if any, assigned on top.
   */
  function ContainerStyle(position: JsValue, width: JsValue): (r: Style)
    ensures DefaultStyles(width).Keys <= r.Keys
    // properties no preset touches
    ensures r[Position] == Str("absolute") && r[BoxSizing] == Str("border-box")
    ensures r[Border] == Str("solid 1px #555") && r[Cursor] == Str("initial")
  {
    var base := Assign(map[], DefaultStyles(width));
    match PresetOf(position)
    case Some(anchor) => Assign(base, PositionStyles(anchor, width))
    case None => base
  }

  /** The container style as one map union, split on the preset. */
  lemma PresetSplit(position: JsValue, width: JsValue)
    ensures ContainerStyle(position, width) ==
      match PresetOf(position)
      case Some(anchor) => DefaultStyles(width) + PositionStyles(anchor, width)
      case None => DefaultStyles(width)
  {
    assert map[] + DefaultStyles(width) == DefaultStyles(width);
  }

  /** A position other than the four names leaves the default style exactly as it is. */
  lemma NoPresetKeepsDefaults(position: JsValue, width: JsValue)
    requires PresetOf(position).None?
    ensures ContainerStyle(position, width) == DefaultStyles(width)
  {
  }

  /** Top and bottom swap width and height and centre along x; every other position keeps the vertical bar. */
  lemma ContainerAxes(position: JsValue, width: JsValue)
    ensures var r := ContainerStyle(position, width);
      if Horizontal(position) then
        r[Width] == Str("50%") && r[Height] == Thickness(width) && r[Transform] == Str("translateX(-50%)")
      else
        r[Width] == Thickness(width) && r[Height] == Str("50%") && r[Transform] == Str("translateY(-50%)")
  {
    PresetSplit(position, width);
  }

  /** Where each preset anchors the bar, and where the defaults leave it. */
  lemma ContainerAnchors(position: JsValue, width: JsValue)
    ensures var r := ContainerStyle(position, width);
      match PresetOf(position)
      case Some(LeftAnchor) =>
        Left in r && r[Left] == Str("5%") && Right in r && r[Right] == Str("unset") && Top in r && r[Top] == Str("50%") && Bottom !in r
      case Some(RightAnchor) =>
        Right in r && r[Right] == Str("5%") && Left in r && r[Left] == Str("unset") && Top in r && r[Top] == Str("50%") && Bottom !in r
      case Some(TopAnchor) =>
        Top in r && r[Top] == Str("5%") && Bottom in r && r[Bottom] == Str("unset") && Right in r && r[Right] == Str("5%") && Left !in r
      case Some(BottomAnchor) =>
        Bottom in r && r[Bottom] == Str("5%") && Top in r && r[Top] == Str("unset") && Right in r && r[Right] == Str("5%") && Left !in r
      case None =>
        Right in r && r[Right] == Str("5%") && Top in r && r[Top] == Str("50%") && Left !in r && Bottom !in r
  {
    PresetSplit(position, width);
  }

  /** The tick label style the colorbar gets unless `options.ticks.style` replaces it. */
  const DefaultTickStyle: JsValue := Obj(map[
    "font" := Str("12px Arial"),
    "color" := Str("#fff"),
    "maxNumTicks" := Num(8),
    "tickSize" := Num(5),
    "tickWidth" := Num(1),
    "labelMargin" := Num(3)
  ])

  /**
   * `{ position: 'left', style: {...}, ...options.ticks }`: the caller's
   * properties win, a supplied `style` replacing the default one as a whole.
   */
  function TicksConfig(ticks: JsValue): (r: Props)
    ensures r.Keys == {"position", "style"} + Spread(ticks).Keys
    ensures forall k :: k in Spread(ticks) ==> r[k] == Spread(ticks)[k]
    ensures "position" !in Spread(ticks) ==> r["position"] == Str("left")
    ensures "style" !in Spread(ticks) ==> r["style"] == DefaultTickStyle
  {
    Assign(map["position" := Str("left"), "style" := DefaultTickStyle], Spread(ticks))
  }
}

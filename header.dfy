/** The header strip of a frame (`RenderThread.render_header`) and its
    battery gauge (`RenderThread.render_battery`): integer layout of the
    status text, the emoji and the vector-drawn battery icon, and the rule
    that picks the colour of the battery label. Glyph rasterisation is out
    of the model; the text extents it would measure are parameters. */
module Header {
  import opened Common

  const StatusFontSize: int := 24
  const EmojiFontSize: int := 40
  const BatteryFontSize: int := 13

  const BatteryWidth: int := 26
  const BatteryHeight: int := 15
  const BatteryMarginRight: int := 20
  const CornerRadius: int := 3
  const LineWidth: int := 2
  const HeadWidth: int := 2
  const HeadHeight: int := 5
  /** A fill luminance strictly above this selects a dark label. */
  const BrightnessThreshold: real := 128.0

  /** A colour as the drawing calls accept it: a colour name or an RGB tuple. */
  datatype Colour = Named(name: string) | Rgb(r: int, g: int, b: int)

  /** A rectangle given by two corners, as `draw.rectangle` and `draw.arc` take it. */
  datatype Box = Box(x0: int, y0: int, x1: int, y1: int)

  /** A quarter circle inside `bounds`, from angle `start` to angle `stop` in degrees. */
  datatype Arc = Arc(bounds: Box, start: int, stop: int)

  /** A straight line from one point to another. */
  datatype Segment = Segment(x0: int, y0: int, x1: int, y1: int)

  /** The label colours the gauge chooses between. */
  datatype LabelColour = Black | White

  /** Everything the gauge draws, in the order it draws it: four corner arcs,
      four edges, the optional fill, the terminal nub and the level label. */
  datatype BatteryIcon = BatteryIcon(
    x: int, y: int,
    corners: seq<Arc>, edges: seq<Segment>,
    fill: Option<Box>, fillColour: Colour,
    head: Box,
    labelText: string, labelFontSize: int, labelX: int, labelY: int, labelColour: LabelColour)

  /** Everything the header draws: status text, emoji and, when a battery level is known, the gauge. */
  datatype HeaderLayout = HeaderLayout(
    status: string, statusX: int, statusY: int,
    emoji: string, emojiX: int, emojiY: int,
    battery: Option<BatteryIcon>,
    topHeight: int)

  /** The gauge outline: the rectangle the icon's corners and edges trace. */
  function Outline(icon: BatteryIcon): Box {
    Box(icon.x, icon.y, icon.x + BatteryWidth, icon.y + BatteryHeight)
  }

  predicate BoxInside(inner: Box, outer: Box) {
    outer.x0 <= inner.x0 <= inner.x1 <= outer.x1 && outer.y0 <= inner.y0 <= inner.y1 <= outer.y1
  }

  predicate SegmentInside(s: Segment, outer: Box) {
    outer.x0 <= s.x0 <= outer.x1 && outer.x0 <= s.x1 <= outer.x1
    && outer.y0 <= s.y0 <= outer.y1 && outer.y0 <= s.y1 <= outer.y1
  }

  /** The label colour rule: dark on a bright fill, light otherwise. */
  function LabelFor(luminance: real): (c: LabelColour)
    ensures c == Black <==> luminance > BrightnessThreshold
  {
    if luminance > BrightnessThreshold then Black else White
  }

  /** The battery gauge at the right of the header. `textWidth` is the width
      of the label's bounding box and `textLineHeight` the font's ascent plus
      descent, both measured in the `BatteryFontSize` font the label is drawn in; `luminance` is the luminance of the fill colour. */
  function RenderBattery(level: int, colour: Option<Colour>, imageWidth: int, statusFontSize: int,
                         textWidth: int, textLineHeight: int, luminance: real): (icon: BatteryIcon)
    ensures icon.x == imageWidth - 46 && icon.y == statusFontSize / 2
    ensures icon.fillColour == colour.GetOr(Named("black"))
    ensures icon.fill.Some? <==> icon.fillColour != Rgb(0, 0, 0)
    ensures icon.fill.Some? ==> BoxInside(icon.fill.value, Outline(icon))
    ensures |icon.corners| == 4 && forall a :: a in icon.corners ==> BoxInside(a.bounds, Outline(icon))
    ensures |icon.edges| == 4 && forall s :: s in icon.edges ==> SegmentInside(s, Outline(icon))
    // The terminal nub sits on the right edge, vertically centred.
    ensures icon.head == Box(icon.x + 26, icon.y + 5, icon.x + 28, icon.y + 10)
    ensures icon.head.x0 == Outline(icon).x1
    ensures icon.head.y0 - Outline(icon).y0 == Outline(icon).y1 - icon.head.y1
    // The label is the level in decimal, horizontally centred to within one pixel.
    ensures icon.labelText == IntToString(level) && icon.labelFontSize == BatteryFontSize
    ensures BatteryWidth - textWidth - 1 <= 2 * (icon.labelX - icon.x) <= BatteryWidth - textWidth
    ensures BatteryHeight - textLineHeight - 1 <= 2 * (icon.labelY - icon.y) <= BatteryHeight - textLineHeight
    ensures icon.labelColour == Black <==> luminance > BrightnessThreshold
  {
    var x := imageWidth - BatteryWidth - BatteryMarginRight;
    var y := statusFontSize / 2;
    var fillColour := colour.GetOr(Named("black"));
    var r := CornerRadius;
    var corners := [
      Arc(Box(x, y, x + 2 * r, y + 2 * r), 180, 270),
      Arc(Box(x + BatteryWidth - 2 * r, y, x + BatteryWidth, y + 2 * r), 270, 0),
      Arc(Box(x, y + BatteryHeight - 2 * r, x + 2 * r, y + BatteryHeight), 90, 180),
      Arc(Box(x + BatteryWidth - 2 * r, y + BatteryHeight - 2 * r, x + BatteryWidth, y + BatteryHeight), 0, 90)];
    var edges := [
      Segment(x + r, y, x + BatteryWidth - r, y),
      Segment(x + r, y + BatteryHeight, x + BatteryWidth - r, y + BatteryHeight),
      Segment(x, y + r, x, y + BatteryHeight - r),
      Segment(x + BatteryWidth, y + r, x + BatteryWidth, y + BatteryHeight - r)];
    var fill :=
      if fillColour != Rgb(0, 0, 0) then
        Some(Box(x + LineWidth / 2, y + LineWidth / 2, x + BatteryWidth - LineWidth / 2, y + BatteryHeight - LineWidth / 2))
      else None;
    var headX := x + BatteryWidth;
    var headY := y + (BatteryHeight - HeadHeight) / 2;
    var labelY := y + (BatteryHeight - textLineHeight) / 2;
    var labelX := x + (BatteryWidth - textWidth) / 2;
    BatteryIcon(x, y, corners, edges, fill, fillColour,
                Box(headX, headY, headX + HeadWidth, headY + HeadHeight),
                IntToString(level), BatteryFontSize, labelX, labelY, LabelFor(luminance))
  }

  /** The header: status at the left corner, emoji centred below it, battery
      gauge at the right when a level is known. The status and emoji drawn are
      the current global values, whatever the caller passes. */
  function RenderHeader(currentStatus: string, currentEmoji: string,
                        batteryLevel: Option<int>, batteryColour: Option<Colour>,
                        imageWidth: int, cornerHeight: int, emojiWidth: int,
                        textWidth: int, textLineHeight: int, luminance: real): (r: HeaderLayout)
    ensures r.status == currentStatus && r.statusX == cornerHeight && r.statusY == 0
    ensures r.emoji == currentEmoji && r.emojiY == StatusFontSize + 8
    ensures imageWidth - emojiWidth - 1 <= 2 * r.emojiX <= imageWidth - emojiWidth
    ensures r.battery.Some? <==> batteryLevel.Some?
    ensures r.battery.Some? ==> r.battery.value.x == imageWidth - 46 && r.battery.value.y == StatusFontSize / 2
    // The gauge shows the level passed in, in its colour, with the label colour of the fill's luminance.
    ensures batteryLevel.Some? ==>
      r.battery == Some(RenderBattery(batteryLevel.value, batteryColour, imageWidth, StatusFontSize,
                                      textWidth, textLineHeight, luminance))
    ensures r.battery.Some? ==>
      && r.battery.value.labelText == IntToString(batteryLevel.value)
      && r.battery.value.fillColour == batteryColour.GetOr(Named("black"))
      && (r.battery.value.labelColour == Black <==> luminance > BrightnessThreshold)
    ensures r.topHeight == StatusFontSize + EmojiFontSize + 20
  {
    HeaderLayout(
      currentStatus, cornerHeight, 0,
      currentEmoji, (imageWidth - emojiWidth) / 2, StatusFontSize + 8,
      if batteryLevel.Some? then
        Some(RenderBattery(batteryLevel.value, batteryColour, imageWidth, StatusFontSize,
                           textWidth, textLineHeight, luminance))
      else None,
      StatusFontSize + EmojiFontSize + 20)
  }

  /** A bright fill gets a dark label and a dim one a light label. */
  lemma LabelExamples()
    ensures LabelFor(200.0) == Black
    ensures LabelFor(40.0) == White
    ensures LabelFor(128.0) == White
  {
  }
}

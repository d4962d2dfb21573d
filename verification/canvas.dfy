/**
 * The roulette component's drawing routine. Instead of painting pixels, the
 * 2D context records each path-and-paint sequence (build the path, set the
 * style, then `fill`, `stroke` or `fillText`) as one abstract command, and
 * the wheel's drawing is specified by the sequence of commands one
 * redraw appends. Angles are exact reals measured in turns: one turn is
 * 2π radians, so the source's `Math.PI / 2` is a quarter turn.
 */
module RouletteCanvas {
  import opened Hex
  import opened Palette
  import Roulette

  /** `stroke_color`: every wedge border is drawn in this colour. */
  const StrokeColor: string := "#485D6C"

  /** `context.lineWidth = 5` for the wedge borders. */
  const StrokeWidth: nat := 5

  /** The font of every label. */
  const LabelFont: string := "30px 'Lobster'"

  /** A label starts this far from the centre along its wedge's bisector. */
  const LabelX: real := 100.0

  /** The label's baseline is moved this far across the bisector. */
  const LabelShift: real := 7.0

  /** The wheel stays this far inside the smaller half-dimension of the canvas. */
  const RimMargin: real := 5.0

  /** The names on the wheel before the user edits the list: six players, twice. */
  const DefaultItems: seq<string> := [
    "Joueur 1", "Joueur 2", "Joueur 3", "Joueur 4", "Joueur 5", "Joueur 6",
    "Joueur 1", "Joueur 2", "Joueur 3", "Joueur 4", "Joueur 5", "Joueur 6"
  ]

  /**
   * The path `moveTo(centre); lineTo(rim at start); arc(centre, radius,
   * start, end, clockwise)`: a pie slice from `start` to `end` turns. The
   * path is not closed; `fill()` closes it implicitly, and `stroke()` draws
   * the starting radius and the arc only.
   */
  datatype Wedge = Wedge(centerX: real, centerY: real, radius: real, start: real, end: real)

  /** One drawing call on the canvas, with the style in force for it. */
  datatype Command =
    | Cleared(width: nat, height: nat)
    | Filled(wedge: Wedge, fill: string)
    | Stroked(wedge: Wedge, stroke: string, lineWidth: nat)
      /** `fillText(text, x, 0, maxWidth)` after translating to the centre,
          rotating by `rotation` turns and translating by `(0, shift)`. */
    | Text(text: string, centerX: real, centerY: real, rotation: real, shift: real,
           x: real, maxWidth: real, fill: string, font: string)

  /** A canvas's 2D context, recording what is drawn on it. */
  class DrawingContext {
    const width: nat
    const height: nat
    var trace: seq<Command>

    constructor(width: nat, height: nat)
      ensures this.width == width && this.height == height
      ensures trace == []
    {
      this.width := width;
      this.height := height;
      trace := [];
    }

    /** `clearRect(0, 0, width, height)`: the whole canvas. */
    method ClearRect()
      modifies this
      ensures trace == old(trace) + [Cleared(width, height)]
    {
      trace := trace + [Cleared(width, height)];
    }

    /** Build the wedge path, set `fillStyle` and `fill()`. */
    method FillWedge(wedge: Wedge, fill: string)
      modifies this
      ensures trace == old(trace) + [Filled(wedge, fill)]
    {
      trace := trace + [Filled(wedge, fill)];
    }

    /** Build the wedge path, set `strokeStyle` and `lineWidth`, and `stroke()`. */
    method StrokeWedge(wedge: Wedge, stroke: string, lineWidth: nat)
      modifies this
      ensures trace == old(trace) + [Stroked(wedge, stroke, lineWidth)]
    {
      trace := trace + [Stroked(wedge, stroke, lineWidth)];
    }

    /**
     * `save(); translate(centre); rotate(rotation); translate(0, shift);`
     * set `fillStyle` and `font`; `fillText(text, x, 0, maxWidth); restore()`.
     */
    method FillText(text: string, centerX: real, centerY: real, rotation: real, shift: real,
                    x: real, maxWidth: real, fill: string, font: string)
      modifies this
      ensures trace == old(trace) + [Text(text, centerX, centerY, rotation, shift, x, maxWidth, fill, font)]
    {
      trace := trace + [Text(text, centerX, centerY, rotation, shift, x, maxWidth, fill, font)];
    }
  }

  /** `canvas_element.width / 2`. */
  function CenterX(width: nat): (c: real)
    ensures 2.0 * c == width as real
  {
    width as real / 2.0
  }

  /** `canvas_element.height / 2`. */
  function CenterY(height: nat): (c: real)
    ensures 2.0 * c == height as real
  {
    height as real / 2.0
  }

  /** `Math.min(x_center, y_center) - 5`: the wheel fits the canvas with a margin. */
  function Radius(width: nat, height: nat): (r: real)
    ensures r + RimMargin <= CenterX(width) && r + RimMargin <= CenterY(height)
    ensures r + RimMargin == CenterX(width) || r + RimMargin == CenterY(height)
  {
    (if CenterX(width) <= CenterY(height) then CenterX(width) else CenterY(height)) - RimMargin
  }

  /**
   * `2 * Math.PI / items.length` in turns: `n` wedges of this size make one
   * turn. With no items the source divides by zero; no wedge is drawn then,
   * and the model uses 0.
   */
  function Turn(n: nat): (w: real)
    ensures n > 0 ==> w > 0.0 && w * n as real == 1.0
    ensures n == 0 ==> w == 0.0
  {
    if n == 0 then 0.0 else 1.0 / n as real
  }

  /**
   * The value of `offset` after it has been advanced by `steps` wedges: it
   * starts half a wedge back from the top of the wheel (a quarter turn back)
   * and moves on one wedge per step.
   */
  function OffsetAfter(n: nat, steps: nat): (offset: real)
    ensures n > 0 ==> (offset + 0.25) * n as real == steps as real - 0.5
  {
    -(0.25 + Turn(n) / 2.0) + steps as real * Turn(n)
  }

  lemma OffsetStep(n: nat, steps: nat)
    ensures OffsetAfter(n, steps + 1) == OffsetAfter(n, steps) + Turn(n)
  {
    assert (steps + 1) as real * Turn(n) == steps as real * Turn(n) + Turn(n);
  }

  /** The wedge drawn while `offset` has been advanced by `steps` wedges. */
  function WedgeAt(width: nat, height: nat, n: nat, steps: nat): (w: Wedge)
    ensures w.centerX == CenterX(width) && w.centerY == CenterY(height) && w.radius == Radius(width, height)
    ensures w.start == OffsetAfter(n, steps) && w.end - w.start == Turn(n)
  {
    var start := OffsetAfter(n, steps);
    Wedge(CenterX(width), CenterY(height), Radius(width, height), start, start + Turn(n))
  }

  /** Wedge `i` of the first loop, filled with `palette[i % palette.length]`. */
  function FillCommand(palette: seq<string>, n: nat, width: nat, height: nat, i: nat): (c: Command)
    requires |palette| > 0
    ensures c.Filled? && c.wedge == WedgeAt(width, height, n, i) && c.fill in palette
  {
    Filled(WedgeAt(width, height, n, i), CycleAt(palette, i))
  }

  /** Wedge `i`'s border in the second loop, which starts `n` steps on. */
  function StrokeCommand(n: nat, width: nat, height: nat, i: nat): (c: Command)
    ensures c.Stroked? && c.wedge == WedgeAt(width, height, n, n + i)
    ensures c.stroke == StrokeColor && c.lineWidth == StrokeWidth
  {
    Stroked(WedgeAt(width, height, n, n + i), StrokeColor, StrokeWidth)
  }

  /** Wedge `i`'s label: along its bisector, in the inverse of its fill colour. */
  function LabelCommand(palette: seq<string>, ink: string -> string, items: seq<string>, width: nat, height: nat, i: nat): (c: Command)
    requires |palette| > 0 && i < |items|
    ensures var slice := WedgeAt(width, height, |items|, |items| + i);
      c.Text? && c.text == items[i] && c.rotation == (slice.start + slice.end) / 2.0
    ensures c.Text? && c.fill == ink(CycleAt(palette, i)) && c.maxWidth == Radius(width, height) - LabelX && c.font == LabelFont
  {
    var n := |items|;
    Text(items[i], CenterX(width), CenterY(height), OffsetAfter(n, n + i) + Turn(n) / 2.0, LabelShift,
         LabelX, Radius(width, height) - LabelX, ink(CycleAt(palette, i)), LabelFont)
  }

  /** What the first `k` rounds of the fill loop draw: wedge `i` at position `i`. */
  function FillPass(palette: seq<string>, n: nat, width: nat, height: nat, k: nat): (r: seq<Command>)
    requires |palette| > 0
    ensures |r| == k
  {
    seq(k, i requires 0 <= i < k => FillCommand(palette, n, width, height, i))
  }

  /** Position `j` of the border-and-label pass: wedge `j / 2`'s border, then its label. */
  function BorderCommand(palette: seq<string>, ink: string -> string, items: seq<string>, width: nat, height: nat, j: nat): (c: Command)
    requires |palette| > 0 && j < 2 * |items|
    ensures j % 2 == 0 ==> c.Stroked? && c.wedge == WedgeAt(width, height, |items|, |items| + j / 2)
    ensures j % 2 == 1 ==> c.Text? && c.text == items[j / 2]
  {
    if j % 2 == 0 then StrokeCommand(|items|, width, height, j / 2)
    else LabelCommand(palette, ink, items, width, height, j / 2)
  }

  /** What the first `k` rounds of the border-and-label loop draw. */
  function BorderPass(palette: seq<string>, ink: string -> string, items: seq<string>, width: nat, height: nat, k: nat): (r: seq<Command>)
    requires |palette| > 0 && k <= |items|
    ensures |r| == 2 * k
  {
    seq(2 * k, j requires 0 <= j < 2 * k => BorderCommand(palette, ink, items, width, height, j))
  }

  /** One more round of the fill loop appends one fill. */
  lemma FillPassStep(palette: seq<string>, n: nat, width: nat, height: nat, k: nat)
    requires |palette| > 0
    ensures FillPass(palette, n, width, height, k + 1)
         == FillPass(palette, n, width, height, k) + [FillCommand(palette, n, width, height, k)]
  {
    var longer := FillPass(palette, n, width, height, k + 1);
    assert longer[..k] == FillPass(palette, n, width, height, k);
  }

  /** One more round of the second loop appends a border, then a label. */
  lemma BorderPassStep(palette: seq<string>, ink: string -> string, items: seq<string>, width: nat, height: nat, k: nat)
    requires |palette| > 0 && k < |items|
    ensures BorderPass(palette, ink, items, width, height, k + 1)
         == BorderPass(palette, ink, items, width, height, k)
            + [StrokeCommand(|items|, width, height, k)] + [LabelCommand(palette, ink, items, width, height, k)]
  {
    var longer := BorderPass(palette, ink, items, width, height, k + 1);
    BorderPassKeepsPrefix(palette, ink, items, width, height, k);
    BorderPassEndsWith(palette, ink, items, width, height, k);
    assert longer == longer[..2 * k] + [longer[2 * k]] + [longer[2 * k + 1]];
  }

  lemma BorderPassKeepsPrefix(palette: seq<string>, ink: string -> string, items: seq<string>, width: nat, height: nat, k: nat)
    requires |palette| > 0 && k < |items|
    ensures BorderPass(palette, ink, items, width, height, k + 1)[..2 * k] == BorderPass(palette, ink, items, width, height, k)
  {
  }

  lemma BorderPassEndsWith(palette: seq<string>, ink: string -> string, items: seq<string>, width: nat, height: nat, k: nat)
    requires |palette| > 0 && k < |items|
    ensures BorderPass(palette, ink, items, width, height, k + 1)[2 * k] == StrokeCommand(|items|, width, height, k)
    ensures BorderPass(palette, ink, items, width, height, k + 1)[2 * k + 1] == LabelCommand(palette, ink, items, width, height, k)
  {
    assert (2 * k + 1) / 2 == k && (2 * k) / 2 == k;
  }

  /** Everything one redraw with `palette` puts on the canvas, in order. */
  function DrawPlan(palette: seq<string>, ink: string -> string, items: seq<string>, width: nat, height: nat): (plan: seq<Command>)
    requires |palette| > 0
    ensures |plan| == 1 + 3 * |items| && plan[0] == Cleared(width, height)
  {
    var n := |items|;
    [Cleared(width, height)] + FillPass(palette, n, width, height, n) + BorderPass(palette, ink, items, width, height, n)
  }

  lemma AppendAssoc4(a: seq<Command>, b: seq<Command>, c: seq<Command>, d: seq<Command>)
    ensures a + b + c + d == a + (b + c + d)
  {
  }

  // ---------------------------------------------------------------------
  // What a redraw draws
  // ---------------------------------------------------------------------

  /** With no names nothing but the clear is drawn. */
  lemma EmptyWheel(palette: seq<string>, ink: string -> string, width: nat, height: nat)
    requires |palette| > 0
    ensures DrawPlan(palette, ink, [], width, height) == [Cleared(width, height)]
  {
    assert FillPass(palette, 0, width, height, 0) == [];
    assert BorderPass(palette, ink, [], width, height, 0) == [];
  }

  /**
   * A redraw is the clear, one fill per name, then a border and a label per
   * name: `1 + 3n` commands, every fill before every border and label.
   */
  lemma DrawPlanShape(palette: seq<string>, ink: string -> string, items: seq<string>, width: nat, height: nat)
    requires |palette| > 0
    ensures var plan := DrawPlan(palette, ink, items, width, height);
      && |plan| == 1 + 3 * |items|
      && plan[0] == Cleared(width, height)
      && (forall j :: 1 <= j <= |items| ==> plan[j].Filled?)
      && (forall j :: 1 + |items| <= j < |plan| ==> (plan[j].Stroked? || plan[j].Text?))
  {
    var n := |items|;
    var plan := DrawPlan(palette, ink, items, width, height);
    var fills := FillPass(palette, n, width, height, n);
    var borders := BorderPass(palette, ink, items, width, height, n);
    forall j | 1 <= j <= n
      ensures plan[j].Filled?
    {
      assert plan[j] == fills[j - 1];
    }
    forall j | 1 + n <= j < |plan|
      ensures plan[j].Stroked? || plan[j].Text?
    {
      assert plan[j] == borders[j - 1 - n];
    }
  }

  /**
   * Wedge `i` is filled first, at position `1 + i`, in palette colour
   * `i mod |palette|`, over the `i`-th slice of the wheel.
   */
  lemma WedgeFill(palette: seq<string>, ink: string -> string, items: seq<string>, width: nat, height: nat, i: nat)
    requires |palette| > 0 && i < |items|
    ensures var plan := DrawPlan(palette, ink, items, width, height);
      && 1 + i < |plan|
      && plan[1 + i] == Filled(WedgeAt(width, height, |items|, i), CycleAt(palette, i))
  {
    var n := |items|;
    var fills := FillPass(palette, n, width, height, n);
    assert DrawPlan(palette, ink, items, width, height)[1 + i] == fills[i];
  }

  /** After all the fills, the commands for wedge `i` are its border, then its label. */
  lemma BorderPassInPlan(palette: seq<string>, ink: string -> string, items: seq<string>, width: nat, height: nat, i: nat)
    requires |palette| > 0 && i < |items|
    ensures var plan := DrawPlan(palette, ink, items, width, height);
      && 2 + |items| + 2 * i < |plan|
      && plan[1 + |items| + 2 * i] == StrokeCommand(|items|, width, height, i)
      && plan[2 + |items| + 2 * i] == LabelCommand(palette, ink, items, width, height, i)
  {
    var n := |items|;
    var borders := BorderPass(palette, ink, items, width, height, n);
    var plan := DrawPlan(palette, ink, items, width, height);
    BorderPassEndsWith(palette, ink, items, width, height, i);
    assert borders[2 * i] == BorderPass(palette, ink, items, width, height, i + 1)[2 * i];
    assert borders[2 * i + 1] == BorderPass(palette, ink, items, width, height, i + 1)[2 * i + 1];
    assert plan[1 + n + 2 * i] == borders[2 * i];
    assert plan[2 + n + 2 * i] == borders[2 * i + 1];
  }

  /**
   * After all the fills, wedge `i` is outlined in `#485D6C` with width 5 at
   * position `1 + n + 2i`, over the slice it was filled on, one full turn on.
   */
  lemma WedgeBorder(palette: seq<string>, ink: string -> string, items: seq<string>, width: nat, height: nat, i: nat)
    requires |palette| > 0 && i < |items|
    ensures var plan := DrawPlan(palette, ink, items, width, height);
      var fill := WedgeAt(width, height, |items|, i);
      && 1 + |items| + 2 * i < |plan|
      && plan[1 + |items| + 2 * i].Stroked?
      && plan[1 + |items| + 2 * i].stroke == StrokeColor && plan[1 + |items| + 2 * i].lineWidth == StrokeWidth
      && plan[1 + |items| + 2 * i].wedge == fill.(start := fill.start + 1.0, end := fill.end + 1.0)
  {
    BorderPassInPlan(palette, ink, items, width, height, i);
    OffsetFullTurn(|items|, i);
  }

  /**
   * Right after wedge `i`'s border comes its label: its name, along the
   * bisector of the border's slice, in the ink of its fill colour, at most
   * `radius - 100` wide.
   */
  lemma WedgeLabel(palette: seq<string>, ink: string -> string, items: seq<string>, width: nat, height: nat, i: nat)
    requires |palette| > 0 && i < |items|
    ensures var plan := DrawPlan(palette, ink, items, width, height);
      && 2 + |items| + 2 * i < |plan|
      && plan[1 + |items| + 2 * i].Stroked? && plan[2 + |items| + 2 * i].Text?
      && plan[2 + |items| + 2 * i].text == items[i]
      && plan[2 + |items| + 2 * i].rotation
         == (plan[1 + |items| + 2 * i].wedge.start + plan[1 + |items| + 2 * i].wedge.end) / 2.0
      && plan[2 + |items| + 2 * i].fill == ink(CycleAt(palette, i))
      && plan[2 + |items| + 2 * i].maxWidth == Radius(width, height) - LabelX
      && plan[2 + |items| + 2 * i].font == LabelFont
  {
    BorderPassInPlan(palette, ink, items, width, height, i);
  }

  /**
   * When every palette entry is a `#rrggbb` colour, no label falls back to
   * black: each label colour is the channel-by-channel complement of the
   * fill of its wedge, written in lower case.
   */
  lemma LabelContrastsWithFill(palette: seq<string>, items: seq<string>, width: nat, height: nat, i: nat)
    requires |palette| > 0 && i < |items|
    requires forall c :: c in palette ==> IsHexColor(c)
    ensures var plan := DrawPlan(palette, Roulette.InverseColor, items, width, height);
      2 + |items| + 2 * i < |plan| && plan[1 + i].Filled? && plan[2 + |items| + 2 * i].Text?
    ensures var plan := DrawPlan(palette, Roulette.InverseColor, items, width, height);
      var wedgeColor := plan[1 + i].fill;
      var labelColor := plan[2 + |items| + 2 * i].fill;
      && Roulette.MatchesAt(wedgeColor, 0) && IsLowerHexColor(labelColor) && Roulette.MatchesAt(labelColor, 0)
      && Roulette.Channel(labelColor, 0, 0) == 255 - Roulette.Channel(wedgeColor, 0, 0)
      && Roulette.Channel(labelColor, 0, 1) == 255 - Roulette.Channel(wedgeColor, 0, 1)
      && Roulette.Channel(labelColor, 0, 2) == 255 - Roulette.Channel(wedgeColor, 0, 2)
  {
    WedgeFill(palette, Roulette.InverseColor, items, width, height, i);
    WedgeLabel(palette, Roulette.InverseColor, items, width, height, i);
    var wedgeColor := CycleAt(palette, i);
    assert Roulette.LeftmostMatch(wedgeColor, 0);
    Roulette.InverseColorChannels(wedgeColor, 0);
  }

  /**
   * On the wheel as drawn, with the palette of nine colours, wedge `i` is
   * filled with `ColorAt(i)` and its label is that colour's complement.
   */
  lemma WheelLabelsContrast(items: seq<string>, width: nat, height: nat, i: nat)
    requires i < |items|
    ensures var plan := DrawPlan(Colors, Roulette.InverseColor, items, width, height);
      2 + |items| + 2 * i < |plan| && plan[1 + i] == Filled(WedgeAt(width, height, |items|, i), ColorAt(i))
    ensures var plan := DrawPlan(Colors, Roulette.InverseColor, items, width, height);
      var labelColor := plan[2 + |items| + 2 * i].fill;
      && plan[2 + |items| + 2 * i].Text? && IsLowerHexColor(labelColor) && Roulette.MatchesAt(labelColor, 0)
      && Roulette.Channel(labelColor, 0, 0) == 255 - Roulette.Channel(ColorAt(i), 0, 0)
      && Roulette.Channel(labelColor, 0, 1) == 255 - Roulette.Channel(ColorAt(i), 0, 1)
      && Roulette.Channel(labelColor, 0, 2) == 255 - Roulette.Channel(ColorAt(i), 0, 2)
  {
    PaletteFormat();
    WedgeFill(Colors, Roulette.InverseColor, items, width, height, i);
    LabelContrastsWithFill(Colors, items, width, height, i);
  }

  /**
   * Every palette colour is matched by `inverse_color`'s pattern right at
   * its start, so a label never takes the black fallback.
   */
  lemma PaletteNeverFallsBack(index: nat)
    ensures Roulette.FindMatch(ColorAt(index), 0) == Roulette.Some(0)
  {
    assert Roulette.LeftmostMatch(ColorAt(index), 0);
    Roulette.FindLeftmost(ColorAt(index), 0);
  }

  /** The default list holds six players, each of them twice. */
  lemma DefaultItemsRepeat()
    ensures |DefaultItems| == 12
    ensures forall k :: 0 <= k < 6 ==> DefaultItems[k] == DefaultItems[k + 6]
  {
  }

  /** Neighbouring slices meet: each starts where the one before it ends. */
  lemma SlicesAreContiguous(width: nat, height: nat, n: nat, steps: nat)
    ensures WedgeAt(width, height, n, steps).end == WedgeAt(width, height, n, steps + 1).start
  {
    OffsetStep(n, steps);
  }

  /**
   * The `n` slices of one loop cover exactly one turn, and the first is
   * centred on the top of the wheel (a quarter turn back from the x axis,
   * the canvas's y axis pointing down).
   */
  lemma SlicesCoverOneTurn(width: nat, height: nat, n: nat)
    requires n > 0
    ensures WedgeAt(width, height, n, n - 1).end == WedgeAt(width, height, n, 0).start + 1.0
    ensures (WedgeAt(width, height, n, 0).start + WedgeAt(width, height, n, 0).end) / 2.0 == -0.25
  {
    assert (n - 1) as real * Turn(n) + Turn(n) == n as real * Turn(n);
  }

  /** Starting the second loop where the first stopped puts each slice one full turn on. */
  lemma OffsetFullTurn(n: nat, i: nat)
    requires i < n
    ensures OffsetAfter(n, n + i) == OffsetAfter(n, i) + 1.0
  {
    assert (n + i) as real * Turn(n) == n as real * Turn(n) + i as real * Turn(n);
  }

  class RouletteComponent {
    /** The names on the wheel, one wedge each, in order. */
    var items: seq<string>

    constructor()
      ensures items == DefaultItems
    {
      items := DefaultItems;
    }

    /**
     * `refresh_canvas`: with no 2D context (`context == null`) nothing is
     * drawn; otherwise clear, fill every wedge, then stroke and label every
     * wedge, with `offset` running on from the first loop into the second.
     */
    method RefreshCanvas(context: DrawingContext?)
      modifies context
      ensures context != null ==> context.trace == old(context.trace) + DrawPlan(Colors, Roulette.InverseColor, items, context.width, context.height)
    {
      if context == null {
        return;
      }
      context.ClearRect();
      var xCenter := CenterX(context.width);
      var yCenter := CenterY(context.height);
      var radius := (if xCenter <= yCenter then xCenter else yCenter) - RimMargin;
      var n := |items|;
      var angle := if n == 0 then 0.0 else 1.0 / n as real;
      var offset := -(0.25 + angle / 2.0);
      ghost var before := old(context.trace);
      offset := FillWedges(context, Colors, xCenter, yCenter, radius, angle, offset);
      offset := DrawBorders(context, Colors, Roulette.InverseColor, xCenter, yCenter, radius, angle, offset);
      ghost var fills := FillPass(Colors, n, context.width, context.height, n);
      ghost var borders := BorderPass(Colors, Roulette.InverseColor, items, context.width, context.height, n);
      assert context.trace == before + [Cleared(context.width, context.height)] + fills + borders;
      AppendAssoc4(before, [Cleared(context.width, context.height)], fills, borders);
    }

    /** The first loop: fill wedge after wedge from `palette`, advancing `offset`. */
    method FillWedges(context: DrawingContext, palette: seq<string>, xCenter: real, yCenter: real,
                      radius: real, angle: real, offset0: real)
      returns (offset: real)
      requires |palette| > 0
      requires xCenter == CenterX(context.width) && yCenter == CenterY(context.height)
      requires radius == Radius(context.width, context.height)
      requires angle == Turn(|items|) && offset0 == OffsetAfter(|items|, 0)
      modifies context
      ensures offset == OffsetAfter(|items|, |items|)
      ensures context.trace == old(context.trace) + FillPass(palette, |items|, context.width, context.height, |items|)
    {
      var n := |items|;
      offset := offset0;
      var index := 0;
      while index < n
        invariant index <= n
        invariant offset == OffsetAfter(n, index)
        invariant context.trace == old(context.trace) + FillPass(palette, n, context.width, context.height, index)
      {
        ghost var fills := FillPass(palette, n, context.width, context.height, index);
        context.FillWedge(Wedge(xCenter, yCenter, radius, offset, offset + angle), CycleAt(palette, index));
        AppendAssoc4(old(context.trace), fills, [FillCommand(palette, n, context.width, context.height, index)], []);
        FillPassStep(palette, n, context.width, context.height, index);
        OffsetStep(n, index);
        offset := offset + angle;
        index := index + 1;
      }
    }

    /**
     * The second loop: border and label each wedge, `offset` running on.
     * Each label is written in `ink` of its wedge's colour; `refresh_canvas`
     * passes `inverse_color`.
     */
    method DrawBorders(context: DrawingContext, palette: seq<string>, ink: string -> string, xCenter: real, yCenter: real,
                       radius: real, angle: real, offset0: real)
      returns (offset: real)
      requires |palette| > 0
      requires xCenter == CenterX(context.width) && yCenter == CenterY(context.height)
      requires radius == Radius(context.width, context.height)
      requires angle == Turn(|items|) && offset0 == OffsetAfter(|items|, |items|)
      modifies context
      ensures offset == OffsetAfter(|items|, 2 * |items|)
      ensures context.trace == old(context.trace) + BorderPass(palette, ink, items, context.width, context.height, |items|)
    {
      var n := |items|;
      offset := offset0;
      var index := 0;
      while index < n
        invariant index <= n
        invariant offset == OffsetAfter(n, n + index)
        invariant context.trace == old(context.trace) + BorderPass(palette, ink, items, context.width, context.height, index)
      {
        ghost var borders := BorderPass(palette, ink, items, context.width, context.height, index);
        context.StrokeWedge(Wedge(xCenter, yCenter, radius, offset, offset + angle), StrokeColor, StrokeWidth);
        context.FillText(items[index], xCenter, yCenter, offset + angle / 2.0, LabelShift,
                         LabelX, radius - LabelX, ink(CycleAt(palette, index)), LabelFont);
        AppendAssoc4(old(context.trace), borders, [StrokeCommand(n, context.width, context.height, index)],
                    [LabelCommand(palette, ink, items, context.width, context.height, index)]);
        BorderPassStep(palette, ink, items, context.width, context.height, index);
        OffsetStep(n, n + index);
        offset := offset + angle;
        index := index + 1;
      }
    }
  }
}

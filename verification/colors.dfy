/**
 * The wheel's palette: a fixed, ordered list of CSS colours that both the
 * wheel and the name list index cyclically.
 */
module Palette {
  import opened Hex

  /** Azure, AntiqueWhite, CadetBlue, Plum, LavenderBlush, PaleTurquoise,
      DarkSeaGreen, FloralWhite, Tan, in this order. */
  const Colors: seq<string> := [
    "#F0FFFF",
    "#FAEBD7",
    "#5F9EA0",
    "#DDA0DD",
    "#FFF0F5",
    "#AFEEEE",
    "#8FBC8F",
    "#FFFAF0",
    "#D2B48C"
  ]

  /** The palette has nine entries, from Azure to Tan. */
  lemma PaletteShape()
    ensures |Colors| == 9
    ensures Colors[0] == "#F0FFFF" && Colors[8] == "#D2B48C"
  {
  }

  /** Every entry is `#` and six upper-case hexadecimal digits. */
  lemma PaletteFormat()
    ensures forall c :: c in Colors ==> IsUpperHexColor(c) && IsHexColor(c)
  {
  }

  /** `palette[index % palette.length]`: a non-empty list read cyclically. */
  function CycleAt(palette: seq<string>, index: nat): (c: string)
    requires |palette| > 0
    ensures c in palette
  {
    palette[index % |palette|]
  }

  /**
   * `colors[index % colors.length]`: the lookup is defined for every
   * non-negative index and yields a well-formed palette colour.
   */
  function ColorAt(index: nat): (c: string)
    ensures c in Colors
    ensures IsUpperHexColor(c) && IsHexColor(c)
  {
    PaletteFormat();
    CycleAt(Colors, index)
  }

  /** The assignment repeats every nine indices. */
  lemma ColorCycles(index: nat)
    ensures ColorAt(index + |Colors|) == ColorAt(index)
  {
    assert (index + |Colors|) % |Colors| == index % |Colors|;
  }
}

/**
 * `inverse_color` of the wheel component: the colour a wedge's label is
 * written in, computed from the wedge's fill colour by finding the first
 * `#rrggbb` in the string and taking 255 minus each channel.
 */
module Roulette {
  import opened Hex

  datatype Option<T> = None | Some(value: T)

  // ---------------------------------------------------------------------
  // inverse_color
  // ---------------------------------------------------------------------

  /**
   * The pattern `#([0-9A-Fa-f]{2})([0-9A-Fa-f]{2})([0-9A-Fa-f]{2})`, a `#`
   * followed by six hex digits, matches starting at position `i`.
   */
  predicate MatchesAt(s: string, i: nat) {
    i + 7 <= |s| && s[i] == '#' && forall k :: i + 1 <= k < i + 7 ==> IsHexDigit(s[k])
  }

  /** `i` is where an unanchored search for the pattern first succeeds. */
  predicate LeftmostMatch(s: string, i: nat) {
    MatchesAt(s, i) && forall j: nat :: j < i ==> !MatchesAt(s, j)
  }

  /**
   * `RegExp.prototype.exec` without anchors, searching from `from`: the
   * first position where the pattern matches, or nothing.
   */
  function FindMatch(s: string, from: nat): (r: Option<nat>)
    ensures r.Some? ==> from <= r.value && MatchesAt(s, r.value)
    ensures r.Some? ==> forall j: nat :: from <= j < r.value ==> !MatchesAt(s, j)
    ensures r.None? ==> forall j: nat :: from <= j ==> !MatchesAt(s, j)
    decreases |s| - from
  {
    if from + 7 > |s| then None
    else if MatchesAt(s, from) then Some(from)
    else FindMatch(s, from + 1)
  }

  /** A search from the start finds exactly the leftmost match. */
  lemma FindLeftmost(s: string, i: nat)
    requires LeftmostMatch(s, i)
    ensures FindMatch(s, 0) == Some(i)
  {
  }

  /**
   * The value of colour channel `ch` (0 red, 1 green, 2 blue) of a match at
   * `i`: its two digits read as a base-16 number, which is what
   * `parseInt(decoded[ch + 1], 16)` computes (ChannelIsParseInt).
   */
  function Channel(s: string, i: nat, ch: nat): (v: nat)
    requires MatchesAt(s, i) && ch < 3
    ensures v < 256
  {
    PairValue(s[i + 1 + 2 * ch], s[i + 2 + 2 * ch])
  }

  lemma ChannelIsParseInt(s: string, i: nat, ch: nat)
    requires MatchesAt(s, i) && ch < 3
    ensures AllHexDigits(s[i + 1 + 2 * ch .. i + 3 + 2 * ch])
    ensures ParseHex(s[i + 1 + 2 * ch .. i + 3 + 2 * ch]) == Channel(s, i, ch)
  {
    ParseHexPair(s[i + 1 + 2 * ch .. i + 3 + 2 * ch]);
  }

  /**
   * A channel value written as two lower-case hexadecimal digits, high
   * nibble first, which read back as the value; this is what
   * `(v).toString(16).padStart(2, '0')` yields (EncodeChannelIsPaddedRadix16).
   */
  function EncodeChannel(v: nat): (s: string)
    requires v < 256
    ensures |s| == 2 && IsLowerHexDigit(s[0]) && IsLowerHexDigit(s[1])
    ensures PairValue(s[0], s[1]) == v
  {
    var high := Sixteens(v);
    [DigitChar(high), DigitChar(v - 16 * high)]
  }

  lemma EncodeChannelIsPaddedRadix16(v: nat)
    requires v < 256
    ensures PadStart(ToRadix16(v), 2, '0') == EncodeChannel(v)
  {
    PaddedByte(v);
    var high := Sixteens(v);
    assert high == v / 16 && v - 16 * high == v % 16;
  }

  /** The template `#${red}${green}${blue}` over three two-digit strings. */
  function FormatColor(red: string, green: string, blue: string): (r: string)
    requires |red| == 2 && |green| == 2 && |blue| == 2
    requires forall k :: 0 <= k < 2 ==> IsLowerHexDigit(red[k]) && IsLowerHexDigit(green[k]) && IsLowerHexDigit(blue[k])
    ensures IsLowerHexColor(r) && IsHexColor(r)
    ensures r[1] == red[0] && r[2] == red[1] && r[3] == green[0] && r[4] == green[1]
    ensures r[5] == blue[0] && r[6] == blue[1]
  {
    var r := "#" + red + green + blue;
    assert r == ['#', red[0], red[1], green[0], green[1], blue[0], blue[1]];
    r
  }

  /**
   * Every channel `x` becomes `255 - x`, written as two lower-case digits
   * after a `#`: a well-formed colour whose own channels are the
   * complements of the given ones.
   */
  function InvertChannels(red: nat, green: nat, blue: nat): (r: string)
    requires red < 256 && green < 256 && blue < 256
    ensures IsLowerHexColor(r) && IsHexColor(r) && MatchesAt(r, 0)
    ensures Channel(r, 0, 0) == 255 - red && Channel(r, 0, 1) == 255 - green && Channel(r, 0, 2) == 255 - blue
  {
    var newRed, newGreen, newBlue := EncodeChannel(255 - red), EncodeChannel(255 - green), EncodeChannel(255 - blue);
    var r := FormatColor(newRed, newGreen, newBlue);
    assert Channel(r, 0, 0) == PairValue(newRed[0], newRed[1]);
    assert Channel(r, 0, 1) == PairValue(newGreen[0], newGreen[1]);
    assert Channel(r, 0, 2) == PairValue(newBlue[0], newBlue[1]);
    r
  }

  /**
   * `inverse_color`: decode the leftmost `#rrggbb` found anywhere in the
   * string and invert its channels; `#000000` when there is none.
   */
  function InverseColor(color: string): (r: string)
    ensures IsLowerHexColor(r) && IsHexColor(r)
  {
    match FindMatch(color, 0)
    case None => "#000000"
    case Some(i) => InvertChannels(Channel(color, i, 0), Channel(color, i, 1), Channel(color, i, 2))
  }

  /** Without a `#` and six hex digits anywhere, the answer is black. */
  lemma InverseColorFallback(color: string)
    requires forall j: nat :: !MatchesAt(color, j)
    ensures InverseColor(color) == "#000000"
  {
  }

  /**
   * With a leftmost match at `i`, the answer is `#` and three lower-case
   * digit pairs, each worth 255 minus the matched pair.
   */
  lemma InverseColorChannels(color: string, i: nat)
    requires LeftmostMatch(color, i)
    ensures var r := InverseColor(color);
      && IsLowerHexColor(r) && MatchesAt(r, 0)
      && Channel(r, 0, 0) == 255 - Channel(color, i, 0)
      && Channel(r, 0, 1) == 255 - Channel(color, i, 1)
      && Channel(r, 0, 2) == 255 - Channel(color, i, 2)
  {
    FindLeftmost(color, i);
  }

  /** Upper- and lower-case digits are read alike, wherever they appear. */
  lemma FoldCaseMatches(s: string, j: nat)
    ensures MatchesAt(FoldCase(s), j) <==> MatchesAt(s, j)
  {
    if j + 7 <= |s| {
      forall k | j <= k < j + 7
        ensures IsHexDigit(FoldCase(s)[k]) <==> IsHexDigit(s[k])
        ensures (FoldCase(s)[k] == '#') <==> (s[k] == '#')
      {
      }
    }
  }

  lemma {:induction false} FoldCaseFind(s: string, from: nat)
    ensures FindMatch(FoldCase(s), from) == FindMatch(s, from)
    decreases |s| - from
  {
    FoldCaseMatches(s, from);
    if from + 7 <= |s| && !MatchesAt(s, from) {
      FoldCaseFind(s, from + 1);
    }
  }

  lemma FoldCaseChannel(s: string, i: nat, ch: nat)
    requires MatchesAt(s, i) && MatchesAt(FoldCase(s), i) && ch < 3
    ensures Channel(FoldCase(s), i, ch) == Channel(s, i, ch)
  {
    var a := i + 1 + 2 * ch;
    DigitCharOfValue(s[a]);
    DigitCharOfValue(s[a + 1]);
  }

  /** The case of the input's hex letters never changes the answer. */
  lemma InverseColorIgnoresCase(color: string)
    ensures InverseColor(FoldCase(color)) == InverseColor(color)
  {
    FoldCaseFind(color, 0);
    var m := FindMatch(color, 0);
    if m.Some? {
      var i := m.value;
      FoldCaseMatches(color, i);
      FoldCaseChannel(color, i, 0);
      FoldCaseChannel(color, i, 1);
      FoldCaseChannel(color, i, 2);
    }
  }

  /**
   * The pattern is not anchored: text before a colour (containing no `#`)
   * and any text after it are ignored.
   */
  lemma InverseColorIgnoresSurroundings(before: string, color: string, after: string)
    requires forall k :: 0 <= k < |before| ==> before[k] != '#'
    requires IsHexColor(color)
    ensures InverseColor(before + color + after) == InverseColor(color)
  {
    var s := before + color + after;
    var n := |before|;
    forall k | 0 <= k < 7 ensures s[n + k] == color[k] { }
    assert MatchesAt(s, n);
    forall j: nat | j < n ensures !MatchesAt(s, j) {
      assert s[j] == before[j];
    }
    FindLeftmost(s, n);
    assert MatchesAt(color, 0);
    FindLeftmost(color, 0);
    assert Channel(s, n, 0) == Channel(color, 0, 0);
    assert Channel(s, n, 1) == Channel(color, 0, 1);
    assert Channel(s, n, 2) == Channel(color, 0, 2);
  }

  /** Inverting an inverted colour re-encodes the original channel values. */
  lemma InvertTwice(red: nat, green: nat, blue: nat)
    requires red < 256 && green < 256 && blue < 256
    ensures InverseColor(InvertChannels(red, green, blue))
         == FormatColor(EncodeChannel(red), EncodeChannel(green), EncodeChannel(blue))
  {
    var r := InvertChannels(red, green, blue);
    InverseAtStart(r);
    assert 255 - (255 - red) == red && 255 - (255 - green) == green && 255 - (255 - blue) == blue;
  }

  /** A string that starts with a colour is inverted from that colour. */
  lemma InverseAtStart(s: string)
    requires MatchesAt(s, 0)
    ensures InverseColor(s) == InvertChannels(Channel(s, 0, 0), Channel(s, 0, 1), Channel(s, 0, 2))
  {
    FindLeftmost(s, 0);
  }

  /** Re-encoding a pair of digits gives the digits back, lower-cased. */
  lemma EncodePair(high: char, low: char)
    requires IsHexDigit(high) && IsHexDigit(low)
    ensures EncodeChannel(PairValue(high, low)) == [FoldDigit(high), FoldDigit(low)]
  {
    var v := PairValue(high, low);
    assert Sixteens(v) == DigitValue(high);
    DigitCharOfValue(high);
    DigitCharOfValue(low);
  }

  /** A well-formed colour, lower-cased, is the template filled with its own digit pairs lower-cased. */
  lemma FormatFoldedColor(color: string)
    requires IsHexColor(color)
    ensures FoldCase(color)
         == FormatColor([FoldDigit(color[1]), FoldDigit(color[2])],
                        [FoldDigit(color[3]), FoldDigit(color[4])],
                        [FoldDigit(color[5]), FoldDigit(color[6])])
  {
    forall k | 1 <= k < 7 ensures IsLowerHexDigit(FoldDigit(color[k])) {
      assert IsHexDigit(color[k]);
    }
  }

  /** Re-encoding the channels of a well-formed colour lower-cases it. */
  lemma ReencodeWellFormed(color: string)
    requires IsHexColor(color)
    ensures MatchesAt(color, 0)
    ensures FormatColor(EncodeChannel(Channel(color, 0, 0)),
                        EncodeChannel(Channel(color, 0, 1)),
                        EncodeChannel(Channel(color, 0, 2)))
         == FoldCase(color)
  {
    assert MatchesAt(color, 0);
    assert Channel(color, 0, 0) == PairValue(color[1], color[2]);
    assert Channel(color, 0, 1) == PairValue(color[3], color[4]);
    assert Channel(color, 0, 2) == PairValue(color[5], color[6]);
    EncodePair(color[1], color[2]);
    EncodePair(color[3], color[4]);
    EncodePair(color[5], color[6]);
    FormatFoldedColor(color);
  }

  /**
   * Inverting twice gives back a well-formed colour, in lower case:
   * `#000000` -> `#ffffff` -> `#000000`, `#5F9EA0` -> `#a0615f` -> `#5f9ea0`.
   */
  lemma InverseColorInvolution(color: string)
    requires IsHexColor(color)
    ensures InverseColor(InverseColor(color)) == FoldCase(color)
  {
    assert MatchesAt(color, 0);
    FindLeftmost(color, 0);
    InvertTwice(Channel(color, 0, 0), Channel(color, 0, 1), Channel(color, 0, 2));
    ReencodeWellFormed(color);
  }

  /** Black inverts to white. */
  lemma InverseBlack()
    ensures InverseColor("#000000") == "#ffffff"
  {
    var black := "#000000";
    assert MatchesAt(black, 0);
    InverseAtStart(black);
    assert Channel(black, 0, 0) == 0 && Channel(black, 0, 1) == 0 && Channel(black, 0, 2) == 0;
    InvertZero();
  }

  lemma InvertZero()
    ensures InvertChannels(0, 0, 0) == "#ffffff"
  {
    assert EncodeChannel(255) == "ff";
  }

  /** A string with no colour in it inverts to black. */
  lemma InverseNoColor()
    ensures InverseColor("red") == "#000000"
  {
  }
}

/** The colour schemes of the travel-time display (utils/ColorSchemes.ts):
    five palettes of fourteen colours, one per five-minute band, the band
    lookup getColorForTravelTime, and getColorWithOpacity, which reads the
    band's "#RRGGBB" colour back as red, green and blue channels. */
module ColorSchemes {
  import opened TransitTypes

  datatype ColorScheme = ColorScheme(name: string, colors: seq<string>, description: string)

  /** An `rgba(r, g, b, opacity)` colour. */
  datatype Rgba = Rgba(r: nat, g: nat, b: nat, opacity: real)

  /** Minutes per colour band. */
  const BAND_MINUTES: real := 5.0

  const COLOR_SCHEMES: seq<ColorScheme> := [
    ColorScheme("Green to Red",
      ["#00FF00", "#32CD32", "#9ACD32", "#FFFF00", "#FFA500", "#FF8C00", "#FF4500",
       "#FF0000", "#DC143C", "#8B0000", "#800080", "#4B0082", "#000080", "#000000"],
      "Classic green to red progression"),
    ColorScheme("Blue to Red",
      ["#0000FF", "#0066FF", "#00CCFF", "#00FFFF", "#66FF66", "#FFFF00", "#FFCC00",
       "#FF9900", "#FF6600", "#FF3300", "#FF0000", "#CC0000", "#990000", "#660000"],
      "Cool blue to hot red"),
    ColorScheme("Purple to Yellow",
      ["#800080", "#9933CC", "#CC66FF", "#FF99FF", "#FFCCFF", "#FFFFCC", "#FFFF99",
       "#FFFF66", "#FFFF33", "#FFFF00", "#FFFF00", "#FFFF00", "#FFFF00", "#FFFF00"],
      "Purple to bright yellow"),
    ColorScheme("Orange to Blue",
      ["#FF6600", "#FF8800", "#FFAA00", "#FFCC00", "#FFEE00", "#FFFF00", "#CCFF00",
       "#99FF00", "#66FF00", "#33FF00", "#00FF00", "#00CCFF", "#0099FF", "#0066FF"],
      "Warm orange to cool blue"),
    ColorScheme("Red to Green",
      ["#FF0000", "#FF3300", "#FF6600", "#FF9900", "#FFCC00", "#FFFF00", "#CCFF00",
       "#99FF00", "#66FF00", "#33FF00", "#00FF00", "#00CC00", "#009900", "#006600"],
      "Hot red to cool green")
  ]

  predicate IsUpperHexDigit(ch: char)
  {
    '0' <= ch <= '9' || 'A' <= ch <= 'F'
  }

  predicate IsHexDigit(ch: char)
  {
    '0' <= ch <= '9' || 'A' <= ch <= 'F' || 'a' <= ch <= 'f'
  }

  /** "#" followed by six upper-case hexadecimal digits. */
  predicate IsHexColor(c: string)
  {
    |c| == 7 && c[0] == '#' && forall k :: 1 <= k < 7 ==> IsUpperHexDigit(c[k])
  }

  /** Every scheme has fourteen colours, each of the form "#RRGGBB". */
  lemma PalettesWellFormed()
    ensures |COLOR_SCHEMES| == 5
    ensures forall s :: 0 <= s < 5 ==> |COLOR_SCHEMES[s].colors| == 14
    ensures forall s, k :: 0 <= s < 5 && 0 <= k < 14 ==> IsHexColor(COLOR_SCHEMES[s].colors[k])
  {
    forall s, k | 0 <= s < 5 && 0 <= k < 14
      ensures |COLOR_SCHEMES[s].colors| == 14 && IsHexColor(COLOR_SCHEMES[s].colors[k])
    {
      var c := COLOR_SCHEMES[s].colors;
      assert |c| == 14;
      assert IsHexColor(c[k]);
    }
  }

  /** The colour band of a time: the number of whole five-minute periods in
      it, capped at the last band. */
  function TimeIndex(travelTime: real, len: nat): (k: int)
    requires len > 0
    ensures travelTime >= 0.0 ==> 0 <= k < len
    ensures travelTime < 0.0 ==> k < 0
    ensures 0.0 <= travelTime && k < len - 1 ==> k as real * BAND_MINUTES <= travelTime < (k + 1) as real * BAND_MINUTES
    ensures 0.0 <= travelTime < (len - 1) as real * BAND_MINUTES ==> k < len - 1
    ensures travelTime >= (len - 1) as real * BAND_MINUTES ==> k == len - 1
  {
    var band := (travelTime / BAND_MINUTES).Floor;
    if band < len - 1 then band else len - 1
  }

  /** A later time never falls in an earlier band. */
  lemma TimeIndexMonotone(t1: real, t2: real, len: nat)
    requires len > 0 && t1 <= t2
    ensures TimeIndex(t1, len) <= TimeIndex(t2, len)
  {
    assert t1 / BAND_MINUTES <= t2 / BAND_MINUTES;
  }

  /** getColorForTravelTime: the colour of the time's band. A negative time
      indexes before the start of the palette, which JavaScript reads as
      undefined (None here). */
  function GetColorForTravelTime(travelTime: real, schemeIndex: nat := 0): (c: Option<string>)
    requires schemeIndex < |COLOR_SCHEMES|
    ensures c.None? <==> travelTime < 0.0
    ensures c.Some? ==> c.value in COLOR_SCHEMES[schemeIndex].colors && IsHexColor(c.value)
  {
    PalettesWellFormed();
    var scheme := COLOR_SCHEMES[schemeIndex];
    var timeIndex := TimeIndex(travelTime, |scheme.colors|);
    if timeIndex < 0 then None else Some(scheme.colors[timeIndex])
  }

  /** The band colours by time: colour k for times in [5k, 5k + 5) with
      k < 13, the last colour from 65 minutes on. */
  lemma ColorBands(travelTime: real, schemeIndex: nat, k: nat)
    requires schemeIndex < 5
    ensures k < 13 && k as real * 5.0 <= travelTime < (k + 1) as real * 5.0 ==>
              GetColorForTravelTime(travelTime, schemeIndex) == Some(COLOR_SCHEMES[schemeIndex].colors[k])
    ensures travelTime >= 65.0 ==> GetColorForTravelTime(travelTime, schemeIndex) == Some(COLOR_SCHEMES[schemeIndex].colors[13])
  {
    PalettesWellFormed();
    var idx := TimeIndex(travelTime, 14);
    if k < 13 && k as real * 5.0 <= travelTime < (k + 1) as real * 5.0 {
      if idx < 13 {
        BandUnique(idx, k, travelTime);
      }
    }
  }

  lemma BandUnique(a: int, b: int, t: real)
    requires a as real * 5.0 <= t < (a + 1) as real * 5.0
    requires b as real * 5.0 <= t < (b + 1) as real * 5.0
    ensures a == b
  {
  }

  /** String.replace(c, ''): drops the first occurrence of `c` only. */
  function RemoveFirst(s: string, c: char): (r: string)
    ensures c !in s ==> r == s
    ensures c in s ==> |r| == |s| - 1
  {
    if |s| == 0 then []
    else if s[0] == c then s[1..]
    else [s[0]] + RemoveFirst(s[1..], c)
  }

  /** The first occurrence is the one dropped. */
  lemma {:induction false} RemoveFirstAt(s: string, c: char, i: nat)
    requires i < |s| && s[i] == c && c !in s[..i]
    ensures RemoveFirst(s, c) == s[..i] + s[i + 1..]
  {
    if i > 0 {
      assert s[1..][..i - 1] == s[1..i];
      assert s[0] in s[..i];
      RemoveFirstAt(s[1..], c, i - 1);
      assert s[..i] == [s[0]] + s[1..i];
    }
  }

  function HexDigitValue(ch: char): (v: nat)
    requires IsHexDigit(ch)
    ensures v < 16
  {
    if '0' <= ch <= '9' then ch as nat - '0' as nat
    else if 'A' <= ch <= 'F' then ch as nat - 'A' as nat + 10
    else ch as nat - 'a' as nat + 10
  }

  /** parseInt(pair, 16) on two hexadecimal digits. */
  function ParseHexPair(pair: string): (v: nat)
    requires |pair| == 2 && IsHexDigit(pair[0]) && IsHexDigit(pair[1])
    ensures v <= 255
    ensures v / 16 == HexDigitValue(pair[0]) && v % 16 == HexDigitValue(pair[1])
  {
    HexDigitValue(pair[0]) * 16 + HexDigitValue(pair[1])
  }

  /** The upper-case digit of a value below 16. */
  function HexDigitChar(v: nat): (ch: char)
    requires v < 16
    ensures IsUpperHexDigit(ch) && IsHexDigit(ch)
  {
    if v < 10 then ('0' as nat + v) as char else ('A' as nat + v - 10) as char
  }

  function HexPair(v: nat): (s: string)
    requires v <= 255
    ensures |s| == 2 && IsUpperHexDigit(s[0]) && IsUpperHexDigit(s[1])
  {
    [HexDigitChar(v / 16), HexDigitChar(v % 16)]
  }

  /** Parsing a formatted channel gives the channel back. */
  lemma HexPairRoundTrip(v: nat)
    requires v <= 255
    ensures ParseHexPair(HexPair(v)) == v
  {
  }

  /** Formatting a parsed upper-case pair gives the pair back. */
  lemma ParseHexPairRoundTrip(pair: string)
    requires |pair| == 2 && IsUpperHexDigit(pair[0]) && IsUpperHexDigit(pair[1])
    ensures HexPair(ParseHexPair(pair)) == pair
  {
    var v := ParseHexPair(pair);
    assert v / 16 == HexDigitValue(pair[0]) && v % 16 == HexDigitValue(pair[1]);
  }

  /** The channels of a "#RRGGBB" colour: the first '#' removed, then the three pairs parsed. */
  function ChannelsOf(color: string, opacity: real): (c: Rgba)
    requires IsHexColor(color)
    ensures c.r <= 255 && c.g <= 255 && c.b <= 255 && c.opacity == opacity
  {
    var hex := RemoveFirst(color, '#');
    assert hex == color[1..] by {
      RemoveFirstAt(color, '#', 0);
    }
    Rgba(ParseHexPair(hex[0..2]), ParseHexPair(hex[2..4]), ParseHexPair(hex[4..6]), opacity)
  }

  /** Writing the channels back as hexadecimal gives the colour they were read from. */
  lemma ChannelsRoundTrip(color: string, opacity: real)
    requires IsHexColor(color)
    ensures var c := ChannelsOf(color, opacity);
            "#" + HexPair(c.r) + HexPair(c.g) + HexPair(c.b) == color
  {
    var c := ChannelsOf(color, opacity);
    RemoveFirstAt(color, '#', 0);
    var hex := color[1..];
    assert hex == RemoveFirst(color, '#');
    ParseHexPairRoundTrip(hex[0..2]);
    ParseHexPairRoundTrip(hex[2..4]);
    ParseHexPairRoundTrip(hex[4..6]);
    assert HexPair(c.r) == hex[0..2] && HexPair(c.g) == hex[2..4] && HexPair(c.b) == hex[4..6];
    assert color == "#" + hex[0..2] + hex[2..4] + hex[4..6];
  }

  /** getColorWithOpacity: the band colour as rgba with the given opacity. A
      negative time makes the band colour undefined and the source throws
      (None here). */
  function GetColorWithOpacity(travelTime: real, schemeIndex: nat := 0, opacity: real := 0.3): (c: Option<Rgba>)
    requires schemeIndex < |COLOR_SCHEMES|
    ensures c.None? <==> travelTime < 0.0
    ensures c.Some? ==> c.value.r <= 255 && c.value.g <= 255 && c.value.b <= 255 && c.value.opacity == opacity
    ensures c.Some? ==> "#" + HexPair(c.value.r) + HexPair(c.value.g) + HexPair(c.value.b)
                         == GetColorForTravelTime(travelTime, schemeIndex).value
  {
    var baseColor := GetColorForTravelTime(travelTime, schemeIndex);
    if baseColor.None? then None
    else
      ChannelsRoundTrip(baseColor.value, opacity);
      Some(ChannelsOf(baseColor.value, opacity))
  }
}

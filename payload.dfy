/**
 * The command translator of main.go: the JSON bodies that setBulbPower,
 * setBulbBrightness and setBulbTemperature format, byte for byte. Each body is
 * an object whose light-control array "3311" holds one object with exactly one
 * control entry, so a command never replaces the bulb's whole state.
 */
module Payload {
  import opened Wrappers
  import opened Decimal

  /** Resource code of the light-control array. */
  const LightControl := "3311"
  /** Control keys: on/off, dimmer level and colour in hex. */
  const OnOffKey := "5850"
  const DimmerKey := "5851"
  const ColorKey := "5706"

  /** The one control entry a body carries. */
  datatype Control = Power(onOff: int) | Dimmer(level: int) | ColorHex(hex: string)

  function Key(c: Control): (k: string)
    ensures |k| == 4
  {
    match c
    case Power(_) => OnOffKey
    case Dimmer(_) => DimmerKey
    case ColorHex(_) => ColorKey
  }

  /** The entry's value as the template writes it: %d for numbers, "%s" for the colour. */
  function ValueText(c: Control): string {
    match c
    case Power(v) => FormatInt(v)
    case Dimmer(v) => FormatInt(v)
    case ColorHex(h) => "\"" + h + "\""
  }

  /** The template's text up to the opening quote of the control key (tabs as in the source). */
  const Head := "{\n\t\t\"" + LightControl + "\": [{\n\t\t\t\""
  /** Closing quote of the key and the separator before the value. */
  const Separator := "\": "
  /** The template's text after the value. */
  const Tail := "\n\t\t}]\n\t}"

  /** The body fmt.Sprintf produces for one control entry. */
  function Render(c: Control): string {
    Head + Key(c) + Separator + ValueText(c) + Tail
  }

  /** Reads a body back as the single control entry it carries, if it has the template's shape. */
  function Decode(s: string): Option<Control> {
    var lo, hi := |Head| + |OnOffKey| + |Separator|, |s| - |Tail|;
    if lo > hi || s[..|Head|] != Head || s[|Head| + |OnOffKey|..lo] != Separator || s[hi..] != Tail then
      None
    else
      var key, text := s[|Head|..|Head| + |OnOffKey|], s[lo..hi];
      if key == OnOffKey then
        match ParseInt(text)
        case Some(v) => Some(Power(v))
        case None => None
      else if key == DimmerKey then
        match ParseInt(text)
        case Some(v) => Some(Dimmer(v))
        case None => None
      else if key == ColorKey && |text| >= 2 && text[0] == '"' && text[|text| - 1] == '"' then
        Some(ColorHex(text[1..|text| - 1]))
      else
        None
  }

  lemma DecodeRender(c: Control)
    ensures Decode(Render(c)) == Some(c)
  {
    var s, text := Render(c), ValueText(c);
    var lo := |Head| + 4 + |Separator|;
    assert s[..|Head|] == Head;
    assert s[|Head|..|Head| + 4] == Key(c);
    assert s[|Head| + 4..lo] == Separator;
    assert s[lo..|s| - |Tail|] == text;
    assert s[|s| - |Tail|..] == Tail;
    match c
    case Power(v) => ParseFormat(v);
    case Dimmer(v) => ParseFormat(v);
    case ColorHex(h) => assert text[1..|text| - 1] == h;
  }

  /** A body that decodes is the template around its key and value text. */
  lemma DecodedShape(s: string)
    requires Decode(s).Some?
    ensures var lo, hi := |Head| + 4 + |Separator|, |s| - |Tail|;
      lo <= hi && s == Head + s[|Head|..|Head| + 4] + Separator + s[lo..hi] + Tail
  {
  }

  lemma RenderDecode(s: string, c: Control)
    requires Decode(s) == Some(c)
    ensures Render(c) == s
  {
    var lo, hi := |Head| + 4 + |Separator|, |s| - |Tail|;
    var key, text := s[|Head|..|Head| + 4], s[lo..hi];
    DecodedShape(s);
    match c
    case Power(v) => FormatParse(text, v);
    case Dimmer(v) => FormatParse(text, v);
    case ColorHex(h) => assert text == "\"" + h + "\"";
    assert Key(c) == key && ValueText(c) == text;
  }

  /** Rendering and decoding are inverse: a body determines its command and vice versa. */
  lemma RenderIsInjective(c: Control, d: Control)
    ensures Render(c) == Render(d) <==> c == d
  {
    DecodeRender(c);
    DecodeRender(d);
  }

  /** The colour presets, warmest first, so that a preset's index is its whiteness. */
  const Reddest := "efd275"
  const Neutral := "f1e0b5"
  const Whitest := "f5faf6"
  const Presets := [Reddest, Neutral, Whitest]
  /** Each threshold a temperature reaches moves the colour one preset warmer. */
  const Thresholds := [200, 300]

  /** How many of the thresholds t has reached. */
  function Reached(t: int, thresholds: seq<int>): (n: nat)
    ensures n <= |thresholds|
  {
    if thresholds == [] then 0
    else (if thresholds[0] <= t then 1 else 0) + Reached(t, thresholds[1..])
  }

  /** The preset setBulbTemperature picks for temperature t. */
  function TemperatureColor(t: int): (hex: string)
    ensures hex == Presets[|Presets| - 1 - Reached(t, Thresholds)]
  {
    if t < 200 then Whitest else if t < 300 then Neutral else Reddest
  }

  /** How white a preset is: its index in Presets. */
  function Whiteness(hex: string): (w: nat)
    requires hex in Presets
    ensures w < |Presets| && Presets[w] == hex
  {
    if hex == Reddest then 0 else if hex == Neutral then 1 else 2
  }

  /** The three buckets, lower bounds inclusive; the presets differ, so exactly one applies. */
  lemma TemperatureBuckets(t: int)
    ensures TemperatureColor(t) == Whitest <==> t < 200
    ensures TemperatureColor(t) == Neutral <==> 200 <= t < 300
    ensures TemperatureColor(t) == Reddest <==> 300 <= t
  {
  }

  lemma TemperatureBoundaries()
    ensures TemperatureColor(199) == "f5faf6"
    ensures TemperatureColor(200) == "f1e0b5"
    ensures TemperatureColor(299) == "f1e0b5"
    ensures TemperatureColor(300) == "efd275"
  {
  }

  /** A warmer setting never yields a whiter colour. */
  lemma TemperatureMonotone(t1: int, t2: int)
    requires t1 <= t2
    ensures Whiteness(TemperatureColor(t2)) <= Whiteness(TemperatureColor(t1))
  {
  }

  /** setBulbPower's body: the hub reads 1 under the on/off key exactly when on, else 0. */
  function PowerBody(on: bool): (body: string)
    ensures on <==> Decode(body) == Some(Power(1))
    ensures !on <==> Decode(body) == Some(Power(0))
  {
    var c := Power(if on then 1 else 0);
    DecodeRender(c);
    Render(c)
  }

  /** setBulbBrightness's body: the level passes through unchanged, without clamping. */
  function BrightnessBody(b: Int64): (body: string)
    ensures Decode(body) == Some(Dimmer(b))
  {
    var c := Dimmer(b);
    DecodeRender(c);
    Render(c)
  }

  /** setBulbTemperature's body: the bucketed preset under the colour key. */
  function TemperatureBody(t: Int64): (body: string)
    ensures Decode(body) == Some(ColorHex(TemperatureColor(t)))
    ensures Decode(body).Some? && Decode(body).value.hex in Presets
  {
    var c := ColorHex(TemperatureColor(t));
    DecodeRender(c);
    Render(c)
  }
}

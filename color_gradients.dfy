/**
 * `AppGradients`: the fixed table of card gradients and the lookup of a
 * card's brush by its stored colour key.
 */
module ColorGradients {
  import opened Wrappers

  /** A Compose `Color` given by its 32-bit ARGB value. */
  datatype Color = Color(argb: nat)

  /** `Brush.horizontalGradient(stops)`. */
  datatype Brush = HorizontalGradient(stops: seq<Color>)

  /** `GradientInfo(hex, brush)`: the stored key and the brush it stands for. */
  datatype GradientInfo = GradientInfo(hex: string, brush: Brush)

  function Gradient(hex: string, from: nat, to: nat): GradientInfo {
    GradientInfo(hex, HorizontalGradient([Color(from), Color(to)]))
  }

  const Sunset: GradientInfo := Gradient("#FF8A65_#FF5722", 0xFFFF8A65, 0xFFFF5722)
  const Ocean: GradientInfo := Gradient("#4FC3F7_#03A9F4", 0xFF4FC3F7, 0xFF03A9F4)
  const Mint: GradientInfo := Gradient("#80CBC4_#009688", 0xFF80CBC4, 0xFF009688)
  const Grape: GradientInfo := Gradient("#BA68C8_#9C27B0", 0xFFBA68C8, 0xFF9C27B0)
  const Fire: GradientInfo := Gradient("#FFB74D_#FF9800", 0xFFFFB74D, 0xFFff9800)
  const Default: GradientInfo := Gradient("#424242_#212121", 0xFF424242, 0xFF212121)
  const RubyRed: GradientInfo := Gradient("#EF5350_#E53935", 0xFFEF5350, 0xFFE53935)
  const ForestGreen: GradientInfo := Gradient("#66BB6A_#43A047", 0xFF66BB6A, 0xFF43A047)
  const RoyalBlue: GradientInfo := Gradient("#42A5F5_#1E88E5", 0xFF42A5F5, 0xFF1E88E5)
  const Gold: GradientInfo := Gradient("#FFEE58_#FDD835", 0xFFFFEE58, 0xFFFDD835)
  const Graphite: GradientInfo := Gradient("#BDBDBD_#616161", 0xFFBDBDBD, 0xFF616161)

  /** The list the colour picker offers, in picker order. */
  const PredefinedGradients: seq<GradientInfo> :=
    [Default, Graphite, RubyRed, ForestGreen, RoyalBlue, Sunset, Ocean, Mint, Grape, Fire, Gold]

  /** `Default` heads the list of eleven entries. */
  lemma PredefinedShape()
    ensures |PredefinedGradients| == 11 && PredefinedGradients[0] == Default
  {
  }

  /** Whether an entry matches a (possibly null) key: `it.hex == hex`. */
  predicate Matches(g: GradientInfo, hex: Option<string>) {
    hex == Some(g.hex)
  }

  /** The position of the first entry whose key equals `hex`, as `find` scans. */
  function FirstMatch(gs: seq<GradientInfo>, hex: Option<string>): (r: Option<nat>)
    ensures r.Some? ==> r.value < |gs| && Matches(gs[r.value], hex)
    ensures r.Some? ==> forall j :: 0 <= j < r.value ==> !Matches(gs[j], hex)
    ensures r.None? <==> forall j :: 0 <= j < |gs| ==> !Matches(gs[j], hex)
  {
    if gs == [] then None
    else if Matches(gs[0], hex) then Some(0)
    else
      match FirstMatch(gs[1..], hex)
      case Some(i) => Some(i + 1)
      case None => None
  }

  /**
   * `getBrushByHex`: the brush of the first listed entry with that key, or
   * `Default`'s brush for a null or unknown key.
   */
  function GetBrushByHex(hex: Option<string>): (r: Brush)
    ensures hex.None? ==> r == Default.brush
    ensures (forall j :: 0 <= j < |PredefinedGradients| ==> !Matches(PredefinedGradients[j], hex))
            ==> r == Default.brush
    ensures forall i :: && 0 <= i < |PredefinedGradients| && Matches(PredefinedGradients[i], hex)
                        && (forall j :: 0 <= j < i ==> !Matches(PredefinedGradients[j], hex))
                        ==> r == PredefinedGradients[i].brush
    ensures exists i :: 0 <= i < |PredefinedGradients| && r == PredefinedGradients[i].brush
  {
    match FirstMatch(PredefinedGradients, hex)
    case Some(i) => PredefinedGradients[i].brush
    case None => assert PredefinedGradients[0] == Default; Default.brush
  }

  /** No two listed entries share a key. */
  lemma HexKeysDistinct()
    ensures forall i, j :: 0 <= i < j < |PredefinedGradients| ==>
              PredefinedGradients[i].hex != PredefinedGradients[j].hex
  {
  }

  /** Because the keys are distinct, looking up a listed key finds that entry's brush. */
  lemma LookupListed(i: nat)
    requires i < |PredefinedGradients|
    ensures GetBrushByHex(Some(PredefinedGradients[i].hex)) == PredefinedGradients[i].brush
  {
    HexKeysDistinct();
  }

  /** An upper-case hexadecimal digit. */
  predicate IsHexDigit(c: char) {
    '0' <= c <= '9' || 'A' <= c <= 'F'
  }

  /** The value of a hexadecimal digit. */
  function DigitValue(c: char): (v: int)
    requires IsHexDigit(c)
    ensures 0 <= v < 16
  {
    if c <= '9' then c as int - '0' as int else c as int - 'A' as int + 10
  }

  /** The six hexadecimal digits of `s` from position `at`, read as a number. */
  function HexAt(s: string, at: nat): int
    requires at + 6 <= |s|
    requires forall k :: at <= k < at + 6 ==> IsHexDigit(s[k])
  {
    DigitValue(s[at]) * 0x100000 + DigitValue(s[at + 1]) * 0x10000 + DigitValue(s[at + 2]) * 0x1000
    + DigitValue(s[at + 3]) * 0x100 + DigitValue(s[at + 4]) * 0x10 + DigitValue(s[at + 5])
  }

  /**
   * The key has the shape `#RRGGBB_#RRGGBB`, its two digit groups are the
   * RGB parts of the brush's two stops, and both stops are opaque.
   */
  predicate KeyNamesStops(g: GradientInfo) {
    && |g.hex| == 15 && |g.brush.stops| == 2
    && g.hex[0] == '#' && g.hex[7] == '_' && g.hex[8] == '#'
    && (forall k :: 1 <= k < 7 ==> IsHexDigit(g.hex[k]))
    && (forall k :: 9 <= k < 15 ==> IsHexDigit(g.hex[k]))
    && HexAt(g.hex, 1) == g.brush.stops[0].argb % 0x1000000
    && HexAt(g.hex, 9) == g.brush.stops[1].argb % 0x1000000
    && g.brush.stops[0].argb / 0x1000000 == 0xFF
    && g.brush.stops[1].argb / 0x1000000 == 0xFF
  }

  lemma DefaultKeyNamesStops() ensures KeyNamesStops(Default) {}
  lemma GraphiteKeyNamesStops() ensures KeyNamesStops(Graphite) {}
  lemma RubyRedKeyNamesStops() ensures KeyNamesStops(RubyRed) {}
  lemma ForestGreenKeyNamesStops() ensures KeyNamesStops(ForestGreen) {}
  lemma RoyalBlueKeyNamesStops() ensures KeyNamesStops(RoyalBlue) {}
  lemma SunsetKeyNamesStops() ensures KeyNamesStops(Sunset) {}
  lemma OceanKeyNamesStops() ensures KeyNamesStops(Ocean) {}
  lemma MintKeyNamesStops() ensures KeyNamesStops(Mint) {}
  lemma GrapeKeyNamesStops() ensures KeyNamesStops(Grape) {}
  lemma FireKeyNamesStops() ensures KeyNamesStops(Fire) {}
  lemma GoldKeyNamesStops() ensures KeyNamesStops(Gold) {}

  /** Each listed key names its brush's two colour stops. */
  lemma ListedKeyNamesStops(i: nat)
    requires i < |PredefinedGradients|
    ensures KeyNamesStops(PredefinedGradients[i])
  {
    if i == 0 { DefaultKeyNamesStops(); }
    else if i == 1 { GraphiteKeyNamesStops(); }
    else if i == 2 { RubyRedKeyNamesStops(); }
    else if i == 3 { ForestGreenKeyNamesStops(); }
    else if i == 4 { RoyalBlueKeyNamesStops(); }
    else if i == 5 { SunsetKeyNamesStops(); }
    else if i == 6 { OceanKeyNamesStops(); }
    else if i == 7 { MintKeyNamesStops(); }
    else if i == 8 { GrapeKeyNamesStops(); }
    else if i == 9 { FireKeyNamesStops(); }
    else if i == 10 { GoldKeyNamesStops(); }
  }
}

/**
 * The popup's small helpers (src/utils/helpers.ts): the preset table
 * lookup, the volume label and the slider's background gradient.  The
 * preset table is `EQ_PRESETS` (src/utils/constants.ts).  Arithmetic is on
 * reals: floating-point rounding is not modelled.
 */
module Helpers {
  import opened Wrappers
  import opened Json

  // ---------------------------------------------------------------------
  // Numbers as JavaScript prints them

  /** `Math.round`: halves go up. */
  function Round(x: real): (r: int)
    ensures r as real - 0.5 <= x < r as real + 0.5
  {
    (x + 0.5).Floor
  }

  /** `Math.ceil`. */
  function Ceil(x: real): (r: int)
    ensures x <= r as real < x + 1.0
  {
    -((-x).Floor)
  }

  function DigitChar(d: nat): char
    requires d < 10
  {
    "0123456789"[d]
  }

  function DigitValue(c: char): nat
  {
    if '0' <= c <= '9' then (c - '0') as nat else 0
  }

  /** The decimal digits of `n`, without leading zeros. */
  function Digits(n: nat): (s: string)
    decreases n
    ensures |s| > 0 && forall i :: 0 <= i < |s| ==> '0' <= s[i] <= '9'
    ensures n > 0 ==> s[0] != '0'
  {
    if n < 10 then [DigitChar(n)] else Digits(n / 10) + [DigitChar(n % 10)]
  }

  /** An integer-valued number in template-literal text: a minus sign, then the digits. */
  function IntText(n: int): string
  {
    if n < 0 then "-" + Digits(-n) else Digits(n)
  }

  /** Reads a run of digits back; the partner of `Digits`. */
  function ParseDigits(s: string): nat
    decreases |s|
  {
    if |s| == 0 then 0 else ParseDigits(s[..|s| - 1]) * 10 + DigitValue(s[|s| - 1])
  }

  /** Reads an optional minus sign and digits back; the partner of `IntText`. */
  function ParseInt(s: string): int
  {
    if |s| > 0 && s[0] == '-' then -(ParseDigits(s[1..]) as int) else ParseDigits(s)
  }

  lemma {:induction false} DigitsRoundTrip(n: nat)
    decreases n
    ensures ParseDigits(Digits(n)) == n
  {
    if n >= 10 {
      DigitsRoundTrip(n / 10);
      var s := Digits(n);
      assert s[..|s| - 1] == Digits(n / 10);
    }
  }

  lemma ParseSigned(d: string)
    ensures ParseInt("-" + d) == -(ParseDigits(d) as int)
  {
    assert ("-" + d)[0] == '-' && ("-" + d)[1..] == d;
  }

  lemma ParseUnsigned(d: string)
    requires |d| > 0 && '0' <= d[0] <= '9'
    ensures ParseInt(d) == ParseDigits(d)
  {
  }

  /** The printed integer reads back as itself. */
  lemma IntTextRoundTrip(n: int)
    ensures ParseInt(IntText(n)) == n
  {
    if n < 0 {
      var m: nat := -n;
      var d := Digits(m);
      DigitsRoundTrip(m);
      ParseSigned(d);
      assert IntText(n) == "-" + d;
      assert ParseInt(IntText(n)) == -(m as int);
    } else {
      var d := Digits(n);
      DigitsRoundTrip(n);
      ParseUnsigned(d);
      assert IntText(n) == d;
    }
  }

  /** A number's text, for the integer values, NaN and the infinities `Math.ceil` can give. */
  function NumberText(n: JsNumber): string
  {
    match n
    case Finite(r) => IntText(r.Floor)
    case NaN => "NaN"
    case Infinity(positive) => if positive then "Infinity" else "-Infinity"
  }

  // ---------------------------------------------------------------------
  // formatVolumePercent and getSliderGradient

  /** Lines 1-3: the volume as a whole percentage, `Math.round(volumeValue * 100)` followed by `%`. */
  function FormatVolumePercent(volumeValue: real): (r: string)
    ensures |r| > 0 && r[|r| - 1] == '%'
    ensures ParseInt(r[..|r| - 1]) == Round(volumeValue * 100.0)
  {
    var text := IntText(Round(volumeValue * 100.0));
    IntTextRoundTrip(Round(volumeValue * 100.0));
    assert (text + "%")[..|text + "%"| - 1] == text;
    text + "%"
  }

  /** Line 6: `Math.ceil(((value - min) / (max - min)) * 100)`, with JavaScript's results for a zero range. */
  function Percent(value: real, min: real, max: real): (r: JsNumber)
    ensures max != min ==> r == Finite(Ceil((value - min) / (max - min) * 100.0) as real)
    ensures max == min ==> (r.NaN? <==> value == min) && (r.Infinity? <==> value != min)
    ensures max == min && value != min ==> r == Infinity(value > min)
  {
    if max == min then
      if value == min then NaN else Infinity(value > min)
    else Finite(Ceil((value - min) / (max - min) * 100.0) as real)
  }

  /** Line 7: the orange part of the track runs up to `percent`, the grey part from there. */
  function SliderGradient(value: real, min: real, max: real): string
  {
    var p := NumberText(Percent(value, min, max));
    "linear-gradient(to right, #f59821 " + p + "%, #4b5563 " + p + "%)"
  }

  /** Lines 5-8: on a proper range a value inside it gives a whole percentage from 0 to 100, the least one not below its share. */
  lemma PercentInRange(value: real, min: real, max: real)
    requires min < max && min <= value <= max
    ensures var p := Percent(value, min, max);
      p.Finite? && 0.0 <= p.r <= 100.0 && p.r == p.r.Floor as real
      && p.r - 1.0 < (value - min) / (max - min) * 100.0 <= p.r
    ensures value == min ==> Percent(value, min, max) == Finite(0.0)
    ensures value == max ==> Percent(value, min, max) == Finite(100.0)
  {
    var n, d := value - min, max - min;
    var q := n / d;
    assert q * d == n;
    assert 0.0 <= q * 100.0 <= 100.0;
    var c := Ceil(q * 100.0);
    assert (c as real) < 101.0;
    if value == max {
      assert n == d;
      assert q * d == 1.0 * d;
    }
  }

  /** Both colour stops sit at the same, printed, percentage. */
  lemma GradientStops(value: real, min: real, max: real)
    ensures var p := NumberText(Percent(value, min, max));
      var g := SliderGradient(value, min, max);
      var head := "linear-gradient(to right, #f59821 ";
      |head| == 34 && |g| == 34 + 2 * |p| + 13
      && g[..34] == head && g[34..34 + |p|] == p
      && g[34 + |p| + 11..34 + 2 * |p| + 11] == p
  {
  }

  // ---------------------------------------------------------------------
  // convertPresetToSettings

  /** The ten band fields, in the order of `EQ_BANDS`. */
  datatype EqualizerSettings = EqualizerSettings(
    twenty: int, fifty: int, oneHundred: int, twoHundred: int, fiveHundred: int,
    oneThousand: int, twoThousand: int, fiveThousand: int, tenThousand: int, twentyThousand: int)

  /** The fields as a list, lowest band first. */
  function BandValues(e: EqualizerSettings): (r: seq<int>)
    ensures |r| == 10
  {
    [e.twenty, e.fifty, e.oneHundred, e.twoHundred, e.fiveHundred,
     e.oneThousand, e.twoThousand, e.fiveThousand, e.tenThousand, e.twentyThousand]
  }

  /** `EQ_PRESETS[presetName]` (src/utils/constants.ts:24-47). */
  function PresetTable(name: string): (r: Option<seq<int>>)
    ensures r.Some? ==> |r.value| == 10
  {
    match name
    case "acoustic" => Some([15, 15, 10, 4, 7, 7, 10, 12, 10, 5])
    case "bassBooster" => Some([15, 12, 10, 7, 3, 0, 0, 0, 0, 0])
    case "bassReducer" => Some([-15, -12, -10, -8, -5, 0, 0, 7, 10, 12])
    case "classical" => Some([15, 12, 10, 8, -5, -5, 0, 7, 10, 12])
    case "dance" => Some([12, 18, 15, 0, 5, 10, 16, 15, 12, 0])
    case "deep" => Some([15, 12, 5, 3, 10, 8, 5, -6, -12, -15])
    case "electronic" => Some([14, 13, 4, 0, -6, 6, 3, 4, 13, 15])
    case "flat" => Some([0, 0, 0, 0, 0, 0, 0, 0, 0, 0])
    case "hiphop" => Some([16, 14, 4, 10, -4, -3, 4, -2, 6, 10])
    case "jazz" => Some([13, 10, 4, 6, -5, -5, 0, 4, 10, 13])
    case "latin" => Some([9, 5, 0, 0, -5, -5, -5, 0, 10, 15])
    case "loudness" => Some([18, 14, 0, 0, -6, 0, -2, -18, 16, 3])
    case "lounge" => Some([-10, -5, -2, 4, 13, 4, 0, -5, 6, 3])
    case "piano" => Some([10, 6, 0, 9, 10, 5, 11, 15, 10, 11])
    case "pop" => Some([-5, -4, 0, 6, 15, 13, 6, 0, -3, -5])
    case "rnb" => Some([9, 18, 16, 4, -8, -5, 8, 9, 10, 12])
    case "rock" => Some([16, 13, 10, 4, -1, -2, 1, 8, 11, 15])
    case "smallSpeakers" => Some([18, 14, 13, 8, 4, 0, -4, -9, -11, -14])
    case "spokenWord" => Some([-7, -1, 0, 2, 12, 12, 14, 12, 8, 0])
    case "trebleBooster" => Some([0, 0, 0, 0, 0, 3, 8, 12, 14, 17])
    case "trebleReducer" => Some([0, 0, 0, 0, 0, -3, -8, -12, -14, -17])
    case "vocalBooster" => Some([-5, -10, -10, 4, 12, 12, 10, 5, 0, -5])
    case _ => None
  }

  /** Lines 10-29: the preset's ten values as band fields, or the error an unknown name raises. */
  function ConvertPresetToSettings(presetName: string): (r: Result<EqualizerSettings>)
    ensures r.Ok? <==> PresetTable(presetName).Some?
    ensures r.Ok? ==> BandValues(r.value) == PresetTable(presetName).value
    ensures r.Err? ==> r.error == "Unknown preset: " + presetName
  {
    match PresetTable(presetName)
    case None => Err("Unknown preset: " + presetName)
    case Some(v) => Ok(EqualizerSettings(v[0], v[1], v[2], v[3], v[4], v[5], v[6], v[7], v[8], v[9]))
  }

  /** The flat preset converts to all-zero bands, and a name outside the table is refused. */
  lemma FlatIsZero()
    ensures ConvertPresetToSettings("flat") == Ok(EqualizerSettings(0, 0, 0, 0, 0, 0, 0, 0, 0, 0))
    ensures ConvertPresetToSettings("Flat").Err?
  {
  }
}

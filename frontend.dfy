/**
 * The Python front end (zenith_viz/zenith_viz.py): colour parsing and
 * validation, the draw-style clamp, the data checks, vertex interleaving, and
 * the layer registry of the plotting objects.
 *
 * A Python value reaches the model already classified: a colour is text, a
 * sequence of channels or something else; a numeric column carries its numpy
 * dtype. The YAML colour table and the edit distance are parameters. Floating
 * point is exact real arithmetic.
 */
module Frontend {
  import opened Wrappers
  import opened Scene

  // ---------------------------------------------------------------------------
  // Hexadecimal text
  // ---------------------------------------------------------------------------

  predicate IsHexDigit(c: char)
  {
    ('0' <= c <= '9') || ('a' <= c <= 'f') || ('A' <= c <= 'F')
  }

  function HexValue(c: char): (v: nat)
    requires IsHexDigit(c)
    ensures v < 16
  {
    if '0' <= c <= '9' then c as nat - '0' as nat
    else if 'a' <= c <= 'f' then c as nat - 'a' as nat + 10
    else c as nat - 'A' as nat + 10
  }

  /** The lower-case digit of a value below 16. */
  function HexDigit(v: nat): (c: char)
    requires v < 16
    ensures IsHexDigit(c) && HexValue(c) == v
  {
    if v < 10 then ('0' as nat + v) as char else ('a' as nat + v - 10) as char
  }

  /** ASCII whitespace, which bytes.fromhex skips between byte pairs. */
  predicate IsSpace(c: char)
  {
    c == ' ' || c == '\t' || c == '\n' || c == '\r' || c == '\U{000B}' || c == '\U{000C}'
  }

  /** One byte written as two hex digits. */
  function PairValue(hi: char, lo: char): (b: nat)
    requires IsHexDigit(hi) && IsHexDigit(lo)
    ensures b < 256
  {
    HexValue(hi) * 16 + HexValue(lo)
  }

  /**
   * bytes.fromhex: pairs of hex digits, each pair one byte, with whitespace
   * allowed before any pair; an odd digit or any other character is a
   * ValueError (None here).
   */
  function FromHex(s: string): (r: Option<seq<nat>>)
    ensures r.Some? ==> forall i :: 0 <= i < |r.value| ==> r.value[i] < 256
    ensures r.Some? ==> 2 * |r.value| <= |s|
  {
    if |s| == 0 then Some([])
    else if IsSpace(s[0]) then FromHex(s[1..])
    else if |s| >= 2 && IsHexDigit(s[0]) && IsHexDigit(s[1]) then
      match FromHex(s[2..])
      case None => None
      case Some(rest) => Some([PairValue(s[0], s[1])] + rest)
    else None
  }

  predicate AllHexDigits(s: string)
  {
    forall i :: 0 <= i < |s| ==> IsHexDigit(s[i])
  }

  /** The bytes of a run of hex digits, read pair by pair. */
  function DecodePairs(s: string): (b: seq<nat>)
    requires AllHexDigits(s) && |s| % 2 == 0
    ensures |b| == |s| / 2
    ensures forall i :: 0 <= i < |b| ==> b[i] < 256
  {
    if |s| == 0 then [] else [PairValue(s[0], s[1])] + DecodePairs(s[2..])
  }

  /** An even run of hex digits is what bytes.fromhex decodes pair by pair. */
  lemma {:induction false} FromHexOfDigits(s: string)
    requires AllHexDigits(s) && |s| % 2 == 0
    ensures FromHex(s) == Some(DecodePairs(s))
    decreases |s|
  {
    if |s| > 0 {
      assert !IsSpace(s[0]);
      FromHexOfDigits(s[2..]);
    }
  }

  /** Lower-case hex text of a byte sequence, two digits per byte. */
  function HexEncode(b: seq<nat>): (s: string)
    requires forall i :: 0 <= i < |b| ==> b[i] < 256
    ensures |s| == 2 * |b| && AllHexDigits(s)
  {
    if |b| == 0 then ""
    else [HexDigit(b[0] / 16), HexDigit(b[0] % 16)] + HexEncode(b[1..])
  }

  /** Reading the pairs back undoes encoding. */
  lemma {:induction false} DecodeEncode(b: seq<nat>)
    requires forall i :: 0 <= i < |b| ==> b[i] < 256
    ensures DecodePairs(HexEncode(b)) == b
  {
    if |b| > 0 {
      var s := HexEncode(b);
      assert s[2..] == HexEncode(b[1..]);
      DecodeEncode(b[1..]);
      assert b == [b[0]] + b[1..];
    }
  }

  lemma TwiceIsEven(n: nat)
    ensures (2 * n) % 2 == 0
  {
  }

  /** bytes.fromhex undoes encoding. */
  lemma HexRoundTrip(b: seq<nat>)
    requires forall i :: 0 <= i < |b| ==> b[i] < 256
    ensures FromHex(HexEncode(b)) == Some(b)
  {
    var s := HexEncode(b);
    TwiceIsEven(|b|);
    FromHexOfDigits(s);
    DecodeEncode(b);
  }

  // ---------------------------------------------------------------------------
  // Colours
  // ---------------------------------------------------------------------------

  /** The ways the colour validators fail. */
  datatype ColorError =
    | InvalidColor(message: string)  // InvalidColorRepresentationError
    | HexValueError                  // ValueError from bytes.fromhex
    | UnpackError                    // struct.error from struct.unpack
    | ReduceError                    // TypeError from reduce over no channels

  /** The alpha a colour with three channels receives. */
  const DefaultAlpha := 127

  /** hex_code.replace("#", ""). */
  function RemoveHash(s: string): (r: string)
    ensures forall i :: 0 <= i < |r| ==> r[i] != '#'
    ensures |r| <= |s|
    ensures (forall i :: 0 <= i < |s| ==> s[i] != '#') ==> r == s
  {
    if |s| == 0 then ""
    else if s[0] == '#' then RemoveHash(s[1..])
    else [s[0]] + RemoveHash(s[1..])
  }

  /**
   * __construct_color_from_hex__: decode the text without its '#'s, unpack as
   * many bytes as half the text's length (rounded down), and give three
   * channels the default alpha.
   */
  function ConstructFromHex(hexCode: string): (r: Result<seq<nat>, ColorError>)
    ensures r.Failure? ==> r.error == HexValueError || r.error == UnpackError
    ensures r.Success? ==> forall i :: 0 <= i < |r.value| ==> r.value[i] < 256
  {
    match FromHex(RemoveHash(hexCode))
    case None => Failure(HexValueError)
    case Some(b) =>
      if |b| != |hexCode| / 2 then Failure(UnpackError)
      else if |b| == 3 then Success(b + [DefaultAlpha])
      else Success(b)
  }

  /** '#' and 6 or 8 hex digits, nothing else. */
  predicate IsHexCode(s: string)
  {
    (|s| == 7 || |s| == 9) && s[0] == '#' && AllHexDigits(s[1..])
  }

  /**
   * The colour regex as re.match evaluates it: each alternative ends in '$',
   * which also matches before one final newline.
   */
  predicate MatchesHexPatternAsWritten(s: string)
  {
    IsHexCode(s) || (|s| > 0 && s[|s| - 1] == '\n' && IsHexCode(s[..|s| - 1]))
  }

  /** A hex code decodes to its byte pairs, with alpha 127 when it has six digits. */
  lemma HexCodeDecodes(s: string)
    requires IsHexCode(s)
    ensures ConstructFromHex(s) == Success(if |s| == 7 then DecodePairs(s[1..]) + [DefaultAlpha] else DecodePairs(s[1..]))
    ensures |ConstructFromHex(s).value| == 4
  {
    var d := s[1..];
    assert forall i :: 0 <= i < |d| ==> d[i] != '#' by {
      forall i | 0 <= i < |d| ensures d[i] != '#' { assert IsHexDigit(d[i]); }
    }
    assert RemoveHash(s) == d by {
      assert s == [s[0]] + d;
    }
    FromHexOfDigits(d);
  }

  /** Every 3- and 4-channel byte colour written as '#' and hex digits decodes back to itself. */
  lemma HexColorRoundTrip(b: seq<nat>)
    requires |b| == 3 || |b| == 4
    requires forall i :: 0 <= i < |b| ==> b[i] < 256
    ensures ConstructFromHex("#" + HexEncode(b)) == Success(if |b| == 3 then b + [DefaultAlpha] else b)
  {
    var s := "#" + HexEncode(b);
    assert s[1..] == HexEncode(b);
    HexCodeDecodes(s);
    DecodeEncode(b);
  }

  /** The colours of the hex-colour tests: white with the default alpha, and opaque white. */
  lemma WhiteHexExamples()
    ensures ConstructFromHex("#ffffff") == Success([255, 255, 255, 127])
    ensures ConstructFromHex("#ffffffff") == Success([255, 255, 255, 255])
  {
    WhiteEncodes();
    HexColorRoundTrip([255, 255, 255]);
    HexColorRoundTrip([255, 255, 255, 255]);
    assert "#" + HexEncode([255, 255, 255]) == "#ffffff";
    assert "#" + HexEncode([255, 255, 255, 255]) == "#ffffffff";
    assert [255, 255, 255] + [DefaultAlpha] == [255, 255, 255, 127];
  }

  /** The hex text of white, with and without its alpha. */
  lemma WhiteEncodes()
    ensures HexEncode([255, 255, 255]) == "ffffff"
    ensures HexEncode([255, 255, 255, 255]) == "ffffffff"
  {
    assert HexDigit(255 / 16) == 'f' && HexDigit(255 % 16) == 'f';
    assert HexEncode([255]) == "ff" by { assert [255][1..] == []; }
    assert HexEncode([255, 255]) == "ffff" by { assert [255, 255][1..] == [255]; }
    assert HexEncode([255, 255, 255]) == "ffffff" by { assert [255, 255, 255][1..] == [255, 255]; }
    assert [255, 255, 255, 255][1..] == [255, 255, 255];
  }

  /** The bad codes of the hex-colour tests do not match the pattern. */
  lemma BadHexCodesDoNotMatch()
    ensures !MatchesHexPatternAsWritten("#junk")
    ensures !MatchesHexPatternAsWritten("#3f3f")
    ensures !MatchesHexPatternAsWritten("#123456789")
  {
  }

  /** ASCII lower-casing of one character. */
  function LowerChar(c: char): char
  {
    if 'A' <= c <= 'Z' then (c as int + 32) as char else c
  }

  /** str.lower, as it acts on ASCII text. */
  function Lower(s: string): (r: string)
    ensures |r| == |s|
    ensures forall i :: 0 <= i < |s| ==> r[i] == LowerChar(s[i])
  {
    if |s| == 0 then "" else [LowerChar(s[0])] + Lower(s[1..])
  }

  /** Lower-casing a hex digit keeps its value. */
  lemma LowerDigit(c: char)
    requires IsHexDigit(c)
    ensures IsHexDigit(LowerChar(c)) && HexValue(LowerChar(c)) == HexValue(c)
  {
  }

  /** Lower-casing keeps a hex code a hex code that decodes to the same bytes. */
  lemma LowerHexCode(s: string)
    requires IsHexCode(s)
    ensures IsHexCode(Lower(s))
    ensures DecodePairs(Lower(s)[1..]) == DecodePairs(s[1..])
  {
    var d, l := s[1..], Lower(s)[1..];
    forall i | 0 <= i < |l|
      ensures IsHexDigit(l[i]) && HexValue(l[i]) == HexValue(d[i])
    {
      assert l[i] == LowerChar(d[i]);
      LowerDigit(d[i]);
    }
    SameHexValues(l, d);
  }

  /** The colour table: names and hex codes in the order the YAML file lists them. */
  type ColorTable = seq<(string, string)>

  /** The code of the first entry with that name (dictionary lookup on a table without duplicate names). */
  function Lookup(table: ColorTable, name: string): (r: Option<string>)
    ensures r.Some? <==> exists i :: 0 <= i < |table| && table[i].0 == name
    ensures r.Some? ==> exists i :: 0 <= i < |table| && table[i] == (name, r.value)
  {
    if |table| == 0 then None
    else if table[0].0 == name then Some(table[0].1)
    else
      var r := Lookup(table[1..], name);
      assert forall i :: 1 <= i < |table| ==> table[i] == table[1..][i - 1];
      r
  }

  /**
   * The name the near-miss message suggests: sorting the (name, distance)
   * pairs by distance is stable, so the first entry at the least distance.
   */
  function Closest(table: ColorTable, name: string, distance: (string, string) -> nat): (i: nat)
    requires |table| > 0
    ensures i < |table|
    ensures forall j :: 0 <= j < |table| ==> distance(name, table[i].0) <= distance(name, table[j].0)
    ensures forall j :: 0 <= j < i ==> distance(name, table[i].0) < distance(name, table[j].0)
  {
    if |table| == 1 then 0
    else
      var k := Closest(table[1..], name, distance) + 1;
      assert forall j :: 1 <= j < |table| ==> table[j] == table[1..][j - 1];
      if distance(name, table[0].0) <= distance(name, table[k].0) then 0 else k
  }

  /** The edit distance below which the error names a suggestion. */
  const SuggestionDistance := 3

  /** The failure for a name not in the table, with a suggestion when one is close. */
  function UnknownName(table: ColorTable, name: string, distance: (string, string) -> nat): (e: ColorError)
    requires |table| > 0
    ensures e.InvalidColor?
    ensures var k := table[Closest(table, name, distance)].0;
            e.message == if distance(name, k) < SuggestionDistance
                         then "Couldn't find that color... maybe you meant '" + k + "'?"
                         else "No matching color found for input"
  {
    var k := table[Closest(table, name, distance)].0;
    if distance(name, k) < SuggestionDistance then
      InvalidColor("Couldn't find that color... maybe you meant '" + k + "'?")
    else
      InvalidColor("No matching color found for input")
  }

  /** __validate_color_string_value__ as written: the pattern lets a hex code with a trailing newline through. */
  function ValidateColorStringAsWritten(color: string, table: ColorTable, distance: (string, string) -> nat): (r: Result<seq<nat>, ColorError>)
    requires |table| > 0
    ensures MatchesHexPatternAsWritten(color) ==> r == ConstructFromHex(color)
    ensures !MatchesHexPatternAsWritten(color) && Lookup(table, color).Some? ==>
              r == ConstructFromHex(Lower(Lookup(table, color).value))
    ensures !MatchesHexPatternAsWritten(color) && Lookup(table, color).None? ==>
              r == Failure(UnknownName(table, color, distance))
  {
    if MatchesHexPatternAsWritten(color) then ConstructFromHex(color)
    else match Lookup(table, color)
      case Some(code) => ConstructFromHex(Lower(code))
      case None => Failure(UnknownName(table, color, distance))
  }

  /** The trailing newline reaches struct.unpack with one byte too few and raises struct.error. */
  lemma TrailingNewlineAsWritten(table: ColorTable, distance: (string, string) -> nat)
    requires |table| > 0
    ensures MatchesHexPatternAsWritten("#ffffff\n")
    ensures ValidateColorStringAsWritten("#ffffff\n", table, distance) == Failure(UnpackError)
  {
    WhiteEncodes();
    var d := HexEncode([255, 255, 255]);
    assert "#ffffff\n"[..7] == "#" + d;
    assert RemoveHash("#ffffff\n") == d + "\n" by {
      assert "#ffffff\n" == "#" + (d + "\n");
      HashFree(d + "\n");
    }
    FromHexTrailingSpace(d, '\n');
    HexRoundTrip([255, 255, 255]);
  }

  lemma HashFree(s: string)
    requires forall i :: 0 <= i < |s| ==> s[i] != '#'
    ensures RemoveHash("#" + s) == s
  {
    assert ("#" + s)[1..] == s;
  }

  /** bytes.fromhex ignores trailing whitespace. */
  lemma {:induction false} FromHexTrailingSpace(s: string, c: char)
    requires AllHexDigits(s) && |s| % 2 == 0 && IsSpace(c)
    ensures FromHex(s + [c]) == FromHex(s)
    decreases |s|
  {
    if |s| == 0 {
      assert [c][1..] == [];
    } else {
      assert (s + [c])[2..] == s[2..] + [c];
      FromHexTrailingSpace(s[2..], c);
    }
  }

  /** A table whose every code is a hex code. */
  predicate WellFormedTable(table: ColorTable)
  {
    |table| > 0 && forall i :: 0 <= i < |table| ==> IsHexCode(table[i].1)
  }

  /**
   * __validate_color_string_value__ with the pattern anchored at the very end
   * of the text: a hex code, then a table name, then the near-miss error.
   */
  function ValidateColorString(color: string, table: ColorTable, distance: (string, string) -> nat): (r: Result<seq<nat>, ColorError>)
    requires |table| > 0
    ensures IsHexCode(color) ==> r == ConstructFromHex(color)
    ensures !IsHexCode(color) && Lookup(table, color).Some? ==> r == ConstructFromHex(Lower(Lookup(table, color).value))
    ensures !IsHexCode(color) && Lookup(table, color).None? ==> r == Failure(UnknownName(table, color, distance))
  {
    if IsHexCode(color) then ConstructFromHex(color)
    else match Lookup(table, color)
      case Some(code) => ConstructFromHex(Lower(code))
      case None => Failure(UnknownName(table, color, distance))
  }

  /**
   * With a well-formed table the string validator succeeds exactly on hex
   * codes and table names, always with four channels, and every failure is
   * an InvalidColorRepresentationError.
   */
  lemma ColorStringOutcomes(color: string, table: ColorTable, distance: (string, string) -> nat)
    requires WellFormedTable(table)
    ensures var r := ValidateColorString(color, table, distance);
            && (r.Success? <==> IsHexCode(color) || Lookup(table, color).Some?)
            && (r.Success? ==> |r.value| == 4)
            && (r.Failure? ==> r.error.InvalidColor?)
  {
    if IsHexCode(color) {
      HexCodeDecodes(color);
    } else if Lookup(table, color).Some? {
      var code := Lookup(table, color).value;
      var i :| 0 <= i < |table| && table[i] == (color, code);
      NamedColorDecodes(table, distance, color, code);
      HexCodeDecodes(code);
    }
  }

  /** A name that is not itself a hex code decodes its table code, whatever the code's letter case. */
  lemma NamedColorDecodes(table: ColorTable, distance: (string, string) -> nat, name: string, code: string)
    requires |table| > 0 && Lookup(table, name) == Some(code)
    requires !IsHexCode(name) && IsHexCode(code)
    ensures ValidateColorString(name, table, distance) == ConstructFromHex(code)
  {
    LowerHexCode(code);
    HexCodeDecodes(Lower(code));
    HexCodeDecodes(code);
  }

  /** The named-colour test: CornflowerBlue is (100, 149, 237) with the default alpha. */
  lemma NamedColorExample(table: ColorTable, distance: (string, string) -> nat)
    requires |table| > 0 && table[0] == ("CornflowerBlue", "#6495ED")
    ensures ValidateColorString("CornflowerBlue", table, distance) == Success([100, 149, 237, 127])
  {
    var code := "#6495ED";
    assert code[1..] == "6495ED";
    NamedColorDecodes(table, distance, "CornflowerBlue", code);
    HexCodeDecodes(code);
    CornflowerPairs();
    assert [100, 149, 237] + [DefaultAlpha] == [100, 149, 237, 127];
  }

  /** Two digit runs with the same digit values decode to the same bytes. */
  lemma {:induction false} SameHexValues(s: string, t: string)
    requires AllHexDigits(s) && AllHexDigits(t) && |s| == |t| && |s| % 2 == 0
    requires forall i :: 0 <= i < |s| ==> HexValue(s[i]) == HexValue(t[i])
    ensures DecodePairs(s) == DecodePairs(t)
    decreases |s|
  {
    if |s| > 0 {
      SameHexValues(s[2..], t[2..]);
    }
  }

  lemma CornflowerPairs()
    ensures DecodePairs("6495ED") == [100, 149, 237]
  {
    assert "6495ED"[2..] == "95ED" && "95ED"[2..] == "ED" && "ED"[2..] == "";
    assert PairValue('6', '4') == 100 && PairValue('9', '5') == 149 && PairValue('E', 'D') == 237;
  }

  /** A colour channel as Python holds it: an int, a float, or a number of any other type. */
  datatype Channel = IntChannel(i: int) | FloatChannel(f: real) | OtherNumber(r: real)

  function ChannelValue(c: Channel): real
  {
    match c
    case IntChannel(i) => i as real
    case FloatChannel(f) => f
    case OtherNumber(r) => r
  }

  /** A colour argument: text, one of the sequence types the validator accepts, or anything else. */
  datatype ColorInput = ColorText(text: string) | ColorVector(channels: seq<Channel>) | ColorOther

  /**
   * __validate_color_vector_type_and_values__: every channel of the wanted
   * type and within [lower, upper], and three or four of them; the reduce
   * raises on an empty vector.
   */
  function ValidateVector(color: seq<Channel>, wantInt: bool, lower: real, upper: real): (r: Result<bool, ColorError>)
    ensures r.Failure? <==> |color| == 0
    ensures r.Success? ==>
              (r.value <==> (|color| == 3 || |color| == 4)
                            && forall i :: 0 <= i < |color| ==>
                                 (if wantInt then color[i].IntChannel? else color[i].FloatChannel?)
                                 && lower <= ChannelValue(color[i]) <= upper)
  {
    if |color| == 0 then Failure(ReduceError)
    else
      var typeIsCorrect := forall i :: 0 <= i < |color| ==> if wantInt then color[i].IntChannel? else color[i].FloatChannel?;
      var rangesAreCorrect := forall i :: 0 <= i < |color| ==> lower <= ChannelValue(color[i]) <= upper;
      Success(typeIsCorrect && rangesAreCorrect && (|color| == 3 || |color| == 4))
  }

  /** int(x * 255) of a non-negative x: truncation is the floor. */
  function ScaleChannel(f: real): (v: int)
    requires 0.0 <= f <= 1.0
    ensures 0 <= v <= 255
    ensures v as real <= f * 255.0 < v as real + 1.0
  {
    (f * 255.0).Floor
  }

  /** tuple(color) of int channels. */
  function IntValues(c: seq<Channel>): (r: seq<int>)
    requires forall i :: 0 <= i < |c| ==> c[i].IntChannel?
    ensures |r| == |c| && forall i :: 0 <= i < |c| ==> r[i] == c[i].i
  {
    if |c| == 0 then [] else [c[0].i] + IntValues(c[1..])
  }

  /** The float channels mapped through ScaleChannel. */
  function ScaledValues(c: seq<Channel>): (r: seq<int>)
    requires forall i :: 0 <= i < |c| ==> c[i].FloatChannel? && 0.0 <= c[i].f <= 1.0
    ensures |r| == |c| && forall i :: 0 <= i < |c| ==> r[i] == ScaleChannel(c[i].f)
  {
    if |c| == 0 then [] else [ScaleChannel(c[0].f)] + ScaledValues(c[1..])
  }

  /** Every channel an int in [0, 255]. */
  predicate AllIntChannels(c: seq<Channel>)
  {
    forall i :: 0 <= i < |c| ==> c[i].IntChannel? && 0 <= c[i].i <= 255
  }

  /** Every channel a float in [0, 1]. */
  predicate AllFloatChannels(c: seq<Channel>)
  {
    forall i :: 0 <= i < |c| ==> c[i].FloatChannel? && 0.0 <= c[i].f <= 1.0
  }

  /**
   * The sequence branch of __validate_and_map_color__: three or four int
   * channels in [0, 255] come back unchanged, three or four float channels in
   * [0, 1] are scaled, no channels at all make the reduce raise, and anything
   * else is an InvalidColorRepresentationError.
   */
  function MapColorVector(c: seq<Channel>): (r: Result<seq<int>, ColorError>)
    ensures |c| == 0 ==> r == Failure(ReduceError)
    ensures (|c| == 3 || |c| == 4) && AllIntChannels(c) ==> r == Success(IntValues(c))
    ensures (|c| == 3 || |c| == 4) && AllFloatChannels(c) ==> r == Success(ScaledValues(c))
    ensures r.Success? ==> (|c| == 3 || |c| == 4) && (AllIntChannels(c) || AllFloatChannels(c))
    ensures r.Failure? && |c| > 0 ==> r.error.InvalidColor?
  {
    var ints := ValidateVector(c, true, 0.0, 255.0);
    if ints.Failure? then Failure(ints.error)
    else if ints.value then Success(IntValues(c))
    else if ValidateVector(c, false, 0.0, 1.0) == Success(true) then Success(ScaledValues(c))
    else Failure(InvalidColor("color must include either 3 or 4 channels (RGB or RGBA), int range 0-255 float range 0.0 - 1.0"))
  }

  /** Mapped channels are bytes, one per input channel. */
  lemma MappedChannelsAreBytes(c: seq<Channel>)
    ensures MapColorVector(c).Success? ==>
              |MapColorVector(c).value| == |c| && forall i :: 0 <= i < |c| ==> 0 <= MapColorVector(c).value[i] <= 255
  {
  }

  /**
   * __validate_and_map_color__: text goes to the string validator, one of the
   * accepted sequence types to the channel checks, and anything else is an
   * InvalidColorRepresentationError.
   */
  function ValidateAndMapColor(color: ColorInput, table: ColorTable, distance: (string, string) -> nat): (r: Result<seq<int>, ColorError>)
    requires |table| > 0
    ensures color.ColorText? ==> r == ValidateColorString(color.text, table, distance)
    ensures color.ColorVector? ==> r == MapColorVector(color.channels)
    ensures color.ColorOther? ==> r.Failure? && r.error.InvalidColor?
  {
    match color
    case ColorText(s) =>
      var r := ValidateColorString(s, table, distance);
      if r.Success? then Success(r.value) else Failure(r.error)
    case ColorVector(c) => MapColorVector(c)
    case ColorOther =>
      Failure(InvalidColor("Found no suitable representation of color for given input"))
  }

  // ---------------------------------------------------------------------------
  // Draw styles and data checks
  // ---------------------------------------------------------------------------

  /** The DrawStyles enumeration. */
  datatype DrawStyle =
    | Points | Lines | LineLoop | LineStrip | Triangles
    | TriangleStrip | TriangleFan | Quads | QuadStrip | Polygon

  /** The enumeration's values, GL_POINTS = 0 to GL_POLYGON = 9. */
  function StyleValue(d: DrawStyle): (v: int)
    ensures 0 <= v <= 9
  {
    match d
    case Points => 0
    case Lines => 1
    case LineLoop => 2
    case LineStrip => 3
    case Triangles => 4
    case TriangleStrip => 5
    case TriangleFan => 6
    case Quads => 7
    case QuadStrip => 8
    case Polygon => 9
  }

  /** The member with a given value (DrawStyles(v)). */
  function StyleOf(v: int): (d: Option<DrawStyle>)
    ensures d.Some? <==> 0 <= v <= 9
    ensures d.Some? ==> StyleValue(d.value) == v
  {
    if v == 0 then Some(Points)
    else if v == 1 then Some(Lines)
    else if v == 2 then Some(LineLoop)
    else if v == 3 then Some(LineStrip)
    else if v == 4 then Some(Triangles)
    else if v == 5 then Some(TriangleStrip)
    else if v == 6 then Some(TriangleFan)
    else if v == 7 then Some(Quads)
    else if v == 8 then Some(QuadStrip)
    else if v == 9 then Some(Polygon)
    else None
  }

  /** Every member is recovered from its value. */
  lemma StyleValueRoundTrip(d: DrawStyle)
    ensures StyleOf(StyleValue(d)) == Some(d)
  {
  }

  /** A draw-style argument: a member of the enumeration or a plain int. */
  datatype DrawStyleArg = StyleMember(style: DrawStyle) | StyleNumber(n: int)

  /** _check_draw_style: a member becomes its value, 0 to 9 pass, anything else falls back to GL_POINTS. */
  function CheckDrawStyle(arg: DrawStyleArg): (v: int)
    ensures 0 <= v <= 9
    ensures arg.StyleMember? ==> v == StyleValue(arg.style)
    ensures arg.StyleNumber? ==> v == if 0 <= arg.n <= 9 then arg.n else StyleValue(Points)
  {
    var n := match arg case StyleMember(d) => StyleValue(d) case StyleNumber(n) => n;
    if 0 <= n <= 9 then n else 0
  }

  /** The draw-style test: a member and its value are checked alike. */
  lemma DrawStyleMemberAndValueAgree(d: DrawStyle)
    ensures CheckDrawStyle(StyleMember(d)) == CheckDrawStyle(StyleNumber(StyleValue(d))) == StyleValue(d)
  {
  }

  /** The numpy dtype of a column. */
  datatype DType = Float32 | Float64 | Int32 | Int64 | OtherDType

  predicate IsFloatType(t: DType) { t == Float32 || t == Float64 }

  predicate IsIntType(t: DType) { t == Int32 || t == Int64 }

  /** A coordinate column and the dtype numpy gives it. */
  datatype Coordinates = Coordinates(dtype: DType, values: seq<real>)

  /** A timestamp column and the dtype numpy gives it. */
  datatype Timestamps = Timestamps(dtype: DType, values: seq<int>)

  /**
   * _check_values: x and y, and z and the timestamps when given, are float
   * columns (int columns for the timestamps) of one common length.
   */
  function CheckValues(x: Coordinates, y: Coordinates, z: Option<Coordinates>, t: Option<Timestamps>): (ok: bool)
    ensures ok <==>
              && IsFloatType(x.dtype) && IsFloatType(y.dtype) && |y.values| == |x.values|
              && (z.Some? ==> IsFloatType(z.value.dtype) && |z.value.values| == |x.values|)
              && (t.Some? ==> IsIntType(t.value.dtype) && |t.value.values| == |x.values|)
  {
    var typeIsCorrect := IsFloatType(x.dtype) && IsFloatType(y.dtype);
    var lenEqual := |x.values| == |y.values|;
    var typeIsCorrect := if z.Some? then typeIsCorrect && IsFloatType(z.value.dtype) else typeIsCorrect;
    var lenEqual := if z.Some? then lenEqual && |z.value.values| == |x.values| else lenEqual;
    var typeIsCorrect := if t.Some? then typeIsCorrect && IsIntType(t.value.dtype) else typeIsCorrect;
    var lenEqual := if t.Some? then lenEqual && |t.value.values| == |x.values| else lenEqual;
    typeIsCorrect && lenEqual
  }

  /** _check_name: a non-empty string. */
  function CheckName(name: string): (ok: bool)
    ensures ok <==> name != ""
  {
    |name| > 0
  }

  /** __validate_string_data__: the strings when there is exactly one per point, none otherwise. */
  function ValidateStringData(stringData: Option<seq<string>>, length: nat): (r: seq<string>)
    ensures r == stringData.value <== stringData.Some? && |stringData.value| == length
    ensures r == [] <== stringData.None? || |stringData.value| != length
    ensures |r| == 0 || |r| == length
  {
    if stringData.None? then []
    else if |stringData.value| == length then stringData.value
    else []
  }

  // ---------------------------------------------------------------------------
  // Vertex interleaving
  // ---------------------------------------------------------------------------

  /** np.ravel(np.vstack((x, y, z)), order="F"): one (x, y, z) triple per point. */
  function Interleave(x: seq<real>, y: seq<real>, z: seq<real>): (v: seq<real>)
    requires |x| == |y| == |z|
    ensures |v| == 3 * |x|
  {
    if |x| == 0 then [] else [x[0], y[0], z[0]] + Interleave(x[1..], y[1..], z[1..])
  }

  /** The j-th coordinate of every triple: a row of the stacked array. */
  function Component(v: seq<real>, j: nat): (c: seq<real>)
    requires j < 3 && |v| % 3 == 0
    ensures |c| == |v| / 3
  {
    if |v| == 0 then [] else [v[j]] + Component(v[3..], j)
  }

  /** Interleaving keeps every coordinate: each row comes back out. */
  lemma {:induction false} InterleaveRoundTrip(x: seq<real>, y: seq<real>, z: seq<real>)
    requires |x| == |y| == |z|
    ensures Component(Interleave(x, y, z), 0) == x
    ensures Component(Interleave(x, y, z), 1) == y
    ensures Component(Interleave(x, y, z), 2) == z
  {
    if |x| > 0 {
      var v := Interleave(x, y, z);
      assert v[3..] == Interleave(x[1..], y[1..], z[1..]);
      InterleaveRoundTrip(x[1..], y[1..], z[1..]);
      assert x == [x[0]] + x[1..] && y == [y[0]] + y[1..] && z == [z[0]] + z[1..];
    }
  }

  /** A column of ones, the third coordinate of a 2D layer. */
  function Ones(n: nat): (r: seq<real>)
    ensures |r| == n && forall i :: 0 <= i < n ==> r[i] == 1.0
  {
    if n == 0 then [] else [1.0] + Ones(n - 1)
  }

  // ---------------------------------------------------------------------------
  // Layers
  // ---------------------------------------------------------------------------

  /** The colour divided by 255, as the model receives it. */
  function Normalized(color: seq<int>): (r: seq<real>)
    ensures |r| == |color| && forall i :: 0 <= i < |color| ==> r[i] * 255.0 == color[i] as real
  {
    if |color| == 0 then [] else [color[0] as real / 255.0] + Normalized(color[1..])
  }

  /** check_color_data: three zeros stand in for absent per-point colours. */
  function ColorDataOrZeros(colorData: Option<seq<real>>): (r: seq<real>)
    ensures colorData.Some? ==> r == colorData.value
    ensures colorData.None? ==> r == [0.0, 0.0, 0.0]
  {
    if colorData.Some? then colorData.value else [0.0, 0.0, 0.0]
  }

  /** The model create_gl_model and create_gl_model_animated build from a layer's checked arguments. */
  function LayerEntry(id: int, name: string, drawType: int, vertices: seq<real>, numVertices: nat, color: seq<int>,
                      colorData: Option<seq<real>>, stringReps: seq<string>, pickingEnabled: bool,
                      animation: Option<Animation>): (m: ModelEntry)
    ensures m.id == id && m.name == name && m.drawType == drawType && m.vertices == vertices
    ensures m.numVertices == numVertices && m.color == Normalized(color)
    ensures m.colorData == ColorDataOrZeros(colorData) && m.useColorData == colorData.Some?
    ensures m.stringReps == stringReps && m.pickingEnabled == pickingEnabled && m.animation == animation
  {
    ModelEntry(id, name, drawType, numVertices, vertices, Normalized(color), ColorDataOrZeros(colorData),
               colorData.Some?, stringReps, pickingEnabled, animation)
  }

  /**
   * The model of a 2D layer: one vertex per point, holding the point's x and y,
   * every vertex on the plane z = 1.
   */
  function PlanarEntry(id: int, x: Coordinates, y: Coordinates, name: string, drawStyle: DrawStyleArg, color: seq<int>,
                       colorData: Option<seq<real>>, strings: Option<seq<string>>, pickingEnabled: bool,
                       animation: Option<Animation>): (m: ModelEntry)
    requires |x.values| == |y.values|
    ensures m.numVertices == |x.values| && |m.vertices| == 3 * |x.values|
    ensures Component(m.vertices, 0) == x.values && Component(m.vertices, 1) == y.values
    ensures Component(m.vertices, 2) == Ones(|x.values|)
  {
    InterleaveRoundTrip(x.values, y.values, Ones(|x.values|));
    LayerEntry(id, name, CheckDrawStyle(drawStyle), Interleave(x.values, y.values, Ones(|x.values|)),
               |x.values|, color, colorData, ValidateStringData(strings, |x.values|), pickingEnabled, animation)
  }

  /** The window-size check of the animated add methods: at least 1 and at most the point count. */
  predicate WindowFits(windowSize: int, length: nat)
  {
    1 <= windowSize <= length
  }

  /** What an add method returns: the new layer's id, False, or the exception it raises. */
  datatype AddOutcome = Added(id: int) | Rejected | Raised(error: ColorError)

  /**
   * The plotting object (ZenithCommon with its 2D and 3D variants): a layer
   * counter, the ids and models it handed out, the string data of every
   * layer it began, and the engine it registers models with.
   */
  class Zenith {
    const colors: ColorTable
    const editDistance: (string, string) -> nat
    const engine: Engine
    var numLayers: nat
    var layerIds: set<int>
    var layers: seq<ModelEntry>
    var stringData: seq<seq<string>>

    /**
     * The ids handed out are 1 to numLayers, layer i has id i + 1, and the
     * engine holds only layers of this object, each under its own id.
     */
    ghost predicate Valid()
      reads this, engine
    {
      && |colors| > 0
      && (forall k :: k in layerIds <==> 1 <= k <= numLayers)
      && |layers| == numLayers
      && (forall i :: 0 <= i < |layers| ==> layers[i].id == i + 1)
      && (forall k :: k in engine.models ==> 1 <= k <= numLayers && engine.models[k] == layers[k - 1])
    }

    /** A new plotting object with no layers and an empty engine. */
    constructor (colors: ColorTable, editDistance: (string, string) -> nat)
      requires |colors| > 0
      ensures Valid() && fresh(engine)
      ensures this.colors == colors && this.editDistance == editDistance
      ensures numLayers == 0 && layerIds == {} && layers == [] && stringData == [] && engine.models == map[]
    {
      this.colors := colors;
      this.editDistance := editDistance;
      engine := new Engine();
      numLayers := 0;
      layerIds := {};
      layers := [];
      stringData := [];
    }

    /**
     * Zenith3D.add_layer: after the value and name checks it records the
     * string data, maps the colour (which may raise), takes the next id and
     * registers the model.
     */
    method AddLayer3D(x: Coordinates, y: Coordinates, z: Coordinates, color: ColorInput, name: string,
                      drawStyle: DrawStyleArg, colorData: Option<seq<real>>, strings: Option<seq<string>>,
                      pickingEnabled: bool) returns (r: AddOutcome)
      requires Valid()
      modifies this, engine
      ensures Valid()
      ensures !CheckValues(x, y, Some(z), None) || !CheckName(name) ==> r == Rejected && unchanged(this) && unchanged(engine)
      ensures CheckValues(x, y, Some(z), None) && CheckName(name) ==>
                && stringData == old(stringData) + [ValidateStringData(strings, |x.values|)]
                && match ValidateAndMapColor(color, colors, editDistance)
                   case Failure(e) =>
                     r == Raised(e) && numLayers == old(numLayers) && layerIds == old(layerIds)
                     && layers == old(layers) && engine.models == old(engine.models)
                   case Success(c) =>
                     var id := old(numLayers) + 1;
                     var entry := LayerEntry(id, name, CheckDrawStyle(drawStyle), Interleave(x.values, y.values, z.values),
                                             |x.values|, c, colorData, ValidateStringData(strings, |x.values|),
                                             pickingEnabled, None);
                     && r == Added(id) && numLayers == id && layerIds == old(layerIds) + {id}
                     && layers == old(layers) + [entry] && engine.models == Insert(old(engine.models), id, entry)
      ensures r.Added? ==> r.id !in old(layerIds) && r.id !in old(engine.models)
    {
      if !CheckValues(x, y, Some(z), None) {
        return Rejected;
      }
      var style := CheckDrawStyle(drawStyle);
      if !CheckName(name) {
        return Rejected;
      }
      var strs := ValidateStringData(strings, |x.values|);
      stringData := stringData + [strs];
      var data := Interleave(x.values, y.values, z.values);
      var mapped := ValidateAndMapColor(color, colors, editDistance);
      if mapped.Failure? {
        return Raised(mapped.error);
      }
      var id := numLayers + 1;
      var model := LayerEntry(id, name, style, data, |x.values|, mapped.value, colorData, strs, pickingEnabled, None);
      RegisterLayer(model, true);
      r := Added(id);
    }

    /**
     * Zenith2D.add_layer as written: it takes an id and records the model
     * like the other add methods but never hands the model to the engine.
     */
    method AddLayer2DAsWritten(x: Coordinates, y: Coordinates, name: string, drawStyle: DrawStyleArg,
                               color: ColorInput, colorData: Option<seq<real>>, strings: Option<seq<string>>,
                               pickingEnabled: bool) returns (r: AddOutcome)
      requires Valid()
      modifies this, engine
      ensures Valid()
      ensures engine.models == old(engine.models)
      ensures !CheckValues(x, y, None, None) || !CheckName(name) ==> r == Rejected && unchanged(this)
      ensures CheckValues(x, y, None, None) && CheckName(name) ==>
                && stringData == old(stringData) + [ValidateStringData(strings, |x.values|)]
                && match ValidateAndMapColor(color, colors, editDistance)
                   case Failure(e) =>
                     r == Raised(e) && numLayers == old(numLayers) && layerIds == old(layerIds) && layers == old(layers)
                   case Success(c) =>
                     var id := old(numLayers) + 1;
                     && r == Added(id) && numLayers == id && layerIds == old(layerIds) + {id}
                     && layers == old(layers) + [PlanarEntry(id, x, y, name, drawStyle, c, colorData, strings, pickingEnabled, None)]
      ensures r.Added? ==> r.id !in old(layerIds) && r.id !in engine.models
    {
      if !CheckValues(x, y, None, None) {
        return Rejected;
      }
      var style := CheckDrawStyle(drawStyle);
      if !CheckName(name) {
        return Rejected;
      }
      var strs := ValidateStringData(strings, |x.values|);
      stringData := stringData + [strs];
      var data := Interleave(x.values, y.values, Ones(|x.values|));
      var mapped := ValidateAndMapColor(color, colors, editDistance);
      if mapped.Failure? {
        return Raised(mapped.error);
      }
      var id := numLayers + 1;
      var model := LayerEntry(id, name, style, data, |x.values|, mapped.value, colorData, strs, pickingEnabled, None);
      RegisterLayer(model, false);
      r := Added(id);
    }

    /** Zenith2D.add_layer as its tests use it: like AddLayer2DAsWritten, and the engine registers the model. */
    method AddLayer2D(x: Coordinates, y: Coordinates, name: string, drawStyle: DrawStyleArg,
                      color: ColorInput, colorData: Option<seq<real>>, strings: Option<seq<string>>,
                      pickingEnabled: bool) returns (r: AddOutcome)
      requires Valid()
      modifies this, engine
      ensures Valid()
      ensures !CheckValues(x, y, None, None) || !CheckName(name) ==> r == Rejected && unchanged(this) && unchanged(engine)
      ensures CheckValues(x, y, None, None) && CheckName(name) ==>
                && stringData == old(stringData) + [ValidateStringData(strings, |x.values|)]
                && match ValidateAndMapColor(color, colors, editDistance)
                   case Failure(e) =>
                     r == Raised(e) && numLayers == old(numLayers) && layerIds == old(layerIds)
                     && layers == old(layers) && engine.models == old(engine.models)
                   case Success(c) =>
                     var id := old(numLayers) + 1;
                     var entry := PlanarEntry(id, x, y, name, drawStyle, c, colorData, strings, pickingEnabled, None);
                     && r == Added(id) && numLayers == id && layerIds == old(layerIds) + {id}
                     && layers == old(layers) + [entry] && engine.models == Insert(old(engine.models), id, entry)
      ensures r.Added? ==> r.id !in old(layerIds) && r.id !in old(engine.models)
    {
      if !CheckValues(x, y, None, None) {
        return Rejected;
      }
      var style := CheckDrawStyle(drawStyle);
      if !CheckName(name) {
        return Rejected;
      }
      var strs := ValidateStringData(strings, |x.values|);
      stringData := stringData + [strs];
      var data := Interleave(x.values, y.values, Ones(|x.values|));
      var mapped := ValidateAndMapColor(color, colors, editDistance);
      if mapped.Failure? {
        return Raised(mapped.error);
      }
      var id := numLayers + 1;
      var model := LayerEntry(id, name, style, data, |x.values|, mapped.value, colorData, strs, pickingEnabled, None);
      RegisterLayer(model, true);
      r := Added(id);
    }

    /**
     * Zenith2D.add_animated_layer: the window size is checked after the
     * string data is recorded, so a bad window leaves that record behind.
     */
    method AddAnimatedLayer2D(x: Coordinates, y: Coordinates, t: Timestamps, color: ColorInput, drawStyle: DrawStyleArg,
                              windowSize: int, name: string, colorData: Option<seq<real>>,
                              strings: Option<seq<string>>, pickingEnabled: bool) returns (r: AddOutcome)
      requires Valid()
      modifies this, engine
      ensures Valid()
      ensures !CheckValues(x, y, None, Some(t)) || !CheckName(name) ==> r == Rejected && unchanged(this) && unchanged(engine)
      ensures CheckValues(x, y, None, Some(t)) && CheckName(name) ==>
                && stringData == old(stringData) + [ValidateStringData(strings, |x.values|)]
                && (!WindowFits(windowSize, |x.values|) ==>
                      r == Rejected && numLayers == old(numLayers) && layerIds == old(layerIds)
                      && layers == old(layers) && engine.models == old(engine.models))
                && (WindowFits(windowSize, |x.values|) ==>
                      match ValidateAndMapColor(color, colors, editDistance)
                      case Failure(e) =>
                        r == Raised(e) && numLayers == old(numLayers) && layerIds == old(layerIds)
                        && layers == old(layers) && engine.models == old(engine.models)
                      case Success(c) =>
                        var id := old(numLayers) + 1;
                        var entry := PlanarEntry(id, x, y, name, drawStyle, c, colorData, strings, pickingEnabled,
                                                 Some(Animation(windowSize, windowSize, t.values)));
                        && r == Added(id) && numLayers == id && layerIds == old(layerIds) + {id}
                        && layers == old(layers) + [entry] && engine.models == Insert(old(engine.models), id, entry))
      ensures r.Added? ==> r.id !in old(layerIds) && r.id !in old(engine.models)
    {
      if !CheckValues(x, y, None, Some(t)) {
        return Rejected;
      }
      var style := CheckDrawStyle(drawStyle);
      if !CheckName(name) {
        return Rejected;
      }
      var strs := ValidateStringData(strings, |x.values|);
      stringData := stringData + [strs];
      if windowSize < 1 || windowSize > |x.values| {
        return Rejected;
      }
      var mapped := ValidateAndMapColor(color, colors, editDistance);
      if mapped.Failure? {
        return Raised(mapped.error);
      }
      var data := Interleave(x.values, y.values, Ones(|x.values|));
      var id := numLayers + 1;
      var model := LayerEntry(id, name, style, data, |x.values|, mapped.value, colorData, strs, pickingEnabled,
                              Some(Animation(windowSize, windowSize, t.values)));
      RegisterLayer(model, true);
      r := Added(id);
    }

    /**
     * Zenith3D.add_animated_layer: here the string data is recorded before
     * the name check, so a bad name as well as a bad window leaves that
     * record behind.
     */
    method AddAnimatedLayer3D(x: Coordinates, y: Coordinates, z: Coordinates, t: Timestamps, color: ColorInput,
                              drawStyle: DrawStyleArg, windowSize: int, name: string, colorData: Option<seq<real>>,
                              strings: Option<seq<string>>, pickingEnabled: bool) returns (r: AddOutcome)
      requires Valid()
      modifies this, engine
      ensures Valid()
      ensures !CheckValues(x, y, Some(z), Some(t)) ==> r == Rejected && unchanged(this) && unchanged(engine)
      ensures CheckValues(x, y, Some(z), Some(t)) ==>
                && stringData == old(stringData) + [ValidateStringData(strings, |x.values|)]
                && (!CheckName(name) || !WindowFits(windowSize, |x.values|) ==>
                      r == Rejected && numLayers == old(numLayers) && layerIds == old(layerIds)
                      && layers == old(layers) && engine.models == old(engine.models))
                && (CheckName(name) && WindowFits(windowSize, |x.values|) ==>
                      match ValidateAndMapColor(color, colors, editDistance)
                      case Failure(e) =>
                        r == Raised(e) && numLayers == old(numLayers) && layerIds == old(layerIds)
                        && layers == old(layers) && engine.models == old(engine.models)
                      case Success(c) =>
                        var id := old(numLayers) + 1;
                        var entry := LayerEntry(id, name, CheckDrawStyle(drawStyle), Interleave(x.values, y.values, z.values),
                                                |x.values|, c, colorData, ValidateStringData(strings, |x.values|),
                                                pickingEnabled, Some(Animation(windowSize, windowSize, t.values)));
                        && r == Added(id) && numLayers == id && layerIds == old(layerIds) + {id}
                        && layers == old(layers) + [entry] && engine.models == Insert(old(engine.models), id, entry))
      ensures r.Added? ==> r.id !in old(layerIds) && r.id !in old(engine.models)
    {
      if !CheckValues(x, y, Some(z), Some(t)) {
        return Rejected;
      }
      var strs := ValidateStringData(strings, |x.values|);
      stringData := stringData + [strs];
      var style := CheckDrawStyle(drawStyle);
      if !CheckName(name) {
        return Rejected;
      }
      if windowSize < 1 || windowSize > |x.values| {
        return Rejected;
      }
      var data := Interleave(x.values, y.values, z.values);
      var mapped := ValidateAndMapColor(color, colors, editDistance);
      if mapped.Failure? {
        return Raised(mapped.error);
      }
      var id := numLayers + 1;
      var model := LayerEntry(id, name, style, data, |x.values|, mapped.value, colorData, strs, pickingEnabled,
                              Some(Animation(windowSize, windowSize, t.values)));
      RegisterLayer(model, true);
      r := Added(id);
    }

    /** remove_layer: the engine's removeModel; the object's own records keep the id. */
    method RemoveLayer(id: int) returns (ok: bool)
      requires Valid()
      modifies engine
      ensures Valid()
      ensures ok <==> id in old(engine.models)
      ensures engine.models == Erase(old(engine.models), id)
    {
      ok := engine.RemoveModel(id);
    }

    /**
     * The common tail of the add methods: bump the layer counter to the new
     * model's id, hand the model to the engine when the method does so, and
     * record the model and its id.
     */
    method RegisterLayer(model: ModelEntry, addToEngine: bool)
      requires Valid() && model.id == numLayers + 1
      modifies this, engine
      ensures Valid()
      ensures numLayers == old(numLayers) + 1 && layerIds == old(layerIds) + {model.id} && layers == old(layers) + [model]
      ensures engine.models == if addToEngine then Insert(old(engine.models), model.id, model) else old(engine.models)
      ensures stringData == old(stringData)
      ensures model.id !in old(layerIds) && model.id !in old(engine.models)
    {
      numLayers := numLayers + 1;
      if addToEngine {
        var _ := engine.AddModel(model.id, model);
      }
      layers := layers + [model];
      layerIds := layerIds + {model.id};
    }
  }

  // ---------------------------------------------------------------------------
  // The layer tests
  // ---------------------------------------------------------------------------

  /** Firebrick as int channels. */
  const Firebrick := ColorVector([IntChannel(178), IntChannel(34), IntChannel(34)])

  /** A one-point float column. */
  const OnePoint := Coordinates(Float64, [0.5])

  /**
   * The add-then-remove sequence of the layer tests on Zenith2D as written:
   * the layer gets id 1, but the engine never saw it, so removing it fails.
   */
  method PlanarLayerNotRemovableAsWritten(colors: ColorTable, editDistance: (string, string) -> nat)
    returns (id: AddOutcome, removed: bool)
    requires |colors| > 0
    ensures id == Added(1) && !removed
  {
    var plot := new Zenith(colors, editDistance);
    assert AllIntChannels(Firebrick.channels);
    id := plot.AddLayer2DAsWritten(OnePoint, OnePoint, "test1", StyleMember(Points), Firebrick, None, None, false);
    removed := plot.RemoveLayer(1);
  }

  /**
   * The layer tests with the engine registering 2D layers: four layers get
   * ids 1 to 4, removing the third and fourth succeeds, two remain, and a
   * never-issued id cannot be removed.
   */
  method FourLayersThenRemoveTwo(colors: ColorTable, editDistance: (string, string) -> nat)
    returns (ids: seq<AddOutcome>, removed3: bool, removed4: bool, removedOther: bool, remaining: nat)
    requires |colors| > 0
    ensures ids == [Added(1), Added(2), Added(3), Added(4)]
    ensures removed3 && removed4 && !removedOther && remaining == 2
  {
    var plot;
    plot, ids := FourFirebrickLayers(colors, editDistance);
    removed3 := plot.RemoveLayer(3);
    assert plot.engine.models.Keys == {1, 2, 4};
    removed4 := plot.RemoveLayer(4);
    assert plot.engine.models.Keys == {1, 2};
    removedOther := plot.RemoveLayer(12341);
    assert plot.engine.models.Keys == {1, 2};
    remaining := plot.engine.NumModels();
  }

  /** The four adds of the layer tests on a new plotting object. */
  method FourFirebrickLayers(colors: ColorTable, editDistance: (string, string) -> nat) returns (plot: Zenith, ids: seq<AddOutcome>)
    requires |colors| > 0
    ensures fresh(plot) && fresh(plot.engine) && plot.Valid()
    ensures ids == [Added(1), Added(2), Added(3), Added(4)]
    ensures plot.engine.models.Keys == {1, 2, 3, 4}
  {
    plot := new Zenith(colors, editDistance);
    var l1 := AddFirebrickLayer(plot, "test1", Points);
    var l2 := AddFirebrickLayer(plot, "test2", LineLoop);
    var l3 := AddFirebrickLayer(plot, "test3", Polygon);
    var l4 := AddFirebrickLayer(plot, "test4", Quads);
    ids := [l1, l2, l3, l4];
  }

  /** One add of the layer tests: a one-point, firebrick 2D layer. */
  method AddFirebrickLayer(plot: Zenith, name: string, style: DrawStyle) returns (r: AddOutcome)
    requires plot.Valid() && name != ""
    modifies plot, plot.engine
    ensures plot.Valid()
    ensures r == Added(old(plot.numLayers) + 1)
    ensures plot.numLayers == old(plot.numLayers) + 1
    ensures plot.engine.models.Keys == old(plot.engine.models.Keys) + {r.id}
  {
    assert AllIntChannels(Firebrick.channels);
    r := plot.AddLayer2D(OnePoint, OnePoint, name, StyleMember(style), Firebrick, None, None, false);
  }

  /** Points of unequal number are rejected before anything changes. */
  method UnequalLengthsRejected(colors: ColorTable, editDistance: (string, string) -> nat) returns (r: AddOutcome, layers: nat)
    requires |colors| > 0
    ensures r == Rejected && layers == 0
  {
    var plot := new Zenith(colors, editDistance);
    r := plot.AddLayer2D(OnePoint, Coordinates(Float64, [0.5, 0.25]), "test", StyleMember(Points), Firebrick, None, None, false);
    layers := plot.numLayers;
  }
}

/**
 * Resource-name decoding and path helpers (vst::utils).
 *
 * A shared resource carries its pixel dimensions in its name:
 * `<prefix>-<W>x<H>[<suffix>]`. `ParseImageDimensions` decodes such a name the
 * way the C++ does: split at the LAST '-', then at the first 'x' at or after
 * it, and convert both halves with `std::stoi`.
 */
module FileUtils {
  import opened Common

  // ---------------------------------------------------------------------------
  // std::string searches
  // ---------------------------------------------------------------------------

  /** `s.find_last_of(chars)`: the last index holding one of `chars`. */
  function FindLastOf(s: string, chars: set<char>): (r: Option<nat>)
    ensures r.Some? ==> r.value < |s| && s[r.value] in chars
    ensures r.Some? ==> forall j :: r.value < j < |s| ==> s[j] !in chars
    ensures r.None? <==> forall j :: 0 <= j < |s| ==> s[j] !in chars
  {
    if s == [] then None
    else if s[|s| - 1] in chars then Some(|s| - 1)
    else FindLastOf(s[..|s| - 1], chars)
  }

  /** `s.find(c, from)`: the first index at or after `from` holding `c`. */
  function FindFrom(s: string, c: char, from: nat): (r: Option<nat>)
    decreases |s| - from
    ensures r.Some? ==> from <= r.value < |s| && s[r.value] == c
    ensures r.Some? ==> forall j :: from <= j < r.value ==> s[j] != c
    ensures r.None? <==> forall j :: from <= j < |s| ==> s[j] != c
  {
    if from >= |s| then None
    else if s[from] == c then Some(from)
    else FindFrom(s, c, from + 1)
  }

  // ---------------------------------------------------------------------------
  // std::stoi
  // ---------------------------------------------------------------------------

  datatype StoiError = InvalidArgument | OutOfRange

  /** The characters `isspace` accepts in the C locale. */
  predicate IsSpace(c: char) {
    c == ' ' || c == '\t' || c == '\n' || c == 11 as char || c == 12 as char || c == '\r'
  }

  predicate IsDigit(c: char) { '0' <= c <= '9' }

  function DigitValue(c: char): nat
    requires IsDigit(c)
  {
    (c as int) - ('0' as int)
  }

  function DigitChar(d: nat): (c: char)
    requires d < 10
    ensures IsDigit(c) && DigitValue(c) == d
  {
    (('0' as int) + d) as char
  }

  predicate AllDigits(s: string) {
    forall i :: 0 <= i < |s| ==> IsDigit(s[i])
  }

  /** Number of leading white-space characters. */
  function SpaceRun(s: string): (n: nat)
    ensures n <= |s|
    ensures forall i :: 0 <= i < n ==> IsSpace(s[i])
    ensures n < |s| ==> !IsSpace(s[n])
  {
    if s != [] && IsSpace(s[0]) then 1 + SpaceRun(s[1..]) else 0
  }

  /** The longest prefix of `s` made of decimal digits. */
  function LeadingDigits(s: string): (ds: string)
    ensures AllDigits(ds) && |ds| <= |s| && ds == s[..|ds|]
    ensures |ds| < |s| ==> !IsDigit(s[|ds|])
  {
    if s != [] && IsDigit(s[0]) then [s[0]] + LeadingDigits(s[1..]) else []
  }

  /** The value of a string of decimal digits, most significant first. */
  function Value(ds: string): nat
    requires AllDigits(ds)
  {
    if ds == [] then 0 else 10 * Value(ds[..|ds| - 1]) + DigitValue(ds[|ds| - 1])
  }

  /** The text `std::stoi` reads its digits from: after leading white space and at most one sign. */
  function DigitText(s: string): (t: string)
    ensures |t| <= |s| && t == s[|s| - |t|..]
  {
    var t := s[SpaceRun(s)..];
    if t != [] && (t[0] == '-' || t[0] == '+') then t[1..] else t
  }

  /**
   * `std::stoi(s)` (base 10): skip leading white space, accept one optional
   * sign, then the longest run of digits; no digits is `invalid_argument`, a
   * value outside `int` is `out_of_range`. Anything after the digits is ignored.
   */
  function Stoi(s: string): (r: Result<int, StoiError>)
    ensures r.Ok? ==> INT_MIN <= r.value <= INT_MAX
    ensures r.Ok? && (forall i :: 0 <= i < |s| ==> s[i] != '-') ==> r.value >= 0
    ensures r == Err(InvalidArgument) <==> LeadingDigits(DigitText(s)) == []
  {
    var t := s[SpaceRun(s)..];
    var negative := t != [] && t[0] == '-';
    var ds := LeadingDigits(DigitText(s));
    if ds == [] then Err(InvalidArgument)
    else
      var n: int := Value(ds);
      var v := if negative then -n else n;
      if v < INT_MIN || INT_MAX < v then Err(OutOfRange) else Ok(v)
  }

  /** Text with no digit after the white space and the sign is rejected: "abc", " ", "+" and "-". */
  lemma StoiRejectsNonNumbers()
    ensures Stoi("abc") == Err(InvalidArgument)
    ensures Stoi(" ") == Err(InvalidArgument)
    ensures Stoi("+") == Err(InvalidArgument)
    ensures Stoi("-") == Err(InvalidArgument)
  {
    assert !IsDigit("abc"[0]);
    assert SpaceRun(" ") == 1;
    assert SpaceRun("+") == 0 && DigitText("+") == [];
    assert SpaceRun("-") == 0 && DigitText("-") == [];
  }

  // ---------------------------------------------------------------------------
  // parseImageDimensions, getFileName, getFileExtension
  // ---------------------------------------------------------------------------

  datatype ImageSize = ImageSize(width: int, height: int, channels: int)

  datatype DimensionError =
    | FormatInvalid                 // no '-', or no 'x' after the last '-'
    | NumberInvalid(e: StoiError)   // std::stoi threw on the width or height text

  /**
   * The conversions of `parseImageDimensions`: `std::stoi` on the width text,
   * then on the height text, each cast to `uint32_t` and back to `int`.
   */
  function SizeFromTexts(widthText: string, heightText: string): (r: Result<ImageSize, DimensionError>)
    ensures r.Ok? ==> r.value.channels == 0
    ensures r.Ok? && (forall i :: 0 <= i < |widthText| ==> widthText[i] != '-') ==> 0 <= r.value.width
    ensures r.Ok? && (forall i :: 0 <= i < |heightText| ==> heightText[i] != '-') ==> 0 <= r.value.height
  {
    var w := Stoi(widthText);
    var h := Stoi(heightText);
    if w.Err? then Err(NumberInvalid(w.error))
    else if h.Err? then Err(NumberInvalid(h.error))
    // static_cast<uint32_t> and back to int: the identity on int values
    else Ok(ImageSize(AsInt32(Wrap32(w.value)), AsInt32(Wrap32(h.value)), 0))
  }

  /**
   * The width and height texts of a resource name: between the last '-' and
   * the first 'x' after it, and after that 'x'; `None` when either is missing.
   */
  function DimensionTexts(filename: string): (r: Option<(string, string)>)
    ensures r.None? <==> FindLastOf(filename, DASH).None? || FindFrom(filename, 'x', FindLastOf(filename, DASH).value).None?
  {
    match FindLastOf(filename, DASH)
    case None => None
    case Some(dash) =>
      match FindFrom(filename, 'x', dash)
      case None => None
      case Some(x) => Some((filename[dash + 1..x], filename[x + 1..]))
  }

  function ParseImageDimensions(filename: string): (r: Result<ImageSize, DimensionError>)
    ensures r.Ok? ==> r.value.channels == 0
    ensures r.Ok? ==> 0 <= r.value.width <= INT_MAX && 0 <= r.value.height <= INT_MAX
  {
    match DimensionTexts(filename)
    case None => Err(FormatInvalid)
    case Some((widthText, heightText)) => SizeFromTexts(widthText, heightText)
  }

  const DASH: set<char> := {'-'}

  predicate IsSeparator(c: char) { c == '/' || c == '\\' }

  /** The text after the last '/' or '\\', or the whole path when it has none. */
  function GetFileName(path: string): (r: string)
    ensures |r| <= |path| && r == path[|path| - |r|..]
    ensures forall i :: 0 <= i < |r| ==> !IsSeparator(r[i])
    ensures r == path || IsSeparator(path[|path| - |r| - 1])
  {
    match FindLastOf(path, {'/', '\\'})
    case None => path
    case Some(i) => path[i + 1..]
  }

  /** The text after the last '.', or "" when there is none; separators play no part. */
  function GetFileExtension(path: string): (r: string)
    ensures |r| <= |path| && r == path[|path| - |r|..]
    ensures forall i :: 0 <= i < |r| ==> r[i] != '.'
    ensures r == [] || (|r| < |path| && path[|path| - |r| - 1] == '.')
    ensures (forall i :: 0 <= i < |path| ==> path[i] != '.') ==> r == []
    ensures (exists i :: 0 <= i < |path| && path[i] == '.') ==> |r| < |path| && path[|path| - |r| - 1] == '.'
  {
    match FindLastOf(path, {'.'})
    case None => []
    case Some(i) => path[i + 1..]
  }

  // ---------------------------------------------------------------------------
  // The encoder the producer side uses, and the round trip
  // ---------------------------------------------------------------------------

  /** Decimal text of `n` without leading zeros. */
  function Decimal(n: nat): (s: string)
    ensures s != [] && AllDigits(s)
  {
    if n < 10 then [DigitChar(n)] else Decimal(n / 10) + [DigitChar(n % 10)]
  }

  /** `<prefix>-<width>x<height><suffix>`, as resource names are built. */
  function EncodeName(prefix: string, width: nat, height: nat, suffix: string): string {
    Layout(prefix, Decimal(width), Decimal(height), suffix)
  }

  lemma {:induction false} ValueOfDecimal(n: nat)
    ensures Value(Decimal(n)) == n
  {
    if n >= 10 {
      ValueOfDecimal(n / 10);
      var s := Decimal(n);
      assert s[..|s| - 1] == Decimal(n / 10);
    }
  }

  lemma {:induction false} LeadingDigitsOfDigits(ds: string, rest: string)
    requires AllDigits(ds)
    requires rest == [] || !IsDigit(rest[0])
    ensures LeadingDigits(ds + rest) == ds
  {
    if ds != [] {
      assert (ds + rest)[1..] == ds[1..] + rest;
      LeadingDigitsOfDigits(ds[1..], rest);
    } else {
      assert ds + rest == rest;
    }
  }

  /** stoi reads back any decimal text followed by a non-digit. */
  lemma StoiOfDecimal(n: nat, rest: string)
    requires n <= INT_MAX
    requires rest == [] || !IsDigit(rest[0])
    ensures Stoi(Decimal(n) + rest) == Ok(n)
  {
    var s := Decimal(n) + rest;
    assert s[0] == Decimal(n)[0];
    assert SpaceRun(s) == 0;
    assert s[SpaceRun(s)..] == s;
    assert !IsDigit('-') && !IsDigit('+');
    assert DigitText(s) == s;
    LeadingDigitsOfDigits(Decimal(n), rest);
    ValueOfDecimal(n);
  }

  /** A found character with none of its kind after it is what find_last_of reports. */
  lemma FindLastOfIs(s: string, chars: set<char>, d: nat)
    requires d < |s| && s[d] in chars
    requires forall j :: d < j < |s| ==> s[j] !in chars
    ensures FindLastOf(s, chars) == Some(d)
  {
  }

  /** The first `c` at or after `from` is what find reports. */
  lemma FindFromIs(s: string, c: char, from: nat, x: nat)
    requires from <= x < |s| && s[x] == c
    requires forall j :: from <= j < x ==> s[j] != c
    ensures FindFrom(s, c, from) == Some(x)
  {
  }

  /** `<prefix>-<w>x<h><suffix>` for any texts. */
  function Layout(prefix: string, w: string, h: string, suffix: string): string {
    prefix + (['-'] + (w + (['x'] + (h + suffix))))
  }

  /** Past the separator '-', a name built from digits and a dash-free suffix has no other '-'. */
  lemma LayoutNoDashAfter(prefix: string, w: string, h: string, suffix: string)
    requires AllDigits(w) && AllDigits(h)
    requires forall i :: 0 <= i < |suffix| ==> suffix[i] != '-'
    ensures var s := Layout(prefix, w, h, suffix);
            forall j :: |prefix| < j < |s| ==> s[j] != '-'
  {
    var s := Layout(prefix, w, h, suffix);
    var x := |prefix| + 1 + |w|;
    forall j | |prefix| < j < |s| ensures s[j] != '-' {
      if j < x { assert s[j] == w[j - |prefix| - 1]; }
      else if j == x { assert s[j] == 'x'; }
      else if j < x + 1 + |h| { assert s[j] == h[j - x - 1]; }
      else { assert s[j] == suffix[j - x - 1 - |h|]; }
    }
  }

  /** From the separator '-' up to the separator 'x' there is no 'x'. */
  lemma LayoutNoXBefore(prefix: string, w: string, h: string, suffix: string)
    requires AllDigits(w)
    ensures var s := Layout(prefix, w, h, suffix);
            forall j :: |prefix| <= j < |prefix| + 1 + |w| ==> s[j] != 'x'
  {
    var s := Layout(prefix, w, h, suffix);
    forall j | |prefix| <= j < |prefix| + 1 + |w| ensures s[j] != 'x' {
      if j > |prefix| { assert s[j] == w[j - |prefix| - 1]; }
    }
  }

  /** The separators sit at `|prefix|` and right after `w`, with `w` and `h + suffix` between and after them. */
  lemma LayoutSlices(prefix: string, w: string, h: string, suffix: string)
    ensures var s, dash := Layout(prefix, w, h, suffix), |prefix|;
            var x := dash + 1 + |w|;
            && x < |s| && s[dash] == '-' && s[x] == 'x'
            && s[dash + 1..x] == w
            && s[x + 1..] == h + suffix
  {
    var s, dash := Layout(prefix, w, h, suffix), |prefix|;
    var x := dash + 1 + |w|;
    assert s[dash + 1..x] == w;
    assert s[x + 1..] == h + suffix;
  }

  /**
   * Decoding an encoded name gives back the dimensions, whatever the prefix
   * holds (earlier '-' and 'x' included), provided the suffix has no '-' and
   * does not start with a digit (".sock" or nothing, as in the resource names).
   */
  lemma ParseEncodeRoundTrip(prefix: string, width: nat, height: nat, suffix: string)
    requires width <= INT_MAX && height <= INT_MAX
    requires forall i :: 0 <= i < |suffix| ==> suffix[i] != '-'
    requires suffix == [] || !IsDigit(suffix[0])
    ensures ParseImageDimensions(EncodeName(prefix, width, height, suffix)) == Ok(ImageSize(width, height, 0))
  {
    var s := EncodeName(prefix, width, height, suffix);
    var dash := |prefix|;
    var x := dash + 1 + |Decimal(width)|;
    LayoutNoDashAfter(prefix, Decimal(width), Decimal(height), suffix);
    LayoutNoXBefore(prefix, Decimal(width), Decimal(height), suffix);
    LayoutSlices(prefix, Decimal(width), Decimal(height), suffix);
    FindLastOfIs(s, DASH, dash);
    FindFromIs(s, 'x', dash, x);
    var widthText, heightText := s[dash + 1..x], s[x + 1..];
    assert widthText == Decimal(width) + [];
    assert heightText == Decimal(height) + suffix;
    StoiOfDecimal(width, []);
    StoiOfDecimal(height, suffix);
    ParseSplits(s, dash, x);
    SizeFromValidTexts(widthText, heightText, width, height);
  }

  /** Decoding splits the name at the last '-' and the first 'x' after it. */
  lemma ParseSplits(s: string, dash: nat, x: nat)
    requires FindLastOf(s, DASH) == Some(dash)
    requires FindFrom(s, 'x', dash) == Some(x)
    ensures dash < x
    ensures DimensionTexts(s) == Some((s[dash + 1..x], s[x + 1..]))
  {
    assert s[dash] == '-';
  }

  /** Two successful conversions of values in `int` range give exactly those values. */
  lemma SizeFromValidTexts(widthText: string, heightText: string, width: int, height: int)
    requires Stoi(widthText) == Ok(width) && Stoi(heightText) == Ok(height)
    requires 0 <= width <= INT_MAX && 0 <= height <= INT_MAX
    ensures SizeFromTexts(widthText, heightText) == Ok(ImageSize(width, height, 0))
  {
    assert AsInt32(Wrap32(width)) == width && AsInt32(Wrap32(height)) == height;
  }

  predicate NoDashOrXAfter(s: string, d: nat) {
    forall j :: d < j < |s| ==> s[j] != '-' && s[j] != 'x'
  }

  /** The two failure modes of the split: no '-' at all, or no 'x' after the last one. */
  lemma ParseFormatErrors(filename: string)
    ensures (forall i :: 0 <= i < |filename| ==> filename[i] != '-') ==>
              ParseImageDimensions(filename) == Err(FormatInvalid)
    ensures forall d :: 0 <= d < |filename| && filename[d] == '-' && NoDashOrXAfter(filename, d) ==>
              ParseImageDimensions(filename) == Err(FormatInvalid)
  {
    forall d | 0 <= d < |filename| && filename[d] == '-' && NoDashOrXAfter(filename, d)
      ensures ParseImageDimensions(filename) == Err(FormatInvalid)
    {
      assert FindLastOf(filename, DASH) == Some(d);
    }
  }

  /** An empty or non-numeric width (as in "a-x5") makes stoi throw. */
  lemma EmptyWidthRejected(prefix: string, heightText: string)
    requires forall i :: 0 <= i < |heightText| ==> heightText[i] != '-'
    ensures ParseImageDimensions(prefix + "-x" + heightText) == Err(NumberInvalid(InvalidArgument))
  {
    var s := prefix + "-x" + heightText;
    var dash := |prefix|;
    assert s[dash] == '-' && s[dash + 1] == 'x';
    assert forall j :: dash < j < |s| ==> s[j] != '-' by {
      forall j | dash < j < |s| ensures s[j] != '-' {
        if j > dash + 1 { assert s[j] == heightText[j - dash - 2]; }
      }
    }
    assert FindLastOf(s, DASH) == Some(dash);
    assert FindFrom(s, 'x', dash) == Some(dash + 1);
    assert s[dash + 1..dash + 1] == [];
  }

  /**
   * A name that splits but whose width text, or else whose height text, makes
   * `std::stoi` throw is rejected with that exception; the width is converted first.
   */
  lemma NumberErrorsPropagate(filename: string, widthText: string, heightText: string)
    requires DimensionTexts(filename) == Some((widthText, heightText))
    ensures Stoi(widthText).Err? ==> ParseImageDimensions(filename) == Err(NumberInvalid(Stoi(widthText).error))
    ensures Stoi(widthText).Ok? && Stoi(heightText).Err? ==>
              ParseImageDimensions(filename) == Err(NumberInvalid(Stoi(heightText).error))
    ensures LeadingDigits(DigitText(widthText)) == [] ||
            (Stoi(widthText).Ok? && LeadingDigits(DigitText(heightText)) == []) ==>
              ParseImageDimensions(filename) == Err(NumberInvalid(InvalidArgument))
  {
  }

  /** A shared-memory texture name decodes to its dimensions. */
  lemma TextureNameDecodes()
    ensures ParseImageDimensions(EncodeName("vst_shared_texture", 4, 3, "")) == Ok(ImageSize(4, 3, 0))
  {
    ParseEncodeRoundTrip("vst_shared_texture", 4, 3, "");
  }

  /** A video socket name decodes to its dimensions; the ".sock" suffix is ignored. */
  lemma SocketNameDecodes(width: nat, height: nat)
    requires width <= INT_MAX && height <= INT_MAX
    ensures ParseImageDimensions(EncodeName("vulkan_shared_video", width, height, ".sock")) == Ok(ImageSize(width, height, 0))
  {
    var sock := ".sock";
    assert sock == ['.', 's', 'o', 'c', 'k'];
    assert !IsDigit(sock[0]);
    assert forall i :: 0 <= i < |sock| ==> sock[i] != '-';
    ParseEncodeRoundTrip("vulkan_shared_video", width, height, sock);
  }
}

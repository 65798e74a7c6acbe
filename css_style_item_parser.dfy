/** The shared helpers of the CSS value parsers: string classifiers, the
    conversion of CSS lengths to points, `url(...)` values, numeric HTML
    character references, and the binding of expression values. */
module CSSParsing {
  import opened Wrappers
  import opened StyleValues
  import PDFStyles

  // ---------------------------------------------------------------------
  // Strings

  /** Case folding of an ordinal, case-insensitive comparison (ASCII letters). */
  function FoldCase(c: char): char {
    if 'a' <= c <= 'z' then (c as int - 32) as char else c
  }

  function FoldAll(s: string): (r: string)
    ensures |r| == |s| && forall i :: 0 <= i < |s| ==> r[i] == FoldCase(s[i])
  {
    seq(|s|, i requires 0 <= i < |s| => FoldCase(s[i]))
  }

  predicate StartsWith(s: string, prefix: string) {
    |prefix| <= |s| && s[..|prefix|] == prefix
  }

  predicate EndsWith(s: string, suffix: string) {
    |suffix| <= |s| && s[|s| - |suffix|..] == suffix
  }

  predicate StartsWithIgnoreCase(s: string, prefix: string) {
    |prefix| <= |s| && FoldAll(s[..|prefix|]) == FoldAll(prefix)
  }

  predicate EndsWithIgnoreCase(s: string, suffix: string) {
    |suffix| <= |s| && forall i :: 0 <= i < |suffix| ==> FoldCase(s[|s| - |suffix| + i]) == FoldCase(suffix[i])
  }

  predicate IsDigit(c: char) {
    '0' <= c <= '9'
  }

  // ---------------------------------------------------------------------
  // Classifiers

  /** `IsExpression`: a case-sensitive `var(` or `calc(` prefix. */
  predicate IsExpression(part: string) {
    StartsWith(part, "var(") || StartsWith(part, "calc(")
  }

  /** `IsUrl`: a case-insensitive `url(` prefix. */
  predicate IsUrl(part: string) {
    StartsWithIgnoreCase(part, "url(")
  }

  /** `IsNumber`: a digit first, or a sign or point followed by a digit. */
  predicate IsNumber(part: string) {
    if |part| == 0 then false
    else if IsDigit(part[0]) then true
    else if part[0] == '-' && |part| > 1 && IsDigit(part[1]) then true
    else if part[0] == '+' && |part| > 1 && IsDigit(part[1]) then true
    else if part[0] == '.' && |part| > 1 && IsDigit(part[1]) then true
    else false
  }

  /** The classifiers are disjoint: a number is neither an expression nor a url. */
  lemma NumberIsNotExpressionOrUrl(part: string)
    requires IsNumber(part)
    ensures !IsExpression(part) && !IsUrl(part)
  {
  }

  /** Binding expressions are recognised by their lower-case prefix only:
      `var(` and `calc(` are expressions, `VAR(` and `Calc(` are not. */
  lemma ExpressionPrefixIsCaseSensitive(rest: string)
    ensures IsExpression("var(" + rest) && IsExpression("calc(" + rest)
    ensures !IsExpression("VAR(" + rest) && !IsExpression("Calc(" + rest)
  {
    assert ("var(" + rest)[..4] == "var(";
    assert ("calc(" + rest)[..5] == "calc(";
    assert ("VAR(" + rest)[0] == 'V' && ("Calc(" + rest)[0] == 'C';
  }

  /** A url is recognised by its prefix in any letter case: `url(`, `URL(`, `Url(`, ... */
  lemma UrlPrefixAnyCase(prefix: string, rest: string)
    requires FoldAll(prefix) == FoldAll("url(")
    ensures IsUrl(prefix + rest)
  {
    assert (prefix + rest)[..|prefix|] == prefix;
  }

  /** `IsNumber` looks at the first two characters only: text that starts
      as a number stays one whatever follows it, and from two characters on
      what follows cannot make it one either. */
  lemma NumberDecidedByPrefix(part: string, rest: string)
    ensures IsNumber(part) ==> IsNumber(part + rest)
    ensures |part| >= 2 ==> (IsNumber(part + rest) <==> IsNumber(part))
  {
    if |part| > 0 {
      assert (part + rest)[0] == part[0];
    }
    if |part| > 1 {
      assert (part + rest)[1] == part[1];
    }
  }

  // ---------------------------------------------------------------------
  // Lengths

  const Pixel2Point: real := (1.0 / 96.0) * 72.0
  const Pica2Point: real := (1.0 / 12.0) * 72.0
  const Inch2Point: real := 72.0
  const Centimeter2Point: real := 72.0 / 2.54
  const Millimetre2Point: real := 72.0 / 25.4
  const EmToPoint: real := 12.0

  /** The out values of `EndsWithAbsoluteUnit`. */
  datatype UnitSuffix = UnitSuffix(found: bool, length: nat, factor: real)

  /** `EndsWithRelativeUnit`: a unit this parser cannot resolve to points. */
  predicate EndsWithRelativeUnit(part: string) {
    EndsWithIgnoreCase(part, "%") || EndsWithIgnoreCase(part, "ex") || EndsWithIgnoreCase(part, "ch")
    || EndsWithIgnoreCase(part, "rem") || EndsWithIgnoreCase(part, "vw") || EndsWithIgnoreCase(part, "vh")
    || EndsWithIgnoreCase(part, "vmin") || EndsWithIgnoreCase(part, "vmax")
  }

  /** `EndsWithAbsoluteUnit`, tried in the source's order. Every absolute
      suffix has two letters, so each case-insensitive `EndsWith` test
      compares the last two characters, folded, with the suffix. */
  function EndsWithAbsoluteUnit(part: string): (r: UnitSuffix)
    ensures r.found <==> |part| >= 2 && FoldAll(part[|part| - 2..]) in AbsoluteUnitsFolded
    ensures r.found ==> r.length == 2
    ensures !r.found ==> r == UnitSuffix(false, 0, 1.0)
  {
    if |part| < 2 then UnitSuffix(false, 0, 1.0)
    else
      var tail := FoldAll(part[|part| - 2..]);
      if tail == "PT" then UnitSuffix(true, 2, 1.0)
      else if tail == "PX" then UnitSuffix(true, 2, Pixel2Point)
      else if tail == "PC" then UnitSuffix(true, 2, Pica2Point)
      else if tail == "IN" then UnitSuffix(true, 2, Inch2Point)
      else if tail == "CM" then UnitSuffix(true, 2, Centimeter2Point)
      else if tail == "MM" then UnitSuffix(true, 2, Millimetre2Point)
      else if tail == "EM" then UnitSuffix(true, 2, EmToPoint)
      else UnitSuffix(false, 0, 1.0)
  }

  const AbsoluteUnitsFolded: set<string> := {"PT", "PX", "PC", "IN", "CM", "MM", "EM"}

  const RelativeUnits: set<string> := {"%", "ex", "ch", "rem", "vw", "vh", "vmin", "vmax"}

  /** Points per unit of each absolute suffix, as a table: a pixel is 3/4 pt,
      a pica 6 pt, an inch 72 pt, a centimetre 72/2.54 pt, a millimetre
      72/25.4 pt and an em a fixed 12 pt. */
  const PointsPer: map<string, real> :=
    map["pt" := 1.0, "px" := 0.75, "pc" := 6.0, "in" := 72.0,
        "cm" := 72.0 / 2.54, "mm" := 72.0 / 25.4, "em" := 12.0]

  /** A text ends in its own suffix, ignoring case. */
  lemma EndsWithOwnSuffix(number: string, suffix: string)
    ensures EndsWithIgnoreCase(number + suffix, suffix)
  {
    var part := number + suffix;
    assert forall i :: 0 <= i < |suffix| ==> part[|part| - |suffix| + i] == suffix[i];
  }

  /** Every absolute suffix is recognised with its own factor from the table. */
  lemma AbsoluteSuffixFactor(number: string, suffix: string)
    requires suffix in PointsPer
    ensures |suffix| == 2
    ensures EndsWithAbsoluteUnit(number + suffix) == UnitSuffix(true, 2, PointsPer[suffix])
  {
    var part := number + suffix;
    assert part[|part| - 2..] == suffix;
    if suffix == "pt" { assert FoldAll(suffix) == "PT"; }
    else if suffix == "px" { assert FoldAll(suffix) == "PX"; }
    else if suffix == "pc" { assert FoldAll(suffix) == "PC"; }
    else if suffix == "in" { assert FoldAll(suffix) == "IN"; }
    else if suffix == "cm" { assert FoldAll(suffix) == "CM"; }
    else if suffix == "mm" { assert FoldAll(suffix) == "MM"; }
    else { assert FoldAll(suffix) == "EM"; }
  }

  /** A two-letter suffix whose folded form is the folded tail of the text ends it, ignoring case. */
  lemma FoldedTailEnds(part: string, suffix: string)
    requires |part| >= 2 && |suffix| == 2 && FoldAll(part[|part| - 2..]) == FoldAll(suffix)
    ensures EndsWithIgnoreCase(part, suffix)
  {
    var tail := part[|part| - 2..];
    assert FoldAll(tail)[0] == FoldCase(part[|part| - 2]) && FoldAll(tail)[1] == FoldCase(part[|part| - 1]);
  }

  /** A folded tail that is an absolute unit comes from a suffix of the table. */
  lemma AbsoluteTailHasSuffix(part: string)
    ensures |part| >= 2 && FoldAll(part[|part| - 2..]) in AbsoluteUnitsFolded ==>
              exists suffix :: suffix in PointsPer && EndsWithIgnoreCase(part, suffix)
  {
    if |part| >= 2 {
      var tail := FoldAll(part[|part| - 2..]);
      if tail in AbsoluteUnitsFolded {
        var suffix := if tail == "PT" then "pt" else if tail == "PX" then "px" else if tail == "PC" then "pc"
                      else if tail == "IN" then "in" else if tail == "CM" then "cm" else if tail == "MM" then "mm" else "em";
        assert FoldAll(suffix) == tail;
        FoldedTailEnds(part, suffix);
        assert suffix in PointsPer;
      }
    }
  }

  /** Text with none of the suffixes, in any letter case, reports length 0 and factor 1. */
  lemma NoAbsoluteSuffix(part: string)
    requires forall suffix :: suffix in PointsPer ==> !EndsWithIgnoreCase(part, suffix)
    ensures EndsWithAbsoluteUnit(part) == UnitSuffix(false, 0, 1.0)
  {
    AbsoluteTailHasSuffix(part);
  }

  /** Every relative suffix is recognised as relative, in any letter case:
      `written` is the suffix as it appears in the text (`REM`, `Vmax`, ...). */
  lemma RelativeSuffixRecognised(number: string, written: string, suffix: string)
    requires suffix in RelativeUnits && FoldAll(written) == FoldAll(suffix)
    ensures EndsWithRelativeUnit(number + written)
  {
    var part := number + written;
    forall i | 0 <= i < |suffix|
      ensures FoldCase(part[|part| - |suffix| + i]) == FoldCase(suffix[i])
    {
      assert part[|part| - |suffix| + i] == written[i];
      assert FoldAll(written)[i] == FoldAll(suffix)[i];
    }
    RelativeSuffixMatched(part, suffix);
  }

  /** `EndsWithRelativeUnit` is the test against the table of relative units. */
  lemma RelativeSuffixMatched(part: string, suffix: string)
    requires suffix in RelativeUnits && EndsWithIgnoreCase(part, suffix)
    ensures EndsWithRelativeUnit(part)
  {
  }

  /** ... and it holds only for text ending in one of them, in some letter case. */
  lemma RelativeSuffixOnlyFromTable(part: string)
    requires EndsWithRelativeUnit(part)
    ensures exists suffix :: suffix in RelativeUnits && EndsWithIgnoreCase(part, suffix)
  {
    if EndsWithIgnoreCase(part, "%") {
      assert "%" in RelativeUnits;
    } else if EndsWithIgnoreCase(part, "ex") {
      assert "ex" in RelativeUnits;
    } else if EndsWithIgnoreCase(part, "ch") {
      assert "ch" in RelativeUnits;
    } else if EndsWithIgnoreCase(part, "rem") {
      assert "rem" in RelativeUnits;
    } else if EndsWithIgnoreCase(part, "vw") {
      assert "vw" in RelativeUnits;
    } else if EndsWithIgnoreCase(part, "vh") {
      assert "vh" in RelativeUnits;
    } else if EndsWithIgnoreCase(part, "vmin") {
      assert "vmin" in RelativeUnits;
    } else {
      assert "vmax" in RelativeUnits;
    }
  }

  /** A length in some unit, in points. */
  function ToPoints(amount: real, pointsPerUnit: real): real {
    amount * pointsPerUnit
  }

  /** `ParseCSSUnit`. `parseDouble` stands for `double.TryParse`. */
  function ParseCSSUnit(part: string, parseDouble: string -> Option<real>): (r: TryResult<Unit>)
    ensures !r.ok ==> r.value == Zero
    ensures r.ok ==> r.value.units == Points
    ensures EndsWithRelativeUnit(part) ==> !r.ok
  {
    if EndsWithRelativeUnit(part) then TryResult(false, Zero)
    else
      var suffix := EndsWithAbsoluteUnit(part);
      if suffix.found then
        if suffix.length > 0 && suffix.length <= |part| && parseDouble(part[..|part| - suffix.length]).Some? then
          TryResult(true, Unit(ToPoints(parseDouble(part[..|part| - suffix.length]).value, suffix.factor), Points))
        else TryResult(false, Zero)
      else if parseDouble(part).Some? then TryResult(true, Unit(parseDouble(part).value, Points))
      else TryResult(false, Zero)
  }

  /** A relative unit, in any letter case, is never read as an absolute one:
      `2rem` is not `em`, `3VMIN` is not `in`; the result is (Zero, false). */
  lemma RelativeUnitRejected(number: string, written: string, suffix: string, parseDouble: string -> Option<real>)
    requires suffix in RelativeUnits && FoldAll(written) == FoldAll(suffix)
    ensures ParseCSSUnit(number + written, parseDouble) == TryResult(false, Zero)
  {
    RelativeSuffixRecognised(number, written, suffix);
  }

  /** With an absolute suffix, only the text before the suffix is parsed. */
  lemma SuffixedNumberParsed(part: string, parseDouble: string -> Option<real>)
    requires !EndsWithRelativeUnit(part) && EndsWithAbsoluteUnit(part).found
    ensures |part| >= 2
    ensures ParseCSSUnit(part, parseDouble) ==
            match parseDouble(part[..|part| - 2])
            case Some(x) => TryResult(true, Unit(ToPoints(x, EndsWithAbsoluteUnit(part).factor), Points))
            case None => TryResult(false, Zero)
  {
  }

  lemma PrefixBeforeSuffix(number: string, suffix: string)
    requires |suffix| == 2
    ensures (number + suffix)[..|number + suffix| - 2] == number
  {
  }

  /** An absolute length converts its number to points with the table's
      factor; when the number does not parse the result is (Zero, false),
      even if the whole text would parse as a number. */
  lemma AbsoluteUnitConverted(number: string, suffix: string, parseDouble: string -> Option<real>)
    requires suffix in PointsPer && !EndsWithRelativeUnit(number + suffix)
    ensures ParseCSSUnit(number + suffix, parseDouble) ==
            match parseDouble(number)
            case Some(x) => TryResult(true, Unit(ToPoints(x, PointsPer[suffix]), Points))
            case None => TryResult(false, Zero)
  {
    var part := number + suffix;
    AbsoluteSuffixFactor(number, suffix);
    SuffixedNumberParsed(part, parseDouble);
    PrefixBeforeSuffix(number, suffix);
  }

  /** Without a unit suffix the whole text is a number of points. */
  lemma BareNumberIsPoints(part: string, parseDouble: string -> Option<real>)
    requires !EndsWithRelativeUnit(part)
    requires forall suffix :: suffix in PointsPer ==> !EndsWithIgnoreCase(part, suffix)
    ensures ParseCSSUnit(part, parseDouble) ==
            match parseDouble(part)
            case Some(x) => TryResult(true, Unit(x, Points))
            case None => TryResult(false, Zero)
  {
    NoAbsoluteSuffix(part);
  }

  // ---------------------------------------------------------------------
  // Numeric character references

  /** `string.IndexOf(c, from)`: the first position at or after `from`
      holding `c`, or -1. */
  function IndexOf(v: string, c: char, from: nat): (r: int)
    requires from <= |v|
    ensures -1 <= r < |v|
    ensures r >= 0 ==> from <= r && v[r] == c && forall j :: from <= j < r ==> v[j] != c
    ensures r < 0 ==> forall j :: from <= j < |v| ==> v[j] != c
    decreases |v| - from
  {
    if from == |v| then -1
    else if v[from] == c then from
    else IndexOf(v, c, from + 1)
  }

  /** Where the scan for the `;` that ends an entity stops. */
  datatype ScanResult = ScanResult(terminated: bool, offset: nat)

  /** The scan from `&` at `amp`, now at `k`: it stops at the first `;`, at the
      end of the text, or once it is more than 10 characters past the `&`. */
  function ScanFrom(v: string, amp: nat, k: nat): (r: ScanResult)
    requires amp < k <= |v| && k <= amp + 11
    ensures k <= r.offset <= |v| && r.offset <= amp + 11
    ensures r.terminated <==> r.offset < |v| && r.offset <= amp + 10 && v[r.offset] == ';'
    ensures !r.terminated ==> r.offset == |v| || r.offset == amp + 11
    ensures forall j :: k <= j < r.offset ==> v[j] != ';'
    decreases |v| - k
  {
    if k == |v| then ScanResult(false, k)
    else if k > amp + 10 then ScanResult(false, k)
    else if v[k] == ';' then ScanResult(true, k)
    else ScanFrom(v, amp, k + 1)
  }

  function Scan(v: string, amp: nat): ScanResult
    requires amp < |v|
  {
    ScanFrom(v, amp, amp + 1)
  }

  /** An entity is terminated exactly when a `;` follows the `&` within 10
      characters; the scan then stops at the first such `;`. */
  lemma ScanTerminatesWithinTen(v: string, amp: nat)
    requires amp < |v|
    ensures Scan(v, amp).terminated <==> exists j :: amp < j <= amp + 10 && j < |v| && v[j] == ';'
    ensures Scan(v, amp).terminated ==>
              forall j :: amp < j < Scan(v, amp).offset ==> v[j] != ';'
  {
    var r := Scan(v, amp);
    if exists j :: amp < j <= amp + 10 && j < |v| && v[j] == ';' {
      var j :| amp < j <= amp + 10 && j < |v| && v[j] == ';';
      assert r.offset <= j;
    }
  }

  /** `(char)n` on a 32-bit integer: the low 16 bits. A lone surrogate code
      unit cannot be a Dafny character and becomes U+FFFD. */
  function CodeUnitChar(n: int): char {
    var u := n % 0x1_0000;
    if 0xD800 <= u < 0xE000 then '�' else u as char
  }

  /** The character a terminated entity `v[amp..end+1]` decodes to: only
      numeric references `&#N;` longer than 3 characters are decoded;
      `parseInt` stands for `int.TryParse`. */
  function Decode(v: string, amp: nat, end: nat, parseInt: string -> Option<int>): Option<char>
    requires amp < end < |v|
  {
    var len := 1 + end - amp;
    if len > 3 && v[amp + 1] == '#' then
      match parseInt(v[amp + 2..end])
      case Some(n) => Some(CodeUnitChar(n))
      case None => None
    else None
  }

  /** Named entities are not looked up, and `&#;` is too short. */
  lemma OnlyNumericReferencesDecoded(v: string, amp: nat, end: nat, parseInt: string -> Option<int>)
    requires amp < end < |v|
    ensures Decode(v, amp, end, parseInt).Some? <==>
            end >= amp + 3 && v[amp + 1] == '#' && parseInt(v[amp + 2..end]).Some?
  {
  }

  /** One entity: the character it decodes to, if any, and where the cursor
      stands after it. */
  datatype Entity = Entity(decoded: Option<char>, next: nat)

  function ReadEntity(v: string, amp: nat, parseInt: string -> Option<int>): (e: Entity)
    requires amp < |v|
    ensures amp < e.next <= |v|
  {
    var s := Scan(v, amp);
    var decoded := if s.terminated then Decode(v, amp, s.offset, parseInt) else None;
    Entity(decoded, if decoded.Some? then s.offset + 1 else s.offset)
  }

  function Chars(c: Option<char>): string {
    if c.Some? then [c.value] else []
  }

  /** The text the unescaping loop produces from cursor `off` on, where `amp`
      is the next `&` at or after `off` (or -1): the text up to the `&`, copied
      only when the cursor is more than one character before it, then the
      decoded character, then the rest. */
  function Run(v: string, off: nat, amp: int, parseInt: string -> Option<int>): string
    requires off <= |v| && -1 <= amp < |v| && (amp >= 0 ==> off <= amp)
    decreases |v| - off
  {
    if amp < 0 then v[off..]
    else
      var e := ReadEntity(v, amp, parseInt);
      (if off < amp - 1 then v[off..amp] else []) + Chars(e.decoded)
      + Run(v, e.next, IndexOf(v, '&', e.next), parseInt)
  }

  /** The result of `UnEscapeHtmlString`. */
  function UnEscape(v: string, parseInt: string -> Option<int>): string {
    var amp := IndexOf(v, '&', 0);
    if amp < 0 then v else Run(v, 0, amp, parseInt)
  }

  /** Text without `&` is returned unchanged. */
  lemma UnEscapeWithoutAmpersand(v: string, parseInt: string -> Option<int>)
    requires '&' !in v
    ensures UnEscape(v, parseInt) == v
  {
  }

  /** A numeric reference `&#N;` of at most 11 characters becomes the
      character with code unit N. */
  lemma NumericReferenceDecoded(digits: string, n: int, parseInt: string -> Option<int>)
    requires 1 <= |digits| <= 8 && ';' !in digits && '&' !in digits
    requires parseInt(digits) == Some(n)
    ensures UnEscape("&#" + digits + ";", parseInt) == [CodeUnitChar(n)]
  {
    var v := "&#" + digits + ";";
    var end := |digits| + 2;
    assert v[0] == '&' && v[1] == '#' && v[end] == ';' && |v| == end + 1;
    assert IndexOf(v, '&', 0) == 0;
    forall j | 0 < j < end ensures v[j] != ';' {
      if j > 1 { assert v[j] == digits[j - 2]; }
    }
    assert Scan(v, 0).offset == end;
    assert v[2..end] == digits;
    assert ReadEntity(v, 0, parseInt) == Entity(Some(CodeUnitChar(n)), end + 1);
    assert Run(v, end + 1, -1, parseInt) == [];
  }

  /** One turn of the loop: the text up to the `&` when the cursor is more
      than one character before it, the entity, then the rest. */
  lemma RunStep(v: string, off: nat, amp: nat, parseInt: string -> Option<int>)
    requires off <= amp < |v|
    ensures Run(v, off, amp, parseInt) ==
            (if off < amp - 1 then v[off..amp] else []) + Chars(ReadEntity(v, amp, parseInt).decoded)
            + Run(v, ReadEntity(v, amp, parseInt).next, IndexOf(v, '&', ReadEntity(v, amp, parseInt).next), parseInt)
  {
  }

  lemma AppendAssoc(a: string, b: string, c: string)
    ensures (a + b) + c == a + (b + c)
  {
  }

  /** The inner loop of `UnEscapeHtmlString`: from the `&` at `amp`, step
      forward until a `;`, the end of the text, or 10 characters past the `&`. */
  method ScanEntity(value: string, amp: nat) returns (terminated: bool, offset: nat)
    requires amp < |value| && value[amp] == '&'
    ensures ScanResult(terminated, offset) == Scan(value, amp)
  {
    offset := amp;
    terminated := true;
    while value[offset] != ';'
      invariant amp <= offset < |value| && offset <= amp + 10
      invariant offset > amp ==> ScanFrom(value, amp, offset) == Scan(value, amp)
      decreases |value| - offset
    {
      offset := offset + 1;
      if offset >= |value| {
        terminated := false;
        break;
      } else if offset > amp + 10 {
        terminated := false;
        break;
      }
    }
  }

  /** The decoding step of `UnEscapeHtmlString` for the terminated entity
      `value[amp..end+1]`. */
  method DecodeEntity(value: string, amp: nat, end: nat, parseInt: string -> Option<int>)
    returns (found: Option<char>)
    requires amp < end < |value|
    ensures found == Decode(value, amp, end, parseInt)
  {
    found := None;
    var len := 1 + end - amp;
    if len > 3 {
      var entity := value[amp..amp + len];
      if entity[1] == '#' {
        assert forall i :: 0 <= i < |entity| ==> entity[i] == value[amp + i];
        assert entity[2..2 + (|entity| - 3)] == value[amp + 2..end];
        var parsed := parseInt(entity[2..2 + (|entity| - 3)]);
        if parsed.Some? {
          found := Some(CodeUnitChar(parsed.value));
        }
      }
    }
  }

  /** One turn of the loop of `UnEscapeHtmlString`: the text from the cursor
      up to the `&` (only when the cursor is more than one character before
      it), then the entity at the `&`. */
  method CopyAndDecode(value: string, offset: nat, amp: nat, parseInt: string -> Option<int>)
    returns (chunk: string, next: nat)
    requires offset <= amp < |value| && value[amp] == '&'
    ensures chunk == (if offset < amp - 1 then value[offset..amp] else []) + Chars(ReadEntity(value, amp, parseInt).decoded)
    ensures next == ReadEntity(value, amp, parseInt).next
  {
    chunk := [];
    if offset < amp - 1 {
      chunk := value[offset..amp];
    }
    var terminated;
    terminated, next := ScanEntity(value, amp);
    if terminated {
      var found := DecodeEntity(value, amp, next, parseInt);
      if found.Some? {
        next := next + 1;
        chunk := chunk + [found.value];
      }
    }
  }

  /** `UnEscapeHtmlString`: copies text up to each `&`, decodes numeric
      references, and appends what follows the last entity. */
  method UnEscapeHtmlString(value: string, parseInt: string -> Option<int>) returns (r: string)
    ensures r == UnEscape(value, parseInt)
    ensures '&' !in value ==> r == value
  {
    var amp := IndexOf(value, '&', 0);
    if amp < 0 {
      return value;
    }
    var buffer: string := [];
    var offset: nat := 0;
    while amp >= 0
      invariant offset <= |value| && -1 <= amp < |value| && (amp >= 0 ==> offset <= amp)
      invariant amp >= 0 ==> value[amp] == '&'
      invariant buffer + Run(value, offset, amp, parseInt) == UnEscape(value, parseInt)
      decreases |value| - offset
    {
      ghost var before, start, oldAmp := buffer, offset, amp;
      var chunk;
      chunk, offset := CopyAndDecode(value, offset, amp, parseInt);
      buffer := buffer + chunk;
      amp := IndexOf(value, '&', offset);
      RunStep(value, start, oldAmp, parseInt);
      AppendAssoc(before, chunk, Run(value, offset, amp, parseInt));
    }
    if offset < |value| {
      buffer := buffer + value[offset..];
    }
    r := buffer;
  }

  // ---------------------------------------------------------------------
  // url(...)

  /** What the source throws. */
  datatype Thrown = ArgumentOutOfRange

  /** The text starts and ends with the same quote character, `'` or `"`. */
  predicate Quoted(url: string) {
    (StartsWith(url, "'") && EndsWith(url, "'")) || (StartsWith(url, "\"") && EndsWith(url, "\""))
  }

  /** Text shorter than two characters passes the quote test exactly when it
      is a lone quote. */
  lemma ShortQuoted(url: string)
    requires |url| < 2
    ensures Quoted(url) <==> |url| == 1 && (url[0] == '\'' || url[0] == '"')
  {
    if |url| == 1 {
      assert url[..1] == [url[0]] && url[|url| - 1..] == [url[0]];
    }
  }

  /** `ParseCSSUrl` as written: a lone quote inside `url(...)` passes both the
      starts-with and the ends-with test, and `Substring(1, -1)` throws. */
  function ParseCSSUrlAsWritten(value: NString, parseInt: string -> Option<int>): Result<NString, Thrown> {
    if !IsNullOrEmpty(value) && StartsWithIgnoreCase(value.value, "url(") then
      var v := value.value;
      if EndsWith(v, ")") && |v| >= 5 then
        var url := v[4..|v| - 1];
        if Quoted(url) then
          if |url| < 2 then Failure(ArgumentOutOfRange)
          else Success(Some(UnEscape(url[1..|url| - 1], parseInt)))
        else Success(Some(UnEscape(url, parseInt)))
      else Success(None)
    else Success(None)
  }

  /** The inner text of `url(...)` with one enclosing pair of quotes removed. */
  function UrlTarget(url: string): string {
    if |url| >= 2 && Quoted(url) then url[1..|url| - 1]
    else url
  }

  /** `ParseCSSUrl` as intended: `None` is the false result. */
  function ParseCSSUrl(value: NString, parseInt: string -> Option<int>): (r: NString)
    ensures r.Some? ==> value.Some? && IsUrl(value.value) && EndsWith(value.value, ")")
  {
    if !IsNullOrEmpty(value) && StartsWithIgnoreCase(value.value, "url(") then
      var v := value.value;
      if EndsWith(v, ")") && |v| >= 5 then Some(UnEscape(UrlTarget(v[4..|v| - 1]), parseInt))
      else None
    else None
  }

  /** `url(` and a closing `)` rule out a shorter text, so the length guard
      of the two url parsers is implied by the tests the source makes. */
  lemma UrlShape(v: string)
    requires StartsWithIgnoreCase(v, "url(") && EndsWith(v, ")")
    ensures |v| >= 5
  {
    assert v[|v| - 1..][0] == ')';
    assert FoldAll(v[..4])[3] == FoldAll("url(")[3];
  }

  /** The as-written parser throws exactly on `url(')` and `url(")`, in any letter case. */
  lemma UrlAsWrittenThrowsOnLoneQuote(value: NString, parseInt: string -> Option<int>)
    ensures ParseCSSUrlAsWritten(value, parseInt).Failure? <==>
            value.Some? && |value.value| == 6 && StartsWithIgnoreCase(value.value, "url(")
            && value.value[5] == ')' && (value.value[4] == '\'' || value.value[4] == '"')
  {
    if value.Some? {
      var v := value.value;
      if |v| == 6 {
        assert EndsWith(v, ")") <==> v[5] == ')';
      }
      if IsUrl(v) && EndsWith(v, ")") {
        UrlShape(v);
        var url := v[4..|v| - 1];
        if |url| < 2 {
          ShortQuoted(url);
          if |url| == 1 {
            assert url[0] == v[4];
          }
        }
      }
    }
  }

  /** A concrete input that makes the source throw. */
  lemma UrlLoneQuoteCounterexample(parseInt: string -> Option<int>)
    ensures ParseCSSUrlAsWritten(Some("url(')"), parseInt) == Failure(ArgumentOutOfRange)
    ensures ParseCSSUrl(Some("url(')"), parseInt) == Some(UnEscape("'", parseInt))
  {
    assert "url(')"[4..5] == "'";
  }

  /** Wherever the as-written parser does not throw, the corrected one agrees with it. */
  lemma UrlCorrectedAgrees(value: NString, parseInt: string -> Option<int>)
    requires ParseCSSUrlAsWritten(value, parseInt).Success?
    ensures ParseCSSUrlAsWritten(value, parseInt).value == ParseCSSUrl(value, parseInt)
  {
  }

  /** A quoted url without `&` is read back exactly. */
  lemma QuotedUrlRoundTrip(target: string, quote: string, parseInt: string -> Option<int>)
    requires quote in {"'", "\""} && '&' !in target
    ensures ParseCSSUrl(Some("url(" + quote + target + quote + ")"), parseInt) == Some(target)
  {
    var v := "url(" + quote + target + quote + ")";
    var inner := quote + target + quote;
    assert v[..4] == "url(";
    assert v[4..|v| - 1] == inner;
    assert inner[1..|inner| - 1] == target;
    assert inner[..1] == quote && inner[|inner| - 1..] == quote;
    UnEscapeWithoutAmpersand(target, parseInt);
  }

  /** An unquoted url without `&` is read back exactly. */
  lemma UnquotedUrlRoundTrip(target: string, parseInt: string -> Option<int>)
    requires '&' !in target && !Quoted(target)
    ensures ParseCSSUrl(Some("url(" + target + ")"), parseInt) == Some(target)
  {
    var v := "url(" + target + ")";
    assert v[..4] == "url(";
    assert v[4..|v| - 1] == target;
    assert v[|v| - 1..] == ")";
    UnEscapeWithoutAmpersand(target, parseInt);
  }

  /** Every value with a `url(` prefix, in any letter case, and a closing `)`
      is a url: the parser answers a target for it. */
  lemma UrlAccepted(v: string, parseInt: string -> Option<int>)
    requires StartsWithIgnoreCase(v, "url(") && EndsWith(v, ")")
    ensures ParseCSSUrl(Some(v), parseInt).Some?
  {
    UrlShape(v);
  }

  /** Anything that does not start with `url(` is not a url. */
  lemma NonUrlRejected(value: string, parseInt: string -> Option<int>)
    requires !IsUrl(value)
    ensures ParseCSSUrl(Some(value), parseInt) == None
  {
  }

  // ---------------------------------------------------------------------
  // Expression values

  /** `AttachExpressionBindingHandler`: any value already stored under the key
      is removed, then the expression is added, so the key holds exactly the
      expression; the result is always true. */
  method AttachExpressionBindingHandler(style: PDFStyles.Style, key: StyleKey, expression: string)
    returns (ok: bool)
    modifies style`values
    ensures ok
    ensures style.values == old(style.values)[key := Expr(expression)]
  {
    if key in style.values {
      style.RemoveValue(key);
    }
    style.SetValue(key, Expr(expression));
    ok := true;
  }
}

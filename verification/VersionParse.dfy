/** Reading a version as the fleet reports it, such as 'balenaOS 6.1.24+rev4'. */
module VersionParse {
  /** A parsed version: major, minor, patch, revision. */
  datatype Version = Version(major: int, minor: int, patch: int, rev: int)

  const PRODUCT := "balenaOS"
  const REV := "+rev"

  // ----- Python's string operations -----

  predicate IsDigit(c: char) {
    '0' <= c <= '9'
  }

  predicate IsSpace(c: char) {
    c in " \t\n\r"
  }

  /** `s.replace(pattern, '')`. */
  function Remove(s: string, pattern: string): string
    requires pattern != ""
    decreases |s|
  {
    if |s| < |pattern| then s
    else if s[..|pattern|] == pattern then Remove(s[|pattern|..], pattern)
    else [s[0]] + Remove(s[1..], pattern)
  }

  function DropLeading(s: string, drop: char -> bool): string {
    if s != "" && drop(s[0]) then DropLeading(s[1..], drop) else s
  }

  function DropTrailing(s: string, drop: char -> bool): string {
    if s != "" && drop(s[|s| - 1]) then DropTrailing(s[..|s| - 1], drop) else s
  }

  /** What stands before the first `pattern`, and what follows it. */
  function Before(s: string, pattern: string): string
    requires pattern != ""
    decreases |s|
  {
    if |s| < |pattern| then s
    else if s[..|pattern|] == pattern then ""
    else [s[0]] + Before(s[1..], pattern)
  }

  function After(s: string, pattern: string): string
    requires pattern != ""
    decreases |s|
  {
    if |s| < |pattern| then ""
    else if s[..|pattern|] == pattern then s[|pattern|..]
    else After(s[1..], pattern)
  }

  /** `s.split('.')`. */
  function Parts(s: string): seq<string>
    decreases |s|
  {
    if '.' !in s then [s] else (BeforeIsShorter(s, "."); [Before(s, ".")] + Parts(After(s, ".")))
  }

  lemma {:induction false} BeforeIsShorter(s: string, pattern: string)
    requires pattern != ""
    ensures |Before(s, pattern)| <= |s| && |After(s, pattern)| <= |s|
    ensures |pattern| <= |s| ==> |After(s, pattern)| < |s|
    decreases |s|
  {
    if |s| >= |pattern| && s[..|pattern|] != pattern {
      BeforeIsShorter(s[1..], pattern);
    }
  }

  function Digits(s: string): string {
    if s == "" then "" else (if IsDigit(s[0]) then [s[0]] else "") + Digits(s[1..])
  }

  /** `int` of a string of digits. */
  function Value(digits: string): nat {
    if digits == "" then 0
    else
      var last := digits[|digits| - 1];
      10 * Value(digits[..|digits| - 1]) + (if IsDigit(last) then last as int - '0' as int else 0)
  }

  // ----- The parser -----

  /** `s.strip().lstrip('v')`. */
  function Trimmed(s: string): string {
    DropLeading(DropTrailing(DropLeading(s, IsSpace), IsSpace), c => c == 'v')
  }

  /** `normalize_os`. */
  function Normalized(raw: string): string {
    Trimmed(Remove(raw, PRODUCT))
  }

  function NumberAt(parts: seq<string>, i: nat): nat {
    if i < |parts| then Value(Digits(parts[i])) else 0
  }

  /** `parse_version`. */
  function Parse(raw: string): Version {
    var s := Normalized(raw);
    var parts := Parts(Before(Before(Before(s, REV), "+"), "-"));
    Version(NumberAt(parts, 0), NumberAt(parts, 1), NumberAt(parts, 2), Value(Digits(After(s, REV))))
  }

  /** `parse_os_version` of the other script: the same, but a `+variant` or a
      `-prerelease` suffix stays part of the patch number. */
  function ParseOs(raw: string): Version {
    var s := Normalized(raw);
    var parts := Parts(Before(s, REV));
    Version(NumberAt(parts, 0), NumberAt(parts, 1), NumberAt(parts, 2), Value(Digits(After(s, REV))))
  }

  /** The two scripts read a version alike unless it carries such a suffix. */
  lemma ParsersAgree(raw: string)
    requires '+' !in Before(Normalized(raw), REV) && '-' !in Before(Normalized(raw), REV)
    ensures ParseOs(raw) == Parse(raw)
  {
    NotFound(Before(Normalized(raw), REV), "+");
    NotFound(Before(Normalized(raw), REV), "-");
  }

  /** The parser's own loops: a number appended for each of the first three parts, then
      zeros up to three. */
  method Numbers(parts: seq<string>) returns (nums: seq<nat>)
    ensures nums == [NumberAt(parts, 0), NumberAt(parts, 1), NumberAt(parts, 2)]
  {
    nums := [];
    while |nums| < |parts| && |nums| < 3
      invariant |nums| <= 3 && |nums| <= |parts|
      invariant forall k :: 0 <= k < |nums| ==> nums[k] == NumberAt(parts, k)
    {
      nums := nums + [Value(Digits(parts[|nums|]))];
    }
    while |nums| < 3
      invariant |nums| <= 3
      invariant |nums| < 3 ==> |parts| <= |nums|
      invariant forall k :: 0 <= k < |nums| ==> nums[k] == NumberAt(parts, k)
    {
      nums := nums + [0];
    }
  }

  method ParseVersion(raw: string) returns (v: Version)
    ensures v == Parse(raw)
  {
    var s := Normalized(raw);
    var nums := Numbers(Parts(Before(Before(Before(s, REV), "+"), "-")));
    v := Version(nums[0], nums[1], nums[2], Value(Digits(After(s, REV))));
  }

  // ----- Writing a version -----

  function Decimal(n: nat): string {
    var last := ['0' + (n % 10) as char];
    if n < 10 then last else Decimal(n / 10) + last
  }

  /** `6.1.24+rev4`. */
  function Written(v: Version): string
    requires v.major >= 0 && v.minor >= 0 && v.patch >= 0 && v.rev >= 0
  {
    Decimal(v.major) + "." + Decimal(v.minor) + "." + Decimal(v.patch) + REV + Decimal(v.rev)
  }

  predicate AllDigits(s: string) {
    s != "" && forall i :: 0 <= i < |s| ==> IsDigit(s[i])
  }

  lemma {:induction false} DecimalReadsBack(n: nat)
    ensures AllDigits(Decimal(n)) && Value(Decimal(n)) == n
  {
    var last := ['0' + (n % 10) as char];
    if n >= 10 {
      DecimalReadsBack(n / 10);
      assert Decimal(n)[..|Decimal(n)| - 1] == Decimal(n / 10);
    }
  }

  lemma {:induction false} DigitsOfDigits(s: string)
    requires forall i :: 0 <= i < |s| ==> IsDigit(s[i])
    ensures Digits(s) == s
  {
    if s != "" {
      DigitsOfDigits(s[1..]);
    }
  }

  /** A pattern is found right where it is, if its first character comes nowhere before. */
  lemma {:induction false} FoundAt(a: string, pattern: string, b: string)
    requires pattern != "" && pattern[0] !in a
    ensures Before(a + pattern + b, pattern) == a && After(a + pattern + b, pattern) == b
    decreases |a|
  {
    var s := a + pattern + b;
    if a == "" {
      assert s[..|pattern|] == pattern && s[|pattern|..] == b;
    } else {
      assert s[0] == a[0] && s[1..] == a[1..] + pattern + b;
      FoundAt(a[1..], pattern, b);
    }
  }

  lemma {:induction false} NotFound(s: string, pattern: string)
    requires pattern != "" && pattern[0] !in s
    ensures Before(s, pattern) == s && Remove(s, pattern) == s
    decreases |s|
  {
    if |s| >= |pattern| {
      NotFound(s[1..], pattern);
    }
  }

  lemma ThreeParts(a: string, b: string, c: string)
    requires AllDigits(a) && AllDigits(b) && AllDigits(c)
    ensures Parts(a + "." + b + "." + c) == [a, b, c]
  {
    var tail := b + "." + c;
    var whole := a + "." + tail;
    assert a + "." + b + "." + c == whole;
    FoundAt(a, ".", tail);
    FoundAt(b, ".", c);
    assert whole[|a|] == '.' && tail[|b|] == '.';
    assert Parts(tail) == [b] + Parts(c) == [b, c];
    assert Parts(whole) == [a] + Parts(tail);
  }

  /** A body that starts and ends in a digit survives the trimming. */
  lemma TrimKeeps(body: string)
    requires body != "" && IsDigit(body[0]) && IsDigit(body[|body| - 1])
    ensures Trimmed(body) == body && Trimmed(" " + body) == body
  {
    assert (" " + body)[1..] == body;
    assert DropLeading(" " + body, IsSpace) == DropLeading(body, IsSpace) == body;
  }

  lemma TrimDropsV(body: string)
    requires body != "" && IsDigit(body[0]) && IsDigit(body[|body| - 1])
    ensures Trimmed("v" + body) == body
  {
    var s := "v" + body;
    assert s[1..] == body && s[|s| - 1] == body[|body| - 1];
    assert DropLeading(s, IsSpace) == s && DropTrailing(s, IsSpace) == s;
    assert Trimmed(s) == DropLeading(s, c => c == 'v');
    assert DropLeading(body, c => c == 'v') == body;
  }

  lemma BodySplits(a: string, b: string, c: string, r: string)
    requires AllDigits(a) && AllDigits(b) && AllDigits(c) && AllDigits(r)
    ensures var s := a + "." + b + "." + c + REV + r;
      Parts(Before(Before(Before(s, REV), "+"), "-")) == [a, b, c] && After(s, REV) == r
  {
    var numbers := a + "." + b + "." + c;
    FoundAt(numbers, REV, r);
    NotFound(numbers, "+");
    NotFound(numbers, "-");
    ThreeParts(a, b, c);
  }

  lemma NumberReadsBack(n: nat)
    ensures AllDigits(Decimal(n)) && Value(Digits(Decimal(n))) == n
  {
    DecimalReadsBack(n);
    DigitsOfDigits(Decimal(n));
  }

  lemma BodyReadsBack(v: Version)
    requires v.major >= 0 && v.minor >= 0 && v.patch >= 0 && v.rev >= 0
    ensures var s := Written(v);
      var parts := Parts(Before(Before(Before(s, REV), "+"), "-"));
      Version(NumberAt(parts, 0), NumberAt(parts, 1), NumberAt(parts, 2), Value(Digits(After(s, REV)))) == v
  {
    NumberReadsBack(v.major);
    NumberReadsBack(v.minor);
    NumberReadsBack(v.patch);
    NumberReadsBack(v.rev);
    BodySplits(Decimal(v.major), Decimal(v.minor), Decimal(v.patch), Decimal(v.rev));
  }

  lemma RemoveProduct(s: string)
    requires 'b' !in s
    ensures Remove(s, PRODUCT) == s && Remove(PRODUCT + " " + s, PRODUCT) == " " + s
      && Remove("v" + s, PRODUCT) == "v" + s
  {
    NotFound(s, PRODUCT);
    NotFound(" " + s, PRODUCT);
    NotFound("v" + s, PRODUCT);
    var named := PRODUCT + " " + s;
    assert named[..8] == PRODUCT && named[8..] == " " + s;
  }

  lemma BodyShape(a: string, b: string, c: string, r: string)
    requires AllDigits(a) && AllDigits(b) && AllDigits(c) && AllDigits(r)
    ensures var s := a + "." + b + "." + c + REV + r;
      s != "" && IsDigit(s[0]) && IsDigit(s[|s| - 1]) && 'b' !in s
  {
    var front := a + "." + b + "." + c;
    assert 'b' !in front && front[0] == a[0];
    var s := front + REV + r;
    assert s[0] == a[0] && s[|s| - 1] == r[|r| - 1];
  }

  lemma WrittenShape(v: Version)
    requires v.major >= 0 && v.minor >= 0 && v.patch >= 0 && v.rev >= 0
    ensures var s := Written(v); s != "" && IsDigit(s[0]) && IsDigit(s[|s| - 1]) && 'b' !in s
  {
    NumberReadsBack(v.major);
    NumberReadsBack(v.minor);
    NumberReadsBack(v.patch);
    NumberReadsBack(v.rev);
    BodyShape(Decimal(v.major), Decimal(v.minor), Decimal(v.patch), Decimal(v.rev));
  }

  /** Every version reads back from how it is written, bare, after the product's name or
      after a `v`. */
  lemma VersionRoundTrip(v: Version)
    requires v.major >= 0 && v.minor >= 0 && v.patch >= 0 && v.rev >= 0
    ensures Parse(Written(v)) == v
    ensures Parse(PRODUCT + " " + Written(v)) == v
    ensures Parse("v" + Written(v)) == v
  {
    WrittenShape(v);
    RemoveProduct(Written(v));
    TrimKeeps(Written(v));
    TrimDropsV(Written(v));
    BodyReadsBack(v);
  }

  /** Normalising a report strips the product's name and a leading `v`, no more. */
  lemma NormalizedReport(v: Version)
    requires v.major >= 0 && v.minor >= 0 && v.patch >= 0 && v.rev >= 0
    ensures Normalized(Written(v)) == Written(v)
    ensures Normalized(PRODUCT + " " + Written(v)) == Written(v) && Normalized("v" + Written(v)) == Written(v)
  {
    WrittenShape(v);
    RemoveProduct(Written(v));
    TrimKeeps(Written(v));
    TrimDropsV(Written(v));
  }

  // ----- What is not a plain version -----

  predicate Blank(s: string) {
    forall i :: 0 <= i < |s| ==> s[i] == ' ' || s[i] == '\t' || s[i] == '\n' || s[i] == '\r'
  }

  /** White space around a report does not matter. */
  lemma {:induction false} SurroundingSpaceIsStripped(lead: string, body: string, trail: string)
    requires body != "" && !IsSpace(body[0]) && !IsSpace(body[|body| - 1])
    requires Blank(lead) && Blank(trail)
    ensures Trimmed(lead + body + trail) == Trimmed(body)
    decreases |lead| + |trail|
  {
    var s := lead + body + trail;
    if lead != "" {
      assert s[1..] == lead[1..] + body + trail;
      SurroundingSpaceIsStripped(lead[1..], body, trail);
    } else if trail != "" {
      assert s[0] == body[0] && s[..|s| - 1] == lead + body + trail[..|trail| - 1];
      SurroundingSpaceIsStripped(lead, body, trail[..|trail| - 1]);
      assert (lead + body + trail[..|trail| - 1])[0] == body[0];
    } else {
      assert s == body;
    }
  }

  /** Every character that is not a digit is passed over. */
  lemma {:induction false} DigitsAreFiltered(a: string, b: string)
    ensures Digits(a + b) == Digits(a) + Digits(b)
    ensures |a| == 1 ==> Digits(a) == if '0' <= a[0] <= '9' then a else ""
  {
    if a == "" {
      assert a + b == b;
    } else {
      assert (a + b)[1..] == a[1..] + b;
      DigitsAreFiltered(a[1..], b);
    }
  }

  predicate NoDigits(s: string) {
    forall c :: c in s ==> !IsDigit(c)
  }

  lemma {:induction false} NothingToRead(s: string, pattern: string)
    requires NoDigits(s) && pattern != ""
    ensures NoDigits(Remove(s, pattern)) && NoDigits(Before(s, pattern)) && NoDigits(After(s, pattern))
    ensures Digits(s) == ""
    decreases |s|
  {
    if s != "" {
      NothingToRead(s[1..], pattern);
      if |s| >= |pattern| {
        NothingToRead(s[|pattern|..], pattern);
      }
    }
  }

  lemma {:induction false} TrimmingAddsNothing(s: string, drop: char -> bool)
    requires NoDigits(s)
    ensures NoDigits(DropLeading(s, drop)) && NoDigits(DropTrailing(s, drop))
    decreases |s|
  {
    if s != "" {
      TrimmingAddsNothing(s[1..], drop);
      TrimmingAddsNothing(s[..|s| - 1], drop);
    }
  }

  lemma {:induction false} PartsHaveNothing(s: string, i: nat)
    requires NoDigits(s)
    ensures NumberAt(Parts(s), i) == 0
    decreases |s|
  {
    NothingToRead(s, ".");
    if '.' in s {
      BeforeIsShorter(s, ".");
      NothingToRead(Before(s, "."), ".");
      if i > 0 {
        PartsHaveNothing(After(s, "."), i - 1);
      }
    }
  }

  /** A report without a single digit, such as an empty one, reads as the oldest version. */
  lemma UnparseableIsOldest(raw: string)
    requires NoDigits(raw)
    ensures Parse(raw) == ParseOs(raw) == Version(0, 0, 0, 0)
  {
    NothingToRead(raw, PRODUCT);
    var s := Remove(raw, PRODUCT);
    TrimmingAddsNothing(s, IsSpace);
    TrimmingAddsNothing(DropLeading(s, IsSpace), IsSpace);
    TrimmingAddsNothing(DropTrailing(DropLeading(s, IsSpace), IsSpace), c => c == 'v');
    var t := Normalized(raw);
    NothingToRead(t, REV);
    NothingToRead(After(t, REV), REV);
    NothingToRead(Before(t, REV), "+");
    NothingToRead(Before(Before(t, REV), "+"), "-");
    forall i: nat | i < 3
      ensures NumberAt(Parts(Before(Before(Before(t, REV), "+"), "-")), i) == 0
      ensures NumberAt(Parts(Before(t, REV)), i) == 0
    {
      PartsHaveNothing(Before(Before(Before(t, REV), "+"), "-"), i);
      PartsHaveNothing(Before(t, REV), i);
    }
  }

  lemma DigitEndsSurvive(s: string)
    requires s != "" && IsDigit(s[0]) && !IsSpace(s[|s| - 1])
    ensures Trimmed(s) == s
  {
  }

  /** Numbers that are missing count as zero. */
  lemma ShortVersionIsPadded(a: nat, b: nat)
    ensures Parse(Decimal(a)) == ParseOs(Decimal(a)) == Version(a, 0, 0, 0)
    ensures var s := Decimal(a) + "." + Decimal(b); Parse(s) == ParseOs(s) == Version(a, b, 0, 0)
  {
    NumberReadsBack(a);
    NumberReadsBack(b);
    var x, y := Decimal(a), Decimal(b);
    var s := x + "." + y;
    assert s[0] == x[0] && s[|s| - 1] == y[|y| - 1] && 'b' !in s && '+' !in s && '-' !in s;
    PatternsAreAbsent(x);
    PatternsAreAbsent(s);
    ShortPartsAre(x, y);
    ParsedFrom(x, [x], [x]);
    ParsedFrom(s, [x, y], [x, y]);
  }

  lemma PatternsAreAbsent(s: string)
    requires s != "" && IsDigit(s[0]) && IsDigit(s[|s| - 1]) && 'b' !in s && '+' !in s && '-' !in s
    ensures Normalized(s) == s && Before(s, REV) == s && After(s, REV) == ""
    ensures Before(s, "+") == s && Before(s, "-") == s
  {
    NotFound(s, PRODUCT);
    NotFound(s, REV);
    NotFound(s, "+");
    NotFound(s, "-");
    NothingAfter(s, REV);
    DigitEndsSurvive(s);
  }

  lemma ShortPartsAre(a: string, b: string)
    requires AllDigits(a) && AllDigits(b)
    ensures Parts(a) == [a] && Parts(a + "." + b) == [a, b]
  {
    var s := a + "." + b;
    FoundAt(a, ".", b);
    assert s[|a|] == '.';
    assert Parts(s) == [a] + Parts(b) && Parts(b) == [b];
  }

  lemma {:induction false} NothingAfter(s: string, pattern: string)
    requires pattern != "" && pattern[0] !in s
    ensures After(s, pattern) == ""
    decreases |s|
  {
    if |s| >= |pattern| {
      NothingAfter(s[1..], pattern);
    }
  }

  /** A `+variant` is no revision. */
  lemma {:induction false} VariantIsNoRevision(a: string, sep: string, suffix: string)
    requires '+' !in a && '+' !in suffix && (sep == "-" || (sep == "+" && !("rev" <= suffix)))
    ensures Before(a + sep + suffix, REV) == a + sep + suffix && After(a + sep + suffix, REV) == ""
    decreases |a|
  {
    var s := a + sep + suffix;
    if a == "" {
      NotFound(suffix, REV);
      NothingAfter(suffix, REV);
      assert s[1..] == suffix && s[0] == sep[0];
    } else {
      assert s[0] == a[0] && s[1..] == a[1..] + sep + suffix;
      VariantIsNoRevision(a[1..], sep, suffix);
    }
  }

  lemma SuffixIsCutOff(numbers: string, sep: string, suffix: string)
    requires '+' !in numbers && '-' !in numbers && '+' !in suffix && (sep == "-" || sep == "+")
    ensures Before(Before(numbers + sep + suffix, "+"), "-") == numbers
  {
    if sep == "+" {
      FoundAt(numbers, "+", suffix);
      NotFound(numbers, "-");
    } else {
      NotFound(numbers + sep + suffix, "+");
      FoundAt(numbers, "-", suffix);
    }
  }

  lemma LastPartTakesAll(a: string, b: string, last: string)
    requires '.' !in a && '.' !in b && '.' !in last
    ensures Parts(a + "." + (b + "." + last)) == [a, b, last]
  {
    var tail := b + "." + last;
    var t := a + "." + tail;
    FoundAt(a, ".", tail);
    FoundAt(b, ".", last);
    assert t[|a|] == '.' && tail[|b|] == '.';
    assert Parts(tail) == [b] + Parts(last) == [b, last];
    assert Parts(t) == [a] + Parts(tail);
  }

  lemma PatchTakesSuffix(c: string, sep: string, suffix: string)
    requires AllDigits(c) && (sep == "-" || sep == "+")
    ensures Digits(c + sep + suffix) == c + Digits(suffix)
  {
    NothingToRead(sep, ".");
    DigitsOfDigits(c);
    DigitsAreFiltered(c, sep);
    assert Digits(c + sep) == c;
    DigitsAreFiltered(c + sep, suffix);
  }

  /** What both parsers make of a report without a revision. */
  lemma ParsedFrom(t: string, cut: seq<string>, whole: seq<string>)
    requires Normalized(t) == t && Before(t, REV) == t && After(t, REV) == ""
    requires Parts(Before(Before(t, "+"), "-")) == cut && Parts(t) == whole
    ensures Parse(t) == Version(NumberAt(cut, 0), NumberAt(cut, 1), NumberAt(cut, 2), 0)
    ensures ParseOs(t) == Version(NumberAt(whole, 0), NumberAt(whole, 1), NumberAt(whole, 2), 0)
  {
  }

  lemma Regrouped(x: string, y: string, z: string, sep: string, suffix: string)
    ensures x + "." + y + "." + z + sep + suffix == x + "." + (y + "." + (z + sep + suffix))
  {
  }

  lemma SuffixedText(x: string, y: string, z: string, sep: string, suffix: string, t: string)
    requires AllDigits(x) && AllDigits(y) && AllDigits(z) && '+' !in suffix && '.' !in suffix
    requires sep == "-" || (sep == "+" && !("rev" <= suffix))
    requires t == x + "." + y + "." + z + sep + suffix
    ensures Before(t, REV) == t && After(t, REV) == ""
    ensures Parts(Before(Before(t, "+"), "-")) == [x, y, z] && Parts(t) == [x, y, z + sep + suffix]
  {
    var numbers := x + "." + y + "." + z;
    assert '+' !in numbers && '-' !in numbers;
    CutText(numbers, sep, suffix, t);
    ThreeParts(x, y, z);
    Regrouped(x, y, z, sep, suffix);
    LastPartTakesAll(x, y, z + sep + suffix);
  }

  lemma CutText(numbers: string, sep: string, suffix: string, t: string)
    requires '+' !in numbers && '-' !in numbers && '+' !in suffix
    requires sep == "-" || (sep == "+" && !("rev" <= suffix))
    requires t == numbers + sep + suffix
    ensures Before(t, REV) == t && After(t, REV) == "" && Before(Before(t, "+"), "-") == numbers
  {
    VariantIsNoRevision(numbers, sep, suffix);
    SuffixIsCutOff(numbers, sep, suffix);
  }

  lemma SuffixedIsTrim(x: string, y: string, z: string, sep: string, suffix: string, t: string)
    requires AllDigits(x) && suffix != "" && !IsSpace(suffix[|suffix| - 1])
    requires t == x + "." + y + "." + z + sep + suffix && Remove(t, PRODUCT) == t
    ensures Normalized(t) == t
  {
    assert t[0] == x[0] && t[|t| - 1] == suffix[|suffix| - 1];
    DigitEndsSurvive(t);
  }

  lemma NumbersOf(parts: seq<string>, x: string, y: string, z: string)
    requires parts == [x, y, z]
    ensures NumberAt(parts, 0) == Value(Digits(x)) && NumberAt(parts, 1) == Value(Digits(y))
    ensures NumberAt(parts, 2) == Value(Digits(z))
  {
  }

  lemma ReadFrom(t: string, cut: seq<string>, whole: seq<string>, x: string, y: string, z: string, last: string)
    requires Normalized(t) == t && Before(t, REV) == t && After(t, REV) == ""
    requires Parts(Before(Before(t, "+"), "-")) == cut && Parts(t) == whole
    requires cut == [x, y, z] && whole == [x, y, last]
    ensures Parse(t) == Version(Value(Digits(x)), Value(Digits(y)), Value(Digits(z)), 0)
    ensures ParseOs(t) == Version(Value(Digits(x)), Value(Digits(y)), Value(Digits(last)), 0)
  {
    ParsedFrom(t, cut, whole);
    NumbersOf(cut, x, y, z);
    NumbersOf(whole, x, y, last);
  }

  lemma SuffixedParse(x: string, y: string, z: string, sep: string, suffix: string, t: string, last: string)
    requires AllDigits(x) && AllDigits(y) && AllDigits(z)
    requires '+' !in suffix && '.' !in suffix && suffix != "" && !IsSpace(suffix[|suffix| - 1])
    requires sep == "-" || (sep == "+" && !("rev" <= suffix))
    requires t == x + "." + y + "." + z + sep + suffix && last == z + sep + suffix && Remove(t, PRODUCT) == t
    ensures Parse(t) == Version(Value(Digits(x)), Value(Digits(y)), Value(Digits(z)), 0)
    ensures ParseOs(t) == Version(Value(Digits(x)), Value(Digits(y)), Value(z + Digits(suffix)), 0)
  {
    var more := z + Digits(suffix);
    assert Normalized(t) == t by {
      SuffixedIsTrim(x, y, z, sep, suffix, t);
    }
    assert Digits(last) == more by {
      PatchTakesSuffix(z, sep, suffix);
    }
    SuffixedText(x, y, z, sep, suffix, t);
    ReadFrom(t, [x, y, z], [x, y, last], x, y, z, last);
  }

  /** A `-prerelease` or a `+variant` is dropped by the one parser; the other reads its
      digits on into the patch number. */
  lemma SuffixIsReadDifferently(a: nat, b: nat, c: nat, sep: string, suffix: string, t: string)
    requires '+' !in suffix && '.' !in suffix && suffix != "" && !IsSpace(suffix[|suffix| - 1])
    requires sep == "-" || (sep == "+" && !("rev" <= suffix))
    requires t == Decimal(a) + "." + Decimal(b) + "." + Decimal(c) + sep + suffix && Remove(t, PRODUCT) == t
    ensures Parse(t) == Version(a, b, c, 0)
    ensures ParseOs(t) == Version(a, b, Value(Decimal(c) + Digits(suffix)), 0)
  {
    NumberReadsBack(a);
    NumberReadsBack(b);
    NumberReadsBack(c);
    SuffixedParse(Decimal(a), Decimal(b), Decimal(c), sep, suffix, t, Decimal(c) + sep + suffix);
  }
}

/** The shared utilities of the web app and the API: a person's age on a given day, the
    Thai label of a `YYYY-MM` month and URL slugs. */
module SharedUtils {
  import opened Common
  import opened ThaiCalendar

  // ---------------------------------------------------------------
  // calculateAge
  // ---------------------------------------------------------------

  /** A calendar day as `getFullYear`, `getMonth` and `getDate` read it. */
  datatype CalDate = CalDate(year: int, month: int, day: int)

  /** Calendar order: by year, then month, then day. */
  predicate DateLe(a: CalDate, b: CalDate) {
    a.year < b.year || (a.year == b.year && (a.month < b.month || (a.month == b.month && a.day <= b.day)))
  }

  /** The `n`-th anniversary of a birth date (the same month and day, `n` years later). */
  function Anniversary(birth: CalDate, n: int): CalDate {
    CalDate(birth.year + n, birth.month, birth.day)
  }

  /** `calculateAge`, with today's date as a parameter: the year difference, one less when this
      year's birthday is still to come. The result is the number of birthdays reached: the
      `age`-th anniversary is on or before today and the next one is after it. */
  method CalculateAge(today: CalDate, birth: CalDate) returns (age: int)
    ensures DateLe(Anniversary(birth, age), today)
    ensures !DateLe(Anniversary(birth, age + 1), today)
    ensures today.month == birth.month && today.day == birth.day ==> age == today.year - birth.year
  {
    age := today.year - birth.year;
    var monthDiff := today.month - birth.month;
    if monthDiff < 0 || (monthDiff == 0 && today.day < birth.day) {
      age := age - 1;
    }
  }

  // ---------------------------------------------------------------
  // formatMonth
  // ---------------------------------------------------------------

  /** The longest run of decimal digits at the start of `s`. */
  function DigitPrefix(s: string): (r: string)
    ensures IsDigits(r) && |r| <= |s| && r == s[..|r|]
    ensures |r| < |s| ==> !('0' <= s[|r|] <= '9')
  {
    if s != [] && '0' <= s[0] <= '9' then
      var rest := DigitPrefix(s[1..]);
      [s[0]] + rest
    else []
  }

  lemma {:induction false} DigitPrefixWhole(s: string)
    requires IsDigits(s)
    ensures DigitPrefix(s) == s
  {
    if s != [] {
      assert IsDigits(s[1..]);
      DigitPrefixWhole(s[1..]);
      assert s == [s[0]] + s[1..];
    }
  }

  /** `parseInt(s)`: leading white space, an optional sign and the digits that follow; `None` for
      NaN, when no digit follows. */
  function ParseInt(s: string): Option<int> {
    var t := TrimStart(s);
    var negative := t != [] && t[0] == '-';
    var body := if t != [] && (t[0] == '-' || t[0] == '+') then t[1..] else t;
    var digits := DigitPrefix(body);
    if digits == [] then None
    else if negative then Some(-(DecimalValue(digits) as int))
    else Some(DecimalValue(digits) as int)
  }

  lemma ParseDigits(s: string)
    requires IsDigits(s) && s != []
    ensures ParseInt(s) == Some(DecimalValue(s) as int)
  {
    assert !IsSpace(s[0]) && s[0] != '-' && s[0] != '+';
    assert TrimStart(s) == s;
    DigitPrefixWhole(s);
  }

  /** The first two parts of `s.split('-')`; the second is missing without a '-'. */
  function SplitFirst(s: string): (string, Option<string>) {
    var i := IndexOf(s, '-');
    if i < 0 then (s, None)
    else
      var rest := s[i + 1..];
      var j := IndexOf(rest, '-');
      (s[..i], Some(if j < 0 then rest else rest[..j]))
  }

  /** `months[m - 1]`, or "undefined" for NaN and for an index outside the table. */
  function MonthPart(m: Option<int>): string {
    if m.Some? && 1 <= m.value <= 12 then MonthNames[m.value - 1] else "undefined"
  }

  /** `parseInt(year) + 543`, or "NaN". */
  function YearPart(y: Option<int>): string {
    if y.Some? then IntToString(BuddhistYear(y.value)) else "NaN"
  }

  /** `formatMonth`: the month's Thai name, a space and the Buddhist-era year. */
  function FormatMonth(month: string): string {
    var parts := SplitFirst(month);
    MonthPart(if parts.1.Some? then ParseInt(parts.1.value) else None) + " " + YearPart(ParseInt(parts.0))
  }

  /** A `YYYY-MM` string splits at its dash into the year and the month. */
  lemma SplitYearMonth(s: string)
    requires IsYearMonth(s)
    ensures SplitFirst(s) == (s[..4], Some(s[5..]))
  {
    assert forall i :: 0 <= i < 4 ==> s[i] == s[..4][i];
    assert forall i :: 0 <= i < 2 ==> s[5..][i] != '-';
    assert IndexOf(s, '-') == 4;
    assert IndexOf(s[5..], '-') == -1;
  }

  /** A `YYYY-MM` string prints the name of its month and the Buddhist-era year of its year. */
  lemma FormatYearMonth(s: string)
    requires IsYearMonth(s)
    ensures FormatMonth(s) == MonthPart(Some(MonthOf(s) as int)) + " " + YearPart(Some(YearOf(s) as int))
  {
    SplitYearMonth(s);
    ParseDigits(s[..4]);
    ParseDigits(s[5..]);
  }

  /** A well-formed month string prints the Thai month name and the Buddhist-era year. */
  lemma FormatMonthOfKey(y: nat, m: nat)
    requires 1000 <= y <= 9999 && 1 <= m <= 12
    ensures FormatMonth(YearMonthString(y, m)) == MonthNames[m - 1] + " " + IntToString(y + 543)
  {
    var s := YearMonthString(y, m);
    YearMonthRoundTrip(y, m);
    FormatYearMonth(s);
    assert MonthOf(s) == m && YearOf(s) == y;
    MonthPartOf(m);
    assert YearPart(Some(y as int)) == IntToString(y + 543);
  }

  lemma MonthPartOf(m: int)
    requires 1 <= m <= 12
    ensures MonthPart(Some(m)) == MonthNames[m - 1]
  {
  }

  /** A month string without a '-' has no month part. */
  lemma FormatMonthWithoutDash(month: string)
    requires '-' !in month
    ensures StartsWith(FormatMonth(month), "undefined ")
  {
    var r := FormatMonth(month);
    var head := "undefined" + " ";
    assert r[..|head|] == head;
  }

  // ---------------------------------------------------------------
  // slugify
  // ---------------------------------------------------------------

  /** The characters of JavaScript's `\w`: ASCII letters, digits and '_'. */
  predicate IsWordChar(c: char) {
    'a' <= c <= 'z' || 'A' <= c <= 'Z' || '0' <= c <= '9' || c == '_'
  }

  /** `replace(/[^\w\s-]/g, '')`. */
  function KeepWordChars(s: string): (r: string)
    ensures forall i :: 0 <= i < |r| ==> IsWordChar(r[i]) || IsSpace(r[i]) || r[i] == '-'
    ensures forall c :: c in r ==> c in s
  {
    if s == [] then []
    else
      (if IsWordChar(s[0]) || IsSpace(s[0]) || s[0] == '-' then [s[0]] else []) + KeepWordChars(s[1..])
  }

  /** `s` without its leading white space. */
  function DropSpaces(s: string): (r: string)
    ensures |r| <= |s|
    ensures r == [] || !IsSpace(r[0])
    ensures r == s[|s| - |r|..]
  {
    if s != [] && IsSpace(s[0]) then DropSpaces(s[1..]) else s
  }

  /** `replace(/\s+/g, '-')`: each run of white space becomes one '-'. */
  function Hyphenate(s: string): (r: string)
    ensures forall i :: 0 <= i < |r| ==> !IsSpace(r[i])
    ensures forall c :: c in r ==> c in s || c == '-'
    decreases |s|
  {
    if s == [] then []
    else if IsSpace(s[0]) then
      var rest := DropSpaces(s[1..]);
      assert forall c :: c in rest ==> c in s;
      "-" + Hyphenate(rest)
    else [s[0]] + Hyphenate(s[1..])
  }

  /** `slugify`. */
  function Slugify(text: string): string {
    Hyphenate(KeepWordChars(ToLower(text)))
  }

  /** The characters a slug can hold: lower-case ASCII letters, digits, '_' and '-'. */
  predicate IsSlugChar(c: char) {
    'a' <= c <= 'z' || '0' <= c <= '9' || c == '_' || c == '-'
  }

  /** A slug holds only lower-case ASCII letters, digits, '_' and '-': Thai letters, punctuation
      and white space never survive. */
  lemma SlugChars(text: string)
    ensures forall c :: c in Slugify(text) ==> IsSlugChar(c)
  {
    var low := ToLower(text);
    var kept := KeepWordChars(low);
    forall c | c in kept
      ensures !('A' <= c <= 'Z')
    {
      var i :| 0 <= i < |low| && low[i] == c;
    }
    forall c | c in Slugify(text)
      ensures IsSlugChar(c)
    {
      if c != '-' {
        var j :| 0 <= j < |kept| && kept[j] == c;
      }
    }
  }

  lemma {:induction false} ToLowerSlug(s: string)
    requires forall c :: c in s ==> IsSlugChar(c)
    ensures ToLower(s) == s
  {
    forall i | 0 <= i < |s|
      ensures ToLower(s)[i] == s[i]
    {
      assert s[i] in s;
    }
  }

  lemma {:induction false} KeepSlug(s: string)
    requires forall c :: c in s ==> IsSlugChar(c)
    ensures KeepWordChars(s) == s
  {
    if s != [] {
      assert IsSlugChar(s[0]) by {
        assert s[0] in s;
      }
      assert forall c :: c in s[1..] ==> c in s;
      KeepSlug(s[1..]);
      assert s == [s[0]] + s[1..];
    }
  }

  lemma {:induction false} HyphenateIdle(s: string)
    requires forall i :: 0 <= i < |s| ==> !IsSpace(s[i])
    ensures Hyphenate(s) == s
  {
    if s != [] {
      HyphenateIdle(s[1..]);
      assert s == [s[0]] + s[1..];
    }
  }

  /** Slugifying a slug changes nothing. */
  lemma SlugifyIdempotent(text: string)
    ensures Slugify(Slugify(text)) == Slugify(text)
  {
    var s := Slugify(text);
    SlugChars(text);
    ToLowerSlug(s);
    KeepSlug(s);
    HyphenateIdle(s);
  }

  /** A character outside `\w`, `\s` and '-' (a Thai letter, say) is removed wherever it is. */
  lemma {:induction false} DropsOtherChars(a: string, c: char, b: string)
    requires !(IsWordChar(c) || IsSpace(c) || c == '-')
    ensures KeepWordChars(a + [c] + b) == KeepWordChars(a + b)
  {
    if a == [] {
      assert a + [c] + b == [c] + b && a + b == b;
      assert ([c] + b)[1..] == b;
    } else {
      DropsOtherChars(a[1..], c, b);
      assert (a + [c] + b)[1..] == a[1..] + [c] + b;
      assert (a + b)[1..] == a[1..] + b;
    }
  }

  lemma {:induction false} DropSpacesRun(w: string, rest: string)
    requires forall i :: 0 <= i < |w| ==> IsSpace(w[i])
    requires rest == [] || !IsSpace(rest[0])
    ensures DropSpaces(w + rest) == rest
  {
    if w != [] {
      assert (w + rest)[1..] == w[1..] + rest;
      DropSpacesRun(w[1..], rest);
    } else {
      assert w + rest == rest;
    }
  }

  /** A run of white space, however long, becomes a single '-'. */
  lemma RunBecomesOneDash(w: string, rest: string)
    requires |w| > 0 && forall i :: 0 <= i < |w| ==> IsSpace(w[i])
    requires rest == [] || !IsSpace(rest[0])
    ensures Hyphenate(w + rest) == "-" + Hyphenate(rest)
  {
    assert (w + rest)[0] == w[0];
    assert (w + rest)[1..] == w[1..] + rest;
    DropSpacesRun(w[1..], rest);
  }
}

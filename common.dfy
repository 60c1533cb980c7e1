/** Small value types and sequence/string helpers shared by every module:
    the error-carrying wrappers, prefix/suffix/substring tests, decimal
    rendering, joining, de-duplication and the integer forms of the
    JavaScript and Python rounding operations the services use. */
module Common {

  datatype Option<T> = None | Some(value: T) {
    function GetOr(default: T): T {
      match this
      case Some(v) => v
      case None => default
    }
  }

  datatype Result<T, E> = Ok(value: T) | Err(error: E)

  // ---------------------------------------------------------------
  // Sequences
  // ---------------------------------------------------------------

  predicate StartsWith<T(==)>(s: seq<T>, prefix: seq<T>) {
    |prefix| <= |s| && s[..|prefix|] == prefix
  }

  predicate EndsWith<T(==)>(s: seq<T>, suffix: seq<T>) {
    |suffix| <= |s| && s[|s| - |suffix|..] == suffix
  }

  /** `sub` occurs somewhere in `s` (JavaScript `includes` on strings). */
  predicate Contains<T(==)>(s: seq<T>, sub: seq<T>)
    decreases |s|
  {
    StartsWith(s, sub) || (|s| > 0 && Contains(s[1..], sub))
  }

  lemma {:induction false} ContainsAt<T>(s: seq<T>, sub: seq<T>, i: nat)
    requires i + |sub| <= |s| && s[i..i + |sub|] == sub
    ensures Contains(s, sub)
    decreases i
  {
    if i == 0 {
      assert s[..|sub|] == sub;
    } else {
      assert s[1..][i - 1..i - 1 + |sub|] == s[i..i + |sub|];
      ContainsAt(s[1..], sub, i - 1);
    }
  }

  /** The first `n` elements, or all of them (`slice(0, n)`). */
  function Take<T>(s: seq<T>, n: nat): (r: seq<T>)
    ensures |r| == if |s| <= n then |s| else n
    ensures r == s[..|r|]
  {
    if |s| <= n then s else s[..n]
  }

  /** Sum of a sequence of naturals (`reduce((a, b) => a + b, 0)`). */
  function Sum(s: seq<nat>): nat {
    if s == [] then 0 else s[0] + Sum(s[1..])
  }

  lemma {:induction false} SumAppend(a: seq<nat>, b: seq<nat>)
    ensures Sum(a + b) == Sum(a) + Sum(b)
  {
    if a == [] {
      assert a + b == b;
    } else {
      assert (a + b)[1..] == a[1..] + b;
      SumAppend(a[1..], b);
    }
  }

  predicate NoDuplicates<T(==)>(s: seq<T>) {
    forall i, j :: 0 <= i < j < |s| ==> s[i] != s[j]
  }

  /** `[...new Set(s)]`: the distinct elements in order of first occurrence. */
  function Dedup<T(==)>(s: seq<T>): (r: seq<T>)
    ensures NoDuplicates(r)
    ensures forall i :: 0 <= i < |s| ==> s[i] in r
    ensures forall i :: 0 <= i < |r| ==> r[i] in s
    ensures |r| <= |s|
    decreases |s|
  {
    if s == [] then []
    else
      var rest := Dedup(s[..|s| - 1]);
      if s[|s| - 1] in rest then rest else rest + [s[|s| - 1]]
  }

  /** The first occurrence of every element keeps its relative position. */
  lemma {:induction false} DedupPrefix<T>(s: seq<T>, t: seq<T>)
    ensures StartsWith(Dedup(s + t), Dedup(s))
    decreases |t|
  {
    if t == [] {
      assert s + t == s;
    } else {
      var u := t[..|t| - 1];
      assert (s + t)[..|s + t| - 1] == s + u;
      DedupPrefix(s, u);
    }
  }

  /** A prefix as long as the sequence is the sequence. */
  lemma TakeWhole<T>(s: seq<T>)
    ensures s[..|s|] == s
  {
  }

  /** One more element of a prefix. */
  lemma PrefixSnoc<T>(s: seq<T>, i: nat)
    requires i < |s|
    ensures s[..i + 1] == s[..i] + [s[i]]
  {
  }

  /** The rows of an unordered query result, in whatever order the store yields them. */
  method SetToSeq<T>(s: set<T>) returns (r: seq<T>)
    ensures NoDuplicates(r) && |r| == |s|
    ensures forall i :: 0 <= i < |r| ==> r[i] in s
    ensures forall x :: x in s ==> x in r
  {
    r := [];
    var rest := s;
    while rest != {}
      invariant NoDuplicates(r) && |r| + |rest| == |s|
      invariant rest <= s
      invariant forall i :: 0 <= i < |r| ==> r[i] in s && r[i] !in rest
      invariant forall x :: x in s ==> x in rest || x in r
      decreases |rest|
    {
      var x :| x in rest;
      r := r + [x];
      rest := rest - {x};
    }
  }

  /** `findMany({ where, take: n })` without an ordering: at most `n` matching rows. */
  method TakeUpTo<T>(s: set<T>, n: nat) returns (r: seq<T>)
    ensures NoDuplicates(r) && |r| == if |s| <= n then |s| else n
    ensures forall i :: 0 <= i < |r| ==> r[i] in s
    ensures |s| <= n ==> forall x :: x in s ==> x in r
  {
    var all := SetToSeq(s);
    r := Take(all, n);
  }

  // ---------------------------------------------------------------
  // Strings
  // ---------------------------------------------------------------

  function DigitChar(d: nat): (c: char)
    requires d < 10
    ensures '0' <= c <= '9' && c as int - '0' as int == d
  {
    ('0' as int + d) as char
  }

  predicate IsDigits(s: string) {
    forall i :: 0 <= i < |s| ==> '0' <= s[i] <= '9'
  }

  /** The number a string of decimal digits denotes (leading zeros allowed). */
  function DecimalValue(s: string): nat
    requires IsDigits(s)
  {
    if s == [] then 0
    else DecimalValue(s[..|s| - 1]) * 10 + (s[|s| - 1] as int - '0' as int)
  }

  function Pow10(n: nat): (r: nat)
    ensures r >= 1
  {
    if n == 0 then 1 else 10 * Pow10(n - 1)
  }

  lemma DigitsAppend(a: string, b: string)
    requires IsDigits(a) && IsDigits(b)
    ensures IsDigits(a + b)
  {
    forall i | 0 <= i < |a + b| ensures '0' <= (a + b)[i] <= '9' {
      if i < |a| { assert (a + b)[i] == a[i]; } else { assert (a + b)[i] == b[i - |a|]; }
    }
  }

  lemma {:induction false} DecimalValueAppend(a: string, b: string)
    requires IsDigits(a) && IsDigits(b)
    ensures IsDigits(a + b)
    ensures DecimalValue(a + b) == DecimalValue(a) * Pow10(|b|) + DecimalValue(b)
    decreases |b|
  {
    DigitsAppend(a, b);
    if b == [] {
      assert a + b == a;
    } else {
      var b' := b[..|b| - 1];
      assert (a + b)[..|a + b| - 1] == a + b';
      assert (a + b)[|a + b| - 1] == b[|b| - 1];
      DecimalValueAppend(a, b');
      ShiftDigit(DecimalValue(a), Pow10(|b'|), DecimalValue(b'), b[|b| - 1] as int - '0' as int);
    }
  }

  lemma ShiftDigit(x: int, p: int, d: int, last: int)
    ensures (x * p + d) * 10 + last == x * (10 * p) + (d * 10 + last)
  {
  }

  lemma {:induction false} NatToStringValue(n: nat)
    ensures IsDigits(NatToString(n)) && DecimalValue(NatToString(n)) == n
    decreases n
  {
    var s := NatToString(n);
    if n >= 10 {
      NatToStringValue(n / 10);
      assert s[..|s| - 1] == NatToString(n / 10);
    } else {
      assert s[..0] == [];
    }
  }

  lemma {:induction false} ZerosValue(k: nat)
    ensures IsDigits(seq(k, _ => '0')) && DecimalValue(seq(k, _ => '0')) == 0
  {
    if k > 0 {
      assert seq(k, _ => '0')[..k - 1] == seq(k - 1, _ => '0');
      ZerosValue(k - 1);
    }
  }

  /** Zero padding keeps the value and is exactly `width` long when the number fits. */
  lemma PadNatValue(n: nat, width: nat)
    ensures IsDigits(PadNat(n, width)) && DecimalValue(PadNat(n, width)) == n
    ensures n < Pow10(width) && width >= 1 ==> |PadNat(n, width)| == width
  {
    var d := NatToString(n);
    NatToStringValue(n);
    if |d| < width {
      var z := seq(width - |d|, _ => '0');
      ZerosValue(width - |d|);
      DecimalValueAppend(z, d);
    }
    if n < Pow10(width) && width >= 1 {
      NatToStringShort(n, width);
    }
  }

  lemma {:induction false} NatToStringShort(n: nat, width: nat)
    requires width >= 1 && n < Pow10(width)
    ensures |NatToString(n)| <= width
    decreases width
  {
    assert Pow10(1) == 10;
    if n >= 10 {
      assert width >= 2;
      assert n / 10 < Pow10(width - 1);
      NatToStringShort(n / 10, width - 1);
    }
  }

  /** Decimal rendering of a natural number, without leading zeros. */
  function NatToString(n: nat): (s: string)
    ensures |s| >= 1
    ensures forall i :: 0 <= i < |s| ==> '0' <= s[i] <= '9'
    ensures n < 10 ==> |s| == 1
    ensures n >= 10 ==> |s| >= 2
    decreases n
  {
    if n < 10 then [DigitChar(n)] else NatToString(n / 10) + [DigitChar(n % 10)]
  }

  /** Decimal rendering of an integer with a leading '-' when negative. */
  function IntToString(n: int): string {
    if n < 0 then "-" + NatToString(-n) else NatToString(n)
  }

  /** Zero-padded to at least `width` digits (Python `:02d`, JavaScript `padStart`). */
  function PadNat(n: nat, width: nat): (s: string)
    ensures |s| >= width
  {
    var d := NatToString(n);
    if |d| >= width then d else seq(width - |d|, _ => '0') + d
  }

  function Join(parts: seq<string>, sep: string): string {
    if parts == [] then ""
    else if |parts| == 1 then parts[0]
    else parts[0] + sep + Join(parts[1..], sep)
  }

  /** Every part followed by `end` (lines terminated by a newline). */
  function Concat(parts: seq<string>): string {
    if parts == [] then "" else parts[0] + Concat(parts[1..])
  }

  /** `f(x)` for every element, concatenated in order (a file written one record at a time). */
  function ConcatMap<T>(f: T -> string, xs: seq<T>): string {
    if xs == [] then "" else f(xs[0]) + ConcatMap(f, xs[1..])
  }

  lemma {:induction false} ConcatMapAppend<T>(f: T -> string, a: seq<T>, b: seq<T>)
    ensures ConcatMap(f, a + b) == ConcatMap(f, a) + ConcatMap(f, b)
  {
    if a == [] {
      assert a + b == b;
    } else {
      assert (a + b)[1..] == a[1..] + b;
      ConcatMapAppend(f, a[1..], b);
    }
  }

  /** One more record at the end adds its rendering at the end. */
  lemma ConcatMapSnoc<T>(f: T -> string, xs: seq<T>, i: nat)
    requires i < |xs|
    ensures ConcatMap(f, xs[..i + 1]) == ConcatMap(f, xs[..i]) + f(xs[i])
  {
    assert xs[..i + 1] == xs[..i] + [xs[i]];
    ConcatMapAppend(f, xs[..i], [xs[i]]);
    assert ConcatMap(f, [xs[i]]) == f(xs[i]) + ConcatMap(f, []);
  }

  /** `f(i, xs[i])` for every position, in order (a list built by `enumerate`). */
  function MapIndexed<T, U>(f: (nat, T) -> U, xs: seq<T>): seq<U>
    decreases |xs|
  {
    if xs == [] then [] else MapIndexed(f, xs[..|xs| - 1]) + [f(|xs| - 1, xs[|xs| - 1])]
  }

  lemma {:induction false} MapIndexedAt<T, U>(f: (nat, T) -> U, xs: seq<T>)
    ensures |MapIndexed(f, xs)| == |xs|
    ensures forall i :: 0 <= i < |xs| ==> MapIndexed(f, xs)[i] == f(i, xs[i])
    decreases |xs|
  {
    if xs != [] {
      var init := xs[..|xs| - 1];
      MapIndexedAt(f, init);
      forall i | 0 <= i < |xs| ensures MapIndexed(f, xs)[i] == f(i, xs[i]) {
        if i < |init| {
          assert init[i] == xs[i];
        }
      }
    }
  }

  /** `f(n, x)` for the elements numbered from `first`, concatenated in order. */
  function ConcatNumbered<T>(f: (nat, T) -> string, xs: seq<T>, first: nat): string {
    if xs == [] then "" else f(first, xs[0]) + ConcatNumbered(f, xs[1..], first + 1)
  }

  lemma {:induction false} ConcatNumberedAppend<T>(f: (nat, T) -> string, a: seq<T>, b: seq<T>, first: nat)
    ensures ConcatNumbered(f, a + b, first) == ConcatNumbered(f, a, first) + ConcatNumbered(f, b, first + |a|)
  {
    if a == [] {
      assert a + b == b;
    } else {
      assert (a + b)[1..] == a[1..] + b;
      ConcatNumberedAppend(f, a[1..], b, first + 1);
    }
  }

  lemma ConcatNumberedSnoc<T>(f: (nat, T) -> string, xs: seq<T>, i: nat, first: nat)
    requires i < |xs|
    ensures ConcatNumbered(f, xs[..i + 1], first) == ConcatNumbered(f, xs[..i], first) + f(first + i, xs[i])
  {
    assert xs[..i + 1] == xs[..i] + [xs[i]];
    ConcatNumberedAppend(f, xs[..i], [xs[i]], first);
    assert ConcatNumbered(f, [xs[i]], first + i) == f(first + i, xs[i]) + ConcatNumbered(f, [], first + i + 1);
  }

  predicate IsSpace(c: char) {
    c == ' ' || c == '\t' || c == '\n' || c == '\r' || c == '\U{B}' || c == '\U{C}'
  }

  function TrimStart(s: string): (r: string)
    ensures |r| <= |s| && EndsWith(s, r)
    ensures r == [] || !IsSpace(r[0])
    decreases |s|
  {
    if |s| > 0 && IsSpace(s[0]) then TrimStart(s[1..]) else s
  }

  function TrimEnd(s: string): (r: string)
    ensures |r| <= |s| && StartsWith(s, r)
    ensures r == [] || !IsSpace(r[|r| - 1])
    decreases |s|
  {
    if |s| > 0 && IsSpace(s[|s| - 1]) then TrimEnd(s[..|s| - 1]) else s
  }

  /** `trim()` / `strip()` on the ASCII white-space characters. */
  function Trim(s: string): (r: string)
    ensures |r| <= |s|
    ensures r == [] || (!IsSpace(r[0]) && !IsSpace(r[|r| - 1]))
  {
    TrimEnd(TrimStart(s))
  }

  function LowerChar(c: char): char {
    if 'A' <= c <= 'Z' then (c as int + 32) as char else c
  }

  /** `toLowerCase()` on ASCII letters; every other character is kept. */
  function ToLower(s: string): (r: string)
    ensures |r| == |s|
    ensures forall i :: 0 <= i < |s| ==> r[i] == LowerChar(s[i])
  {
    seq(|s|, i requires 0 <= i < |s| => LowerChar(s[i]))
  }

  /** Position of the first occurrence of `x`, or -1 (`indexOf`). */
  function IndexOf<T(==)>(s: seq<T>, x: T): (i: int)
    ensures -1 <= i < |s|
    ensures i == -1 <==> x !in s
    ensures i >= 0 ==> s[i] == x && x !in s[..i]
  {
    if s == [] then -1
    else if s[0] == x then 0
    else
      var k := IndexOf(s[1..], x);
      assert s[1..][..if k < 0 then 0 else k] == s[1..1 + if k < 0 then 0 else k];
      if k < 0 then -1 else k + 1
  }

  /** Last position of `x`, or -1 (`lastIndexOf`). */
  function LastIndexOf<T(==)>(s: seq<T>, x: T): (i: int)
    ensures -1 <= i < |s|
    ensures i == -1 <==> x !in s
    ensures i >= 0 ==> s[i] == x && forall j :: i < j < |s| ==> s[j] != x
    decreases |s|
  {
    if s == [] then -1
    else if s[|s| - 1] == x then |s| - 1
    else
      assert s == s[..|s| - 1] + [s[|s| - 1]];
      LastIndexOf(s[..|s| - 1], x)
  }

  /** The last occurrence is the one with no occurrence after it. */
  lemma LastIndexOfUnique<T>(s: seq<T>, x: T, i: nat)
    requires i < |s| && s[i] == x
    requires forall j :: i < j < |s| ==> s[j] != x
    ensures LastIndexOf(s, x) == i
  {
    assert s[i] in s;
    var r := LastIndexOf(s, x);
    assert r >= i;
  }

  /** Code-unit lexicographic order, `localeCompare` on the ASCII keys the services sort. */
  predicate LexLe(a: string, b: string)
    decreases |a|
  {
    a == [] || (b != [] && (a[0] < b[0] || (a[0] == b[0] && LexLe(a[1..], b[1..]))))
  }

  lemma {:induction false} LexTotal(a: string, b: string)
    ensures LexLe(a, b) || LexLe(b, a)
    decreases |a|
  {
    if a != [] && b != [] && a[0] == b[0] {
      LexTotal(a[1..], b[1..]);
    }
  }

  // ---------------------------------------------------------------
  // Arithmetic
  // ---------------------------------------------------------------

  function Max(a: int, b: int): int { if a >= b then a else b }

  function Min(a: int, b: int): int { if a <= b then a else b }

  /** `Math.max(0, x)`. */
  function ClampZero(x: int): (r: nat)
    ensures r >= x && (r == 0 || r == x)
  {
    if x > 0 then x else 0
  }

  /** `Math.round(sum / count)` for a non-negative numerator: half rounds up. */
  function RoundDiv(sum: nat, count: nat): (r: nat)
    requires count > 0
    ensures 2 * sum - count < 2 * r * count <= 2 * sum + count
  {
    (2 * sum + count) / (2 * count)
  }

  /** `Math.ceil(total / size)`. */
  function CeilDiv(total: nat, size: nat): (r: nat)
    requires size > 0
    ensures (r - 1) * size < total <= r * size || (total == 0 && r == 0)
  {
    (total + size - 1) / size
  }
}

/** The input sanitising pipe: every string in a request value loses its HTML tags and
    stray angle brackets and is trimmed; arrays and objects are rebuilt element by
    element; every other value passes through. */
module Sanitize {
  import opened Common

  /** A request value; an object is its own enumerable properties in order. */
  datatype Value =
    | Str(s: string)
    | Num(n: int)
    | Bool(b: bool)
    | Null
    | Undefined
    | Arr(items: seq<Value>)
    | Obj(fields: seq<(string, Value)>)

  // ---------------------------------------------------------------
  // sanitizeString
  // ---------------------------------------------------------------

  /** `str.replace(/<[^>]*>/g, '')`: from left to right, each '<' that has a '>' after it is removed
      together with everything up to and including the first such '>'. */
  function StripTags(s: string): (r: string)
    ensures |r| <= |s|
    decreases |s|
  {
    if s == [] then []
    else if s[0] == '<' && '>' in s[1..] then StripTags(s[IndexOf(s[1..], '>') + 2..])
    else [s[0]] + StripTags(s[1..])
  }

  /** `replace(/[<>]/g, '')`. */
  function DropBrackets(s: string): (r: string)
    ensures '<' !in r && '>' !in r
    ensures forall c :: c in r ==> c in s
  {
    if s == [] then []
    else (if s[0] == '<' || s[0] == '>' then [] else [s[0]]) + DropBrackets(s[1..])
  }

  /** The string `sanitizeString` returns. */
  function SanitizeStr(s: string): string {
    Trim(DropBrackets(StripTags(s)))
  }

  /** `sanitizeString`, reassigning its local after each step. */
  method SanitizeString(str: string) returns (sanitized: string)
    ensures sanitized == SanitizeStr(str)
    ensures '<' !in sanitized && '>' !in sanitized
  {
    sanitized := StripTags(str);
    sanitized := DropBrackets(sanitized);
    sanitized := Trim(sanitized);
    SanitizedHasNoBrackets(str);
  }

  lemma TrimKeepsChars(s: string)
    ensures forall c :: c in Trim(s) ==> c in s
  {
    var a := TrimStart(s);
    var b := TrimEnd(a);
    assert a == s[|s| - |a|..];
    assert b == a[..|b|];
    forall c | c in b
      ensures c in s
    {
      var i :| 0 <= i < |b| && b[i] == c;
      assert a[i] == c;
      assert s[|s| - |a| + i] == c;
    }
  }

  /** A sanitised string holds no '<' and no '>'. */
  lemma SanitizedHasNoBrackets(s: string)
    ensures '<' !in SanitizeStr(s) && '>' !in SanitizeStr(s)
  {
    TrimKeepsChars(DropBrackets(StripTags(s)));
  }

  lemma {:induction false} StripTagsWithoutOpen(s: string)
    requires '<' !in s
    ensures StripTags(s) == s
    decreases |s|
  {
    if s != [] {
      assert '<' !in s[1..];
      StripTagsWithoutOpen(s[1..]);
      assert s == [s[0]] + s[1..];
    }
  }

  lemma {:induction false} DropBracketsWithout(s: string)
    requires '<' !in s && '>' !in s
    ensures DropBrackets(s) == s
  {
    if s != [] {
      assert s[0] in s;
      assert '<' !in s[1..] && '>' !in s[1..];
      DropBracketsWithout(s[1..]);
      assert s == [s[0]] + s[1..];
    }
  }

  lemma TrimStartIdle(s: string)
    requires s == [] || !IsSpace(s[0])
    ensures TrimStart(s) == s
  {
  }

  lemma TrimEndIdle(s: string)
    requires s == [] || !IsSpace(s[|s| - 1])
    ensures TrimEnd(s) == s
  {
  }

  /** A string without brackets and without white space at its ends is left as it is. */
  lemma SanitizeFixed(t: string)
    requires '<' !in t && '>' !in t
    requires t == [] || (!IsSpace(t[0]) && !IsSpace(t[|t| - 1]))
    ensures SanitizeStr(t) == t
  {
    StripTagsWithoutOpen(t);
    DropBracketsWithout(t);
    TrimStartIdle(t);
    TrimEndIdle(t);
  }

  /** Sanitising a sanitised string changes nothing. */
  lemma SanitizeIdempotent(s: string)
    ensures SanitizeStr(SanitizeStr(s)) == SanitizeStr(s)
  {
    SanitizedHasNoBrackets(s);
    SanitizeFixed(SanitizeStr(s));
  }

  /** Text before a tag is kept as it is, and the tag itself disappears. */
  lemma {:induction false} StripTagsSkipsTag(a: string, t: string, b: string)
    requires '<' !in a && '>' !in t
    ensures StripTags(a + ['<'] + t + ['>'] + b) == a + StripTags(b)
    decreases |a|
  {
    var s := a + ['<'] + t + ['>'] + b;
    if a == [] {
      StripOneTag(t, b);
      assert s == ['<'] + t + ['>'] + b;
    } else {
      assert a[0] in a;
      StripTagsSkipsTag(a[1..], t, b);
      KeepFirst(a, t, b);
    }
  }

  lemma KeepFirst(a: string, t: string, b: string)
    requires a != [] && a[0] != '<'
    ensures StripTags(a + ['<'] + t + ['>'] + b) == [a[0]] + StripTags(a[1..] + ['<'] + t + ['>'] + b)
  {
    var s := a + ['<'] + t + ['>'] + b;
    assert s[0] == a[0];
    assert s[1..] == a[1..] + ['<'] + t + ['>'] + b;
  }

  lemma StripOneTag(t: string, b: string)
    requires '>' !in t
    ensures StripTags(['<'] + t + ['>'] + b) == StripTags(b)
  {
    var s := ['<'] + t + ['>'] + b;
    var rest := s[1..];
    assert rest == t + ['>'] + b;
    assert rest[|t|] == '>';
    var k := IndexOf(rest, '>');
    assert rest[..|t|] == t;
    assert k == |t|;
    assert s[k + 2..] == b;
  }

  /** A '<' with no '>' anywhere after it is not a tag: without any '>', nothing is stripped. */
  lemma {:induction false} StripTagsWithoutClose(s: string)
    requires '>' !in s
    ensures StripTags(s) == s
    decreases |s|
  {
    if s != [] {
      assert '>' !in s[1..];
      StripTagsWithoutClose(s[1..]);
      assert s == [s[0]] + s[1..];
    }
  }

  // ---------------------------------------------------------------
  // transform and sanitizeObject
  // ---------------------------------------------------------------

  /** `transform`: strings are sanitised, arrays and objects rebuilt with every element transformed,
      anything else (numbers, booleans, null, undefined) returned as it is. */
  function Transform(v: Value): Value
    decreases v
  {
    match v
    case Str(s) => Str(SanitizeStr(s))
    case Arr(items) => Arr(seq(|items|, i requires 0 <= i < |items| => Transform(items[i])))
    case Obj(fields) => Obj(seq(|fields|, i requires 0 <= i < |fields| => (fields[i].0, Transform(fields[i].1))))
    case _ => v
  }

  /** Values other than strings, arrays and objects pass through; arrays keep their length with
      every element transformed; objects keep their keys in order with every value transformed. */
  lemma TransformShape(v: Value)
    ensures !v.Str? && !v.Arr? && !v.Obj? ==> Transform(v) == v
    ensures v.Str? ==> Transform(v).Str? && '<' !in Transform(v).s && '>' !in Transform(v).s
    ensures v.Arr? ==>
      Transform(v).Arr? && |Transform(v).items| == |v.items| &&
      forall i :: 0 <= i < |v.items| ==> Transform(v).items[i] == Transform(v.items[i])
    ensures v.Obj? ==>
      Transform(v).Obj? && |Transform(v).fields| == |v.fields| &&
      forall i :: 0 <= i < |v.fields| ==> Transform(v).fields[i] == (v.fields[i].0, Transform(v.fields[i].1))
  {
    if v.Str? {
      SanitizedHasNoBrackets(v.s);
    }
  }

  /** Transforming a transformed value changes nothing. */
  lemma {:induction false} TransformIdempotent(v: Value)
    ensures Transform(Transform(v)) == Transform(v)
    decreases v
  {
    match v
    case Str(s) => SanitizeIdempotent(s);
    case Arr(items) =>
      forall i | 0 <= i < |items|
        ensures Transform(Transform(items[i])) == Transform(items[i])
      {
        TransformIdempotent(items[i]);
      }
    case Obj(fields) =>
      forall i | 0 <= i < |fields|
        ensures Transform(Transform(fields[i].1)) == Transform(fields[i].1)
      {
        TransformIdempotent(fields[i].1);
      }
    case _ =>
  }

  /** `sanitizeObject`: an array is mapped, an object's own keys are copied one by one into a fresh
      object with their transformed values. */
  method SanitizeObject(v: Value) returns (r: Value)
    requires v.Arr? || v.Obj?
    ensures r == Transform(v)
  {
    if v.Arr? {
      return Transform(v);
    }
    var sanitized: seq<(string, Value)> := [];
    var i := 0;
    while i < |v.fields|
      invariant 0 <= i <= |v.fields|
      invariant |sanitized| == i
      invariant forall j :: 0 <= j < i ==> sanitized[j] == (v.fields[j].0, Transform(v.fields[j].1))
    {
      sanitized := sanitized + [(v.fields[i].0, Transform(v.fields[i].1))];
      i := i + 1;
    }
    r := Obj(sanitized);
  }
}

/** String helpers of the .NET base library that the client relies on,
    stated over `seq<char>`. Case conversion covers ASCII letters only. */
module Text {
  import opened Wrappers
  import opened Errors

  /** The range of a C# `int`. */
  const INT32_MIN: int := -0x8000_0000
  const INT32_MAX: int := 0x7FFF_FFFF

  /** `char.IsWhiteSpace`: the Unicode separators and the control characters
      tab, line feed, vertical tab, form feed, carriage return and next line. */
  predicate IsWhiteSpace(c: char) {
    ('\U{9}' <= c <= '\U{D}') || c == ' ' || c == '\U{85}' || c == '\U{A0}'
    || c == '\U{1680}' || ('\U{2000}' <= c <= '\U{200A}') || c == '\U{2028}' || c == '\U{2029}'
    || c == '\U{202F}' || c == '\U{205F}' || c == '\U{3000}'
  }

  /** The string holds nothing but white space (the empty string included). */
  predicate IsBlank(s: string) {
    forall i :: 0 <= i < |s| ==> IsWhiteSpace(s[i])
  }

  /** `string.IsNullOrWhiteSpace`. */
  predicate IsNullOrWhiteSpace(s: Option<string>) {
    s.None? || IsBlank(s.value)
  }

  /** `string.IsNullOrEmpty`. */
  predicate IsNullOrEmpty(s: Option<string>) {
    s.None? || s.value == ""
  }

  function ToLowerAscii(c: char): char {
    if 'A' <= c <= 'Z' then (c as int + 32) as char else c
  }

  function ToLower(s: string): (r: string)
    ensures |r| == |s|
    ensures forall i :: 0 <= i < |s| ==> r[i] == ToLowerAscii(s[i])
  {
    seq(|s|, i requires 0 <= i < |s| => ToLowerAscii(s[i]))
  }

  lemma ToLowerAppend(a: string, b: string)
    ensures ToLower(a + b) == ToLower(a) + ToLower(b)
  {
    assert forall i :: 0 <= i < |a + b| ==> ToLower(a + b)[i] == (ToLower(a) + ToLower(b))[i];
  }

  /** Ordinal comparison that ignores the case of ASCII letters. */
  predicate EqualsIgnoreCase(a: string, b: string) {
    ToLower(a) == ToLower(b)
  }

  predicate StartsWith(s: string, prefix: string) {
    |prefix| <= |s| && s[..|prefix|] == prefix
  }

  predicate StartsWithIgnoreCase(s: string, prefix: string) {
    |prefix| <= |s| && EqualsIgnoreCase(s[..|prefix|], prefix)
  }

  /** `sub` occurs in `s` at some position. */
  predicate Contains(s: string, sub: string)
    decreases |s|
  {
    StartsWith(s, sub) || (s != [] && Contains(s[1..], sub))
  }

  lemma {:induction false} ContainsAt(s: string, sub: string, k: nat)
    requires k + |sub| <= |s| && s[k..k + |sub|] == sub
    ensures Contains(s, sub)
    decreases k
  {
    if k > 0 {
      assert s[1..][k - 1..k - 1 + |sub|] == sub;
      ContainsAt(s[1..], sub, k - 1);
    }
  }

  lemma {:induction false} ContainsWitness(s: string, sub: string) returns (k: nat)
    requires Contains(s, sub)
    ensures k + |sub| <= |s| && s[k..k + |sub|] == sub
    decreases |s|
  {
    if StartsWith(s, sub) {
      k := 0;
    } else {
      var j := ContainsWitness(s[1..], sub);
      assert s[1..][j..j + |sub|] == s[j + 1..j + 1 + |sub|];
      k := j + 1;
    }
  }

  predicate ContainsIgnoreCase(s: string, sub: string) {
    Contains(ToLower(s), ToLower(sub))
  }

  predicate IsDigit(c: char) {
    '0' <= c <= '9'
  }

  predicate AllDigits(s: string) {
    forall i :: 0 <= i < |s| ==> IsDigit(s[i])
  }

  /** The value of a string of decimal digits. */
  function DigitsValue(s: string): nat
    requires AllDigits(s)
  {
    if s == [] then 0 else DigitsValue(s[..|s| - 1]) * 10 + (s[|s| - 1] as int - '0' as int)
  }

  /** The decimal rendering of a natural number, without leading zeros. */
  function NatToString(n: nat): (r: string)
    ensures |r| > 0 && AllDigits(r)
  {
    if n < 10 then [('0' as int + n) as char] else NatToString(n / 10) + [('0' as int + n % 10) as char]
  }

  lemma {:induction false} NatToStringValue(n: nat)
    ensures DigitsValue(NatToString(n)) == n
  {
    var r := NatToString(n);
    if n >= 10 {
      NatToStringValue(n / 10);
      assert r[..|r| - 1] == NatToString(n / 10);
    }
  }

  /** `int.ToString()` for any integer, with a leading minus sign when negative. */
  function IntToString(n: int): (r: string)
    ensures |r| > 0
  {
    if n < 0 then "-" + NatToString(-n) else NatToString(n)
  }

  /** `string.Split(separators, StringSplitOptions.RemoveEmptyEntries)`. */
  function SplitRemoveEmpty(s: string, separators: set<char>): (r: seq<string>)
    ensures forall i :: 0 <= i < |r| ==> r[i] != [] && NoneOf(r[i], separators)
    ensures Concat(r) == Without(s, separators)
  {
    SplitPending(s, separators, [])
  }

  predicate NoneOf(s: string, chars: set<char>) {
    forall i :: 0 <= i < |s| ==> s[i] !in chars
  }

  /** The characters of `s` that are not in `chars`, in order. */
  function Without(s: string, chars: set<char>): string {
    if s == [] then [] else (if s[0] in chars then [] else [s[0]]) + Without(s[1..], chars)
  }

  function Concat(parts: seq<string>): string {
    if parts == [] then [] else parts[0] + Concat(parts[1..])
  }

  lemma {:induction false} ConcatAppend(a: seq<string>, b: seq<string>)
    ensures Concat(a + b) == Concat(a) + Concat(b)
  {
    if a == [] {
      assert a + b == b;
    } else {
      ConcatAppend(a[1..], b);
      assert (a + b)[1..] == a[1..] + b;
      assert Concat(a + b) == a[0] + Concat(a[1..] + b);
      assert Concat(a) == a[0] + Concat(a[1..]);
    }
  }

  /** Splitting the rest of the input while `pending` holds the characters
      of the entry read so far. */
  function {:induction false} SplitPending(s: string, separators: set<char>, pending: string): (r: seq<string>)
    requires NoneOf(pending, separators)
    ensures forall i :: 0 <= i < |r| ==> r[i] != [] && NoneOf(r[i], separators)
    ensures Concat(r) == pending + Without(s, separators)
    decreases |s|
  {
    var flushed := if pending == [] then [] else [pending];
    if s == [] then
      assert Concat(flushed) == pending;
      flushed
    else if s[0] in separators then
      var rest := SplitPending(s[1..], separators, []);
      ConcatAppend(flushed, rest);
      assert Concat(flushed) == pending;
      flushed + rest
    else
      var rest := SplitPending(s[1..], separators, pending + [s[0]]);
      assert pending + [s[0]] + Without(s[1..], separators) == pending + Without(s, separators);
      rest
  }

  /** `fields` joined with `sep` between neighbours. */
  function JoinWith(fields: seq<string>, sep: char): string
    requires |fields| >= 1
  {
    if |fields| == 1 then fields[0] else fields[0] + [sep] + JoinWith(fields[1..], sep)
  }

  /** `s` cut at every `sep`, empty pieces kept (what a receiver does with
      the form data). */
  function SplitOn(s: string, sep: char): (r: seq<string>)
    ensures |r| >= 1
  {
    if |s| == 0 then [""]
    else if s[0] == sep then [""] + SplitOn(s[1..], sep)
    else
      var rest := SplitOn(s[1..], sep);
      [[s[0]] + rest[0]] + rest[1..]
  }

  lemma {:induction false} SplitOnAfterField(a: string, b: string, sep: char)
    requires sep !in a
    ensures SplitOn(a + [sep] + b, sep) == [a] + SplitOn(b, sep)
    decreases |a|
  {
    if |a| == 0 {
      assert a + [sep] + b == [sep] + b;
      assert ([sep] + b)[1..] == b;
    } else {
      assert (a + [sep] + b)[1..] == a[1..] + [sep] + b;
      SplitOnAfterField(a[1..], b, sep);
      assert [a[0]] + a[1..] == a;
    }
  }

  /** Cutting at a separator splits the pieces of both sides. */
  lemma {:induction false} SplitOnConcat(a: string, b: string, sep: char)
    ensures SplitOn(a + [sep] + b, sep) == SplitOn(a, sep) + SplitOn(b, sep)
    decreases |a|
  {
    if |a| == 0 {
      assert a + [sep] + b == [sep] + b;
      assert ([sep] + b)[1..] == b;
    } else {
      assert (a + [sep] + b)[1..] == a[1..] + [sep] + b;
      SplitOnConcat(a[1..], b, sep);
    }
  }

  lemma {:induction false} SplitOnField(a: string, sep: char)
    requires sep !in a
    ensures SplitOn(a, sep) == [a]
    decreases |a|
  {
    if |a| > 0 {
      SplitOnField(a[1..], sep);
      assert [a[0]] + a[1..] == a;
    }
  }

  /** Cutting joined fields at the separator gives the fields back, when no
      field holds the separator. */
  lemma {:induction false} SplitJoin(fields: seq<string>, sep: char)
    requires |fields| >= 1
    requires forall i :: 0 <= i < |fields| ==> sep !in fields[i]
    ensures SplitOn(JoinWith(fields, sep), sep) == fields
    decreases |fields|
  {
    if |fields| == 1 {
      SplitOnField(fields[0], sep);
    } else {
      SplitJoin(fields[1..], sep);
      SplitOnAfterField(fields[0], JoinWith(fields[1..], sep), sep);
      assert [fields[0]] + fields[1..] == fields;
    }
  }

  /** The white space `int.Parse` skips around a number. */
  predicate IsNumberWhite(c: char) {
    c == ' ' || ('\U{9}' <= c <= '\U{D}')
  }

  function TrimStartNumberWhite(s: string): (r: string)
    ensures |r| <= |s| && (r != [] ==> !IsNumberWhite(r[0]))
    ensures r == s[|s| - |r|..]
  {
    if s != [] && IsNumberWhite(s[0]) then TrimStartNumberWhite(s[1..]) else s
  }

  function TrimEndNumberWhite(s: string): (r: string)
    ensures |r| <= |s| && (r != [] ==> !IsNumberWhite(r[|r| - 1]))
    ensures r == s[..|r|]
  {
    if s != [] && IsNumberWhite(s[|s| - 1]) then TrimEndNumberWhite(s[..|s| - 1]) else s
  }

  /** `int.Parse` with the default number style: optional white space
      around an optionally signed run of decimal digits; anything else is a
      format error, and a value outside the `int` range an overflow. */
  function ParseInt32(s: string): (r: Outcome<int>)
    ensures r.Success? ==> INT32_MIN <= r.value <= INT32_MAX
    ensures r.Failure? ==> r.error in {Format, Overflow}
  {
    var t := TrimEndNumberWhite(TrimStartNumberWhite(s));
    var signed := t != [] && (t[0] == '-' || t[0] == '+');
    var digits := if signed then t[1..] else t;
    if digits == [] || !AllDigits(digits) then Failure(Format)
    else
      var v: int := if signed && t[0] == '-' then -(DigitsValue(digits) as int) else DigitsValue(digits);
      if v < INT32_MIN || v > INT32_MAX then Failure(Overflow) else Success(v)
  }

  /** Two numbers have the same text exactly when they are equal. */
  lemma NatToStringInjective(x: nat, y: nat)
    ensures NatToString(x) == NatToString(y) <==> x == y
  {
    NatToStringValue(x);
    NatToStringValue(y);
  }

  /** `int.Parse` reads back what `ToString` wrote for any `int` value that
      is not negative. */
  lemma ParseNatToString(n: nat)
    requires n <= INT32_MAX
    ensures ParseInt32(NatToString(n)) == Success(n)
  {
    var s := NatToString(n);
    assert !IsNumberWhite(s[0]) && !IsNumberWhite(s[|s| - 1]);
    assert TrimStartNumberWhite(s) == s;
    assert TrimEndNumberWhite(s) == s;
    NatToStringValue(n);
  }
}

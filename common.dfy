/** Values and string operations shared by the backend and the frontend model. */
module Common {

  datatype Option<T> = None | Some(value: T)

  /** A JavaScript value, as far as the application inspects it.
      Numbers are integers: the floating-point values of the source are not modelled. */
  datatype Js = Undefined | Null | Num(n: int) | Str(s: string) | Bool(b: bool)

  /** JavaScript truthiness: `undefined`, `null`, `0`, `""` and `false` are falsy. */
  predicate Truthy(v: Js)
  {
    match v
    case Undefined => false
    case Null => false
    case Num(n) => n != 0
    case Str(s) => s != ""
    case Bool(b) => b
  }

  /** `message || fallback` on a string. */
  function OrText(message: string, fallback: string): (r: string)
    ensures message != "" ==> r == message
    ensures message == "" ==> r == fallback
  {
    if message != "" then message else fallback
  }

  function Min(a: int, b: int): int { if a <= b then a else b }
  function Max(a: int, b: int): int { if a <= b then b else a }

  /** The elements of `xs` that satisfy `p`, in their original order (a `WHERE` clause). */
  function Filter<T(!new)>(xs: seq<T>, p: T -> bool): (r: seq<T>)
    ensures |r| <= |xs|
    ensures forall x :: x in r <==> x in xs && p(x)
  {
    if xs == [] then []
    else
      assert xs == [xs[0]] + xs[1..];
      (if p(xs[0]) then [xs[0]] else []) + Filter(xs[1..], p)
  }

  /** Filtering keeps every element that satisfies `p` as often as it occurs, and nothing else. */
  lemma {:induction false} FilterMultiplicity<T(!new)>(xs: seq<T>, p: T -> bool, x: T)
    ensures multiset(Filter(xs, p))[x] == if p(x) then multiset(xs)[x] else 0
  {
    if xs != [] {
      assert xs == [xs[0]] + xs[1..];
      FilterMultiplicity(xs[1..], p, x);
    }
  }

  /** A filter every element passes keeps the whole sequence (`WHERE 1=1` alone). */
  lemma {:induction false} FilterAll<T(!new)>(xs: seq<T>, p: T -> bool)
    requires forall x :: x in xs ==> p(x)
    ensures Filter(xs, p) == xs
  {
    if xs != [] {
      assert xs == [xs[0]] + xs[1..];
      FilterAll(xs[1..], p);
    }
  }

  /** Lower-casing of one character; only the ASCII letters are folded. */
  function LowerChar(c: char): char
  {
    if 'A' <= c <= 'Z' then (c as int + 32) as char else c
  }

  /** `String.prototype.toLowerCase`, restricted to ASCII letters. */
  function ToLower(s: string): (r: string)
  {
    seq(|s|, i requires 0 <= i < |s| => LowerChar(s[i]))
  }

  /** `pat` occurs in `s` starting at index `i`. */
  predicate OccursAt(s: string, pat: string, i: int)
  {
    0 <= i && i + |pat| <= |s| && s[i..i + |pat|] == pat
  }

  /** The first index at or after `from` where `pat` occurs in `s`. */
  function IndexOfFrom(s: string, pat: string, from: nat): (r: Option<nat>)
    decreases |s| - from
    ensures r.Some? ==> from <= r.value && OccursAt(s, pat, r.value)
    ensures r.Some? ==> forall j :: from <= j < r.value ==> !OccursAt(s, pat, j)
    ensures r.None? ==> forall j :: from <= j ==> !OccursAt(s, pat, j)
  {
    if from + |pat| > |s| then None
    else if s[from..from + |pat|] == pat then Some(from)
    else IndexOfFrom(s, pat, from + 1)
  }

  /** `String.prototype.indexOf`: the first occurrence of `pat` in `s`. */
  function IndexOf(s: string, pat: string): (r: Option<nat>)
    ensures r.Some? ==> OccursAt(s, pat, r.value) && forall j :: 0 <= j < r.value ==> !OccursAt(s, pat, j)
    ensures r.None? ==> forall j :: !OccursAt(s, pat, j)
  {
    IndexOfFrom(s, pat, 0)
  }

  /** `s.replace(pat, rep)` with a string pattern: only the first occurrence is replaced. */
  function ReplaceFirst(s: string, pat: string, rep: string): (r: string)
  {
    match IndexOf(s, pat)
    case None => s
    case Some(i) => s[..i] + rep + s[i + |pat|..]
  }

  /** A `LIKE '%text%'` test: `text` occurs somewhere in `field`. */
  predicate Mentions(field: string, text: string)
  {
    IndexOf(field, text).Some?
  }

  /** How many times character `c` occurs in `s`. */
  function CountChar(s: string, c: char): (n: nat)
    ensures n <= |s|
  {
    if s == [] then 0 else (if s[0] == c then 1 else 0) + CountChar(s[1..], c)
  }

  lemma {:induction false} CountCharAppend(a: string, b: string, c: char)
    ensures CountChar(a + b, c) == CountChar(a, c) + CountChar(b, c)
  {
    if a == [] {
      assert a + b == b;
    } else {
      assert (a + b)[1..] == a[1..] + b;
      CountCharAppend(a[1..], b, c);
    }
  }

  /** Replacing the first occurrence of a one-character pattern removes exactly one occurrence
      of it, and leaves every other character where it was. */
  lemma ReplaceFirstCharCount(s: string, c: char, d: char)
    requires c != d
    ensures Mentions(s, [c]) ==> CountChar(ReplaceFirst(s, [c], [d]), c) == CountChar(s, c) - 1
    ensures !Mentions(s, [c]) ==> ReplaceFirst(s, [c], [d]) == s && CountChar(s, c) == 0
    ensures |ReplaceFirst(s, [c], [d])| == |s|
  {
    match IndexOf(s, [c])
    case None =>
      NoOccurrenceCount(s, c);
    case Some(i) =>
      assert s == s[..i] + [c] + s[i + 1..] by {
        assert s[i..i + 1] == [c];
      }
      CountCharAppend(s[..i] + [c], s[i + 1..], c);
      CountCharAppend(s[..i], [c], c);
      CountCharAppend(s[..i] + [d], s[i + 1..], c);
      CountCharAppend(s[..i], [d], c);
  }

  lemma {:induction false} NoOccurrenceCount(s: string, c: char)
    requires forall j :: !OccursAt(s, [c], j)
    ensures CountChar(s, c) == 0
  {
    if s != [] {
      assert !OccursAt(s, [c], 0);
      assert s[0..1] == [s[0]];
      forall j ensures !OccursAt(s[1..], [c], j) {
        assert !OccursAt(s, [c], j + 1);
      }
      NoOccurrenceCount(s[1..], c);
    }
  }

  // ----- string length, as JavaScript and as the request validator measure it -----

  /** A character outside the Basic Multilingual Plane, which JavaScript stores as a
      surrogate pair of two code units. */
  predicate IsAstral(c: char) { c as int >= 0x1_0000 }

  /** U+FE0E and U+FE0F, the text and emoji presentation selectors. */
  predicate IsPresentationSelector(c: char) { c == '\U{FE0E}' || c == '\U{FE0F}' }

  /** How many characters of `s` satisfy `p`. */
  function CountWhere(s: string, p: char -> bool): (n: nat)
    ensures n <= |s|
  {
    if s == [] then 0 else (if p(s[0]) then 1 else 0) + CountWhere(s[1..], p)
  }

  lemma {:induction false} CountWhereAppend(a: string, b: string, p: char -> bool)
    ensures CountWhere(a + b, p) == CountWhere(a, p) + CountWhere(b, p)
  {
    if a == [] {
      assert a + b == b;
    } else {
      assert (a + b)[1..] == a[1..] + b;
      CountWhereAppend(a[1..], b, p);
    }
  }

  /** `s.length`: UTF-16 code units, two for each astral character. */
  function Utf16Length(s: string): (n: nat)
    ensures n == |s| + CountWhere(s, IsAstral)
  {
    if s == [] then 0 else (if IsAstral(s[0]) then 2 else 1) + Utf16Length(s[1..])
  }

  /** The request validator's `isLength`: `s.length`, less one for each surrogate pair and one
      for each presentation selector. It never exceeds the number of characters. */
  function ValidatorLength(s: string): (n: int)
    ensures n == |s| - CountWhere(s, IsPresentationSelector)
    ensures 0 <= n <= |s| <= Utf16Length(s)
  {
    Utf16Length(s) - CountWhere(s, IsAstral) - CountWhere(s, IsPresentationSelector)
  }

  /** The decimal digits of a natural number. */
  function DigitsOf(n: nat): (s: string)
    ensures |s| >= 1
    ensures forall i :: 0 <= i < |s| ==> '0' <= s[i] <= '9'
  {
    if n < 10 then [('0' as int + n) as char]
    else DigitsOf(n / 10) + [('0' as int + n % 10) as char]
  }

  /** An integer as a template literal prints it. */
  function NumberText(n: int): string
  {
    if n < 0 then "-" + DigitsOf(-n) else DigitsOf(n)
  }

  predicate IsDigit(c: char) { '0' <= c <= '9' }

  predicate AllDigits(d: string) { forall i :: 0 <= i < |d| ==> IsDigit(d[i]) }

  /** The value of a run of decimal digits. */
  function DigitsValue(d: string): (n: nat)
    requires AllDigits(d)
  {
    if d == [] then 0 else DigitsValue(d[..|d| - 1]) * 10 + (d[|d| - 1] as int - '0' as int)
  }

  /** The digits after an optional leading sign. */
  function Unsigned(t: string): string
  {
    if |t| > 0 && (t[0] == '+' || t[0] == '-') then t[1..] else t
  }

  /** The validator's `isInt` text shape (leading zeroes allowed): an optional sign followed by
      one or more digits. */
  predicate IsIntText(t: string)
  {
    |Unsigned(t)| > 0 && AllDigits(Unsigned(t))
  }

  /** `Number(t)` of an integer text. */
  function IntTextValue(t: string): (n: int)
    requires IsIntText(t)
  {
    var v: int := DigitsValue(Unsigned(t));
    if t[0] == '-' then -v else v
  }

  lemma {:induction false} DigitsRoundTrip(n: nat)
    ensures AllDigits(DigitsOf(n)) && DigitsValue(DigitsOf(n)) == n
  {
    var d := DigitsOf(n);
    if n >= 10 {
      DigitsRoundTrip(n / 10);
      assert d[..|d| - 1] == DigitsOf(n / 10);
    }
  }

  /** A printed integer reads back as an integer text with the same value. */
  lemma NumberTextRoundTrip(n: int)
    ensures IsIntText(NumberText(n)) && IntTextValue(NumberText(n)) == n
  {
    if n < 0 {
      DigitsRoundTrip(-n);
      assert NumberText(n)[1..] == DigitsOf(-n);
    } else {
      DigitsRoundTrip(n);
    }
  }
}

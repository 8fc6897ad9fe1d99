/**
 * The JavaScript string operations the bot relies on: `split(" ")`, `trim()`,
 * `toLowerCase()`, `startsWith`, the `/^[0-9]/` test and the decimal rendering
 * of numbers inside template literals.
 */
module Text {

  /** The characters `String.prototype.trim` removes: white space and line terminators. */
  predicate IsJsWhitespace(c: char) {
    || ('\t' <= c <= '\r') || c == ' ' || c == '\U{00A0}' || c == '\U{1680}'
    || ('\U{2000}' <= c <= '\U{200A}') || c == '\U{2028}' || c == '\U{2029}'
    || c == '\U{202F}' || c == '\U{205F}' || c == '\U{3000}' || c == '\U{FEFF}'
  }

  /** `s.trim()`: what is left of `s` once leading and trailing white space is cut off. */
  function Trim(s: string): string {
    var i := LeadingWhitespace(s);
    s[i..i + TrailingWhitespaceStart(s[i..])]
  }

  /**
   * `Trim` cuts a run of white space from each end and nothing else: what is
   * left neither starts nor ends with white space, and it is empty exactly
   * when `s` is all white space.
   */
  lemma TrimCutsWhitespace(s: string)
    ensures exists i, j :: 0 <= i <= j <= |s| && Trim(s) == s[i..j]
                           && (forall k | 0 <= k < i :: IsJsWhitespace(s[k]))
                           && (forall k | j <= k < |s| :: IsJsWhitespace(s[k]))
    ensures Trim(s) != [] ==> !IsJsWhitespace(Trim(s)[0]) && !IsJsWhitespace(Trim(s)[|Trim(s)| - 1])
    ensures Trim(s) == [] <==> forall k | 0 <= k < |s| :: IsJsWhitespace(s[k])
  {
    var i := LeadingWhitespace(s);
    var t := s[i..];
    var n := TrailingWhitespaceStart(t);
    var j := i + n;
    assert Trim(s) == t[..n] == s[i..j];
    forall k | j <= k < |s|
      ensures IsJsWhitespace(s[k])
    {
      assert s[k] == t[k - i];
    }
    if Trim(s) != [] {
      assert Trim(s)[0] == s[i];
      assert Trim(s)[|Trim(s)| - 1] == t[n - 1];
    } else {
      assert i == |s|;
    }
  }

  /** The length of the run of white space at the start of `s`. */
  function LeadingWhitespace(s: string): (i: nat)
    ensures i <= |s|
    ensures forall k | 0 <= k < i :: IsJsWhitespace(s[k])
    ensures i < |s| ==> !IsJsWhitespace(s[i])
  {
    if s == [] || !IsJsWhitespace(s[0]) then 0 else 1 + LeadingWhitespace(s[1..])
  }

  /** Where the run of white space at the end of `s` begins. */
  function TrailingWhitespaceStart(s: string): (j: nat)
    ensures j <= |s|
    ensures forall k | j <= k < |s| :: IsJsWhitespace(s[k])
    ensures j > 0 ==> !IsJsWhitespace(s[j - 1])
  {
    if s == [] || !IsJsWhitespace(s[|s| - 1]) then |s| else TrailingWhitespaceStart(s[..|s| - 1])
  }

  /** Glues pieces back together with `sep` between neighbours: `parts.join(sep)`. */
  function Join(parts: seq<string>, sep: char): string
    requires |parts| >= 1
  {
    if |parts| == 1 then parts[0] else parts[0] + [sep] + Join(parts[1..], sep)
  }

  /**
   * `s.split(sep)` for a one-character separator: the pieces between separators,
   * empty pieces included, so that joining them back gives `s`.
   */
  function Split(s: string, sep: char): (parts: seq<string>)
    ensures |parts| >= 1
    ensures forall i | 0 <= i < |parts| :: sep !in parts[i]
    ensures Join(parts, sep) == s
  {
    if s == [] then [""]
    else
      var rest := Split(s[1..], sep);
      if s[0] == sep then
        assert [""] + rest == [""] + rest;
        [""] + rest
      else
        assert s == [s[0]] + s[1..];
        [[s[0]] + rest[0]] + rest[1..]
  }

  /** The number of occurrences of `c` in `s`. */
  function Count(s: string, c: char): nat {
    if s == [] then 0 else (if s[0] == c then 1 else 0) + Count(s[1..], c)
  }

  /** `s.split(sep)` has one piece more than `s` has separators. */
  lemma {:induction false} SplitLength(s: string, sep: char)
    ensures |Split(s, sep)| == Count(s, sep) + 1
  {
    if s != [] {
      SplitLength(s[1..], sep);
    }
  }

  /** `/^[0-9]/.test(w)`. */
  predicate StartsWithDigit(w: string) {
    |w| > 0 && '0' <= w[0] <= '9'
  }

  /**
   * `toLowerCase` for one character, on the characters whose lower-case form is
   * ASCII: the letters A to Z and the Kelvin sign U+212A, which becomes `k`.
   */
  function LowerChar(c: char): (r: char)
    ensures 'A' <= c <= 'Z' ==> r as int == c as int + 32
    ensures !('A' <= c <= 'Z') && c != '\U{212A}' ==> r == c
  {
    if 'A' <= c <= 'Z' then (c as int + 32) as char
    else if c == '\U{212A}' then 'k'
    else c
  }

  function Lower(s: string): (r: string)
    ensures |r| == |s|
    ensures forall i | 0 <= i < |s| :: r[i] == LowerChar(s[i])
  {
    if s == [] then [] else [LowerChar(s[0])] + Lower(s[1..])
  }

  predicate StartsWith(s: string, prefix: string) {
    prefix <= s
  }

  function DigitChar(d: nat): char
    requires d < 10
  {
    ('0' as int + d) as char
  }

  /** The decimal form of a natural number, as a template literal prints it. */
  function NatToString(n: nat): (r: string)
    ensures |r| >= 1
    ensures forall i | 0 <= i < |r| :: '0' <= r[i] <= '9'
    ensures n > 0 ==> r[0] != '0'
    decreases n
  {
    if n < 10 then [DigitChar(n)] else NatToString(n / 10) + [DigitChar(n % 10)]
  }

  /** The value of a string of decimal digits: the inverse of `NatToString`. */
  function DigitsValue(s: string): int {
    if s == [] then 0 else DigitsValue(s[..|s| - 1]) * 10 + (s[|s| - 1] as int - '0' as int)
  }

  lemma {:induction false} NatToStringRoundTrip(n: nat)
    ensures DigitsValue(NatToString(n)) == n
    decreases n
  {
    if n >= 10 {
      NatToStringRoundTrip(n / 10);
      var s := NatToString(n);
      assert s[..|s| - 1] == NatToString(n / 10);
    }
  }

  /** Different numbers print differently, so decimal strings can serve as distinct keys. */
  lemma NatToStringInjective()
    ensures forall m: nat, n: nat {:trigger NatToString(m), NatToString(n)} :: NatToString(m) == NatToString(n) ==> m == n
  {
    forall m: nat, n: nat | NatToString(m) == NatToString(n)
      ensures m == n
    {
      NatToStringRoundTrip(m);
      NatToStringRoundTrip(n);
    }
  }

  function IntToString(i: int): (r: string)
    ensures |r| >= 1
    ensures i < 0 <==> r[0] == '-'
  {
    if i < 0 then "-" + NatToString(-i) else NatToString(i)
  }

  /**
   * The text a `forEach` loop builds by appending `line(x)` for each element `x`
   * of `xs`, in order: `xs.forEach(x => { acc += line(x) })` starting from `""`.
   */
  function Lines<T>(xs: seq<T>, line: T -> string): string
    decreases |xs|
  {
    if xs == [] then "" else Lines(xs[..|xs| - 1], line) + line(xs[|xs| - 1])
  }

  /**
   * `xs.forEach(x => { acc += line(x) })`: appends the line of every element
   * of `xs`, in order, to `acc`.
   */
  method AppendLines<T>(acc: string, xs: seq<T>, line: T -> string) returns (r: string)
    ensures r == acc + Lines(xs, line)
  {
    r := acc;
    var i := 0;
    while i < |xs|
      invariant 0 <= i <= |xs|
      invariant r == acc + Lines(xs[..i], line)
    {
      assert xs[..i + 1][..i] == xs[..i];
      AppendAssoc(acc, Lines(xs[..i], line), line(xs[i]));
      r := r + line(xs[i]);
      i := i + 1;
    }
    assert xs[..i] == xs;
  }

  /** The lines of two lists put together are the lines of the first followed by those of the second. */
  lemma {:induction false} LinesAppend<T>(xs: seq<T>, ys: seq<T>, line: T -> string)
    ensures Lines(xs + ys, line) == Lines(xs, line) + Lines(ys, line)
    decreases |ys|
  {
    if ys != [] {
      var zs := xs + ys;
      assert zs[..|zs| - 1] == xs + ys[..|ys| - 1];
      LinesAppend(xs, ys[..|ys| - 1], line);
    } else {
      assert xs + ys == xs;
    }
  }

  /** Element `i` contributes its line right after the lines of the elements before it. */
  lemma LinesAt<T>(xs: seq<T>, i: nat, line: T -> string)
    requires i < |xs|
    ensures Lines(xs, line) == Lines(xs[..i], line) + line(xs[i]) + Lines(xs[i + 1..], line)
  {
    var front := xs[..i + 1];
    assert xs == front + xs[i + 1..];
    LinesAppend(front, xs[i + 1..], line);
    assert front[..i] == xs[..i];
  }

  /** Appending to a string keeps it as a prefix. */
  lemma PrefixAppend(a: string, b: string)
    ensures a <= a + b
  {
    assert (a + b)[..|a|] == a;
  }

  /** A common front part keeps a prefix a prefix. */
  lemma PrefixUnder(a: string, b: string, c: string)
    requires b <= c
    ensures a + b <= a + c
  {
    assert c == b + c[|b|..];
    assert a + c == (a + b) + c[|b|..];
    PrefixAppend(a + b, c[|b|..]);
  }

  lemma AppendAssoc<T>(a: seq<T>, b: seq<T>, c: seq<T>)
    ensures a + (b + c) == (a + b) + c
  {
  }

  /** A text with a separator in it is its first piece, the separator, and the rest. */
  lemma SplitHead(s: string, sep: char)
    requires |Split(s, sep)| >= 2
    ensures s == Split(s, sep)[0] + [sep] + Join(Split(s, sep)[1..], sep)
  {
  }

  lemma LowerAppend(a: string, b: string)
    ensures Lower(a + b) == Lower(a) + Lower(b)
  {
    assert forall i | 0 <= i < |a + b| :: Lower(a + b)[i] == (Lower(a) + Lower(b))[i];
  }
}

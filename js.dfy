/** JavaScript string and array primitives that the application relies on,
    with the edge cases of the ECMAScript built-ins written out. */
module Js {

  datatype Option<+T> = None | Some(value: T)

  /** `s.startsWith(prefix)` */
  predicate StartsWith(s: string, prefix: string) {
    |prefix| <= |s| && s[..|prefix|] == prefix
  }

  /** `s.endsWith(suffix)` */
  predicate EndsWith(s: string, suffix: string) {
    |suffix| <= |s| && s[|s| - |suffix|..] == suffix
  }

  /** `s.includes(sub)`: `sub` occurs somewhere in `s` as a contiguous run. */
  predicate Includes(s: string, sub: string)
    decreases |s|
  {
    StartsWith(s, sub) || (|s| > 0 && Includes(s[1..], sub))
  }

  /** An occurrence of `sub` at position `i` of `s` witnesses `s.includes(sub)`. */
  lemma {:induction false} IncludesAt(s: string, sub: string, i: nat)
    requires i + |sub| <= |s| && s[i..i + |sub|] == sub
    ensures Includes(s, sub)
    decreases i
  {
    if i > 0 {
      assert s[1..][i - 1..i - 1 + |sub|] == s[i..i + |sub|];
      IncludesAt(s[1..], sub, i - 1);
    }
  }

  /** ASCII upper-case letters map to lower case; every other character is kept.
      A regular expression with the `i` flag and no `u` flag folds exactly these
      letters when the pattern is ASCII. */
  function LowerChar(c: char): (r: char)
    ensures 'A' <= c <= 'Z' ==> 'a' <= r <= 'z' && r as int == c as int + 32
    ensures !('A' <= c <= 'Z') ==> r == c
  {
    if 'A' <= c <= 'Z' then (c as int + 32) as char else c
  }

  function LowerAscii(s: string): (r: string)
    ensures |r| == |s|
    ensures forall i :: 0 <= i < |s| ==> r[i] == LowerChar(s[i])
  {
    seq(|s|, i requires 0 <= i < |s| => LowerChar(s[i]))
  }

  /** The relative-index rule of `Array.prototype.slice` and `String.prototype.slice`:
      a negative index counts from the end, and the result is clamped to [0, len]. */
  function RelativeIndex(i: int, len: nat): (r: nat)
    ensures r <= len
    ensures 0 <= i <= len ==> r == i
    ensures i > len ==> r == len
    ensures i < 0 ==> r == if len + i < 0 then 0 else len + i
  {
    if i < 0 then (if len + i < 0 then 0 else len + i) else if i > len then len else i
  }

  /** `s.slice(start, end)`. */
  function Slice<T>(s: seq<T>, start: int, end: int): (r: seq<T>)
    ensures |r| <= |s|
    ensures 0 <= start <= end <= |s| ==> r == s[start..end]
    ensures 0 <= end <= start ==> r == []
  {
    var from, to := RelativeIndex(start, |s|), RelativeIndex(end, |s|);
    if from < to then s[from..to] else []
  }

  /** The characters `String.prototype.trim` removes: WhiteSpace and LineTerminator
      of the ECMAScript grammar (tab, vertical tab, form feed, space, no-break space,
      byte order mark, the space separators of Unicode category Zs, line feed,
      carriage return, line separator, paragraph separator). */
  predicate IsWhitespace(c: char) {
    c == '\t' || c == '\n' || c == '\U{000B}' || c == '\U{000C}' || c == '\r' || c == ' '
    || c == '\U{00A0}' || c == '\U{1680}' || ('\U{2000}' <= c <= '\U{200A}')
    || c == '\U{2028}' || c == '\U{2029}' || c == '\U{202F}' || c == '\U{205F}'
    || c == '\U{3000}' || c == '\U{FEFF}'
  }

  /** Drops leading whitespace: the result is a suffix of `s`, starts with a
      non-whitespace character (or is empty), and everything dropped is whitespace. */
  function TrimStart(s: string): (r: string)
    ensures |r| <= |s| && r == s[|s| - |r|..]
    ensures r != [] ==> !IsWhitespace(r[0])
    ensures forall i :: 0 <= i < |s| - |r| ==> IsWhitespace(s[i])
  {
    if |s| > 0 && IsWhitespace(s[0]) then TrimStart(s[1..]) else s
  }

  /** Drops trailing whitespace: the result is a prefix of `s`, ends with a
      non-whitespace character (or is empty), and everything dropped is whitespace. */
  function TrimEnd(s: string): (r: string)
    ensures |r| <= |s| && r == s[..|r|]
    ensures r != [] ==> !IsWhitespace(r[|r| - 1])
    ensures forall i :: |r| <= i < |s| ==> IsWhitespace(s[i])
  {
    if |s| > 0 && IsWhitespace(s[|s| - 1]) then TrimEnd(s[..|s| - 1]) else s
  }

  /** `s.trim()`: leading and trailing whitespace removed, so the result
      neither starts nor ends with whitespace. */
  function Trim(s: string): (r: string)
    ensures |r| <= |s|
    ensures r != [] ==> !IsWhitespace(r[0]) && !IsWhitespace(r[|r| - 1])
  {
    var t := TrimStart(s);
    var r := TrimEnd(t);
    assert r != [] ==> r[0] == t[0];
    r
  }

  /** Where `Trim(s)` starts in `s`. */
  function TrimOffset(s: string): nat {
    |s| - |TrimStart(s)|
  }

  /** `s.trim()` is the run of `s` from the first to the last non-whitespace
      character, an infix of `s`. */
  lemma TrimInfix(s: string)
    ensures TrimOffset(s) + |Trim(s)| <= |s|
    ensures Trim(s) == s[TrimOffset(s)..TrimOffset(s) + |Trim(s)|]
  {
    var t := TrimStart(s);
    var r := TrimEnd(t);
    assert t[..|r|] == s[TrimOffset(s)..TrimOffset(s) + |r|];
  }

  /** Everything `s.trim()` drops on either side is whitespace. */
  lemma TrimDropsWhitespace(s: string)
    ensures TrimOffset(s) + |Trim(s)| <= |s|
    ensures forall i :: 0 <= i < TrimOffset(s) ==> IsWhitespace(s[i])
    ensures forall i :: TrimOffset(s) + |Trim(s)| <= i < |s| ==> IsWhitespace(s[i])
  {
    TrimInfix(s);
    var off := TrimOffset(s);
    var t := TrimStart(s);
    var r := TrimEnd(t);
    forall i | off + |r| <= i < |s| ensures IsWhitespace(s[i]) {
      assert s[i] == t[i - off];
    }
  }

  /** `xs.filter(f)`: the elements that pass, in their original order. */
  function Filter<T>(xs: seq<T>, f: T -> bool): (r: seq<T>)
    ensures |r| <= |xs|
    ensures forall i :: 0 <= i < |r| ==> r[i] in xs && f(r[i])
    ensures forall i :: 0 <= i < |xs| && f(xs[i]) ==> xs[i] in r
  {
    if xs == [] then [] else (if f(xs[0]) then [xs[0]] else []) + Filter(xs[1..], f)
  }

  /** Filtering distributes over concatenation, which is what keeps the
      relative order of the kept elements. */
  lemma {:induction false} FilterConcat<T>(a: seq<T>, b: seq<T>, f: T -> bool)
    ensures Filter(a + b, f) == Filter(a, f) + Filter(b, f)
    decreases |a|
  {
    if a == [] {
      assert a + b == b;
    } else {
      var head := if f(a[0]) then [a[0]] else [];
      assert (a + b)[0] == a[0];
      assert (a + b)[1..] == a[1..] + b;
      FilterConcat(a[1..], b, f);
      calc {
        Filter(a + b, f);
        head + Filter(a[1..] + b, f);
        head + (Filter(a[1..], f) + Filter(b, f));
        (head + Filter(a[1..], f)) + Filter(b, f);
      }
    }
  }

  /** A filter every element passes returns the sequence itself. */
  lemma {:induction false} FilterAll<T>(xs: seq<T>, f: T -> bool)
    requires forall i :: 0 <= i < |xs| ==> f(xs[i])
    ensures Filter(xs, f) == xs
    decreases |xs|
  {
    if xs != [] {
      FilterAll(xs[1..], f);
    }
  }

  /** A filter no element passes returns nothing. */
  lemma {:induction false} FilterNone<T>(xs: seq<T>, f: T -> bool)
    requires forall i :: 0 <= i < |xs| ==> !f(xs[i])
    ensures Filter(xs, f) == []
    decreases |xs|
  {
    if xs != [] {
      FilterNone(xs[1..], f);
    }
  }

  /** The ASCII decimal digits, the class `\d` of a regular expression. */
  predicate IsDigit(c: char) {
    '0' <= c <= '9'
  }

  /** `s.replace(/\D/g, "")`: every non-digit removed. */
  function DigitsOf(s: string): (r: string)
    ensures forall i :: 0 <= i < |r| ==> IsDigit(r[i])
  {
    Filter(s, IsDigit)
  }

  /** The value of a run of decimal digits, as `parseInt` reads it. */
  function DigitsValue(ds: string): nat
    requires forall i :: 0 <= i < |ds| ==> IsDigit(ds[i])
  {
    if ds == [] then 0
    else
      assert IsDigit(ds[|ds| - 1]);
      DigitsValue(ds[..|ds| - 1]) * 10 + (ds[|ds| - 1] as int - '0' as int)
  }

  /** `String(n)` for a non-negative integer: its decimal digits, with no
      leading zero. */
  function NatToString(n: nat): (r: string)
    ensures r != [] && (forall i :: 0 <= i < |r| ==> IsDigit(r[i]))
    ensures r[0] == '0' ==> n == 0
  {
    var d := ['0' + (n % 10) as char];
    if n < 10 then d else NatToString(n / 10) + d
  }

  /** Reading back the digits of `String(n)` gives `n`. */
  lemma {:induction false} NatToStringValue(n: nat)
    ensures DigitsValue(NatToString(n)) == n
  {
    var r := NatToString(n);
    if n >= 10 {
      NatToStringValue(n / 10);
      assert r[..|r| - 1] == NatToString(n / 10);
    }
  }
}

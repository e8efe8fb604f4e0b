/**
 * Text helpers shared by the printer and the cache: decimal rendering and
 * parsing (Rust's `{}`/`{:02}` formatting and `u32::from_str`), splitting a
 * string on a separator (Rust's `str::split`) and replacing one character
 * by another (Rust's `str::replace` with one-character patterns).
 */
module Text {
  import opened Wrappers

  const U32_MAX: nat := 0xFFFF_FFFF

  predicate IsDigit(c: char) {
    '0' <= c <= '9'
  }

  predicate AllDigits(s: string) {
    forall i :: 0 <= i < |s| ==> IsDigit(s[i])
  }

  function DigitChar(d: nat): (c: char)
    requires d < 10
    ensures IsDigit(c) && c as int - '0' as int == d
  {
    ('0' as int + d) as char
  }

  /** The number a string of decimal digits denotes (leading zeros allowed). */
  function DigitsValue(s: string): nat
    requires AllDigits(s)
  {
    if s == [] then 0
    else 10 * DigitsValue(s[..|s| - 1]) + (s[|s| - 1] as int - '0' as int)
  }

  /** Rust's `{}` rendering of an unsigned number: digits, no leading zero. */
  function Decimal(n: nat): (s: string)
    ensures |s| >= 1 && AllDigits(s)
    ensures s[0] == '0' ==> n == 0
  {
    if n < 10 then [DigitChar(n)] else Decimal(n / 10) + [DigitChar(n % 10)]
  }

  lemma {:induction false} DecimalRoundTrip(n: nat)
    ensures DigitsValue(Decimal(n)) == n
  {
    if n >= 10 {
      var s := Decimal(n);
      assert s[..|s| - 1] == Decimal(n / 10);
      DecimalRoundTrip(n / 10);
    }
  }

  lemma {:induction false} LeadingZero(s: string)
    requires AllDigits(s)
    ensures AllDigits("0" + s) && DigitsValue("0" + s) == DigitsValue(s)
  {
    if s != [] {
      var t := "0" + s;
      assert t[..|t| - 1] == "0" + s[..|s| - 1];
      LeadingZero(s[..|s| - 1]);
    }
  }

  /** Rust's `{:02}`: the decimal digits, zero-padded to at least two places. */
  function Pad2(n: nat): (s: string)
    ensures AllDigits(s) && DigitsValue(s) == n
    ensures |s| >= 2 && (n < 100 ==> |s| == 2)
  {
    DecimalRoundTrip(n);
    if n < 10 then LeadingZero(Decimal(n)); "0" + Decimal(n) else Decimal(n)
  }

  /**
   * Rust's `u32::from_str`: an optional `+`, then one or more decimal digits
   * whose value fits in 32 bits. Anything else (the empty string, a lone `+`,
   * a `-`, any other character, an overflow) is `None`.
   */
  function ParseU32(s: string): (r: Option<nat>)
    ensures r.Some? ==> r.value <= U32_MAX
  {
    var digits := if |s| > 0 && s[0] == '+' then s[1..] else s;
    if |digits| == 0 || !AllDigits(digits) then None
    else if DigitsValue(digits) <= U32_MAX then Some(DigitsValue(digits))
    else None
  }

  lemma ParseU32Decimal(n: nat)
    requires n <= U32_MAX
    ensures ParseU32(Decimal(n)) == Some(n)
  {
    DecimalRoundTrip(n);
  }

  /** A character that is neither a digit nor a leading `+` makes the parse fail. */
  lemma ParseU32RejectsNonDigit(s: string, i: nat)
    requires i < |s| && !IsDigit(s[i]) && !(i == 0 && s[i] == '+')
    ensures ParseU32(s) == None
  {
    if |s| > 0 && s[0] == '+' {
      assert !IsDigit(s[1..][i - 1]);
    }
  }

  /** Index of the first occurrence of `c` in `s`. */
  function IndexOf(s: string, c: char): (i: nat)
    requires c in s
    ensures i < |s| && s[i] == c && c !in s[..i]
  {
    if s[0] == c then 0 else 1 + IndexOf(s[1..], c)
  }

  /** The pieces joined back with the separator between consecutive pieces. */
  function Join(parts: seq<string>, sep: char): string
    requires |parts| >= 1
  {
    if |parts| == 1 then parts[0] else parts[0] + [sep] + Join(parts[1..], sep)
  }

  /** Rust's `s.split(sep).collect::<Vec<_>>()`. */
  function SplitOn(s: string, sep: char): (parts: seq<string>)
    ensures |parts| >= 1 && Join(parts, sep) == s
    ensures forall i :: 0 <= i < |parts| ==> sep !in parts[i]
    ensures sep !in s ==> parts == [s]
    decreases |s|
  {
    if sep !in s then [s]
    else
      var i := IndexOf(s, sep);
      assert s == s[..i] + [sep] + s[i + 1..];
      [s[..i]] + SplitOn(s[i + 1..], sep)
  }

  /** Splitting undoes joining: pieces without the separator come back unchanged. */
  lemma {:induction false} SplitJoin(parts: seq<string>, sep: char)
    requires |parts| >= 1
    requires forall i :: 0 <= i < |parts| ==> sep !in parts[i]
    ensures SplitOn(Join(parts, sep), sep) == parts
  {
    if |parts| > 1 {
      SplitOnCons(parts[0], sep, Join(parts[1..], sep));
      SplitJoin(parts[1..], sep);
      assert parts == [parts[0]] + parts[1..];
    }
  }

  /** Splitting at a first piece that holds no separator peels that piece off. */
  lemma SplitOnCons(first: string, sep: char, rest: string)
    requires sep !in first
    ensures SplitOn(first + [sep] + rest, sep) == [first] + SplitOn(rest, sep)
  {
    var s := first + [sep] + rest;
    assert s[|first|] == sep;
    var i := IndexOf(s, sep);
    assert s[..i] == first;
    assert s[i + 1..] == rest;
  }

  /** Joining one more piece appends the separator and that piece. */
  lemma {:induction false} JoinSnoc(parts: seq<string>, last: string, sep: char)
    requires |parts| >= 1
    ensures Join(parts + [last], sep) == Join(parts, sep) + [sep] + last
  {
    if |parts| > 1 {
      assert (parts + [last])[1..] == parts[1..] + [last];
      JoinSnoc(parts[1..], last, sep);
    }
  }

  /** Each piece followed by the separator. */
  function Terminated(parts: seq<string>, sep: char): string {
    if parts == [] then [] else parts[0] + [sep] + Terminated(parts[1..], sep)
  }

  /** Each piece preceded by the separator. */
  function Prefixed(parts: seq<string>, sep: char): string {
    if parts == [] then [] else [sep] + parts[0] + Prefixed(parts[1..], sep)
  }

  lemma {:induction false} PrefixedAppend(xs: seq<string>, ys: seq<string>, sep: char)
    ensures Prefixed(xs + ys, sep) == Prefixed(xs, sep) + Prefixed(ys, sep)
  {
    if xs != [] {
      assert (xs + ys)[0] == xs[0] && (xs + ys)[1..] == xs[1..] + ys;
      PrefixedAppend(xs[1..], ys, sep);
      var head := [sep] + xs[0];
      assert Prefixed(xs + ys, sep) == head + (Prefixed(xs[1..], sep) + Prefixed(ys, sep));
      assert Prefixed(xs, sep) == head + Prefixed(xs[1..], sep);
      assert head + (Prefixed(xs[1..], sep) + Prefixed(ys, sep)) == (head + Prefixed(xs[1..], sep)) + Prefixed(ys, sep);
    } else {
      assert xs + ys == ys;
    }
  }

  /** A join is the first piece followed by each other piece after a separator. */
  lemma {:induction false} JoinAsPrefixed(parts: seq<string>, sep: char)
    requires |parts| >= 1
    ensures Join(parts, sep) == parts[0] + Prefixed(parts[1..], sep)
  {
    if |parts| > 1 {
      JoinAsPrefixed(parts[1..], sep);
      assert parts[1..][1..] == parts[2..];
      assert Prefixed(parts[1..], sep) == [sep] + parts[1] + Prefixed(parts[2..], sep);
    }
  }

  /** Joining pieces and then more pieces: the later ones each come after a separator. */
  lemma {:induction false} JoinThenPrefixed(xs: seq<string>, ys: seq<string>, sep: char)
    requires |xs| >= 1
    ensures Join(xs + ys, sep) == Join(xs, sep) + Prefixed(ys, sep)
  {
    if |xs| == 1 {
      JoinAsPrefixed(xs + ys, sep);
      assert (xs + ys)[0] == xs[0] && (xs + ys)[1..] == ys;
    } else {
      assert (xs + ys)[0] == xs[0] && (xs + ys)[1..] == xs[1..] + ys;
      JoinThenPrefixed(xs[1..], ys, sep);
      Regroup(xs[0] + [sep], Join(xs[1..], sep), Prefixed(ys, sep));
    }
  }

  lemma Regroup(a: string, b: string, c: string)
    ensures a + (b + c) == (a + b) + c
  {
  }

  /** Joining pieces and a last one: the earlier ones each come before a separator. */
  lemma {:induction false} TerminatedThenJoin(xs: seq<string>, last: string, sep: char)
    ensures Join(xs + [last], sep) == Terminated(xs, sep) + last
  {
    if xs != [] {
      assert (xs + [last])[1..] == xs[1..] + [last];
      TerminatedThenJoin(xs[1..], last, sep);
    }
  }

  /** Rust's `s.replace(from, to)` for one-character patterns. */
  function ReplaceChar(s: string, from: char, to: char): (r: string)
    ensures |r| == |s|
    ensures forall i :: 0 <= i < |s| ==> r[i] == if s[i] == from then to else s[i]
  {
    if s == [] then [] else [if s[0] == from then to else s[0]] + ReplaceChar(s[1..], from, to)
  }

  lemma ReplaceCharRemoves(s: string, from: char, to: char)
    requires from != to
    ensures from !in ReplaceChar(s, from, to)
  {
  }

  /** Replacing never introduces a character other than `to`. */
  lemma ReplaceCharKeepsOut(s: string, from: char, to: char, c: char)
    requires c !in s && c != to
    ensures c !in ReplaceChar(s, from, to)
  {
  }
}

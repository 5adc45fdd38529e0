/**
 * The string building blocks the mapper's messages are made of: `join` of a
 * list with a separator and its inverse `split`, the decimal rendering of an
 * unsigned integer (`usize` in `Display`) and its inverse, and `format!`
 * templates with the guarantee that every argument appears, in order, in the
 * rendered text.
 */
module Text {
  import opened Outcomes

  /** `[String]::join(sep)`: the elements with `sep` between neighbours; the empty list joins to "". */
  function Join(xs: seq<string>, sep: string): (r: string)
    decreases |xs|
  {
    if |xs| == 0 then ""
    else if |xs| == 1 then xs[0]
    else xs[0] + sep + Join(xs[1..], sep)
  }

  /** `str::split(c)`: the pieces between occurrences of `c`; "" splits into [""]. */
  function Split(s: string, c: char): (r: seq<string>)
    ensures |r| >= 1
    decreases |s|
  {
    if |s| == 0 then [""]
    else
      var rest := Split(s[1..], c);
      if s[0] == c then [""] + rest else [[s[0]] + rest[0]] + rest[1..]
  }

  lemma {:induction false} SplitWithoutSeparator(a: string, c: char)
    requires c !in a
    ensures Split(a, c) == [a]
    decreases |a|
  {
    if |a| > 0 {
      SplitWithoutSeparator(a[1..], c);
      assert a == [a[0]] + a[1..];
    }
  }

  lemma {:induction false} SplitAtFirstSeparator(a: string, b: string, c: char)
    requires c !in a
    ensures Split(a + [c] + b, c) == [a] + Split(b, c)
    decreases |a|
  {
    var s := a + [c] + b;
    if |a| == 0 {
      assert s[1..] == b;
    } else {
      assert s[1..] == a[1..] + [c] + b;
      SplitAtFirstSeparator(a[1..], b, c);
      assert a == [a[0]] + a[1..];
    }
  }

  /** Splitting a joined list on the separator gives the list back, when no element contains the separator. */
  lemma {:induction false} SplitJoin(xs: seq<string>, c: char)
    requires |xs| > 0
    requires forall i :: 0 <= i < |xs| ==> c !in xs[i]
    ensures Split(Join(xs, [c]), c) == xs
    decreases |xs|
  {
    if |xs| == 1 {
      SplitWithoutSeparator(xs[0], c);
    } else {
      SplitJoin(xs[1..], c);
      SplitAtFirstSeparator(xs[0], Join(xs[1..], [c]), c);
      assert xs == [xs[0]] + xs[1..];
    }
  }

  /** The largest value of Rust's `usize` on a 64-bit target, plus one. */
  const UsizeBound: int := 0x1_0000_0000_0000_0000

  type Usize = n: int | 0 <= n < UsizeBound

  predicate IsDigit(ch: char) {
    '0' <= ch <= '9'
  }

  function DigitChar(d: nat): (ch: char)
    requires d < 10
    ensures IsDigit(ch)
  {
    (d + '0' as int) as char
  }

  function DigitValue(ch: char): (d: nat)
    requires IsDigit(ch)
    ensures d < 10
  {
    ch as int - '0' as int
  }

  /** `Display` of an unsigned integer: its decimal digits, without leading zeros. */
  function Decimal(n: nat): (r: string)
    ensures |r| > 0
    ensures forall i :: 0 <= i < |r| ==> IsDigit(r[i])
    ensures r[0] == '0' ==> n == 0
    decreases n
  {
    if n < 10 then [DigitChar(n)] else Decimal(n / 10) + [DigitChar(n % 10)]
  }

  /** The number a string of decimal digits denotes. */
  function DigitsValue(s: string): (v: nat)
    requires forall i :: 0 <= i < |s| ==> IsDigit(s[i])
    decreases |s|
  {
    if |s| == 0 then 0 else DigitsValue(s[..|s| - 1]) * 10 + DigitValue(s[|s| - 1])
  }

  /** Reads a rendered unsigned integer back; `None` for anything that is not a non-empty digit string. */
  function ParseDecimal(s: string): (r: Option<nat>) {
    if |s| > 0 && forall i :: 0 <= i < |s| ==> IsDigit(s[i]) then Some(DigitsValue(s)) else None
  }

  lemma {:induction false} DecimalValue(n: nat)
    ensures DigitsValue(Decimal(n)) == n
    decreases n
  {
    if n >= 10 {
      var s := Decimal(n);
      assert s[..|s| - 1] == Decimal(n / 10);
      DecimalValue(n / 10);
    }
  }

  /** Reading a rendered number back yields the number. */
  lemma DecimalRoundTrip(n: nat)
    ensures ParseDecimal(Decimal(n)) == Some(n)
  {
    DecimalValue(n);
  }

  predicate StartsWith(s: string, prefix: string) {
    |prefix| <= |s| && s[..|prefix|] == prefix
  }

  predicate EndsWith(s: string, suffix: string) {
    |suffix| <= |s| && s[|s| - |suffix|..] == suffix
  }

  /** `s` is `front` immediately followed by `back`, with nothing between or around them. */
  predicate ConsistsOf(s: string, front: string, back: string) {
    StartsWith(s, front) && EndsWith(s, back) && |s| == |front| + |back|
  }

  /** Position of the first `c` in `s`, if any. */
  function IndexOf(s: string, c: char): (r: Option<nat>)
    ensures r.Some? ==> r.value < |s| && s[r.value] == c && c !in s[..r.value]
    ensures r.None? ==> c !in s
    decreases |s|
  {
    if |s| == 0 then None
    else if s[0] == c then Some(0)
    else
      match IndexOf(s[1..], c)
      case None => None
      case Some(k) =>
        assert s[..k + 1] == [s[0]] + s[1..][..k];
        Some(k + 1)
  }

  /**
   * A `format!` string with `|args|` placeholders: the literal pieces of the
   * template interleaved with the rendered arguments.
   */
  function Format(pieces: seq<string>, args: seq<string>): (r: string)
    requires |pieces| == |args| + 1
    ensures StartsWith(r, pieces[0])
    decreases |args|
  {
    if |args| == 0 then pieces[0] else pieces[0] + args[0] + Format(pieces[1..], args[1..])
  }

  /** `s` contains each of `parts` as a substring, the occurrences not overlapping and in the order given. */
  ghost predicate InOrder(s: string, parts: seq<string>)
    decreases |parts|
  {
    |parts| == 0 ||
    exists i, j :: 0 <= i <= j <= |s| && s[i..j] == parts[0] && InOrder(s[j..], parts[1..])
  }

  /** `part` occurs in `s`. */
  ghost predicate Contains(s: string, part: string) {
    InOrder(s, [part])
  }

  /** Every argument of a `format!` template appears in the rendered text, in order. */
  lemma {:induction false} FormatEmbedsArgs(pieces: seq<string>, args: seq<string>)
    requires |pieces| == |args| + 1
    ensures InOrder(Format(pieces, args), args)
    decreases |args|
  {
    if |args| > 0 {
      var s := Format(pieces, args);
      var rest := Format(pieces[1..], args[1..]);
      FormatEmbedsArgs(pieces[1..], args[1..]);
      var i := |pieces[0]|;
      var j := i + |args[0]|;
      assert s[i..j] == args[0];
      assert s[j..] == rest;
    }
  }

  /** A template with one placeholder, spelled out. */
  lemma FormatOneArg(pieces: seq<string>, args: seq<string>)
    requires |pieces| == 2 && |args| == 1
    ensures Format(pieces, args) == pieces[0] + args[0] + pieces[1]
  {
    assert Format(pieces[1..], args[1..]) == pieces[1];
  }

  /** A template with two placeholders, spelled out. */
  lemma FormatTwoArgs(pieces: seq<string>, args: seq<string>)
    requires |pieces| == 3 && |args| == 2
    ensures Format(pieces, args) == pieces[0] + args[0] + pieces[1] + args[1] + pieces[2]
  {
    var p1, a1 := pieces[1..], args[1..];
    assert p1[1..] == [pieces[2]] && a1[1..] == [];
    assert Format(p1[1..], a1[1..]) == pieces[2];
    assert Format(p1, a1) == pieces[1] + args[1] + pieces[2];
  }

  /** A template with three placeholders, spelled out. */
  lemma FormatThreeArgs(pieces: seq<string>, args: seq<string>)
    requires |pieces| == 4 && |args| == 3
    ensures Format(pieces, args) == pieces[0] + args[0] + pieces[1] + args[1] + pieces[2] + args[2] + pieces[3]
  {
    FormatTwoArgs(pieces[1..], args[1..]);
  }

  /** A template with four placeholders, spelled out. */
  lemma FormatFourArgs(pieces: seq<string>, args: seq<string>)
    requires |pieces| == 5 && |args| == 4
    ensures Format(pieces, args)
         == pieces[0] + args[0] + pieces[1] + args[1] + pieces[2] + args[2] + pieces[3] + args[3] + pieces[4]
  {
    FormatThreeArgs(pieces[1..], args[1..]);
  }

  /** A concatenation consists of its two halves. */
  lemma ConcatConsistsOf(front: string, back: string)
    ensures ConsistsOf(front + back, front, back)
  {
    assert (front + back)[..|front|] == front;
    assert (front + back)[|front|..] == back;
  }
}

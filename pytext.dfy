/**
 * The parts of Python's `str` that the bot relies on, written out over
 * `string` (a sequence of Unicode scalar values, as Python's `str` is):
 * `isspace`, `strip`, `startswith`, `split('\n')`, `'\n'.join`, `isalpha`
 * and the decimal rendering of a non-negative `int` inside an f-string.
 */
module PyText {

  /** `c.isspace()`: the characters Python treats as whitespace. */
  predicate IsSpace(c: char) {
    || c == ' '
    || ('\t' <= c <= '\r')
    || ('\U{1C}' <= c <= '\U{1F}')
    || c == '\U{85}' || c == '\U{A0}' || c == '\U{1680}'
    || ('\U{2000}' <= c <= '\U{200A}')
    || c == '\U{2028}' || c == '\U{2029}' || c == '\U{202F}'
    || c == '\U{205F}' || c == '\U{3000}'
  }

  /** Every character of `s` is whitespace (so `s.strip()` is empty). */
  predicate Blank(s: string) {
    forall i :: 0 <= i < |s| ==> IsSpace(s[i])
  }

  /** `s.lstrip()`: the suffix of `s` left after removing leading whitespace. */
  function TrimStart(s: string): (r: string)
    ensures |r| <= |s|
  {
    if s != [] && IsSpace(s[0]) then TrimStart(s[1..]) else s
  }

  /** What `lstrip` removes is whitespace, and what it keeps starts with none. */
  lemma {:induction false} TrimStartSpec(s: string)
    ensures TrimStart(s) == s[|s| - |TrimStart(s)|..]
    ensures forall i :: 0 <= i < |s| - |TrimStart(s)| ==> IsSpace(s[i])
    ensures TrimStart(s) != [] ==> !IsSpace(TrimStart(s)[0])
  {
    if s != [] && IsSpace(s[0]) {
      TrimStartSpec(s[1..]);
    }
  }

  /** `s.rstrip()`: the prefix of `s` left after removing trailing whitespace. */
  function TrimEnd(s: string): (r: string)
    ensures |r| <= |s|
  {
    if s != [] && IsSpace(s[|s| - 1]) then TrimEnd(s[..|s| - 1]) else s
  }

  /** What `rstrip` removes is whitespace, and what it keeps ends with none. */
  lemma {:induction false} TrimEndSpec(s: string)
    ensures TrimEnd(s) == s[..|TrimEnd(s)|]
    ensures forall i :: |TrimEnd(s)| <= i < |s| ==> IsSpace(s[i])
    ensures TrimEnd(s) != [] ==> !IsSpace(TrimEnd(s)[|TrimEnd(s)| - 1])
  {
    if s != [] && IsSpace(s[|s| - 1]) {
      TrimEndSpec(s[..|s| - 1]);
    }
  }

  /** `s.strip()`. */
  function Strip(s: string): string {
    TrimEnd(TrimStart(s))
  }

  /** `s.strip()` is empty exactly when `s` holds nothing but whitespace. */
  lemma StripEmptyIffBlank(s: string)
    ensures Strip(s) == "" <==> Blank(s)
  {
    var t := TrimStart(s);
    TrimStartSpec(s);
    TrimEndSpec(t);
    if !Blank(s) {
      var i :| 0 <= i < |s| && !IsSpace(s[i]);
      var j := i - (|s| - |t|);
      assert t[j] == s[i];
    }
  }

  /** A string with no whitespace at either end is its own `strip()`. */
  lemma StripUnpadded(s: string)
    requires s != [] ==> !IsSpace(s[0]) && !IsSpace(s[|s| - 1])
    ensures Strip(s) == s
  {
    assert TrimStart(s) == s;
  }

  /** `s.startswith(p)`. */
  predicate StartsWith(s: string, p: string) {
    |p| <= |s| && s[..|p|] == p
  }

  /** No line feed occurs in `s`. */
  predicate NoNewline(s: string) {
    forall i :: 0 <= i < |s| ==> s[i] != '\n'
  }

  /** `s.split('\n')`: the pieces between line feeds; never empty. */
  function Split(s: string): (r: seq<string>)
    ensures |r| >= 1
    ensures forall k :: 0 <= k < |r| ==> NoNewline(r[k])
  {
    if s == [] then [""]
    else if s[0] == '\n' then [""] + Split(s[1..])
    else
      var rest := Split(s[1..]);
      [[s[0]] + rest[0]] + rest[1..]
  }

  /** `'\n'.join(xs)`. */
  function Join(xs: seq<string>): string {
    if xs == [] then ""
    else if |xs| == 1 then xs[0]
    else xs[0] + "\n" + Join(xs[1..])
  }

  /** Joining what `split` produced gives the text back. */
  lemma {:induction false} JoinSplit(s: string)
    ensures Join(Split(s)) == s
  {
    if s == [] {
    } else if s[0] == '\n' {
      JoinSplit(s[1..]);
      assert s == "\n" + s[1..];
    } else {
      var rest := Split(s[1..]);
      JoinSplit(s[1..]);
      if |rest| == 1 {
        assert s == [s[0]] + rest[0];
      } else {
        assert rest == [rest[0]] + rest[1..];
        assert Join(rest) == rest[0] + "\n" + Join(rest[1..]);
        assert s == [s[0]] + rest[0] + "\n" + Join(rest[1..]);
      }
    }
  }

  /** Splitting a string that starts with a piece free of line feeds. */
  lemma {:induction false} SplitPrefix(x: string, s: string)
    requires NoNewline(x)
    ensures Split(x + s) == [x + Split(s)[0]] + Split(s)[1..]
  {
    if x != [] {
      SplitPrefix(x[1..], s);
      assert (x + s)[0] == x[0] != '\n';
      assert (x + s)[1..] == x[1..] + s;
      var rest := Split(x[1..] + s);
      assert Split(x + s) == [[x[0]] + rest[0]] + rest[1..];
      assert [x[0]] + (x[1..] + Split(s)[0]) == x + Split(s)[0];
    } else {
      assert x + s == s;
      assert x + Split(s)[0] == Split(s)[0];
      assert Split(s) == [Split(s)[0]] + Split(s)[1..];
    }
  }

  /** Splitting a join of pieces free of line feeds gives the pieces back. */
  lemma {:induction false} SplitJoin(xs: seq<string>)
    requires |xs| >= 1
    requires forall k :: 0 <= k < |xs| ==> NoNewline(xs[k])
    ensures Split(Join(xs)) == xs
  {
    if |xs| == 1 {
      SplitPrefix(xs[0], "");
      assert xs[0] + "" == xs[0];
    } else {
      var tail := Join(xs[1..]);
      SplitJoin(xs[1..]);
      var lf := "\n" + tail;
      assert lf[0] == '\n' && lf[1..] == tail;
      assert Split(lf) == [""] + xs[1..];
      SplitPrefix(xs[0], lf);
      assert Join(xs) == xs[0] + lf;
      assert xs[0] + "" == xs[0];
      assert xs == [xs[0]] + xs[1..];
    }
  }

  /** Joining two non-empty runs of pieces puts one line feed between them. */
  lemma {:induction false} JoinAppend(xs: seq<string>, ys: seq<string>)
    requires xs != [] && ys != []
    ensures Join(xs + ys) == Join(xs) + "\n" + Join(ys)
  {
    if |xs| == 1 {
      assert (xs + ys)[1..] == ys;
    } else {
      JoinAppend(xs[1..], ys);
      assert (xs + ys)[1..] == xs[1..] + ys;
    }
  }

  /** A join is at least as long as its first piece and starts with it. */
  lemma JoinStartsWithFirst(xs: seq<string>)
    requires xs != []
    ensures |Join(xs)| >= |xs[0]| && Join(xs)[..|xs[0]|] == xs[0]
  {
  }

  /** Python's `isalpha` for one character, restricted to the Latin and
   *  Cyrillic letters (ASCII, Latin-1 and the Cyrillic block). */
  predicate IsLetter(c: char) {
    || ('A' <= c <= 'Z') || ('a' <= c <= 'z')
    || c == '\U{AA}' || c == '\U{B5}' || c == '\U{BA}'
    || ('\U{C0}' <= c <= '\U{FF}' && c != '\U{D7}' && c != '\U{F7}')
    || ('\U{400}' <= c <= '\U{481}') || ('\U{48A}' <= c <= '\U{52F}')
  }

  /** `s.isalpha()`: non-empty and every character a letter. */
  predicate IsAlpha(s: string) {
    s != [] && forall i :: 0 <= i < |s| ==> IsLetter(s[i])
  }

  /** No letter is whitespace, so an alphabetic string is its own `strip()`. */
  lemma AlphaIsStripped(s: string)
    requires IsAlpha(s)
    ensures Strip(s) == s
  {
    assert IsLetter(s[0]) && IsLetter(s[|s| - 1]);
    StripUnpadded(s);
  }

  /** The digit character for `d` in `0..9`. */
  function Digit(d: nat): (c: char)
    requires d < 10
    ensures '0' <= c <= '9' && DigitValue(c) == d
  {
    "0123456789"[d]
  }

  /** The number a digit character stands for. */
  function DigitValue(c: char): nat
    requires '0' <= c <= '9'
  {
    c as int - '0' as int
  }

  /** A string of digits. */
  predicate AllDigits(s: string) {
    forall i :: 0 <= i < |s| ==> '0' <= s[i] <= '9'
  }

  /** The number a string of decimal digits denotes, most significant first. */
  function DigitsValue(s: string): nat
    requires AllDigits(s)
  {
    if s == [] then 0 else DigitsValue(s[..|s| - 1]) * 10 + DigitValue(s[|s| - 1])
  }

  /** `str(n)` for a non-negative `n`: its decimal digits, most significant first. */
  function Decimal(n: nat): (r: string)
    ensures r != [] && AllDigits(r)
    ensures |r| == 1 <==> n < 10
  {
    if n < 10 then [Digit(n)] else Decimal(n / 10) + [Digit(n % 10)]
  }

  /** `str(n)` reads back as `n` and has no leading zero, so it is the one
   *  canonical decimal rendering of `n`. */
  lemma {:induction false} DecimalValue(n: nat)
    ensures DigitsValue(Decimal(n)) == n
    ensures |Decimal(n)| > 1 ==> Decimal(n)[0] != '0'
  {
    if n >= 10 {
      DecimalValue(n / 10);
      var r := Decimal(n);
      assert r[..|r| - 1] == Decimal(n / 10);
      assert r[0] == Decimal(n / 10)[0];
      if |Decimal(n / 10)| == 1 {
        assert DigitValue(Decimal(n / 10)[0]) == n / 10;
      }
    }
  }

  /** Distinct numbers have distinct renderings. */
  lemma DecimalInjective(m: nat, n: nat)
    requires m != n
    ensures Decimal(m) != Decimal(n)
  {
    DecimalValue(m);
    DecimalValue(n);
  }

  /** Python's `s[:n]`: the first `n` characters, or all of `s` when shorter. */
  function Prefix(s: string, n: nat): (r: string)
    ensures |r| <= n && |r| <= |s| && r == s[..|r|]
    ensures |s| <= n ==> r == s
    ensures n <= |s| ==> |r| == n
  {
    if |s| <= n then s else s[..n]
  }
}

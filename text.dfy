/**
  The handful of Python string operations the synonym service relies on:
  `str.split()` and `str.strip()` without arguments, `str.lower()`,
  `str(int)` and `sep.join(list)`.
 */
module Text {

  /** The characters Python's `str.isspace()` accepts; `str.split()` and
      `str.strip()` without arguments split on and strip exactly these. */
  predicate IsSpace(c: char) {
    || c == ' '
    || '\U{9}' <= c <= '\U{d}'       // \t \n \v \f \r
    || '\U{1c}' <= c <= '\U{1f}'     // file, group, record and unit separators
    || c == '\U{85}' || c == '\U{a0}' || c == '\U{1680}'
    || '\U{2000}' <= c <= '\U{200a}'
    || c == '\U{2028}' || c == '\U{2029}' || c == '\U{202f}' || c == '\U{205f}' || c == '\U{3000}'
  }

  predicate NoSpace(s: string) {
    forall i :: 0 <= i < |s| ==> !IsSpace(s[i])
  }

  predicate AllSpace(s: string) {
    forall i :: 0 <= i < |s| ==> IsSpace(s[i])
  }

  /** `s` has no whitespace at either end, as the result of `strip()` has. */
  predicate IsStripped(s: string) {
    s == [] || (!IsSpace(s[0]) && !IsSpace(s[|s| - 1]))
  }

  /** Number of whitespace characters at the start of `s`. */
  function Leading(s: string): (k: nat)
    ensures k <= |s|
    ensures forall i :: 0 <= i < k ==> IsSpace(s[i])
    ensures k == |s| || !IsSpace(s[k])
  {
    if s == [] || !IsSpace(s[0]) then 0 else 1 + Leading(s[1..])
  }

  /** Number of whitespace characters at the end of `s`. */
  function Trailing(s: string): (k: nat)
    ensures k <= |s|
    ensures forall i :: |s| - k <= i < |s| ==> IsSpace(s[i])
    ensures k == |s| || !IsSpace(s[|s| - 1 - k])
  {
    if s == [] || !IsSpace(s[|s| - 1]) then 0 else 1 + Trailing(s[..|s| - 1])
  }

  /** `s.lstrip()` */
  function TrimLeft(s: string): string {
    s[Leading(s)..]
  }

  /** `s.rstrip()` */
  function TrimRight(s: string): string {
    s[..|s| - Trailing(s)]
  }

  /** `s.strip()`: what lies between the leading and the trailing whitespace. */
  function Strip(s: string): (r: string)
    ensures IsStripped(r)
    ensures exists a, b :: 0 <= a <= b <= |s| && r == s[a..b] && AllSpace(s[..a]) && AllSpace(s[b..])
  {
    var a := Leading(s);
    var t := s[a..];
    var r := TrimRight(t);
    assert r != [] ==> r[0] == t[0] && r[|r| - 1] == t[|r| - 1];
    LeadingSpace(s);
    TrailingSpace(t);
    SliceTail(s, a, |r|);
    r
  }

  /** The whitespace `lstrip()` removes. */
  lemma LeadingSpace(s: string)
    ensures AllSpace(s[..Leading(s)])
  {
    var u := s[..Leading(s)];
    forall i | 0 <= i < |u| ensures IsSpace(u[i]) {
      assert u[i] == s[i];
    }
  }

  /** The whitespace `rstrip()` removes. */
  lemma TrailingSpace(t: string)
    ensures AllSpace(t[|t| - Trailing(t)..])
  {
    var j := |t| - Trailing(t);
    var u := t[j..];
    forall i | 0 <= i < |u| ensures IsSpace(u[i]) {
      assert u[i] == t[j + i];
    }
  }

  /** Cutting a prefix off the tail of `s` is cutting it off `s`. */
  lemma SliceTail(s: string, a: nat, n: nat)
    requires a + n <= |s|
    ensures s[a..][..n] == s[a..a + n]
    ensures s[a..][n..] == s[a + n..]
  {
  }

  /** Length of the run of non-whitespace characters that starts `s`. */
  function RunLength(s: string): (n: nat)
    ensures n <= |s|
    ensures forall i :: 0 <= i < n ==> !IsSpace(s[i])
    ensures n == |s| || IsSpace(s[n])
  {
    if s == [] || IsSpace(s[0]) then 0 else 1 + RunLength(s[1..])
  }

  /** `s.split()`: the maximal runs of non-whitespace characters, in order. */
  function Split(s: string): seq<string>
    decreases |s|
  {
    var t := TrimLeft(s);
    if t == [] then [] else
      var n := RunLength(t);
      [t[..n]] + Split(t[n..])
  }

  /** Every item is a non-empty string without whitespace. */
  predicate AllTokens(xs: seq<string>) {
    forall i :: 0 <= i < |xs| ==> xs[i] != [] && NoSpace(xs[i])
  }

  /** Every token of `s.split()` is non-empty and holds no whitespace. */
  lemma {:induction false} SplitTokens(s: string)
    ensures AllTokens(Split(s))
    decreases |s|, 1
  {
    SplitTrimmed(s);
    SplitTokensTrimmed(TrimLeft(s));
  }

  /** `SplitTokens` for a text without leading whitespace. */
  lemma {:induction false} SplitTokensTrimmed(t: string)
    requires t == [] || !IsSpace(t[0])
    ensures AllTokens(Split(t))
    decreases |t|, 0
  {
    if t != [] {
      var n := RunLength(t);
      var head := t[..n];
      assert forall i | 0 <= i < n :: head[i] == t[i];
      SplitStart(t);
      var rest := Split(t[n..]);
      SplitTokens(t[n..]);
      forall i | 0 <= i < |Split(t)|
        ensures Split(t)[i] != [] && NoSpace(Split(t)[i])
      {
        if i > 0 {
          assert Split(t)[i] == rest[i - 1];
        }
      }
    }
  }

  /** `s.split()` is empty exactly when `s` is empty or all whitespace. */
  lemma SplitEmpty(s: string)
    ensures Split(s) == [] <==> AllSpace(s)
  {
    var t := TrimLeft(s);
    if t != [] {
      assert s[|s| - |t|] == t[0];
    }
  }

  /** Trimming the right of `t` leaves exactly its first `n` characters when
      character `n - 1` is not whitespace and everything after it is. */
  lemma TrimRightAt(t: string, n: nat)
    requires 0 < n <= |t| && !IsSpace(t[n - 1]) && AllSpace(t[n..])
    ensures TrimRight(t) == t[..n]
  {
  }

  /** Trimming the right of `t` keeps position `j` when a later position `k`
      holds a non-whitespace character. */
  lemma TrimRightKeeps(t: string, j: nat, k: nat)
    requires j <= k < |t| && !IsSpace(t[k])
    ensures j < |TrimRight(t)| && TrimRight(t)[j] == t[j]
  {
  }

  /** A text without leading whitespace is its own `lstrip()`. */
  lemma TrimLeftNone(t: string)
    requires t == [] || !IsSpace(t[0])
    ensures TrimLeft(t) == t
  {
  }

  /** Leading whitespace does not change `split()`. */
  lemma SplitTrimmed(s: string)
    ensures Split(s) == Split(TrimLeft(s))
  {
    TrimLeftNone(TrimLeft(s));
  }

  /** The first token of a text that starts with a non-whitespace character,
      and what is left after it. */
  lemma SplitStart(t: string)
    requires t != [] && !IsSpace(t[0])
    ensures Split(t) == [t[..RunLength(t)]] + Split(t[RunLength(t)..])
  {
    TrimLeftNone(t);
  }

  /** One token: after its first run the text is all whitespace. */
  lemma SplitOne(t: string)
    requires t != [] && !IsSpace(t[0]) && AllSpace(t[RunLength(t)..])
    ensures Split(t) == [TrimRight(t)] && NoSpace(TrimRight(t))
  {
    var n := RunLength(t);
    SplitStart(t);
    SplitEmpty(t[n..]);
    TrimRightAt(t, n);
  }

  /** More than one token: a non-whitespace character at `k`, after the
      first run, starts a second token ... */
  lemma SplitMany(t: string, k: nat)
    requires t != [] && !IsSpace(t[0]) && RunLength(t) <= k < |t| && !IsSpace(t[k])
    ensures |Split(t)| > 1
  {
    var n := RunLength(t);
    var rest := t[n..];
    assert rest[k - n] == t[k];
    SplitStart(t);
    SplitEmpty(rest);
  }

  /** ... and leaves the whitespace that ends the first run inside the
      right-stripped text. */
  lemma SpaceInside(t: string, k: nat)
    requires RunLength(t) <= k < |t| && !IsSpace(t[k])
    ensures !NoSpace(TrimRight(t))
  {
    var n := RunLength(t);
    TrimRightKeeps(t, n, k);
    assert IsSpace(TrimRight(t)[n]);
  }

  /** `SingleToken` for a text without leading whitespace. */
  lemma SingleTokenTrimmed(t: string)
    requires t == [] || !IsSpace(t[0])
    ensures |Split(t)| == 1 <==> TrimRight(t) != [] && NoSpace(TrimRight(t))
    ensures |Split(t)| == 1 ==> Split(t) == [TrimRight(t)]
  {
    if t != [] {
      var n := RunLength(t);
      if AllSpace(t[n..]) {
        SplitOne(t);
      } else {
        var j :| 0 <= j < |t[n..]| && !IsSpace(t[n..][j]);
        SplitMany(t, n + j);
        SpaceInside(t, n + j);
      }
    }
  }

  /** `len(s.split()) == 1` holds exactly when the stripped string is
      non-empty and has no whitespace inside; the one token is that string. */
  lemma SingleToken(s: string)
    ensures |Split(s)| == 1 <==> Strip(s) != [] && NoSpace(Strip(s))
    ensures |Split(s)| == 1 ==> Split(s) == [Strip(s)]
  {
    SplitTrimmed(s);
    SingleTokenTrimmed(TrimLeft(s));
  }

  /** A non-empty string without whitespace splits into itself. */
  lemma SplitWord(s: string)
    requires s != [] && NoSpace(s)
    ensures Split(s) == [s]
  {
    SingleToken(s);
    StripStripped(s);
  }

  /** A stripped string with whitespace inside splits into more than one token. */
  lemma SplitPhrase(s: string, k: nat)
    requires IsStripped(s) && k < |s| && IsSpace(s[k])
    ensures |Split(s)| != 1
  {
    SingleToken(s);
    StripStripped(s);
  }

  /** Two words joined by a space make more than one token. */
  lemma SplitTwoWords(a: string, b: string, phrase: string)
    requires a != [] && NoSpace(a) && b != [] && NoSpace(b)
    requires phrase == a + [' '] + b
    ensures |Split(phrase)| != 1
  {
    assert phrase[|a|] == ' ';
    assert phrase[0] == a[0];
    assert phrase[|phrase| - 1] == b[|b| - 1];
    SplitPhrase(phrase, |a|);
  }

  /** The run at the start of `s` ends at the first whitespace character. */
  lemma {:induction false} RunLengthAt(s: string, n: nat)
    requires n < |s| && IsSpace(s[n]) && forall i :: 0 <= i < n ==> !IsSpace(s[i])
    ensures RunLength(s) == n
  {
    if n > 0 {
      RunLengthAt(s[1..], n - 1);
    }
  }

  /** A word followed by text that starts with whitespace splits into the
      word and the tokens of that text. */
  lemma SplitAfterWord(a: string, rest: string)
    requires a != [] && NoSpace(a) && rest != [] && IsSpace(rest[0])
    ensures Split(a + rest) == [a] + Split(rest)
  {
    var s := a + rest;
    assert s[0] == a[0];
    assert TrimLeft(s) == s;
    assert forall i | 0 <= i < |a| :: s[i] == a[i];
    RunLengthAt(s, |a|);
    assert s[..|a|] == a;
    assert s[|a|..] == rest;
  }

  /** Leading whitespace does not change the tokens. */
  lemma SplitAfterSpace(c: char, t: string)
    requires IsSpace(c)
    ensures Split([c] + t) == Split(t)
  {
    assert ([c] + t)[1..] == t;
    assert TrimLeft([c] + t) == TrimLeft(t);
  }

  /** Two words joined by a space split into those two words. */
  lemma SplitPair(a: string, b: string)
    requires a != [] && NoSpace(a) && b != [] && NoSpace(b)
    ensures Split(a + [' '] + b) == [a, b]
  {
    var rest := [' '] + b;
    assert a + [' '] + b == a + rest;
    SplitAfterWord(a, rest);
    SplitAfterSpace(' ', b);
    SplitWord(b);
  }

  /** The tokens of `split()` have nothing left to strip. */
  lemma StripStripped(s: string)
    requires IsStripped(s)
    ensures Strip(s) == s
  {
  }

  /** `c.lower()` for ASCII; other characters are left as they are. */
  function LowerChar(c: char): (d: char)
    ensures !('A' <= d <= 'Z')
    ensures 'A' <= c <= 'Z' ==> d as int == c as int + 32
    ensures IsSpace(d) <==> IsSpace(c)
  {
    if 'A' <= c <= 'Z' then (c as int + 32) as char else c
  }

  /** `s.lower()`, character by character. */
  function Lower(s: string): (r: string)
    ensures |r| == |s|
    ensures forall i :: 0 <= i < |s| ==> r[i] == LowerChar(s[i])
  {
    seq(|s|, i requires 0 <= i < |s| => LowerChar(s[i]))
  }

  /** Lower-casing keeps whitespace where it was, so a stripped string stays stripped. */
  lemma LowerKeepsStripped(s: string)
    requires IsStripped(s)
    ensures IsStripped(Lower(s))
  {
  }

  /** `r` is `s[a:b].lower()`. */
  predicate IsLowerOf(r: string, s: string, a: nat, b: nat) {
    && a <= b <= |s|
    && |r| == b - a
    && (forall i :: 0 <= i < |r| ==> r[i] == LowerChar(s[a + i]))
  }

  /** Lower-casing a slice lower-cases the characters it was cut from. */
  lemma LowerSlice(s: string, a: nat, b: nat)
    requires a <= b <= |s|
    ensures IsLowerOf(Lower(s[a..b]), s, a, b)
  {
  }

  lemma LowerIdempotent(s: string)
    ensures Lower(Lower(s)) == Lower(s)
  {
  }

  function DigitChar(d: nat): (c: char)
    requires d < 10
    ensures '0' <= c <= '9' && c as int - '0' as int == d
  {
    ('0' as int + d) as char
  }

  predicate IsDigits(s: string) {
    forall i :: 0 <= i < |s| ==> '0' <= s[i] <= '9'
  }

  /** `str(n)` for a non-negative integer: its decimal digits, most significant first. */
  function Decimal(n: nat): (r: string)
    ensures r != [] && IsDigits(r)
    ensures n > 0 ==> r[0] != '0'
  {
    if n < 10 then [DigitChar(n)] else Decimal(n / 10) + [DigitChar(n % 10)]
  }

  /** Reads a string of decimal digits back as a number. */
  function ParseDecimal(s: string): (n: nat)
    requires IsDigits(s)
  {
    if s == [] then 0 else ParseDecimal(s[..|s| - 1]) * 10 + (s[|s| - 1] as int - '0' as int)
  }

  /** `str(n)` loses nothing: the number can be read back from it. */
  lemma {:induction false} DecimalRoundTrip(n: nat)
    ensures ParseDecimal(Decimal(n)) == n
  {
    if n >= 10 {
      DecimalRoundTrip(n / 10);
      var d := Decimal(n);
      assert d[..|d| - 1] == Decimal(n / 10);
    }
  }

  lemma DecimalInjective(m: nat, n: nat)
    requires Decimal(m) == Decimal(n)
    ensures m == n
  {
    DecimalRoundTrip(m);
    DecimalRoundTrip(n);
  }

  /** `sep.join(xs)` */
  function Join(xs: seq<string>, sep: string): (r: string)
  {
    if xs == [] then []
    else if |xs| == 1 then xs[0]
    else Join(xs[..|xs| - 1], sep) + sep + xs[|xs| - 1]
  }

  /** `part in s` for strings. */
  predicate Contains(s: string, part: string) {
    exists k | 0 <= k <= |s| :: part <= s[k..]
  }

  /** What can be found in `s` can still be found after text is added around it. */
  lemma ContainsWithin(a: string, s: string, b: string, part: string)
    requires Contains(s, part)
    ensures Contains(a + s + b, part)
  {
    var k :| 0 <= k <= |s| && part <= s[k..];
    assert (a + s + b)[|a| + k..] == s[k..] + b;
  }

  /** Every joined item can be found in `sep.join(xs)`. */
  lemma {:induction false} JoinContains(xs: seq<string>, sep: string, i: nat)
    requires i < |xs|
    ensures Contains(Join(xs, sep), xs[i])
  {
    var last := |xs| - 1;
    if |xs| == 1 {
      assert xs[i] <= Join(xs, sep)[0..];
    } else if i == last {
      var front := Join(xs[..last], sep) + sep;
      assert xs[i] <= Join(xs, sep)[|front|..];
    } else {
      JoinContains(xs[..last], sep, i);
      var j :| 0 <= j <= |Join(xs[..last], sep)| && xs[i] <= Join(xs[..last], sep)[j..];
      assert xs[i] <= Join(xs, sep)[j..];
    }
  }
}

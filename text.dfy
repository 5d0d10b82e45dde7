/**
  The small pieces of Python's string and path behaviour that the scripts'
  naming logic relies on: decimal formatting of integers ('%i', str(int)),
  int() truncation of a float, str.split with a one-character separator and
  the head part of os.path.split.
 */
module Text {

  datatype Option<+T> = None | Some(value: T)

  predicate IsDigit(c: char) {
    '0' <= c <= '9'
  }

  predicate AllDigits(s: string) {
    forall i :: 0 <= i < |s| ==> IsDigit(s[i])
  }

  function DigitChar(d: nat): (c: char)
    requires d < 10
    ensures IsDigit(c)
  {
    (d + '0' as int) as char
  }

  function DigitValue(c: char): (d: nat)
    requires IsDigit(c)
    ensures d < 10 && DigitChar(d) == c
  {
    c as int - '0' as int
  }

  /** Decimal digits of n, no leading zero: what Python prints for a non-negative int. */
  function NatToString(n: nat): (s: string)
    ensures |s| >= 1 && AllDigits(s)
    ensures s[0] == '0' ==> n == 0
  {
    if n < 10 then [DigitChar(n)] else NatToString(n / 10) + [DigitChar(n % 10)]
  }

  /** The number a string of decimal digits denotes. */
  function DecimalValue(s: string): nat
    requires AllDigits(s)
  {
    if s == [] then 0 else DecimalValue(s[..|s| - 1]) * 10 + DigitValue(s[|s| - 1])
  }

  lemma {:induction false} NatToStringRoundTrip(n: nat)
    ensures DecimalValue(NatToString(n)) == n
  {
    if n >= 10 {
      NatToStringRoundTrip(n / 10);
      var s := NatToString(n);
      assert s[..|s| - 1] == NatToString(n / 10);
    }
  }

  lemma NatToStringInjective(m: nat, n: nat)
    requires NatToString(m) == NatToString(n)
    ensures m == n
  {
    NatToStringRoundTrip(m);
    NatToStringRoundTrip(n);
  }

  /** Python's '%i' (and str()) of an int: a minus sign, then the digits of the magnitude. */
  function IntToString(i: int): (s: string)
    ensures |s| >= 1
  {
    if i < 0 then "-" + NatToString(-i) else NatToString(i)
  }

  function ParseInt(s: string): int
    requires |s| >= 1
    requires s[0] == '-' ==> AllDigits(s[1..])
    requires s[0] != '-' ==> AllDigits(s)
  {
    if s[0] == '-' then -(DecimalValue(s[1..]) as int) else DecimalValue(s)
  }

  lemma IntToStringRoundTrip(i: int)
    ensures var s := IntToString(i);
      (s[0] == '-' ==> AllDigits(s[1..])) && (s[0] != '-' ==> AllDigits(s)) && ParseInt(s) == i
  {
    NatToStringRoundTrip(if i < 0 then -i else i);
    if i < 0 {
      assert IntToString(i)[1..] == NatToString(-i);
    }
  }

  /** Two zero-padded digits, as strftime prints %m and %d. */
  function Pad2(n: nat): (s: string)
    requires n < 100
    ensures |s| == 2 && AllDigits(s)
  {
    [DigitChar(n / 10), DigitChar(n % 10)]
  }

  lemma Pad2RoundTrip(n: nat)
    requires n < 100
    ensures DecimalValue(Pad2(n)) == n
  {
    var s := Pad2(n);
    assert s[..1][..0] == [];
    assert DecimalValue(s[..1]) == n / 10;
    assert s[..|s| - 1] == s[..1];
  }

  /** Python's int() of a float: truncation toward zero. */
  function Trunc(r: real): (t: int)
    ensures r >= 0.0 ==> t as real <= r < t as real + 1.0
    ensures r < 0.0 ==> t as real - 1.0 < r <= t as real
  {
    if r >= 0.0 then r.Floor else -((-r).Floor)
  }

  /** The truncated value never has a larger magnitude than the float it comes from. */
  lemma TruncTowardZero(r: real)
    ensures var t := Trunc(r); (r >= 0.0 ==> 0 <= t) && (r < 0.0 ==> t <= 0)
    ensures var t := Trunc(r); (t as real) * (t as real) <= r * r
  {
    var t := Trunc(r);
    if r >= 0.0 {
      assert 0.0 <= t as real <= r;
    } else {
      assert r <= t as real <= 0.0;
    }
  }

  /** str.split(sep) for a one-character separator, built from the right. */
  function Split(s: string, sep: char): (parts: seq<string>)
    ensures |parts| >= 1
    ensures forall k :: 0 <= k < |parts| ==> sep !in parts[k]
  {
    if s == [] then [""]
    else
      var init := Split(s[..|s| - 1], sep);
      var c := s[|s| - 1];
      if c == sep then init + [""]
      else init[..|init| - 1] + [init[|init| - 1] + [c]]
  }

  /** sep.join(parts), the inverse of Split. */
  function Join(parts: seq<string>, sep: char): string
    requires |parts| >= 1
  {
    if |parts| == 1 then parts[0] else Join(parts[..|parts| - 1], sep) + [sep] + parts[|parts| - 1]
  }

  /** Appending a character to the last part appends it to the joined string. */
  lemma JoinExtendLast(parts: seq<string>, sep: char, c: char)
    requires |parts| >= 1
    ensures Join(parts[..|parts| - 1] + [parts[|parts| - 1] + [c]], sep) == Join(parts, sep) + [c]
  {
    var n := |parts|;
    var ext := parts[..n - 1] + [parts[n - 1] + [c]];
    assert ext[..n - 1] == parts[..n - 1];
  }

  /** A join of two or more parts ends with the last two parts around a separator. */
  lemma JoinLastTwo(parts: seq<string>, sep: char) returns (u: string)
    requires |parts| >= 2
    ensures Join(parts, sep) == u + parts[|parts| - 2] + [sep] + parts[|parts| - 1]
    ensures u == [] || u[|u| - 1] == sep
  {
    var n := |parts|;
    var init := parts[..n - 1];
    if n == 2 {
      u := [];
    } else {
      assert init[..n - 2] == parts[..n - 2];
      u := Join(parts[..n - 2], sep) + [sep];
    }
  }

  lemma {:induction false} SplitJoin(s: string, sep: char)
    ensures Join(Split(s, sep), sep) == s
  {
    if s != [] {
      var init := Split(s[..|s| - 1], sep);
      SplitJoin(s[..|s| - 1], sep);
      var c := s[|s| - 1];
      assert s == s[..|s| - 1] + [c];
      if c != sep {
        assert Split(s, sep) == init[..|init| - 1] + [init[|init| - 1] + [c]];
        JoinExtendLast(init, sep, c);
      } else {
        assert Split(s, sep) == init + [""];
        assert (init + [""])[..|init|] == init;
        assert Join(init + [""], sep) == Join(init, sep) + [sep] + "";
      }
    }
  }

  /** Splitting yields one more part than there are separators: at least two parts iff sep occurs. */
  lemma {:induction false} SplitHasTwoParts(s: string, sep: char)
    ensures |Split(s, sep)| >= 2 <==> sep in s
  {
    if s != [] {
      SplitHasTwoParts(s[..|s| - 1], sep);
      assert s == s[..|s| - 1] + [s[|s| - 1]];
    }
  }

  function LastIndexOf(s: string, c: char): (i: int)
    ensures -1 <= i < |s|
    ensures 0 <= i ==> s[i] == c
    ensures forall k :: i < k < |s| ==> s[k] != c
  {
    if s == [] then -1
    else if s[|s| - 1] == c then |s| - 1
    else LastIndexOf(s[..|s| - 1], c)
  }

  predicate AllSlashes(s: string) {
    forall k :: 0 <= k < |s| ==> s[k] == '/'
  }

  function RStripSlashes(s: string): (r: string)
    ensures r <= s
    ensures r == [] || r[|r| - 1] != '/'
    ensures forall k :: |r| <= k < |s| ==> s[k] == '/'
  {
    if s == [] || s[|s| - 1] != '/' then s else RStripSlashes(s[..|s| - 1])
  }

  /**
    os.path.split(p)[0] (posixpath): everything up to the last '/', with the
    trailing slashes of that head removed unless the head is all slashes.
   */
  function DirName(p: string): (head: string)
    ensures head <= p
    ensures '/' !in p ==> head == []
    // with a separator the head is non-empty and stops at the last one: "a/b/c" gives "a/b"
    ensures '/' in p ==> head != [] && |head| <= LastIndexOf(p, '/') + 1
    ensures head != [] && !AllSlashes(head) ==> head[|head| - 1] != '/'
    // what follows the head is a run of separators and then the slash-free last component
    ensures forall k, m :: |head| <= m <= k < |p| && p[k] == '/' ==> p[m] == '/'
  {
    var i := LastIndexOf(p, '/') + 1;
    var h := p[..i];
    if h != [] && !AllSlashes(h) then RStripSlashes(h) else h
  }
}

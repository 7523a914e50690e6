/**
 * The two pieces of Go's string library the client relies on:
 * `strings.Trim` with a one-character cutset, and the decimal rendering of
 * an `int` that `fmt`'s `%v` verb produces.
 */
module GoStrings {
  import opened Basics

  /** Every character of s from index lo up to (not including) hi is c. */
  predicate RunOf(s: string, lo: int, hi: int, c: char) {
    forall k :: lo <= k < hi && 0 <= k < |s| ==> s[k] == c
  }

  /** Drops the leading run of c: what is left is a suffix of s not starting with c. */
  function TrimLeft(s: string, c: char): (r: string)
    ensures |r| <= |s| && r == s[|s| - |r|..]
    ensures RunOf(s, 0, |s| - |r|, c)
    ensures r == [] || r[0] != c
    decreases |s|
  {
    if s != [] && s[0] == c then TrimLeft(s[1..], c) else s
  }

  /** Drops the trailing run of c: what is left is a prefix of s not ending with c. */
  function TrimRight(s: string, c: char): (r: string)
    ensures |r| <= |s| && r == s[..|r|]
    ensures RunOf(s, |r|, |s|, c)
    ensures r == [] || r[|r| - 1] != c
    decreases |s|
  {
    if s != [] && s[|s| - 1] == c then TrimRight(s[..|s| - 1], c) else s
  }

  /** `strings.Trim(s, string(c))`: removes every leading and trailing c. */
  function Trim(s: string, c: char): string {
    TrimRight(TrimLeft(s, c), c)
  }

  /**
   * r is what remains of s once its leading and trailing runs of c are cut
   * off, when it starts at index i: a contiguous piece s[i..i+|r|] with only
   * c before and after it, itself neither starting nor ending with c.
   */
  predicate TrimmedAt(s: string, c: char, r: string, i: int) {
    && 0 <= i <= |s| - |r|
    && r == s[i..i + |r|]
    && RunOf(s, 0, i, c)
    && RunOf(s, i + |r|, |s|, c)
    && (r == [] || (r[0] != c && r[|r| - 1] != c))
  }

  ghost predicate IsTrimmed(s: string, c: char, r: string) {
    exists i :: TrimmedAt(s, c, r, i)
  }

  /** Trim meets that description ... */
  lemma TrimIsTrimmed(s: string, c: char)
    ensures IsTrimmed(s, c, Trim(s, c))
  {
    var t := TrimLeft(s, c);
    var r := TrimRight(t, c);
    var i := |s| - |t|;
    assert r == s[i..i + |r|];
    assert RunOf(s, i + |r|, |s|, c) by {
      forall k | i + |r| <= k < |s| ensures s[k] == c {
        assert s[k] == t[k - i];
      }
    }
    assert TrimmedAt(s, c, r, i);
  }

  /** ... and is the only string that does. */
  lemma TrimmedIsTrim(s: string, c: char, r: string)
    requires IsTrimmed(s, c, r)
    ensures r == Trim(s, c)
  {
    var i :| TrimmedAt(s, c, r, i);
    var t := TrimLeft(s, c);
    if r != [] {
      assert s[i] == r[0];
      assert t == s[i..];
      assert t[..|r|] == r;
      assert RunOf(t, |r|, |t|, c) by {
        forall k | |r| <= k < |t| ensures t[k] == c {
          assert t[k] == s[i + k];
        }
      }
      TrailingRunEnds(t, c, |r|);
    }
  }

  /** A run of c starting just after a non-c character is the whole trailing run. */
  lemma TrailingRunEnds(t: string, c: char, j: int)
    requires 0 < j <= |t| && RunOf(t, j, |t|, c) && t[j - 1] != c
    ensures TrimRight(t, c) == t[..j]
  {
  }

  /** Trimming twice is trimming once. */
  lemma TrimIdempotent(s: string, c: char)
    ensures Trim(Trim(s, c), c) == Trim(s, c)
  {
    var r := Trim(s, c);
    assert TrimLeft(r, c) == r;
    assert TrimRight(r, c) == r;
  }

  predicate IsDigit(ch: char) {
    '0' <= ch <= '9'
  }

  function DigitChar(d: int): (ch: char)
    requires 0 <= d < 10
    ensures IsDigit(ch)
  {
    ('0' as int + d) as char
  }

  /** Decimal digits of n, most significant first, without leading zeros. */
  function Digits(n: nat): (s: string)
    ensures 1 <= |s|
    ensures AllDigits(s)
    ensures s[0] == '0' ==> n == 0
    decreases n
  {
    if n < 10 then [DigitChar(n)] else Digits(n / 10) + [DigitChar(n % 10)]
  }

  /** `fmt.Sprintf("%v", n)` for an `int`: a minus sign for negatives, then the digits. */
  function FormatInt(n: int): string {
    if n < 0 then "-" + Digits(-n) else Digits(n)
  }

  predicate AllDigits(s: string) {
    forall i :: 0 <= i < |s| ==> IsDigit(s[i])
  }

  /** The number a run of decimal digits denotes. */
  function DigitsValue(s: string): nat
    requires AllDigits(s)
    decreases |s|
  {
    if s == [] then 0
    else
      assert IsDigit(s[|s| - 1]);
      DigitsValue(s[..|s| - 1]) * 10 + (s[|s| - 1] as int - '0' as int)
  }

  /** Reads an optionally negative decimal integer back. */
  function ParseInt(s: string): Option<int> {
    var neg := |s| > 0 && s[0] == '-';
    var ds := if neg then s[1..] else s;
    if ds == [] || !AllDigits(ds) then None
    else
      var v: int := DigitsValue(ds);
      Some(if neg then -v else v)
  }

  lemma {:induction false} DigitsValueDigits(n: nat)
    ensures DigitsValue(Digits(n)) == n
    decreases n
  {
    var s := Digits(n);
    if n >= 10 {
      DigitsValueDigits(n / 10);
      assert s[..|s| - 1] == Digits(n / 10);
    }
  }

  /** Round trip: the rendering of any int reads back as that int. */
  lemma ParseFormat(n: int)
    ensures ParseInt(FormatInt(n)) == Some(n)
  {
    if n < 0 {
      DigitsValueDigits(-n);
      ParseNegative(Digits(-n));
    } else {
      DigitsValueDigits(n);
      ParsePositive(Digits(n));
    }
  }

  lemma ParsePositive(ds: string)
    requires ds != [] && AllDigits(ds)
    ensures ParseInt(ds) == Some(DigitsValue(ds) as int)
  {
    assert IsDigit(ds[0]);
  }

  lemma ParseNegative(ds: string)
    requires ds != [] && AllDigits(ds)
    ensures ParseInt("-" + ds) == Some(-(DigitsValue(ds) as int))
  {
    assert ("-" + ds)[1..] == ds;
  }

  /** Distinct ints render differently. */
  lemma FormatIntInjective(m: int, n: int)
    requires FormatInt(m) == FormatInt(n)
    ensures m == n
  {
    ParseFormat(m);
    ParseFormat(n);
  }
}

/** The string operations the tool borrows from Python: `sep.join`, `str(n)`,
    the `:,` thousands format and `str.strip()`. */
module Text {

  /** `sep.join(parts)`. */
  function Join(sep: string, parts: seq<string>): string
  {
    if |parts| == 0 then ""
    else if |parts| == 1 then parts[0]
    else parts[0] + sep + Join(sep, parts[1..])
  }

  /** Joining one more part adds the separator and that part at the end. */
  lemma {:induction false} JoinAppend(sep: string, parts: seq<string>, x: string)
    requires |parts| >= 1
    ensures Join(sep, parts + [x]) == Join(sep, parts) + sep + x
  {
    if |parts| == 1 {
      assert (parts + [x])[1..] == [x];
    } else {
      assert (parts + [x])[1..] == parts[1..] + [x];
      JoinAppend(sep, parts[1..], x);
    }
  }

  // ---------------------------------------------------------------- digits

  predicate IsDigit(c: char) { '0' <= c <= '9' }

  function DigitChar(d: nat): (c: char)
    requires d < 10
    ensures IsDigit(c) && DigitValue(c) == d
  {
    (48 + d) as char
  }

  function DigitValue(c: char): nat
    requires IsDigit(c)
  {
    (c as int) - 48
  }

  /** `str(n)` for a non-negative integer: its decimal digits, most
      significant first, without leading zeros. */
  function Digits(n: nat): (s: string)
    ensures |s| >= 1
    ensures forall i :: 0 <= i < |s| ==> IsDigit(s[i])
    decreases n
  {
    if n < 10 then [DigitChar(n)] else Digits(n / 10) + [DigitChar(n % 10)]
  }

  /** The value of a string of decimal digits (the inverse of `Digits`). */
  function ParseDigits(s: string): nat
    requires forall i :: 0 <= i < |s| ==> IsDigit(s[i])
  {
    if s == [] then 0 else ParseDigits(s[..|s| - 1]) * 10 + DigitValue(s[|s| - 1])
  }

  lemma {:induction false} DigitsRoundTrip(n: nat)
    ensures ParseDigits(Digits(n)) == n
  {
    if n >= 10 {
      DigitsRoundTrip(n / 10);
      assert Digits(n)[..|Digits(n)| - 1] == Digits(n / 10);
    }
  }

  /** `str(n)` has a leading zero only for zero itself, and few digits for
      small numbers. */
  lemma {:induction false} DigitsShape(n: nat)
    ensures Digits(n)[0] == '0' <==> n == 0
    ensures n < 10 <==> |Digits(n)| == 1
    ensures n < 1000 ==> |Digits(n)| <= 3
  {
    if n >= 10 {
      DigitsShape(n / 10);
    }
  }

  /** `str(i)` for any integer. */
  function IntToString(i: int): (s: string)
    ensures |s| >= 1
  {
    if i < 0 then "-" + Digits(-i) else Digits(i)
  }

  /** `int(s)` on what `str` produces. */
  function ParseInt(s: string): int
    requires |s| >= 1
    requires forall k :: (if s[0] == '-' then 1 else 0) <= k < |s| ==> IsDigit(s[k])
  {
    if s[0] == '-' then 0 - ParseDigits(s[1..]) as int else ParseDigits(s) as int
  }

  /** `int(str(i)) == i`. */
  lemma IntToStringRoundTrip(i: int)
    ensures var s := IntToString(i);
      (forall k :: (if s[0] == '-' then 1 else 0) <= k < |s| ==> IsDigit(s[k]))
      && ParseInt(s) == i
  {
    var s := IntToString(i);
    if i < 0 {
      assert s[1..] == Digits(-i);
      DigitsRoundTrip(-i);
    } else {
      DigitsRoundTrip(i);
    }
  }

  // ------------------------------------------------------ thousands format

  /** The three digits of `k < 1000`, zero-padded. */
  function Pad3(k: nat): string
    requires k < 1000
  {
    [DigitChar(k / 100), DigitChar(k / 10 % 10), DigitChar(k % 10)]
  }

  /** `f"{n:,}"` for a non-negative integer: the digits grouped in threes
      from the right, groups separated by commas. */
  function Grouped(n: nat): string
    decreases n
  {
    if n < 1000 then Digits(n) else Grouped(n / 1000) + "," + Pad3(n % 1000)
  }

  /** `f"{i:,}"` for any integer. */
  function GroupedInt(i: int): string
  {
    if i < 0 then "-" + Grouped(-i) else Grouped(i)
  }

  function RemoveCommas(s: string): string
  {
    if s == [] then ""
    else RemoveCommas(s[..|s| - 1]) + (if s[|s| - 1] == ',' then "" else [s[|s| - 1]])
  }

  lemma {:induction false} RemoveCommasConcat(a: string, b: string)
    ensures RemoveCommas(a + b) == RemoveCommas(a) + RemoveCommas(b)
  {
    if b != [] {
      assert (a + b)[..|a + b| - 1] == a + b[..|b| - 1];
      RemoveCommasConcat(a, b[..|b| - 1]);
    } else {
      assert a + b == a;
    }
  }

  lemma {:induction false} RemoveCommasOfDigits(s: string)
    requires forall i :: 0 <= i < |s| ==> IsDigit(s[i])
    ensures RemoveCommas(s) == s
  {
    if s != [] {
      RemoveCommasOfDigits(s[..|s| - 1]);
    }
  }

  /** The last three digits of `str(n)` are `Pad3(n % 1000)`. */
  lemma DigitsSplit3(n: nat)
    requires n >= 1000
    ensures Digits(n) == Digits(n / 1000) + Pad3(n % 1000)
  {
    var k := n % 1000;
    assert Digits(n) == Digits(n / 10) + [DigitChar(n % 10)];
    assert Digits(n / 10) == Digits(n / 10 / 10) + [DigitChar(n / 10 % 10)];
    assert Digits(n / 10 / 10) == Digits(n / 10 / 10 / 10) + [DigitChar(n / 10 / 10 % 10)];
    assert n / 10 / 10 / 10 == n / 1000;
    assert n / 10 / 10 == n / 100;
    assert k / 100 == n / 100 % 10;
    assert k / 10 % 10 == n / 10 % 10;
    assert k % 10 == n % 10;
  }

  /** Removing the commas from `f"{n:,}"` gives `str(n)`. */
  lemma {:induction false} GroupedDigits(n: nat)
    ensures RemoveCommas(Grouped(n)) == Digits(n)
  {
    if n < 1000 {
      RemoveCommasOfDigits(Digits(n));
    } else {
      GroupedDigits(n / 1000);
      RemoveCommasConcat(Grouped(n / 1000) + ",", Pad3(n % 1000));
      RemoveCommasConcat(Grouped(n / 1000), ",");
      RemoveCommasOfDigits(Pad3(n % 1000));
      DigitsSplit3(n);
    }
  }

  /** In `f"{n:,}"` a comma stands exactly at the positions that are a
      multiple of four characters from the end. */
  lemma {:induction false} GroupedCommaPositions(n: nat)
    ensures forall i :: 0 <= i < |Grouped(n)| ==>
      (Grouped(n)[i] == ',' <==> (|Grouped(n)| - i) % 4 == 0)
  {
    var g := Grouped(n);
    if n < 1000 {
      DigitsShape(n);
    } else {
      GroupedCommaPositions(n / 1000);
      var h := Grouped(n / 1000);
      assert g == h + "," + Pad3(n % 1000);
      assert |g| == |h| + 4;
      forall i | 0 <= i < |g| ensures g[i] == ',' <==> (|g| - i) % 4 == 0 {
        if i < |h| {
          assert g[i] == h[i];
          assert (|g| - i) % 4 == (|h| - i) % 4;
        }
      }
    }
  }

  // ---------------------------------------------------------------- strip

  /** The characters for which Python's `str.isspace()` holds. */
  predicate IsSpace(c: char)
  {
    ('\t' <= c <= '\r') || ('\U{1c}' <= c <= ' ') || c == '\U{85}' || c == '\U{a0}'
    || c == '\U{1680}' || ('\U{2000}' <= c <= '\U{200a}') || c == '\U{2028}' || c == '\U{2029}'
    || c == '\U{202f}' || c == '\U{205f}' || c == '\U{3000}'
  }

  function LStrip(s: string): string
  {
    if s != [] && IsSpace(s[0]) then LStrip(s[1..]) else s
  }

  function RStrip(s: string): string
  {
    if s != [] && IsSpace(s[|s| - 1]) then RStrip(s[..|s| - 1]) else s
  }

  /** `s.strip()`. */
  function Strip(s: string): string
  {
    RStrip(LStrip(s))
  }

  lemma {:induction false} LStripCut(s: string) returns (i: nat)
    ensures i <= |s| && LStrip(s) == s[i..]
    ensures forall k :: 0 <= k < i ==> IsSpace(s[k])
    ensures i < |s| ==> !IsSpace(s[i])
  {
    if s != [] && IsSpace(s[0]) {
      var j := LStripCut(s[1..]);
      i := j + 1;
      assert s[1..][j..] == s[i..];
      forall k | 0 <= k < i ensures IsSpace(s[k]) {
        if k > 0 { assert s[k] == s[1..][k - 1]; }
      }
    } else {
      i := 0;
    }
  }

  lemma {:induction false} RStripCut(s: string) returns (j: nat)
    ensures j <= |s| && RStrip(s) == s[..j]
    ensures forall k :: j <= k < |s| ==> IsSpace(s[k])
    ensures j > 0 ==> !IsSpace(s[j - 1])
  {
    if s != [] && IsSpace(s[|s| - 1]) {
      j := RStripCut(s[..|s| - 1]);
      assert s[..|s| - 1][..j] == s[..j];
    } else {
      j := |s|;
    }
  }

  /** `s.strip()` is the slice of `s` left after dropping its leading and
      trailing whitespace: it neither starts nor ends with whitespace, and
      everything cut away is whitespace. */
  lemma StripSpec(s: string)
    ensures exists i, j :: (0 <= i <= j <= |s| && Strip(s) == s[i..j]
      && (forall k :: 0 <= k < i ==> IsSpace(s[k]))
      && (forall k :: j <= k < |s| ==> IsSpace(s[k])))
    ensures Strip(s) != [] ==> !IsSpace(Strip(s)[0]) && !IsSpace(Strip(s)[|Strip(s)| - 1])
  {
    var i := LStripCut(s);
    var j := RStripCut(s[i..]);
    assert s[i..][..j] == s[i..i + j];
    forall k | i + j <= k < |s| ensures IsSpace(s[k]) {
      assert s[k] == s[i..][k - i];
    }
    if Strip(s) != [] {
      assert Strip(s)[0] == s[i];
    }
  }

  /** `s.strip()` is empty exactly when `s` is all whitespace. */
  lemma StripEmpty(s: string)
    ensures Strip(s) == [] <==> forall k :: 0 <= k < |s| ==> IsSpace(s[k])
  {
    var i := LStripCut(s);
    var j := RStripCut(s[i..]);
    if Strip(s) == [] {
      assert j == 0;
    } else {
      assert i < |s|;
    }
  }

  /** Stripping twice is the same as stripping once. */
  lemma StripIdempotent(s: string)
    ensures Strip(Strip(s)) == Strip(s)
  {
    var t := Strip(s);
    StripSpec(s);
    var i := LStripCut(t);
    var j := RStripCut(t[i..]);
    if t != [] {
      assert i == 0;
      assert t[i..] == t;
      assert j == |t|;
    }
  }
}

/** The Python string operations the record pipeline relies on: `str.split`
    on one character, `", ".join`, `str(n)` for a natural number and
    `int(s)` on a decimal string. */
module Strings {
  import opened Wrappers

  /* ---------- str.split(c) ---------- */

  /** `s.split(c)`: the pieces between occurrences of `c`, empty pieces kept. */
  function Split(s: string, c: char): (parts: seq<string>)
    ensures |parts| >= 1
    decreases |s|
  {
    if s == [] then [[]]
    else if s[0] == c then [[]] + Split(s[1..], c)
    else
      var rest := Split(s[1..], c);
      [[s[0]] + rest[0]] + rest[1..]
  }

  /** A string without the delimiter is one piece. */
  lemma {:induction false} SplitWhole(s: string, c: char)
    requires forall i :: 0 <= i < |s| ==> s[i] != c
    ensures Split(s, c) == [s]
    decreases |s|
  {
    if s != [] {
      assert forall i :: 0 <= i < |s[1..]| ==> s[1..][i] == s[i + 1];
      SplitWhole(s[1..], c);
      assert [s[0]] + s[1..] == s;
    }
  }

  /** Splitting around one occurrence of the delimiter splits each side
      independently. */
  lemma {:induction false} SplitAround(x: string, c: char, y: string)
    ensures Split(x + [c] + y, c) == Split(x, c) + Split(y, c)
    decreases |x|
  {
    var s := x + [c] + y;
    if x == [] {
      assert s == [c] + y;
      assert s[1..] == y;
    } else {
      assert s[0] == x[0];
      assert s[1..] == x[1..] + [c] + y;
      SplitAround(x[1..], c, y);
    }
  }

  /* ---------- ", ".join and its inverse ---------- */

  /** The separator the relation columns are joined with. */
  const Separator: string := ", "

  /** `sep.join(parts)` */
  function Join(parts: seq<string>, sep: string): string
    decreases |parts|
  {
    if |parts| == 0 then []
    else if |parts| == 1 then parts[0]
    else parts[0] + sep + Join(parts[1..], sep)
  }

  /** `s` has the separator `", "` starting at index `i`. */
  predicate SeparatorAt(s: string, i: int) {
    0 <= i && i + 1 < |s| && s[i] == ',' && s[i + 1] == ' '
  }

  predicate HasSeparator(s: string) {
    exists i :: 0 <= i < |s| && SeparatorAt(s, i)
  }

  /** `s.split(", ")`: scans left to right and cuts at every separator. */
  function SplitNames(s: string): (parts: seq<string>)
    ensures |parts| >= 1
    decreases |s|
  {
    if |s| < 2 then [s]
    else if s[0] == ',' && s[1] == ' ' then [[]] + SplitNames(s[2..])
    else
      var rest := SplitNames(s[1..]);
      [[s[0]] + rest[0]] + rest[1..]
  }

  /** A name without the separator is not cut. */
  lemma {:induction false} SplitNamesWhole(n: string)
    requires !HasSeparator(n)
    ensures SplitNames(n) == [n]
    decreases |n|
  {
    if |n| >= 2 {
      assert !SeparatorAt(n, 0);
      assert !HasSeparator(n[1..]) by {
        forall i | 0 <= i < |n[1..]| && SeparatorAt(n[1..], i)
          ensures false
        {
          assert SeparatorAt(n, i + 1);
        }
      }
      SplitNamesWhole(n[1..]);
      assert [n[0]] + n[1..] == n;
    }
  }

  /** A name without the separator, followed by the separator, is cut
      exactly at the separator: no occurrence straddles the boundary. */
  lemma {:induction false} SplitNamesAfter(n: string, rest: string)
    requires !HasSeparator(n)
    ensures SplitNames(n + Separator + rest) == [n] + SplitNames(rest)
    decreases |n|
  {
    var s := n + Separator + rest;
    if n == [] {
      assert s == Separator + rest;
      assert s[2..] == rest;
    } else {
      assert s[0] == n[0];
      assert s[1..] == n[1..] + Separator + rest;
      if |n| >= 2 {
        assert !SeparatorAt(n, 0);
        assert s[1] == n[1];
      } else {
        assert s[1] == ',';
      }
      assert !HasSeparator(n[1..]) by {
        forall i | 0 <= i < |n[1..]| && SeparatorAt(n[1..], i)
          ensures false
        {
          assert SeparatorAt(n, i + 1);
        }
      }
      SplitNamesAfter(n[1..], rest);
      assert [n[0]] + n[1..] == n;
    }
  }

  /** Joining with `", "` and splitting on `", "` gives back the names,
      provided there is at least one and none contains the separator. */
  lemma {:induction false} SplitJoinRoundTrip(names: seq<string>)
    requires names != []
    requires forall i :: 0 <= i < |names| ==> !HasSeparator(names[i])
    ensures SplitNames(Join(names, Separator)) == names
    decreases |names|
  {
    if |names| == 1 {
      SplitNamesWhole(names[0]);
    } else {
      SplitNamesAfter(names[0], Join(names[1..], Separator));
      SplitJoinRoundTrip(names[1..]);
      assert [names[0]] + names[1..] == names;
    }
  }

  /* ---------- decimal numbers ---------- */

  predicate IsDigit(c: char) {
    '0' <= c <= '9'
  }

  /** A non-empty string of ASCII decimal digits. */
  predicate IsDecimal(s: string) {
    s != [] && forall i :: 0 <= i < |s| ==> IsDigit(s[i])
  }

  /** The number a digit string denotes, most significant digit first;
      leading zeros are allowed, as `int("007")` allows them. */
  function DecimalValue(d: string): nat
    requires forall i :: 0 <= i < |d| ==> IsDigit(d[i])
    decreases |d|
  {
    if d == [] then 0
    else 10 * DecimalValue(d[..|d| - 1]) + DigitValue(d[|d| - 1])
  }

  function DigitValue(c: char): nat
    requires IsDigit(c)
  {
    c as int - '0' as int
  }

  function DigitChar(k: nat): (c: char)
    requires k < 10
    ensures IsDigit(c) && DigitValue(c) == k
  {
    (k + '0' as int) as char
  }

  /** `str(n)` for a natural number. */
  function Decimal(n: nat): (s: string)
    ensures IsDecimal(s)
    decreases n
  {
    if n < 10 then [DigitChar(n)] else Decimal(n / 10) + [DigitChar(n % 10)]
  }

  /** Reading back the decimal rendering of `n` gives `n`. */
  lemma {:induction false} DecimalRoundTrip(n: nat)
    ensures DecimalValue(Decimal(n)) == n
    decreases n
  {
    if n >= 10 {
      var s := Decimal(n);
      assert s[..|s| - 1] == Decimal(n / 10);
      DecimalRoundTrip(n / 10);
    }
  }

  /** `int(s)` on a string: an optional sign followed by ASCII digits;
      anything else raises `ValueError`. */
  function ParseInt(s: string): (r: Result<int>)
    ensures r.Ok? <==> IsDecimal(s) || (|s| >= 2 && s[0] in "+-" && IsDecimal(s[1..]))
    ensures r.Ok? && IsDecimal(s) ==> r.value == DecimalValue(s)
    ensures r.Ok? && s[0] == '-' ==> r.value == 0 - DecimalValue(s[1..]) as int
    ensures r.Ok? && s[0] == '+' ==> r.value == DecimalValue(s[1..])
    ensures r.Err? ==> r.error == ValueError
  {
    if IsDecimal(s) then Ok(DecimalValue(s))
    else if |s| >= 2 && s[0] == '-' && IsDecimal(s[1..]) then Ok(0 - DecimalValue(s[1..]) as int)
    else if |s| >= 2 && s[0] == '+' && IsDecimal(s[1..]) then Ok(DecimalValue(s[1..]))
    else Err(ValueError)
  }

  /** `int(str(n)) == n` */
  lemma ParseDecimal(n: nat)
    ensures ParseInt(Decimal(n)) == Ok(n)
  {
    DecimalRoundTrip(n);
  }
}

/**
 * The .NET string operations the core relies on, as functions on `seq<char>`:
 * `String.Split(char)`, `String.Join(char, string[])`, `String.Replace(".", "")`,
 * the digit filter `Where(char.IsDigit)`, the anchored pattern `^\d{9}$` and the
 * decimal rendering of an integer by `ToString()` and string interpolation.
 */
module Text {

  /** `char.IsDigit`, and the regular-expression class `\d`, on the ASCII digits. */
  predicate IsDigit(c: char) {
    '0' <= c <= '9'
  }

  predicate AllDigits(s: string) {
    forall i :: 0 <= i < |s| ==> IsDigit(s[i])
  }

  /** The number of occurrences of `c` in `s`. */
  function Count(s: string, c: char): nat {
    if s == [] then 0 else (if s[0] == c then 1 else 0) + Count(s[1..], c)
  }

  // ---------------------------------------------------------------------------------------
  // Filtering
  // ---------------------------------------------------------------------------------------

  /** `new string(s.Where(char.IsDigit).ToArray())`: the digits of `s`, in their order. */
  function KeepDigits(s: string): (r: string)
    ensures AllDigits(r)
    ensures |r| <= |s|
    ensures AllDigits(s) ==> r == s
  {
    if s == [] then []
    else if IsDigit(s[0]) then [s[0]] + KeepDigits(s[1..])
    else KeepDigits(s[1..])
  }

  /** Filtering distributes over concatenation: digits keep their relative order. */
  lemma {:induction false} KeepDigitsConcat(a: string, b: string)
    ensures KeepDigits(a + b) == KeepDigits(a) + KeepDigits(b)
  {
    if a != [] {
      assert (a + b)[1..] == a[1..] + b;
      KeepDigitsConcat(a[1..], b);
    } else {
      assert a + b == b;
    }
  }

  /** Every digit of `s` survives the filter as often as it occurs, and nothing else does. */
  lemma {:induction false} KeepDigitsCount(s: string, c: char)
    ensures Count(KeepDigits(s), c) == if IsDigit(c) then Count(s, c) else 0
  {
    if s != [] {
      KeepDigitsCount(s[1..], c);
      if IsDigit(s[0]) {
        assert ([s[0]] + KeepDigits(s[1..]))[1..] == KeepDigits(s[1..]);
      }
    }
  }

  /**
   * `Regex.IsMatch(s, @"^\d{9}$")`. Without the multiline option `$` matches at the end of
   * the input and also just before a final newline, so a tenth character `'\n'` is accepted.
   */
  predicate MatchesNineDigits(s: string) {
    (|s| == 9 && AllDigits(s)) || (|s| == 10 && AllDigits(s[..9]) && s[9] == '\n')
  }

  /** On a filtered string the pattern only checks the length. */
  lemma NineDigitsAfterFilter(s: string)
    ensures MatchesNineDigits(KeepDigits(s)) <==> |KeepDigits(s)| == 9
  {
    var d := KeepDigits(s);
    if |d| == 10 {
      assert IsDigit(d[9]);
    }
  }

  // ---------------------------------------------------------------------------------------
  // Removing a character
  // ---------------------------------------------------------------------------------------

  /** `s.Replace(c.ToString(), "")`: every occurrence of `c` removed. */
  function Without(s: string, c: char): (r: string)
    ensures |r| == |s| - Count(s, c)
    ensures c !in r
  {
    if s == [] then []
    else if s[0] == c then Without(s[1..], c)
    else [s[0]] + Without(s[1..], c)
  }

  /** Removing a character that does not occur changes nothing. */
  lemma {:induction false} WithoutAbsent(s: string, c: char)
    requires c !in s
    ensures Without(s, c) == s
  {
    if s != [] {
      assert c !in s[1..] by {
        assert forall i :: 0 <= i < |s[1..]| ==> s[1..][i] == s[i + 1];
      }
      WithoutAbsent(s[1..], c);
    }
  }

  // ---------------------------------------------------------------------------------------
  // Splitting and joining
  // ---------------------------------------------------------------------------------------

  /**
   * `s.Split(sep)` without options: every piece between separators, empty ones included,
   * so the empty string splits into one empty piece.
   */
  function Split(s: string, sep: char): (r: seq<string>)
    ensures |r| == Count(s, sep) + 1
    ensures forall i :: 0 <= i < |r| ==> sep !in r[i]
  {
    if s == [] then [""]
    else
      var rest := Split(s[1..], sep);
      if s[0] == sep then [""] + rest
      else [[s[0]] + rest[0]] + rest[1..]
  }

  /** `string.Join(sep, parts)`: the parts with one separator between neighbours. */
  function Join(sep: char, parts: seq<string>): string {
    if |parts| == 0 then ""
    else if |parts| == 1 then parts[0]
    else parts[0] + [sep] + Join(sep, parts[1..])
  }

  /** Joining the pieces of a split with the same separator restores the string. */
  lemma {:induction false} JoinSplit(s: string, sep: char)
    ensures Join(sep, Split(s, sep)) == s
  {
    if s != [] {
      var rest := Split(s[1..], sep);
      JoinSplit(s[1..], sep);
      if s[0] == sep {
        assert Join(sep, [""] + rest) == [sep] + Join(sep, rest) by {
          assert ([""] + rest)[1..] == rest;
        }
      } else if |rest| == 1 {
        assert s == [s[0]] + s[1..];
      } else {
        var p := [[s[0]] + rest[0]] + rest[1..];
        assert p[1..] == rest[1..];
        assert Join(sep, rest) == rest[0] + [sep] + Join(sep, rest[1..]);
        assert s == [s[0]] + s[1..];
      }
    }
  }

  /** Splitting a join of separator-free parts gives back the parts. */
  lemma {:induction false} SplitJoin(parts: seq<string>, sep: char)
    requires |parts| >= 1
    requires forall i :: 0 <= i < |parts| ==> sep !in parts[i]
    ensures Split(Join(sep, parts), sep) == parts
  {
    if |parts| == 1 {
      SplitPlain(parts[0], sep);
    } else {
      SplitJoin(parts[1..], sep);
      SplitAround(parts[0], Join(sep, parts[1..]), sep);
      assert parts == [parts[0]] + parts[1..];
    }
  }

  /** A string without the separator is one piece. */
  lemma {:induction false} SplitPlain(s: string, sep: char)
    requires sep !in s
    ensures Split(s, sep) == [s]
  {
    if s != [] {
      assert sep !in s[1..] by {
        assert forall i :: 0 <= i < |s[1..]| ==> s[1..][i] == s[i + 1];
      }
      SplitPlain(s[1..], sep);
      assert s == [s[0]] + s[1..];
    }
  }

  /** A separator after a separator-free head splits off exactly that head. */
  lemma {:induction false} SplitAround(head: string, tail: string, sep: char)
    requires sep !in head
    ensures Split(head + [sep] + tail, sep) == [head] + Split(tail, sep)
  {
    if head == [] {
      assert head + [sep] + tail == [sep] + tail;
      assert ([sep] + tail)[1..] == tail;
    } else {
      var s := head + [sep] + tail;
      assert s[0] == head[0] && s[1..] == head[1..] + [sep] + tail;
      assert sep !in head[1..] by {
        assert forall i :: 0 <= i < |head[1..]| ==> head[1..][i] == head[i + 1];
      }
      SplitAround(head[1..], tail, sep);
      assert [head[0]] + head[1..] == head;
    }
  }

  /** A string with exactly one separator splits into what precedes and what follows it. */
  lemma SplitInTwo(a: string, b: string, sep: char)
    requires sep !in a && sep !in b
    ensures Split(a + [sep] + b, sep) == [a, b]
  {
    SplitAround(a, b, sep);
    SplitPlain(b, sep);
  }

  // ---------------------------------------------------------------------------------------
  // Decimal rendering
  // ---------------------------------------------------------------------------------------

  function DigitChar(d: nat): (c: char)
    requires d < 10
    ensures IsDigit(c)
  {
    ['0', '1', '2', '3', '4', '5', '6', '7', '8', '9'][d]
  }

  function DigitValue(c: char): (d: nat)
    requires IsDigit(c)
    ensures d < 10 && DigitChar(d) == c
  {
    (c as int - '0' as int) as nat
  }

  /** The decimal digits of `n` without leading zeros; `0` is `"0"`. */
  function NatToString(n: nat): (r: string)
    ensures |r| >= 1 && AllDigits(r)
    ensures r[0] == '0' ==> n == 0
    decreases n
  {
    if n < 10 then [DigitChar(n)] else NatToString(n / 10) + [DigitChar(n % 10)]
  }

  /** `Int32.ToString()` and `Int64.ToString()`, rendered as the invariant culture renders them. */
  function IntToString(i: int): (r: string)
    ensures |r| >= 1
  {
    if i < 0 then "-" + NatToString(-i) else NatToString(i)
  }

  /** The value of a string of decimal digits, most significant first. */
  function ParseNat(s: string): nat
    requires AllDigits(s)
  {
    if s == [] then 0 else 10 * ParseNat(s[..|s| - 1]) + DigitValue(s[|s| - 1])
  }

  /** Rendering, then reading the digits back, gives the number. */
  lemma {:induction false} ParseNatToString(n: nat)
    ensures ParseNat(NatToString(n)) == n
    decreases n
  {
    var r := NatToString(n);
    if n < 10 {
      assert r[..0] == [];
    } else {
      ParseNatToString(n / 10);
      assert r[..|r| - 1] == NatToString(n / 10);
    }
  }

  /** A rendering starts with the minus sign exactly when the number is negative. */
  lemma IntToStringSign(i: int)
    ensures IntToString(i)[0] == '-' <==> i < 0
  {
    if i >= 0 {
      assert IsDigit(NatToString(i)[0]);
    }
  }

  /** Distinct integers have distinct renderings. */
  lemma IntToStringInjective(i: int, j: int)
    ensures IntToString(i) == IntToString(j) <==> i == j
  {
    IntToStringSign(i);
    IntToStringSign(j);
    if IntToString(i) == IntToString(j) {
      if i < 0 {
        var ni: nat, nj: nat := -i, -j;
        assert NatToString(ni) == IntToString(i)[1..] == IntToString(j)[1..] == NatToString(nj);
        ParseNatToString(ni);
        ParseNatToString(nj);
      } else {
        ParseNatToString(i);
        ParseNatToString(j);
      }
    }
  }
}

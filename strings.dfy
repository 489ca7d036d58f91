/** JavaScript string helpers the server relies on: `String.prototype.split`
    with a one-character separator, `Array.prototype.join`, `toLowerCase`,
    `parseInt` on well-formed decimal numerals and `Number.prototype.toString`
    on integers. */
module Strings {

  /** `s.split(d)`: the pieces between occurrences of `d`; never empty, and
      `"".split(d)` is `[""]`. */
  function Split(s: string, d: char): (r: seq<string>)
    ensures |r| >= 1
  {
    if |s| == 0 then [""]
    else
      var rest := Split(s[1..], d);
      if s[0] == d then [""] + rest
      else [[s[0]] + rest[0]] + rest[1..]
  }

  /** No piece of a split holds the separator, and joining the pieces back
      with it gives the string. */
  lemma {:induction false} SplitPieces(s: string, d: char)
    ensures forall i :: 0 <= i < |Split(s, d)| ==> d !in Split(s, d)[i]
    ensures Join(Split(s, d), [d]) == s
  {
    if |s| > 0 {
      var rest := Split(s[1..], d);
      SplitPieces(s[1..], d);
      if s[0] == d {
        assert Join([""] + rest, [d]) == [d] + Join(rest, [d]);
      } else {
        var r := [[s[0]] + rest[0]] + rest[1..];
        assert |rest| >= 2 ==> Join(rest, [d]) == rest[0] + [d] + Join(rest[1..], [d]);
        assert Join(r, [d]) == [s[0]] + Join(rest, [d]);
      }
    }
  }

  /** `parts.join(sep)`. */
  function Join(parts: seq<string>, sep: string): (r: string)
  {
    if |parts| == 0 then ""
    else if |parts| == 1 then parts[0]
    else parts[0] + sep + Join(parts[1..], sep)
  }

  /** Splitting a join gives the parts back, when no part contains the
      separator: the other half of the round trip stated by Split. */
  lemma {:induction false} SplitJoin(parts: seq<string>, d: char)
    requires |parts| >= 1
    requires forall i :: 0 <= i < |parts| ==> d !in parts[i]
    ensures Split(Join(parts, [d]), d) == parts
  {
    if |parts| == 1 {
      SplitNoSeparator(parts[0], d);
    } else {
      SplitJoin(parts[1..], d);
      SplitAround(parts[0], Join(parts[1..], [d]), d);
    }
  }

  /** A string without the separator splits into itself alone. */
  lemma {:induction false} SplitNoSeparator(s: string, d: char)
    requires d !in s
    ensures Split(s, d) == [s]
  {
    if |s| > 0 {
      SplitNoSeparator(s[1..], d);
      assert [s[0]] + s[1..] == s;
    }
  }

  /** Splitting `a + [d] + b`, where `a` has no separator, puts `a` in front of
      the pieces of `b`. */
  lemma {:induction false} SplitAround(a: string, b: string, d: char)
    requires d !in a
    ensures Split(a + [d] + b, d) == [a] + Split(b, d)
  {
    if |a| == 0 {
      assert a + [d] + b == [d] + b;
      assert ([d] + b)[1..] == b;
    } else {
      SplitAround(a[1..], b, d);
      var s := a + [d] + b;
      assert s[0] == a[0] && s[1..] == a[1..] + [d] + b;
      assert [a[0]] + a[1..] == a;
    }
  }

  /** `toLowerCase` on the ASCII letters; other characters are kept. */
  function Lower(s: string): (r: string)
    ensures |r| == |s|
    ensures forall i :: 0 <= i < |s| ==> r[i] == LowerChar(s[i])
  {
    if |s| == 0 then "" else [LowerChar(s[0])] + Lower(s[1..])
  }

  function LowerChar(c: char): (r: char)
  {
    if 'A' <= c <= 'Z' then (c as int - 'A' as int + 'a' as int) as char else c
  }

  predicate IsDigit(c: char)
  {
    '0' <= c <= '9'
  }

  predicate AllDigits(s: string)
  {
    |s| > 0 && forall i :: 0 <= i < |s| ==> IsDigit(s[i])
  }

  /** A decimal numeral with an optional sign: the input on which `parseInt`
      reads every character. */
  predicate Numeral(s: string)
  {
    AllDigits(s) || (|s| > 1 && (s[0] == '-' || s[0] == '+') && AllDigits(s[1..]))
  }

  function DigitsValue(s: string): (r: nat)
    requires AllDigits(s)
  {
    if |s| == 1 then s[0] as int - '0' as int
    else DigitsValue(s[..|s| - 1]) * 10 + (s[|s| - 1] as int - '0' as int)
  }

  /** `parseInt(s)` for a numeral `s`. */
  function ParseInt(s: string): (r: int)
    requires Numeral(s)
  {
    if AllDigits(s) then DigitsValue(s)
    else if s[0] == '-' then -(DigitsValue(s[1..]) as int)
    else DigitsValue(s[1..])
  }

  function ShowNat(n: nat): (r: string)
    ensures AllDigits(r)
  {
    if n < 10 then [( '0' as int + n) as char]
    else ShowNat(n / 10) + [('0' as int + n % 10) as char]
  }

  /** `n.toString()` for an integer `n`: shortest decimal form, `-` in front of
      a negative number. */
  function Show(n: int): (r: string)
  {
    if n < 0 then "-" + ShowNat(-n) else ShowNat(n)
  }

  lemma {:induction false} ParseShowNat(n: nat)
    ensures DigitsValue(ShowNat(n)) == n
  {
    if n >= 10 {
      ParseShowNat(n / 10);
      var s := ShowNat(n);
      assert s[..|s| - 1] == ShowNat(n / 10);
    }
  }

  /** `parseInt(n.toString()) == n`; the text holds neither `,` nor `|`. */
  lemma ParseShow(n: int)
    ensures Numeral(Show(n))
    ensures ParseInt(Show(n)) == n
    ensures ',' !in Show(n) && '|' !in Show(n)
  {
    if n < 0 {
      ParseShowNat(-n);
      assert Show(n)[1..] == ShowNat(-n);
      assert !AllDigits(Show(n));
    } else {
      ParseShowNat(n);
    }
  }

  /** Two integers print alike only when they are equal. */
  lemma ShowInjective(a: int, b: int)
    requires Show(a) == Show(b)
    ensures a == b
  {
    ParseShow(a);
    ParseShow(b);
  }
}

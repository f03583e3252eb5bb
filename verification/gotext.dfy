/**
 * The pieces of Go's `strings` and `fmt` packages the driver relies on:
 * `strings.Split` and `strings.Join` with a one-character separator, and the
 * `%d`, `%02d` and `%q` verbs of `fmt.Sprintf` for the values the driver
 * formats.
 */
module GoText {

  /** Number of occurrences of `c` in `s`. */
  function Count(s: string, c: char): nat
  {
    if s == [] then 0 else (if s[0] == c then 1 else 0) + Count(s[1..], c)
  }

  lemma {:induction false} CountZero(s: string, c: char)
    ensures Count(s, c) == 0 <==> c !in s
  {
    if s != [] {
      CountZero(s[1..], c);
      assert s == [s[0]] + s[1..];
    }
  }

  /**
   * `strings.Split(s, string(sep))`: the pieces of `s` between occurrences of
   * `sep`. k separators give k + 1 pieces, so "" gives [""] and "," gives
   * ["", ""]; no piece contains the separator.
   */
  function Split(s: string, sep: char): (fields: seq<string>)
    ensures |fields| == Count(s, sep) + 1
    ensures forall i :: 0 <= i < |fields| ==> sep !in fields[i]
  {
    if s == [] then [""]
    else
      var rest := Split(s[1..], sep);
      if s[0] == sep then [""] + rest
      else [[s[0]] + rest[0]] + rest[1..]
  }

  /** `strings.Join(parts, string(sep))`. */
  function Join(parts: seq<string>, sep: char): string
  {
    if parts == [] then ""
    else if |parts| == 1 then parts[0]
    else parts[0] + [sep] + Join(parts[1..], sep)
  }

  lemma JoinConsFirst(c: char, parts: seq<string>, sep: char)
    requires parts != []
    ensures Join([[c] + parts[0]] + parts[1..], sep) == [c] + Join(parts, sep)
  {
    var q := [[c] + parts[0]] + parts[1..];
    if |parts| > 1 {
      assert q[1..] == parts[1..];
    }
  }

  /** Joining the pieces back with the separator gives the original string. */
  lemma {:induction false} JoinSplit(s: string, sep: char)
    ensures Join(Split(s, sep), sep) == s
  {
    if s != [] {
      var rest := Split(s[1..], sep);
      JoinSplit(s[1..], sep);
      if s[0] == sep {
        assert ([""] + rest)[1..] == rest;
        assert s == [sep] + s[1..];
      } else {
        JoinConsFirst(s[0], rest, sep);
        assert s == [s[0]] + s[1..];
      }
    }
  }

  lemma {:induction false} SplitNoSeparator(a: string, sep: char)
    requires sep !in a
    ensures Split(a, sep) == [a]
  {
    if a != [] {
      SplitNoSeparator(a[1..], sep);
      assert [a[0]] + a[1..] == a;
    }
  }

  lemma {:induction false} SplitFirstPiece(a: string, sep: char, tail: string)
    requires sep !in a
    ensures Split(a + [sep] + tail, sep) == [a] + Split(tail, sep)
  {
    var s := a + [sep] + tail;
    if a == [] {
      assert s == [sep] + tail;
      assert s[1..] == tail;
    } else {
      SplitFirstPiece(a[1..], sep, tail);
      assert s[0] == a[0];
      assert s[1..] == a[1..] + [sep] + tail;
      assert [a[0]] + a[1..] == a;
    }
  }

  /** Splitting pieces that were joined gives the pieces back. */
  lemma {:induction false} SplitJoin(parts: seq<string>, sep: char)
    requires parts != []
    requires forall i :: 0 <= i < |parts| ==> sep !in parts[i]
    ensures Split(Join(parts, sep), sep) == parts
  {
    if |parts| == 1 {
      SplitNoSeparator(parts[0], sep);
    } else {
      SplitJoin(parts[1..], sep);
      SplitFirstPiece(parts[0], sep, Join(parts[1..], sep));
      assert [parts[0]] + parts[1..] == parts;
    }
  }

  /** Two pieces around a single separator. */
  lemma SplitTwo(a: string, sep: char, b: string)
    requires sep !in a && sep !in b
    ensures Split(a + [sep] + b, sep) == [a, b]
  {
    SplitJoin([a, b], sep);
    assert [a, b][1..] == [b];
  }

  /** Dropping the first piece of a three-piece concatenation leaves the other two. */
  lemma DropPrefix(a: string, b: string, c: string)
    ensures (a + b + c)[|a|..] == b + c
  {
  }

  /** Four pieces joined: three separators. */
  lemma JoinFour(ms: seq<string>, sep: char)
    requires |ms| == 4
    ensures Join(ms, sep) == ms[0] + [sep] + (ms[1] + [sep] + (ms[2] + [sep] + ms[3]))
  {
    var t1, t2, t3 := ms[1..], ms[2..], ms[3..];
    assert t3 == [ms[3]];
    assert t2[1..] == t3;
    assert Join(t2, sep) == ms[2] + [sep] + ms[3];
    assert t1[1..] == t2;
    assert Join(t1, sep) == ms[1] + [sep] + Join(t2, sep);
  }

  /** Joining lines: the join of a concatenation puts one separator between the two joins. */
  lemma {:induction false} JoinConcat(a: seq<string>, b: seq<string>, sep: char)
    requires a != [] && b != []
    ensures Join(a + b, sep) == Join(a, sep) + [sep] + Join(b, sep)
  {
    if |a| == 1 {
      assert (a + b)[1..] == b;
    } else {
      JoinConcat(a[1..], b, sep);
      assert (a + b)[1..] == a[1..] + b;
    }
  }

  // ---------------------------------------------------------------------------
  // Decimal formatting.

  predicate IsDigit(c: char)
  {
    '0' <= c <= '9'
  }

  predicate IsDigits(s: string)
  {
    forall i :: 0 <= i < |s| ==> IsDigit(s[i])
  }

  function DigitChar(d: nat): (c: char)
    requires d < 10
  {
    (48 + d) as char
  }

  /** The number a string of decimal digits denotes (leading zeros allowed). */
  function DigitsValue(s: string): nat
    requires IsDigits(s)
  {
    if s == [] then 0
    else DigitsValue(s[..|s| - 1]) * 10 + ((s[|s| - 1] as int) - 48)
  }

  /**
   * `%d` of a non-negative number: its shortest decimal digits, with no
   * leading zero except for 0 itself, and denoting exactly `n`.
   */
  function Decimal(n: nat): (s: string)
    ensures s != [] && IsDigits(s)
    ensures |s| > 1 ==> s[0] != '0'
    ensures DigitsValue(s) == n
  {
    if n < 10 then [DigitChar(n)]
    else
      var s := Decimal(n / 10) + [DigitChar(n % 10)];
      assert s[..|s| - 1] == Decimal(n / 10);
      s
  }

  /** `%d` of any Go int: a minus sign before the digits of a negative number. */
  function IntText(n: int): string
  {
    if n < 0 then "-" + Decimal(-n) else Decimal(n)
  }

  /** `%02d`: as `%d`, padded on the left with zeros to a width of two. */
  function ZeroPad2(n: int): string
  {
    if 0 <= n < 10 then "0" + Decimal(n) else IntText(n)
  }

  /** A leading zero does not change the value of a digit string. */
  lemma {:induction false} LeadingZeroValue(s: string)
    requires IsDigits(s)
    ensures IsDigits("0" + s) && DigitsValue("0" + s) == DigitsValue(s)
  {
    var z := "0" + s;
    if s != [] {
      assert z[..|z| - 1] == "0" + s[..|s| - 1];
      LeadingZeroValue(s[..|s| - 1]);
    }
  }

  /** For the indices the driver formats, `%02d` is all digits and denotes the index. */
  lemma ZeroPad2Value(n: nat)
    ensures IsDigits(ZeroPad2(n)) && |ZeroPad2(n)| >= 2
    ensures DigitsValue(ZeroPad2(n)) == n
  {
    if n < 10 {
      LeadingZeroValue(Decimal(n));
    }
  }

  /** The longest prefix of decimal digits. */
  function TakeDigits(s: string): (d: string)
    ensures IsDigits(d)
  {
    if s != [] && IsDigit(s[0]) then [s[0]] + TakeDigits(s[1..]) else []
  }

  lemma {:induction false} TakeDigitsOf(d: string, rest: string)
    requires IsDigits(d)
    requires rest == [] || !IsDigit(rest[0])
    ensures TakeDigits(d + rest) == d
  {
    if d != [] {
      TakeDigitsOf(d[1..], rest);
      assert (d + rest)[1..] == d[1..] + rest;
      assert [d[0]] + d[1..] == d;
    } else {
      assert d + rest == rest;
    }
  }

  /**
   * `%q` of a string that needs no escaping: the string between double
   * quotes. Go escapes quotes, backslashes and unprintable characters; the
   * strings quoted here are flag names and user input, and escaping is not
   * modelled.
   */
  function Quote(s: string): string
  {
    "\"" + s + "\""
  }
}

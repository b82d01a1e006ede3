/**
 * The string operations the statement builders are written with: Python's
 * `sep.join(parts)`, `s.split(c)`, ASCII case mapping, `startswith`, and the
 * decimal rendering `str(n)` of an integer. Each rendering comes with the
 * decoding that undoes it, so that the lemmas can say no information is lost.
 */
module Text {

  /** The parts, in order, with the separator between each two neighbours. */
  function JoinWith(sep: string, parts: seq<string>): string
    decreases |parts|
  {
    if |parts| == 0 then ""
    else if |parts| == 1 then parts[0]
    else JoinWith(sep, parts[..|parts| - 1]) + sep + parts[|parts| - 1]
  }

  /** Joining one more part adds the separator and the part at the end. */
  lemma JoinAppend(sep: string, parts: seq<string>, last: string)
    requires |parts| > 0
    ensures JoinWith(sep, parts + [last]) == JoinWith(sep, parts) + sep + last
  {
    assert (parts + [last])[..|parts|] == parts;
  }

  /** The joined string begins with the first part. */
  lemma {:induction false} JoinStartsWith(sep: string, parts: seq<string>)
    requires |parts| > 0
    ensures |parts[0]| <= |JoinWith(sep, parts)|
    ensures JoinWith(sep, parts)[..|parts[0]|] == parts[0]
    decreases |parts|
  {
    if |parts| > 1 {
      var init := parts[..|parts| - 1];
      JoinStartsWith(sep, init);
      assert init[0] == parts[0];
      var j := JoinWith(sep, init);
      assert JoinWith(sep, parts) == j + sep + parts[|parts| - 1];
      assert (j + sep + parts[|parts| - 1])[..|parts[0]|] == j[..|parts[0]|];
    }
  }

  /** Every character of a joined string comes from the separator or from a part. */
  lemma {:induction false} JoinChars(sep: string, parts: seq<string>, c: char)
    requires c in JoinWith(sep, parts)
    ensures c in sep || exists k :: 0 <= k < |parts| && c in parts[k]
    decreases |parts|
  {
    if |parts| > 1 {
      var init, last := parts[..|parts| - 1], parts[|parts| - 1];
      var j := JoinWith(sep, init);
      if c in j {
        JoinChars(sep, init, c);
        if c !in sep {
          var k :| 0 <= k < |init| && c in init[k];
          assert parts[k] == init[k];
        }
      } else if c !in sep {
        assert c in last;
      }
    } else if |parts| == 1 {
      assert c in parts[0];
    }
  }

  /**
   * Joining `a` with the already joined `b` gives the same string as joining
   * the parts of `a` and `b` one by one.
   */
  lemma {:induction false} JoinFlatten(sep: string, a: seq<string>, b: seq<string>)
    requires |a| > 0 && |b| > 0
    ensures JoinWith(sep, a + [JoinWith(sep, b)]) == JoinWith(sep, a + b)
    decreases |b|
  {
    if |b| == 1 {
      assert JoinWith(sep, b) == b[0];
      assert a + [b[0]] == a + b;
    } else {
      var init, last := b[..|b| - 1], b[|b| - 1];
      JoinFlatten(sep, a, init);
      JoinAppend(sep, a, JoinWith(sep, b));
      JoinAppend(sep, a, JoinWith(sep, init));
      assert a + b == (a + init) + [last];
      JoinAppend(sep, a + init, last);
    }
  }

  /** The index of the last occurrence of `c` in `s`, or -1 when there is none. */
  function LastIndexOf(s: string, c: char): (k: int)
    ensures -1 <= k < |s|
    ensures k >= 0 ==> s[k] == c
    ensures forall j :: k < j < |s| ==> s[j] != c
    decreases |s|
  {
    if |s| == 0 then -1
    else if s[|s| - 1] == c then |s| - 1
    else LastIndexOf(s[..|s| - 1], c)
  }

  /** A separator placed right before a part free of it is the last one. */
  lemma LastIndexOfBefore(a: string, c: char, b: string)
    requires c !in b
    ensures LastIndexOf(a + [c] + b, c) == |a|
  {
    var s := a + [c] + b;
    var k := LastIndexOf(s, c);
    assert s[|a|] == c;
    assert k >= |a|;
  }

  /** Splitting on a character: the pieces between its occurrences, in order. */
  function SplitOn(s: string, c: char): (parts: seq<string>)
    ensures |parts| > 0
    ensures forall k :: 0 <= k < |parts| ==> c !in parts[k]
    ensures parts[|parts| - 1] == s[LastIndexOf(s, c) + 1..]
    decreases |s|
  {
    var k := LastIndexOf(s, c);
    if k < 0 then [s] else SplitOn(s[..k], c) + [s[k + 1..]]
  }

  /** A string free of the separator splits into itself alone. */
  lemma SplitNone(s: string, c: char)
    requires LastIndexOf(s, c) < 0
    ensures SplitOn(s, c) == [s]
  {
  }

  /** Splitting a string that ends in a separator and a separator-free tail. */
  lemma SplitOnLast(a: string, c: char, b: string)
    requires c !in b
    ensures SplitOn(a + [c] + b, c) == SplitOn(a, c) + [b]
  {
    var s := a + [c] + b;
    LastIndexOfBefore(a, c, b);
    assert s[..|a|] == a;
    assert s[|a| + 1..] == b;
  }

  /** Joining the pieces of a split with the separator gives the string back. */
  lemma {:induction false} JoinSplit(s: string, c: char)
    ensures JoinWith([c], SplitOn(s, c)) == s
    decreases |s|
  {
    var k := LastIndexOf(s, c);
    if k >= 0 {
      var head, tail := s[..k], s[k + 1..];
      assert s == head + [c] + tail;
      SplitOnLast(head, c, tail);
      JoinSplit(head, c);
      JoinAppend([c], SplitOn(head, c), tail);
    } else {
      SplitNone(s, c);
    }
  }

  /** Splitting a join of separator-free parts gives the parts back. */
  lemma {:induction false} SplitJoin(parts: seq<string>, c: char)
    requires |parts| > 0
    requires forall k :: 0 <= k < |parts| ==> c !in parts[k]
    ensures SplitOn(JoinWith([c], parts), c) == parts
    decreases |parts|
  {
    if |parts| == 1 {
      assert JoinWith([c], parts) == parts[0];
      assert c !in parts[0];
    } else {
      var init, last := parts[..|parts| - 1], parts[|parts| - 1];
      assert parts == init + [last];
      JoinAppend([c], init, last);
      SplitOnLast(JoinWith([c], init), c, last);
      SplitJoin(init, c);
    }
  }

  predicate StartsWith(s: string, prefix: string)
  {
    |prefix| <= |s| && s[..|prefix|] == prefix
  }

  function LowerChar(ch: char): char
  {
    if 'A' <= ch <= 'Z' then (ch as int + 32) as char else ch
  }

  function UpperChar(ch: char): char
  {
    if 'a' <= ch <= 'z' then (ch as int - 32) as char else ch
  }

  /** Lower-casing, on ASCII letters. */
  function Lower(s: string): string
  {
    seq(|s|, i requires 0 <= i < |s| => LowerChar(s[i]))
  }

  /** Upper-casing, on ASCII letters. */
  function Upper(s: string): string
  {
    seq(|s|, i requires 0 <= i < |s| => UpperChar(s[i]))
  }

  function DigitChar(d: nat): char
    requires d < 10
  {
    (48 + d) as char
  }

  function DigitValue(ch: char): nat
  {
    if '0' <= ch <= '9' then ch as int - 48 else 0
  }

  /** The decimal rendering of a natural number: its digits, without leading zeros. */
  function NatToString(n: nat): (r: string)
    ensures |r| > 0
    ensures forall i :: 0 <= i < |r| ==> '0' <= r[i] <= '9'
    decreases n
  {
    if n < 10 then [DigitChar(n)] else NatToString(n / 10) + [DigitChar(n % 10)]
  }

  /** The decimal rendering of an integer: a minus sign before the digits when negative. */
  function IntToString(i: int): (r: string)
    ensures |r| > 0
    ensures forall k :: 0 <= k < |r| ==> r[k] == '-' || '0' <= r[k] <= '9'
  {
    if i < 0 then "-" + NatToString(-i) else NatToString(i)
  }

  /** The value of a string of decimal digits (the decoding of NatToString). */
  function ParseNat(s: string): nat
    decreases |s|
  {
    if |s| == 0 then 0 else ParseNat(s[..|s| - 1]) * 10 + DigitValue(s[|s| - 1])
  }

  /** The decoding of IntToString. */
  function ParseInt(s: string): int
  {
    if |s| > 0 && s[0] == '-' then 0 - ParseNat(s[1..]) else ParseNat(s)
  }

  lemma {:induction false} NatRoundTrip(n: nat)
    ensures ParseNat(NatToString(n)) == n
    decreases n
  {
    if n >= 10 {
      NatRoundTrip(n / 10);
      var s := NatToString(n / 10) + [DigitChar(n % 10)];
      assert s[..|s| - 1] == NatToString(n / 10);
    }
  }

  /** Decimal rendering loses nothing: parsing it gives the integer back. */
  lemma IntRoundTrip(i: int)
    ensures ParseInt(IntToString(i)) == i
  {
    if i < 0 {
      NatRoundTrip(-i);
      assert ("-" + NatToString(-i))[1..] == NatToString(-i);
    } else {
      NatRoundTrip(i);
    }
  }
}

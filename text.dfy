/** Decimal rendering of integers and the separator-joined text lines the
    converters write, together with their parsers (Python's `str(n)`,
    `' '.join`, `str.split(sep)` and `int(s)`). */
module Text {

  predicate IsDigit(c: char)
  {
    '0' <= c <= '9'
  }

  function DigitChar(d: nat): (c: char)
    requires d < 10
    ensures IsDigit(c) && c as int - '0' as int == d
  {
    ('0' as int + d) as char
  }

  /** Decimal digits of `n`, most significant first, without leading zeros. */
  function NatToString(n: nat): (s: string)
    ensures 1 <= |s|
    ensures forall k :: 0 <= k < |s| ==> IsDigit(s[k])
    ensures s[0] == '0' ==> n == 0
    decreases n
  {
    if n < 10 then [DigitChar(n)] else NatToString(n / 10) + [DigitChar(n % 10)]
  }

  /** The value of a string of decimal digits. */
  function NatFromString(s: string): nat
    requires forall k :: 0 <= k < |s| ==> IsDigit(s[k])
  {
    if |s| == 0 then 0
    else
      assert IsDigit(s[|s| - 1]);
      10 * NatFromString(s[..|s| - 1]) + (s[|s| - 1] as int - '0' as int)
  }

  lemma {:induction false} NatStringRoundTrip(n: nat)
    ensures NatFromString(NatToString(n)) == n
    decreases n
  {
    if n >= 10 {
      var s := NatToString(n);
      assert s[..|s| - 1] == NatToString(n / 10);
      NatStringRoundTrip(n / 10);
    }
  }

  /** Decimal rendering of `n` is one-to-one. */
  lemma NatToStringInjective(m: nat, n: nat)
    ensures NatToString(m) == NatToString(n) ==> m == n
  {
    NatStringRoundTrip(m);
    NatStringRoundTrip(n);
  }

  /** Python's `str(i)` for an integer: a minus sign before the digits of a negative value. */
  function IntToString(i: int): (s: string)
    ensures 1 <= |s|
    ensures forall k :: 0 <= k < |s| ==> IsDigit(s[k]) || s[k] == '-'
    ensures IsIntString(s)
    ensures s[0] == '-' <==> i < 0
    ensures var digits := if i < 0 then s[1..] else s;
      1 <= |digits| && (digits[0] == '0' ==> i == 0)
  {
    if i < 0 then "-" + NatToString(-i) else NatToString(i)
  }

  predicate IsIntString(s: string)
  {
    if 0 < |s| && s[0] == '-' then forall k :: 1 <= k < |s| ==> IsDigit(s[k])
    else forall k :: 0 <= k < |s| ==> IsDigit(s[k])
  }

  /** Python's `int(s)` on a string of the form `IntToString` produces. */
  function IntFromString(s: string): int
    requires IsIntString(s)
  {
    if 0 < |s| && s[0] == '-' then -(NatFromString(s[1..]) as int) else NatFromString(s)
  }

  lemma IntStringRoundTrip(i: int)
    ensures IsIntString(IntToString(i)) && IntFromString(IntToString(i)) == i
  {
    if i < 0 {
      var s := IntToString(i);
      assert s[1..] == NatToString(-i);
      NatStringRoundTrip(-i);
    } else {
      NatStringRoundTrip(i);
    }
  }

  /** `sep.join(parts)` for a non-empty list of parts. */
  function Join(sep: char, parts: seq<string>): string
    requires 1 <= |parts|
  {
    if |parts| == 1 then parts[0] else parts[0] + [sep] + Join(sep, parts[1..])
  }

  /** `s.split(sep)` for a single separator character: keeps empty pieces, so
      the result always has one more piece than `s` has separators. */
  function Split(sep: char, s: string): (parts: seq<string>)
    ensures 1 <= |parts|
  {
    if |s| == 0 then [""]
    else
      var rest := Split(sep, s[1..]);
      if s[0] == sep then [""] + rest else [[s[0]] + rest[0]] + rest[1..]
  }

  /** Splitting a piece that holds no separator, followed by `tail`, yields that
      piece followed by the pieces of `tail`. */
  lemma {:induction false} SplitPiece(sep: char, w: string, tail: string)
    requires sep !in w
    ensures Split(sep, w + [sep] + tail) == [w] + Split(sep, tail)
    ensures Split(sep, w) == [w]
    decreases |w|
  {
    if |w| == 0 {
      assert [] + [sep] + tail == [sep] + tail;
      assert ([sep] + tail)[1..] == tail;
    } else {
      SplitPiece(sep, w[1..], tail);
      assert (w + [sep] + tail)[1..] == w[1..] + [sep] + tail;
      assert [w[0]] + w[1..] == w;
    }
  }

  /** `split` undoes `join` when no part contains the separator. */
  lemma {:induction false} SplitJoin(sep: char, parts: seq<string>)
    requires 1 <= |parts|
    requires forall k :: 0 <= k < |parts| ==> sep !in parts[k]
    ensures Split(sep, Join(sep, parts)) == parts
    decreases |parts|
  {
    if |parts| == 1 {
      SplitPiece(sep, parts[0], "");
    } else {
      SplitPiece(sep, parts[0], Join(sep, parts[1..]));
      SplitJoin(sep, parts[1..]);
      assert [parts[0]] + parts[1..] == parts;
    }
  }

  /** A character of a joined string is a separator or a character of some part. */
  lemma {:induction false} JoinChars(sep: char, parts: seq<string>, c: char)
    requires 1 <= |parts|
    requires c != sep
    requires forall k :: 0 <= k < |parts| ==> c !in parts[k]
    ensures c !in Join(sep, parts)
    decreases |parts|
  {
    if |parts| > 1 {
      JoinChars(sep, parts[1..], c);
    }
  }
}

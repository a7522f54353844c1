/** Decimal text of integer ids, as JavaScript's `String(n)` writes an
    integral number below 10^21 in magnitude (larger ones are written in
    exponent form, which is not modelled), and `Array.prototype.join(",")`
    over such ids; with
    the inverse readings, so that what a URL carries can be read back. */
module Decimal {
  import opened Shared

  predicate IsDigit(c: char)
  {
    '0' <= c <= '9'
  }

  predicate AllDigits(t: string)
  {
    forall i :: 0 <= i < |t| ==> IsDigit(t[i])
  }

  function DigitChar(d: nat): (c: char)
    requires d < 10
    ensures IsDigit(c) && c as int - '0' as int == d
  {
    (d + '0' as int) as char
  }

  function DigitValue(c: char): (d: nat)
    requires IsDigit(c)
    ensures d < 10
  {
    c as int - '0' as int
  }

  function NatToString(n: nat): (s: string)
    ensures |s| > 0 && AllDigits(s)
    decreases n
  {
    if n < 10 then [DigitChar(n)] else NatToString(n / 10) + [DigitChar(n % 10)]
  }

  /** `String(n)` for an integral `n` below 10^21 in magnitude: a minus
      sign for negatives, then the digits of the magnitude. */
  function IntToString(n: int): (s: string)
    ensures |s| > 0 && ',' !in s
  {
    if n < 0 then "-" + NatToString(-n) else NatToString(n)
  }

  /** The text of an id is the digits of a non-negative id, or a minus sign
      followed by the digits of a negative one's magnitude. */
  lemma IntToStringShape(n: int)
    ensures n >= 0 ==> AllDigits(IntToString(n))
    ensures n < 0 ==> var s := IntToString(n); |s| > 1 && s[0] == '-' && AllDigits(s[1..])
  {
    if n < 0 {
      assert IntToString(n)[1..] == NatToString(-n);
    }
  }

  function ParseNat(s: string): nat
    requires |s| > 0 && AllDigits(s)
    decreases |s|
  {
    if |s| == 1 then DigitValue(s[0])
    else ParseNat(s[..|s| - 1]) * 10 + DigitValue(s[|s| - 1])
  }

  /** Reads back what IntToString writes; anything else is None. */
  function ParseInt(s: string): Option<int>
  {
    if |s| > 1 && s[0] == '-' && AllDigits(s[1..]) then
      Some(0 - ParseNat(s[1..]) as int)
    else if |s| > 0 && AllDigits(s) then
      Some(ParseNat(s))
    else None
  }

  lemma {:induction false} NatRoundTrip(n: nat)
    ensures ParseNat(NatToString(n)) == n
    decreases n
  {
    if n >= 10 {
      NatRoundTrip(n / 10);
      var s := NatToString(n);
      assert s[..|s| - 1] == NatToString(n / 10);
    }
  }

  /** A minus sign followed by the digits of `m` reads as `-m`. */
  lemma ParseNegative(t: string, m: nat)
    requires |t| > 0 && AllDigits(t) && ParseNat(t) == m
    ensures ParseInt("-" + t) == Some(0 - m)
  {
    assert ("-" + t)[1..] == t;
  }

  /** The digits of `m` alone read as `m`. */
  lemma ParseDigits(t: string, m: nat)
    requires |t| > 0 && AllDigits(t) && ParseNat(t) == m
    ensures ParseInt(t) == Some(m as int)
  {
    assert IsDigit(t[0]) && t[0] != '-';
  }

  lemma IntRoundTrip(n: int)
    ensures ParseInt(IntToString(n)) == Some(n)
  {
    if n < 0 {
      var t := NatToString(-n);
      NatRoundTrip(-n);
      ParseNegative(t, -n);
      assert IntToString(n) == "-" + t;
    } else {
      var t := NatToString(n);
      NatRoundTrip(n);
      ParseDigits(t, n);
      assert IntToString(n) == t;
    }
  }

  /** `ids.join(",")` */
  function Join(ids: seq<int>): (s: string)
    ensures |ids| == 0 <==> s == ""
    ensures |ids| > 0 ==> s[0] != ',' && s[|s| - 1] != ','
    decreases |ids|
  {
    if |ids| == 0 then ""
    else if |ids| == 1 then IntToString(ids[0])
    else IntToString(ids[0]) + "," + Join(ids[1..])
  }

  /** `s.split(",")` */
  function Split(s: string): (parts: seq<string>)
    ensures |parts| > 0
    decreases |s|
  {
    if |s| == 0 then [""]
    else
      var rest := Split(s[1..]);
      if s[0] == ',' then [""] + rest else [[s[0]] + rest[0]] + rest[1..]
  }

  /** Splitting text with no comma gives it back whole. */
  lemma {:induction false} SplitNoComma(a: string)
    requires ',' !in a
    ensures Split(a) == [a]
    decreases |a|
  {
    if |a| > 0 {
      SplitNoComma(a[1..]);
      assert [a[0]] + a[1..] == a;
    }
  }

  /** A comma-free prefix followed by a comma splits off as the first part. */
  lemma {:induction false} SplitAtComma(a: string, b: string)
    requires ',' !in a
    ensures Split(a + "," + b) == [a] + Split(b)
    decreases |a|
  {
    if |a| == 0 {
      assert a + "," + b == [','] + b;
      assert (a + "," + b)[1..] == b;
    } else {
      assert (a + "," + b)[1..] == a[1..] + "," + b;
      SplitAtComma(a[1..], b);
      assert [a[0]] + a[1..] == a;
    }
  }

  /** Reads a comma-separated id list back. */
  function ParseIds(parts: seq<string>): Option<seq<int>>
    decreases |parts|
  {
    if |parts| == 0 then Some([])
    else
      match (ParseInt(parts[0]), ParseIds(parts[1..]))
      case (Some(n), Some(ns)) => Some([n] + ns)
      case _ => None
  }

  /** Reading one more part in front of a readable list. */
  lemma ParseIdsCons(part: string, rest: seq<string>, n: int, ns: seq<int>)
    requires ParseInt(part) == Some(n) && ParseIds(rest) == Some(ns)
    ensures ParseIds([part] + rest) == Some([n] + ns)
  {
    assert ([part] + rest)[1..] == rest;
  }

  /** One comma-free readable part alone. */
  lemma ReadOne(head: string, n: int)
    requires ',' !in head && ParseInt(head) == Some(n)
    ensures ParseIds(Split(head)) == Some([n])
  {
    SplitNoComma(head);
    ParseIdsCons(head, [], n, []);
    assert [head] + [] == [head] && [n] + [] == [n];
  }

  /** One comma-free readable part in front of a readable list. */
  lemma ReadFront(head: string, tail: string, n: int, ns: seq<int>)
    requires ',' !in head && ParseInt(head) == Some(n)
    requires ParseIds(Split(tail)) == Some(ns)
    ensures ParseIds(Split(head + "," + tail)) == Some([n] + ns)
  {
    SplitAtComma(head, tail);
    ParseIdsCons(head, Split(tail), n, ns);
  }

  /** A single id reads back from its own text. */
  lemma JoinSingle(ids: seq<int>)
    requires |ids| == 1
    ensures ParseIds(Split(Join(ids))) == Some(ids)
  {
    IntRoundTrip(ids[0]);
    ReadOne(IntToString(ids[0]), ids[0]);
    assert [ids[0]] == ids;
  }

  /** If the joined tail reads back, so does the whole list. */
  lemma JoinCons(ids: seq<int>)
    requires |ids| > 1 && ParseIds(Split(Join(ids[1..]))) == Some(ids[1..])
    ensures ParseIds(Split(Join(ids))) == Some(ids)
  {
    var head, tail := IntToString(ids[0]), Join(ids[1..]);
    assert Join(ids) == head + "," + tail;
    IntRoundTrip(ids[0]);
    ReadFront(head, tail, ids[0], ids[1..]);
    HeadAndRest(ids);
  }

  lemma HeadAndRest(ids: seq<int>)
    requires |ids| > 0
    ensures [ids[0]] + ids[1..] == ids
  {
  }

  /** Joining a non-empty id list with commas loses nothing: splitting on
      the commas and reading each part gives back the ids, in order. */
  lemma {:induction false} JoinRoundTrip(ids: seq<int>)
    requires |ids| > 0
    ensures ParseIds(Split(Join(ids))) == Some(ids)
    decreases |ids|
  {
    if |ids| == 1 {
      JoinSingle(ids);
    } else {
      JoinRoundTrip(ids[1..]);
      JoinCons(ids);
    }
  }
}

/** The text form of a strand: one line per base, in index order, each line the
    decimal value of the base's state followed by a newline, and no header. */
module StateDump {

  function Digit(d: nat): char
    requires d < 10
  {
    ('0' as int + d) as char
  }

  predicate IsDigit(c: char)
  {
    '0' <= c <= '9'
  }

  /** Decimal digits of n, most significant first. */
  function NatToString(n: nat): (t: string)
    ensures |t| > 0 && forall k :: 0 <= k < |t| ==> IsDigit(t[k])
  {
    if n < 10 then [Digit(n)] else NatToString(n / 10) + [Digit(n % 10)]
  }

  /** Decimal form of x, with a leading '-' when x is negative. */
  function IntToString(x: int): (t: string)
    ensures |t| > 0 && forall k :: 0 <= k < |t| ==> t[k] != '\n'
  {
    if x < 0 then "-" + NatToString(-x) else NatToString(x)
  }

  /** The whole dump of a strand. */
  function Dump(s: seq<int>): string
  {
    if |s| == 0 then "" else IntToString(s[0]) + "\n" + Dump(s[1..])
  }

  /** Dumping one more base appends one line. */
  lemma {:induction false} DumpSnoc(s: seq<int>, x: int)
    ensures Dump(s + [x]) == Dump(s) + IntToString(x) + "\n"
  {
    if |s| > 0 {
      assert (s + [x])[1..] == s[1..] + [x];
      DumpSnoc(s[1..], x);
    } else {
      assert (s + [x])[1..] == [];
    }
  }

  // Reading a dump back.

  function ParseNat(t: string): nat
  {
    if |t| == 0 then 0
    else 10 * ParseNat(t[..|t| - 1]) + (if IsDigit(t[|t| - 1]) then t[|t| - 1] as int - '0' as int else 0)
  }

  function ParseInt(t: string): int
  {
    if |t| > 0 && t[0] == '-' then 0 - ParseNat(t[1..]) as int else ParseNat(t)
  }

  /** Index of the first newline of t, or |t| when there is none. */
  function LineEnd(t: string): (k: nat)
    ensures k <= |t|
  {
    if |t| == 0 || t[0] == '\n' then 0 else 1 + LineEnd(t[1..])
  }

  /** The base states a dump lists, one per line. */
  function Undump(t: string): seq<int>
    decreases |t|
  {
    if |t| == 0 then []
    else
      var k := LineEnd(t);
      [ParseInt(t[..k])] + (if k < |t| then Undump(t[k + 1..]) else [])
  }

  lemma {:induction false} NatRoundTrip(n: nat)
    ensures ParseNat(NatToString(n)) == n
  {
    if n >= 10 {
      var t := NatToString(n);
      assert t[..|t| - 1] == NatToString(n / 10);
      NatRoundTrip(n / 10);
    }
  }

  lemma IntRoundTrip(x: int)
    ensures ParseInt(IntToString(x)) == x
  {
    if x < 0 {
      assert ("-" + NatToString(-x))[1..] == NatToString(-x);
      NatRoundTrip(-x);
    } else {
      NatRoundTrip(x);
    }
  }

  lemma {:induction false} LineEndAfter(line: string, rest: string)
    requires forall k :: 0 <= k < |line| ==> line[k] != '\n'
    ensures LineEnd(line + "\n" + rest) == |line|
  {
    if |line| > 0 {
      assert (line + "\n" + rest)[1..] == line[1..] + "\n" + rest;
      LineEndAfter(line[1..], rest);
    }
  }

  /** A dump determines the strand it was written from. */
  lemma {:induction false} DumpRoundTrip(s: seq<int>)
    ensures Undump(Dump(s)) == s
  {
    if |s| > 0 {
      var line, rest := IntToString(s[0]), Dump(s[1..]);
      var t := line + "\n" + rest;
      LineEndAfter(line, rest);
      assert t[..|line|] == line;
      assert t[|line| + 1..] == rest;
      IntRoundTrip(s[0]);
      DumpRoundTrip(s[1..]);
    }
  }
}

/** Decimal and hexadecimal text, and splitting at slashes. */
module Text {
  import opened Types

  function Digit(d: nat): char
    requires d < 10
  {
    ('0' as int + d) as char
  }

  function Digits(n: nat): (r: string)
    ensures |r| > 0 && forall i :: 0 <= i < |r| ==> '0' <= r[i] <= '9'
  {
    if n < 10 then [Digit(n)] else Digits(n / 10) + [Digit(n % 10)]
  }

  function Decimal(i: int): (r: string)
    ensures |r| > 0 && forall i :: 0 <= i < |r| ==> r[i] == '-' || '0' <= r[i] <= '9'
  {
    if i < 0 then "-" + Digits(-i) else Digits(i)
  }

  function HexDigit(d: nat): (c: char)
    requires d < 16
    ensures '0' <= c <= '9' || 'a' <= c <= 'f'
  {
    if d < 10 then Digit(d) else ('a' as int + (d - 10)) as char
  }

  function Hex(bytes: seq<byte>): (r: string)
    ensures |r| == 2 * |bytes|
    ensures forall i :: 0 <= i < |r| ==> '0' <= r[i] <= '9' || 'a' <= r[i] <= 'f'
  {
    if |bytes| == 0 then ""
    else Hex(bytes[..|bytes| - 1]) + [HexDigit(bytes[|bytes| - 1] as int / 16), HexDigit(bytes[|bytes| - 1] as int % 16)]
  }

  lemma {:induction false} DigitsInjective(m: nat, n: nat)
    requires Digits(m) == Digits(n)
    ensures m == n
    decreases m
  {
    var a, b := Digits(m), Digits(n);
    assert a[|a| - 1] == Digit(m % 10) && b[|b| - 1] == Digit(n % 10);
    if m >= 10 && n >= 10 {
      assert a[..|a| - 1] == Digits(m / 10) && b[..|b| - 1] == Digits(n / 10);
      DigitsInjective(m / 10, n / 10);
    }
  }

  lemma DecimalInjective(i: int, j: int)
    requires Decimal(i) == Decimal(j)
    ensures i == j
  {
    assert Decimal(i)[0] == '-' <==> i < 0;
    assert Decimal(j)[0] == '-' <==> j < 0;
    if i < 0 {
      assert Decimal(i)[1..] == Digits(-i) && Decimal(j)[1..] == Digits(-j);
      DigitsInjective(-i, -j);
    } else {
      DigitsInjective(i, j);
    }
  }

  lemma HexDigitInjective(a: nat, b: nat)
    requires a < 16 && b < 16 && HexDigit(a) == HexDigit(b)
    ensures a == b
  {
  }

  lemma HexEnd(a: seq<byte>, n: nat)
    requires |a| == n + 1
    ensures Hex(a)[..2 * n] == Hex(a[..n])
    ensures Hex(a)[2 * n] == HexDigit(a[n] as int / 16) && Hex(a)[2 * n + 1] == HexDigit(a[n] as int % 16)
  {
  }

  lemma {:induction false} HexInjective(a: seq<byte>, b: seq<byte>)
    requires Hex(a) == Hex(b)
    ensures a == b
    decreases |a|
  {
    hide Hex, HexDigit;
    assert |b| == |a|;
    if |a| > 0 {
      var n := |a| - 1;
      HexEnd(a, n);
      HexEnd(b, n);
      HexDigitInjective(a[n] as int / 16, b[n] as int / 16);
      HexDigitInjective(a[n] as int % 16, b[n] as int % 16);
      HexInjective(a[..n], b[..n]);
      assert a == a[..n] + [a[n]] && b == b[..n] + [b[n]];
    }
  }

  // ---------------------------------------------------------------- slashes

  predicate SlashFree(s: string) {
    '/' !in s
  }

  /** The parts of a string between its slashes. */
  function Split(s: string): (parts: seq<string>)
    ensures |parts| > 0
  {
    if |s| == 0 then [""]
    else
      var rest := Split(s[1..]);
      if s[0] == '/' then [""] + rest else [[s[0]] + rest[0]] + rest[1..]
  }

  lemma {:induction false} SplitFirst(a: string, rest: string)
    requires SlashFree(a)
    ensures Split(a) == [a]
    ensures Split(a + "/" + rest) == [a] + Split(rest)
    decreases |a|
  {
    var s := a + "/" + rest;
    if |a| == 0 {
      assert s[1..] == rest;
    } else {
      SplitFirst(a[1..], rest);
      assert s[1..] == a[1..] + "/" + rest;
      assert a == [a[0]] + a[1..];
    }
  }

  /** A slash makes at least two parts, and appending keeps the parts. */
  lemma {:induction false} SplitGrows(s: string, rest: string)
    ensures |Split(s + "/" + rest)| == |Split(s)| + |Split(rest)|
    ensures |Split(s)| == 1 <==> SlashFree(s)
    decreases |s|
  {
    var t := s + "/" + rest;
    if |s| == 0 {
      assert t[1..] == rest;
    } else {
      SplitGrows(s[1..], rest);
      assert t[1..] == s[1..] + "/" + rest;
      assert s == [s[0]] + s[1..];
    }
  }

  /** Slash-free text ends at the first slash, so it can be read back. */
  lemma {:induction false} CutAtSlash(a: string, b: string, s: string, t: string)
    requires SlashFree(a) && SlashFree(b) && a + "/" + s <= b + "/" + t
    ensures a == b && s <= t
    decreases |a|
  {
    var x, y := a + "/" + s, b + "/" + t;
    assert x[0] == y[0] && (|a| == 0 <==> x[0] == '/') && (|b| == 0 <==> y[0] == '/');
    assert x[1..] <= y[1..] by { assert y[..|x|] == x; assert y[1..][..|x| - 1] == x[1..]; }
    if |a| == 0 {
      assert x[1..] == s && y[1..] == t;
    } else {
      assert x[1..] == a[1..] + "/" + s && y[1..] == b[1..] + "/" + t;
      CutAtSlash(a[1..], b[1..], s, t);
      assert a == [a[0]] + a[1..] && b == [b[0]] + b[1..];
    }
  }

  /** Two texts of equal beginnings are compared by what follows. */
  lemma CutPrefix(p: string, s: string, t: string)
    ensures p + s <= p + t <==> s <= t
    ensures p + s == p + t <==> s == t
  {
    var x, y := p + s, p + t;
    assert x[|p|..] == s && y[|p|..] == t;
    if x <= y { assert y[..|x|] == x; assert t[..|s|] == y[|p|..|x|] == x[|p|..] == s; }
    if s <= t { assert t[..|s|] == s; assert y[..|x|] == x; }
  }
}

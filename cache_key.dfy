/**
 * The cache key of the two newer orchestrators:
 * `new StringBuffer(nomeRede).append(':').append(porta).toString()`.
 */
module CacheKey {

  function DigitChar(d: nat): (c: char)
    requires d < 10
    ensures '0' <= c <= '9'
  {
    "0123456789"[d]
  }

  /** Decimal digits of a natural number, most significant first, no leading zeros. */
  function NatDigits(n: nat): (s: string)
    ensures |s| >= 1
    ensures forall k :: 0 <= k < |s| ==> '0' <= s[k] <= '9'
    ensures n > 0 ==> s[0] != '0'
  {
    if n < 10 then [DigitChar(n)] else NatDigits(n / 10) + [DigitChar(n % 10)]
  }

  /** What `StringBuffer.append(int)` appends: an optional minus sign and the digits. */
  function Decimal(n: int): (s: string)
    ensures |s| >= 1
    ensures forall k :: 0 <= k < |s| ==> s[k] != ':'
    ensures s[0] == '-' <==> n < 0
  {
    if n < 0 then "-" + NatDigits(-n) else NatDigits(n)
  }

  /** The host name, then ':', then the port in decimal. */
  function Key(nomeRede: string, porta: int): (k: string)
    ensures |k| == |nomeRede| + 1 + |Decimal(porta)|
    ensures k[..|nomeRede|] == nomeRede && k[|nomeRede|] == ':'
    ensures k[|nomeRede| + 1..] == Decimal(porta)
  {
    nomeRede + ":" + Decimal(porta)
  }

  /** The last ':' of a key is the one right after the host name. */
  lemma KeyLastColon(nomeRede: string, porta: int)
    ensures Key(nomeRede, porta)[|nomeRede|] == ':'
    ensures forall i :: |nomeRede| < i < |Key(nomeRede, porta)| ==> Key(nomeRede, porta)[i] != ':'
  {
    var k := Key(nomeRede, porta);
    forall i | |nomeRede| < i < |k| ensures k[i] != ':' {
      assert k[i] == Decimal(porta)[i - |nomeRede| - 1];
    }
  }

  lemma {:induction false} NatDigitsInjective(a: nat, b: nat)
    requires NatDigits(a) == NatDigits(b)
    ensures a == b
  {
    var s := NatDigits(a);
    assert s[|s| - 1] == DigitChar(a % 10) == DigitChar(b % 10);
    assert "0123456789"[a % 10] == "0123456789"[b % 10];
    if a >= 10 && b >= 10 {
      assert NatDigits(a / 10) == s[..|s| - 1] == NatDigits(b / 10);
      NatDigitsInjective(a / 10, b / 10);
    }
  }

  lemma DecimalInjective(a: int, b: int)
    requires Decimal(a) == Decimal(b)
    ensures a == b
  {
    assert a < 0 <==> b < 0 by {
      assert Decimal(a)[0] == Decimal(b)[0];
    }
    if a < 0 {
      var da, db := NatDigits(-a), NatDigits(-b);
      assert Decimal(a) == "-" + da && Decimal(b) == "-" + db;
      assert da == Decimal(a)[1..];
      assert db == Decimal(b)[1..];
      NatDigitsInjective(-a, -b);
    } else {
      NatDigitsInjective(a, b);
    }
  }

  /**
   * Distinct (host, port) pairs never share a cache entry: the text after the
   * last ':' of a key is the port's decimal form, which holds no ':'.
   */
  lemma KeyInjective(h1: string, p1: int, h2: string, p2: int)
    requires Key(h1, p1) == Key(h2, p2)
    ensures h1 == h2 && p1 == p2
  {
    var k := Key(h1, p1);
    KeyLastColon(h1, p1);
    KeyLastColon(h2, p2);
    if |h1| == |h2| {
      assert h1 == k[..|h1|] == h2;
      assert Decimal(p1) == k[|h1| + 1..] == Decimal(p2);
      DecimalInjective(p1, p2);
    }
  }

  lemma KeyOfPort80()
    ensures Key("example", 80) == "example:80"
  {
  }
}

/** Mangling of function symbols. */
module Namer {
  import opened Values

  datatype Namer = Namer(prefix: string, postfixNode: bool)

  function Digit(n: nat): char
    requires n < 10
  {
    ['0', '1', '2', '3', '4', '5', '6', '7', '8', '9'][n]
  }

  /** A node index in decimal. */
  function Decimal(n: nat): string {
    if n < 10 then [Digit(n)] else Decimal(n / 10) + [Digit(n % 10)]
  }

  function NameFunc(namer: Namer, name: string, node: NodeId): string {
    namer.prefix + name + if namer.postfixNode then "." + Decimal(node) else ""
  }

  predicate IsDigit(c: char) {
    '0' <= c <= '9'
  }

  predicate AllDigits(s: string) {
    forall i :: 0 <= i < |s| ==> IsDigit(s[i])
  }

  function DigitValue(c: char): nat
    requires IsDigit(c)
  {
    c as int - '0' as int
  }

  /** The number a string of digits stands for. */
  function Read(s: string): nat
    requires AllDigits(s)
  {
    if s == [] then 0 else 10 * Read(s[..|s| - 1]) + DigitValue(s[|s| - 1])
  }

  /** Decimals are digits without leading zeros that read as the number. */
  lemma {:induction false} DecimalReads(n: nat)
    ensures AllDigits(Decimal(n))
    ensures Read(Decimal(n)) == n && Decimal(n) != "" && (n > 0 ==> Decimal(n)[0] != '0')
  {
    var d := Decimal(n);
    if n >= 10 {
      DecimalReads(n / 10);
      assert d[..|d| - 1] == Decimal(n / 10);
    } else {
      assert d[..0] == [];
    }
  }

  /** A symbol is the prefix, the name and, with node postfixes on, a dot and the node index in decimal. */
  lemma SymbolIs(namer: Namer, name: string, node: NodeId)
    ensures var s, n := NameFunc(namer, name, node), |namer.prefix| + |name|;
      && n <= |s| && s[..n] == namer.prefix + name
      && (!namer.postfixNode ==> |s| == n)
      && (namer.postfixNode ==>
            && n + 1 < |s| && s[n] == '.' && AllDigits(s[n + 1..])
            && Read(s[n + 1..]) == node && (node > 0 ==> s[n + 1] != '0'))
  {
    var s, n := NameFunc(namer, name, node), |namer.prefix| + |name|;
    DecimalReads(node);
    if namer.postfixNode {
      assert s[n + 1..] == Decimal(node) && s[n + 1] == Decimal(node)[0];
    }
  }

  /** The last dot of a symbol is where the node index starts. */
  lemma LastDot(a: string, d: string)
    requires '.' !in d
    ensures var s := a + "." + d; s[|a|] == '.' && forall k :: |a| < k < |s| ==> s[k] != '.'
  {
    var s := a + "." + d;
    forall k | |a| < k < |s| ensures s[k] != '.' {
      assert s[k] == d[k - |a| - 1];
    }
  }

  lemma SplitAtLastDot(a: string, d: string, b: string, e: string)
    requires a + "." + d == b + "." + e && '.' !in d && '.' !in e
    ensures a == b && d == e
  {
    LastDot(a, d);
    LastDot(b, e);
    var s := a + "." + d;
    assert |a| == |b|;
    assert s[..|a|] == a && s[..|b|] == b;
    assert s[|a| + 1..] == d && s[|b| + 1..] == e;
  }

  /** Two functions share a symbol exactly when their names agree and, with node postfixes on, so do their nodes. */
  lemma SharedSymbol(namer: Namer, a: string, i: NodeId, b: string, j: NodeId)
    ensures NameFunc(namer, a, i) == NameFunc(namer, b, j) <==> a == b && (namer.postfixNode ==> i == j)
  {
    if NameFunc(namer, a, i) == NameFunc(namer, b, j) {
      var n := |namer.prefix|;
      if namer.postfixNode {
        DecimalReads(i);
        DecimalReads(j);
        assert NameFunc(namer, a, i)[n..] == a + "." + Decimal(i);
        assert NameFunc(namer, b, j)[n..] == b + "." + Decimal(j);
        SplitAtLastDot(a, Decimal(i), b, Decimal(j));
      } else {
        assert NameFunc(namer, a, i)[n..] == a;
        assert NameFunc(namer, b, j)[n..] == b;
      }
    }
  }
}

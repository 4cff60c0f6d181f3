/**
 * Text helpers shared by the form, the postal-code service and the tracking
 * service: `value.replace(/\D/g, '')`, `slice(0, n)` and the "five digits,
 * hyphen, rest" grouping.
 */
module Digitos {

  /** The ASCII digits, the only characters the JavaScript class `\d` matches. */
  predicate EhDigito(c: char)
  {
    '0' <= c <= '9'
  }

  predicate SoDigitos(s: string)
  {
    forall i :: 0 <= i < |s| ==> EhDigito(s[i])
  }

  /** `somenteDigitos`: the digit characters of `s`, in their order. */
  function SomenteDigitos(s: string): (r: string)
    ensures SoDigitos(r)
    ensures |r| <= |s|
  {
    if s == [] then []
    else if EhDigito(s[0]) then [s[0]] + SomenteDigitos(s[1..])
    else SomenteDigitos(s[1..])
  }

  /** Stripping distributes over concatenation: it keeps the order of the digits. */
  lemma {:induction false} SomenteDigitosConcat(a: string, b: string)
    ensures SomenteDigitos(a + b) == SomenteDigitos(a) + SomenteDigitos(b)
  {
    if a == [] {
      assert a + b == b;
    } else {
      assert (a + b)[0] == a[0];
      assert (a + b)[1..] == a[1..] + b;
      SomenteDigitosConcat(a[1..], b);
    }
  }

  /** A string made of digits only is left as it is. */
  lemma {:induction false} SomenteDigitosDeDigitos(s: string)
    requires SoDigitos(s)
    ensures SomenteDigitos(s) == s
  {
    if s != [] {
      SomenteDigitosDeDigitos(s[1..]);
    }
  }

  /** Stripping twice is stripping once. */
  lemma SomenteDigitosIdempotente(s: string)
    ensures SomenteDigitos(SomenteDigitos(s)) == SomenteDigitos(s)
  {
    SomenteDigitosDeDigitos(SomenteDigitos(s));
  }

  /** Every digit of `s` is kept as often as it occurs, and nothing else survives. */
  lemma {:induction false} SomenteDigitosContagem(s: string, c: char)
    ensures multiset(SomenteDigitos(s))[c] == if EhDigito(c) then multiset(s)[c] else 0
  {
    if s != [] {
      SomenteDigitosContagem(s[1..], c);
      assert s == [s[0]] + s[1..];
      assert multiset(s) == multiset([s[0]]) + multiset(s[1..]);
    }
  }

  /** `s.slice(0, n)`. */
  function Primeiros(s: string, n: nat): (r: string)
    ensures |r| == if |s| <= n then |s| else n
    ensures r <= s
  {
    if |s| <= n then s else s[..n]
  }

  lemma PrimeirosDeDigitos(s: string, n: nat)
    requires SoDigitos(s)
    ensures SoDigitos(Primeiros(s, n))
  {
  }

  /**
   * `d.length <= 5 ? d : d.slice(0, 5) + '-' + d.slice(5)`, the grouping shared by
   * `formatarCelular` and `formatarCep`.
   */
  function AgruparCinco(d: string): (r: string)
    ensures |d| <= 5 ==> r == d
    ensures |d| > 5 ==> |r| == |d| + 1 && r[5] == '-' && r[..5] == d[..5] && r[6..] == d[5..]
  {
    if |d| <= 5 then d else d[..5] + "-" + d[5..]
  }

  /** The hyphen is the only non-digit the grouping adds: stripping undoes it. */
  lemma AgruparCincoSomenteDigitos(d: string)
    requires SoDigitos(d)
    ensures SomenteDigitos(AgruparCinco(d)) == d
  {
    if |d| <= 5 {
      SomenteDigitosDeDigitos(d);
    } else {
      SomenteDigitosConcat(d[..5] + "-", d[5..]);
      SomenteDigitosConcat(d[..5], "-");
      SomenteDigitosDeDigitos(d[..5]);
      SomenteDigitosDeDigitos(d[5..]);
      assert d == d[..5] + d[5..];
    }
  }
}

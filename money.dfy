/**
 * Currency ledgers and exchange weights.
 *
 * A ledger maps a denomination symbol ("pp", "gp", "sp", "cp") to a coin
 * count. A conversion-rate table lists denominations from the highest weight
 * to the lowest; every weight the system ever uses is a power of ten (the
 * fixed table pp = 10, gp = 1, sp = 0.1, cp = 0.01, possibly multiplied by
 * ten a number of times), so a rate is stored as the exponent of its weight.
 * Gold pieces (weight 1) are the reference unit.
 */
module Money {

  type Ledger = map<string, int>

  /** A denomination and the exponent e of its weight 10^e, in gold pieces. */
  datatype Rate = Rate(denom: string, exp: int)

  /** The conversion-rate table of a purchase, before any scaling. */
  const StandardRates: seq<Rate> := [Rate("pp", 1), Rate("gp", 0), Rate("sp", -1), Rate("cp", -2)]

  /** The denominations every actor's ledgers hold. */
  const Denominations: set<string> := {"pp", "gp", "sp", "cp"}

  function Min(a: int, b: int): int
  {
    if a < b then a else b
  }

  /** Ten to the power n. */
  function Pow10(n: nat): (r: nat)
    ensures r >= 1
  {
    if n == 0 then 1 else 10 * Pow10(n - 1)
  }

  /** The weight 10^e of a denomination, as an exact real. */
  function Weight(e: int): (w: real)
    ensures w > 0.0
    decreases if e < 0 then -e else e
  {
    if e == 0 then 1.0
    else if e > 0 then 10.0 * Weight(e - 1)
    else Weight(e + 1) / 10.0
  }

  lemma {:induction false} WeightStep(e: int)
    ensures Weight(e + 1) == 10.0 * Weight(e)
  {
  }

  lemma {:induction false} WeightWhole(e: nat)
    ensures Weight(e) == Pow10(e) as real
  {
    if e > 0 {
      WeightWhole(e - 1);
    }
  }

  /** A weight below one is the reciprocal of a whole number of coins. */
  lemma {:induction false} WeightFraction(e: int)
    requires e < 0
    ensures Weight(e) * (Pow10(-e) as real) == 1.0
    decreases -e
  {
    if e < -1 {
      WeightFraction(e + 1);
      assert Pow10(-e) == 10 * Pow10(-(e + 1));
    }
  }

  /** The denominations of a table, in table order. */
  function Denoms(rates: seq<Rate>): (ds: seq<string>)
    ensures |ds| == |rates|
    ensures forall i :: 0 <= i < |rates| ==> ds[i] == rates[i].denom
  {
    if rates == [] then [] else [rates[0].denom] + Denoms(rates[1..])
  }

  /** No denomination appears twice in the table. */
  predicate DistinctDenoms(rates: seq<Rate>)
  {
    forall i, j :: 0 <= i < j < |rates| ==> rates[i].denom != rates[j].denom
  }

  /** Every denomination of the table is a key of the ledger. */
  predicate Covers(l: Ledger, rates: seq<Rate>)
  {
    forall i :: 0 <= i < |rates| ==> rates[i].denom in l
  }

  predicate NonNegative(l: Ledger)
  {
    forall d :: d in l ==> l[d] >= 0
  }

  /** The table with the same denominations, every weight multiplied by ten. */
  function Tenfold(rates: seq<Rate>): (r: seq<Rate>)
    ensures |r| == |rates|
    ensures forall i :: 0 <= i < |rates| ==> r[i] == Rate(rates[i].denom, rates[i].exp + 1)
  {
    seq(|rates|, i requires 0 <= i < |rates| => Rate(rates[i].denom, rates[i].exp + 1))
  }

  /** floor(count * 10^e): the whole reference units a stack of coins is worth. */
  function Worth(count: int, e: int): int
  {
    if e >= 0 then count * Pow10(e) else count / Pow10(-e)
  }

  /** Worth is the floor of the exact value of the coins. */
  lemma WorthIsFloor(count: int, e: int)
    ensures Worth(count, e) == (count as real * Weight(e)).Floor
  {
    if e >= 0 {
      WeightWhole(e);
      CastProduct(count, Pow10(e));
    } else {
      var p := Pow10(-e);
      WeightFraction(e);
      FloorOfFraction(count, p, Weight(e));
    }
  }

  lemma CastProduct(a: int, b: int)
    ensures (a * b) as real == a as real * b as real
  {
  }

  /** When w * p == 1, the floor of count * w is the floor division count / p. */
  lemma FloorOfFraction(count: int, p: nat, w: real)
    requires p > 0 && w > 0.0 && w * (p as real) == 1.0
    ensures (count as real * w).Floor == count / p
  {
    var q := count / p;
    var m := count % p;
    assert count == q * p + m;
    CastProduct(q, p);
    var x := count as real * w;
    assert x == (q * p) as real * w + m as real * w;
    assert (q * p) as real * w == q as real * (p as real * w);
    assert x == q as real + m as real * w;
    assert m as real * w < p as real * w;
    assert 0.0 <= m as real * w;
  }

  /** The whole reference units the ledger can spend: the sum of Worth over the table. */
  function SpendingPower(l: Ledger, rates: seq<Rate>): int
    requires Covers(l, rates)
  {
    if rates == [] then 0
    else Worth(l[rates[0].denom], rates[0].exp) + SpendingPower(l, rates[1..])
  }

  /** The exact value of the ledger in reference units. */
  function Value(l: Ledger, rates: seq<Rate>): real
    requires Covers(l, rates)
  {
    if rates == [] then 0.0
    else l[rates[0].denom] as real * Weight(rates[0].exp) + Value(l, rates[1..])
  }

  lemma {:induction false} SpendingPowerAppend(l: Ledger, rates: seq<Rate>, r: Rate)
    requires Covers(l, rates) && r.denom in l
    ensures Covers(l, rates + [r])
    ensures SpendingPower(l, rates + [r]) == SpendingPower(l, rates) + Worth(l[r.denom], r.exp)
  {
    if rates != [] {
      assert (rates + [r])[1..] == rates[1..] + [r];
      SpendingPowerAppend(l, rates[1..], r);
    }
  }

  /**
   * Adds up the whole reference units of a ledger, one denomination at a
   * time, the way a purchase measures the buyer's funds.
   */
  method FundsAsGold(funds: Ledger, rates: seq<Rate>) returns (total: int)
    requires Covers(funds, rates)
    ensures total == SpendingPower(funds, rates)
  {
    total := 0;
    var i := 0;
    while i < |rates|
      invariant 0 <= i <= |rates|
      invariant total == SpendingPower(funds, rates[..i])
    {
      assert rates[..i + 1] == rates[..i] + [rates[i]];
      SpendingPowerAppend(funds, rates[..i], rates[i]);
      total := total + Worth(funds[rates[i].denom], rates[i].exp);
      i := i + 1;
    }
    assert rates[..i] == rates;
  }

  /** A denomination that is not in the table does not affect the value. */
  lemma {:induction false} ValueFrame(l: Ledger, rates: seq<Rate>, d: string, x: int)
    requires Covers(l, rates)
    requires forall i :: 0 <= i < |rates| ==> rates[i].denom != d
    ensures Covers(l[d := x], rates)
    ensures Value(l[d := x], rates) == Value(l, rates)
  {
    if rates != [] {
      ValueFrame(l, rates[1..], d, x);
    }
  }

  /** Changing the count of the k-th denomination by delta changes the value by delta times its weight. */
  lemma {:induction false} ValueUpdate(l: Ledger, rates: seq<Rate>, k: nat, delta: int)
    requires Covers(l, rates) && DistinctDenoms(rates) && k < |rates|
    ensures Covers(l[rates[k].denom := l[rates[k].denom] + delta], rates)
    ensures Value(l[rates[k].denom := l[rates[k].denom] + delta], rates)
         == Value(l, rates) + delta as real * Weight(rates[k].exp)
    decreases |rates|, 1
  {
    if k == 0 {
      ValueUpdateHead(l, rates, k, delta);
    } else {
      ValueUpdateTail(l, rates, k, delta);
    }
  }

  lemma ValueUpdateHead(l: Ledger, rates: seq<Rate>, k: nat, delta: int)
    requires Covers(l, rates) && DistinctDenoms(rates) && k == 0 < |rates|
    ensures Value(l[rates[k].denom := l[rates[k].denom] + delta], rates)
         == Value(l, rates) + delta as real * Weight(rates[k].exp)
  {
    var d := rates[0].denom;
    var l' := l[d := l[d] + delta];
    var w0 := Weight(rates[0].exp);
    assert Value(l', rates) == l'[d] as real * w0 + Value(l', rates[1..]);
    ValueFrame(l, rates[1..], d, l[d] + delta);
    AddTimes(l[d], delta, w0);
  }

  lemma {:induction false} ValueUpdateTail(l: Ledger, rates: seq<Rate>, k: nat, delta: int)
    requires Covers(l, rates) && DistinctDenoms(rates) && 0 < k < |rates|
    ensures Value(l[rates[k].denom := l[rates[k].denom] + delta], rates)
         == Value(l, rates) + delta as real * Weight(rates[k].exp)
    decreases |rates|, 0
  {
    var d := rates[k].denom;
    var l' := l[d := l[d] + delta];
    var d0 := rates[0].denom;
    assert rates[1..][k - 1] == rates[k];
    assert d0 != d && l'[d0] == l[d0];
    var head := l[d0] as real * Weight(rates[0].exp);
    assert Value(l', rates) == head + Value(l', rates[1..]);
    assert Value(l, rates) == head + Value(l, rates[1..]);
    ValueUpdate(l, rates[1..], k - 1, delta);
  }

  lemma AddTimes(a: int, b: int, w: real)
    ensures (a + b) as real * w == a as real * w + b as real * w
  {
  }

  /** Multiplying every weight by ten multiplies the value by ten. */
  lemma {:induction false} ValueTenfold(l: Ledger, rates: seq<Rate>)
    requires Covers(l, rates)
    ensures Covers(l, Tenfold(rates))
    ensures Value(l, Tenfold(rates)) == 10.0 * Value(l, rates)
  {
    if rates != [] {
      assert Tenfold(rates)[1..] == Tenfold(rates[1..]);
      ValueTenfold(l, rates[1..]);
      WeightStep(rates[0].exp);
    }
  }

  /** Multiplying every weight by ten at least multiplies the spending power by ten. */
  lemma {:induction false} SpendingPowerTenfold(l: Ledger, rates: seq<Rate>)
    requires Covers(l, rates) && NonNegative(l)
    ensures Covers(l, Tenfold(rates))
    ensures SpendingPower(l, Tenfold(rates)) >= 10 * SpendingPower(l, rates)
  {
    if rates != [] {
      assert Tenfold(rates)[1..] == Tenfold(rates[1..]);
      SpendingPowerTenfold(l, rates[1..]);
      WorthTenfold(l[rates[0].denom], rates[0].exp);
    }
  }

  lemma WorthTenfold(c: nat, e: int)
    ensures Worth(c, e + 1) >= 10 * Worth(c, e)
  {
    if e >= 0 {
      WholeWorthTenfold(c, e);
    } else if e == -1 {
      assert Pow10(1) == 10;
      assert Worth(c, e) == c / 10 && Worth(c, e + 1) == c;
      DivTimesBelow(c, 10, c / 10);
    } else {
      var m := Pow10(-(e + 1));
      assert Pow10(-e) == 10 * m;
      assert Worth(c, e + 1) == c / m && Worth(c, e) == c / (10 * m);
      FractionWorthTenfold(c, m);
    }
  }

  lemma WholeWorthTenfold(c: nat, e: nat)
    ensures Worth(c, e + 1) == 10 * Worth(c, e)
  {
    assert Pow10(e + 1) == 10 * Pow10(e);
    assert c * (10 * Pow10(e)) == 10 * (c * Pow10(e));
  }

  /** m * (c / m) never exceeds c. */
  lemma DivTimesBelow(c: nat, m: nat, q: int)
    requires m > 0 && q == c / m
    ensures m * q <= c
  {
    assert c == q * m + c % m;
  }

  lemma FractionWorthTenfold(c: nat, m: nat)
    requires m > 0
    ensures c / m >= 10 * (c / (10 * m))
  {
    var t := 10 * m;
    assert t > 0;
    var q := c / t;
    DivTimesBelow(c, t, q);
    Regroup(q, m, t, c);
    DivLowerBound(c, m, 10 * q);
  }

  lemma Regroup(q: int, m: nat, t: nat, c: nat)
    requires t == 10 * m && t * q <= c
    ensures (10 * q) * m <= c
  {
    assert t * q == 10 * (m * q);
  }

  /** If k * m <= c then k <= c / m. */
  lemma DivLowerBound(c: nat, m: nat, k: int)
    requires m > 0 && k * m <= c
    ensures k <= c / m
  {
    var q := c / m;
    assert c == q * m + c % m;
    assert (q + 1) * m == q * m + m;
    MulCancel(k, q + 1, m);
  }

  lemma MulCancel(a: int, b: int, m: int)
    requires m > 0 && a * m < b * m
    ensures a < b
  {
  }
}

/**
 * The conversion engine: removing an exact, whole-unit cost from a ledger
 * (paying from the lowest denomination up and handing the overspend back as
 * change from the highest denomination down), and crediting a gold amount
 * as gold, silver and copper coins.
 */
module Conversion {
  import opened Money

  /** ceil(a / w) for a positive w. */
  function CeilDiv(a: int, w: nat): (r: int)
    requires w > 0
    ensures (r - 1) * w < a <= r * w
  {
    var q := (-a) / w;
    assert -a == q * w + (-a) % w;
    -q
  }

  /** The state of the payment pass: the ledger copy, the cost still owed, the change owed back. */
  datatype PayState = PayState(funds: Ledger, cost: int, change: int)

  /**
   * One denomination of the payment pass. A coin worth less than one unit is
   * spent in groups of 10^-e coins per unit; a coin worth one unit or more is
   * spent whole, rounding up, and the overspend is added to the change.
   */
  function PayStep(s: PayState, r: Rate): (t: PayState)
    requires r.denom in s.funds
    ensures t.funds.Keys == s.funds.Keys
  {
    var held := s.funds[r.denom];
    if r.exp < 0 then
      var ratio := Pow10(-r.exp);
      var value := Min(s.cost, held / ratio);
      PayState(s.funds[r.denom := held - value * ratio], s.cost - value, s.change)
    else
      var w := Pow10(r.exp);
      var value := Min(s.cost, held * w);
      var lost := CeilDiv(value, w);
      PayState(s.funds[r.denom := held - lost], s.cost - value, s.change + lost * w - value)
  }

  /** The payment pass over rates[i..], lowest weight (last entry) first. */
  function PayDown(s: PayState, rates: seq<Rate>, i: nat): (t: PayState)
    requires i <= |rates| && Covers(s.funds, rates)
    ensures t.funds.Keys == s.funds.Keys
    decreases |rates| - i
  {
    if i == |rates| then s else PayStep(PayDown(s, rates, i + 1), rates[i])
  }

  /** The change still to hand back, and the ledger copy. */
  datatype Change = Change(funds: Ledger, owed: int)

  /**
   * One denomination of the change pass: when its weight is at most the
   * change owed, add floor(owed / weight) coins and keep owed mod weight.
   * The change is a whole number of units, so a coin worth less than one unit
   * absorbs all of it.
   */
  function ChangeStep(c: Change, r: Rate): (t: Change)
    requires r.denom in c.funds
    ensures t.funds.Keys == c.funds.Keys
  {
    var held := c.funds[r.denom];
    if r.exp >= 0 then
      var w := Pow10(r.exp);
      if w <= c.owed then Change(c.funds[r.denom := held + c.owed / w], c.owed % w) else c
    else
      if 1 <= c.owed then Change(c.funds[r.denom := held + c.owed * Pow10(-r.exp)], 0) else c
  }

  /** The change pass over rates[..j], highest weight (first entry) first. */
  function ChangeUpTo(c: Change, rates: seq<Rate>, j: nat): (t: Change)
    requires j <= |rates| && Covers(c.funds, rates)
    ensures t.funds.Keys == c.funds.Keys
  {
    if j == 0 then c else ChangeStep(ChangeUpTo(c, rates, j - 1), rates[j - 1])
  }

  /**
   * The outcome of removing a cost: the new ledger, the thrown failure when
   * the cost cannot be covered, or the second failure path, which reports
   * an error and returns the notification instead of a ledger.
   */
  datatype Removal = Removed(funds: Ledger) | ConversionFailed | ChangeNotReturned

  /** What removing `cost` whole units from `funds` yields, as a function. */
  function RemoveCost(funds: Ledger, cost: int, rates: seq<Rate>): (r: Removal)
    requires Covers(funds, rates)
    ensures r.Removed? ==> r.funds.Keys == funds.Keys
  {
    var paid := PayDown(PayState(funds, cost, 0), rates, 0);
    if paid.cost > 0 then ConversionFailed
    else
      var back := if paid.change > 0 then ChangeUpTo(Change(paid.funds, paid.change), rates, |rates|)
                  else Change(paid.funds, paid.change);
      if back.owed > 0 then ChangeNotReturned else Removed(back.funds)
  }

  /**
   * Removes `cost` whole units from a copy of `funds`: the payment pass from
   * the lowest denomination up, the failure check, then the change pass from
   * the highest denomination down.
   */
  method RemoveCostFromFunds(funds: Ledger, cost: int, rates: seq<Rate>) returns (r: Removal)
    requires Covers(funds, rates)
    ensures r == RemoveCost(funds, cost, rates)
    ensures DistinctDenoms(rates) && NonNegative(funds) && cost >= 0 ==>
              (r.ConversionFailed? <==> cost > SpendingPower(funds, rates)) &&
              (r.Removed? ==> NonNegative(r.funds) && Value(r.funds, rates) == Value(funds, rates) - cost as real)
  {
    var paid := PayFromLowest(funds, cost, rates);
    if paid.cost > 0 {
      r := ConversionFailed;
    } else {
      var back := Change(paid.funds, paid.change);
      if paid.change > 0 {
        back := ReturnChange(back, rates);
      }
      if back.owed > 0 {
        r := ChangeNotReturned;
      } else {
        r := Removed(back.funds);
      }
    }
    if DistinctDenoms(rates) && NonNegative(funds) && cost >= 0 {
      RemoveCostCorrect(funds, cost, rates);
    }
  }

  /** The payment pass, one denomination at a time from the last entry of the table to the first. */
  method PayFromLowest(funds: Ledger, cost: int, rates: seq<Rate>) returns (t: PayState)
    requires Covers(funds, rates)
    ensures t == PayDown(PayState(funds, cost, 0), rates, 0)
  {
    var f := funds;
    var c := cost;
    var remaining := 0;
    var i := |rates|;
    while i > 0
      invariant 0 <= i <= |rates|
      invariant f.Keys == funds.Keys
      invariant PayState(f, c, remaining) == PayDown(PayState(funds, cost, 0), rates, i)
    {
      i := i - 1;
      var rate := rates[i];
      var held := f[rate.denom];
      if rate.exp < 0 {
        var ratio := Pow10(-rate.exp);
        var value := Min(c, held / ratio);
        c := c - value;
        f := f[rate.denom := held - value * ratio];
      } else {
        var w := Pow10(rate.exp);
        var value := Min(c, held * w);
        c := c - value;
        var lost := CeilDiv(value, w);
        f := f[rate.denom := held - lost];
        remaining := remaining + lost * w - value;
      }
    }
    t := PayState(f, c, remaining);
  }

  /** The change pass, one denomination at a time from the first entry of the table to the last. */
  method ReturnChange(start: Change, rates: seq<Rate>) returns (t: Change)
    requires Covers(start.funds, rates)
    ensures t == ChangeUpTo(start, rates, |rates|)
  {
    var f := start.funds;
    var remaining := start.owed;
    var j := 0;
    while j < |rates|
      invariant 0 <= j <= |rates|
      invariant f.Keys == start.funds.Keys
      invariant Change(f, remaining) == ChangeUpTo(start, rates, j)
    {
      ChangeUpToNext(start, rates, j);
      f, remaining := ReturnInDenomination(f, remaining, rates[j]);
      j := j + 1;
    }
    t := Change(f, remaining);
  }

  /** Hands back as much of the change owed as fits in one denomination. */
  method ReturnInDenomination(f: Ledger, remaining: int, rate: Rate) returns (f': Ledger, remaining': int)
    requires rate.denom in f
    ensures Change(f', remaining') == ChangeStep(Change(f, remaining), rate)
  {
    var held := f[rate.denom];
    f', remaining' := f, remaining;
    if rate.exp >= 0 {
      var w := Pow10(rate.exp);
      if w <= remaining {
        f' := f[rate.denom := held + remaining / w];
        remaining' := remaining % w;
      }
    } else if 1 <= remaining {
      f' := f[rate.denom := held + remaining * Pow10(-rate.exp)];
      remaining' := 0;
    }
  }

  lemma ChangeUpToNext(c: Change, rates: seq<Rate>, j: nat)
    requires j < |rates| && Covers(c.funds, rates)
    ensures ChangeUpTo(c, rates, j + 1) == ChangeStep(ChangeUpTo(c, rates, j), rates[j])
  {
  }

  // ---------------------------------------------------------------------
  // The payment pass

  /**
   * One payment step keeps every count non-negative, keeps the change
   * non-negative, and moves value exactly: what leaves the ledger is what
   * leaves the cost plus what joins the change.
   */
  lemma PayStepSound(s: PayState, rates: seq<Rate>, k: nat)
    requires Covers(s.funds, rates) && DistinctDenoms(rates) && k < |rates|
    requires NonNegative(s.funds) && s.change >= 0
    ensures NonNegative(PayStep(s, rates[k]).funds) && PayStep(s, rates[k]).change >= 0
    ensures Value(PayStep(s, rates[k]).funds, rates) + PayStep(s, rates[k]).change as real - PayStep(s, rates[k]).cost as real
         == Value(s.funds, rates) + s.change as real - s.cost as real
  {
    if rates[k].exp < 0 {
      PayFractionSound(s, rates, k);
    } else {
      PayWholeSound(s, rates, k);
    }
  }

  lemma PayFractionSound(s: PayState, rates: seq<Rate>, k: nat)
    requires Covers(s.funds, rates) && DistinctDenoms(rates) && k < |rates| && rates[k].exp < 0
    requires NonNegative(s.funds) && s.change >= 0
    ensures NonNegative(PayStep(s, rates[k]).funds) && PayStep(s, rates[k]).change >= 0
    ensures Value(PayStep(s, rates[k]).funds, rates) + PayStep(s, rates[k]).change as real - PayStep(s, rates[k]).cost as real
         == Value(s.funds, rates) + s.change as real - s.cost as real
  {
    var r := rates[k];
    var held := s.funds[r.denom];
    var ratio := Pow10(-r.exp);
    var value := Min(s.cost, held / ratio);
    var delta := -(value * ratio);
    DivLowerBoundInt(held, ratio, value);
    FractionStepValue(r.exp, value);
    StepMovesValue(s, rates, k, delta, value, 0);
    assert PayStep(s, r) == PayState(s.funds[r.denom := s.funds[r.denom] + delta], s.cost - value, s.change + 0);
  }

  /**
   * A step that adds delta coins of the k-th denomination, takes `spent` off
   * the cost and adds `extra` to the change, where the coins removed are worth
   * exactly spent plus extra, moves no value.
   */
  lemma StepMovesValue(s: PayState, rates: seq<Rate>, k: nat, delta: int, spent: int, extra: int)
    requires Covers(s.funds, rates) && DistinctDenoms(rates) && k < |rates|
    requires NonNegative(s.funds) && s.change >= 0
    requires s.funds[rates[k].denom] + delta >= 0 && extra >= 0
    requires delta as real * Weight(rates[k].exp) == 0 as real - spent as real - extra as real
    ensures NonNegative(s.funds[rates[k].denom := s.funds[rates[k].denom] + delta])
    ensures Value(s.funds[rates[k].denom := s.funds[rates[k].denom] + delta], rates) + (s.change + extra) as real - (s.cost - spent) as real
         == Value(s.funds, rates) + s.change as real - s.cost as real
  {
    NonNegativeUpdate(s.funds, rates[k].denom, s.funds[rates[k].denom] + delta);
    ValueUpdate(s.funds, rates, k, delta);
  }

  lemma FractionStepValue(e: int, v: int)
    requires e < 0
    ensures (-(v * Pow10(-e))) as real * Weight(e) == 0 as real - v as real - 0 as real
  {
    WeightFraction(e);
    FractionCancel(v, Pow10(-e), Weight(e));
  }

  /** Spending v groups of `ratio` coins of weight 1/ratio removes exactly v units. */
  lemma FractionCancel(v: int, ratio: nat, w: real)
    requires w * (ratio as real) == 1.0
    ensures (-(v * ratio)) as real * w == -(v as real)
  {
    CastProduct(v, ratio);
    assert (-(v * ratio)) as real * w == -(v as real * (ratio as real * w));
  }

  lemma PayWholeSound(s: PayState, rates: seq<Rate>, k: nat)
    requires Covers(s.funds, rates) && DistinctDenoms(rates) && k < |rates| && rates[k].exp >= 0
    requires NonNegative(s.funds) && s.change >= 0
    ensures NonNegative(PayStep(s, rates[k]).funds) && PayStep(s, rates[k]).change >= 0
    ensures Value(PayStep(s, rates[k]).funds, rates) + PayStep(s, rates[k]).change as real - PayStep(s, rates[k]).cost as real
         == Value(s.funds, rates) + s.change as real - s.cost as real
  {
    var r := rates[k];
    var held := s.funds[r.denom];
    var w := Pow10(r.exp);
    var value := Min(s.cost, held * w);
    var lost := CeilDiv(value, w);
    assert lost <= held by {
      assert (lost - 1) * w < held * w;
      MulCancel(lost - 1, held, w);
    }
    assert lost * w - value >= 0;
    WholeStepValue(r.exp, lost, value);
    StepMovesValue(s, rates, k, -lost, value, lost * w - value);
  }

  lemma WholeStepValue(e: nat, lost: int, value: int)
    ensures (-lost) as real * Weight(e) == 0 as real - value as real - (lost * Pow10(e) - value) as real
  {
    WeightWhole(e);
    CastProduct(lost, Pow10(e));
  }

  lemma NonNegativeUpdate(l: Ledger, d: string, x: int)
    requires NonNegative(l) && x >= 0
    ensures NonNegative(l[d := x])
  {
  }

  /** value <= held / ratio implies value * ratio <= held, when value is not above held / ratio. */
  lemma DivLowerBoundInt(held: int, ratio: nat, value: int)
    requires ratio > 0 && value <= held / ratio
    ensures value * ratio <= held
  {
    assert held == (held / ratio) * ratio + held % ratio;
    MulMono(value, held / ratio, ratio);
  }

  lemma MulMono(a: int, b: int, m: nat)
    requires a <= b
    ensures a * m <= b * m
  {
  }

  /** The payment pass keeps counts and change non-negative and moves value exactly. */
  lemma {:induction false} PayDownSound(s: PayState, rates: seq<Rate>, i: nat)
    requires i <= |rates| && Covers(s.funds, rates) && DistinctDenoms(rates)
    requires NonNegative(s.funds) && s.change >= 0
    ensures NonNegative(PayDown(s, rates, i).funds) && PayDown(s, rates, i).change >= 0
    ensures Value(PayDown(s, rates, i).funds, rates) + PayDown(s, rates, i).change as real - PayDown(s, rates, i).cost as real
         == Value(s.funds, rates) + s.change as real - s.cost as real
    decreases |rates| - i
  {
    if i < |rates| {
      PayDownSound(s, rates, i + 1);
      PayStepSound(PayDown(s, rates, i + 1), rates, i);
    }
  }

  function Max0(x: int): int
  {
    if x > 0 then x else 0
  }

  /**
   * Starting from a non-negative cost, the cost left after paying with
   * rates[i..] is exactly what the spending power of those denominations
   * does not cover.
   */
  lemma {:induction false} PayDownCost(s: PayState, rates: seq<Rate>, i: nat)
    requires i <= |rates| && Covers(s.funds, rates) && DistinctDenoms(rates)
    requires NonNegative(s.funds) && s.cost >= 0
    ensures Covers(s.funds, rates[i..])
    ensures PayDown(s, rates, i).cost == Max0(s.cost - SpendingPower(s.funds, rates[i..]))
    decreases |rates| - i
  {
    if i < |rates| {
      PayDownCost(s, rates, i + 1);
      PayDownCostStep(s, rates, i);
    }
  }

  lemma PayDownCostStep(s: PayState, rates: seq<Rate>, i: nat)
    requires i < |rates| && Covers(s.funds, rates) && DistinctDenoms(rates)
    requires NonNegative(s.funds) && s.cost >= 0
    requires PayDown(s, rates, i + 1).cost == Max0(s.cost - SpendingPower(s.funds, rates[i + 1..]))
    ensures PayDown(s, rates, i).cost == Max0(s.cost - SpendingPower(s.funds, rates[i..]))
  {
    var before := PayDown(s, rates, i + 1);
    var r := rates[i];
    PayDownUntouched(s, rates, i + 1, i);
    assert rates[i..][1..] == rates[i + 1..];
    var rest := SpendingPower(s.funds, rates[i + 1..]);
    SpendingPowerNonNegative(s.funds, rates[i + 1..]);
    WorthNonNegative(s.funds[r.denom], r.exp);
    PayStepCost(before, r, s.cost, rest);
    assert SpendingPower(s.funds, rates[i..]) == Worth(s.funds[r.denom], r.exp) + rest;
  }

  /** Paying with rates[i..] leaves the count of an earlier denomination as it was. */
  lemma {:induction false} PayDownUntouched(s: PayState, rates: seq<Rate>, i: nat, k: nat)
    requires k < i <= |rates| && Covers(s.funds, rates) && DistinctDenoms(rates)
    ensures PayDown(s, rates, i).funds[rates[k].denom] == s.funds[rates[k].denom]
    decreases |rates| - i
  {
    if i < |rates| {
      PayDownUntouched(s, rates, i + 1, k);
      assert rates[k].denom != rates[i].denom;
    }
  }

  /**
   * One payment step takes from the cost left over what its coins are worth.
   */
  lemma PayStepCost(before: PayState, r: Rate, cost: int, rest: int)
    requires r.denom in before.funds && before.funds[r.denom] >= 0
    requires cost >= 0 && rest >= 0 && Worth(before.funds[r.denom], r.exp) >= 0
    requires before.cost == Max0(cost - rest)
    ensures PayStep(before, r).cost == Max0(cost - (Worth(before.funds[r.denom], r.exp) + rest))
  {
    var held := before.funds[r.denom];
    if r.exp < 0 {
      assert Worth(held, r.exp) == held / Pow10(-r.exp);
    } else {
      assert Worth(held, r.exp) == held * Pow10(r.exp);
    }
  }

  lemma WorthNonNegative(c: nat, e: int)
    ensures Worth(c, e) >= 0
  {
    if e >= 0 {
      var p := Pow10(e);
      assert Worth(c, e) == c * p;
      MulMono(0, c, p);
    } else {
      var p := Pow10(-e);
      assert Worth(c, e) == c / p;
      assert c == (c / p) * p + c % p;
      if c / p < 0 {
        MulMono(c / p, -1, p);
      }
    }
  }

  lemma {:induction false} SpendingPowerNonNegative(l: Ledger, rates: seq<Rate>)
    requires Covers(l, rates) && NonNegative(l)
    ensures SpendingPower(l, rates) >= 0
  {
    if rates != [] {
      SpendingPowerNonNegative(l, rates[1..]);
      WorthNonNegative(l[rates[0].denom], rates[0].exp);
    }
  }

  // ---------------------------------------------------------------------
  // The change pass

  /** The change pass keeps counts and the change non-negative and keeps value plus change constant. */
  lemma {:induction false} ChangeUpToSound(c: Change, rates: seq<Rate>, j: nat)
    requires j <= |rates| && Covers(c.funds, rates) && DistinctDenoms(rates)
    requires NonNegative(c.funds) && c.owed >= 0
    ensures NonNegative(ChangeUpTo(c, rates, j).funds) && ChangeUpTo(c, rates, j).owed >= 0
    ensures Value(ChangeUpTo(c, rates, j).funds, rates) + ChangeUpTo(c, rates, j).owed as real
         == Value(c.funds, rates) + c.owed as real
  {
    if j > 0 {
      ChangeUpToSound(c, rates, j - 1);
      ChangeStepSound(ChangeUpTo(c, rates, j - 1), rates, j - 1);
    }
  }

  /** One change step keeps counts and the change non-negative and keeps value plus change constant. */
  lemma ChangeStepSound(b: Change, rates: seq<Rate>, k: nat)
    requires k < |rates| && Covers(b.funds, rates) && DistinctDenoms(rates)
    requires NonNegative(b.funds) && b.owed >= 0
    ensures NonNegative(ChangeStep(b, rates[k]).funds) && ChangeStep(b, rates[k]).owed >= 0
    ensures Value(ChangeStep(b, rates[k]).funds, rates) + ChangeStep(b, rates[k]).owed as real
         == Value(b.funds, rates) + b.owed as real
  {
    var r := rates[k];
    if r.exp >= 0 && Pow10(r.exp) <= b.owed {
      var q := ChangeWholeValue(b, rates, k);
      ChangeMovesValue(b, rates, k, q, b.owed % Pow10(r.exp));
    } else if r.exp < 0 && 1 <= b.owed {
      var added := ChangeFractionValue(b, rates, k);
      ChangeMovesValue(b, rates, k, added, 0);
    }
  }

  /** Change paid in a coin worth one unit or more: the coins added are worth what the change drops by. */
  lemma ChangeWholeValue(b: Change, rates: seq<Rate>, k: nat) returns (q: int)
    requires k < |rates| && Covers(b.funds, rates)
    requires rates[k].exp >= 0 && 0 < Pow10(rates[k].exp) <= b.owed
    ensures q == b.owed / Pow10(rates[k].exp) && q >= 0
    ensures ChangeStep(b, rates[k]) == Change(b.funds[rates[k].denom := b.funds[rates[k].denom] + q], b.owed % Pow10(rates[k].exp))
    ensures q as real * Weight(rates[k].exp) == 0 as real + b.owed as real - (b.owed % Pow10(rates[k].exp)) as real
  {
    var e := rates[k].exp;
    var w := Pow10(e);
    q := b.owed / w;
    assert b.owed == q * w + b.owed % w;
    WeightWhole(e);
    CastProduct(q, w);
  }

  /** Change paid in a coin worth less than one unit: the coins added are worth all the change. */
  lemma ChangeFractionValue(b: Change, rates: seq<Rate>, k: nat) returns (added: int)
    requires k < |rates| && Covers(b.funds, rates)
    requires rates[k].exp < 0 && 1 <= b.owed
    ensures added == b.owed * Pow10(-rates[k].exp) && added >= 0
    ensures ChangeStep(b, rates[k]) == Change(b.funds[rates[k].denom := b.funds[rates[k].denom] + added], 0)
    ensures added as real * Weight(rates[k].exp) == 0 as real + b.owed as real - 0 as real
  {
    var e := rates[k].exp;
    var p := Pow10(-e);
    added := b.owed * p;
    MulMono(0, b.owed, p);
    WeightFraction(e);
    CastProduct(b.owed, p);
    assert added as real * Weight(e) == b.owed as real * (p as real * Weight(e));
  }

  /**
   * Adding `added` coins of the k-th denomination, worth exactly what the
   * change owed drops by, keeps value plus change constant.
   */
  lemma ChangeMovesValue(b: Change, rates: seq<Rate>, k: nat, added: int, owed: int)
    requires k < |rates| && Covers(b.funds, rates) && DistinctDenoms(rates)
    requires NonNegative(b.funds) && added >= 0 && owed >= 0
    requires added as real * Weight(rates[k].exp) == 0 as real + b.owed as real - owed as real
    ensures NonNegative(b.funds[rates[k].denom := b.funds[rates[k].denom] + added])
    ensures Value(b.funds[rates[k].denom := b.funds[rates[k].denom] + added], rates) + owed as real
         == Value(b.funds, rates) + b.owed as real
  {
    NonNegativeUpdate(b.funds, rates[k].denom, b.funds[rates[k].denom] + added);
    ValueUpdate(b.funds, rates, k, added);
  }

  /** A table holding a coin worth one unit or less. */
  predicate HasUnitCoin(rates: seq<Rate>)
  {
    exists k :: 0 <= k < |rates| && rates[k].exp <= 0
  }

  /** Once a coin worth one unit or less has been reached, no change is left owed. */
  lemma {:induction false} ChangeAbsorbed(c: Change, rates: seq<Rate>, j: nat, k: nat)
    requires j <= |rates| && Covers(c.funds, rates) && c.owed >= 0
    requires k < j && rates[k].exp <= 0
    ensures ChangeUpTo(c, rates, j).owed == 0
  {
    var b := ChangeUpTo(c, rates, j - 1);
    if k == j - 1 {
      ChangeOwedNonNegative(c, rates, j - 1);
      if rates[k].exp == 0 {
        assert Pow10(0) == 1;
      }
    } else {
      ChangeAbsorbed(c, rates, j - 1, k);
    }
  }

  lemma {:induction false} ChangeOwedNonNegative(c: Change, rates: seq<Rate>, j: nat)
    requires j <= |rates| && Covers(c.funds, rates) && c.owed >= 0
    ensures ChangeUpTo(c, rates, j).owed >= 0
  {
    if j > 0 {
      ChangeOwedNonNegative(c, rates, j - 1);
    }
  }

  // ---------------------------------------------------------------------
  // The whole conversion

  /**
   * For a table without repeated denominations, a ledger without negative
   * counts and a non-negative cost: the removal throws exactly when the cost
   * exceeds the ledger's spending power; a ledger it returns has no negative
   * count and is worth exactly `cost` less; and when the table holds a coin
   * worth one unit or less, an affordable cost is always removed.
   */
  lemma RemoveCostCorrect(funds: Ledger, cost: int, rates: seq<Rate>)
    requires Covers(funds, rates) && DistinctDenoms(rates) && NonNegative(funds) && cost >= 0
    ensures RemoveCost(funds, cost, rates).ConversionFailed? <==> cost > SpendingPower(funds, rates)
    ensures RemoveCost(funds, cost, rates).Removed? ==>
              NonNegative(RemoveCost(funds, cost, rates).funds) &&
              Value(RemoveCost(funds, cost, rates).funds, rates) == Value(funds, rates) - cost as real
    ensures HasUnitCoin(rates) && cost <= SpendingPower(funds, rates) ==> RemoveCost(funds, cost, rates).Removed?
  {
    var s := PayState(funds, cost, 0);
    PayDownSound(s, rates, 0);
    PayDownCost(s, rates, 0);
    assert rates[0..] == rates;
    RemovalAfterPayment(funds, cost, rates);
  }

  /**
   * What the change pass makes of a payment pass that left the cost covered,
   * counts and change non-negative and value moved exactly.
   */
  lemma RemovalAfterPayment(funds: Ledger, cost: int, rates: seq<Rate>)
    requires Covers(funds, rates) && DistinctDenoms(rates)
    requires var paid := PayDown(PayState(funds, cost, 0), rates, 0);
             NonNegative(paid.funds) && paid.change >= 0 && paid.cost >= 0
             && Value(paid.funds, rates) + paid.change as real - paid.cost as real == Value(funds, rates) - cost as real
    ensures var paid := PayDown(PayState(funds, cost, 0), rates, 0);
            RemoveCost(funds, cost, rates).ConversionFailed? <==> paid.cost > 0
    ensures RemoveCost(funds, cost, rates).Removed? ==>
              NonNegative(RemoveCost(funds, cost, rates).funds) &&
              Value(RemoveCost(funds, cost, rates).funds, rates) == Value(funds, rates) - cost as real
    ensures HasUnitCoin(rates) && PayDown(PayState(funds, cost, 0), rates, 0).cost <= 0 ==>
              RemoveCost(funds, cost, rates).Removed?
  {
    var paid := PayDown(PayState(funds, cost, 0), rates, 0);
    if paid.cost <= 0 {
      var back := if paid.change > 0 then ChangeUpTo(Change(paid.funds, paid.change), rates, |rates|)
                  else Change(paid.funds, paid.change);
      if paid.change > 0 {
        ChangePassSound(Change(paid.funds, paid.change), rates);
      }
      assert RemoveCost(funds, cost, rates) == if back.owed > 0 then ChangeNotReturned else Removed(back.funds);
    }
  }

  /** The whole change pass keeps counts non-negative and value plus change constant, and with a unit coin owes nothing. */
  lemma ChangePassSound(c: Change, rates: seq<Rate>)
    requires Covers(c.funds, rates) && DistinctDenoms(rates) && NonNegative(c.funds) && c.owed >= 0
    ensures var back := ChangeUpTo(c, rates, |rates|);
            NonNegative(back.funds) && back.owed >= 0
            && Value(back.funds, rates) + back.owed as real == Value(c.funds, rates) + c.owed as real
            && (HasUnitCoin(rates) ==> back.owed == 0)
  {
    ChangeUpToSound(c, rates, |rates|);
    if HasUnitCoin(rates) {
      var k :| 0 <= k < |rates| && rates[k].exp <= 0;
      ChangeAbsorbed(c, rates, |rates|, k);
    }
  }

  // ---------------------------------------------------------------------
  // Crediting a gold amount

  /** The value, in gold, of the coins a credit adds to the gp, sp and cp counts. */
  function Added(before: Ledger, after: Ledger): real
    requires "gp" in before && "sp" in before && "cp" in before
    requires "gp" in after && "sp" in after && "cp" in after
  {
    (after["gp"] - before["gp"]) as real + (after["sp"] - before["sp"]) as real / 10.0
      + (after["cp"] - before["cp"]) as real / 100.0
  }

  /**
   * Credits `total` gold as whole gold pieces, then the first decimal digit
   * as silver and the second as copper; platinum is never used and anything
   * below a copper is dropped.
   */
  function SpreadFunds(total: real, funds: Ledger): (r: Ledger)
    requires "gp" in funds && "sp" in funds && "cp" in funds
    ensures r.Keys == funds.Keys
    ensures forall d :: d in funds && d != "gp" && d != "sp" && d != "cp" ==> r[d] == funds[d]
    ensures 0 <= r["sp"] - funds["sp"] <= 9 && 0 <= r["cp"] - funds["cp"] <= 9
    ensures Added(funds, r) <= total < Added(funds, r) + 0.01
  {
    var gpBare := total.Floor;
    var spLeftOver := (total - gpBare as real) * 10.0;
    var spBare := spLeftOver.Floor;
    var cpLeftOver := (spLeftOver - spBare as real) * 10.0;
    var cpBare := cpLeftOver.Floor;
    funds["gp" := funds["gp"] + gpBare]["sp" := funds["sp"] + spBare]["cp" := funds["cp"] + cpBare]
  }
}

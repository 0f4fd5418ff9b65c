/**
 * Buying from and selling to a loot sheet: the purchase checks the buyer's
 * funds in whole gold pieces, scales the cost and the conversion rates by
 * ten until the cost is a whole number, takes the cost from the primary
 * ledger (and, when that is not enough, the rest from the weightless
 * ledger), then moves the item; a sale to a merchant credits half the
 * item's price (the full price for trade goods) as gold, silver and copper.
 */
module Trade {
  import opened Money
  import opened Conversion
  import opened Items
  import opened Inventory

  predicate IsInteger(x: real)
  {
    x == x.Floor as real
  }

  /** x multiplied by ten, k times over. */
  function Shifted(x: real, k: nat): real
  {
    if k == 0 then x else Shifted(x, k - 1) * 10.0
  }

  /** Shifting a whole number is multiplying it by 10^k. */
  lemma {:induction false} ShiftedWhole(n: int, k: nat)
    ensures Shifted(n as real, k) == (n * Pow10(k)) as real
  {
    if k > 0 {
      ShiftedWhole(n, k - 1);
      assert n * Pow10(k) == (n * Pow10(k - 1)) * 10;
    }
  }

  lemma {:induction false} ShiftedMono(x: real, y: real, k: nat)
    requires x <= y
    ensures Shifted(x, k) <= Shifted(y, k)
  {
    if k > 0 {
      ShiftedMono(x, y, k - 1);
    }
  }

  /** x has at most d decimal digits: x * 10^d is a whole number. */
  predicate Decimal(x: real, d: nat)
  {
    IsInteger(Shifted(x, d))
  }

  /** The rate table with every weight multiplied by ten k times. */
  function Scaled(rates: seq<Rate>, k: nat): (r: seq<Rate>)
    ensures |r| == |rates|
    ensures forall i :: 0 <= i < |rates| ==> r[i] == Rate(rates[i].denom, rates[i].exp + k)
  {
    if k == 0 then rates else Tenfold(Scaled(rates, k - 1))
  }

  /** Every scaled standard table covers a ledger of the four denominations and repeats none. */
  lemma StandardScaled(l: Ledger, k: nat)
    requires l.Keys == Denominations
    ensures Covers(l, Scaled(StandardRates, k)) && DistinctDenoms(Scaled(StandardRates, k))
  {
    var r := Scaled(StandardRates, k);
    assert r[0].denom == "pp" && r[1].denom == "gp" && r[2].denom == "sp" && r[3].denom == "cp";
  }

  // ---------------------------------------------------------------------
  // Scaling the cost

  /** The least number of decimal digits of x, searching from `from` up to a known bound d. */
  function StepsFrom(x: real, from: nat, d: nat): (k: nat)
    requires from <= d && Decimal(x, d)
    ensures from <= k <= d && Decimal(x, k)
    ensures forall j :: from <= j < k ==> !Decimal(x, j)
    decreases d - from
  {
    if Decimal(x, from) then from else StepsFrom(x, from + 1, d)
  }

  /** How many times a cost with at most d decimal digits is multiplied by ten before it is whole. */
  function ScaleSteps(x: real, d: nat): (k: nat)
    requires Decimal(x, d)
    ensures k <= d && Decimal(x, k)
    ensures forall j :: 0 <= j < k ==> !Decimal(x, j)
  {
    StepsFrom(x, 0, d)
  }

  /** The number of steps is the least number of decimal digits, whatever bound it was found under. */
  lemma {:induction false} StepsFromLeast(x: real, from: nat, d: nat, k: nat)
    requires from <= k <= d && Decimal(x, d) && Decimal(x, k)
    requires forall j :: from <= j < k ==> !Decimal(x, j)
    ensures StepsFrom(x, from, d) == k
    decreases d - from
  {
    if from < k {
      StepsFromLeast(x, from + 1, d, k);
    }
  }

  lemma ScaleStepsIndependent(x: real, d1: nat, d2: nat)
    requires Decimal(x, d1) && Decimal(x, d2)
    ensures ScaleSteps(x, d1) == ScaleSteps(x, d2)
  {
    var k1, k2 := ScaleSteps(x, d1), ScaleSteps(x, d2);
    assert Decimal(x, k1) && Decimal(x, k2);
  }

  /**
   * Multiplies the cost and every rate of the standard table by ten until
   * the cost is a whole number; `factor` is the multiplier applied, 10^k.
   */
  method ScaleCost(cost: real, ghost d: nat) returns (c: real, rates: seq<Rate>, factor: int, ghost k: nat)
    requires Decimal(cost, d)
    ensures k == ScaleSteps(cost, d) && IsInteger(c)
    ensures c == Shifted(cost, k) && rates == Scaled(StandardRates, k) && factor == Pow10(k)
  {
    c := cost;
    rates := StandardRates;
    factor := 1;
    k := 0;
    while !IsInteger(c)
      invariant k <= d && c == Shifted(cost, k) && rates == Scaled(StandardRates, k) && factor == Pow10(k)
      invariant forall j :: 0 <= j < k ==> !Decimal(cost, j)
      decreases d - k
    {
      assert !Decimal(cost, k);
      assert k < d;
      c := c * 10.0;
      rates := Tenfold(rates);
      factor := factor * 10;
      k := k + 1;
    }
    assert Decimal(cost, k);
    StepsFromLeast(cost, 0, d, k);
  }

  // ---------------------------------------------------------------------
  // Paying

  /** What a purchase does to the buyer's two ledgers. */
  datatype Payment = Paid(primary: Ledger, alt: Ledger) | NotEnoughFunds | PaymentFailed | ChangeLost

  /** The whole gold pieces a ledger is worth, each denomination rounded down on its own. */
  function Gold(l: Ledger): int
    requires l.Keys == Denominations
  {
    SpendingPower(l, StandardRates)
  }

  /**
   * Takes the whole-unit cost c (in units of 10^-k gold) from the two
   * ledgers: from the primary ledger alone when c is at most `threshold`,
   * otherwise `threshold` from the primary ledger and the rest from the
   * weightless one. A removal that throws ends the purchase; one that
   * cannot hand back its change gives no ledger to commit.
   */
  function Settle(primary: Ledger, alt: Ledger, c: int, threshold: int, k: nat): (p: Payment)
    requires primary.Keys == Denominations && alt.Keys == Denominations
    ensures p.Paid? ==> p.primary.Keys == Denominations && p.alt.Keys == Denominations
  {
    var rates := Scaled(StandardRates, k);
    if c <= threshold then
      var r := RemoveCost(primary, c, rates);
      if r.Removed? then Paid(r.funds, alt) else if r.ConversionFailed? then PaymentFailed else ChangeLost
    else
      var r1 := RemoveCost(primary, threshold, rates);
      var r2 := RemoveCost(alt, c - threshold, rates);
      if r1.ConversionFailed? || r2.ConversionFailed? then PaymentFailed
      else if r1.ChangeNotReturned? || r2.ChangeNotReturned? then ChangeLost
      else Paid(r1.funds, r2.funds)
  }

  /**
   * The payment as written: the solvency check in whole gold pieces, the
   * scaling of the cost, then a split between the ledgers that compares the
   * scaled cost with the unscaled gold of the primary ledger.
   */
  function PayAsWritten(primary: Ledger, alt: Ledger, cost: real, d: nat): (p: Payment)
    requires primary.Keys == Denominations && alt.Keys == Denominations && Decimal(cost, d)
    ensures p.Paid? ==> p.primary.Keys == Denominations && p.alt.Keys == Denominations
  {
    var gold := Gold(primary);
    if cost > (gold + Gold(alt)) as real then NotEnoughFunds
    else
      var k := ScaleSteps(cost, d);
      Settle(primary, alt, Shifted(cost, k).Floor, gold, k)
  }

  /** The payment with the primary ledger's gold scaled like the cost before the two are compared. */
  function PayCorrected(primary: Ledger, alt: Ledger, cost: real, d: nat): (p: Payment)
    requires primary.Keys == Denominations && alt.Keys == Denominations && Decimal(cost, d)
    ensures p.Paid? ==> p.primary.Keys == Denominations && p.alt.Keys == Denominations
  {
    var gold := Gold(primary);
    if cost > (gold + Gold(alt)) as real then NotEnoughFunds
    else
      var k := ScaleSteps(cost, d);
      Settle(primary, alt, Shifted(cost, k).Floor, gold * Pow10(k), k)
  }

  /** For a cost in whole gold pieces nothing is scaled, and the two payments agree. */
  lemma WholeCostPaysAsCorrected(primary: Ledger, alt: Ledger, cost: real, d: nat)
    requires primary.Keys == Denominations && alt.Keys == Denominations && Decimal(cost, d)
    requires IsInteger(cost)
    ensures PayAsWritten(primary, alt, cost, d) == PayCorrected(primary, alt, cost, d)
  {
    assert Pow10(0) == 1;
    assert Decimal(cost, 0);
    StepsFromLeast(cost, 0, d, 0);
    assert ScaleSteps(cost, d) == 0;
    assert Gold(primary) * Pow10(0) == Gold(primary);
  }

  // ---------------------------------------------------------------------
  // Why the corrected payment is right


  lemma {:induction false} SpendingPowerScaled(l: Ledger, rates: seq<Rate>, k: nat)
    requires Covers(l, rates) && NonNegative(l)
    ensures Covers(l, Scaled(rates, k))
    ensures SpendingPower(l, Scaled(rates, k)) >= Pow10(k) * SpendingPower(l, rates)
  {
    if k > 0 {
      SpendingPowerScaled(l, rates, k - 1);
      SpendingPowerTenfold(l, Scaled(rates, k - 1));
      var before := SpendingPower(l, rates);
      var p := Pow10(k - 1);
      assert Pow10(k) == 10 * p;
      assert Scaled(rates, k) == Tenfold(Scaled(rates, k - 1));
      assert 10 * (p * before) == (10 * p) * before;
    }
  }

  /** A scaled standard table still holds a coin worth at most one unit while k is at most two. */
  lemma UnitCoinUpToCopper(k: nat)
    requires k <= 2
    ensures HasUnitCoin(Scaled(StandardRates, k))
  {
    assert Scaled(StandardRates, k)[3].exp <= 0;
  }

  /**
   * When the primary ledger can pay `threshold` and the weightless ledger
   * the rest, the split never throws; when the table still has a coin of at
   * most one unit it always pays, and what it takes is exactly c.
   */
  lemma SettleSound(primary: Ledger, alt: Ledger, c: int, threshold: int, k: nat)
    requires primary.Keys == Denominations && alt.Keys == Denominations
    requires NonNegative(primary) && NonNegative(alt)
    requires Covers(primary, Scaled(StandardRates, k)) && Covers(alt, Scaled(StandardRates, k))
    requires 0 <= c && 0 <= threshold <= SpendingPower(primary, Scaled(StandardRates, k))
    requires c - threshold <= SpendingPower(alt, Scaled(StandardRates, k))
    ensures !Settle(primary, alt, c, threshold, k).PaymentFailed?
    ensures k <= 2 ==> Settle(primary, alt, c, threshold, k).Paid?
    ensures Settle(primary, alt, c, threshold, k).Paid? ==>
              var p := Settle(primary, alt, c, threshold, k);
              NonNegative(p.primary) && NonNegative(p.alt)
              && p.primary.Keys == Denominations && p.alt.Keys == Denominations
              && Value(p.primary, Scaled(StandardRates, k)) + Value(p.alt, Scaled(StandardRates, k))
                 == Value(primary, Scaled(StandardRates, k)) + Value(alt, Scaled(StandardRates, k)) - c as real
  {
    var rates := Scaled(StandardRates, k);
    StandardScaled(primary, k);
    if k <= 2 {
      UnitCoinUpToCopper(k);
    }
    if c <= threshold {
      SettleWithinSound(primary, alt, c, threshold, k);
    } else {
      SettleSplitSound(primary, alt, c, threshold, k);
    }
  }

  /** Whether a payment that went through took exactly c units from the two ledgers and left no negative count. */
  predicate TookExactly(primary: Ledger, alt: Ledger, c: int, p: Payment, rates: seq<Rate>)
    requires Covers(primary, rates) && Covers(alt, rates)
  {
    p.Paid? ==>
      NonNegative(p.primary) && NonNegative(p.alt)
      && p.primary.Keys == Denominations && p.alt.Keys == Denominations
      && Covers(p.primary, rates) && Covers(p.alt, rates)
      && Value(p.primary, rates) + Value(p.alt, rates) == Value(primary, rates) + Value(alt, rates) - c as real
  }

  lemma SettleWithinSound(primary: Ledger, alt: Ledger, c: int, threshold: int, k: nat)
    requires primary.Keys == Denominations && alt.Keys == Denominations
    requires NonNegative(primary) && NonNegative(alt)
    requires Covers(primary, Scaled(StandardRates, k)) && Covers(alt, Scaled(StandardRates, k))
    requires DistinctDenoms(Scaled(StandardRates, k))
    requires 0 <= c <= threshold <= SpendingPower(primary, Scaled(StandardRates, k))
    ensures !Settle(primary, alt, c, threshold, k).PaymentFailed?
    ensures HasUnitCoin(Scaled(StandardRates, k)) ==> Settle(primary, alt, c, threshold, k).Paid?
    ensures TookExactly(primary, alt, c, Settle(primary, alt, c, threshold, k), Scaled(StandardRates, k))
  {
    RemoveCostCorrect(primary, c, Scaled(StandardRates, k));
  }

  lemma SettleSplitSound(primary: Ledger, alt: Ledger, c: int, threshold: int, k: nat)
    requires primary.Keys == Denominations && alt.Keys == Denominations
    requires NonNegative(primary) && NonNegative(alt)
    requires Covers(primary, Scaled(StandardRates, k)) && Covers(alt, Scaled(StandardRates, k))
    requires DistinctDenoms(Scaled(StandardRates, k))
    requires 0 <= threshold < c && threshold <= SpendingPower(primary, Scaled(StandardRates, k))
    requires c - threshold <= SpendingPower(alt, Scaled(StandardRates, k))
    ensures !Settle(primary, alt, c, threshold, k).PaymentFailed?
    ensures HasUnitCoin(Scaled(StandardRates, k)) ==> Settle(primary, alt, c, threshold, k).Paid?
    ensures TookExactly(primary, alt, c, Settle(primary, alt, c, threshold, k), Scaled(StandardRates, k))
  {
    var rates := Scaled(StandardRates, k);
    var r1, r2 := RemoveCost(primary, threshold, rates), RemoveCost(alt, c - threshold, rates);
    RemoveCostCorrect(primary, threshold, rates);
    RemoveCostCorrect(alt, c - threshold, rates);
    if r1.Removed? && r2.Removed? {
      assert Settle(primary, alt, c, threshold, k) == Paid(r1.funds, r2.funds);
      assert (c - threshold) as real == c as real - threshold as real;
    }
  }

  /**
   * The corrected payment, for a buyer without negative counts and a cost
   * that is not negative: once the solvency check passes the payment never
   * throws; for a cost in whole copper pieces (at most two decimal digits)
   * it always pays, leaves no negative count, and the two ledgers together
   * lose exactly the cost, in gold.
   */
  lemma PayCorrectedSound(primary: Ledger, alt: Ledger, cost: real, d: nat)
    requires primary.Keys == Denominations && alt.Keys == Denominations && Decimal(cost, d)
    requires NonNegative(primary) && NonNegative(alt) && cost >= 0.0
    ensures (PayCorrected(primary, alt, cost, d).NotEnoughFunds? <==> cost > (Gold(primary) + Gold(alt)) as real)
    ensures !PayCorrected(primary, alt, cost, d).PaymentFailed?
    ensures Decimal(cost, 2) && cost <= (Gold(primary) + Gold(alt)) as real ==> PayCorrected(primary, alt, cost, d).Paid?
    ensures PayCorrected(primary, alt, cost, d).Paid? ==>
              var p := PayCorrected(primary, alt, cost, d);
              NonNegative(p.primary) && NonNegative(p.alt)
              && p.primary.Keys == Denominations && p.alt.Keys == Denominations
              && Value(p.primary, StandardRates) + Value(p.alt, StandardRates)
                 == Value(primary, StandardRates) + Value(alt, StandardRates) - cost
  {
    var gold, goldAlt := Gold(primary), Gold(alt);
    if cost <= (gold + goldAlt) as real {
      var k, c := ScaledCostFacts(cost, d, gold, goldAlt);
      CorrectedSettles(primary, alt, cost, d);
      SettleSolvent(primary, alt, c, k);
      if Decimal(cost, 2) {
        ScaleStepsIndependent(cost, d, 2);
      }
      var r := PayCorrected(primary, alt, cost, d);
      if r.Paid? {
        ScaledValueLoss(StandardRates, primary, alt, r.primary, r.alt, k, cost);
      }
    }
  }

  /** The scaled cost of a solvent purchase is a whole number between zero and the scaled funds. */
  lemma ScaledCostFacts(cost: real, d: nat, gold: int, goldAlt: int) returns (k: nat, c: int)
    requires Decimal(cost, d) && 0.0 <= cost <= (gold + goldAlt) as real
    ensures k == ScaleSteps(cost, d) && c == Shifted(cost, k).Floor
    ensures c as real == Shifted(cost, k) && 0 <= c <= gold * Pow10(k) + goldAlt * Pow10(k)
  {
    var bound := gold + goldAlt;
    k := ScaleSteps(cost, d);
    c := Shifted(cost, k).Floor;
    assert Decimal(cost, k);
    ShiftedMono(cost, bound as real, k);
    ShiftedWhole(bound, k);
    assert bound * Pow10(k) == gold * Pow10(k) + goldAlt * Pow10(k);
    ShiftedMono(0.0, cost, k);
    ShiftedWhole(0, k);
  }

  /** Past the solvency check, the corrected payment settles the scaled cost against the scaled gold. */
  lemma CorrectedSettles(primary: Ledger, alt: Ledger, cost: real, d: nat)
    requires primary.Keys == Denominations && alt.Keys == Denominations && Decimal(cost, d)
    requires cost <= (Gold(primary) + Gold(alt)) as real
    ensures var k := ScaleSteps(cost, d);
            PayCorrected(primary, alt, cost, d)
            == Settle(primary, alt, Shifted(cost, k).Floor, Gold(primary) * Pow10(k), k)
  {
  }

  /** A scaled cost within the scaled whole-gold funds never fails to convert. */
  lemma SettleSolvent(primary: Ledger, alt: Ledger, c: int, k: nat)
    requires primary.Keys == Denominations && alt.Keys == Denominations
    requires NonNegative(primary) && NonNegative(alt)
    requires 0 <= c <= Gold(primary) * Pow10(k) + Gold(alt) * Pow10(k)
    ensures !Settle(primary, alt, c, Gold(primary) * Pow10(k), k).PaymentFailed?
    ensures k <= 2 ==> Settle(primary, alt, c, Gold(primary) * Pow10(k), k).Paid?
    ensures Settle(primary, alt, c, Gold(primary) * Pow10(k), k).Paid? ==>
              var p := Settle(primary, alt, c, Gold(primary) * Pow10(k), k);
              NonNegative(p.primary) && NonNegative(p.alt)
              && p.primary.Keys == Denominations && p.alt.Keys == Denominations
              && Value(p.primary, Scaled(StandardRates, k)) + Value(p.alt, Scaled(StandardRates, k))
                 == Value(primary, Scaled(StandardRates, k)) + Value(alt, Scaled(StandardRates, k)) - c as real
  {
    var gold, goldAlt, p := Gold(primary), Gold(alt), Pow10(k);
    StandardScaled(primary, 0);
    StandardScaled(alt, 0);
    StandardScaled(primary, k);
    StandardScaled(alt, k);
    SpendingPowerScaled(primary, StandardRates, k);
    SpendingPowerScaled(alt, StandardRates, k);
    SpendingPowerNonNegative(primary, StandardRates);
    assert 0 <= gold * p by {
      MulMono(0, gold, p);
    }
    assert p * gold == gold * p && p * goldAlt == goldAlt * p;
    SettleSound(primary, alt, c, gold * p, k);
  }

  /** Losing the scaled cost in scaled units is losing the cost in gold. */
  lemma {:induction false} ScaledValueLoss(base: seq<Rate>, primary: Ledger, alt: Ledger, primary': Ledger, alt': Ledger,
                                           k: nat, cost: real)
    requires Covers(primary, base) && Covers(alt, base) && Covers(primary', base) && Covers(alt', base)
    requires Covers(primary, Scaled(base, k)) && Covers(alt, Scaled(base, k))
    requires Covers(primary', Scaled(base, k)) && Covers(alt', Scaled(base, k))
    requires Value(primary', Scaled(base, k)) + Value(alt', Scaled(base, k))
             == Value(primary, Scaled(base, k)) + Value(alt, Scaled(base, k)) - Shifted(cost, k)
    ensures Value(primary', base) + Value(alt', base) == Value(primary, base) + Value(alt, base) - cost
  {
    if k > 0 {
      var r := Scaled(base, k - 1);
      assert Scaled(base, k) == Tenfold(r);
      CoversScaled(primary, base, k - 1);
      CoversScaled(alt, base, k - 1);
      CoversScaled(primary', base, k - 1);
      CoversScaled(alt', base, k - 1);
      ValueTenfold(primary, r);
      ValueTenfold(alt, r);
      ValueTenfold(primary', r);
      ValueTenfold(alt', r);
      ScaledValueLoss(base, primary, alt, primary', alt', k - 1, cost);
    }
  }

  /** A ledger that covers a table covers every scaling of it. */
  lemma CoversScaled(l: Ledger, base: seq<Rate>, k: nat)
    requires Covers(l, base)
    ensures Covers(l, Scaled(base, k))
  {
  }

  /**
   * The payment as written, for a cost in whole gold pieces, behaves as the
   * corrected one: it never throws after the solvency check, always pays,
   * leaves no negative count and takes exactly the cost.
   */
  lemma PayAsWrittenWholeCost(primary: Ledger, alt: Ledger, cost: real, d: nat)
    requires primary.Keys == Denominations && alt.Keys == Denominations && Decimal(cost, d)
    requires NonNegative(primary) && NonNegative(alt) && cost >= 0.0 && IsInteger(cost)
    ensures PayAsWritten(primary, alt, cost, d).NotEnoughFunds? <==> cost > (Gold(primary) + Gold(alt)) as real
    ensures cost <= (Gold(primary) + Gold(alt)) as real ==> PayAsWritten(primary, alt, cost, d).Paid?
    ensures PayAsWritten(primary, alt, cost, d).Paid? ==>
              var p := PayAsWritten(primary, alt, cost, d);
              NonNegative(p.primary) && NonNegative(p.alt)
              && Value(p.primary, StandardRates) + Value(p.alt, StandardRates)
                 == Value(primary, StandardRates) + Value(alt, StandardRates) - cost
  {
    WholeCostPaysAsCorrected(primary, alt, cost, d);
    assert Decimal(cost, 2) by {
      ShiftedWhole(cost.Floor, 2);
    }
    PayCorrectedSound(primary, alt, cost, d);
  }

  // ---------------------------------------------------------------------
  // Worked examples
  //
  // Three purchases evaluated on concrete ledgers: 1.5 gold from ten gold
  // pieces (as written and corrected), 0.363 gold from a hundred copper
  // pieces, and the change pass on sixty-three copper pieces. The short
  // lemmas without a comment of their own (TenGold*, EightGold*,
  // HundredCopper*, NoCoinsStep, NothingOwedStep, PayDownUnchanged, ...) are
  // single steps of these evaluations, one pass or one denomination each;
  // they state nothing beyond the example they serve.

  // Ledgers and tables of the worked examples.
  const TenGold: Ledger := map["pp" := 0, "gp" := 10, "sp" := 0, "cp" := 0]
  const EightGold: Ledger := map["pp" := 0, "gp" := 8, "sp" := 0, "cp" := 0]
  const EightGoldFiveSilver: Ledger := map["pp" := 0, "gp" := 8, "sp" := 5, "cp" := 0]
  const Empty: Ledger := map["pp" := 0, "gp" := 0, "sp" := 0, "cp" := 0]
  const HundredCopper: Ledger := map["pp" := 0, "gp" := 0, "sp" := 0, "cp" := 100]
  const SixtyThreeCopper: Ledger := map["pp" := 0, "gp" := 0, "sp" := 0, "cp" := 63]
  const TenthRates: seq<Rate> := [Rate("pp", 2), Rate("gp", 1), Rate("sp", 0), Rate("cp", -1)]
  const ThousandthRates: seq<Rate> := [Rate("pp", 4), Rate("gp", 3), Rate("sp", 2), Rate("cp", 1)]

  /**
   * A buyer with ten gold pieces and nothing weightless cannot pay 1.5 gold
   * as written: the scaled cost 15 is compared with the unscaled 10, ten
   * scaled units are taken from the gold and the weightless ledger must
   * find the other five. The corrected payment takes two gold pieces and
   * hands five silver back.
   */
  lemma TransactionCounterexample()
    ensures PayAsWritten(TenGold, Empty, 1.5, 1) == PaymentFailed
    ensures PayCorrected(TenGold, Empty, 1.5, 1) == Paid(EightGoldFiveSilver, Empty)
  {
    AsWrittenFifteen();
    CorrectedFifteen();
  }

  /** 1.5 has one decimal digit: it is scaled once, to 15. */
  lemma OneAndAHalf()
    ensures Decimal(1.5, 1) && ScaleSteps(1.5, 1) == 1 && Shifted(1.5, 1).Floor == 15
  {
    assert Decimal(1.5, 1);
    assert !Decimal(1.5, 0);
    StepsFromLeast(1.5, 0, 1, 1);
  }

  lemma TenGoldWorth()
    ensures Gold(TenGold) == 10 && Gold(Empty) == 0
  {
    assert Pow10(1) == 10 && Pow10(2) == 100;
    ZeroSpendingPower(Empty, StandardRates);
  }

  /** A ledger with no coins can spend nothing, whatever the table. */
  lemma {:induction false} ZeroSpendingPower(l: Ledger, rates: seq<Rate>)
    requires Covers(l, rates) && forall d :: d in l ==> l[d] == 0
    ensures SpendingPower(l, rates) == 0
  {
    if rates != [] {
      ZeroSpendingPower(l, rates[1..]);
    }
  }

  lemma TenthScale()
    ensures Scaled(StandardRates, 1) == TenthRates && DistinctDenoms(TenthRates)
  {
  }

  lemma AsWrittenFifteen()
    ensures PayAsWritten(TenGold, Empty, 1.5, 1) == PaymentFailed
  {
    OneAndAHalf();
    TenGoldWorth();
    TenthScale();
    AsWrittenSettles(TenGold, Empty, 1.5, 1);
    EmptyCannotPayFive();
    SettleAltFails(TenGold, Empty, 15, 10, 1);
  }

  /** An empty weightless ledger cannot find the five tenths left over. */
  lemma EmptyCannotPayFive()
    ensures RemoveCost(Empty, 5, Scaled(StandardRates, 1)) == ConversionFailed
  {
    TenthScale();
    ZeroSpendingPower(Empty, TenthRates);
    RemoveCostCorrect(Empty, 5, TenthRates);
  }

  lemma CorrectedFifteen()
    ensures PayCorrected(TenGold, Empty, 1.5, 1) == Paid(EightGoldFiveSilver, Empty)
  {
    OneAndAHalf();
    TenGoldWorth();
    TenthScale();
    CorrectedSettles(TenGold, Empty, 1.5, 1);
    TenGoldPaysFifteen();
    assert Pow10(1) == 10;
    SettleWithin(TenGold, Empty, 15, 10 * Pow10(1), 1);
  }

  /** A cost within the threshold is taken from the primary ledger alone. */
  lemma SettleWithin(primary: Ledger, alt: Ledger, c: int, threshold: int, k: nat)
    requires primary.Keys == Denominations && alt.Keys == Denominations && c <= threshold
    ensures var r := RemoveCost(primary, c, Scaled(StandardRates, k));
            r.Removed? ==> Settle(primary, alt, c, threshold, k) == Paid(r.funds, alt)
    ensures RemoveCost(primary, c, Scaled(StandardRates, k)).ChangeNotReturned? ==>
              Settle(primary, alt, c, threshold, k) == ChangeLost
  {
  }

  /** Past the threshold, a weightless ledger that cannot cover the rest fails the payment. */
  lemma SettleAltFails(primary: Ledger, alt: Ledger, c: int, threshold: int, k: nat)
    requires primary.Keys == Denominations && alt.Keys == Denominations && c > threshold
    requires RemoveCost(alt, c - threshold, Scaled(StandardRates, k)) == ConversionFailed
    ensures Settle(primary, alt, c, threshold, k) == PaymentFailed
  {
  }

  lemma TenGoldPaysFifteen()
    ensures Covers(TenGold, TenthRates)
    ensures RemoveCost(TenGold, 15, TenthRates) == Removed(EightGoldFiveSilver)
  {
    var s0 := PayState(TenGold, 15, 0);
    var s1 := PayState(EightGold, 0, 5);
    CoversExamples();
    TenGoldLowCoins();
    assert PayDown(s0, TenthRates, 1) == s1 by {
      TenGoldGoldStep();
      assert TenthRates[1] == Rate("gp", 1);
    }
    assert PayDown(s0, TenthRates, 0) == s1 by {
      EightGoldPlatinumStep();
      assert TenthRates[0] == Rate("pp", 2);
    }
    EightGoldChange();
  }

  lemma CoversExamples()
    ensures Covers(TenGold, TenthRates) && Covers(EightGold, TenthRates)
    ensures Covers(HundredCopper, ThousandthRates) && Covers(SixtyThreeCopper, ThousandthRates)
  {
  }

  lemma TenGoldLowCoins()
    ensures Covers(TenGold, TenthRates)
    ensures PayDown(PayState(TenGold, 15, 0), TenthRates, 2) == PayState(TenGold, 15, 0)
  {
    NoCoinsStep(TenGold, 15, 0, Rate("cp", -1));
    NoCoinsStep(TenGold, 15, 0, Rate("sp", 0));
    assert TenthRates[2] == Rate("sp", 0) && TenthRates[3] == Rate("cp", -1);
  }

  /** A denomination the ledger holds none of pays nothing and changes nothing. */
  lemma NoCoinsStep(l: Ledger, cost: int, change: int, r: Rate)
    requires r.denom in l && l[r.denom] == 0 && cost >= 0
    ensures PayStep(PayState(l, cost, change), r) == PayState(l, cost, change)
  {
    assert l[r.denom := 0] == l;
    if r.exp >= 0 {
      assert CeilDiv(0, Pow10(r.exp)) == 0;
    }
  }

  lemma TenGoldGoldStep()
    ensures PayStep(PayState(TenGold, 15, 0), Rate("gp", 1)) == PayState(EightGold, 0, 5)
  {
    assert CeilDiv(15, 10) == 2;
    assert TenGold["gp" := 8] == EightGold;
  }

  lemma EightGoldPlatinumStep()
    ensures PayStep(PayState(EightGold, 0, 5), Rate("pp", 2)) == PayState(EightGold, 0, 5)
  {
    assert Pow10(2) == 100;
    assert CeilDiv(0, 100) == 0;
    assert EightGold["pp" := 0] == EightGold;
  }

  lemma EightGoldChange()
    ensures Covers(EightGold, TenthRates)
    ensures ChangeUpTo(Change(EightGold, 5), TenthRates, 4) == Change(EightGoldFiveSilver, 0)
  {
    var c0 := Change(EightGold, 5);
    assert Pow10(2) == 100 && Pow10(1) == 10 && Pow10(0) == 1;
    assert ChangeUpTo(c0, TenthRates, 2) == c0 by {
      assert ChangeStep(c0, Rate("pp", 2)) == c0;
      assert ChangeStep(c0, Rate("gp", 1)) == c0;
    }
    assert ChangeStep(c0, Rate("sp", 0)) == Change(EightGoldFiveSilver, 0) by {
      assert EightGold["sp" := 5] == EightGoldFiveSilver;
    }
    assert ChangeStep(Change(EightGoldFiveSilver, 0), Rate("cp", -1)) == Change(EightGoldFiveSilver, 0);
  }

  /**
   * A cost below a copper piece can leave change no coin can return: 0.363
   * gold paid from a hundred copper pieces.
   */
  lemma SubCopperChangeLost()
    ensures PayCorrected(HundredCopper, Empty, 0.363, 3) == ChangeLost
  {
    ThreeDigits();
    HundredCopperWorth();
    assert Scaled(StandardRates, 3) == ThousandthRates;
    CorrectedSettles(HundredCopper, Empty, 0.363, 3);
    HundredCopperPaysThousandths();
    assert Pow10(3) == 1000;
    SettleWithin(HundredCopper, Empty, 363, 1 * Pow10(3), 3);
  }

  /** 0.363 has three decimal digits: it is scaled three times, to 363. */
  lemma ThreeDigits()
    ensures Decimal(0.363, 3) && ScaleSteps(0.363, 3) == 3 && Shifted(0.363, 3).Floor == 363
  {
    assert Decimal(0.363, 3);
    assert !Decimal(0.363, 0) && !Decimal(0.363, 1) && !Decimal(0.363, 2);
    StepsFromLeast(0.363, 0, 3, 3);
    assert Shifted(0.363, 3) == 363.0;
  }

  lemma HundredCopperWorth()
    ensures Gold(HundredCopper) == 1 && Gold(Empty) == 0
  {
    assert Pow10(1) == 10 && Pow10(2) == 100;
    ZeroSpendingPower(Empty, StandardRates);
  }

  lemma HundredCopperPaysThousandths()
    ensures Covers(HundredCopper, ThousandthRates)
    ensures RemoveCost(HundredCopper, 363, ThousandthRates) == ChangeNotReturned
  {
    HundredCopperPaysDown();
    SixtyThreeCopperNoChange();
  }

  /** The payment pass spends 37 copper pieces and owes 7 thousandths back. */
  lemma HundredCopperPaysDown()
    ensures Covers(HundredCopper, ThousandthRates)
    ensures PayDown(PayState(HundredCopper, 363, 0), ThousandthRates, 0) == PayState(SixtyThreeCopper, 0, 7)
  {
    var s0 := PayState(HundredCopper, 363, 0);
    var s1 := PayState(SixtyThreeCopper, 0, 7);
    HundredCopperCopperPass();
    assert ThousandthRates[2] == Rate("sp", 2);
    NothingOwedStep(SixtyThreeCopper, 7, Rate("sp", 2));
    PayDownUnchanged(s0, ThousandthRates, 2, s1);
    assert ThousandthRates[1] == Rate("gp", 3);
    NothingOwedStep(SixtyThreeCopper, 7, Rate("gp", 3));
    PayDownUnchanged(s0, ThousandthRates, 1, s1);
    assert ThousandthRates[0] == Rate("pp", 4);
    NothingOwedStep(SixtyThreeCopper, 7, Rate("pp", 4));
    PayDownUnchanged(s0, ThousandthRates, 0, s1);
  }

  /** The last entry of the table, the copper piece, is the first one paid with. */
  lemma HundredCopperCopperPass()
    ensures Covers(HundredCopper, ThousandthRates)
    ensures PayDown(PayState(HundredCopper, 363, 0), ThousandthRates, 3) == PayState(SixtyThreeCopper, 0, 7)
  {
    CoversExamples();
    HundredCopperCopperStep();
    assert ThousandthRates[3] == Rate("cp", 1);
  }

  /** A payment step that changes nothing leaves the pass where it was. */
  lemma PayDownUnchanged(s: PayState, rates: seq<Rate>, i: nat, t: PayState)
    requires i < |rates| && Covers(s.funds, rates)
    requires PayDown(s, rates, i + 1) == t && rates[i].denom in t.funds && PayStep(t, rates[i]) == t
    ensures PayDown(s, rates, i) == t
  {
  }

  lemma HundredCopperCopperStep()
    ensures PayStep(PayState(HundredCopper, 363, 0), Rate("cp", 1)) == PayState(SixtyThreeCopper, 0, 7)
  {
    assert Pow10(1) == 10;
    assert CeilDiv(363, 10) == 37;
    assert HundredCopper["cp" := 63] == SixtyThreeCopper;
  }

  /** Once nothing is owed, a whole-unit coin of weight 10^e is left alone. */
  lemma NothingOwedStep(l: Ledger, change: int, r: Rate)
    requires r.denom in l && l[r.denom] >= 0 && r.exp >= 0
    ensures PayStep(PayState(l, 0, change), r) == PayState(l, 0, change)
  {
    var w := Pow10(r.exp);
    assert Min(0, l[r.denom] * w) <= 0;
    assert CeilDiv(0, w) == 0;
    assert l[r.denom := l[r.denom]] == l;
  }

  lemma SixtyThreeCopperNoChange()
    ensures Covers(SixtyThreeCopper, ThousandthRates)
    ensures ChangeUpTo(Change(SixtyThreeCopper, 7), ThousandthRates, 4) == Change(SixtyThreeCopper, 7)
  {
    var c0 := Change(SixtyThreeCopper, 7);
    assert Pow10(1) == 10 && Pow10(2) == 100 && Pow10(3) == 1000 && Pow10(4) == 10000;
    assert ChangeStep(c0, Rate("pp", 4)) == c0;
    assert ChangeStep(c0, Rate("gp", 3)) == c0;
    assert ChangeStep(c0, Rate("sp", 2)) == c0;
    assert ChangeStep(c0, Rate("cp", 1)) == c0;
  }

  // ---------------------------------------------------------------------
  // The purchase

  /** The seller's price modifier, or one when it is missing or zero. */
  function EffectiveModifier(modifier: Option<real>): (r: real)
    ensures r != 0.0
    ensures modifier.Some? && modifier.value != 0.0 ==> r == modifier.value
    ensures modifier.None? || modifier.value == 0.0 ==> r == 1.0
  {
    if modifier.None? || modifier.value == 0.0 then 1.0 else modifier.value
  }

  /** The price of q items: the shown price times the seller's modifier times q. */
  function PurchaseCost(item: Item, modifier: Option<real>, q: int): real
  {
    ItemCost(Some(item)) * EffectiveModifier(modifier) * q as real
  }

  /** The cost quoted for buying up to `quantity` of the item `itemId`. */
  function Quote(items: seq<Item>, modifier: Option<real>, itemId: string, quantity: int): real
    requires HasId(items, itemId)
  {
    var item := items[Find(items, itemId).value];
    PurchaseCost(item, modifier, Min(item.quantity, quantity))
  }

  datatype Purchase = Bought(moved: Moved, cost: real) | NotBought(reason: Payment)

  /** Adds up the whole gold pieces of a ledger, one denomination at a time. */
  method FundsInGold(funds: Ledger) returns (gold: int)
    requires funds.Keys == Denominations
    ensures gold == Gold(funds)
  {
    StandardScaled(funds, 0);
    gold := FundsAsGold(funds, StandardRates);
  }

  /** Past the solvency check, the payment as written settles the scaled cost against the unscaled gold. */
  lemma AsWrittenSettles(primary: Ledger, alt: Ledger, cost: real, d: nat)
    requires primary.Keys == Denominations && alt.Keys == Denominations && Decimal(cost, d)
    requires cost <= (Gold(primary) + Gold(alt)) as real
    ensures var k := ScaleSteps(cost, d);
            PayAsWritten(primary, alt, cost, d) == Settle(primary, alt, Shifted(cost, k).Floor, Gold(primary), k)
  {
  }

  /**
   * Pays `cost` from the buyer's ledgers: the solvency check in whole gold
   * pieces, the scaling of the cost and the rates, then the removal from
   * the primary ledger alone or from both. Only a payment that goes through
   * is committed.
   */
  method PayCost(buyer: Actor, cost: real, ghost digits: nat) returns (pay: Payment)
    requires buyer.Valid() && Decimal(cost, digits)
    modifies buyer`currency, buyer`altCurrency
    ensures buyer.Valid()
    ensures pay == PayCorrected(old(buyer.currency), old(buyer.altCurrency), cost, digits)
    ensures pay.Paid? ==> buyer.currency == pay.primary && buyer.altCurrency == pay.alt
    ensures !pay.Paid? ==> buyer.currency == old(buyer.currency) && buyer.altCurrency == old(buyer.altCurrency)
  {
    var primary, alt := buyer.currency, buyer.altCurrency;
    var gold := FundsInGold(primary);
    var goldAlt := FundsInGold(alt);
    if cost > (gold + goldAlt) as real {
      return NotEnoughFunds;
    }
    var scaled, rates, factor, k := ScaleCost(cost, digits);
    var c := scaled.Floor;
    StandardScaled(primary, k);
    StandardScaled(alt, k);
    CorrectedSettles(primary, alt, cost, digits);
    var threshold := gold * factor;
    if c <= threshold {
      var removal := RemoveCostFromFunds(primary, c, rates);
      if removal.ConversionFailed? {
        pay := PaymentFailed;
      } else if removal.ChangeNotReturned? {
        pay := ChangeLost;
      } else {
        pay := Paid(removal.funds, alt);
      }
    } else {
      var first := RemoveCostFromFunds(primary, threshold, rates);
      var second := RemoveCostFromFunds(alt, c - threshold, rates);
      if first.ConversionFailed? || second.ConversionFailed? {
        pay := PaymentFailed;
      } else if first.ChangeNotReturned? || second.ChangeNotReturned? {
        pay := ChangeLost;
      } else {
        pay := Paid(first.funds, second.funds);
      }
    }
    if pay.Paid? {
      buyer.currency, buyer.altCurrency := pay.primary, pay.alt;
    }
  }

  /**
   * A buyer buys up to `quantity` of the item `itemId` from a seller: the
   * quantity is cut down to the stock, the cost is paid as PayCorrected
   * describes, and only when it is paid is the item moved.
   */
  method Transaction(seller: Actor, buyer: Actor, itemId: string, quantity: int,
                     removeEmptyStacks: bool, newId: string, ghost digits: nat) returns (r: Purchase)
    requires seller != buyer && seller.Valid() && buyer.Valid()
    requires HasId(seller.items, itemId) && !HasId(buyer.items, newId)
    requires Decimal(Quote(seller.items, seller.priceModifier, itemId, quantity), digits)
    modifies seller`items, buyer`items, buyer`currency, buyer`altCurrency
    ensures seller.Valid() && buyer.Valid()
    ensures var cost := Quote(old(seller.items), seller.priceModifier, itemId, quantity);
            var pay := PayCorrected(old(buyer.currency), old(buyer.altCurrency), cost, digits);
            var k := Find(old(seller.items), itemId).value;
            var item := old(seller.items)[k];
            var q := MovedQuantity(item.quantity, Some(Min(item.quantity, quantity)));
            if pay.Paid? then
              buyer.currency == pay.primary && buyer.altCurrency == pay.alt
              && r == Bought(Moved(Copy(item, q), q), cost)
              && seller.items == Remaining(old(seller.items), k, q, removeEmptyStacks)
              && buyer.items == old(buyer.items) + [Copy(item, q).(id := newId)]
            else
              r == NotBought(pay)
              && buyer.currency == old(buyer.currency) && buyer.altCurrency == old(buyer.altCurrency)
              && seller.items == old(seller.items) && buyer.items == old(buyer.items)
  {
    var found := Find(seller.items, itemId);
    var item := seller.items[found.value];
    var q := quantity;
    if item.quantity < q {
      q := item.quantity;
    }
    var cost := ItemCost(Some(item)) * EffectiveModifier(seller.priceModifier);
    cost := cost * q as real;
    assert cost == Quote(seller.items, seller.priceModifier, itemId, quantity);
    var pay := PayCost(buyer, cost, digits);
    if !pay.Paid? {
      return NotBought(pay);
    }
    var moved := MoveItem(seller, buyer, itemId, Some(q), removeEmptyStacks, newId);
    r := Bought(moved.value, cost);
  }

  /** Buying none of a stack costs nothing, yet the whole stack changes hands. */
  lemma ZeroQuantityPurchase(item: Item, modifier: Option<real>)
    requires item.quantity > 0
    ensures PurchaseCost(item, modifier, Min(item.quantity, 0)) == 0.0
    ensures MovedQuantity(item.quantity, Some(Min(item.quantity, 0))) == item.quantity
  {
  }

  // ---------------------------------------------------------------------
  // The sale

  /** What a merchant pays for q items of a kind: half the shown price each, the full price for trade goods, nothing for an item without a positive price. */
  function SaleProceeds(item: Item, q: int): real
  {
    var cost := ItemCost(Some(item));
    if cost > 0.0 then (if item.subType != TradeGoods then cost / 2.0 else cost) * q as real else 0.0
  }

  /** For a weapon, equipment, consumable, tool or loot item, a merchant pays the sale value at one half, per item. */
  lemma ProceedsAreSaleValue(item: Item, q: int)
    requires Listed(item.kind) && ItemCost(Some(item)) > 0.0
    ensures SaleProceeds(item, q) == SaleValue(item, 0.5) * q as real
  {
  }

  datatype Disposal = Sold(moved: Moved, proceeds: real) | Dropped(moved: Moved) | NothingGiven

  /**
   * A giver drops a whole stack into a container; when the container is a
   * merchant and the item has a positive price, the giver is credited the
   * proceeds as gold, silver and copper.
   */
  method DropOrSellItem(container: Actor, giver: Actor, itemId: string,
                        removeEmptyStacks: bool, newId: string) returns (r: Disposal)
    requires container != giver && container.Valid() && giver.Valid()
    requires !HasId(container.items, newId)
    modifies giver`items, giver`currency, container`items
    ensures container.Valid() && giver.Valid()
    ensures !HasId(old(giver.items), itemId) ==>
              r == NothingGiven && giver.items == old(giver.items) && container.items == old(container.items)
              && giver.currency == old(giver.currency)
    ensures HasId(old(giver.items), itemId) ==>
              var k := Find(old(giver.items), itemId).value;
              var item := old(giver.items)[k];
              (r.Sold? || r.Dropped?)
              && r.moved == Moved(Copy(item, item.quantity), item.quantity)
              && giver.items == Remaining(old(giver.items), k, item.quantity, removeEmptyStacks)
              && container.items == old(container.items) + [Copy(item, item.quantity).(id := newId)]
              && (r.Sold? <==> container.sheetType == Some("Merchant"))
              && (r.Dropped? ==> giver.currency == old(giver.currency))
              && (r.Sold? ==> (r.proceeds == SaleProceeds(item, item.quantity)
                               && (ItemCost(Some(item)) > 0.0 ==> giver.currency == SpreadFunds(r.proceeds, old(giver.currency)))
                               && (ItemCost(Some(item)) <= 0.0 ==> giver.currency == old(giver.currency))))
  {
    var moved := MoveItem(giver, container, itemId, None, removeEmptyStacks, newId);
    if moved.None? {
      return NothingGiven;
    }
    var m := moved.value;
    ghost var item := old(giver.items)[Find(old(giver.items), itemId).value];
    assert m == Moved(Copy(item, item.quantity), item.quantity);
    CopySells(item, item.quantity);
    if container.sheetType == Some("Merchant") {
      var total := CreditSale(giver, m.item, m.quantity);
      r := Sold(m, total);
    } else {
      r := Dropped(m);
    }
  }

  /** A copy made for a move keeps the price a merchant pays for it. */
  lemma CopySells(item: Item, q: int)
    ensures ItemCost(Some(Copy(item, q))) == ItemCost(Some(item))
    ensures SaleProceeds(Copy(item, q), q) == SaleProceeds(item, q)
  {
  }

  /** Credits the seller with what a merchant pays for q of the item, when its price is positive. */
  method CreditSale(giver: Actor, item: Item, q: int) returns (total: real)
    requires giver.Valid()
    modifies giver`currency
    ensures giver.Valid()
    ensures total == SaleProceeds(item, q)
    ensures ItemCost(Some(item)) > 0.0 ==> giver.currency == SpreadFunds(total, old(giver.currency))
    ensures ItemCost(Some(item)) <= 0.0 ==> giver.currency == old(giver.currency)
  {
    var cost := ItemCost(Some(item));
    total := 0.0;
    if cost > 0.0 {
      if item.subType != TradeGoods {
        cost := cost / 2.0;
      }
      total := cost * q as real;
      giver.currency := SpreadFunds(total, giver.currency);
    }
  }
}

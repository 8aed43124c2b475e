/**
 * The personal price index of one request: a spend-weighted sum of the
 * relative price changes of its spending categories, in percent, rounded to
 * two decimal places.
 *
 * All sums recurse on the LAST category, so that a loop over the categories
 * in order extends them one step at a time.
 */
module Cpi {
  import opened Wrappers
  import opened Json

  /** The identifier of a request is whatever JSON value the trigger's `pk` held. */
  type RequestId = Value

  /** One spending category; `None` stands for a key that is absent or holds null. */
  datatype Category = Category(userSpent: Option<real>, basePrice: Option<real>)

  /** The outcome of one calculation, as the task returns it. */
  datatype Outcome = Outcome(id: RequestId, personalCPI: Option<real>, success: bool)

  /** The outcome every early exit returns. */
  function Failure(id: RequestId): Outcome {
    Outcome(id, None, false)
  }

  /** An absent or null amount counts as zero. */
  function Amount(v: Option<real>): real {
    v.GetOr(0.0)
  }

  function Spent(c: Category): real {
    Amount(c.userSpent)
  }

  function Base(c: Category): real {
    Amount(c.basePrice)
  }

  /** Only a category with both a positive base price and a positive spend contributes. */
  predicate Qualifies(c: Category) {
    Base(c) > 0.0 && Spent(c) > 0.0
  }

  /** Spend summed over ALL categories, qualifying or not. */
  function TotalSpent(cs: seq<Category>): real {
    if |cs| == 0 then 0.0 else TotalSpent(cs[..|cs| - 1]) + Spent(cs[|cs| - 1])
  }

  /** weight * change of one category, where weight = spend / total. */
  function Contribution(c: Category, total: real): real
    requires total != 0.0
  {
    if Qualifies(c) then (Spent(c) / total) * ((Spent(c) - Base(c)) / Base(c)) else 0.0
  }

  /** The accumulated index (a fraction, before scaling to percent). */
  function CpiSum(cs: seq<Category>, total: real): real
    requires total != 0.0
  {
    if |cs| == 0 then 0.0 else CpiSum(cs[..|cs| - 1], total) + Contribution(cs[|cs| - 1], total)
  }

  /** Whether the loop has met a qualifying category. */
  predicate AnyQualifies(cs: seq<Category>) {
    |cs| > 0 && (AnyQualifies(cs[..|cs| - 1]) || Qualifies(cs[|cs| - 1]))
  }

  /** spend * change summed over the qualifying categories: the index before dividing by total. */
  function RawSum(cs: seq<Category>): real {
    if |cs| == 0 then 0.0
    else
      var c := cs[|cs| - 1];
      RawSum(cs[..|cs| - 1]) + (if Qualifies(c) then Spent(c) * ((Spent(c) - Base(c)) / Base(c)) else 0.0)
  }

  /** Spend summed over the qualifying categories only. */
  function QualifyingSpend(cs: seq<Category>): real {
    if |cs| == 0 then 0.0
    else QualifyingSpend(cs[..|cs| - 1]) + (if Qualifies(cs[|cs| - 1]) then Spent(cs[|cs| - 1]) else 0.0)
  }

  /** The weights spend / total of the qualifying categories, summed as the loop computes them. */
  function WeightSum(cs: seq<Category>, total: real): real
    requires total != 0.0
  {
    if |cs| == 0 then 0.0
    else WeightSum(cs[..|cs| - 1], total) + (if Qualifies(cs[|cs| - 1]) then Spent(cs[|cs| - 1]) / total else 0.0)
  }

  /** The integer nearest to x, ties going to the even neighbour. */
  function RoundHalfEven(x: real): (n: int)
    ensures -0.5 <= x - n as real <= 0.5
    ensures (x - n as real == 0.5 || x - n as real == -0.5) ==> n % 2 == 0
  {
    var f := x.Floor;
    var d := x - f as real;
    if d < 0.5 then f
    else if d > 0.5 then f + 1
    else if f % 2 == 0 then f
    else f + 1
  }

  /** The two properties of RoundHalfEven pin its result down. */
  lemma RoundHalfEvenUnique(x: real, m: int)
    requires -0.5 <= x - m as real <= 0.5
    requires (x - m as real == 0.5 || x - m as real == -0.5) ==> m % 2 == 0
    ensures m == RoundHalfEven(x)
  {
  }

  /** Rounding to two decimal places; a midpoint goes to the even last digit. */
  function Round2(y: real): (r: real)
    ensures (r * 100.0).Floor as real == r * 100.0
    ensures -0.005 <= r - y <= 0.005
    ensures (r - y == 0.005 || r - y == -0.005) ==> (r * 100.0).Floor % 2 == 0
  {
    var n := RoundHalfEven(y * 100.0);
    assert n as real / 100.0 * 100.0 == n as real;
    n as real / 100.0
  }

  /**
   * The calculation from a decoded list of category records to the outcome;
   * how the list is obtained from the response body is in module Task.
   */
  function Evaluate(id: RequestId, cs: seq<Category>): (r: Outcome)
    ensures r.id == id
    ensures r.success <==> r.personalCPI.Some?
    ensures cs == [] ==> r == Failure(id)
    ensures TotalSpent(cs) == 0.0 ==> r == Failure(id)
    ensures r.success <==>
      TotalSpent(cs) != 0.0 && exists i :: 0 <= i < |cs| && Qualifies(cs[i])
    ensures r.success ==>
      r.personalCPI == Some(Round2(100.0 * (RawSum(cs) / TotalSpent(cs))))
  {
    AnyQualifiesIff(cs);
    if cs == [] then Failure(id)
    else
      var total := TotalSpent(cs);
      if total == 0.0 then Failure(id)
      else if !AnyQualifies(cs) then Failure(id)
      else
        CpiSumIsRawOverTotal(cs, total);
        Outcome(id, Some(Round2(CpiSum(cs, total) * 100.0)), true)
  }

  /** Some category qualifies exactly when the loop's flag ends up set. */
  lemma {:induction false} AnyQualifiesIff(cs: seq<Category>)
    ensures AnyQualifies(cs) <==> exists i :: 0 <= i < |cs| && Qualifies(cs[i])
  {
    if |cs| > 0 {
      var p := cs[..|cs| - 1];
      AnyQualifiesIff(p);
      if AnyQualifies(p) {
        var i :| 0 <= i < |p| && Qualifies(p[i]);
        assert cs[i] == p[i];
      }
      if exists i :: 0 <= i < |cs| && Qualifies(cs[i]) {
        var i :| 0 <= i < |cs| && Qualifies(cs[i]);
        if i < |p| {
          assert p[i] == cs[i];
        }
      }
    }
  }

  /** The weighted sum is the raw sum divided by the total of ALL spend. */
  lemma {:induction false} CpiSumIsRawOverTotal(cs: seq<Category>, total: real)
    requires total != 0.0
    ensures CpiSum(cs, total) == RawSum(cs) / total
  {
    if |cs| > 0 {
      var front := cs[..|cs| - 1];
      var c := cs[|cs| - 1];
      CpiSumIsRawOverTotal(front, total);
      var term := if Qualifies(c) then Spent(c) * ((Spent(c) - Base(c)) / Base(c)) else 0.0;
      if Qualifies(c) {
        ScaleThenDivide(Spent(c), (Spent(c) - Base(c)) / Base(c), total);
      }
      assert Contribution(c, total) == term / total;
      AddOverDivisor(RawSum(front), term, total);
    }
  }

  /** Scaling a quotient is dividing the scaled numerator. */
  lemma ScaleThenDivide(s: real, ch: real, t: real)
    requires t != 0.0
    ensures (s / t) * ch == (s * ch) / t
  {
  }

  /** Quotients by one divisor add up as their numerators do. */
  lemma AddOverDivisor(a: real, b: real, t: real)
    requires t != 0.0
    ensures a / t + b / t == (a + b) / t
  {
  }

  /**
   * A skipped category's spend still enlarges the total, so the weights of the
   * qualifying categories are not renormalised: appending a category that does
   * not qualify leaves the numerator unchanged and divides by the larger total.
   */
  lemma SkippedSpendDilutes(id: RequestId, cs: seq<Category>, c: Category)
    requires !Qualifies(c)
    requires exists i :: 0 <= i < |cs| && Qualifies(cs[i])
    requires TotalSpent(cs) + Spent(c) != 0.0
    ensures Evaluate(id, cs + [c]) ==
      Outcome(id, Some(Round2(100.0 * (RawSum(cs) / (TotalSpent(cs) + Spent(c))))), true)
  {
    var ds := cs + [c];
    assert ds[..|ds| - 1] == cs;
    var i :| 0 <= i < |cs| && Qualifies(cs[i]);
    assert ds[i] == cs[i];
    assert TotalSpent(ds) == TotalSpent(cs) + Spent(c);
    assert RawSum(ds) == RawSum(cs);
  }

  /**
   * A category whose spend equals its base price adds nothing to the sum,
   * wherever it stands and whatever the other categories are.
   */
  lemma {:induction false} UnchangedCategoryAddsNothing(cs: seq<Category>, c: Category, ds: seq<Category>, total: real)
    requires total != 0.0
    requires Spent(c) == Base(c)
    ensures CpiSum(cs + [c] + ds, total) == CpiSum(cs + ds, total)
  {
    UnchangedCategoryAddsNoRaw(cs, c, ds);
    CpiSumIsRawOverTotal(cs + [c] + ds, total);
    CpiSumIsRawOverTotal(cs + ds, total);
  }

  /** The same fact for the raw sum, by induction on the categories after the inserted one. */
  lemma {:induction false} UnchangedCategoryAddsNoRaw(cs: seq<Category>, c: Category, ds: seq<Category>)
    requires Spent(c) == Base(c)
    ensures RawSum(cs + [c] + ds) == RawSum(cs + ds)
  {
    if ds == [] {
      assert cs + [c] + ds == cs + [c] && (cs + [c])[..|cs|] == cs;
      assert cs + ds == cs;
      assert Qualifies(c) ==> (Spent(c) - Base(c)) / Base(c) == 0.0;
    } else {
      var front := ds[..|ds| - 1];
      assert (cs + [c] + ds)[..|cs + [c] + ds| - 1] == cs + [c] + front;
      assert (cs + ds)[..|cs + ds| - 1] == cs + front;
      assert (cs + [c] + ds)[|cs + [c] + ds| - 1] == (cs + ds)[|cs + ds| - 1];
      UnchangedCategoryAddsNoRaw(cs, c, front);
    }
  }

  /** When every qualifying category is unchanged in price, the raw sum is zero. */
  lemma {:induction false} UnchangedPricesAddNothing(cs: seq<Category>)
    requires forall i :: 0 <= i < |cs| && Qualifies(cs[i]) ==> Spent(cs[i]) == Base(cs[i])
    ensures RawSum(cs) == 0.0
  {
    if |cs| > 0 {
      var p := cs[..|cs| - 1];
      assert forall i :: 0 <= i < |p| ==> p[i] == cs[i];
      UnchangedPricesAddNothing(p);
    }
  }

  /** When no qualifying category's price moved, a successful index is exactly zero. */
  lemma UnchangedPricesGiveZero(id: RequestId, cs: seq<Category>)
    requires forall i :: 0 <= i < |cs| && Qualifies(cs[i]) ==> Spent(cs[i]) == Base(cs[i])
    ensures Evaluate(id, cs).success ==> Evaluate(id, cs).personalCPI == Some(0.0)
  {
    UnchangedPricesAddNothing(cs);
    RoundHalfEvenUnique(0.0, 0);
  }

  /** Qualifying spend never exceeds the total when no amount is negative. */
  lemma {:induction false} QualifyingSpendBounded(cs: seq<Category>)
    requires forall i :: 0 <= i < |cs| ==> Spent(cs[i]) >= 0.0
    ensures 0.0 <= QualifyingSpend(cs) <= TotalSpent(cs)
    ensures (exists i :: 0 <= i < |cs| && !Qualifies(cs[i]) && Spent(cs[i]) > 0.0) ==>
      QualifyingSpend(cs) < TotalSpent(cs)
  {
    if |cs| > 0 {
      var p := cs[..|cs| - 1];
      assert forall i :: 0 <= i < |p| ==> p[i] == cs[i];
      QualifyingSpendBounded(p);
      if exists i :: 0 <= i < |cs| && !Qualifies(cs[i]) && Spent(cs[i]) > 0.0 {
        var i :| 0 <= i < |cs| && !Qualifies(cs[i]) && Spent(cs[i]) > 0.0;
        if i < |p| {
          assert !Qualifies(p[i]) && Spent(p[i]) > 0.0;
        }
      }
    }
  }

  /**
   * With non-negative amounts, the weights spend / total of the qualifying
   * categories sum to at most 1, and to less than 1 once a category with
   * spend is skipped.
   */
  lemma QualifyingWeightAtMostOne(cs: seq<Category>)
    requires forall i :: 0 <= i < |cs| ==> Spent(cs[i]) >= 0.0
    requires TotalSpent(cs) > 0.0
    ensures WeightSum(cs, TotalSpent(cs)) <= 1.0
    ensures (exists i :: 0 <= i < |cs| && !Qualifies(cs[i]) && Spent(cs[i]) > 0.0) ==>
      WeightSum(cs, TotalSpent(cs)) < 1.0
  {
    var total := TotalSpent(cs);
    QualifyingSpendBounded(cs);
    WeightSumIsShare(cs, total);
    DivideMonotone(QualifyingSpend(cs), total, total);
  }

  /** Dividing by a positive number keeps the order and the strict order, and a number divided by itself is 1. */
  lemma DivideMonotone(a: real, b: real, d: real)
    requires d > 0.0
    ensures a <= b ==> a / d <= b / d
    ensures a < b ==> a / d < b / d
    ensures d / d == 1.0
  {
    assert a / d - b / d == (a - b) / d;
  }

  /** The summed weights are the qualifying spend's share of the total. */
  lemma {:induction false} WeightSumIsShare(cs: seq<Category>, total: real)
    requires total != 0.0
    ensures WeightSum(cs, total) == QualifyingSpend(cs) / total
  {
    if |cs| > 0 {
      WeightSumIsShare(cs[..|cs| - 1], total);
    }
  }

  /** One category, spend 150 against base price 100: weight 1, change 0.5, index 50. */
  lemma SingleCategoryExample(id: RequestId)
    ensures Evaluate(id, [Category(Some(150.0), Some(100.0))]) == Outcome(id, Some(50.0), true)
  {
    var cs := [Category(Some(150.0), Some(100.0))];
    assert cs[..0] == [];
    assert TotalSpent(cs) == 150.0;
    assert Qualifies(cs[0]);
    assert RawSum(cs) == 75.0;
    RoundHalfEvenUnique(5000.0, 5000);
  }

  /**
   * Two categories of spend 50 each: A with base 50 (change 0) and B with base 25
   * (change 1); each weighs 0.5, so the index is 50.
   */
  lemma TwoCategoryExample(id: RequestId)
    ensures Evaluate(id, [Category(Some(50.0), Some(50.0)), Category(Some(50.0), Some(25.0))])
      == Outcome(id, Some(50.0), true)
  {
    var cs := [Category(Some(50.0), Some(50.0)), Category(Some(50.0), Some(25.0))];
    assert cs[..1] == [cs[0]];
    assert cs[..1][..0] == [];
    assert TotalSpent(cs) == 100.0;
    assert Qualifies(cs[0]);
    assert RawSum(cs) == 50.0;
    RoundHalfEvenUnique(5000.0, 5000);
  }
}

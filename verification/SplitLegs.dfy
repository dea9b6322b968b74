/** Apportioning an invoice over its split-payment legs (saleRemainingLegs and the per-method shares of a partial
    return, internal/service/sale_service.go). */
module SplitLegs {
  import opened Money
  import opened Domain
  import opened Sums
  import opened Refunds

  type Legs = map<PayMethod, Amount>

  ghost predicate NonNegative(legs: Legs)
  {
    forall m :: m in legs ==> legs[m] >= 0
  }

  /** The positive legs, each rescaled by `f`. */
  ghost function Scale(legs: Legs, f: Amount -> Amount): Legs
  {
    map m | m in legs && legs[m] > 0 :: f(legs[m])
  }

  ghost function ShareOf(whole: Amount, of: Amount): Amount -> Amount
    requires of != 0
  {
    leg => Quo(whole * leg, of)
  }

  ghost function CappedShareOf(whole: Amount, of: Amount): Amount -> Amount
    requires of != 0
  {
    leg => Clamp(Quo(whole * leg, of), leg)
  }

  /** The floor share of `whole` that each positive leg carries, out of `of`. */
  ghost function Shares(whole: Amount, legs: Legs, of: Amount): Legs
    requires of != 0
  {
    Scale(legs, ShareOf(whole, of))
  }

  /** Shares as saleRemainingLegs takes them: kept between zero and the original leg. */
  ghost function CappedShares(whole: Amount, legs: Legs, of: Amount): Legs
    requires of != 0
  {
    Scale(legs, CappedShareOf(whole, of))
  }

  /** The results saleRemainingLegs may give: a leg other than credit and cash takes the remainder only if neither
      exists, and which one then depends on Go's map order. */
  ghost predicate RemainingLegs(total: Amount, split: Option<Legs>, remaining: Legs)
  {
    if split.None? || SumMap(split.value) <= 0 then remaining == map[]
    else
      var base := CappedShares(total, split.value, SumMap(split.value));
      var diff := total - SumMap(base);
      if diff <= 0 || base == map[] then remaining == base
      else exists m :: m in base && TakesRemainder(m, base) && remaining == base[m := base[m] + diff]
  }

  ghost predicate TakesRemainder(m: PayMethod, base: Legs)
  {
    if Credit in base then m == Credit else if Cash in base then m == Cash else m in base
  }

  function LegOf(legs: Legs, m: PayMethod): Amount
  {
    if m in legs then legs[m] else 0
  }

  /** The credit leg saleRemainingLegs gives. It takes the whole remainder, so it does not depend on Go's map order. */
  ghost function CreditLegOf(total: Amount, split: Option<Legs>): (leg: Amount)
  {
    if split.None? || SumMap(split.value) <= 0 then 0
    else
      var base := CappedShares(total, split.value, SumMap(split.value));
      if Credit !in base then 0
      else if total > SumMap(base) then base[Credit] + (total - SumMap(base)) else base[Credit]
  }

  lemma CreditLegIs(total: Amount, split: Option<Legs>, remaining: Legs)
    requires RemainingLegs(total, split, remaining)
    ensures LegOf(remaining, Credit) == CreditLegOf(total, split) >= 0
  {
    hide SumMap;
  }

  /** Before any return the credit leg is the one sold. */
  lemma CreditLegAtSale(legs: Legs)
    requires NonNegative(legs)
    ensures CreditLegOf(SumMap(legs), Some(legs)) == LegOf(legs, Credit)
  {
    hide SumMap;
    SumMapNonNegative(legs);
    var of := SumMap(legs);
    if of > 0 {
      SharesOfAll(legs, of);
      CapsAreIdle(of, legs);
      if LegOf(legs, Credit) > 0 { ShareOfAll(of, legs[Credit]); }
    }
  }

  /** And nothing is left of it with the last quantity. */
  lemma CreditLegAtEnd(split: Option<Legs>)
    requires split.Some? ==> NonNegative(split.value)
    ensures CreditLegOf(0, split) == 0
  {
    hide SumMap;
    if split.Some? && SumMap(split.value) > 0 {
      CapsAreIdle(0, split.value);
      FirstReturnShares(0, split.value);
      SumMapNonNegative(CappedShares(0, split.value, SumMap(split.value)));
    }
  }

  method SaleRemainingLegs(total: Amount, split: Option<Legs>) returns (remaining: Legs)
    ensures RemainingLegs(total, split, remaining)
  {
    hide SumMap, CappedShares;
    SumEmpty<PayMethod>();
    if split == None {
      return map[];
    }
    var original := SumOf(split.value);
    if original <= 0 {
      return map[];
    }
    remaining := ScaleLegs(total, split.value, original);
    ghost var base := remaining;
    var given := SumOf(remaining);
    var diff := total - given;
    if diff > 0 {
      if Credit in remaining {
        remaining := remaining[Credit := remaining[Credit] + diff];
        assert TakesRemainder(Credit, base);
      } else if Cash in remaining {
        remaining := remaining[Cash := remaining[Cash] + diff];
        assert TakesRemainder(Cash, base);
      } else if remaining != map[] {
        var m :| m in remaining;
        remaining := remaining[m := remaining[m] + diff];
        assert TakesRemainder(m, base);
      }
    }
  }

  /** Its scaling loop, over the legs in whatever order Go visits them. */
  method ScaleLegs(total: Amount, legs: Legs, original: Amount) returns (remaining: Legs)
    requires original > 0
    ensures remaining == CappedShares(total, legs, original)
  {
    remaining := map[];
    var todo := legs.Keys;
    while todo != {}
      invariant todo <= legs.Keys
      invariant forall m :: m in remaining <==> m in legs && m !in todo && legs[m] > 0
      invariant forall m :: m in remaining ==> remaining[m] == CappedShareOf(total, original)(legs[m])
      decreases todo
    {
      var m :| m in todo;
      todo := todo - {m};
      var amount := legs[m];
      if amount <= 0 {
        continue;
      }
      var leg := Quo(total * amount, original);
      if leg < 0 {
        leg := 0;
      }
      if leg > amount {
        leg := amount;
      }
      remaining := remaining[m := leg];
    }
  }

  /** The accumulation loops over a map of amounts, in whatever order Go visits it. */
  method SumOf(m: Legs) returns (sum: Amount)
    ensures sum == SumMap(m)
  {
    sum := 0;
    var todo := m;
    while todo != map[]
      invariant sum + SumMap(todo) == SumMap(m)
      decreases |todo|
    {
      var k :| k in todo;
      TakeKey(todo, k);
      sum := sum + todo[k];
      assert todo.Keys == (todo - {k}).Keys + {k};
      todo := todo - {k};
    }
  }

  /** `shares` is within one cent per leg below the proportional part of `whole`. */
  ghost predicate Covers(whole: Amount, of: Amount, shares: Amount, legs: Amount, n: nat)
  {
    of * shares <= whole * legs <= of * shares + (of - 1) * n
  }

  lemma AddShare(whole: Amount, of: Amount, leg: Amount, shares: Amount, legs: Amount, n: nat)
    requires whole >= 0 && of > 0 && leg > 0
    requires Covers(whole, of, shares, legs, n)
    ensures Covers(whole, of, ShareOf(whole, of)(leg) + shares, leg + legs, n + 1)
  {
    Mono(whole, 0, leg);
    var q := whole * leg / of;
    assert whole * leg == of * q + whole * leg % of;
    DivAtLeast(whole * leg, of, 0);
    assert of * (shares + q) == of * shares + of * q;
    assert whole * (legs + leg) == whole * legs + whole * leg;
    assert (of - 1) * (n + 1) == (of - 1) * n + of - 1;
  }

  lemma ShortfallBelowCount(whole: Amount, of: Amount, shares: Amount, n: nat)
    requires of > 0 && n > 0
    requires Covers(whole, of, shares, of, n)
    ensures 0 <= whole - shares < n
  {
    assert of * (whole - shares) == whole * of - of * shares;
    assert (of - 1) * n == of * (n - 1) + of - n;
    Cancel(of, 0, whole - shares);
    Cancel(of, whole - shares, n - 1);
  }

  /** Floor shares together lose less than one cent per positive leg. */
  lemma {:induction false} SharesSum(whole: Amount, legs: Legs, of: Amount)
    requires NonNegative(legs) && whole >= 0 && of > 0
    ensures Covers(whole, of, SumMap(Shares(whole, legs, of)), SumMap(legs), |Shares(whole, legs, of)|)
    decreases |legs|
  {
    hide SumMap, Scale, Covers;
    if legs == map[] {
      ScaleEmpty(ShareOf(whole, of));
      CoversNothing(whole, of);
    } else {
      var k :| k in legs;
      RemoveKey(legs, k);
      SharesSum(whole, legs - {k}, of);
      AddLeg(whole, legs, of, k);
    }
  }

  lemma AddLeg(whole: Amount, legs: Legs, of: Amount, k: PayMethod)
    requires NonNegative(legs) && whole >= 0 && of > 0 && k in legs
    requires var rest := Shares(whole, legs - {k}, of); Covers(whole, of, SumMap(rest), SumMap(legs - {k}), |rest|)
    ensures Covers(whole, of, SumMap(Shares(whole, legs, of)), SumMap(legs), |Shares(whole, legs, of)|)
  {
    hide SumMap, Scale, Covers, ShareOf;
    var rest := Shares(whole, legs - {k}, of);
    ScaleWithout(legs, ShareOf(whole, of), k);
    if legs[k] > 0 {
      AddShare(whole, of, legs[k], SumMap(rest), SumMap(legs - {k}), |rest|);
    }
  }

  lemma CoversNothing(whole: Amount, of: Amount)
    ensures Covers(whole, of, 0, 0, 0)
  {
  }

  lemma ScaleEmpty(f: Amount -> Amount)
    ensures Scale(map[], f) == map[] && SumMap(Scale(map[], f)) == 0 && |Scale(map[], f)| == 0
    ensures SumMap<PayMethod>(map[]) == 0
  {
    assert Scale(map[], f) == map[];
  }

  lemma ScaleRemove(legs: Legs, f: Amount -> Amount, k: PayMethod)
    requires k in legs
    ensures Scale(legs - {k}, f) == if legs[k] > 0 then Scale(legs, f) - {k} else Scale(legs, f)
  {
  }

  /** Taking one leg out of the map and out of its rescaled legs. */
  lemma ScaleWithout(legs: Legs, f: Amount -> Amount, k: PayMethod)
    requires k in legs
    ensures |legs - {k}| < |legs| && SumMap(legs) == legs[k] + SumMap(legs - {k})
    ensures var s, rest := Scale(legs, f), Scale(legs - {k}, f);
            if legs[k] > 0 then |rest| == |s| - 1 && SumMap(s) == f(legs[k]) + SumMap(rest)
            else rest == s
  {
    ScaleRemove(legs, f, k);
    RemoveKey(legs, k);
    TakeKey(legs, k);
    if legs[k] > 0 {
      RemoveKey(Scale(legs, f), k);
      TakeKey(Scale(legs, f), k);
    }
  }

  lemma SumMapNonNegative(legs: Legs)
    requires NonNegative(legs)
    ensures SumMap(legs) >= 0
    ensures forall m :: m in legs ==> legs[m] <= SumMap(legs)
    decreases |legs|
  {
    forall k | k in legs ensures legs[k] <= SumMap(legs) {
      TakeKey(legs, k);
      assert legs.Keys == (legs - {k}).Keys + {k};
      SumMapNonNegative(legs - {k});
    }
    if legs != map[] {
      var k :| k in legs;
      assert legs[k] <= SumMap(legs);
    }
  }

  /** The capped shares of a total within the legs are the plain floor shares. */
  lemma CapsAreIdle(total: Amount, legs: Legs)
    requires NonNegative(legs) && SumMap(legs) > 0 && 0 <= total <= SumMap(legs)
    ensures var of := SumMap(legs);
            var base := CappedShares(total, legs, of);
            && base == Shares(total, legs, of)
            && (forall m :: m in base <==> m in legs && legs[m] > 0)
            && (forall m :: m in base ==> base[m] == Quo(total * legs[m], of) && 0 <= base[m] <= legs[m])
  {
    var of := SumMap(legs);
    forall m | m in legs && legs[m] > 0 ensures 0 <= Quo(total * legs[m], of) <= legs[m] {
      FloorShare(legs[m], total, of);
      assert total * legs[m] == legs[m] * total;
    }
  }

  /** What taking the remainder means, once the shares are known to sum to `total - diff`. */
  lemma RemainderTaken(base: Legs, m: PayMethod, diff: Amount)
    requires m in base
    ensures SumMap(base[m := base[m] + diff]) == SumMap(base) + diff
    ensures |base[m := base[m] + diff]| == |base|
  {
    PutKey(base, m, base[m] + diff);
    assert base[m := base[m] + diff].Keys == base.Keys;
    assert |base[m := base[m] + diff].Keys| == |base.Keys|;
  }

  /** The outstanding legs of a split invoice sum exactly to its remaining total. Every leg but the one that takes the
      remainder is its floor share and no more than it was; the remainder is smaller than the number of positive
      legs. */
  lemma RemainingLegsSumToTotal(total: Amount, legs: Legs, remaining: Legs) returns (taker: PayMethod)
    requires NonNegative(legs) && SumMap(legs) > 0 && 0 <= total <= SumMap(legs)
    requires RemainingLegs(total, Some(legs), remaining)
    ensures SumMap(remaining) == total
    ensures forall m :: m in remaining <==> m in legs && legs[m] > 0
    ensures forall m :: m in remaining && m != taker ==> remaining[m] == Quo(total * legs[m], SumMap(legs)) <= legs[m]
    ensures taker in remaining && 0 <= remaining[taker] - Quo(total * legs[taker], SumMap(legs)) < |remaining|
    ensures Credit in remaining ==> taker == Credit
    ensures NonNegative(remaining)
  {
    hide SumMap, Quo, Scale, NonNegative;
    var of := SumMap(legs);
    var base := CappedShares(total, legs, of);
    CapsAreIdle(total, legs);
    FirstReturnShares(total, legs);
    taker := RemainderTaker(total, legs, remaining);
    RemainderTaken(base, taker, total - SumMap(base));
    assert NonNegative(remaining) by {
      forall m | m in remaining ensures remaining[m] >= 0 { assert base[m] >= 0; }
      LegsNonNegative(remaining);
    }
  }

  lemma LegsNonNegative(legs: Legs)
    requires forall m :: m in legs ==> legs[m] >= 0
    ensures NonNegative(legs)
  {
  }

  /** One leg takes whatever the shares leave, if only nothing. */
  lemma RemainderTaker(total: Amount, legs: Legs, remaining: Legs) returns (taker: PayMethod)
    requires SumMap(legs) > 0 && RemainingLegs(total, Some(legs), remaining)
    requires SumMap(CappedShares(total, legs, SumMap(legs))) <= total
    ensures var base := CappedShares(total, legs, SumMap(legs));
            && taker in base && remaining == base[taker := base[taker] + (total - SumMap(base))]
            && (Credit in base ==> taker == Credit)
  {
    hide SumMap, CappedShares;
    var base := CappedShares(total, legs, SumMap(legs));
    taker := SomePositive(legs);
    PositiveShare(total, legs, taker);
    if total > SumMap(base) {
      taker := TakerOf(base, total - SumMap(base), remaining);
    } else {
      if Credit in base { taker := Credit; }
      assert base == base[taker := base[taker] + 0];
    }
  }

  lemma PositiveShare(total: Amount, legs: Legs, m: PayMethod)
    requires SumMap(legs) > 0 && m in legs && legs[m] > 0
    ensures m in CappedShares(total, legs, SumMap(legs))
  {
    hide SumMap;
  }

  lemma TakerOf(base: Legs, diff: Amount, remaining: Legs) returns (taker: PayMethod)
    requires exists m :: m in base && TakesRemainder(m, base) && remaining == base[m := base[m] + diff]
    ensures taker in base && remaining == base[taker := base[taker] + diff] && (Credit in base ==> taker == Credit)
  {
    taker :| taker in base && TakesRemainder(taker, base) && remaining == base[taker := base[taker] + diff];
  }

  lemma SomePositive(legs: Legs) returns (m: PayMethod)
    requires SumMap(legs) > 0
    ensures m in legs && legs[m] > 0
    decreases |legs|
  {
    m :| m in legs;
    TakeKey(legs, m);
    assert legs.Keys == (legs - {m}).Keys + {m};
    if legs[m] <= 0 {
      m := SomePositive(legs - {m});
    }
  }

  /** On the first partial return the legs still sum to the total, and the shares lose less than a cent per positive
      leg. */
  lemma FirstReturnShares(refund: Amount, legs: Legs)
    requires NonNegative(legs) && SumMap(legs) > 0 && 0 <= refund
    ensures var s := Shares(refund, legs, SumMap(legs));
            0 <= refund - SumMap(s) < |s|
  {
    var s := Shares(refund, legs, SumMap(legs));
    var p := SomePositive(legs);
    assert p in s;
    assert |s| > 0 by { assert s.Keys != {}; }
    SharesSum(refund, legs, SumMap(legs));
    ShortfallBelowCount(refund, SumMap(legs), SumMap(s), |s|);
  }

  /** The shares of every refund stay within it exactly when the legs do not exceed the current total: that is, before
      anything has been returned. Later returns divide the original legs by a reduced total. */
  lemma SharesWithinRefundIff(legs: Legs, total: Amount)
    requires NonNegative(legs) && total > 0
    ensures (forall refund :: 0 <= refund <= total ==> SumMap(Shares(refund, legs, total)) <= refund)
              <==> SumMap(legs) <= total
  {
    if SumMap(legs) <= total {
      forall refund | 0 <= refund <= total ensures SumMap(Shares(refund, legs, total)) <= refund {
        SharesSum(refund, legs, total);
        Mono(refund, SumMap(legs), total);
        assert refund * total == total * refund;
        Cancel(total, SumMap(Shares(refund, legs, total)), refund);
      }
    } else {
      SharesOfAll(legs, total);
      assert SumMap(Shares(total, legs, total)) > total;
    }
  }

  lemma {:induction false} SharesOfAll(legs: Legs, total: Amount)
    requires NonNegative(legs) && total > 0
    ensures SumMap(Shares(total, legs, total)) == SumMap(legs)
    decreases |legs|
  {
    hide SumMap, Scale, Quo, ShareOf;
    if legs == map[] {
      ScaleEmpty(ShareOf(total, total));
    } else {
      var k :| k in legs;
      ScaleWithout(legs, ShareOf(total, total), k);
      SharesOfAll(legs - {k}, total);
      if legs[k] > 0 {
        ShareOfAll(total, legs[k]);
      }
    }
  }

  lemma ShareOfAll(total: Amount, leg: Amount)
    requires total > 0 && leg >= 0
    ensures ShareOf(total, total)(leg) == leg
  {
    Mono(total, 0, leg);
    DivAtLeast(total * leg, total, leg);
    DivAtMost(total * leg, total, leg);
  }
}

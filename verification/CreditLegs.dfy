/** What partial returns of a split invoice take off the customer's debt, against what its credit leg loses
    (internal/service/sale_service.go). */
module CreditLegs {
  import opened Money
  import opened Domain
  import opened Sums
  import opened Refunds
  import opened SplitLegs
  import opened PartialReturnSteps

  /** The positive legs besides credit. */
  function OtherLegs(legs: Legs): set<PayMethod> { set m | m in legs && m != Credit && legs[m] > 0 }

  /** The floor shares of `total` that the other legs carry. */
  ghost function OthersShare(legs: Legs, total: Amount): Amount
    requires SumMap(legs) != 0
  {
    SumMap(Shares(total, legs - {Credit}, SumMap(legs)))
  }

  /** What the other legs lose by a refund. */
  ghost function OthersLose(legs: Legs, total: Amount, amount: Amount): Amount
    requires SumMap(legs) != 0
  {
    OthersShare(legs, total) - OthersShare(legs, total - amount)
  }

  ghost predicate WithCredit(legs: Legs)
  {
    NonNegative(legs) && LegOf(legs, Credit) > 0 && SumMap(legs) > 0
  }

  /** The credit leg is what the other legs' floor shares leave of the total. */
  lemma CreditLegIsRest(legs: Legs, total: Amount)
    requires WithCredit(legs) && 0 <= total <= SumMap(legs)
    ensures CreditLegOf(total, Some(legs)) == total - OthersShare(legs, total)
  {
    hide SumMap, Quo;
    var of := SumMap(legs);
    var base := CappedShares(total, legs, of);
    CapsAreIdle(total, legs);
    FirstReturnShares(total, legs);
    TakeKey(base, Credit);
    assert base - {Credit} == Shares(total, legs - {Credit}, of);
  }

  lemma OthersCount(legs: Legs, total: Amount)
    requires SumMap(legs) != 0
    ensures |Shares(total, legs - {Credit}, SumMap(legs))| == |OtherLegs(legs)|
  {
    hide SumMap, Quo;
    assert Shares(total, legs - {Credit}, SumMap(legs)).Keys == OtherLegs(legs);
  }

  /** Scaled by the sum of the legs, a credit leg `leg` of `total` is at least its exact share, and above it by less
      than one cent for each of `n` other legs. */
  ghost predicate NearExact(of: Amount, total: Amount, credit: Amount, leg: Amount, n: nat)
  {
    total * credit <= of * leg <= total * credit + (of - 1) * n
  }

  lemma CreditLegBounds(legs: Legs, total: Amount)
    requires WithCredit(legs) && 0 <= total <= SumMap(legs)
    ensures NearExact(SumMap(legs), total, legs[Credit], CreditLegOf(total, Some(legs)), |OtherLegs(legs)|)
  {
    hide SumMap, Quo, CreditLegOf, Shares, OtherLegs, Covers, NearExact;
    var others := legs - {Credit};
    CreditLegIsRest(legs, total);
    TakeKey(legs, Credit);
    OthersNonNegative(legs);
    SharesSum(total, others, SumMap(legs));
    OthersCount(legs, total);
    LegBounds(SumMap(legs), total, legs[Credit], SumMap(others), OthersShare(legs, total), |OtherLegs(legs)|);
  }

  lemma OthersNonNegative(legs: Legs)
    requires NonNegative(legs)
    ensures NonNegative(legs - {Credit})
  {
  }

  lemma LegBounds(of: Amount, total: Amount, credit: Amount, others: Amount, share: Amount, n: nat)
    requires of == credit + others && Covers(total, of, share, others, n)
    ensures NearExact(of, total, credit, total - share, n)
  {
    assert of * (total - share) == of * total - of * share;
    assert of * total == total * credit + total * others;
  }

  /** On an invoice nothing of which was returned the share taken off the debt is at least what the credit leg loses,
      and above it by less than the number of other legs: it is exact for one other leg. */
  lemma FirstShareExcess(legs: Legs, amount: Amount)
    requires WithCredit(legs) && 0 <= amount <= SumMap(legs)
    ensures var of := SumMap(legs);
            var excess := Quo(amount * legs[Credit], of)
                - (CreditLegOf(of, Some(legs)) - CreditLegOf(of - amount, Some(legs)));
            0 <= excess && (excess == 0 || excess < |OtherLegs(legs)|)
  {
    hide SumMap, Quo, CreditLegOf, NearExact, OtherLegs;
    var of := SumMap(legs);
    var credit := legs[Credit];
    CreditLegAtSale(legs);
    CreditLegBounds(legs, of - amount);
    ExcessWithin(of, credit, amount, CreditLegOf(of - amount, Some(legs)), |OtherLegs(legs)|);
  }

  lemma ExcessWithin(of: int, credit: int, amount: int, left: int, n: nat)
    requires of > 0 && credit > 0 && 0 <= amount <= of
    requires NearExact(of, of - amount, credit, left, n)
    ensures var excess := Quo(amount * credit, of) - (credit - left);
            0 <= excess && (excess == 0 || excess < n)
  {
    var x := amount * credit;
    assert x >= 0 by { Mono(credit, 0, amount); }
    Division(x, of);
    assert of * (credit - left) == (x + (of - amount) * credit) - of * left;
    FloorExcess(of, x, x / of, credit - left, n);
  }

  lemma FloorExcess(of: int, x: int, q: int, d: int, n: nat)
    requires of > 0 && q * of <= x < q * of + of && x - (of - 1) * n <= of * d <= x
    ensures 0 <= q - d && (q == d || q - d < n)
  {
    Cancel(of, d, q) by { assert q * of == of * q; }
    var e := q - d;
    assert of * e == q * of - of * d;
    if n > 0 {
      Cancel(of, e, n - 1) by { LessThanAll(of, n); }
    } else {
      Cancel(of, e, 0);
    }
  }

  lemma LessThanAll(of: int, n: nat)
    ensures (of - 1) * n == of * n - n && of * (n - 1) == of * n - of
  {
  }

  /** The share of all that is left of the invoice is the whole credit leg it was sold with, whatever came off since. */
  lemma ShareOfRest(sale: Sale)
    requires sale.total > 0 && sale.split.Some? && LegOf(sale.split.value, Credit) > 0
    ensures CreditShare(sale, sale.total) == LegOf(sale.split.value, Credit)
  {
    FloorShare(LegOf(sale.split.value, Credit), sale.total, sale.total);
    assert sale.total * LegOf(sale.split.value, Credit) == LegOf(sale.split.value, Credit) * sale.total;
  }

  /** Nothing is left on credit exactly when nothing is left of the invoice. */
  lemma CreditLegPositive(legs: Legs, total: Amount)
    requires WithCredit(legs) && 0 <= total <= SumMap(legs)
    ensures CreditLegOf(total, Some(legs)) >= 0
    ensures CreditLegOf(total, Some(legs)) == 0 <==> total == 0
  {
    hide SumMap, CreditLegOf;
    CreditLegBounds(legs, total);
    if total == 0 {
      CreditLegAtEnd(Some(legs));
    } else {
      PositiveProduct(total, legs[Credit]);
    }
    Cancel(SumMap(legs), 0, CreditLegOf(total, Some(legs))) by { Mono(legs[Credit], 0, total); }
  }

  lemma PositiveProduct(a: int, b: int)
    requires a > 0 && b > 0
    ensures a * b > 0
  {
  }

  /** With at most one other leg, no refund takes more off the debt than the credit leg loses by it exactly while that
      leg is still what it was sold as. So it is before any return; afterwards the share divides the original leg by a
      smaller total. */
  lemma SharesWithinLegIff(legs: Legs, total: Amount)
    requires WithCredit(legs) && 0 < total <= SumMap(legs) && |OtherLegs(legs)| <= 1
    ensures (forall amount :: 0 <= amount <= total ==> WithinLeg(legs, total, amount))
            <==> CreditLegOf(total, Some(legs)) >= legs[Credit]
  {
    hide SumMap, CreditLegOf, Quo, NearExact, OtherLegs;
    var credit := legs[Credit];
    if CreditLegOf(total, Some(legs)) >= credit {
      forall amount | 0 <= amount <= total ensures WithinLeg(legs, total, amount) {
        CreditLegBounds(legs, total - amount);
        ShareWithin(SumMap(legs), total, credit, amount, CreditLegOf(total - amount, Some(legs)), |OtherLegs(legs)|);
      }
    } else {
      CreditLegAtEnd(Some(legs));
      WholeShareIs(total, credit);
      assert !WithinLeg(legs, total, total);
    }
  }

  /** That can still be so after a return: with legs of one cent each, one cent back leaves the credit leg whole. */
  lemma OneCentLegs()
    ensures var legs := map[Cash := 1, Credit := 1];
            && WithCredit(legs) && SumMap(legs) == 2 && |OtherLegs(legs)| <= 1
            && forall amount :: 0 <= amount <= 1 ==> WithinLeg(legs, 1, amount)
  {
    hide SumMap, CreditLegOf, WithinLeg;
    var legs := map[Cash := 1, Credit := 1];
    TakeKey(legs, Cash);
    TakeKey(legs - {Cash}, Credit);
    assert legs - {Cash} - {Credit} == map[];
    SumEmpty<PayMethod>();
    assert OtherLegs(legs) == {Cash};
    CreditLegBounds(legs, 1);
    SharesWithinLegIff(legs, 1);
  }

  ghost predicate WithinLeg(legs: Legs, total: Amount, amount: Amount)
    requires total > 0
  {
    Quo(amount * LegOf(legs, Credit), total) <= CreditLegOf(total, Some(legs)) - CreditLegOf(total - amount, Some(legs))
  }

  lemma WholeShareIs(total: Amount, credit: Amount)
    requires total > 0 && credit >= 0
    ensures Quo(total * credit, total) == credit
  {
    FloorShare(credit, total, total);
    assert total * credit == credit * total;
  }

  lemma ShareWithin(of: int, total: int, credit: int, amount: int, left: int, n: nat)
    requires 0 < total <= of && credit > 0 && 0 <= amount <= total && n <= 1
    requires NearExact(of, total - amount, credit, left, n)
    ensures Quo(amount * credit, total) + left <= credit
  {
    var x := amount * credit;
    assert 0 <= x <= total * credit by {
      Mono(credit, 0, amount);
      Mono(credit, amount, total);
      assert x == credit * amount && total * credit == credit * total;
    }
    var q := x / total;
    Division(x, total);
    DivAtMost(x, total, credit);
    assert (total - amount) * credit == total * credit - x;
    assert total * (credit - q) == total * credit - q * total;
    assert n == 0 || (of - 1) * n == of - 1;
    LeftWithin(of, total, credit - q, left, total * credit - x);
  }

  lemma LeftWithin(of: int, total: int, d: int, left: int, rest: int)
    requires 0 < total <= of && d >= 0 && rest <= total * d && of * left <= rest + of - 1
    ensures left <= d
  {
    Mono(d, total, of);
    assert d * of == of * d && d * total == total * d;
    Cancel(of, left, d);
  }

  // ----- a split invoice returned in pieces -----

  /** What a run of partial returns asks off the customer's debt. */
  ghost function AskedOffDebt(sale: Sale, requests: seq<(Id, Milli)>): Amount
    requires RunParts(sale, requests).Some?
  {
    if requests == [] then 0
    else
      var last := |requests| - 1;
      var before := RunParts(sale, requests[..last]).value.sale;
      var refunds := RunParts(sale, requests).value.refunds;
      AskedOffDebt(sale, requests[..last])
        + if before.total == 0 || refunds == [] then 0 else CreditShare(before, refunds[|refunds| - 1])
  }

  lemma {:induction false} KeepsSplit(sale: Sale, requests: seq<(Id, Milli)>)
    requires RunParts(sale, requests).Some?
    ensures RunParts(sale, requests).value.sale.split == sale.split
  {
    hide ReturnPart;
    if requests != [] {
      var last := |requests| - 1;
      KeepsSplit(sale, requests[..last]);
      PartialReturnKeepsKey(RunParts(sale, requests[..last]).value.sale, requests[last].0, requests[last].1);
    }
  }

  lemma LastRequest(sale: Sale, requests: seq<(Id, Milli)>)
    requires RunParts(sale, requests).Some? && requests != []
    ensures RunParts(sale, requests[..|requests| - 1]).Some?
    ensures var before := RunParts(sale, requests[..|requests| - 1]).value;
            var r := ReturnPart(before.sale, requests[|requests| - 1].0, requests[|requests| - 1].1);
            r.Ok? && RunParts(sale, requests).value == Settlement(r.value.sale, before.refunds + [r.value.amount])
  {
    hide ReturnPart;
  }

  /** The last piece alone asks for the whole credit leg, so pieces ask for more than it was by exactly what the earlier
      ones asked. */
  lemma LastPieceAsksAll(sale: Sale, requests: seq<(Id, Milli)>)
    requires SaleOk(sale) && !AllReturned(sale.lines) && requests != [] && RunParts(sale, requests).Some?
    requires AllReturned(RunParts(sale, requests).value.sale.lines)
    requires sale.split.Some? && LegOf(sale.split.value, Credit) > 0
    ensures RunParts(sale, requests[..|requests| - 1]).Some?
    ensures AskedOffDebt(sale, requests) ==
              AskedOffDebt(sale, requests[..|requests| - 1]) + LegOf(sale.split.value, Credit)
  {
    hide ReturnPart, SaleOk, CreditShare, AllReturned, Sum, Quo, RestOfInvoice, FirstLine, RunParts;
    LastRequest(sale, requests);
    LastAsks(RunParts(sale, requests[..|requests| - 1]).value.sale, requests[|requests| - 1].0,
        requests[|requests| - 1].1)
      by { PartialReturnsSettle(sale, requests[..|requests| - 1]); }
    KeepsSplit(sale, requests[..|requests| - 1]);
  }

  lemma LastAsks(sale: Sale, product: Id, qty: Milli)
    requires SaleOk(sale) && ReturnPart(sale, product, qty).Ok?
             && AllReturned(ReturnPart(sale, product, qty).value.sale.lines)
    ensures sale.total > 0
    ensures sale.split.Some? && LegOf(sale.split.value, Credit) > 0 ==>
              CreditShare(sale, ReturnPart(sale, product, qty).value.amount) == LegOf(sale.split.value, Credit)
  {
    hide ReturnPart, SaleOk, CreditShare, AllReturned, Sum, Quo, RestOfInvoice;
    PartialReturnStep(sale, product, qty);
    if sale.split.Some? && LegOf(sale.split.value, Credit) > 0 { ShareOfRest(sale); }
  }
}

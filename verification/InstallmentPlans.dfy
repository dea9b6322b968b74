/** Splitting a financed amount into monthly installments (CalculateInstallmentPlan,
    internal/service/payment_service.go). */
module InstallmentPlans {
  import opened Money
  import opened Domain
  import opened Sums
  import opened Books
  import opened SellingSteps

  /** 250 IQD in cents. */
  const UNIT: Amount := 25000

  /** The regular installment: rounded down to the unit, unless that leaves nothing. */
  function Base(remaining: Amount, months: int): Amount
    requires months > 0
  {
    var raw := Quo(remaining, months);
    var rounded := RoundToNearest(raw, UNIT);
    if rounded <= 0 then raw else rounded
  }

  /** `even` is an equal part of `remaining`, rounded down to 25000 cents if every part has that much, and otherwise to
      a cent. */
  predicate EvenPart(even: Amount, remaining: Amount, months: int)
  {
    if remaining >= 25000 * months then
      even % 25000 == 0 && even * months <= remaining < (even + 25000) * months
    else even * months <= remaining < (even + 1) * months
  }

  /** `months` positive pending amounts that cover `total - downPayment` exactly: all even parts but the last, which is
      no smaller and exceeds them by less than `months` times what they were rounded to. */
  ghost predicate EvenPlan(plan: Plan, total: Amount, downPayment: Amount, months: int)
  {
    && months > 0 && plan.downPayment == downPayment && plan.schedule.Some? && |plan.schedule.value| == months
    && var s, remaining := plan.schedule.value, total - downPayment;
    && Sum(s, ScheduledAmount()) == remaining
    && (forall i :: 0 <= i < months ==> s[i].amount > 0 && !s[i].paid && s[i].number == i + 1)
    && (forall i :: 0 <= i < months - 1 ==>
         && EvenPart(s[i].amount, remaining, months)
         && s[i].amount == s[0].amount
         && s[i].amount <= s[months - 1].amount
              < s[i].amount + (if remaining >= 25000 * months then 25000 * months else months))
  }

  /** Refused only for a bad month count or when a month would fall below one cent. `due` gives the due day of each
      month. */
  method CalculateInstallmentPlan(total: Amount, downPayment: Amount, months: int, due: int -> int)
      returns (r: Result<Plan>)
    ensures r.Ok? <==> 0 < months <= total - downPayment
    ensures r.Ok? ==> EvenPlan(r.value, total, downPayment, months)
  {
    if months <= 0 || downPayment > total {
      return Err(InvalidPlan);
    }
    var remaining := total - downPayment;
    if remaining <= 0 {
      return Err(InvalidPlan);
    }
    BaseBounds(remaining, months);
    var base := Base(remaining, months);
    if base <= 0 {
      return Err(InvalidPlan);
    }
    var schedule := FillSchedule(remaining, base, months, due);
    r := Ok(Plan(downPayment, Some(schedule)));
  }

  method FillSchedule(remaining: Amount, base: Amount, months: int, due: int -> int)
      returns (schedule: seq<Installment>)
    requires months > 0
    ensures |schedule| == months
    ensures forall k :: 0 <= k < months ==>
              schedule[k] == Installment(
                k + 1, Some(due(k + 1)), if k == months - 1 then remaining - base * (months - 1) else base, false)
    ensures Sum(schedule, ScheduledAmount()) == remaining
  {
    hide Sum;
    schedule := [];
    SumZero(schedule, ScheduledAmount());
    for i := 0 to months
      invariant |schedule| == i
      invariant forall k :: 0 <= k < i ==>
                  schedule[k] == Installment(
                    k + 1, Some(due(k + 1)), if k == months - 1 then remaining - base * (months - 1) else base, false)
      invariant Sum(schedule, ScheduledAmount()) == if i == months then remaining else base * i
    {
      var amount := if i == months - 1 then remaining - base * (months - 1) else base;
      var entry := Installment(i + 1, Some(due(i + 1)), amount, false);
      SumAppend(schedule, entry, ScheduledAmount());
      assert base * (i + 1) == base * i + base;
      schedule := schedule + [entry];
    }
  }

  lemma BaseBounds(remaining: Amount, months: int)
    requires remaining > 0 && months > 0
    ensures var base := Base(remaining, months);
            var last := remaining - base * (months - 1);
            && (base > 0 <==> remaining >= months)
            && base >= 0
            && EvenPart(base, remaining, months)
            && base <= last < base + (if remaining >= 25000 * months then 25000 * months else months)
  {
    hide Quo, EvenPart, RoundToNearest;
    var raw := remaining / months;
    Division(remaining, months);
    DivAtLeast(remaining, months, 0);
    if remaining >= months { DivAtLeast(remaining, months, 1); } else { DivAtMost(remaining, months, 0); }
    RoundToNearestIsFloor(raw, UNIT);
    if raw < 25000 {
      RoundedToCent(raw, remaining, months);
    } else {
      RoundedToUnit(Base(remaining, months), raw, remaining, months);
    }
  }

  lemma RoundedToCent(raw: Amount, remaining: Amount, months: int)
    requires months > 0 && 0 <= raw < 25000 && raw * months <= remaining < raw * months + months
    ensures remaining < 25000 * months && EvenPart(raw, remaining, months)
    ensures raw <= remaining - raw * (months - 1) < raw + months
  {
    Mono(months, raw + 1, 25000);
    Distribute(raw, months);
  }

  lemma RoundedToUnit(base: Amount, raw: Amount, remaining: Amount, months: int)
    requires months > 0 && raw * months <= remaining < raw * months + months
    requires base % 25000 == 0 && 25000 <= base <= raw < base + 25000
    ensures remaining >= 25000 * months && EvenPart(base, remaining, months)
    ensures base <= remaining - base * (months - 1) < base + 25000 * months
  {
    Mono(months, 25000, raw);
    Mono(months, base, raw);
    Mono(months, raw + 1, base + 25000);
    Distribute(base, months);
  }

  lemma Distribute(base: Amount, months: int)
    ensures base * (months - 1) == base * months - base
    ensures (base + 1) * months == base * months + months
    ensures (base + 25000) * months == base * months + 25000 * months
  {
  }

  /** Every plan calculated for an invoice's total is accepted when that invoice is sold - unless the down payment was
      negative, which the calculation does not check. */
  lemma PlanAcceptedIff(sale: Sale, plan: Plan, months: int)
    requires sale.payMethod == Installments && sale.plan == Some(plan)
    requires EvenPlan(plan, sale.total, plan.downPayment, months) && months <= sale.total - plan.downPayment
    ensures PlanAccepted(sale) <==> plan.downPayment >= 0
  {
    hide Sum, EvenPart;
    assert Schedule(sale) == plan.schedule.value;
  }
}

/** The overdue summary over all installment invoices (GetInstallmentAlertSummary,
    internal/service/payment_service.go). */
module OverdueAlerts {
  import opened Money
  import opened Domain
  import opened Sums
  import opened Books

  datatype Alert = Alert(sale: Id, customer: Id, number: int, amount: Amount, daysOverdue: int, totalDue: Amount)

  datatype Summary = Summary(
    count: int, amount: Amount, upTo7: int, upTo30: int, over30: int, alerts: seq<Alert>, debts: map<Id, Amount>,
        counts: map<Id, int>)

  /** Unpaid, with a readable due date before `today`. */
  predicate Overdue(e: Installment, today: int)
  {
    !e.paid && e.dueDay.Some? && e.dueDay.value < today
  }

  ghost function OverdueIn(today: int): Installment -> int
  {
    (e: Installment) => if Overdue(e, today) then e.amount else 0
  }

  /** What one invoice has overdue; `customer` restricts it to one customer when given. */
  ghost function OverdueOf(today: int, customer: Option<Id>): Sale -> int
  {
    (s: Sale) => if customer.None? || s.customer == customer.value then Sum(Schedule(s), OverdueIn(today)) else 0
  }

  ghost function AlertAmount(): Alert -> int { (a: Alert) => a.amount }

  ghost function LateBetween(lo: int, hi: int): Alert -> int
  { (a: Alert) => if lo <= a.daysOverdue <= hi then 1 else 0 }

  ghost function AlertsFor(customer: Id): Alert -> int { (a: Alert) => if a.customer == customer then 1 else 0 }

  ghost function DebtFor(customer: Id): Alert -> int { (a: Alert) => if a.customer == customer then a.amount else 0 }

  function Get(m: map<Id, int>, k: Id): int { if k in m then m[k] else 0 }

  /** Count, buckets, amount and the per-customer maps are all views of the same list of alerts. */
  ghost predicate Agrees(s: Summary)
  {
    && s.count == |s.alerts| == s.upTo7 + s.upTo30 + s.over30
    && s.amount == Sum(s.alerts, AlertAmount()) == SumMap(s.debts)
    && (forall k :: 0 <= k < |s.alerts| ==> s.alerts[k].daysOverdue >= 1)
    && s.upTo7 == Sum(s.alerts, LateBetween(1, 7)) && s.upTo30 == Sum(s.alerts, LateBetween(8, 30))
    && (forall c :: Get(s.debts, c) == Sum(s.alerts, DebtFor(c)) && Get(s.counts, c) == Sum(s.alerts, AlertsFor(c)))
  }

  ghost function AlertFor(sale: Sale, e: Installment, today: int): Alert
    requires Overdue(e, today)
  {
    Alert(sale.id, sale.customer, e.number, e.amount, today - e.dueDay.value, Sum(Schedule(sale), EntryAmount(false)))
  }

  /** The alerts of an invoice, in schedule order: one per overdue entry, each naming everything still unpaid on the
      invoice. */
  ghost function AlertsOf(sale: Sale, entries: seq<Installment>, today: int): seq<Alert>
  {
    if entries == [] then []
    else
      var before, e := AlertsOf(sale, entries[..|entries| - 1], today), entries[|entries| - 1];
      if Overdue(e, today) then before + [AlertFor(sale, e, today)] else before
  }

  ghost function AllAlerts(sales: seq<Sale>, today: int): seq<Alert>
  {
    if sales == [] then []
    else AllAlerts(sales[..|sales| - 1], today) + AlertsOf(sales[|sales| - 1], Schedule(sales[|sales| - 1]), today)
  }

  /** Entry `k` of the sale is unpaid and its due date lies before today; `a` says so. */
  ghost predicate Tells(a: Alert, sale: Sale, k: nat, today: int)
    requires k < |Schedule(sale)|
  {
    var e := Schedule(sale)[k];
    && !e.paid && e.dueDay.Some? && e.dueDay.value < today
    && a == Alert(sale.id, sale.customer, e.number, e.amount, today - e.dueDay.value,
                  Sum(Schedule(sale), EntryAmount(false)))
  }

  ghost predicate TellsOneOf(a: Alert, sale: Sale, n: nat, today: int)
    requires n <= |Schedule(sale)|
  {
    exists k :: 0 <= k < n && Tells(a, sale, k, today)
  }

  lemma {:induction false} AlertsOfIff(sale: Sale, n: nat, today: int, a: Alert)
    requires n <= |Schedule(sale)|
    ensures a in AlertsOf(sale, Schedule(sale)[..n], today) <==> TellsOneOf(a, sale, n, today)
  {
    hide Sum, Schedule;
    if n > 0 {
      assert Schedule(sale)[..n][..n - 1] == Schedule(sale)[..n - 1];
      AlertsOfIff(sale, n - 1, today, a);
      assert TellsOneOf(a, sale, n, today) <==> TellsOneOf(a, sale, n - 1, today) || Tells(a, sale, n - 1, today);
    }
  }

  /** The alerts are exactly the overdue entries of all invoices. */
  lemma {:induction false} AlertIff(sales: seq<Sale>, today: int, a: Alert)
    ensures a in AllAlerts(sales, today) <==>
              exists i :: 0 <= i < |sales| && TellsOneOf(a, sales[i], |Schedule(sales[i])|, today)
  {
    hide Sum, Schedule, AlertsOf, TellsOneOf;
    if sales != [] {
      var last := |sales| - 1;
      AlertIff(sales[..last], today, a);
      AlertsOfIff(sales[last], |Schedule(sales[last])|, today, a);
      assert Schedule(sales[last])[..|Schedule(sales[last])|] == Schedule(sales[last]);
      if a in AllAlerts(sales[..last], today) {
        var i :| 0 <= i < last && TellsOneOf(a, sales[..last][i], |Schedule(sales[..last][i])|, today);
        assert sales[i] == sales[..last][i];
      }
      if i :| 0 <= i < |sales| && TellsOneOf(a, sales[i], |Schedule(sales[i])|, today) {
        if i < last { assert sales[..last][i] == sales[i]; }
      }
    }
  }

  function Raise(s: Summary, a: Alert): Summary
  {
    Summary(s.count + 1, s.amount + a.amount,
            if a.daysOverdue <= 7 then s.upTo7 + 1 else s.upTo7,
            if 7 < a.daysOverdue <= 30 then s.upTo30 + 1 else s.upTo30,
            if 30 < a.daysOverdue then s.over30 + 1 else s.over30,
            s.alerts + [a],
            s.debts[a.customer := Get(s.debts, a.customer) + a.amount],
            s.counts[a.customer := Get(s.counts, a.customer) + 1])
  }

  lemma RaiseAgrees(s: Summary, a: Alert)
    requires Agrees(s) && a.daysOverdue >= 1
    ensures Agrees(Raise(s, a))
  {
    hide Sum, SumMap;
    SumAppend(s.alerts, a, AlertAmount());
    SumAppend(s.alerts, a, LateBetween(1, 7));
    SumAppend(s.alerts, a, LateBetween(8, 30));
    PutKey(s.debts, a.customer, Get(s.debts, a.customer) + a.amount);
    var t := Raise(s, a);
    forall c ensures Get(t.debts, c) == Sum(t.alerts, DebtFor(c)) && Get(t.counts, c) == Sum(t.alerts, AlertsFor(c)) {
      SumAppend(s.alerts, a, DebtFor(c));
      SumAppend(s.alerts, a, AlertsFor(c));
    }
  }

  /** For any invoices and any day: the summary's views agree, and its amount - in all and per customer - is what the
      schedules have overdue. */
  method GetInstallmentAlertSummary(sales: seq<Sale>, today: int) returns (s: Summary)
    ensures s.alerts == AllAlerts(sales, today) && Agrees(s)
    ensures s.amount == Sum(sales, OverdueOf(today, None))
    ensures forall c :: Get(s.debts, c) == Sum(sales, OverdueOf(today, Some(c)))
  {
    hide Sum, SumMap, Agrees, AlertsOf, AllAlerts;
    s := Summary(0, 0, 0, 0, 0, [], map[], map[]);
    NothingOverdue(today);
    for i := 0 to |sales|
      invariant s.alerts == AllAlerts(sales[..i], today) && Agrees(s)
      invariant s.amount == Sum(sales[..i], OverdueOf(today, None))
      invariant forall c :: Get(s.debts, c) == Sum(sales[..i], OverdueOf(today, Some(c)))
    {
      var sale := sales[i];
      assert sales[..i + 1] == sales[..i] + [sale];
      AllAlertsNext(sales, i, today);
      ghost var before := s;
      s := AddSale(s, sale, today);
      SumAppend(sales[..i], sale, OverdueOf(today, None));
      forall c ensures Get(s.debts, c) == Sum(sales[..i + 1], OverdueOf(today, Some(c))) {
        SumAppend(sales[..i], sale, OverdueOf(today, Some(c)));
      }
    }
    assert sales[..|sales|] == sales;
  }

  lemma AllAlertsNext(sales: seq<Sale>, i: nat, today: int)
    requires i < |sales|
    ensures AllAlerts(sales[..i + 1], today) == AllAlerts(sales[..i], today)
              + AlertsOf(sales[i], Schedule(sales[i]), today)
  {
    hide AlertsOf;
    assert sales[..i + 1][..i] == sales[..i];
  }

  lemma NothingOverdue(today: int)
    ensures AllAlerts([], today) == []
    ensures Agrees(Summary(0, 0, 0, 0, 0, [], map[], map[]))
    ensures Sum([], OverdueOf(today, None)) == 0 && forall c :: Sum([], OverdueOf(today, Some(c))) == 0
  {
  }

  /** The inner loops, over one invoice's schedule. */
  method AddSale(s0: Summary, sale: Sale, today: int) returns (s: Summary)
    requires Agrees(s0)
    ensures s.alerts == s0.alerts + AlertsOf(sale, Schedule(sale), today) && Agrees(s)
    ensures s.amount == s0.amount + Sum(Schedule(sale), OverdueIn(today))
    ensures forall c :: Get(s.debts, c) ==
              Get(s0.debts, c) + (if c == sale.customer then Sum(Schedule(sale), OverdueIn(today)) else 0)
  {
    hide Sum, SumMap, Agrees;
    s := s0;
    var entries: seq<Installment> := [];
    if sale.plan.Some? && sale.plan.value.schedule.Some? {
      entries := sale.plan.value.schedule.value;
    }
    var totalDue := UnpaidTotal(entries);
    SumZero([], OverdueIn(today));
    for k := 0 to |entries|
      invariant s.alerts == s0.alerts + AlertsOf(sale, entries[..k], today) && Agrees(s)
      invariant s.amount == s0.amount + Sum(entries[..k], OverdueIn(today))
      invariant forall c :: Get(s.debts, c) ==
                  Get(s0.debts, c) + (if c == sale.customer then Sum(entries[..k], OverdueIn(today)) else 0)
    {
      var e := entries[k];
      assert entries[..k + 1] == entries[..k] + [e] && entries[..k + 1][..k] == entries[..k];
      SumAppend(entries[..k], e, OverdueIn(today));
      if e.paid || e.dueDay.None? || e.dueDay.value >= today {
        continue;
      }
      var alert := Alert(sale.id, sale.customer, e.number, e.amount, today - e.dueDay.value, totalDue);
      RaiseAgrees(s, alert);
      s := Raise(s, alert);
    }
    assert entries[..|entries|] == entries;
  }

  method UnpaidTotal(entries: seq<Installment>) returns (total: Amount)
    ensures total == Sum(entries, EntryAmount(false))
  {
    total := 0;
    for k := 0 to |entries|
      invariant total == Sum(entries[..k], EntryAmount(false))
    {
      assert entries[..k + 1] == entries[..k] + [entries[k]];
      SumAppend(entries[..k], entries[k], EntryAmount(false));
      if !entries[k].paid {
        total := total + entries[k].amount;
      }
    }
    assert entries[..|entries|] == entries;
  }
}

/** Selling and returning (internal/service/sale_service.go): each operation is one transaction on the store. */
module SaleService {
  import opened Money
  import opened Domain
  import opened Sums
  import opened Refunds
  import opened SplitLegs
  import opened Store
  import opened ProductCache
  import opened Books
  import opened SaleSteps
  import opened SellingSteps
  import opened PriceLaws
  import opened PartialReturnSteps
  import opened FullReturnSteps

  class SaleService {
    const store: Store
    /** May be missing, as in the source: then there is no cache to clear. */
    const products: ProductService?

    constructor (store: Store, products: ProductService?)
      ensures this.store == store && this.products == products
    {
      this.store, this.products := store, products;
    }

    // ----- partial return -----

    method ReturnSalePartial(id: Id, product: Id, qty: Milli) returns (r: Result<()>)
      requires DbOk(store.db)
      modifies store, products
      ensures r.Ok? <==> CanReturnPart(old(store.db), id, product, qty)
      ensures r.Ok? ==> PartlyReturned(old(store.db), id, product, qty, store.db)
      ensures r.Err? ==> store.db == old(store.db)
      ensures DbOk(store.db)
      ensures products != null ==> products.State() == if r.Ok? then NO_CACHE else old(products.State())
    {
      var begin := store.db;
      r := ReturnSalePartialTx(id, product, qty);
      if r.Err? {
        store.db := begin;
      } else {
        PartialReturnKeepsDb(begin, id, product, qty, store.db);
        if products != null { products.ClearCache(); }
      }
    }

    method ReturnSalePartialTx(id: Id, product: Id, qty: Milli) returns (r: Result<()>)
      requires DbOk(store.db)
      modifies store
      ensures r.Ok? <==> CanReturnPart(old(store.db), id, product, qty)
      ensures r.Ok? ==> PartlyReturned(old(store.db), id, product, qty, store.db)
    {
      hide Quo, Div, Settle, PartialRows, GoodsBack, CustomersAfterPart, RestOfInvoice, AllReturned;
      var found := FindSale(store.db.sales, id);
      if found.None? {
        return Err(ItemNotFound);
      }
      var i := found.value;
      var sale := store.db.sales[i];
      var at := FirstLine(sale.lines, product);
      if at.None? {
        return Err(ItemNotFound);
      }
      var li := at.value;
      var line := sale.lines[li];
      if qty <= 0 {
        return Err(InvalidQuantity);
      }
      if qty > line.qty - line.returned {
        return Err(ExceedsRemaining);
      }
      BringBack(product, qty, PartialReturnIn, id);
      var share := Quo(line.total * qty, line.qty);
      var rest := RestLoop(sale.lines, product, line.returned);
      if rest == 0 {
        return Err(NothingLeft);
      }
      var amount := Quo(sale.total * share, rest);
      if amount > sale.total {
        amount := sale.total;
      }
      if amount <= 0 {
        return Err(InvalidRefund);
      }
      var over := RefundCustomer(sale, amount);
      WritePartialRows(sale, amount, over);
      store.UpdateShiftRefunds(amount, PartialCash(sale, over, amount), false);
      var settled := Settle(sale, li, qty, amount);
      store.SaveSale(i, settled);
      r := Ok(());
    }

    /** Stock and movement of a return; both are skipped when the product has been deleted since the sale. */
    method BringBack(product: Id, qty: Milli, kind: MovementKind, id: Id)
      requires qty > 0 && (product in store.db.products ==> store.db.products[product].stock >= 0)
      modifies store
      ensures store.db == old(store.db).(products := store.db.products, movements := store.db.movements)
      ensures GoodsBack(old(store.db).products, old(store.db).movements, product, qty, kind, id, store.db.products,
                store.db.movements)
    {
      if product in store.db.products {
        var _ := store.UpdateStock(product, qty);
        store.CreateStockMovement(Movement(product, kind, qty, id));
      }
    }

    /** The loop that values what is left of the invoice before this return. */
    method RestLoop(lines: seq<Line>, product: Id, returned: Milli) returns (rest: Amount)
      ensures rest == RestOfInvoice(lines, product, returned)
    {
      rest := 0;
      for k := 0 to |lines|
        invariant rest == Sum(lines[..k], RestOf(product, returned))
      {
        var line := lines[k];
        SumAppend(lines[..k], line, RestOf(product, returned));
        assert lines[..k + 1] == lines[..k] + [line];
        var back := line.returned;
        if line.product == product {
          back := returned;
        }
        if line.qty <= 0 {
          continue;
        }
        var left := line.qty - back;
        if left < 0 {
          left := 0;
        }
        if left > line.qty {
          left := line.qty;
        }
        rest := rest + Quo(line.total * left, line.qty);
      }
      assert lines[..|lines|] == lines;
    }

    /** Purchases, points and debts of the customer; returns the cash owed back on credit that was already paid off. */
    method RefundCustomer(sale: Sale, amount: Amount) returns (over: Amount)
      requires 0 < amount <= sale.total && (sale.payMethod == Split && sale.split.Some? ==>
               NonNegative(sale.split.value))
      requires sale.customer != NoId ==>
               sale.customer in store.db.customers && CustomerOk(store.db.customers[sale.customer])
      requires sale.customer == NoId ==> sale.customer !in store.db.customers && sale.payMethod != Credit
      modifies store
      ensures store.db == old(store.db).(customers := store.db.customers)
      ensures store.db.customers == CustomersAfterPart(old(store.db).customers, sale, amount)
      ensures over == PartialOverpaid(old(store.db).customers, sale, amount)
    {
      over := 0;
      if sale.customer != NoId {
        store.DecrementPurchases(sale.customer, amount);
        store.AdjustPoints(sale.customer, -Div(amount, 1000));
        match sale.payMethod {
          case Credit =>
            var debt := store.db.customers[sale.customer].debt;
            if debt < amount {
              over := amount - debt;
            }
            store.DecrementDebt(sale.customer, amount);
          case Installments =>
            store.DecrementInstallmentDebt(sale.customer, amount);
          case Split =>
            if sale.split.Some? && sale.total > 0 {
              var credit := LegOf(sale.split.value, Credit);
              if credit > 0 {
                var creditShare := Quo(amount * credit, sale.total);
                if creditShare > 0 {
                  store.DecrementDebt(sale.customer, creditShare);
                }
              }
            }
          case _ =>
        }
      }
    }

    method WritePartialRows(sale: Sale, amount: Amount, over: Amount)
      requires sale.total != 0
      modifies store
      ensures store.db == old(store.db).(payments := store.db.payments)
      ensures old(store.db).payments <= store.db.payments
      ensures PartialRows(sale, amount, over, store.db.payments[|old(store.db).payments|..])
    {
      if sale.payMethod == Split && sale.split.Some? {
        var shares := ShareLoop(sale, amount);
        WriteLegRows(sale, shares, -1, PartialReturnRow);
      } else if sale.payMethod != Credit {
        store.CreatePayment(Payment(sale.id, sale.customer, -amount, sale.payMethod, PartialReturnRow));
      } else if over > 0 {
        store.CreatePayment(Payment(sale.id, sale.customer, -over, Cash, OverpaidCreditRow));
      }
    }

    /** Each leg's share of a refund; the credit leg is settled against the customer's debt instead. */
    method ShareLoop(sale: Sale, amount: Amount) returns (shares: Legs)
      requires sale.split.Some? && sale.total != 0
      ensures shares == PartialShares(sale, amount)
    {
      shares := map[];
      var legs := sale.split.value - {Credit};
      var todo := legs.Keys;
      while todo != {}
        invariant todo <= legs.Keys
        invariant forall m :: m in shares <==> m in legs && m !in todo && legs[m] > 0
        invariant forall m :: m in shares ==> shares[m] == ShareOf(amount, sale.total)(legs[m])
        decreases todo
      {
        var m :| m in todo;
        todo := todo - {m};
        if legs[m] > 0 {
          shares := shares[m := Quo(amount * legs[m], sale.total)];
        }
      }
    }

    /** One payment row per positive leg, in the order Go visits the map. */
    method WriteLegRows(sale: Sale, legs: Legs, sign: int, note: Note)
      modifies store
      ensures store.db == old(store.db).(payments := store.db.payments)
      ensures old(store.db).payments <= store.db.payments
      ensures RowPerLeg(store.db.payments[|old(store.db).payments|..], legs, sale, sign, note)
    {
      var todo := legs.Keys;
      ghost var rows: seq<Payment> := [];
      assert legs - todo == map[];
      while todo != {}
        invariant todo <= legs.Keys
        invariant store.db == old(store.db).(payments := old(store.db).payments + rows)
        invariant RowPerLeg(rows, legs - todo, sale, sign, note)
        decreases todo
      {
        var m :| m in todo;
        ghost var done := legs - todo;
        todo := todo - {m};
        assert legs - todo == done[m := legs[m]];
        if legs[m] > 0 {
          var row := Payment(sale.id, sale.customer, sign * legs[m], m, note);
          store.CreatePayment(row);
          AddLegRow(rows, done, sale, sign, note, m, legs[m]);
          rows := rows + [row];
        } else {
          SkipLegRow(rows, done, sale, sign, note, m, legs[m]);
        }
      }
      assert legs - todo == legs;
      assert store.db.payments[|old(store.db).payments|..] == rows;
    }

    // ----- full return -----

    method ReturnSale(id: Id) returns (r: Result<()>, ghost legs: ScaledLegs)
      requires DbOk(store.db)
      modifies store, products
      ensures r.Ok? <==> CanReturn(old(store.db), id)
      ensures r.Ok? ==> FullyReturned(old(store.db), id, legs, store.db)
      ensures r.Err? ==> store.db == old(store.db)
      ensures DbOk(store.db)
      ensures products != null ==> products.State() == if r.Ok? then NO_CACHE else old(products.State())
    {
      var begin := store.db;
      r, legs := ReturnSaleTx(id);
      if r.Err? {
        store.db := begin;
      } else {
        ReturnKeepsDb(begin, id, legs, store.db);
        if products != null { products.ClearCache(); }
      }
    }

    method ReturnSaleTx(id: Id) returns (r: Result<()>, ghost legs: ScaledLegs)
      requires DbOk(store.db)
      modifies store
      ensures r.Ok? <==> CanReturn(old(store.db), id)
      ensures r.Ok? ==> FullyReturned(old(store.db), id, legs, store.db)
    {
      hide ReturnRows, RowPerLeg, CustomersAfterReturn, OverpaidAtReturn, RemainingLegs, Restocked, ReturnMovements,
           SaleOk, ReturnValue, ReturnCash, Div;
      legs := ScaledLegs(map[], map[], map[]);
      var found := FindSale(store.db.sales, id);
      if found.None? {
        return Err(SaleNotFound), legs;
      }
      var i := found.value;
      var sale := store.db.sales[i];
      if sale.status == Returned {
        return Err(AlreadyReturned), legs;
      }
      assert StoredSaleOk(store.db, sale);
      StatusChange(sale, Returned);
      RestockLoop(sale.lines, id);
      var debtLegs := SaleRemainingLegs(sale.total, sale.split);
      var collected := CollectedLoop(sale);
      var over := SettleCustomer(sale, debtLegs, collected);
      var rowLegs := SaleRemainingLegs(sale.total, sale.split);
      WriteReturnRows(sale, over, rowLegs, collected);
      var shiftLegs := SaleRemainingLegs(sale.total, sale.split);
      var value, cash := RefundValue(sale, over, shiftLegs, collected);
      if value > 0 {
        store.UpdateShiftRefunds(value, cash, true);
      }
      store.SaveSale(i, sale.(status := Returned));
      legs := ScaledLegs(debtLegs, rowLegs, shiftLegs);
      r := Ok(());
    }

    /** The loop over the invoice's lines; `products` is the catalogue as fetched before it. */
    method RestockLoop(lines: seq<Line>, id: Id)
      requires forall k :: 0 <= k < |lines| ==> LineOk(lines[k])
      requires forall p :: p in store.db.products ==> store.db.products[p].stock >= 0
      modifies store
      ensures store.db == old(store.db).(products := store.db.products, movements := store.db.movements)
      ensures Restocked(old(store.db).products, lines, store.db.products)
      ensures store.db.movements == old(store.db).movements + ReturnMovements(lines, old(store.db).products, id)
    {
      hide Sum, StillOut, Restocked;
      var products := store.db.products;
      RestockedNothing(products);
      for k := 0 to |lines|
        invariant store.db == old(store.db).(products := store.db.products, movements := store.db.movements)
        invariant Restocked(products, lines[..k], store.db.products)
        invariant store.db.movements == old(store.db).movements + ReturnMovements(lines[..k], products, id)
      {
        var line := lines[k];
        ghost var before := store.db.products;
        assert lines[..k + 1] == lines[..k] + [line] && lines[..k + 1][..k] == lines[..k];
        RestockedOk(products, lines[..k], before);
        RestockedKeys(products, lines[..k], before);
        var left := line.qty - line.returned;
        if line.product in products && left > 0 {
          var ok := store.UpdateStock(line.product, left);
          store.CreateStockMovement(Movement(line.product, ReturnIn, left, id));
        }
        RestockedMore(products, lines[..k], line, before, store.db.products);
      }
      assert lines[..|lines|] == lines;
    }

    /** The loop over the schedule, run once for the debt and once for the shift in the source. */
    method CollectedLoop(sale: Sale) returns (collected: Amount)
      ensures collected == Collected(sale)
    {
      collected := 0;
      if sale.plan.Some? {
        var paid := 0;
        if sale.plan.value.schedule.Some? {
          var schedule := sale.plan.value.schedule.value;
          for k := 0 to |schedule|
            invariant paid == Sum(schedule[..k], EntryAmount(true))
          {
            assert schedule[..k + 1] == schedule[..k] + [schedule[k]];
            SumAppend(schedule[..k], schedule[k], EntryAmount(true));
            if schedule[k].paid {
              paid := paid + schedule[k].amount;
            }
          }
          assert schedule[..|schedule|] == schedule;
        }
        collected := sale.plan.value.downPayment + paid;
      }
    }

    method SettleCustomer(sale: Sale, legs: Legs, collected: Amount) returns (over: Amount)
      requires sale.customer != NoId ==>
               sale.customer in store.db.customers && CustomerOk(store.db.customers[sale.customer])
      requires sale.customer == NoId ==> sale.customer !in store.db.customers
      requires sale.total >= 0 && collected == Collected(sale)
      modifies store
      ensures store.db == old(store.db).(customers := store.db.customers)
      ensures store.db.customers == CustomersAfterReturn(old(store.db).customers, sale, legs)
      ensures over == OverpaidAtReturn(old(store.db).customers, sale, legs) && over >= 0
    {
      hide Sum, Outstanding, Collected;
      OutstandingIs(sale);
      over := 0;
      if sale.customer != NoId {
        store.DecrementPurchases(sale.customer, sale.total);
        store.AdjustPoints(sale.customer, -Div(sale.total, 1000));
        match sale.payMethod {
          case Credit =>
            var debt := store.db.customers[sale.customer].debt;
            if debt < sale.total {
              over := sale.total - debt;
            }
            store.DecrementDebt(sale.customer, sale.total);
          case Installments =>
            var outstanding := sale.total - collected;
            if outstanding > 0 {
              store.DecrementInstallmentDebt(sale.customer, outstanding);
            }
          case Split =>
            var creditRemaining := LegOf(legs, Credit);
            if creditRemaining > 0 {
              var debt := store.db.customers[sale.customer].debt;
              if debt < creditRemaining {
                over := creditRemaining - debt;
              }
              store.DecrementDebt(sale.customer, creditRemaining);
            }
          case _ =>
        }
      }
    }

    method WriteReturnRows(sale: Sale, over: Amount, legs: Legs, collected: Amount)
      requires collected == Collected(sale)
      modifies store
      ensures store.db == old(store.db).(payments := store.db.payments)
      ensures old(store.db).payments <= store.db.payments
      ensures ReturnRows(sale, over, legs, store.db.payments[|old(store.db).payments|..])
    {
      match sale.payMethod {
        case Installments =>
          if collected > 0 {
            store.CreatePayment(Payment(sale.id, sale.customer, -collected, Cash, InstallmentRefundRow));
          }
        case Cash =>
          store.CreatePayment(Payment(sale.id, sale.customer, -sale.total, Cash, RefundRow));
        case Card =>
          store.CreatePayment(Payment(sale.id, sale.customer, -sale.total, Card, RefundRow));
        case Other(_) =>
        case Credit => WriteOverpaid(sale, over);
        case Split =>
          WriteOverpaid(sale, over);
          if sale.split.Some? {
            ghost var first := store.db.payments;
            WriteLegRows(sale, legs - {Credit}, -1, SplitRefundRow);
            assert store.db.payments[|old(store.db).payments|..][|OverpaidRows(sale, over)|..] ==
                   store.db.payments[|first|..];
          }
      }
    }

    method WriteOverpaid(sale: Sale, over: Amount)
      modifies store
      ensures store.db == old(store.db).(payments := old(store.db).payments + OverpaidRows(sale, over))
    {
      if over > 0 {
        store.CreatePayment(Payment(sale.id, sale.customer, -over, Cash, OverpaidCreditRow));
      }
    }

    method RefundValue(sale: Sale, over: Amount, legs: Legs, collected: Amount) returns (value: Amount, cash: Amount)
      requires collected == Collected(sale) && over >= 0
      ensures value == ReturnValue(sale, over, legs) && cash == ReturnCash(sale, over, legs)
    {
      value, cash := 0, 0;
      match sale.payMethod {
        case Cash => value, cash := sale.total, sale.total;
        case Card => value := sale.total;
        case Credit =>
          if over > 0 {
            value, cash := over, over;
          }
        case Installments => value, cash := collected, collected;
        case Split =>
          if Cash in legs {
            cash := cash + legs[Cash];
            value := value + legs[Cash];
          }
          if Card in legs {
            value := value + legs[Card];
          }
        case Other(_) =>
      }
    }

    // ----- sale -----

    method ProcessSale(cart: Sale, till: Till) returns (r: Result<()>)
      requires DbOk(store.db) && till.freshId != NoId
      modifies store, products
      ensures r.Ok? <==> CanSell(old(store.db), cart, till)
      ensures r.Ok? ==> Sold(old(store.db), cart, till, store.db)
      ensures r.Ok? ==> |store.db.sales| == |old(store.db.sales)| + 1
                        && Invoiced(cart, till, store.db.sales[|old(store.db.sales)|])
      ensures r.Err? ==> store.db == old(store.db)
      ensures r.Err? || SentReturnsOk(cart) <==> DbOk(store.db)
      ensures products != null ==> products.State() == if r.Ok? then NO_CACHE else old(products.State())
    {
      hide Sold, Invoiced, DbOk;
      if cart.lines == [] {
        return Err(EmptyCart);
      }
      var discounted := AnyDiscount(cart.lines);
      if (cart.discount > 0 || discounted) && !till.mayDiscount {
        return Err(NoPermission);
      }
      if !CustomerNamed(cart) {
        return Err(CustomerRequired);
      }
      var checked := CheckLines(cart.lines);
      if checked.Err? {
        return Err(checked.error);
      }
      var begin := store.db;
      r := ProcessSaleTx(cart, till);
      if r.Err? {
        store.db := begin;
      } else {
        SaleKeepsDbIff(begin, cart, till, store.db);
        SoldInvoice(begin, cart, till, store.db);
        if products != null { products.ClearCache(); }
      }
    }

    method AnyDiscount(lines: seq<Line>) returns (any: bool)
      ensures any <==> exists k :: 0 <= k < |lines| && lines[k].discount > 0
    {
      any := false;
      for k := 0 to |lines|
        invariant forall j :: 0 <= j < k ==> lines[j].discount <= 0
      {
        if lines[k].discount > 0 {
          return true;
        }
      }
    }

    method CheckLines(lines: seq<Line>) returns (r: Result<()>)
      ensures r.Ok? <==> forall k :: 0 <= k < |lines| ==> CartLineOk(lines[k])
    {
      hide MulQty;
      for k := 0 to |lines|
        invariant forall j :: 0 <= j < k ==> CartLineOk(lines[j])
      {
        if lines[k].qty <= 0 {
          return Err(InvalidQuantity);
        }
        if lines[k].discount < 0 || lines[k].discount > Gross(lines[k]) {
          return Err(InvalidDiscount);
        }
      }
      r := Ok(());
    }

    method ProcessSaleTx(cart: Sale, till: Till) returns (r: Result<()>)
      requires DbOk(store.db) && till.freshId != NoId
      requires cart.lines != [] && DiscountAllowed(cart, till) && CustomerNamed(cart)
      requires forall k :: 0 <= k < |cart.lines| ==> CartLineOk(cart.lines[k])
      modifies store
      ensures r.Ok? <==> CanSell(old(store.db), cart, till)
      ensures r.Ok? ==> Sold(old(store.db), cart, till, store.db)
    {
      hide Sum, SumMap, SaleOk, Sellable, StockTaken, SaleRows, RowPerLeg, CustomersAfterSale, Vat, MulQty, Div,
           CashTaken, PlanAccepted, SplitAccepted, CustomerNamed, DiscountAllowed, PricedLines, SaleMovements, FindSale,
           ActiveShift, StoredSaleOk;
      var id := if cart.id == NoId then till.freshId else cart.id;
      var taken, subtotal, net := TakeStock(cart.lines, id);
      if taken.Err? {
        return Err(taken.error);
      }
      if cart.discount < 0 || cart.discount > net {
        return Err(InvalidDiscount);
      }
      var taxable := net - cart.discount;
      var vat := Vat(taxable, till.vatRate);
      var sale := cart.(
        id := id, lines := PricedLines(cart.lines), subtotal := subtotal, vat := vat, total := taxable + vat,
        status := if cart.payMethod == Credit || cart.payMethod == Installments then Pending else Completed,
        points := if cart.customer != NoId then Div(taxable + vat, 1000) else cart.points);
      assert sale == Invoice(cart, till);
      var planOk := CheckPlan(sale);
      if !planOk {
        return Err(InvalidPlan);
      }
      if FindSale(store.db.sales, id).Some? {
        return Err(DuplicateId);
      }
      store.db := store.db.(sales := store.db.sales + [sale]);
      if sale.customer != NoId && sale.customer !in store.db.customers {
        return Err(CustomerNotFound);
      }
      ChargeCustomer(sale);
      var splitOk := CheckSplit(sale);
      if !splitOk {
        return Err(InvalidSplit);
      }
      WriteSaleRows(sale);
      var counted := store.UpdateShiftSales(sale.total, CashTaken(sale), true, till.requireShift);
      if !counted {
        return Err(NoOpenShift);
      }
      r := Ok(());
    }

    /** The loop over the cart: the stock check reads the catalogue as fetched before it, the guarded update reads it as
        it is. */
    method TakeStock(lines: seq<Line>, id: Id) returns (r: Result<()>, subtotal: Amount, net: Amount)
      requires forall k :: 0 <= k < |lines| ==> CartLineOk(lines[k])
      requires forall p :: p in store.db.products ==> store.db.products[p].stock >= 0
      modifies store
      ensures r.Ok? <==> Sellable(old(store.db).products, lines)
      ensures r.Ok? ==> subtotal == Sum(lines, GrossOf()) && net == Sum(lines, NetOf())
      ensures store.db == old(store.db).(products := store.db.products, movements := store.db.movements)
      ensures r.Ok? ==> StockTaken(old(store.db).products, lines, store.db.products)
      ensures r.Ok? ==> store.db.movements == old(store.db).movements + SaleMovements(lines, id)
    {
      hide Sum, Sellable, StockTaken, PriceOk, MulQty, Ordered;
      var products := store.db.products;
      subtotal, net := 0, 0;
      NothingTaken(products);
      SumZero([], GrossOf());
      SumZero([], NetOf());
      for k := 0 to |lines|
        invariant Sellable(products, lines[..k]) && StockTaken(products, lines[..k], store.db.products)
        invariant subtotal == Sum(lines[..k], GrossOf()) && net == Sum(lines[..k], NetOf())
        invariant store.db == old(store.db).(products := store.db.products, movements := store.db.movements)
        invariant store.db.movements == old(store.db).movements + SaleMovements(lines[..k], id)
      {
        var line := lines[k];
        assert lines[..k + 1] == lines[..k] + [line];
        ghost var before := store.db.products;
        NextLine(products, lines, k, before);
        if line.product !in products {
          return Err(ProductNotFound), subtotal, net;
        }
        if products[line.product].stock < line.qty {
          return Err(InsufficientStock), subtotal, net;
        }
        if !PriceOk(products[line.product], line.price) {
          return Err(PriceMismatch), subtotal, net;
        }
        SumAppend(lines[..k], line, GrossOf());
        SumAppend(lines[..k], line, NetOf());
        subtotal := subtotal + Gross(line);
        net := net + (Gross(line) - line.discount);
        var ok := store.UpdateStock(line.product, -line.qty);
        if !ok {
          return Err(InsufficientStock), subtotal, net;
        }
        store.CreateStockMovement(Movement(line.product, SaleOut, -line.qty, id));
        LineTaken(products, lines[..k], line, before, store.db.products);
        assert SaleMovements(lines[..k + 1], id) == SaleMovements(lines[..k], id) + [SaleMovement(line, id)];
      }
      assert lines[..|lines|] == lines;
      r := Ok(());
    }

    method CheckPlan(sale: Sale) returns (ok: bool)
      ensures ok <==> PlanAccepted(sale)
    {
      if sale.payMethod != Installments || sale.plan.None? {
        return true;
      }
      var plan := sale.plan.value;
      if plan.downPayment < 0 || plan.downPayment > sale.total {
        return false;
      }
      if plan.schedule.None? {
        return true;
      }
      var schedule := plan.schedule.value;
      var sum := 0;
      for k := 0 to |schedule|
        invariant forall j :: 0 <= j < k ==> schedule[j].amount >= 0
        invariant sum == Sum(schedule[..k], ScheduledAmount())
      {
        if schedule[k].amount < 0 {
          assert Schedule(sale)[k].amount < 0;
          return false;
        }
        assert schedule[..k + 1] == schedule[..k] + [schedule[k]];
        SumAppend(schedule[..k], schedule[k], ScheduledAmount());
        sum := sum + schedule[k].amount;
      }
      assert schedule[..|schedule|] == schedule;
      ok := sum == sale.total - plan.downPayment;
    }

    method CheckSplit(sale: Sale) returns (ok: bool)
      ensures ok <==> SplitAccepted(sale)
    {
      hide SumMap;
      if sale.payMethod != Split || sale.split.None? {
        return true;
      }
      var legs := sale.split.value;
      var todo := legs.Keys;
      while todo != {}
        invariant todo <= legs.Keys
        invariant forall m :: m in legs && m !in todo ==> 0 <= legs[m] <= sale.total
        decreases todo
      {
        var m :| m in todo;
        if legs[m] < 0 || legs[m] > sale.total {
          return false;
        }
        todo := todo - {m};
      }
      var sum := SumOf(legs);
      ok := sum == sale.total;
    }

    method ChargeCustomer(sale: Sale)
      requires sale.customer != NoId ==> sale.customer in store.db.customers
      requires sale.customer == NoId ==> sale.customer !in store.db.customers
      modifies store
      ensures store.db == old(store.db).(customers := CustomersAfterSale(old(store.db).customers, sale))
    {
      if sale.customer != NoId {
        var debt, installmentDebt := 0, 0;
        match sale.payMethod {
          case Credit => debt := sale.total;
          case Installments =>
            if sale.plan.Some? {
              installmentDebt := sale.total - sale.plan.value.downPayment;
            } else {
              installmentDebt := sale.total;
            }
          case Split =>
            if sale.split.Some? {
              debt := LegOf(sale.split.value, Credit);
            }
          case _ =>
        }
        store.IncrementPurchasesAndDebt(sale.customer, sale.total, sale.points, debt, installmentDebt);
      }
    }

    method WriteSaleRows(sale: Sale)
      modifies store
      ensures store.db == old(store.db).(payments := store.db.payments)
      ensures old(store.db).payments <= store.db.payments
      ensures SaleRows(sale, store.db.payments[|old(store.db).payments|..])
    {
      if sale.payMethod == Split && sale.split.Some? {
        WriteLegRows(sale, sale.split.value, 1, SplitRow);
      } else {
        var amount := sale.total;
        var down := DownPayment(sale);
        if sale.payMethod == Installments && down > 0 {
          amount := sale.total - down;
        }
        if amount > 0 {
          store.CreatePayment(Payment(sale.id, sale.customer, amount, sale.payMethod, SaleRow));
        }
        if sale.payMethod == Installments && down > 0 {
          store.CreatePayment(Payment(sale.id, sale.customer, down, Cash, DownPaymentRow));
        }
      }
    }
  }
}

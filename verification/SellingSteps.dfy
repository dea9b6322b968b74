/** What a sale does to the database, and what it keeps. */
module SellingSteps {
  import opened Money
  import opened Domain
  import opened Sums
  import opened Refunds
  import opened SplitLegs
  import opened Points
  import opened Store
  import opened Books
  import opened SaleSteps

  /** What the till knows besides the cart: the actor's discount permission, the preferences and a fresh invoice id. */
  datatype Till = Till(mayDiscount: bool, vatRate: real, requireShift: bool, freshId: Id)

  function Gross(line: Line): Amount { MulQty(line.price, line.qty) }

  function PricedLine(line: Line): Line { line.(total := Gross(line) - line.discount) }

  function PricedLines(lines: seq<Line>): (priced: seq<Line>)
    ensures |priced| == |lines| && forall k :: 0 <= k < |lines| ==> priced[k] == PricedLine(lines[k])
  {
    seq(|lines|, k requires 0 <= k < |lines| => PricedLine(lines[k]))
  }

  ghost function GrossOf(): Line -> int { (line: Line) => Gross(line) }

  ghost function NetOf(): Line -> int { (line: Line) => Gross(line) - line.discount }

  ghost function Ordered(product: Id): Line -> int
  {
    (line: Line) => if line.product == product then line.qty else 0
  }

  function Vat(taxable: Amount, rate: real): Amount
  {
    if rate > 0.0 then Percentage(taxable, rate) else 0
  }

  /** The invoice row the cart becomes. */
  ghost function Invoice(cart: Sale, till: Till): Sale
  {
    var taxable := Sum(cart.lines, NetOf()) - cart.discount;
    var vat := Vat(taxable, till.vatRate);
    cart.(
      id := if cart.id == NoId then till.freshId else cart.id,
      lines := PricedLines(cart.lines),
      subtotal := Sum(cart.lines, GrossOf()),
      vat := vat,
      total := taxable + vat,
      status := if cart.payMethod == Credit || cart.payMethod == Installments then Pending else Completed,
      points := if cart.customer != NoId then PointsFor(taxable + vat) else cart.points)
  }

  function NearPrice(a: Amount, b: Amount): bool { Abs(a - b) <= 1 }

  predicate PriceOk(product: Product, price: Amount)
  {
    NearPrice(product.price, price) || (product.wholesalePrice > 0 && NearPrice(product.wholesalePrice, price))
  }

  predicate CartLineOk(line: Line)
  {
    line.qty > 0 && 0 <= line.discount <= Gross(line)
  }

  /** Every line is a known product at its price, and all lines together are in stock even when they repeat a
      product. */
  ghost predicate Sellable(products: map<Id, Product>, lines: seq<Line>)
  {
    && (forall k :: 0 <= k < |lines| ==>
         lines[k].product in products && PriceOk(products[lines[k].product], lines[k].price))
    && (forall p :: p in products ==> Sum(lines, Ordered(p)) <= products[p].stock)
  }

  ghost predicate PlanAccepted(sale: Sale)
  {
    sale.payMethod == Installments && sale.plan.Some? ==>
      && 0 <= DownPayment(sale) <= sale.total
      && (sale.plan.value.schedule.Some? ==>
           (forall k :: 0 <= k < |Schedule(sale)| ==> Schedule(sale)[k].amount >= 0)
           && Sum(Schedule(sale), ScheduledAmount()) == sale.total - DownPayment(sale))
  }

  ghost predicate SplitAccepted(sale: Sale)
  {
    sale.payMethod == Split && sale.split.Some? ==>
      && (forall m :: m in sale.split.value ==> 0 <= sale.split.value[m] <= sale.total)
      && SumMap(sale.split.value) == sale.total
  }

  predicate CustomerNamed(cart: Sale)
  {
    cart.customer == NoId ==>
      && cart.payMethod != Credit && cart.payMethod != Installments
      && (cart.payMethod == Split && cart.split.Some? ==> LegOf(cart.split.value, Credit) <= 0)
  }

  predicate DiscountAllowed(cart: Sale, till: Till)
  {
    cart.discount > 0 || (exists k :: 0 <= k < |cart.lines| && cart.lines[k].discount > 0) ==> till.mayDiscount
  }

  ghost predicate CanSell(db: Db, cart: Sale, till: Till)
  {
    var sale := Invoice(cart, till);
    && cart.lines != [] && DiscountAllowed(cart, till) && CustomerNamed(cart)
    && (forall k :: 0 <= k < |cart.lines| ==> CartLineOk(cart.lines[k]))
    && Sellable(db.products, cart.lines)
    && 0 <= cart.discount <= Sum(cart.lines, NetOf())
    && PlanAccepted(sale)
    && FindSale(db.sales, sale.id).None?
    && (cart.customer != NoId ==> cart.customer in db.customers)
    && SplitAccepted(sale)
    && !(till.requireShift && ActiveShift(db.shifts).None?)
  }

  ghost predicate StockTaken(products: map<Id, Product>, lines: seq<Line>, products': map<Id, Product>)
  {
    && products'.Keys == products.Keys
    && forall p :: p in products ==> products'[p] == products[p].(stock := products[p].stock - Sum(lines, Ordered(p)))
  }

  function SaleMovement(line: Line, id: Id): Movement { Movement(line.product, SaleOut, -line.qty, id) }

  function SaleMovements(lines: seq<Line>, id: Id): (ms: seq<Movement>)
    ensures |ms| == |lines| && forall k :: 0 <= k < |ms| ==> ms[k] == SaleMovement(lines[k], id)
  {
    seq(|lines|, k requires 0 <= k < |lines| => SaleMovement(lines[k], id))
  }

  function DebtIncrease(sale: Sale): Amount
  {
    match sale.payMethod
    case Credit => sale.total
    case Split => if sale.split.Some? then LegOf(sale.split.value, Credit) else 0
    case _ => 0
  }

  function InstallmentIncrease(sale: Sale): Amount
  {
    if sale.payMethod == Installments then sale.total - DownPayment(sale) else 0
  }

  function CustomersAfterSale(customers: map<Id, Customer>, sale: Sale): map<Id, Customer>
  {
    if sale.customer !in customers then customers
    else customers[sale.customer :=
           Charged(customers[sale.customer], sale.total, sale.points, DebtIncrease(sale), InstallmentIncrease(sale))]
  }

  /** The financed part of an installment invoice and its down payment are separate rows; a split invoice has one row
      per leg. */
  ghost predicate SaleRows(sale: Sale, rows: seq<Payment>)
  {
    if sale.payMethod == Split && sale.split.Some? then RowPerLeg(rows, sale.split.value, sale, 1, SplitRow)
    else
      var down := if sale.payMethod == Installments && DownPayment(sale) > 0 then DownPayment(sale) else 0;
      rows == (if sale.total - down > 0
          then [Payment(sale.id, sale.customer, sale.total - down, sale.payMethod, SaleRow)] else [])
            + (if down > 0 then [Payment(sale.id, sale.customer, down, Cash, DownPaymentRow)] else [])
  }

  function CashTaken(sale: Sale): Amount
  {
    match sale.payMethod
    case Cash => sale.total
    case Split => if sale.split.Some? then LegOf(sale.split.value, Cash) else 0
    case Installments => DownPayment(sale)
    case _ => 0
  }

  ghost predicate Sold(db: Db, cart: Sale, till: Till, db': Db)
  {
    CanSell(db, cart, till) &&
    var sale := Invoice(cart, till);
    && db'.sales == db.sales + [sale]
    && StockTaken(db.products, cart.lines, db'.products)
    && db'.movements == db.movements + SaleMovements(cart.lines, sale.id)
    && db'.customers == CustomersAfterSale(db.customers, sale)
    && db.payments <= db'.payments && SaleRows(sale, db'.payments[|db.payments|..])
    && db'.shifts == ShiftsAfterSales(db.shifts, sale.total, CashTaken(sale), true)
    && db'.cashMovements == db.cashMovements && db'.orders == db.orders
  }

  /** The returned quantities a cart may carry: within each line, and only on the first line of a product. The code
      stores the column as sent. */
  predicate SentReturnsOk(cart: Sale)
  {
    && (forall k :: 0 <= k < |cart.lines| ==> 0 <= cart.lines[k].returned <= cart.lines[k].qty)
    && (forall j, k :: 0 <= j < k < |cart.lines| && cart.lines[j].product == cart.lines[k].product ==>
          cart.lines[k].returned == 0)
  }

  /** What a cart marks as returned of a product. */
  ghost function SentBack(product: Id): Line -> int
  {
    (line: Line) => if line.product == product then line.returned else 0
  }

  lemma PercentageNonNegative(a: Amount, rate: real)
    requires a >= 0 && rate >= 0.0
    ensures Percentage(a, rate) >= 0
  {
    var x := a as real;
    var y := rate / 100.0;
    assert x * y >= 0.0;
  }

  lemma {:induction false} NetNonNegative(lines: seq<Line>)
    requires forall k :: 0 <= k < |lines| ==> CartLineOk(lines[k])
    ensures Sum(lines, NetOf()) >= 0 && Sum(lines, GrossOf()) >= 0
  {
    SumNonNegative(lines, NetOf());
    SumNonNegative(lines, GrossOf());
  }

  /** The invoice of an accepted cart is well formed exactly when the returned quantities it carries are. */
  lemma InvoiceOkIff(cart: Sale, till: Till)
    requires cart.lines != [] && forall k :: 0 <= k < |cart.lines| ==> CartLineOk(cart.lines[k])
    requires 0 <= cart.discount <= Sum(cart.lines, NetOf())
    ensures SaleOk(Invoice(cart, till)) <==> SentReturnsOk(cart)
  {
    hide Sum, Percentage, MulQty, Div;
    var sale := Invoice(cart, till);
    InvoiceTotals(cart, till);
    forall k | 0 <= k < |sale.lines|
      ensures sale.lines[k].product == cart.lines[k].product && sale.lines[k].returned == cart.lines[k].returned
      ensures LineOk(sale.lines[k]) <==> 0 <= cart.lines[k].returned <= cart.lines[k].qty
    {
      assert CartLineOk(cart.lines[k]);
    }
    if SaleOk(sale) {
      forall k | 0 <= k < |cart.lines|
        ensures 0 <= cart.lines[k].returned <= cart.lines[k].qty { assert LineOk(sale.lines[k]); }
    }
  }

  lemma SaleRowsRef(sale: Sale, rows: seq<Payment>)
    requires SaleRows(sale, rows)
    ensures forall k :: 0 <= k < |rows| ==>
              rows[k].sale == sale.id && rows[k].customer == sale.customer
                  && (rows[k].note.SaleRow? || rows[k].note.SplitRow? || rows[k].note.DownPaymentRow?)
  {
    if sale.payMethod == Split && sale.split.Some? {
      forall k | 0 <= k < |rows|
        ensures rows[k].sale == sale.id && rows[k].customer == sale.customer && rows[k].note == SplitRow {
        assert IsLegRow(rows[k], sale.split.value, sale, 1, SplitRow);
      }
    }
  }

  lemma InvoiceStored(db: Db, cart: Sale, till: Till, db': Db)
    requires DbOk(db) && Sold(db, cart, till, db') && SentReturnsOk(cart) && till.freshId != NoId
    ensures StoredSaleOk(db', Invoice(cart, till))
  {
    hide Sum, SumMap, SaleOk, Vat, MulQty, Div, SaleRows, RowPerLeg;
    var sale := Invoice(cart, till);
    InvoiceOkIff(cart, till);
    assert SplitAccepted(sale) && PlanAccepted(sale);
    if sale.payMethod == Installments && sale.plan.Some? && sale.plan.value.schedule.None? {
      assert Schedule(sale) == [];
    }
  }

  lemma SalesAppended(db: Db, sale: Sale, db': Db)
    requires SalesTableOk(db) && db'.sales == db.sales + [sale] && StoredSaleOk(db', sale)
    requires FindSale(db.sales, sale.id).None? && db.customers.Keys <= db'.customers.Keys
    ensures SalesTableOk(db') && SaleExists(db', sale.id)
  {
    hide SaleOk, SplitOk, PlanOk, PaidOk, FindSale;
    assert db'.sales[|db.sales|] == sale;
    forall k | 0 <= k < |db'.sales| ensures StoredSaleOk(db', db'.sales[k]) {
      if k < |db.sales| { assert db'.sales[k] == db.sales[k] && StoredSaleOk(db, db.sales[k]); }
    }
  }

  lemma NewReferences(db: Db, db': Db, id: Id)
    requires ReferencesOk(db) && db.sales <= db'.sales && SaleExists(db', id)
    requires db.payments <= db'.payments && db.movements <= db'.movements
    requires var rows := db'.payments[|db.payments|..]; forall k :: 0 <= k < |rows| ==> rows[k].sale == id
    requires var ms := db'.movements[|db.movements|..]; forall k :: 0 <= k < |ms| ==> ms[k].ref == id
    ensures ReferencesOk(db')
  {
    forall k | 0 <= k < |db'.payments| ensures db'.payments[k].sale == NoId || SaleExists(db', db'.payments[k].sale) {
      if k < |db.payments| {
        assert db'.payments[k] == db.payments[k];
        if db.payments[k].sale != NoId { SameSales(db, db', db.payments[k].sale); }
      } else {
        assert db'.payments[k] == db'.payments[|db.payments|..][k - |db.payments|];
      }
    }
    forall k | 0 <= k < |db'.movements|
      ensures db'.movements[k].kind == Restock || SaleExists(db', db'.movements[k].ref) {
      if k < |db.movements| {
        assert db'.movements[k] == db.movements[k];
        if db.movements[k].kind != Restock { SameSales(db, db', db.movements[k].ref); }
      } else {
        assert db'.movements[k] == db'.movements[|db.movements|..][k - |db.movements|];
      }
    }
  }

  lemma CustomersAfterSaleOk(customers: map<Id, Customer>, sale: Sale)
    requires forall c :: c in customers ==> CustomerOk(customers[c])
    requires sale.total >= 0 && (sale.customer != NoId ==> sale.points >= 0) && NoId !in customers
    ensures var after := CustomersAfterSale(customers, sale);
            after.Keys == customers.Keys && forall c :: c in after ==> CustomerOk(after[c])
  {
  }

  lemma StockTakenOk(products: map<Id, Product>, lines: seq<Line>, products': map<Id, Product>)
    requires StockTaken(products, lines, products') && Sellable(products, lines)
    ensures forall p :: p in products' ==> products'[p].stock >= 0
  {
    hide Sum;
  }

  lemma SaleKeepsShifts(db: Db, cart: Sale, till: Till, db': Db)
    requires ShiftsOk(db) && Sold(db, cart, till, db')
    ensures ShiftsOk(db')
  {
    hide Sum, SumMap, SaleOk, Vat, MulQty, SaleRows, StockTaken, Sellable, CustomersAfterSale, DiscountAllowed,
         CustomerNamed;
    InvoiceTotals(cart, till);
    CashTakenNonNegative(Invoice(cart, till));
    ShiftsCounted(db, db');
  }

  lemma SaleKeepsDb(db: Db, cart: Sale, till: Till, db': Db)
    requires DbOk(db) && Sold(db, cart, till, db') && SentReturnsOk(cart) && till.freshId != NoId
    ensures DbOk(db')
  {
    hide Sum, SumMap, SaleOk, Vat, MulQty, SaleRows, RowPerLeg, StockTaken, Sellable, SplitOk, PlanOk,
         CustomersAfterSale, ReferencesOk, ShiftsOk, SalesTableOk, CustomerOk, DiscountAllowed, CustomerNamed,
         StoredSaleOk;
    var sale := Invoice(cart, till);
    InvoiceStored(db, cart, till, db');
    InvoiceTotals(cart, till);
    CustomersAfterSaleOk(db.customers, sale);
    SalesAppended(db, sale, db');
    StockTakenOk(db.products, cart.lines, db'.products);
    SaleRowsRef(sale, db'.payments[|db.payments|..]);
    assert db'.movements[|db.movements|..] == SaleMovements(cart.lines, sale.id);
    NewReferences(db, db', sale.id);
    PayersGrow(db, db', sale.customer);
    SaleKeepsShifts(db, cart, till, db');
  }

  /** A sale keeps the database well formed exactly when the cart's returned quantities are: that column is taken as
      sent. */
  lemma SaleKeepsDbIff(db: Db, cart: Sale, till: Till, db': Db)
    requires DbOk(db) && Sold(db, cart, till, db') && till.freshId != NoId
    ensures DbOk(db') <==> SentReturnsOk(cart)
  {
    hide Sum, SumMap, SaleOk, Vat, MulQty, SaleRows, RowPerLeg, StockTaken, Sellable, SplitOk, PlanOk,
         CustomersAfterSale, ReferencesOk, ShiftsOk, CustomerOk, DiscountAllowed, CustomerNamed, SentReturnsOk;
    InvoiceOkIff(cart, till);
    if SentReturnsOk(cart) {
      SaleKeepsDb(db, cart, till, db');
    } else {
      assert db'.sales[|db.sales|] == Invoice(cart, till);
    }
  }

  lemma InvoiceTotals(cart: Sale, till: Till)
    requires cart.lines != [] && forall k :: 0 <= k < |cart.lines| ==> CartLineOk(cart.lines[k])
    requires 0 <= cart.discount <= Sum(cart.lines, NetOf())
    ensures var s := Invoice(cart, till);
            0 <= s.vat <= s.total && 0 <= s.subtotal && (s.customer != NoId ==>
                s.points == PointsFor(s.total) && s.points >= 0)
  {
    hide Sum, Percentage, MulQty, Div;
    NetNonNegative(cart.lines);
    if till.vatRate > 0.0 {
      PercentageNonNegative(Sum(cart.lines, NetOf()) - cart.discount, till.vatRate);
    }
    DivThousand(Invoice(cart, till).total);
  }

  lemma CashTakenNonNegative(sale: Sale)
    requires sale.total >= 0 && SplitAccepted(sale) && PlanAccepted(sale)
    ensures CashTaken(sale) >= 0
  {
    hide Sum, SumMap;
  }

  // ----- the selling loop -----

  lemma NothingTaken(products: map<Id, Product>)
    requires forall p :: p in products ==> products[p].stock >= 0
    ensures Sellable(products, []) && StockTaken(products, [], products)
  {
  }

  lemma {:induction false} OrderedMonotone(lines: seq<Line>, k: nat, p: Id)
    requires k <= |lines| && forall j :: 0 <= j < |lines| ==> CartLineOk(lines[j])
    ensures Sum(lines[..k], Ordered(p)) <= Sum(lines, Ordered(p))
  {
    SumGrows(lines[..k], lines, Ordered(p));
    SumNonNegative(lines[k..], Ordered(p));
  }

  /** When the next line is refused, the cart as a whole is not sellable. */
  lemma NextLine(products: map<Id, Product>, lines: seq<Line>, k: nat, now: map<Id, Product>)
    requires k < |lines| && forall j :: 0 <= j < |lines| ==> CartLineOk(lines[j])
    requires StockTaken(products, lines[..k], now)
    ensures now.Keys == products.Keys
    ensures var line := lines[k];
            (line.product !in products || products[line.product].stock < line.qty
                || !PriceOk(products[line.product], line.price)
              || now[line.product].stock - line.qty < 0) ==> !Sellable(products, lines)
  {
    hide Sum, PriceOk;
    var line := lines[k];
    var p := line.product;
    if p in products && Sellable(products, lines) {
      OrderedMonotone(lines, k + 1, p);
      OrderedMonotone(lines[..k + 1], k, p);
      assert lines[..k + 1] == lines[..k] + [line] && lines[..k + 1][..k] == lines[..k];
      SumAppend(lines[..k], line, Ordered(p));
      SumNonNegative(lines[..k], Ordered(p));
    }
  }

  lemma LineTaken(products: map<Id, Product>, lines: seq<Line>, line: Line, before: map<Id, Product>, after: map<Id,
                  Product>)
    requires Sellable(products, lines) && StockTaken(products, lines, before)
    requires line.product in products && PriceOk(products[line.product], line.price)
    requires before[line.product].stock - line.qty >= 0
    requires after == before[line.product := before[line.product].(stock := before[line.product].stock - line.qty)]
    ensures Sellable(products, lines + [line]) && StockTaken(products, lines + [line], after)
  {
    hide Sum, PriceOk;
    forall p | p in products
      ensures Sum(lines + [line], Ordered(p)) == Sum(lines, Ordered(p)) + (if p == line.product then line.qty else 0)
    {
      SumAppend(lines, line, Ordered(p));
    }
  }
}

/** Shifts and purchase orders: what each operation does to the database, and the laws it keeps. */
module FinanceSteps {
  import opened Money
  import opened Domain
  import opened Sums
  import opened Refunds
  import opened Store
  import opened Books
  import opened SaleSteps

  // ----- shifts -----

  ghost function Drawer(shift: Id, isIn: bool): CashMovement -> int
  {
    (m: CashMovement) => if m.shift == shift && m.isIn == isIn then m.amount else 0
  }

  /** Opening balance, cash sales and movements: what the drawer should hold. */
  ghost function Expected(db: Db, i: nat): Amount
    requires i < |db.shifts|
  {
    var s := db.shifts[i];
    s.openingBalance + s.cashSales + Sum(db.cashMovements, Drawer(s.id, true))
        - Sum(db.cashMovements, Drawer(s.id, false))
  }

  function NewShift(id: Id, staff: Id, opening: Amount, openedAt: nat): Shift
  {
    Shift(id, staff, true, openedAt, opening, opening, 0, 0, 0, 0, 0)
  }

  ghost predicate Opened(db: Db, id: Id, staff: Id, opening: Amount, db': Db)
  {
    && ActiveShift(db.shifts).None?
    && db' == db.(shifts := db.shifts + [NewShift(id, staff, opening, |db.payments|)])
  }

  datatype Closer = Closer(loggedIn: bool, staff: Id, isAdmin: bool)

  function MayClose(closer: Closer, shift: Shift): bool
  {
    !(closer.loggedIn && shift.staff != closer.staff && !closer.isAdmin)
  }

  ghost predicate CanClose(db: Db, id: Id, closer: Closer)
  {
    FindShift(db.shifts, id).Some? &&
    var s := db.shifts[FindShift(db.shifts, id).value];
    s.isOpen && MayClose(closer, s)
  }

  /** A shift is closed by its owner, an administrator or a call without a login; nobody else, and only while it is
      open. */
  lemma ClosesIff(db: Db, id: Id, closer: Closer)
    requires ShiftsOk(db)
    ensures CanClose(db, id, closer) <==>
              exists k :: 0 <= k < |db.shifts| && db.shifts[k].id == id && db.shifts[k].isOpen
                          && (closer.loggedIn ==> closer.isAdmin || db.shifts[k].staff == closer.staff)
  {
    if k :| 0 <= k < |db.shifts| && db.shifts[k].id == id && db.shifts[k].isOpen {
      assert FindShift(db.shifts, id) == Some(k);
    }
  }

  ghost predicate Closed(db: Db, id: Id, closing: Amount, closer: Closer, db': Db)
  {
    CanClose(db, id, closer) &&
    var i := FindShift(db.shifts, id).value;
    db' == db.(shifts := db.shifts[i := db.shifts[i].(
             isOpen := false, expectedBalance := Expected(db, i), closingBalance := closing,
             variance := closing - Expected(db, i))])
  }

  lemma OpenKeepsDb(db: Db, id: Id, staff: Id, opening: Amount, db': Db)
    requires DbOk(db) && Opened(db, id, staff, opening, db') && FindShift(db.shifts, id).None?
    ensures DbOk(db')
  {
    hide StoredSaleOk, ReferencesOk, OrderOk;
    SameTables(db, db');
  }

  lemma CloseKeepsDb(db: Db, id: Id, closing: Amount, closer: Closer, db': Db)
    requires DbOk(db) && Closed(db, id, closing, closer, db')
    ensures DbOk(db')
  {
    hide StoredSaleOk, ReferencesOk, OrderOk, Expected;
    SameTables(db, db');
  }

  lemma SameTables(db: Db, db': Db)
    requires SalesTableOk(db) && ReferencesOk(db) && db'.sales == db.sales && db'.customers == db.customers
    requires db'.payments == db.payments && db'.movements == db.movements
    ensures SalesTableOk(db') && ReferencesOk(db')
  {
    hide SaleOk, SplitOk, PlanOk, PaidOk;
    forall i | 0 <= i < |db'.sales| ensures StoredSaleOk(db', db'.sales[i]) {
      assert StoredSaleOk(db, db.sales[i]);
    }
    forall k | 0 <= k < |db'.payments| ensures db'.payments[k].sale == NoId || SaleExists(db', db'.payments[k].sale) {
      if db.payments[k].sale != NoId { SameSales(db, db', db.payments[k].sale); }
    }
    forall k | 0 <= k < |db'.movements|
      ensures db'.movements[k].kind == Restock || SaleExists(db', db'.movements[k].ref) {
      if db.movements[k].kind != Restock { SameSales(db, db', db.movements[k].ref); }
    }
  }

  /** A new shift starts with its cash sales in agreement with no rows at all. */
  lemma OpenStartsDrawer(db: Db, id: Id, staff: Id, opening: Amount, db': Db)
    requires DbOk(db) && Opened(db, id, staff, opening, db') && FindShift(db.shifts, id).None?
    ensures DbOk(db') && DrawerGap(db') == 0
    ensures var n := |db.shifts|;
            && |db'.shifts| == n + 1 && db'.shifts[..n] == db.shifts
            && var s := db'.shifts[n];
               s.id == id && s.staff == staff && s.isOpen && s.openedAt == |db.payments| == |db'.payments|
               && s.openingBalance == s.expectedBalance == opening && s.totalSales == s.cashSales == s.salesCount == 0
  {
    hide DbOk;
    OpenKeepsDb(db, id, staff, opening, db');
    assert ActiveShift(db'.shifts) == Some(|db.shifts|) by { assert db'.shifts[|db.shifts|].isOpen; }
    assert db'.payments[|db.payments|..] == [];
  }

  /** Closing expects the opening balance plus every signed cash row written while the shift was open, plus deposits,
      less withdrawals - off by the drawer gap, which is zero unless a refund outran the takings or handed back a split
      invoice's overpaid credit. */
  lemma CloseExpectsCashRows(db: Db, id: Id, closing: Amount, closer: Closer, db': Db)
    requires DbOk(db) && Closed(db, id, closing, closer, db')
    ensures DbOk(db')
    ensures var i := FindShift(db.shifts, id).value;
            var s := db'.shifts[i];
            && |db'.shifts| == |db.shifts|
            && (forall k :: 0 <= k < |db.shifts| && k != i ==> db'.shifts[k] == db.shifts[k])
            && s == db.shifts[i].(isOpen := false, expectedBalance := s.expectedBalance, closingBalance := closing,
                                  variance := closing - s.expectedBalance)
            && s.openedAt <= |db.payments|
            && s.expectedBalance == s.openingBalance + Sum(db.payments[s.openedAt..], CashIn()) + DrawerGap(db)
                 + Sum(db.cashMovements, Drawer(id, true)) - Sum(db.cashMovements, Drawer(id, false))
    ensures ActiveShift(db'.shifts).None? && DrawerGap(db') == 0
  {
    hide Sum;
    CloseKeepsDb(db, id, closing, closer, db');
    var i := FindShift(db.shifts, id).value;
    assert ActiveShift(db.shifts) == Some(i);
  }

  // ----- purchase orders -----

  /** The line a receipt of `product` goes to: the last one, when an order repeats a product. */
  function ReceivingLine(lines: seq<OrderLine>, product: Id): (k: Option<nat>)
    ensures k.Some? ==> k.value < |lines| && lines[k.value].product == product
    ensures k.Some? ==> forall j :: k.value < j < |lines| ==> lines[j].product != product
    ensures k.None? ==> forall j :: 0 <= j < |lines| ==> lines[j].product != product
  {
    if lines == [] then None
    else if lines[|lines| - 1].product == product then Some(|lines| - 1)
    else ReceivingLine(lines[..|lines| - 1], product)
  }

  datatype Receipt = Receipt(product: Id, qty: Milli)

  /** What a receipt says arrived of a product, counting repeats and ignoring non-positive entries. */
  ghost function Delivered(product: Id): Receipt -> int
  {
    (r: Receipt) => if r.product == product && r.qty > 0 then r.qty else 0
  }

  /** Each line receives what was delivered of its product, up to what it still lacks. */
  ghost predicate LinesReceived(lines: seq<OrderLine>, receipts: seq<Receipt>, lines': seq<OrderLine>)
  {
    && |lines'| == |lines|
    && forall k :: 0 <= k < |lines| ==> lines'[k] == lines[k].(received :=
         if ReceivingLine(lines, lines[k].product) == Some(k)
         then Min(lines[k].qty, lines[k].received + Sum(receipts, Delivered(lines[k].product)))
         else lines[k].received)
  }

  ghost function Arrived(lines: seq<OrderLine>, lines': seq<OrderLine>, product: Id): Milli
    requires |lines'| == |lines|
  {
    match ReceivingLine(lines, product)
    case None => 0
    case Some(k) => lines'[k].received - lines[k].received
  }

  /** The products and stock movements tables. */
  datatype Stockroom = Stockroom(products: map<Id, Product>, movements: seq<Movement>)

  function StockroomOf(db: Db): Stockroom { Stockroom(db.products, db.movements) }

  /** Stock rises by what arrived, recorded by restock movements of the same total. */
  ghost predicate Stocked(room: Stockroom, lines: seq<OrderLine>, lines': seq<OrderLine>, id: Id, room': Stockroom)
    requires |lines'| == |lines|
  {
    StockRaised(room.products, lines, lines', room'.products)
        && MovedIn(room.movements, lines, lines', id, room'.movements)
  }

  ghost predicate StockRaised(products: map<Id, Product>, lines: seq<OrderLine>, lines': seq<OrderLine>,
                              products': map<Id, Product>)
    requires |lines'| == |lines|
  {
    && products'.Keys == products.Keys
    && forall p :: p in products ==>
         products'[p] == products[p].(stock := products[p].stock + Arrived(lines, lines', p))
  }

  ghost predicate MovedIn(movements: seq<Movement>, lines: seq<OrderLine>, lines': seq<OrderLine>, id: Id,
                          movements': seq<Movement>)
    requires |lines'| == |lines|
  {
    && movements <= movements'
    && AllRestock(movements'[|movements|..], id)
    && forall p :: Sum(movements'[|movements|..], StockIn(p)) == Arrived(lines, lines', p)
  }

  predicate AllRestock(ms: seq<Movement>, id: Id)
  {
    forall k :: 0 <= k < |ms| ==> ms[k].kind == Restock && ms[k].ref == id
  }

  ghost predicate Full(lines: seq<OrderLine>) { forall k :: 0 <= k < |lines| ==> lines[k].received >= lines[k].qty }

  ghost predicate Begun(lines: seq<OrderLine>) { exists k :: 0 <= k < |lines| && lines[k].received > 0 }

  /** After the entries `receipts` the line of `product` is still short. */
  ghost predicate StillShort(lines: seq<OrderLine>, receipts: seq<Receipt>, product: Id)
  {
    match ReceivingLine(lines, product)
    case None => false
    case Some(k) => lines[k].received + Sum(receipts, Delivered(product)) < lines[k].qty
  }

  /** Some entry left its line short at the time, whatever later entries brought. */
  ghost predicate LeftShort(lines: seq<OrderLine>, receipts: seq<Receipt>)
  {
    receipts != [] &&
    var last := receipts[|receipts| - 1];
    LeftShort(lines, receipts[..|receipts| - 1]) || (last.qty > 0 && StillShort(lines, receipts, last.product))
  }

  /** The status a receipt leaves. */
  ghost function StatusAfter(o: Order, receipts: seq<Receipt>, lines: seq<OrderLine>): OrderStatus
  {
    if Full(lines) && !LeftShort(o.lines, receipts) then OrderReceived else if Begun(lines) then OrderPartial
        else o.status
  }

  ghost predicate CanReceive(db: Db, id: Id)
  {
    FindOrder(db.orders, id).Some? &&
    var o := db.orders[FindOrder(db.orders, id).value]; o.status != OrderReceived && o.status != OrderCancelled
  }

  ghost predicate Received(db: Db, id: Id, receipts: seq<Receipt>, db': Db)
  {
    CanReceive(db, id) &&
    var i := FindOrder(db.orders, id).value;
    var o := db.orders[i];
    i < |db'.orders| && var o' := db'.orders[i];
    && db' == db.(orders := db.orders[i := o'], products := db'.products, movements := db'.movements)
    && LinesReceived(o.lines, receipts, o'.lines)
    && o' == o.(lines := o'.lines, status := StatusAfter(o, receipts, o'.lines))
    && Stocked(StockroomOf(db), o.lines, o'.lines, id, StockroomOf(db'))
  }

  lemma DeliveredNonNegative(receipts: seq<Receipt>, p: Id)
    ensures Sum(receipts, Delivered(p)) >= 0
  {
    SumNonNegative(receipts, Delivered(p));
  }

  /** Every line stays between nothing and what was ordered, even when a receipt repeats a product, and nothing is
      un-received. */
  lemma LinesStayWithin(lines: seq<OrderLine>, receipts: seq<Receipt>, lines': seq<OrderLine>)
    requires LinesReceived(lines, receipts, lines')
    requires forall k :: 0 <= k < |lines| ==> lines[k].qty > 0 && 0 <= lines[k].received <= lines[k].qty
    ensures forall k :: 0 <= k < |lines'| ==>
              lines'[k].qty == lines[k].qty && lines[k].received <= lines'[k].received <= lines[k].qty
  {
    hide Sum;
    forall k | 0 <= k < |lines'|
      ensures lines'[k].qty == lines[k].qty && lines[k].received <= lines'[k].received <= lines[k].qty {
      DeliveredNonNegative(receipts, lines[k].product);
    }
  }

  /** Line `k` is where entries for its product go: no later line has that product. */
  ghost predicate LastOfProduct(lines: seq<OrderLine>, k: nat)
    requires k < |lines|
  {
    forall j :: k < j < |lines| ==> lines[j].product != lines[k].product
  }

  lemma LastReceives(lines: seq<OrderLine>, k: nat)
    requires k < |lines|
    ensures ReceivingLine(lines, lines[k].product) == Some(k) <==> LastOfProduct(lines, k)
  {
  }

  /** One entry brings its line what it says or what the line still lacks, whichever is less; no other line moves. */
  lemma OneEntryBrings(lines: seq<OrderLine>, r: Receipt, lines': seq<OrderLine>)
    requires LinesReceived(lines, [r], lines')
    requires forall k :: 0 <= k < |lines| ==> 0 <= lines[k].received <= lines[k].qty
    ensures |lines'| == |lines|
    ensures forall k :: 0 <= k < |lines| ==>
              if r.qty > 0 && lines[k].product == r.product && LastOfProduct(lines, k) then
                lines'[k] == lines[k].(received := if r.qty > lines[k].qty - lines[k].received then lines[k].qty
                                                   else lines[k].received + r.qty)
              else lines'[k] == lines[k]
  {
    hide Sum;
    forall k | 0 <= k < |lines|
      ensures Sum([r], Delivered(lines[k].product)) == Delivered(lines[k].product)(r)
      ensures ReceivingLine(lines, lines[k].product) == Some(k) <==> LastOfProduct(lines, k)
    {
      SumOne(r, Delivered(lines[k].product));
      LastReceives(lines, k);
    }
  }

  /** What comes in two deliveries leaves the lines as it would in one. */
  lemma DeliveriesAdd(lines: seq<OrderLine>, a: seq<Receipt>, mid: seq<OrderLine>, b: seq<Receipt>,
                      lines': seq<OrderLine>)
    requires forall k :: 0 <= k < |lines| ==> 0 <= lines[k].received <= lines[k].qty
    requires LinesReceived(lines, a, mid)
    ensures LinesReceived(mid, b, lines') <==> LinesReceived(lines, a + b, lines')
  {
    hide Sum, ReceivingLine;
    forall p ensures ReceivingLine(mid, p) == ReceivingLine(lines, p) { SameReceivingLine(lines, mid, p); }
    forall k | 0 <= k < |lines|
      ensures Sum(b, Delivered(lines[k].product)) >= 0
      ensures Sum(a + b, Delivered(lines[k].product)) ==
                Sum(a, Delivered(lines[k].product)) + Sum(b, Delivered(lines[k].product))
    {
      DeliveredNonNegative(b, lines[k].product);
      SumConcat(a, b, Delivered(lines[k].product));
    }
  }

  lemma OrderStaysOk(o: Order, receipts: seq<Receipt>, o': Order)
    requires OrderOk(o) && o.status != OrderReceived && o.status != OrderCancelled
             && LinesReceived(o.lines, receipts, o'.lines)
    requires o' == o.(lines := o'.lines, status := StatusAfter(o, receipts, o'.lines))
    ensures OrderOk(o') && o'.status != OrderCancelled
  {
    hide LinesReceived, LeftShort;
    LinesStayWithin(o.lines, receipts, o'.lines);
    LinesCount(o.lines, receipts, o'.lines);
    if o.status == OrderPartial {
      var k :| 0 <= k < |o.lines| && o.lines[k].received > 0;
      assert o'.lines[k].received > 0;
    }
  }

  /** The status says exactly how much has arrived: none, some or all. */
  ghost predicate StatusSays(o: Order)
  {
    && (o.status == OrderReceived <==> Full(o.lines))
    && (o.status == OrderPartial <==> Begun(o.lines) && !Full(o.lines))
    && (o.status == OrderPending <==> !Begun(o.lines))
  }

  /** The receipt completes the order: every line is complete already or receives what it lacks. */
  ghost predicate Completes(lines: seq<OrderLine>, receipts: seq<Receipt>)
  {
    forall k :: 0 <= k < |lines| ==> LineCompleted(lines, receipts, k)
  }

  ghost predicate LineCompleted(lines: seq<OrderLine>, receipts: seq<Receipt>, k: nat)
    requires k < |lines|
  {
    var line := lines[k];
    line.received >= line.qty
      || (ReceivingLine(lines, line.product) == Some(k)
          && line.received + Sum(receipts, Delivered(line.product)) >= line.qty)
  }

  /** Entry `j` is the receipt's first positive one for its product. */
  predicate FirstEntry(receipts: seq<Receipt>, j: nat)
    requires j < |receipts|
  {
    receipts[j].qty > 0 && forall i :: 0 <= i < j ==> receipts[i].product != receipts[j].product || receipts[i].qty <= 0
  }

  /** The first positive entry for each unfinished line covers all it lacks. */
  ghost predicate FirstEntriesCover(lines: seq<OrderLine>, receipts: seq<Receipt>)
  {
    forall j :: 0 <= j < |receipts| && FirstEntry(receipts, j) ==> EntryCovers(lines, receipts[j])
  }

  predicate EntryCovers(lines: seq<OrderLine>, r: Receipt)
  {
    match ReceivingLine(lines, r.product)
    case None => true
    case Some(k) => lines[k].received + r.qty >= lines[k].qty
  }

  lemma {:induction false} FirstEntryFor(receipts: seq<Receipt>, i: nat) returns (j: nat)
    requires i < |receipts| && receipts[i].qty > 0
    ensures j <= i && receipts[j].product == receipts[i].product && FirstEntry(receipts, j)
    decreases i
  {
    j := i;
    if e: nat :| e < i && receipts[e].product == receipts[i].product && receipts[e].qty > 0 {
      j := FirstEntryFor(receipts, e);
    }
  }

  /** Once a first entry covered its line, later entries cannot leave it short. */
  lemma CoveredStays(lines: seq<OrderLine>, receipts: seq<Receipt>, j: nat)
    requires j < |receipts| && receipts[j].qty > 0 && EntryCovers(lines, receipts[j])
    ensures !StillShort(lines, receipts, receipts[j].product)
  {
    hide Sum;
    SumBoundsRow(receipts, j, Delivered(receipts[j].product));
  }

  /** A first entry is all that arrived of its product so far. */
  lemma FirstIsAll(receipts: seq<Receipt>)
    requires receipts != [] && FirstEntry(receipts, |receipts| - 1)
    ensures var r := receipts[|receipts| - 1]; Sum(receipts, Delivered(r.product)) == r.qty
  {
    hide Sum;
    SumSingle(receipts, |receipts| - 1, Delivered(receipts[|receipts| - 1].product));
  }

  lemma CoverMore(lines: seq<OrderLine>, receipts: seq<Receipt>)
    requires receipts != []
    ensures var last := |receipts| - 1;
            FirstEntriesCover(lines, receipts) <==>
              FirstEntriesCover(lines, receipts[..last])
              && (FirstEntry(receipts, last) ==> EntryCovers(lines, receipts[last]))
  {
    hide EntryCovers;
    var last := |receipts| - 1;
    var init := receipts[..last];
    forall j | 0 <= j < last ensures init[j] == receipts[j] && (FirstEntry(init, j) <==> FirstEntry(receipts, j)) {}
    if FirstEntriesCover(lines, receipts) {
      forall j | 0 <= j < |init| && FirstEntry(init, j) ensures EntryCovers(lines, init[j]) {
        assert FirstEntry(receipts, j);
      }
    }
  }

  /** With the first entries so far covering, the last entry leaves its line short exactly when it is a first one that
      does not cover. */
  lemma ShortAtLast(lines: seq<OrderLine>, receipts: seq<Receipt>)
    requires receipts != [] && FirstEntriesCover(lines, receipts[..|receipts| - 1]) && receipts[|receipts| - 1].qty > 0
    ensures var last := |receipts| - 1;
            StillShort(lines, receipts, receipts[last].product) <==>
              FirstEntry(receipts, last) && !EntryCovers(lines, receipts[last])
  {
    hide Sum, StillShort, EntryCovers;
    var last := |receipts| - 1;
    if FirstEntry(receipts, last) {
      FirstIsAll(receipts);
      UncoveredIsShort(lines, receipts);
      if EntryCovers(lines, receipts[last]) { CoveredStays(lines, receipts, last); }
    } else {
      var i: nat :| i < last && receipts[i].product == receipts[last].product && receipts[i].qty > 0;
      var j := FirstEntryFor(receipts[..last], i);
      assert receipts[..last][j] == receipts[j];
      CoveredStays(lines, receipts, j);
    }
  }

  /** No entry left its line short exactly when the first entries cover what their lines lack. */
  lemma {:induction false} LeftShortIff(lines: seq<OrderLine>, receipts: seq<Receipt>)
    ensures LeftShort(lines, receipts) <==> !FirstEntriesCover(lines, receipts)
  {
    hide StillShort, EntryCovers, FirstEntry;
    if receipts == [] {
      NothingShort(lines);
    } else {
      var last := |receipts| - 1;
      hide FirstEntriesCover;
      LeftShortIff(lines, receipts[..last]);
      CoverMore(lines, receipts);
      if FirstEntriesCover(lines, receipts[..last]) && receipts[last].qty > 0 { ShortAtLast(lines, receipts); }
      FirstIsPositive(receipts);
    }
  }

  lemma FirstIsPositive(receipts: seq<Receipt>)
    requires receipts != []
    ensures FirstEntry(receipts, |receipts| - 1) ==> receipts[|receipts| - 1].qty > 0
  {
  }

  lemma UncoveredIsShort(lines: seq<OrderLine>, receipts: seq<Receipt>)
    requires receipts != []
    requires var r := receipts[|receipts| - 1]; Sum(receipts, Delivered(r.product)) == r.qty
    ensures !EntryCovers(lines, receipts[|receipts| - 1]) ==>
              StillShort(lines, receipts, receipts[|receipts| - 1].product)
  {
  }

  lemma CompletesIff(lines: seq<OrderLine>, receipts: seq<Receipt>, lines': seq<OrderLine>)
    requires LinesReceived(lines, receipts, lines')
    requires forall k :: 0 <= k < |lines| ==> 0 <= lines[k].received <= lines[k].qty
    ensures Full(lines') <==> Completes(lines, receipts)
  {
    hide Sum;
    forall k | 0 <= k < |lines|
      ensures lines'[k].received >= lines'[k].qty <==> LineCompleted(lines, receipts, k) {
      DeliveredNonNegative(receipts, lines[k].product);
    }
    if Full(lines') {
      forall k | 0 <= k < |lines|
        ensures LineCompleted(lines, receipts, k) { assert lines'[k].received >= lines'[k].qty; }
    }
    if Completes(lines, receipts) {
      forall k | 0 <= k < |lines'|
        ensures lines'[k].received >= lines'[k].qty { assert LineCompleted(lines, receipts, k); }
    }
  }

  /** After a receipt the status says exactly how much has arrived, unless the receipt completes the order while the
      first entry for some unfinished line does not cover all it lacked: then everything has arrived and the order stays
      partial. */
  lemma StatusSaysIff(o: Order, receipts: seq<Receipt>, o': Order)
    requires OrderOk(o) && o.status != OrderReceived && o.status != OrderCancelled
             && LinesReceived(o.lines, receipts, o'.lines)
    requires o' == o.(lines := o'.lines, status := StatusAfter(o, receipts, o'.lines))
    ensures StatusSays(o') <==> (Completes(o.lines, receipts) ==> FirstEntriesCover(o.lines, receipts))
    ensures !StatusSays(o') ==> o'.status == OrderPartial && Full(o'.lines)
  {
    hide LinesReceived, LeftShort, FirstEntriesCover, Completes;
    LinesStayWithin(o.lines, receipts, o'.lines);
    LinesCount(o.lines, receipts, o'.lines);
    CompletesIff(o.lines, receipts, o'.lines);
    LeftShortIff(o.lines, receipts);
    if o.status == OrderPartial {
      var k :| 0 <= k < |o.lines| && o.lines[k].received > 0;
      assert o'.lines[k].received > 0;
    }
    assert o'.lines[0].qty > 0;
  }

  /** A further receipt that brings nothing makes the status say what has arrived. */
  lemma EmptyReceiptSays(o: Order, o': Order)
    requires OrderOk(o) && o.status != OrderReceived && o.status != OrderCancelled
             && LinesReceived(o.lines, [], o'.lines)
    requires o' == o.(lines := o'.lines, status := StatusAfter(o, [], o'.lines))
    ensures StatusSays(o')
  {
    hide LinesReceived, StatusSays, Completes;
    StatusSaysIff(o, [], o');
  }

  lemma LinesCount(lines: seq<OrderLine>, receipts: seq<Receipt>, lines': seq<OrderLine>)
    requires LinesReceived(lines, receipts, lines')
    ensures |lines'| == |lines|
  {
  }

  lemma ReceiveKeepsDb(db: Db, id: Id, receipts: seq<Receipt>, db': Db)
    requires DbOk(db) && Received(db, id, receipts, db')
    ensures DbOk(db')
  {
    hide StoredSaleOk, SalesTableOk, ReferencesOk, OrderOk, LinesReceived, Stocked;
    var i := FindOrder(db.orders, id).value;
    OrderStaysOk(db.orders[i], receipts, db'.orders[i]);
    LinesCount(db.orders[i].lines, receipts, db'.orders[i].lines);
    StockStaysOk(db, i, receipts, db');
    SalesUnchanged(db, id, db');
  }

  lemma StockStaysOk(db: Db, i: nat, receipts: seq<Receipt>, db': Db)
    requires DbOk(db) && i < |db.orders| && i < |db'.orders|
    requires LinesReceived(db.orders[i].lines, receipts, db'.orders[i].lines)
    requires Stocked(StockroomOf(db), db.orders[i].lines, db'.orders[i].lines, db.orders[i].id, StockroomOf(db'))
    ensures forall p :: p in db'.products ==> db'.products[p].stock >= 0
    ensures db.movements <= db'.movements
    ensures AllRestock(db'.movements[|db.movements|..], db.orders[i].id)
  {
    hide Sum, LinesReceived, StoredSaleOk, Arrived;
    var lines, lines' := db.orders[i].lines, db'.orders[i].lines;
    assert OrderOk(db.orders[i]);
    LinesCount(lines, receipts, lines');
    forall p | p in db'.products ensures db'.products[p].stock >= 0 {
      ArrivedNonNegative(lines, receipts, lines', p);
    }
  }

  lemma ArrivedNonNegative(lines: seq<OrderLine>, receipts: seq<Receipt>, lines': seq<OrderLine>, p: Id)
    requires LinesReceived(lines, receipts, lines')
    requires forall k :: 0 <= k < |lines| ==> lines[k].qty > 0 && 0 <= lines[k].received <= lines[k].qty
    ensures |lines'| == |lines| && Arrived(lines, lines', p) >= 0
  {
    hide LinesReceived;
    LinesCount(lines, receipts, lines');
    LinesStayWithin(lines, receipts, lines');
  }

  lemma SalesUnchanged(db: Db, id: Id, db': Db)
    requires SalesTableOk(db) && ReferencesOk(db) && db'.sales == db.sales && db'.customers == db.customers
    requires db'.payments == db.payments && db.movements <= db'.movements
    requires AllRestock(db'.movements[|db.movements|..], id)
    ensures SalesTableOk(db') && ReferencesOk(db')
  {
    SameTables(db, db'.(movements := db.movements));
    forall i | 0 <= i < |db'.sales| ensures StoredSaleOk(db', db'.sales[i]) {
      assert StoredSaleOk(db'.(movements := db.movements), db.sales[i]);
    }
    forall k | 0 <= k < |db'.movements|
      ensures db'.movements[k].kind == Restock || SaleExists(db', db'.movements[k].ref) {
      if k < |db.movements| {
        assert db'.movements[k] == db.movements[k];
        if db.movements[k].kind != Restock { SameSales(db, db', db.movements[k].ref); }
      } else {
        assert db'.movements[k] == db'.movements[|db.movements|..][k - |db.movements|];
      }
    }
  }

  lemma ReceiveStockKept(db: Db, id: Id, receipts: seq<Receipt>, db': Db, p: Id)
    requires Received(db, id, receipts, db') && p in db.products
    ensures p in db'.products && StockGap(db', p) == StockGap(db, p)
  {
    hide Sum, LinesReceived;
    SumGrows(db.movements, db'.movements, StockIn(p));
  }

  ghost predicate CanPay(db: Db, id: Id, amount: Amount)
  {
    amount > 0 && FindOrder(db.orders, id).Some? &&
    var o := db.orders[FindOrder(db.orders, id).value]; o.status != OrderCancelled && amount <= o.total - o.paid
  }

  ghost predicate CanCancel(db: Db, id: Id)
  {
    FindOrder(db.orders, id).Some? &&
    var o := db.orders[FindOrder(db.orders, id).value]; o.status == OrderPending || o.status == OrderPartial
  }

  /** One order rewritten, everything else alone. */
  lemma OrderRewritten(db: Db, i: nat, o: Order, db': Db)
    requires DbOk(db) && i < |db.orders| && OrderOk(o) && o.id == db.orders[i].id
    requires db' == db.(orders := db.orders[i := o])
    ensures DbOk(db')
  {
    hide StoredSaleOk, SalesTableOk, ReferencesOk, OrderOk;
    SameTables(db, db');
  }

  // ----- the receiving loop -----

  /** Everything the receipts would put on an unfinished line is still in the catalogue. */
  ghost predicate Deliverable(products: map<Id, Product>, lines: seq<OrderLine>, receipts: seq<Receipt>)
  {
    forall j :: 0 <= j < |receipts| ==> ReceiptDeliverable(products, lines, receipts[j])
  }

  ghost predicate ReceiptDeliverable(products: map<Id, Product>, lines: seq<OrderLine>, r: Receipt)
  {
    r.qty > 0 && ReceivingLine(lines, r.product).Some? ==>
      var line := lines[ReceivingLine(lines, r.product).value];
      line.received < line.qty ==> r.product in products
  }

  lemma SameReceivingLine(lines: seq<OrderLine>, lines': seq<OrderLine>, p: Id)
    requires |lines'| == |lines| && forall k :: 0 <= k < |lines| ==> lines'[k].product == lines[k].product
    ensures ReceivingLine(lines', p) == ReceivingLine(lines, p)
  {
  }

  /** One more receipt that adds nothing: not positive, not ordered, or for a line already full. */
  lemma SkipReceipt(lines: seq<OrderLine>, receipts: seq<Receipt>, now: seq<OrderLine>, r: Receipt)
    requires LinesReceived(lines, receipts, now)
    requires r.qty > 0 && ReceivingLine(lines, r.product).Some? ==>
               var k := ReceivingLine(lines, r.product).value; now[k].received >= now[k].qty
    ensures LinesReceived(lines, receipts + [r], now)
  {
    hide Sum;
    forall k | 0 <= k < |lines|
      ensures Sum(receipts + [r], Delivered(lines[k].product)) == Sum(receipts, Delivered(lines[k].product))
                + Delivered(lines[k].product)(r)
    {
      SumAppend(receipts, r, Delivered(lines[k].product));
    }
  }

  /** One more receipt that fills a line up to what it lacks. */
  lemma TakeReceipt(lines: seq<OrderLine>, receipts: seq<Receipt>, now: seq<OrderLine>, r: Receipt, k: nat)
    requires LinesReceived(lines, receipts, now) && r.qty > 0 && ReceivingLine(lines, r.product) == Some(k)
    requires now[k].received < now[k].qty
    ensures LinesReceived(lines, receipts + [r], More(now, k, Min(r.qty, now[k].qty - now[k].received)))
  {
    hide Sum;
    forall j | 0 <= j < |lines|
      ensures Sum(receipts + [r], Delivered(lines[j].product)) == Sum(receipts, Delivered(lines[j].product))
                + Delivered(lines[j].product)(r)
    {
      SumAppend(receipts, r, Delivered(lines[j].product));
    }
  }

  /** Whether one more entry, once taken or skipped, left its line short. */
  lemma LeftShortMore(lines: seq<OrderLine>, receipts: seq<Receipt>, now: seq<OrderLine>, r: Receipt)
    requires LinesReceived(lines, receipts + [r], now)
    requires forall k :: 0 <= k < |lines| ==> 0 <= lines[k].received <= lines[k].qty
    ensures |now| == |lines|
    ensures LeftShort(lines, receipts + [r]) <==>
              LeftShort(lines, receipts)
              || (r.qty > 0 && ReceivingLine(lines, r.product).Some?
                  && var k := ReceivingLine(lines, r.product).value; now[k].received < now[k].qty)
  {
    hide Sum;
    assert (receipts + [r])[..|receipts|] == receipts;
  }

  /** The line after `qty` more of it arrived. */
  function More(now: seq<OrderLine>, k: nat, qty: Milli): seq<OrderLine>
    requires k < |now|
  {
    now[k := now[k].(received := now[k].received + qty)]
  }

  lemma StockMore(products: map<Id, Product>, lines: seq<OrderLine>, now: seq<OrderLine>, before: map<Id, Product>,
                  k: nat, qty: Milli, after: map<Id, Product>)
    requires |now| == |lines| && StockRaised(products, lines, now, before)
    requires k < |lines| && lines[k].product in before && ReceivingLine(lines, lines[k].product) == Some(k)
    requires after == before[lines[k].product :=
             before[lines[k].product].(stock := before[lines[k].product].stock + qty)]
    ensures StockRaised(products, lines, More(now, k, qty), after)
  {
    hide Arrived;
    forall p | p in products
      ensures after[p] == products[p].(stock := products[p].stock + Arrived(lines, More(now, k, qty), p)) {
      ArrivedMore(lines, now, k, qty, p);
    }
  }

  lemma MovedMore(movements: seq<Movement>, lines: seq<OrderLine>, now: seq<OrderLine>, id: Id, before: seq<Movement>,
                  k: nat, qty: Milli)
    requires |now| == |lines| && MovedIn(movements, lines, now, id, before)
    requires k < |lines| && ReceivingLine(lines, lines[k].product) == Some(k)
    ensures MovedIn(movements, lines, More(now, k, qty), id, before + [Movement(lines[k].product, Restock, qty, id)])
  {
    hide Sum, Arrived;
    var m := Movement(lines[k].product, Restock, qty, id);
    assert (before + [m])[|movements|..] == before[|movements|..] + [m];
    forall p ensures Sum(before[|movements|..] + [m], StockIn(p)) == Arrived(lines, More(now, k, qty), p) {
      ArrivedMore(lines, now, k, qty, p);
      SumAppend(before[|movements|..], m, StockIn(p));
    }
  }

  lemma ArrivedMore(lines: seq<OrderLine>, now: seq<OrderLine>, k: nat, qty: Milli, p: Id)
    requires |now| == |lines| && k < |lines| && ReceivingLine(lines, lines[k].product) == Some(k)
    ensures Arrived(lines, More(now, k, qty), p)
              == Arrived(lines, now, p) + (if p == lines[k].product then qty else 0)
  {
  }

  lemma NothingStocked(room: Stockroom, lines: seq<OrderLine>, id: Id)
    requires forall k :: 0 <= k < |lines| ==> lines[k].received <= lines[k].qty
    ensures LinesReceived(lines, [], lines) && StockRaised(room.products, lines, lines, room.products)
    ensures MovedIn(room.movements, lines, lines, id, room.movements)
  {
    assert room.movements[|room.movements|..] == [];
  }

  lemma NothingShort(lines: seq<OrderLine>)
    ensures !LeftShort(lines, [])
  {
  }

  /** A line whose product is gone has received nothing so far, so the first receipt for it fails the whole delivery. */
  lemma GoneLineUntouched(products: map<Id, Product>, lines: seq<OrderLine>, receipts: seq<Receipt>,
                          now: seq<OrderLine>, k: nat)
    requires LinesReceived(lines, receipts, now) && Deliverable(products, lines, receipts)
    requires k < |lines| && ReceivingLine(lines, lines[k].product) == Some(k) && lines[k].product !in products
    requires 0 <= lines[k].received < lines[k].qty
    ensures now[k].received == lines[k].received
  {
    forall j | 0 <= j < |receipts| ensures Delivered(lines[k].product)(receipts[j]) == 0 {
      assert ReceiptDeliverable(products, lines, receipts[j]);
    }
    SumZero(receipts, Delivered(lines[k].product));
  }

  lemma LinesKeepProducts(lines: seq<OrderLine>, receipts: seq<Receipt>, now: seq<OrderLine>)
    requires LinesReceived(lines, receipts, now)
    ensures |now| == |lines| && forall k :: 0 <= k < |lines| ==> now[k].product == lines[k].product
  {
  }

  lemma RaisedStock(products: map<Id, Product>, lines: seq<OrderLine>, now: seq<OrderLine>, after: map<Id, Product>)
    requires |now| == |lines| && StockRaised(products, lines, now, after)
    ensures after.Keys == products.Keys
    ensures forall p :: p in products ==> after[p].stock == products[p].stock + Arrived(lines, now, p)
  {
  }

  // ----- a new order -----

  ghost function LineCost(): OrderLine -> int { (line: OrderLine) => MulQty(line.unitCost, line.qty) }

  function FreshLines(lines: seq<OrderLine>): (blank: seq<OrderLine>)
    ensures |blank| == |lines|
    ensures forall k :: 0 <= k < |lines| ==>
              blank[k] == lines[k].(received := 0, total := MulQty(lines[k].unitCost, lines[k].qty))
  {
    seq(|lines|, k requires 0 <= k < |lines| =>
      lines[k].(received := 0, total := MulQty(lines[k].unitCost, lines[k].qty)))
  }

  ghost function NewOrder(id: Id, supplier: Id, lines: seq<OrderLine>): Order
  {
    Order(id, supplier, OrderPending, Sum(lines, LineCost()), 0, FreshLines(lines))
  }

  ghost function LineTotal(): OrderLine -> int { (line: OrderLine) => line.total }

  /** Nothing received, and each line at its unit cost times its quantity, to the nearest cent. */
  ghost predicate PricedFresh(asked: seq<OrderLine>, lines: seq<OrderLine>)
  {
    |lines| == |asked| && forall k :: 0 <= k < |lines| ==>
      && lines[k] == asked[k].(received := 0, total := lines[k].total)
      && Nearest(lines[k].unitCost * lines[k].qty, 1000, lines[k].total)
  }

  lemma FreshLinesAre(asked: seq<OrderLine>, lines: seq<OrderLine>)
    ensures lines == FreshLines(asked) <==> PricedFresh(asked, lines)
  {
    hide MulQty, Nearest;
    forall k | 0 <= k < |asked|
      ensures Nearest(asked[k].unitCost * asked[k].qty, 1000, MulQty(asked[k].unitCost, asked[k].qty)) {
      MulQtyIsNearest(asked[k].unitCost, asked[k].qty);
    }
    if PricedFresh(asked, lines) {
      forall k | 0 <= k < |asked| ensures lines[k] == FreshLines(asked)[k] {
        NearestOnce(asked[k].unitCost * asked[k].qty, 1000, lines[k].total, MulQty(asked[k].unitCost, asked[k].qty));
      }
    }
  }

  /** A new order is the lines asked for so priced, and owes what they cost together. */
  lemma NewOrderIff(id: Id, supplier: Id, asked: seq<OrderLine>, o: Order)
    ensures o == NewOrder(id, supplier, asked) <==>
              && o.id == id && o.supplier == supplier && o.status == OrderPending && o.paid == 0
              && PricedFresh(asked, o.lines) && o.total == Sum(o.lines, LineTotal())
  {
    hide Sum, MulQty, PricedFresh;
    FreshLinesAre(asked, o.lines);
    SumSame(FreshLines(asked), LineTotal(), asked, LineCost());
  }

  lemma OrderAddedKeepsDb(db: Db, id: Id, supplier: Id, lines: seq<OrderLine>, db': Db)
    requires DbOk(db) && db' == db.(orders := db.orders + [NewOrder(id, supplier, lines)])
             && FindOrder(db.orders, id).None?
    requires lines != [] && forall k :: 0 <= k < |lines| ==> lines[k].qty > 0 && lines[k].unitCost > 0
    ensures DbOk(db')
  {
    hide StoredSaleOk, ReferencesOk, MulQty, Sum;
    forall k | 0 <= k < |lines| ensures LineCost()(lines[k]) >= 0 {
      CostNonNegative(lines[k]);
    }
    SumNonNegative(lines, LineCost());
    assert OrderOk(NewOrder(id, supplier, lines));
    SameTables(db, db');
  }

  lemma CostNonNegative(line: OrderLine)
    requires line.qty > 0 && line.unitCost > 0
    ensures LineCost()(line) >= 0
  {
    Mono(line.unitCost, 0, line.qty);
  }
}

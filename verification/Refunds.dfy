/** The arithmetic of a partial return on one invoice: proportional floors of floors
    (ReturnSalePartial, internal/service/sale_service.go). */
module Refunds {
  import opened Money
  import opened Domain
  import opened Sums

  /** GetSaleItem: the first line of the invoice with this product. */
  function FirstLine(lines: seq<Line>, product: Id): (li: Option<nat>)
    ensures li.Some? ==> li.value < |lines| && lines[li.value].product == product
    ensures li.Some? ==> forall k :: 0 <= k < li.value ==> lines[k].product != product
    ensures li.None? ==> forall k :: 0 <= k < |lines| ==> lines[k].product != product
  {
    if lines == [] then None
    else if lines[0].product == product then Some(0)
    else match FirstLine(lines[1..], product)
      case None => None
      case Some(k) => Some(k + 1)
  }

  function Clamp(n: int, hi: int): int
  {
    if n < 0 then 0 else if n > hi then hi else n
  }

  /** Value of what is left of a line of which `returned` has come back. */
  function LineRest(line: Line, returned: Milli): Amount
  {
    if line.qty <= 0 then 0 else Quo(line.total * Clamp(line.qty - returned, line.qty), line.qty)
  }

  /** Every line of the returned product is valued with the returned quantity of its first line. */
  ghost function RestOf(product: Id, returned: Milli): Line -> int
  {
    (line: Line) => LineRest(line, if line.product == product then returned else line.returned)
  }

  /** The invoice's remaining value before the return of `product`: the denominator of the refund. */
  ghost function RestOfInvoice(lines: seq<Line>, product: Id, returned: Milli): Amount
  {
    Sum(lines, RestOf(product, returned))
  }

  predicate AllReturned(lines: seq<Line>)
  {
    forall k :: 0 <= k < |lines| ==> lines[k].returned >= lines[k].qty
  }

  datatype Refunded = Refunded(sale: Sale, amount: Amount)

  /** The sale row after `qty` of line `li` came back for `amount`. */
  function Settle(sale: Sale, li: nat, qty: Milli, amount: Amount): Sale
    requires li < |sale.lines|
  {
    var line := sale.lines[li];
    var lines := sale.lines[li := line.(returned := line.returned + qty)];
    var gross := MulQty(line.price, qty);
    var subtotal := if sale.subtotal >= gross then sale.subtotal - gross else 0;
    var refundVat := if sale.total > 0 && sale.vat > 0 then Quo(sale.vat * amount, sale.total) else 0;
    sale.(lines := lines,
          status := if AllReturned(lines) then Returned else PartiallyReturned,
          subtotal := if subtotal < 0 then 0 else subtotal,
          total := if sale.total - amount < 0 then 0 else sale.total - amount,
          vat := if sale.vat - refundVat < 0 then 0 else sale.vat - refundVat)
  }

  /** What one partial return does to the invoice, or why it is refused. */
  ghost function ReturnPart(sale: Sale, product: Id, qty: Milli): Result<Refunded>
  {
    match FirstLine(sale.lines, product)
    case None => Err(ItemNotFound)
    case Some(li) =>
      var line := sale.lines[li];
      if qty <= 0 then Err(InvalidQuantity)
      else if qty > line.qty - line.returned then Err(ExceedsRemaining)
      else if line.qty == 0 then Err(InvalidQuantity)
      else
        var share := Quo(line.total * qty, line.qty);
        var rest := RestOfInvoice(sale.lines, product, line.returned);
        if rest == 0 then Err(NothingLeft)
        else
          var raw := Quo(sale.total * share, rest);
          var amount := if raw > sale.total then sale.total else raw;
          if amount <= 0 then Err(InvalidRefund) else Ok(Refunded(Settle(sale, li, qty, amount), amount))
  }

  predicate LineOk(line: Line)
  {
    line.qty > 0 && line.total >= 0 && 0 <= line.returned <= line.qty
  }

  /** Invariant of every stored invoice. The last clause: goods only ever come back on the first line of their
      product. */
  ghost predicate SaleOk(sale: Sale)
  {
    && sale.lines != []
    && (forall k :: 0 <= k < |sale.lines| ==> LineOk(sale.lines[k]))
    && 0 <= sale.vat <= sale.total
    && 0 <= sale.subtotal
    && (forall j, k :: 0 <= j < k < |sale.lines| && sale.lines[j].product == sale.lines[k].product ==>
         sale.lines[k].returned == 0)
  }

  lemma RestNonNegative(lines: seq<Line>, product: Id, returned: Milli)
    requires forall k :: 0 <= k < |lines| ==> LineOk(lines[k])
    ensures forall k :: 0 <= k < |lines| ==> 0 <= RestOf(product, returned)(lines[k])
  {
    forall k | 0 <= k < |lines| ensures 0 <= RestOf(product, returned)(lines[k]) {
      var line := lines[k];
      var left := Clamp(line.qty - (if line.product == product then returned else line.returned), line.qty);
      FloorShare(line.total, left, line.qty);
    }
  }

  lemma SmallerShare(total: Amount, part: Milli, left: Milli, of: Milli)
    requires total >= 0 && 0 <= part <= left && of > 0
    ensures 0 <= Quo(total * part, of) <= Quo(total * left, of)
  {
    Mono(total, 0, part);
    Mono(total, part, left);
    var q := total * left / of;
    assert total * left == of * q + total * left % of;
    DivAtLeast(total * part, of, 0);
    DivAtMost(total * part, of, q);
  }

  /** The returned share never exceeds the remaining value, whatever the floors dropped, even when lines repeat a
      product. */
  lemma ShareWithinRest(sale: Sale, li: nat, qty: Milli)
    requires SaleOk(sale) && li < |sale.lines|
    requires 0 < qty <= sale.lines[li].qty - sale.lines[li].returned
    ensures var line := sale.lines[li];
            0 <= Quo(line.total * qty, line.qty) <= LineRest(line, line.returned)
              <= RestOfInvoice(sale.lines, line.product, line.returned)
  {
    hide Quo;
    var line := sale.lines[li];
    SmallerShare(line.total, qty, line.qty - line.returned, line.qty);
    RestNonNegative(sale.lines, line.product, line.returned);
    SumBoundsRow(sale.lines, li, RestOf(line.product, line.returned));
  }

  /** VAT is refunded in proportion and stays within the total. */
  lemma VatWithinTotal(vat: Amount, total: Amount, amount: Amount)
    requires 0 < vat <= total && 0 <= amount <= total
    ensures 0 <= Quo(vat * amount, total) <= vat
    ensures vat - Quo(vat * amount, total) <= total - amount
  {
    FloorShare(vat, amount, total);
    var rest := total - amount;
    Mono(rest, vat, total);
    assert vat * amount == total * vat - rest * vat;
    assert rest * total == total * rest;
    DivAtLeast(vat * amount, total, vat - rest);
  }

  lemma SettleKeepsLines(sale: Sale, li: nat, qty: Milli, amount: Amount)
    requires SaleOk(sale) && li < |sale.lines|
    requires FirstLine(sale.lines, sale.lines[li].product) == Some(li)
    requires 0 < qty <= sale.lines[li].qty - sale.lines[li].returned
    ensures var lines := Settle(sale, li, qty, amount).lines;
            && lines == sale.lines[li := sale.lines[li].(returned := sale.lines[li].returned + qty)]
            && (forall k :: 0 <= k < |lines| ==> LineOk(lines[k]))
            && (forall j, k :: 0 <= j < k < |lines| && lines[j].product == lines[k].product ==> lines[k].returned == 0)
  {
    var lines := Settle(sale, li, qty, amount).lines;
    forall j, k | 0 <= j < k < |lines| && lines[j].product == lines[k].product ensures lines[k].returned == 0 {
      assert lines[j].product == sale.lines[j].product && lines[k].product == sale.lines[k].product;
    }
  }

  /** The VAT left is its proportional part of the total left, above it by less than a cent. */
  lemma VatLeft(sale: Sale, li: nat, qty: Milli, amount: Amount)
    requires li < |sale.lines| && 0 <= sale.vat <= sale.total && 0 < amount <= sale.total
    ensures var s := Settle(sale, li, qty, amount);
            0 <= s.vat * sale.total - sale.vat * s.total < sale.total
  {
    var s := Settle(sale, li, qty, amount);
    assert s.total == sale.total - amount;
    if sale.vat > 0 {
      VatWithinTotal(sale.vat, sale.total, amount);
      VatRemainder(sale.vat, sale.total, amount);
    }
  }

  lemma VatRemainder(vat: Amount, total: Amount, amount: Amount)
    requires 0 < vat <= total && 0 <= amount <= total
    ensures 0 <= (vat - Quo(vat * amount, total)) * total - vat * (total - amount) < total
  {
    Mono(vat, 0, amount);
    var q := vat * amount / total;
    assert vat * amount == total * q + vat * amount % total;
    assert (vat - q) * total == vat * total - total * q;
    assert vat * (total - amount) == vat * total - vat * amount;
  }

  lemma SettleKeepsMoney(sale: Sale, li: nat, qty: Milli, amount: Amount)
    requires li < |sale.lines| && 0 <= sale.vat <= sale.total && 0 <= sale.subtotal
    requires 0 < amount <= sale.total
    ensures var s := Settle(sale, li, qty, amount);
            s.total == sale.total - amount && 0 <= s.vat <= s.total && s.vat <= sale.vat && 0 <= s.subtotal
  {
    if sale.vat > 0 {
      VatWithinTotal(sale.vat, sale.total, amount);
    }
  }

  /** One successful partial return: the refund is in (0, Total] with neither clamp firing, the invoice stays well
      formed, and Total reaches zero exactly when the share is all the value left - in particular with the last
      quantity. */
  lemma PartialReturnStep(sale: Sale, product: Id, qty: Milli)
    requires SaleOk(sale) && ReturnPart(sale, product, qty).Ok?
    ensures var r := ReturnPart(sale, product, qty).value;
            var li := FirstLine(sale.lines, product).value;
            var line := sale.lines[li];
            var share, rest := Quo(line.total * qty, line.qty), RestOfInvoice(sale.lines, product, line.returned);
            && SaleOk(r.sale)
            && 0 < r.amount <= sale.total && rest != 0 && r.amount == Quo(sale.total * share, rest)
            && r.sale.total == sale.total - r.amount
            && 0 <= r.sale.vat <= sale.vat
            && 0 <= r.sale.vat * sale.total - sale.vat * r.sale.total < sale.total
            && (r.sale.total == 0 <==> share == rest)
            && (AllReturned(r.sale.lines) ==> r.sale.total == 0 && r.sale.vat == 0)
            && (r.sale.status == Returned <==> AllReturned(r.sale.lines))
            && r.sale.lines == sale.lines[li := line.(returned := line.returned + qty)]
  {
    var r := ReturnPart(sale, product, qty).value;
    var li := FirstLine(sale.lines, product).value;
    var line := sale.lines[li];
    var share, rest := Quo(line.total * qty, line.qty), RestOfInvoice(sale.lines, product, line.returned);
    ShareWithinRest(sale, li, qty);
    FloorShare(sale.total, share, rest);
    SettleKeepsLines(sale, li, qty, r.amount);
    SettleKeepsMoney(sale, li, qty, r.amount);
    VatLeft(sale, li, qty, r.amount);
    if AllReturned(r.sale.lines) {
      OthersReturned(sale, r.sale.lines, li, qty);
      LastShareIsAll(sale, li, qty);
    }
  }

  /** Besides lines, total and VAT a partial return changes the status, which then says how much came back, and takes
      the price of the returned goods, to the nearest cent and at most all there is, off the subtotal. */
  lemma PartialReturnLeaves(sale: Sale, product: Id, qty: Milli, gross: Amount)
    requires SaleOk(sale) && ReturnPart(sale, product, qty).Ok?
    requires Nearest(sale.lines[FirstLine(sale.lines, product).value].price * qty, 1000, gross)
    ensures var s := ReturnPart(sale, product, qty).value.sale;
            && s == sale.(lines := s.lines, status := s.status, subtotal := s.subtotal, total := s.total, vat := s.vat)
            && s.status == (if forall k :: 0 <= k < |s.lines| ==> s.lines[k].returned == s.lines[k].qty then Returned
                            else PartiallyReturned)
            && s.subtotal == if sale.subtotal < gross then 0 else sale.subtotal - gross
  {
    hide Quo, RestOfInvoice, MulQty, Nearest;
    var line := sale.lines[FirstLine(sale.lines, product).value];
    MulQtyIsNearest(line.price, qty);
    NearestOnce(line.price * qty, 1000, gross, MulQty(line.price, qty));
    PartialReturnStep(sale, product, qty);
    var s := ReturnPart(sale, product, qty).value.sale;
    forall k | 0 <= k < |s.lines| ensures 0 <= s.lines[k].returned <= s.lines[k].qty { assert LineOk(s.lines[k]); }
  }

  /** Value left of a line: what is still out of its total, rounded down. */
  lemma LineRestIs(line: Line, returned: Milli)
    requires LineOk(line) && 0 <= returned <= line.qty
    ensures 0 <= line.total * (line.qty - returned) - LineRest(line, returned) * line.qty < line.qty
  {
    var n := line.total * (line.qty - returned);
    Mono(line.total, 0, line.qty - returned);
    assert n == line.qty * (n / line.qty) + n % line.qty;
  }

  lemma OthersReturned(sale: Sale, lines: seq<Line>, li: nat, qty: Milli)
    requires SaleOk(sale) && li < |sale.lines| && qty <= sale.lines[li].qty - sale.lines[li].returned
    requires lines == sale.lines[li := sale.lines[li].(returned := sale.lines[li].returned + qty)]
    requires AllReturned(lines)
    ensures qty == sale.lines[li].qty - sale.lines[li].returned
    ensures forall k :: 0 <= k < |sale.lines| && k != li ==> sale.lines[k].returned >= sale.lines[k].qty
  {
    assert lines[li].returned >= lines[li].qty;
    forall k | 0 <= k < |sale.lines| && k != li ensures sale.lines[k].returned >= sale.lines[k].qty {
      assert lines[k] == sale.lines[k];
    }
  }

  lemma LastShareIsAll(sale: Sale, li: nat, qty: Milli)
    requires SaleOk(sale) && li < |sale.lines|
    requires FirstLine(sale.lines, sale.lines[li].product) == Some(li)
    requires qty == sale.lines[li].qty - sale.lines[li].returned
    requires forall k :: 0 <= k < |sale.lines| && k != li ==> sale.lines[k].returned >= sale.lines[k].qty
    ensures var line := sale.lines[li];
            RestOfInvoice(sale.lines, line.product, line.returned) == Quo(line.total * qty, line.qty)
  {
    var line := sale.lines[li];
    var f := RestOf(line.product, line.returned);
    forall k | 0 <= k < |sale.lines| && k != li ensures f(sale.lines[k]) == 0 {
      assert sale.lines[k].product != line.product;
    }
    SumSingle(sale.lines, li, f);
  }

  /** A run of partial returns, all of which succeed. */
  datatype Settlement = Settlement(sale: Sale, refunds: seq<Amount>)

  ghost function RunParts(sale: Sale, requests: seq<(Id, Milli)>): Option<Settlement>
  {
    if requests == [] then Some(Settlement(sale, []))
    else
      var last := |requests| - 1;
      match RunParts(sale, requests[..last])
      case None => None
      case Some(run) =>
        match ReturnPart(run.sale, requests[last].0, requests[last].1)
        case Err(_) => None
        case Ok(r) => Some(Settlement(r.sale, run.refunds + [r.amount]))
  }

  ghost function Cents(): Amount -> int { a => a }

  ghost predicate Untouched(sale: Sale)
  {
    forall k :: 0 <= k < |sale.lines| ==> sale.lines[k].returned == 0
  }

  /** Every run of partial returns on an invoice not completely back conserves money, and a run that brings the last
      quantity back has paid out exactly the total there was, VAT included, despite every floor. */
  lemma {:induction false} PartialReturnsSettle(sale: Sale, requests: seq<(Id, Milli)>)
    requires SaleOk(sale) && !AllReturned(sale.lines)
    requires RunParts(sale, requests).Some?
    ensures var run := RunParts(sale, requests).value;
            && SaleOk(run.sale)
            && Sum(run.refunds, Cents()) + run.sale.total == sale.total
            && (forall k :: 0 <= k < |run.refunds| ==> 0 < run.refunds[k] <= sale.total)
            && |run.refunds| == |requests|
            && (AllReturned(run.sale.lines) ==>
                 run.sale.total == 0 && run.sale.vat == 0 && Sum(run.refunds, Cents()) == sale.total)
            && (requests != [] ==> (run.sale.status == Returned <==> AllReturned(run.sale.lines)))
  {
    if requests != [] {
      var last := |requests| - 1;
      PartialReturnsSettle(sale, requests[..last]);
      var run := RunParts(sale, requests[..last]).value;
      PartialReturnStep(run.sale, requests[last].0, requests[last].1);
      SumAppend(run.refunds, ReturnPart(run.sale, requests[last].0, requests[last].1).value.amount, Cents());
      SumNonNegative(run.refunds, Cents());
    }
  }

  /** Once partial returns have brought everything back, no further partial return succeeds. */
  lemma NothingMoreToReturn(sale: Sale, product: Id, qty: Milli)
    requires AllReturned(sale.lines)
    ensures ReturnPart(sale, product, qty).Err?
  {
  }

  /** A partial return succeeds exactly when it asks for a positive quantity still out of a line of the invoice,
      something of value is left, and the floors leave the returned share at least a cent of the total. */
  lemma ReturnPartOkIff(sale: Sale, product: Id, qty: Milli)
    requires SaleOk(sale)
    ensures ReturnPart(sale, product, qty).Ok? <==>
              match FirstLine(sale.lines, product)
              case None => false
              case Some(li) =>
                var line := sale.lines[li];
                && 0 < qty <= line.qty - line.returned
                && var rest := RestOfInvoice(sale.lines, product, line.returned);
                   0 < rest <= sale.total * (line.total * qty / line.qty)
  {
    hide Sum;
    match FirstLine(sale.lines, product)
    case None =>
    case Some(li) =>
      var line := sale.lines[li];
      if 0 < qty <= line.qty - line.returned {
        ShareWithinRest(sale, li, qty);
        var rest := RestOfInvoice(sale.lines, product, line.returned);
        Mono(line.total, 0, qty);
        var share := line.total * qty / line.qty;
        if rest > 0 { AtLeastOne(sale.total * share, rest, sale.total, share); }
      }
  }

  lemma AtLeastOne(n: int, rest: int, total: int, share: int)
    requires n == total * share && total >= 0 && share >= 0 && rest > 0
    ensures Quo(n, rest) >= 1 <==> rest <= n
    ensures n >= rest ==> total >= 1
  {
    Mono(total, 0, share);
    if rest <= n { DivAtLeast(n, rest, 1); } else { DivAtMost(n, rest, 0); }
  }

  /** A partial return can be refused while both goods and money remain: the floors may value the last quarter unit at
      nothing. (A full return still refunds the remaining total.) */
  lemma LastQuarterCanBeRefused()
    ensures var line := Line(Id("p"), 3, 1000, 0, 3, 0);
            var sale := Sale(Id("s"), NoId, [line], 3, 0, 0, 3, Cash, Completed, None, None, 0);
            var first := ReturnPart(sale, Id("p"), 750);
            && SaleOk(sale) && first.Ok? && first.value.amount == 2 && first.value.sale.total == 1
            && ReturnPart(first.value.sale, Id("p"), 250) == Err(NothingLeft)
  {
    var line := Line(Id("p"), 3, 1000, 0, 3, 0);
    var sale := Sale(Id("s"), NoId, [line], 3, 0, 0, 3, Cash, Completed, None, None, 0);
    SumSingle(sale.lines, 0, RestOf(Id("p"), 0));
    assert RestOfInvoice(sale.lines, Id("p"), 0) == 3;
    var after := Settle(sale, 0, 750, 2);
    assert ReturnPart(sale, Id("p"), 750) == Ok(Refunded(after, 2));
    assert after.lines[0].returned == 750 && |after.lines| == 1;
    SumSingle(after.lines, 0, RestOf(Id("p"), 750));
    assert RestOfInvoice(after.lines, Id("p"), 750) == 0;
  }
}

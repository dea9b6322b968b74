/** Table rows of the point of sale (internal/core/domain/models.go), reduced to what the ledger reads or writes. */
module Domain {
  import opened Money

  /** Primary keys; `NoId` is Go's empty string: no customer, no sale. */
  datatype Id = NoId | Id(key: string)

  /** Payment methods, also the keys of a split. Any other string is accepted by the source and carried in `Other`. */
  datatype PayMethod = Cash | Card | Credit | Installments | Split | Other(name: string)

  datatype Option<+T> = None | Some(value: T)

  datatype Error =
    | EmptyCart | NoPermission | CustomerRequired | InvalidQuantity | InvalidDiscount | ProductNotFound
    | InsufficientStock | PriceMismatch | InvalidPlan | DuplicateId | CustomerNotFound | InvalidSplit
    | NoOpenShift | SaleNotFound | ItemNotFound | AlreadyReturned | ExceedsRemaining | NothingLeft
    | InvalidRefund | InvalidAmount | ExceedsDebt | SaleIsReturned | UsePayInstallment | NoPlan | InvalidIndex
    | AlreadyPaid | ExactAmountRequired | ShiftAlreadyOpen | ShiftNotFound | ShiftIsClosed | NotYourShift
    | InvalidMovement | OrderNotFound | OrderIsReceived | OrderIsCancelled | OrderNotCancellable | FullyPaid
    | ExceedsBalance | SupplierRequired | InvalidCost

  datatype Result<+T> = Ok(value: T) | Err(error: Error)

  datatype Status = Pending | Completed | Paid | PartiallyReturned | Returned

  /** `discount` is the line discount; `total` is price x qty less that discount. */
  datatype Line = Line(product: Id, price: Amount, qty: Milli, discount: Amount, total: Amount, returned: Milli)

  datatype Installment = Installment(number: int, dueDay: Option<int>, amount: Amount, paid: bool)

  /** `schedule` is None for Go's nil slice. */
  datatype Plan = Plan(downPayment: Amount, schedule: Option<seq<Installment>>)

  datatype Sale = Sale(
    id: Id, customer: Id, lines: seq<Line>,
    subtotal: Amount, discount: Amount, vat: Amount, total: Amount,
    payMethod: PayMethod, status: Status,
    split: Option<map<PayMethod, Amount>>, plan: Option<Plan>, points: int)

  datatype Customer = Customer(debt: Amount, installmentDebt: Amount, totalPurchases: Amount, points: int)

  /** What a payment row was written for; the source records it as the row's note. */
  datatype Note = SaleRow | SplitRow | DownPaymentRow | PartialReturnRow | RefundRow | SplitRefundRow
                | InstallmentRefundRow | OverpaidCreditRow | InstallmentRow(index: nat) | UserRow

  datatype Payment = Payment(sale: Id, customer: Id, amount: Amount, payMethod: PayMethod, note: Note)

  datatype MovementKind = SaleOut | ReturnIn | PartialReturnIn | Restock

  /** `ref` is the document named in the movement's reason: a sale or a purchase order. */
  datatype Movement = Movement(product: Id, kind: MovementKind, qty: Milli, ref: Id)

  datatype Product = Product(price: Amount, wholesalePrice: Amount, stock: Milli)

  /** `openedAt` stands for OpenTime: how many payment rows had been written when the shift was opened. */
  datatype Shift = Shift(
    id: Id, staff: Id, isOpen: bool, openedAt: nat, openingBalance: Amount, expectedBalance: Amount,
    totalSales: Amount, cashSales: Amount, salesCount: int, closingBalance: Amount, variance: Amount)

  datatype CashMovement = CashMovement(shift: Id, isIn: bool, amount: Amount)

  datatype OrderStatus = OrderPending | OrderPartial | OrderReceived | OrderCancelled

  datatype OrderLine = OrderLine(product: Id, qty: Milli, received: Milli, unitCost: Amount, total: Amount)

  datatype Order = Order(id: Id, supplier: Id, status: OrderStatus, total: Amount, paid: Amount, lines: seq<OrderLine>)
}

/**
 * The records the yard manager stores (types.ts).
 *
 * Every persisted record carries an opaque string id next to the fields
 * the user supplies; `Stored<T>` pairs the two, so that `T` is exactly the
 * record "without its id" that the repository's save operations accept.
 */
module Types {
  import opened Wrappers

  type Id = string

  /** A record as it sits in a collection: its id and its fields. */
  datatype Stored<T> = Stored(id: Id, data: T)

  /** A record offered for saving; `id` is the optional id of the record to update. */
  datatype Draft<T> = Draft(id: Option<Id>, data: T)

  /** The two kinds of transaction; the persisted value is the Portuguese label. */
  datatype TransactionType = Buy | Sell {
    function Label(): string {
      match this
      case Buy => "Compra"
      case Sell => "Venda"
    }
  }

  /** Reads a persisted transaction type back from its label. */
  function TypeFromLabel(s: string): (r: Option<TransactionType>)
    ensures r.Some? <==> s == "Compra" || s == "Venda"
    ensures r.Some? ==> r.value.Label() == s
  {
    if s == "Compra" then Some(Buy) else if s == "Venda" then Some(Sell) else None
  }

  /** Whether a material may be bought, sold, or both. */
  datatype Availability = Both | SellOnly | BuyOnly {
    /** The yard buys the material unless it is sell-only. */
    predicate CanBuy() { this != SellOnly }
    /** The yard sells the material unless it is buy-only. */
    predicate CanSell() { this != BuyOnly }
  }

  /**
   * Every material is bought, sold or both: exactly the sell-only ones are
   * not bought, exactly the buy-only ones are not sold, and only `Both`
   * materials are both bought and sold.
   */
  lemma AvailabilityFlags(a: Availability)
    ensures !a.CanBuy() <==> a == SellOnly
    ensures !a.CanSell() <==> a == BuyOnly
    ensures a.CanBuy() || a.CanSell()
    ensures a.CanBuy() && a.CanSell() <==> a == Both
  {
  }

  datatype MaterialData = MaterialData(
    name: string,
    category: string,
    buyPrice: real,
    sellPrice: real,
    availability: Availability)

  type Material = Stored<MaterialData>

  /** One line of a transaction: a snapshot of the material's name and price. */
  datatype TransactionItem = TransactionItem(
    materialName: string,
    weight: real,
    unitPrice: real,
    total: real)

  /** `date` is an instant in local-time milliseconds. */
  datatype TransactionData = TransactionData(
    kind: TransactionType,
    personName: string,
    items: seq<TransactionItem>,
    total: real,
    date: int)

  type Transaction = Stored<TransactionData>

  datatype EmployeeData = EmployeeData(name: string, dailyRate: real, active: bool)

  type Employee = Stored<EmployeeData>

  datatype PaymentStatus = Pending | Paid

  datatype PaymentData = PaymentData(
    employeeId: Id,
    employeeName: string,
    amount: real,
    date: int,
    status: PaymentStatus)

  type Payment = Stored<PaymentData>

  /** The eight screens the application can show. */
  datatype View =
    | DashboardView | PricesView | ManagementView | BuyView
    | SellView | HistoryView | EmployeesView | TrashView
  {
    function Name(): string {
      match this
      case DashboardView => "dashboard"
      case PricesView => "prices"
      case ManagementView => "management"
      case BuyView => "buy"
      case SellView => "sell"
      case HistoryView => "history"
      case EmployeesView => "employees"
      case TrashView => "trash"
    }
  }
}

/** The vocabulary shared by the ledger, the matcher and the simulated exchange. */
module Types {

  /** Money, counted in units of 10^-80: the finest grain the exact-money domain accepts. */
  type Money = int

  datatype Market = KR | US

  datatype Currency = KRW | USD

  datatype Side = BUY | SELL

  datatype OrderType = MARKET | LIMIT | STOP | TAKE_PROFIT | OCO

  datatype OrderStatus =
    | RECEIVED | PENDING_TRIGGER | TRIGGERED | OPEN | PARTIALLY_FILLED
    | FILLED | CANCELLED | EXPIRED | REJECTED

  /** The `DomainError` codes and the two failures that are not domain errors. */
  datatype ErrorCode =
    | INVALID_ORDER
    | INVALID_PRICE
    | INVALID_QUANTITY
    | INVARIANT_VIOLATION
    | INSUFFICIENT_AVAILABLE_CASH
    | INSUFFICIENT_AVAILABLE_POSITION
    | INSUFFICIENT_CASH
    | UNSUPPORTED_ORDER_TYPE
    | CANCEL_ONLY
    | ACCOUNT_READ_ONLY
    | IDEMPOTENCY_CONFLICT
    | ORDER_STATE_CONFLICT
    | ORDER_TERMINAL
    | SERVICE_UNAVAILABLE
    | CONSTRAINT_VIOLATION  // a CHECK or primary key of the schema refused the row

  datatype Option<+T> = None | Some(value: T)

  datatype Result<+T> = Ok(value: T) | Err(code: ErrorCode) {
    predicate IsFailure() {
      Err?
    }

    function PropagateFailure<U>(): Result<U>
      requires Err?
    {
      Err(code)
    }

    function Extract(): T
      requires Ok?
    {
      value
    }
  }

  function Check(condition: bool, code: ErrorCode): Result<()> {
    if condition then Ok(()) else Err(code)
  }

  function CurrencyFor(market: Market): Currency {
    match market
    case KR => KRW
    case US => USD
  }

  predicate IsTerminal(status: OrderStatus) {
    status in {FILLED, CANCELLED, EXPIRED, REJECTED}
  }

  function Min(a: int, b: int): int {
    if a < b then a else b
  }

  function Max(a: int, b: int): int {
    if a < b then b else a
  }

  function Abs(a: int): nat {
    if a < 0 then -a else a
  }
}

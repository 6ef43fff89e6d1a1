/** The financial records of app/core/schemas/finance.py. */
module FinanceSchemas {
  import opened Common
  import opened StateModels

  datatype TransactionType = Income | Expense

  /** The string value each enum member carries. */
  function TypeValue(t: TransactionType): string
  {
    match t
    case Income => "income"
    case Expense => "expense"
  }

  /** `TransactionType(s)`: only the two declared values are accepted. */
  function ParseTransactionType(s: string): (r: Option<TransactionType>)
    ensures r.Some? <==> s == "income" || s == "expense"
    ensures r.Some? ==> TypeValue(r.value) == s
  {
    if s == "income" then Some(Income)
    else if s == "expense" then Some(Expense)
    else None
  }

  /** Parsing an enum value gives back the member. */
  lemma TypeValueRoundTrip(t: TransactionType)
    ensures ParseTransactionType(TypeValue(t)) == Some(t)
  {
  }

  datatype TransactionCategory = Sponsorship | ApiCost | StorageCost | CommunityGrant | Other

  datatype Transaction = Transaction(
    transactionId: string,
    timestamp: Timestamp,
    txType: TransactionType,
    category: TransactionCategory,
    amount: real,
    currency: string,
    description: string,
    metadata: map<string, string>)

  predicate ValidTransaction(tx: Transaction)
  {
    tx.amount > 0.0
  }

  /** `Transaction(...)` with currency and metadata left at their defaults
      (USD, and the given metadata or an empty mapping); fails exactly when
      the amount is not strictly positive. */
  function NewTransaction(id: string, now: Timestamp, txType: TransactionType,
                          category: TransactionCategory, amount: real, description: string,
                          metadata: Option<map<string, string>>): (r: Result<Transaction, ValidationError>)
    ensures r.Ok? <==> amount > 0.0
    ensures r.Err? ==> r.error == OutOfRange("amount")
    ensures r.Ok? ==> ValidTransaction(r.value)
    ensures r.Ok? ==> r.value.txType == txType && r.value.category == category
                      && r.value.amount == amount && r.value.description == description
                      && r.value.transactionId == id && r.value.timestamp == now
    ensures r.Ok? ==> r.value.currency == "USD"
    ensures r.Ok? ==> r.value.metadata == if metadata.Some? then metadata.value else map[]
  {
    if amount > 0.0 then
      Ok(Transaction(id, now, txType, category, amount, "USD", description,
                     if metadata.Some? then metadata.value else map[]))
    else Err(OutOfRange("amount"))
  }

  datatype SolvencyCheck = SolvencyCheck(
    isAuthorized: bool,
    projectedBalance: real,
    reasoning: string,
    circuitBreakerActive: bool)

  /** `SolvencyCheck(...)` without naming the breaker flag: it is off. */
  function NewSolvencyCheck(isAuthorized: bool, projectedBalance: real, reasoning: string): (c: SolvencyCheck)
    ensures !c.circuitBreakerActive
    ensures c.isAuthorized == isAuthorized && c.projectedBalance == projectedBalance
    ensures c.reasoning == reasoning
  {
    SolvencyCheck(isAuthorized, projectedBalance, reasoning, false)
  }
}

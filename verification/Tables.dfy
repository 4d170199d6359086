/** The four tables of app/models and the requests and responses of the services. */
module Tables {
  import opened Sums
  import opened StateMachine

  /** `Numeric(18, 4)` holds fewer than 10^18 ten-thousandths, the unit of every amount here. */
  const MONEY_LIMIT: int := 1_000_000_000_000_000_000
  /** `ledger_accounts.identifier` is a `String(128)`. */
  const IDENTIFIER_LIMIT: nat := 128

  const INR: string := "INR"

  predicate ValidAmount(amount: int) {
    0 < amount < MONEY_LIMIT
  }

  /** What the request schema guarantees of a normalised UPI address. */
  predicate ValidVpa(vpa: string) {
    '@' in vpa && 5 <= |vpa| <= 255
  }

  /** The text of a merchant's UUID. */
  type MerchantId = m: string | '@' !in m && |m| <= 36 witness ""

  /** The identifier of a merchant's settlement account. */
  function SettlementAccount(merchant: MerchantId): (identifier: string)
    ensures '@' !in identifier && |identifier| <= IDENTIFIER_LIMIT
  {
    "merchant:" + merchant
  }

  lemma SettlementAccountInjective(m: MerchantId, n: MerchantId)
    requires SettlementAccount(m) == SettlementAccount(n)
    ensures m == n
  {
    assert m == SettlementAccount(m)[9..] == SettlementAccount(n)[9..] == n;
  }

  datatype AccountType = Virtual | MerchantSettlement
  datatype EntryType = Debit | Credit
  datatype Event = PaymentSuccess | PaymentFailed

  datatype Intent = Intent(merchant: MerchantId, amount: int, currency: string, key: string, status: PaymentStatus)
  datatype Transaction = Transaction(intent: Id, vpa: string, state: TransactionState, reference: Id)
  datatype Account = Account(kind: AccountType, merchant: Option<MerchantId>, balance: int)
  datatype Entry = Entry(account: string, transaction: Id, amount: int, side: EntryType, currency: string)

  /** The committed rows. `accounts` is keyed by identifier: every account is created in the default currency,
      so the unique constraint on (identifier, currency) is one on the identifier. */
  datatype Tables = Tables(
    intents: map<Id, Intent>,
    transactions: map<Id, Transaction>,
    accounts: map<string, Account>,
    entries: seq<Entry>)

  /** A row of the outbox: the transaction it reports and the status it reports. */
  datatype Delivery = Delivery(transaction: Id, state: TransactionState)

  const Empty: Tables := Tables(map[], map[], map[], [])

  /** A validated request together with the identifiers `new_id` and `uuid4` will hand it. */
  datatype Request =
    | CreateOrder(merchant: MerchantId, key: string, amount: int, currency: string, newId: Id)
    | InitiateUpi(merchant: MerchantId, order: Id, vpa: string, newId: Id, newReference: Id)
    | BankCallback(event: Event, reference: Id, amount: int)

  predicate ValidRequest(req: Request) {
    match req
    case CreateOrder(_, _, amount, _, _) => ValidAmount(amount)
    case InitiateUpi(_, _, vpa, _, _) => ValidVpa(vpa)
    case BankCallback(_, _, _) => true
  }

  datatype Response =
    | OrderAccepted(order: Id, key: string, amount: int, currency: string, status: PaymentStatus)
    | OrderIdempotencyReuse
    | UpiInitiated(transaction: Id, order: Id, state: TransactionState, reference: Id)
    | OrderNotFound
    | AlreadyFinalised
    | CallbackApplied(transaction: Id, order: Id, state: TransactionState)
    | CallbackReplayed(transaction: Id, state: TransactionState)
    | TransactionNotFound
    | AmountMismatch
    | InvalidStateTransition
    | ServerError

  /** The state a callback event asks a transaction to take. */
  function Target(event: Event): TransactionState {
    if event.PaymentSuccess? then TransactionState.Success else TransactionState.Failed
  }

  function Balance(t: Tables, identifier: string): int {
    if identifier in t.accounts then t.accounts[identifier].balance else 0
  }

  predicate KeyTaken(t: Tables, key: string) {
    exists i :: i in t.intents && t.intents[i].key == key
  }

  function OrdersByKey(t: Tables, merchant: MerchantId, key: string): set<Id> {
    set i | i in t.intents && t.intents[i].key == key && t.intents[i].merchant == merchant
  }

  function AttemptsFor(t: Tables, order: Id, vpa: string): set<Id> {
    set x | x in t.transactions && t.transactions[x].intent == order && t.transactions[x].vpa == vpa
  }

  function ByReference(t: Tables, reference: Id): set<Id> {
    set x | x in t.transactions && t.transactions[x].reference == reference
  }
}

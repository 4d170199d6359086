/** Each service call as one atomic step on the tables: the specification that the imperative services and the
    interleaved database sessions are both proved against. */
module Services {
  import opened Sums
  import opened StateMachine
  import opened Tables

  datatype Outcome = Outcome(tables: Tables, response: Response)

  /** Order creation: replay of the merchant's own key, refusal of any other collision, or a new intent. */
  ghost function OrderStep(t: Tables, merchant: MerchantId, key: string, amount: int, currency: string, newId: Id)
    : Outcome
  {
    match Single(OrdersByKey(t, merchant, key))
    case OneRow(i) => Outcome(t, Accepted(i, t.intents[i]))
    case ManyRows => Outcome(t, ServerError)
    case NoRow =>
      if KeyTaken(t, key) || newId in t.intents then Outcome(t, OrderIdempotencyReuse)
      else
        var intent := Intent(merchant, amount, currency, key, PaymentStatus.Created);
        Outcome(t.(intents := t.intents[newId := intent]), Accepted(newId, intent))
  }

  function Accepted(id: Id, intent: Intent): Response {
    OrderAccepted(id, intent.key, intent.amount, intent.currency, intent.status)
  }

  ghost function InitiateStep(t: Tables, merchant: MerchantId, order: Id, vpa: string, newId: Id, newReference: Id)
    : Outcome
  {
    if order !in t.intents || t.intents[order].merchant != merchant then Outcome(t, OrderNotFound)
    else
      var status := t.intents[order].status;
      if status == PaymentStatus.Success || status == PaymentStatus.Failed then Outcome(t, AlreadyFinalised)
      else match Single(AttemptsFor(t, order, vpa))
        case ManyRows => Outcome(t, ServerError)
        case OneRow(x) =>
          Outcome(t, UpiInitiated(x, order, TransactionState.Pending, t.transactions[x].reference))
        case NoRow =>
          if !IntentMayMove(status, PaymentStatus.Processing) then Outcome(t, InvalidStateTransition)
          else if newId in t.transactions then Outcome(t, ServerError)
          else Outcome(Attempted(t, order, vpa, newId, newReference),
                       UpiInitiated(newId, order, TransactionState.Pending, newReference))
  }

  /** The intent starts processing and its transaction is inserted. */
  function Attempted(t: Tables, order: Id, vpa: string, newId: Id, newReference: Id): Tables
    requires order in t.intents
  {
    t.(intents := t.intents[order := t.intents[order].(status := PaymentStatus.Processing)],
       transactions := t.transactions[newId := Transaction(order, vpa, TransactionState.Pending, newReference)])
  }

  ghost function CallbackStep(t: Tables, event: Event, reference: Id, amount: int): Outcome {
    match Single(ByReference(t, reference))
    case NoRow => Outcome(t, TransactionNotFound)
    case ManyRows => Outcome(t, ServerError)
    case OneRow(x) =>
      if t.transactions[x].intent !in t.intents then Outcome(t, ServerError)
      else Outcome(EventStep(t, x, event, amount), EventResponse(t, x, event, amount))
  }

  predicate HasIntent(t: Tables, x: Id) {
    x in t.transactions && t.transactions[x].intent in t.intents
  }

  function IntentOf(t: Tables, x: Id): Intent
    requires HasIntent(t, x)
  {
    t.intents[t.transactions[x].intent]
  }

  /** The guards a callback passes before anything is written. */
  predicate Applies(t: Tables, x: Id, event: Event, amount: int)
    requires HasIntent(t, x)
  {
    && IntentOf(t, x).amount == amount
    && TransactionMayMove(t.transactions[x].state, Target(event))
    && IntentMayMove(IntentOf(t, x).status, StatusFor(Target(event)))
    && (event.PaymentSuccess? ==> CanPost(t, x))
  }

  function EventStep(t: Tables, x: Id, event: Event, amount: int): Tables
    requires HasIntent(t, x)
  {
    if !Applies(t, x, event, amount) then t
    else if event.PaymentSuccess? then Posted(Finished(t, x, event), x)
    else Finished(t, x, event)
  }

  function EventResponse(t: Tables, x: Id, event: Event, amount: int): Response
    requires HasIntent(t, x)
  {
    var txn := t.transactions[x];
    if IntentOf(t, x).amount != amount then AmountMismatch
    else if txn.state == Target(event) then CallbackReplayed(x, txn.state)
    else if !TransactionMayMove(txn.state, Target(event))
            || !IntentMayMove(IntentOf(t, x).status, StatusFor(Target(event)))
      then InvalidStateTransition
    else if event.PaymentSuccess? && !CanPost(t, x) then ServerError
    else CallbackApplied(x, txn.intent, Target(event))
  }

  /** Both rows take their terminal state. */
  function Finished(t: Tables, x: Id, event: Event): Tables
    requires HasIntent(t, x)
  {
    var txn := t.transactions[x];
    t.(transactions := t.transactions[x := txn.(state := Target(event))],
       intents := t.intents[txn.intent := t.intents[txn.intent].(status := StatusFor(Target(event)))])
  }

  /** Both accounts can be created, or found under the wanted type. */
  predicate Fetchable(t: Tables, payer: string, merchant: MerchantId) {
    var payee := SettlementAccount(merchant);
    && |payer| <= IDENTIFIER_LIMIT && payer != payee
    && (payer in t.accounts ==> t.accounts[payer].kind == Virtual)
    && (payee in t.accounts ==> t.accounts[payee].kind == MerchantSettlement)
  }

  /** Both accounts can be fetched, and can hold the new balance. */
  predicate CanPost(t: Tables, x: Id)
    requires HasIntent(t, x)
  {
    var payer, payee := t.transactions[x].vpa, SettlementAccount(IntentOf(t, x).merchant);
    && Fetchable(t, payer, IntentOf(t, x).merchant)
    && Balance(t, payer) + IntentOf(t, x).amount < MONEY_LIMIT
    && Balance(t, payee) + IntentOf(t, x).amount < MONEY_LIMIT
  }

  /** Fetch or create the account, then add to its balance. */
  function Deposit(accounts: map<string, Account>, identifier: string, kind: AccountType, owner: Option<MerchantId>,
                   amount: int)
    : map<string, Account>
  {
    if identifier in accounts
    then accounts[identifier := accounts[identifier].(balance := accounts[identifier].balance + amount)]
    else accounts[identifier := Account(kind, owner, amount)]
  }

  function DebitOf(t: Tables, x: Id): Entry
    requires HasIntent(t, x)
  {
    Entry(t.transactions[x].vpa, x, IntentOf(t, x).amount, Debit, INR)
  }

  function CreditOf(t: Tables, x: Id): Entry
    requires HasIntent(t, x)
  {
    Entry(SettlementAccount(IntentOf(t, x).merchant), x, IntentOf(t, x).amount, Credit, INR)
  }

  /** The balanced pair of entries is appended and both balances grow by the amount. */
  function DoubleEntry(t: Tables, x: Id, payer: string, merchant: MerchantId, amount: int, currency: string): Tables {
    var payee := SettlementAccount(merchant);
    t.(accounts := Deposit(Deposit(t.accounts, payer, Virtual, None, amount),
                           payee, MerchantSettlement, Some(merchant), amount),
       entries := t.entries + [Entry(payer, x, amount, Debit, currency), Entry(payee, x, amount, Credit, currency)])
  }

  /** The posting of a callback, always booked in INR. */
  function Posted(t: Tables, x: Id): Tables
    requires HasIntent(t, x)
  {
    DoubleEntry(t, x, t.transactions[x].vpa, IntentOf(t, x).merchant, IntentOf(t, x).amount, INR)
  }

  ghost function Step(t: Tables, req: Request): Outcome {
    match req
    case CreateOrder(m, key, amount, currency, newId) => OrderStep(t, m, key, amount, currency, newId)
    case InitiateUpi(m, order, vpa, newId, newReference) => InitiateStep(t, m, order, vpa, newId, newReference)
    case BankCallback(event, reference, amount) => CallbackStep(t, event, reference, amount)
  }

  /** Neither identifier was handed out before. */
  predicate Fresh(t: Tables, req: Request) {
    match req
    case CreateOrder(_, _, _, _, newId) => newId !in t.intents
    case InitiateUpi(_, _, _, newId, newReference) => newId !in t.transactions && ByReference(t, newReference) == {}
    case BankCallback(_, _, _) => true
  }
}

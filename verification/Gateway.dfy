/** The services as the code runs them: rows are read, assigned, and committed or rolled back. */
module Gateway {
  import opened Sums
  import opened StateMachine
  import opened Tables
  import opened Services
  import opened Invariants

  /** The rows after the insert-or-ignore. */
  function Ensured(accounts: map<string, Account>, kind: AccountType, identifier: string, owner: Option<MerchantId>)
    : (rows: map<string, Account>)
    ensures identifier in rows
  {
    if identifier in accounts then accounts else accounts[identifier := Account(kind, owner, 0)]
  }

  function Raised(accounts: map<string, Account>, identifier: string, amount: int): map<string, Account>
    requires identifier in accounts
  {
    accounts[identifier := accounts[identifier].(balance := accounts[identifier].balance + amount)]
  }

  /** Creating both accounts first and raising both balances after is depositing on one, then on the other. */
  lemma EnsureThenRaise(accounts: map<string, Account>, payer: string, payee: string, owner: Option<MerchantId>,
                        amount: int)
    requires payer != payee
    ensures var both := Ensured(Ensured(accounts, Virtual, payer, None), MerchantSettlement, payee, owner);
      Raised(Raised(both, payer, amount), payee, amount)
      == Deposit(Deposit(accounts, payer, Virtual, None, amount), payee, MerchantSettlement, owner, amount)
  { }

  /** Every balance fits its column, so a commit goes through. */
  ghost predicate Storable(t: Tables) {
    forall a: string :: Balance(t, a) < MONEY_LIMIT
  }

  /** The two implementations of posting agree in every reachable state: for INR the zero-amount guard that only one of
      them has never fires, only an over-long address stops the account lookups, and checking the two new balances is
      checking the whole table, so one can be committed exactly when the other can, with the same rows. */
  lemma PostingsAgree(t: Tables, x: Id)
    requires Inv(t) && HasIntent(t, x)
    ensures var payer, m, amount := t.transactions[x].vpa, IntentOf(t, x).merchant, IntentOf(t, x).amount;
      && amount > 0
      && (Fetchable(t, payer, m) <==> |payer| <= IDENTIFIER_LIMIT)
      && DoubleEntry(t, x, payer, m, amount, INR) == Posted(t, x)
      && (CanPost(t, x) <==> Fetchable(t, payer, m) && Storable(DoubleEntry(t, x, payer, m, amount, INR)))
  {
    hide KeysUnique, ReferencesUnique, OneAttempt, Matched, Covered, Indexed, Owed, PostedOnce, Balanced;
    var payer, payee := t.transactions[x].vpa, SettlementAccount(IntentOf(t, x).merchant);
    forall a: string
      ensures Balance(Posted(t, x), a) == Balance(t, a) + if Touches(t, x, a) then IntentOf(t, x).amount else 0
    {
      PostedBalance(t, x, a);
    }
    forall a: string | !Touches(t, x, a) ensures Balance(t, a) < MONEY_LIMIT {
      if a in t.accounts { assert AccountOk(a, t.accounts[a]); }
    }
    assert Touches(t, x, payer) && Touches(t, x, payee);
  }

  class Gateway {
    var intents: map<Id, Intent>
    var transactions: map<Id, Transaction>
    var accounts: map<string, Account>
    var entries: seq<Entry>
    var deliveries: seq<Delivery>

    function View(): Tables
      reads this
    {
      Tables(intents, transactions, accounts, entries)
    }

    constructor ()
      ensures View() == Empty && deliveries == []
    {
      intents, transactions, accounts, entries, deliveries := map[], map[], map[], [], [];
    }

    method ScalarOneOrNone(rows: set<Id>) returns (found: Lookup)
      ensures found == Single(rows)
    {
      if rows == {} {
        found := NoRow;
      } else {
        var x :| x in rows;
        found := if rows == {x} then OneRow(x) else ManyRows;
      }
    }

    method Rollback(saved: Tables)
      modifies this`intents, this`transactions, this`accounts, this`entries
      ensures View() == saved
    {
      intents, transactions, accounts, entries := saved.intents, saved.transactions, saved.accounts, saved.entries;
    }

    // ---- order.py ------------------------------------------------------------

    method CreateOrder(merchant: MerchantId, key: string, amount: int, currency: string, newId: Id)
      returns (response: Response)
      modifies this`intents
      ensures Outcome(View(), response)
           == Step(old(View()), Request.CreateOrder(merchant, key, amount, currency, newId))
    {
      var existing := ScalarOneOrNone(OrdersByKey(View(), merchant, key));
      if existing.ManyRows? { return ServerError; }
      if existing.OneRow? { return Accepted(existing.id, intents[existing.id]); }
      var intent := Intent(merchant, amount, currency, key, PaymentStatus.Created);
      if newId in intents || KeyTaken(View(), key) { return OrderIdempotencyReuse; }
      intents := intents[newId := intent];
      response := Accepted(newId, intent);
    }

    // ---- payment.py ----------------------------------------------------------

    method InitiateUpi(merchant: MerchantId, order: Id, vpa: string, newId: Id, newReference: Id)
      returns (response: Response)
      modifies this`intents, this`transactions
      ensures Outcome(View(), response)
           == Step(old(View()), Request.InitiateUpi(merchant, order, vpa, newId, newReference))
    {
      if order !in intents || intents[order].merchant != merchant { return OrderNotFound; }
      var status := intents[order].status;
      if status in {PaymentStatus.Success, PaymentStatus.Failed} { return AlreadyFinalised; }
      var duplicate := ScalarOneOrNone(AttemptsFor(View(), order, vpa));
      if duplicate.ManyRows? { return ServerError; }
      if duplicate.OneRow? {
        return UpiInitiated(duplicate.id, order, TransactionState.Pending, transactions[duplicate.id].reference);
      }
      if !IntentMayMove(status, PaymentStatus.Processing) { return InvalidStateTransition; }
      if newId in transactions { return ServerError; }
      intents := intents[order := intents[order].(status := PaymentStatus.Processing)];
      var transaction := Transaction(order, vpa, TransactionState.Pending, newReference);
      transactions := transactions[newId := transaction];
      response := UpiInitiated(newId, order, transaction.state, transaction.reference);
    }

    // ---- webhook.py and ledger.py --------------------------------------------

    /** Insert the account unless its identifier exists, then select it by identifier and type. */
    method EnsureAccountLocked(kind: AccountType, identifier: string, owner: Option<MerchantId>) returns (found: bool)
      modifies this`accounts
      ensures found <==> && |identifier| <= IDENTIFIER_LIMIT
                         && (identifier in old(accounts) ==> old(accounts)[identifier].kind == kind)
      ensures found ==> accounts == Ensured(old(accounts), kind, identifier, owner)
    {
      if |identifier| > IDENTIFIER_LIMIT { return false; }
      if identifier !in accounts {
        accounts := accounts[identifier := Account(kind, owner, 0)];
      }
      found := accounts[identifier].kind == kind;
    }

    method AddToBalance(identifier: string, amount: int)
      requires identifier in accounts
      modifies this`accounts
      ensures accounts == Raised(old(accounts), identifier, amount)
    {
      accounts := accounts[identifier := accounts[identifier].(balance := accounts[identifier].balance + amount)];
    }

    /** The standalone posting, which refuses amounts that are not positive. */
    method PostDoubleEntry(x: Id, payer: string, merchant: MerchantId, amount: int, currency: string) returns (ok: bool)
      modifies this`accounts, this`entries
      ensures ok <==> amount > 0 && Fetchable(old(View()), payer, merchant)
      ensures ok ==> View() == DoubleEntry(old(View()), x, payer, merchant, amount, currency)
      ensures !ok ==> entries == old(entries)
    {
      if amount <= 0 { return false; }
      ok := EnsureAccountLocked(Virtual, payer, None);
      if !ok { return; }
      var payee := SettlementAccount(merchant);
      ok := EnsureAccountLocked(MerchantSettlement, payee, Some(merchant));
      if !ok { return; }
      EnsureThenRaise(old(accounts), payer, payee, Some(merchant), amount);
      AddToBalance(payer, amount);
      AddToBalance(payee, amount);
      entries := entries + [Entry(payer, x, amount, Debit, currency), Entry(payee, x, amount, Credit, currency)];
    }

    method ProcessBankCallback(event: Event, reference: Id, amount: int) returns (response: Response)
      modifies this`intents, this`transactions, this`accounts, this`entries
      ensures Outcome(View(), response) == Step(old(View()), Request.BankCallback(event, reference, amount))
    {
      var found := ScalarOneOrNone(ByReference(View(), reference));
      if found.NoRow? { return TransactionNotFound; }
      if found.ManyRows? { return ServerError; }
      var x := found.id;
      assert x in ByReference(View(), reference);
      var order := transactions[x].intent;
      if order !in intents { return ServerError; }
      if intents[order].amount != amount { return AmountMismatch; }
      if transactions[x].state == TransactionState.Success && event == PaymentSuccess {
        return CallbackReplayed(x, transactions[x].state);
      }
      if transactions[x].state == TransactionState.Failed && event == PaymentFailed {
        return CallbackReplayed(x, transactions[x].state);
      }
      var target := if event == PaymentSuccess then TransactionState.Success else TransactionState.Failed;
      if !TransactionMayMove(transactions[x].state, target)
         || !IntentMayMove(intents[order].status, StatusFor(target))
      {
        return InvalidStateTransition;
      }
      response := Advance(x, event, amount);
    }

    /** Assign both states, post on success, and commit - or roll everything back. */
    method Advance(x: Id, event: Event, amount: int) returns (response: Response)
      requires HasIntent(View(), x) && IntentOf(View(), x).amount == amount
      requires TransactionMayMove(transactions[x].state, Target(event))
      requires IntentMayMove(IntentOf(View(), x).status, StatusFor(Target(event)))
      modifies this`intents, this`transactions, this`accounts, this`entries
      ensures View() == EventStep(old(View()), x, event, amount)
      ensures response == EventResponse(old(View()), x, event, amount)
    {
      var saved := View();
      var order := transactions[x].intent;
      transactions := transactions[x := transactions[x].(state := Target(event))];
      intents := intents[order := intents[order].(status := StatusFor(Target(event)))];
      if event == PaymentSuccess {
        var posted := PostInline(x, amount);
        if !posted {
          Rollback(saved);
          return ServerError;
        }
      }
      response := CallbackApplied(x, order, Target(event));
    }

    /** The posting written out in the callback, with the column limit checked when the rows are flushed. */
    method PostInline(x: Id, amount: int) returns (ok: bool)
      requires HasIntent(View(), x) && IntentOf(View(), x).amount == amount
      modifies this`accounts, this`entries
      ensures ok <==> CanPost(old(View()), x)
      ensures ok ==> View() == Posted(old(View()), x)
    {
      var payer := transactions[x].vpa;
      var merchant := IntentOf(View(), x).merchant;
      var payee := SettlementAccount(merchant);
      ok := EnsureAccountLocked(Virtual, payer, None);
      if !ok { return; }
      ok := EnsureAccountLocked(MerchantSettlement, payee, Some(merchant));
      if !ok { return; }
      EnsureThenRaise(old(accounts), payer, payee, Some(merchant), amount);
      AddToBalance(payer, amount);
      AddToBalance(payee, amount);
      entries := entries + [Entry(payer, x, amount, Debit, INR), Entry(payee, x, amount, Credit, INR)];
      ok := accounts[payer].balance < MONEY_LIMIT && accounts[payee].balance < MONEY_LIMIT;
    }

    // ---- api/v1/webhooks.py --------------------------------------------------

    /** Apply the callback, then write one outbox row if it was the one that finished the transaction. */
    method BankCallback(event: Event, reference: Id, amount: int, merchantHasUrl: bool) returns (response: Response)
      modifies this
      ensures Outcome(View(), response) == Step(old(View()), Request.BankCallback(event, reference, amount))
      ensures deliveries == old(deliveries)
              + if merchantHasUrl && response.CallbackApplied?
                then [Delivery(response.transaction, response.state)] else []
    {
      response := ProcessBankCallback(event, reference, amount);
      if response.CallbackApplied? && merchantHasUrl {
        deliveries := deliveries + [Delivery(response.transaction, response.state)];
      }
    }
  }
}

/** What single requests may and may not do in a reachable state. */
module Guarantees {
  import opened Sums
  import opened StateMachine
  import opened Tables
  import opened Services
  import opened Invariants

  // ---- Monotonicity ----------------------------------------------------------

  ghost predicate IntentExtends(a: Intent, b: Intent) {
    b == a.(status := b.status) && IntentReaches(a.status, b.status)
  }

  ghost predicate TransactionExtends(a: Transaction, b: Transaction) {
    b == a.(state := b.state) && TransactionReaches(a.state, b.state)
  }

  /** No row is lost, rows change only by legal transitions, history only grows and balances never fall. */
  ghost predicate Extends(t: Tables, u: Tables) {
    && (forall i :: i in t.intents ==> i in u.intents && IntentExtends(t.intents[i], u.intents[i]))
    && (forall x :: x in t.transactions ==>
          x in u.transactions && TransactionExtends(t.transactions[x], u.transactions[x]))
    && t.entries <= u.entries
    && t.accounts.Keys <= u.accounts.Keys
    && (forall a: string :: Balance(t, a) <= Balance(u, a))
  }

  lemma ExtendsTransitive(t: Tables, u: Tables, v: Tables)
    requires Extends(t, u) && Extends(u, v)
    ensures Extends(t, v)
  {
    forall i | i in t.intents ensures i in v.intents && IntentExtends(t.intents[i], v.intents[i]) {
      assert IntentExtends(t.intents[i], u.intents[i]) && IntentExtends(u.intents[i], v.intents[i]);
    }
    forall x | x in t.transactions
      ensures x in v.transactions && TransactionExtends(t.transactions[x], v.transactions[x])
    {
      assert TransactionExtends(t.transactions[x], u.transactions[x]);
      assert TransactionExtends(u.transactions[x], v.transactions[x]);
    }
    forall a: string ensures Balance(t, a) <= Balance(v, a) {
      assert Balance(t, a) <= Balance(u, a) && Balance(u, a) <= Balance(v, a);
    }
  }

  /** A finished transaction or intent never changes again. */
  lemma TerminalRowsAreFinal(t: Tables, u: Tables)
    requires Extends(t, u)
    ensures forall x :: x in t.transactions
                        && t.transactions[x].state in {TransactionState.Success, TransactionState.Failed} ==>
              x in u.transactions && u.transactions[x] == t.transactions[x]
    ensures forall i :: i in t.intents && t.intents[i].status in {PaymentStatus.Success, PaymentStatus.Failed} ==>
              i in u.intents && u.intents[i] == t.intents[i]
  { }

  lemma SettleRaisesBalances(t: Tables, x: Id)
    requires RowsOk(t) && IsPending(t, x)
    ensures forall a: string :: Balance(t, a) <= Balance(Settle(t, x), a)
    ensures t.accounts.Keys <= Settle(t, x).accounts.Keys && t.entries <= Settle(t, x).entries
  { }

  lemma FinishedExtends(t: Tables, x: Id, event: Event)
    requires IsPending(t, x) && IntentOf(t, x).status == PaymentStatus.Processing
    ensures Extends(t, Finished(t, x, event))
  {
    assert forall a: string :: Balance(Finished(t, x, event), a) == Balance(t, a);
  }

  lemma SettleExtends(t: Tables, x: Id)
    requires Inv(t) && IsPending(t, x)
    ensures Extends(t, Settle(t, x))
  {
    FinishedExtends(t, x, PaymentSuccess);
    SettleRaisesBalances(t, x);
    assert Settle(t, x).intents == Finished(t, x, PaymentSuccess).intents;
  }

  lemma EventExtends(t: Tables, x: Id, event: Event, amount: int)
    requires Inv(t) && HasIntent(t, x)
    ensures Extends(t, EventStep(t, x, event, amount))
  {
    if Applies(t, x, event, amount) {
      if event.PaymentSuccess? { SettleExtends(t, x); } else { FinishedExtends(t, x, event); }
    }
  }

  lemma OrderExtends(t: Tables, m: MerchantId, key: string, amount: int, currency: string, newId: Id)
    ensures Extends(t, OrderStep(t, m, key, amount, currency, newId).tables)
  {
    var u := OrderStep(t, m, key, amount, currency, newId).tables;
    assert forall a: string :: Balance(t, a) == Balance(u, a);
  }

  lemma InitiateExtends(t: Tables, m: MerchantId, order: Id, vpa: string, newId: Id, newReference: Id)
    ensures Extends(t, InitiateStep(t, m, order, vpa, newId, newReference).tables)
  {
    var u := InitiateStep(t, m, order, vpa, newId, newReference).tables;
    assert forall a: string :: Balance(t, a) == Balance(u, a);
  }

  /** Every request only extends the tables. */
  lemma StepExtends(t: Tables, req: Request)
    requires Inv(t)
    ensures Extends(t, Step(t, req).tables)
  {
    match req
    case CreateOrder(m, key, amount, currency, newId) => OrderExtends(t, m, key, amount, currency, newId);
    case InitiateUpi(m, order, vpa, newId, newReference) => InitiateExtends(t, m, order, vpa, newId, newReference);
    case BankCallback(event, reference, amount) =>
      match Single(ByReference(t, reference)) {
        case OneRow(x) => if HasIntent(t, x) { EventExtends(t, x, event, amount); }
        case _ =>
      }
  }

  // ---- Callbacks -------------------------------------------------------------

  /** The payment a callback would settle fits both balances, and its payer's address fits an account identifier. */
  predicate Fits(t: Tables, x: Id)
    requires HasIntent(t, x)
  {
    && |t.transactions[x].vpa| <= 128
    && Balance(t, t.transactions[x].vpa) + IntentOf(t, x).amount < 1_000_000_000_000_000_000
    && Balance(t, "merchant:" + IntentOf(t, x).merchant) + IntentOf(t, x).amount < 1_000_000_000_000_000_000
  }

  /** A payer's address contains '@' and a merchant's identifier does not, so neither kind of account can occupy the
      other's identifier. */
  lemma AccountKinds(t: Tables, payer: string, merchant: MerchantId)
    requires AccountsOk(t) && '@' in payer
    ensures payer in t.accounts ==> t.accounts[payer].kind == Virtual
    ensures var payee := SettlementAccount(merchant);
      payee in t.accounts ==> t.accounts[payee] == Account(MerchantSettlement, Some(merchant), Balance(t, payee))
  {
    var payee := SettlementAccount(merchant);
    if payer in t.accounts { assert AccountOk(payer, t.accounts[payer]); }
    if payee in t.accounts {
      assert AccountOk(payee, t.accounts[payee]);
      SettlementAccountInjective(merchant, t.accounts[payee].merchant.value);
    }
  }

  /** So after insert-or-ignore, selecting by identifier and type always finds the row: only size can stop a posting. */
  lemma AccountLookupsNeverFail(t: Tables, x: Id)
    requires Inv(t) && HasIntent(t, x)
    ensures CanPost(t, x) <==> Fits(t, x)
  { }

  /** No lookup by key, by order and payer, or by reference can match two rows. */
  lemma RowLookupsNeverAmbiguous(t: Tables)
    requires Inv(t)
    ensures forall m: MerchantId, key :: !Single(OrdersByKey(t, m, key)).ManyRows?
    ensures forall order, vpa :: !Single(AttemptsFor(t, order, vpa)).ManyRows?
    ensures forall reference :: !Single(ByReference(t, reference)).ManyRows?
  { }

  lemma FoundByReference(t: Tables, x: Id)
    requires Inv(t) && x in t.transactions
    ensures Single(ByReference(t, t.transactions[x].reference)) == OneRow(x)
  { }

  /** The callback can move transaction `x`. */
  ghost predicate Moves(t: Tables, x: Id, event: Event, reference: Id, amount: int) {
    && IsPending(t, x) && t.transactions[x].reference == reference
    && IntentOf(t, x).amount == amount && (event.PaymentSuccess? ==> Fits(t, x))
  }

  lemma EventChangesExactlyWhen(t: Tables, x: Id, event: Event, amount: int)
    requires Inv(t) && HasIntent(t, x)
    ensures Applies(t, x, event, amount) <==> Moves(t, x, event, t.transactions[x].reference, amount)
    ensures EventStep(t, x, event, amount) != t <==> Applies(t, x, event, amount)
  {
    hide LedgerOk, KeysUnique, ReferencesUnique, OneAttempt, Covered, CanPost, Fits;
    AccountLookupsNeverFail(t, x);
    var u := EventStep(t, x, event, amount);
    if Applies(t, x, event, amount) {
      assert u.transactions[x].state == Target(event) != t.transactions[x].state;
    }
  }

  /** A callback changes the tables exactly when it names a pending transaction by its reference, states the intent's
      amount and, on success, the payment fits. Everything else - unknown reference, wrong amount, repeated or
      contradictory event, overflow, over-long address - leaves all four tables as they were. */
  lemma CallbackChangesExactlyWhen(t: Tables, event: Event, reference: Id, amount: int)
    requires Inv(t)
    ensures CallbackStep(t, event, reference, amount).tables != t <==> exists x :: Moves(t, x, event, reference, amount)
  {
    if x :| Moves(t, x, event, reference, amount) {
      FoundByReference(t, x);
      EventChangesExactlyWhen(t, x, event, amount);
    } else if Single(ByReference(t, reference)).OneRow? {
      var x := Single(ByReference(t, reference)).id;
      assert x in ByReference(t, reference) && HasIntent(t, x);
      EventChangesExactlyWhen(t, x, event, amount);
      assert !Moves(t, x, event, reference, amount);
    }
  }

  /** Only a callback that finishes a pending transaction is answered as applied. */
  lemma AppliedExactlyWhen(t: Tables, event: Event, reference: Id, amount: int)
    requires Inv(t)
    ensures var out := CallbackStep(t, event, reference, amount);
      && (out.response.CallbackApplied? <==> out.tables != t)
      && (out.response.CallbackApplied? ==>
            var x := out.response.transaction;
            && Moves(t, x, event, reference, amount) && out.response.state == Target(event)
            && x in out.tables.transactions && out.tables.transactions[x].state == Target(event))
  {
    if Single(ByReference(t, reference)).OneRow? {
      var x := Single(ByReference(t, reference)).id;
      assert x in ByReference(t, reference) && HasIntent(t, x);
      EventChangesExactlyWhen(t, x, event, amount);
    }
  }

  ghost predicate NamesUnfit(t: Tables, x: Id, reference: Id, amount: int) {
    IsPending(t, x) && t.transactions[x].reference == reference && IntentOf(t, x).amount == amount && !Fits(t, x)
  }

  ghost predicate RowOk(t: Tables, x: Id) {
    && HasIntent(t, x)
    && t.transactions[x].state != TransactionState.Initiated
    && IntentOf(t, x).status == StatusFor(t.transactions[x].state)
    && (CanPost(t, x) <==> Fits(t, x))
  }

  lemma EventErrorExactlyWhen(t: Tables, x: Id, event: Event, amount: int)
    requires RowOk(t, x)
    ensures EventResponse(t, x, event, amount) == ServerError
       <==> event.PaymentSuccess? && NamesUnfit(t, x, t.transactions[x].reference, amount)
  { }

  lemma RowsAreOk(t: Tables, x: Id)
    requires Inv(t) && x in t.transactions
    ensures RowOk(t, x)
  { }

  /** Of all the look-ups and commits of a callback, only the commit of a payment that does not fit can fail. */
  lemma CallbackErrorExactlyWhen(t: Tables, event: Event, reference: Id, amount: int)
    requires Inv(t)
    ensures CallbackStep(t, event, reference, amount).response == ServerError
       <==> event.PaymentSuccess? && exists x :: NamesUnfit(t, x, reference, amount)
  {
    if x :| NamesUnfit(t, x, reference, amount) {
      FoundByReference(t, x);
      RowsAreOk(t, x);
      EventErrorExactlyWhen(t, x, event, amount);
    } else {
      RowLookupsNeverAmbiguous(t);
      if Single(ByReference(t, reference)).OneRow? {
        var x := Single(ByReference(t, reference)).id;
        assert x in ByReference(t, reference);
        RowsAreOk(t, x);
        EventErrorExactlyWhen(t, x, event, amount);
      }
    }
  }

  /** Of all look-ups and commits, whatever the request, only the commit of a payment that does not fit can fail. */
  lemma ServerErrorExactlyWhen(t: Tables, req: Request)
    requires Inv(t) && Fresh(t, req)
    ensures Step(t, req).response == ServerError
       <==> req.BankCallback? && req.event.PaymentSuccess? && exists x :: NamesUnfit(t, x, req.reference, req.amount)
  {
    if req.BankCallback? { CallbackErrorExactlyWhen(t, req.event, req.reference, req.amount); }
    else { RowLookupsNeverAmbiguous(t); }
  }

  // ---- Exceptions that nobody catches ----------------------------------------

  /** The endpoints turn every other exception into a reply; these two pass through them and through the middleware. */
  predicate Uncaught(response: Response) {
    response.ServerError? || response.InvalidStateTransition?
  }

  /** The callback reports the opposite of what its transaction came to. */
  ghost predicate Contradicts(t: Tables, x: Id, event: Event, reference: Id, amount: int) {
    && HasIntent(t, x) && t.transactions[x].reference == reference && IntentOf(t, x).amount == amount
    && t.transactions[x].state == if event.PaymentSuccess? then TransactionState.Failed else TransactionState.Success
  }

  ghost predicate CannotApply(t: Tables, x: Id, event: Event, reference: Id, amount: int) {
    (event.PaymentSuccess? && NamesUnfit(t, x, reference, amount)) || Contradicts(t, x, event, reference, amount)
  }

  /** The order is being paid from another address. */
  ghost predicate PaidByAnother(t: Tables, merchant: MerchantId, order: Id, vpa: string) {
    && order in t.intents && t.intents[order].merchant == merchant
    && t.intents[order].status == PaymentStatus.Processing
    && exists x :: x in Attempts(t, order) && t.transactions[x].vpa != vpa
  }

  lemma EventRaisesExactlyWhen(t: Tables, x: Id, event: Event, amount: int)
    requires RowOk(t, x)
    ensures var reference := t.transactions[x].reference;
      Uncaught(EventResponse(t, x, event, amount))
      <==> CannotApply(t, x, event, reference, amount)
  {
    hide CanPost, Fits;
  }

  lemma CallbackRaisesExactlyWhen(t: Tables, event: Event, reference: Id, amount: int)
    requires Inv(t)
    ensures Uncaught(CallbackStep(t, event, reference, amount).response)
       <==> exists x :: CannotApply(t, x, event, reference, amount)
  {
    hide Inv, CanPost, Fits, EventResponse, EventStep;
    if x :| CannotApply(t, x, event, reference, amount) {
      FoundByReference(t, x);
      RowsAreOk(t, x);
      EventRaisesExactlyWhen(t, x, event, amount);
    } else {
      RowLookupsNeverAmbiguous(t);
      if Single(ByReference(t, reference)).OneRow? {
        var x := Single(ByReference(t, reference)).id;
        assert x in ByReference(t, reference);
        RowsAreOk(t, x);
        EventRaisesExactlyWhen(t, x, event, amount);
      }
    }
  }

  lemma InitiationRaisesExactlyWhen(t: Tables, m: MerchantId, order: Id, vpa: string, newId: Id, newReference: Id)
    requires Inv(t) && newId !in t.transactions
    ensures Uncaught(InitiateStep(t, m, order, vpa, newId, newReference).response) <==> PaidByAnother(t, m, order, vpa)
  {
    hide LedgerOk, KeysUnique, ReferencesUnique, Matched;
    if order in t.intents {
      assert forall x, y :: x in Attempts(t, order) && y in Attempts(t, order) ==> x == y;
      assert AttemptsFor(t, order, vpa) <= Attempts(t, order);
      forall x | x in Attempts(t, order) ensures x in AttemptsFor(t, order, vpa) <==> t.transactions[x].vpa == vpa { }
      assert t.intents[order].status == PaymentStatus.Created <==> Attempts(t, order) == {};
    }
  }

  /** A success callback for a payment that does not fit, a callback contradicting a finished transaction, or an
      initiation of an order already being paid from another address. */
  ghost predicate Hopeless(t: Tables, req: Request) {
    match req
    case CreateOrder(_, _, _, _, _) => false
    case InitiateUpi(m, order, vpa, _, _) => PaidByAnother(t, m, order, vpa)
    case BankCallback(event, reference, amount) => exists x :: CannotApply(t, x, event, reference, amount)
  }

  /** These are exactly the requests that end in an exception that nothing catches; they change nothing. */
  lemma RaisesExactlyWhen(t: Tables, req: Request)
    requires Inv(t) && Fresh(t, req)
    ensures Uncaught(Step(t, req).response) <==> Hopeless(t, req)
    ensures Uncaught(Step(t, req).response) ==> Step(t, req).tables == t
  {
    hide Inv;
    match req
    case CreateOrder(m, key, amount, currency, newId) => RowLookupsNeverAmbiguous(t);
    case InitiateUpi(m, order, vpa, newId, newReference) =>
      InitiationRaisesExactlyWhen(t, m, order, vpa, newId, newReference);
    case BankCallback(event, reference, amount) => CallbackRaisesExactlyWhen(t, event, reference, amount);
  }

  // ---- Initiation ------------------------------------------------------------

  /** The replay branch answers PENDING without looking at the row, and the row is indeed pending; and it is taken for
      every pending attempt that the same payer repeats. */
  lemma ReplayedInitiationIsPending(t: Tables, m: MerchantId, order: Id, vpa: string, newId: Id, newReference: Id)
    requires Inv(t)
    ensures var out := InitiateStep(t, m, order, vpa, newId, newReference);
      && (out.response.UpiInitiated? ==>
            && out.response.transaction in out.tables.transactions
            && out.tables.transactions[out.response.transaction]
               == Transaction(order, vpa, out.response.state, out.response.reference))
      && (forall x: Id, reference: Id ::
            && x in t.transactions && order in t.intents && t.intents[order].merchant == m
            && t.transactions[x] == Transaction(order, vpa, TransactionState.Pending, reference)
            ==> out == Outcome(t, UpiInitiated(x, order, TransactionState.Pending, reference)))
  {
    hide LedgerOk, KeysUnique, ReferencesUnique;
    var out := InitiateStep(t, m, order, vpa, newId, newReference);
    if out.response.UpiInitiated? && out.tables == t {
      var x := out.response.transaction;
      assert x in AttemptsFor(t, order, vpa) && HasIntent(t, x);
    }
    forall x: Id | x in AttemptsFor(t, order, vpa) ensures Single(AttemptsFor(t, order, vpa)) == OneRow(x) {
      RowLookupsNeverAmbiguous(t);
    }
    forall x: Id | x in t.transactions && t.transactions[x].intent == order ensures HasIntent(t, x) { }
  }

  /** An order is opened to a payer exactly once: a later payer with another address is refused. */
  lemma InitiationOpensExactlyWhen(t: Tables, m: MerchantId, order: Id, vpa: string, newId: Id, newReference: Id)
    requires Inv(t) && newId !in t.transactions
    ensures InitiateStep(t, m, order, vpa, newId, newReference).tables != t
       <==> order in t.intents && t.intents[order].merchant == m && Attempts(t, order) == {}
  {
    var u := InitiateStep(t, m, order, vpa, newId, newReference).tables;
    RowLookupsNeverAmbiguous(t);
    if order in t.intents && t.intents[order].merchant == m && Attempts(t, order) == {} {
      assert AttemptsFor(t, order, vpa) <= Attempts(t, order);
      assert newId in u.transactions;
    }
  }

  ghost predicate HasAttempt(t: Tables, order: Id, state: TransactionState) {
    exists x :: x in Attempts(t, order) && t.transactions[x].state == state
  }

  /** Exactly how an intent and its attempts go together. */
  lemma CouplingIsExact(t: Tables, order: Id)
    requires Inv(t) && order in t.intents
    ensures var status := t.intents[order].status;
      && (forall x, y :: x in Attempts(t, order) && y in Attempts(t, order) ==> x == y)
      && (status == PaymentStatus.Created <==> Attempts(t, order) == {})
      && (status == PaymentStatus.Processing <==> HasAttempt(t, order, TransactionState.Pending))
      && (status == PaymentStatus.Success <==> HasAttempt(t, order, TransactionState.Success))
      && (status == PaymentStatus.Failed <==> HasAttempt(t, order, TransactionState.Failed))
  { }

  // ---- Order keys ------------------------------------------------------------

  predicate HeldByAnother(t: Tables, merchant: MerchantId, key: string) {
    exists i :: i in t.intents && t.intents[i].key == key && t.intents[i].merchant != merchant
  }

  /** The key is unique across merchants: a request is refused exactly when another merchant holds its key, whatever
      the payloads, and a replay answers with the stored order, whatever the payload. */
  lemma OrderOutcome(t: Tables, m: MerchantId, key: string, amount: int, currency: string, newId: Id)
    requires Inv(t) && newId !in t.intents
    ensures var out := OrderStep(t, m, key, amount, currency, newId);
      && (out.response == OrderIdempotencyReuse <==> HeldByAnother(t, m, key))
      && (out.response != OrderIdempotencyReuse ==>
            exists i :: i in out.tables.intents && out.response == Accepted(i, out.tables.intents[i])
                        && out.tables.intents[i].key == key && out.tables.intents[i].merchant == m)
      && (out.tables != t <==> !KeyTaken(t, key))
  {
    RowLookupsNeverAmbiguous(t);
    var out := OrderStep(t, m, key, amount, currency, newId);
    match Single(OrdersByKey(t, m, key)) {
      case OneRow(i) =>
        assert i in OrdersByKey(t, m, key);
      case NoRow =>
        assert forall i :: i in t.intents && t.intents[i].key == key ==> i !in OrdersByKey(t, m, key);
        if !KeyTaken(t, key) { assert newId in out.tables.intents; }
      case ManyRows =>
    }
  }

  /** Two merchants that pick the same key: the second can never create an order with it. */
  lemma KeyIsNotScopedPerMerchant(m: MerchantId, n: MerchantId)
    requires m != n
    ensures var t := OrderStep(Empty, m, "key-0001", 100, INR, 1).tables;
            OrderStep(t, n, "key-0001", 100, INR, 2).response == OrderIdempotencyReuse
  { }
}

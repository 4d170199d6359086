/** Exactly what every request is answered and what it does to the tables, told by the rows alone. */
module Outcomes {
  import opened Sums
  import opened StateMachine
  import opened Tables
  import opened Services
  import opened Invariants
  import opened Guarantees

  // ---- Orders ----------------------------------------------------------------

  predicate Holds(t: Tables, order: Id, merchant: MerchantId, key: string) {
    order in t.intents && t.intents[order].key == key && t.intents[order].merchant == merchant
  }

  predicate IsFree(t: Tables, key: string) {
    forall i :: i in t.intents ==> t.intents[i].key != key
  }

  /** A free key makes a new order of the request's own terms; the merchant's own key is answered with the stored order,
      whatever the request says; another merchant's key is refused. */
  lemma OrderAnswers(t: Tables, m: MerchantId, key: string, amount: int, currency: string, newId: Id)
    requires Inv(t) && newId !in t.intents
    ensures var out := OrderStep(t, m, key, amount, currency, newId);
      && (IsFree(t, key) ==>
            && out.response == OrderAccepted(newId, key, amount, currency, PaymentStatus.Created)
            && out.tables == t.(intents := t.intents[newId := Intent(m, amount, currency, key, PaymentStatus.Created)]))
      && (forall i :: Holds(t, i, m, key) ==>
            && out.response == OrderAccepted(i, key, t.intents[i].amount, t.intents[i].currency, t.intents[i].status)
            && out.tables == t)
      && (HeldByAnother(t, m, key) ==> out.response == OrderIdempotencyReuse && out.tables == t)
    ensures IsFree(t, key) || HeldByAnother(t, m, key) || exists i :: Holds(t, i, m, key)
  {
    hide LedgerOk, ReferencesUnique, OneAttempt, Matched, Covered;
    RowLookupsNeverAmbiguous(t);
    forall i | i in t.intents && t.intents[i].key == key
      ensures Holds(t, i, m, key) ==> OrdersByKey(t, m, key) == {i}
      ensures !Holds(t, i, m, key) ==> OrdersByKey(t, m, key) == {} && KeyTaken(t, key) && HeldByAnother(t, m, key)
    { }
    if IsFree(t, key) { assert OrdersByKey(t, m, key) == {} && !KeyTaken(t, key); }
  }

  // ---- Initiations -----------------------------------------------------------

  predicate Owned(t: Tables, merchant: MerchantId, order: Id) {
    order in t.intents && t.intents[order].merchant == merchant
  }

  /** Transaction `x` is an attempt to pay the order that still waits for the bank. */
  predicate Opens(t: Tables, x: Id, order: Id) {
    x in t.transactions && t.transactions[x].intent == order && t.transactions[x].state == TransactionState.Pending
  }

  /** An order of another merchant, or none, is not found; a finished one is refused; a new one is opened with the
      address and reference of the request; one already open answers the same payer with its transaction, and fails for
      any other payer. */
  lemma InitiationAnswers(t: Tables, m: MerchantId, order: Id, vpa: string, newId: Id, newReference: Id)
    requires Inv(t) && newId !in t.transactions
    ensures var out := InitiateStep(t, m, order, vpa, newId, newReference);
      && (out.response == OrderNotFound <==> !Owned(t, m, order))
      && (out.response == AlreadyFinalised <==> Owned(t, m, order) && IsFinal(t.intents[order].status))
      && (out.response.UpiInitiated? <==>
            Owned(t, m, order) && (t.intents[order].status == PaymentStatus.Created
                                   || exists x :: Opens(t, x, order) && t.transactions[x].vpa == vpa))
      && (Owned(t, m, order) && t.intents[order].status == PaymentStatus.Created ==>
            && out.response == UpiInitiated(newId, order, TransactionState.Pending, newReference)
            && out.tables == t.(
                 intents := t.intents[order := t.intents[order].(status := PaymentStatus.Processing)],
                 transactions := t.transactions[
                   newId := Transaction(order, vpa, TransactionState.Pending, newReference)]))
      && (forall x :: Owned(t, m, order) && Opens(t, x, order) ==>
            && out.tables == t
            && out.response == if t.transactions[x].vpa == vpa
                               then UpiInitiated(x, order, TransactionState.Pending, t.transactions[x].reference)
                               else InvalidStateTransition)
      && (out.response.UpiInitiated? || out.tables == t)
  {
    hide LedgerOk, KeysUnique, ReferencesUnique;
    RowLookupsNeverAmbiguous(t);
    if order in t.intents {
      CouplingIsExact(t, order);
      assert AttemptsFor(t, order, vpa) <= Attempts(t, order);
      forall x: Id | Opens(t, x, order)
        ensures t.intents[order].status == PaymentStatus.Processing
        ensures AttemptsFor(t, order, vpa) == if t.transactions[x].vpa == vpa then {x} else {}
      {
        assert x in Attempts(t, order) && HasIntent(t, x);
      }
      if t.intents[order].status == PaymentStatus.Processing {
        var x :| x in Attempts(t, order) && t.transactions[x].state == TransactionState.Pending;
        assert Opens(t, x, order);
      }
    }
  }

  predicate IsFinal(status: PaymentStatus) {
    status == PaymentStatus.Success || status == PaymentStatus.Failed
  }

  // ---- Callbacks -------------------------------------------------------------

  predicate Refers(t: Tables, x: Id, reference: Id) {
    HasIntent(t, x) && t.transactions[x].reference == reference
  }

  predicate Bills(t: Tables, x: Id, reference: Id, amount: int) {
    Refers(t, x, reference) && IntentOf(t, x).amount == amount
  }

  /** The event reports the state. */
  predicate Says(event: Event, state: TransactionState) {
    || (event.PaymentSuccess? && state == TransactionState.Success)
    || (event.PaymentFailed? && state == TransactionState.Failed)
  }

  /** Which callback is answered how, each answer exactly when. */
  lemma CallbackAnswers(t: Tables, event: Event, reference: Id, amount: int)
    requires Inv(t)
    ensures var r := CallbackStep(t, event, reference, amount).response;
      && (r == TransactionNotFound <==> forall x :: !Refers(t, x, reference))
      && (r == AmountMismatch <==> exists x :: Refers(t, x, reference) && IntentOf(t, x).amount != amount)
      && (forall x, s :: r == CallbackReplayed(x, s) <==>
            Bills(t, x, reference, amount) && t.transactions[x].state == s && Says(event, s))
      && (r == InvalidStateTransition <==> exists x :: Contradicts(t, x, event, reference, amount))
      && (r == ServerError <==> event.PaymentSuccess? && exists x :: NamesUnfit(t, x, reference, amount))
      && (forall x, order, s :: r == CallbackApplied(x, order, s) <==>
            && Moves(t, x, event, reference, amount) && order == t.transactions[x].intent && Says(event, s))
  {
    hide Inv, CallbackStep, EventResponse, Contradicts, NamesUnfit, Moves, Bills;
    forall y: Id
      ensures Contradicts(t, y, event, reference, amount) ==> Refers(t, y, reference)
      ensures NamesUnfit(t, y, reference, amount) ==> Refers(t, y, reference)
      ensures Moves(t, y, event, reference, amount) ==> Refers(t, y, reference)
      ensures Bills(t, y, reference, amount) ==> Refers(t, y, reference)
    {
      AllRefer(t, y, event, reference, amount);
    }
    if x :| Refers(t, x, reference) {
      ReferredStep(t, x, event, reference, amount);
      EventAnswers(t, x, event, amount);
      BillsWhen(t, x, reference, amount);
    } else {
      UnreferredStep(t, event, reference, amount);
    }
  }

  lemma AllRefer(t: Tables, y: Id, event: Event, reference: Id, amount: int)
    ensures Contradicts(t, y, event, reference, amount) ==> Refers(t, y, reference)
    ensures NamesUnfit(t, y, reference, amount) ==> Refers(t, y, reference)
    ensures Moves(t, y, event, reference, amount) ==> Refers(t, y, reference)
    ensures Bills(t, y, reference, amount) ==> Refers(t, y, reference)
  { }

  lemma BillsWhen(t: Tables, x: Id, reference: Id, amount: int)
    requires Refers(t, x, reference)
    ensures Bills(t, x, reference, amount) <==> IntentOf(t, x).amount == amount
  { }

  lemma ReferredStep(t: Tables, x: Id, event: Event, reference: Id, amount: int)
    requires Inv(t) && Refers(t, x, reference)
    ensures RowOk(t, x) && t.transactions[x].reference == reference
    ensures CallbackStep(t, event, reference, amount).response == EventResponse(t, x, event, amount)
    ensures forall y :: Refers(t, y, reference) ==> y == x
  {
    hide Inv, EventStep, EventResponse, CanPost, Fits;
    RowsAreOk(t, x);
    FoundByReference(t, x);
    forall y | Refers(t, y, reference) ensures y == x { FoundByReference(t, y); }
  }

  lemma UnreferredStep(t: Tables, event: Event, reference: Id, amount: int)
    requires Inv(t) && forall x :: !Refers(t, x, reference)
    ensures CallbackStep(t, event, reference, amount).response == TransactionNotFound
  {
    hide LedgerOk, KeysUnique, ReferencesUnique, OneAttempt, Covered;
    forall x | x in t.transactions ensures t.transactions[x].reference != reference {
      assert HasIntent(t, x) && !Refers(t, x, reference);
    }
  }

  lemma EventAnswers(t: Tables, x: Id, event: Event, amount: int)
    requires RowOk(t, x)
    ensures var r, txn, reference := EventResponse(t, x, event, amount), t.transactions[x], t.transactions[x].reference;
      && r != TransactionNotFound
      && (r == AmountMismatch <==> IntentOf(t, x).amount != amount)
      && (forall y, s :: r == CallbackReplayed(y, s) <==>
            y == x && IntentOf(t, x).amount == amount && txn.state == s && Says(event, s))
      && (r == InvalidStateTransition <==> Contradicts(t, x, event, reference, amount))
      && (r == ServerError <==> event.PaymentSuccess? && NamesUnfit(t, x, reference, amount))
      && (forall y, order, s :: r == CallbackApplied(y, order, s) <==>
            y == x && Moves(t, x, event, reference, amount) && order == txn.intent && Says(event, s))
  {
    hide CanPost, Fits;
  }

  // ---- Postings --------------------------------------------------------------

  /** What a double entry does, in any currency: one debit on the payer and one credit on the merchant, both accounts
      raised by the amount and created if they were missing, and nothing else. */
  lemma DoubleEntryDoes(t: Tables, x: Id, payer: string, merchant: MerchantId, amount: int, currency: string)
    requires payer != "merchant:" + merchant
    ensures var u, payee := DoubleEntry(t, x, payer, merchant, amount, currency), "merchant:" + merchant;
      && u.intents == t.intents && u.transactions == t.transactions
      && u.entries == t.entries + [Entry(payer, x, amount, Debit, currency), Entry(payee, x, amount, Credit, currency)]
      && u.accounts.Keys == t.accounts.Keys + {payer, payee}
      && (forall a :: a in u.accounts && a in t.accounts ==>
            u.accounts[a] == t.accounts[a].(
              balance := t.accounts[a].balance + if a == payer || a == payee then amount else 0))
      && (payer !in t.accounts ==> u.accounts[payer] == Account(Virtual, None, amount))
      && (payee !in t.accounts ==> u.accounts[payee] == Account(MerchantSettlement, Some(merchant), amount))
  { }

  /** An applied callback moves its two rows to the reported state; a success is posted, a failure touches no account
      and no entry. Every other callback changes nothing. */
  lemma CallbackDoes(t: Tables, event: Event, reference: Id, amount: int)
    requires Inv(t)
    ensures var out := CallbackStep(t, event, reference, amount); var u := out.tables;
      if !out.response.CallbackApplied? then u == t
      else
        var x := out.response.transaction;
        x in t.transactions && t.transactions[x].intent in t.intents &&
        var txn, intent := t.transactions[x], t.intents[t.transactions[x].intent];
        if event.PaymentFailed?
        then
          u == t.(transactions := t.transactions[x := txn.(state := TransactionState.Failed)],
                  intents := t.intents[txn.intent := intent.(status := PaymentStatus.Failed)])
        else
          u == DoubleEntry(t.(transactions := t.transactions[x := txn.(state := TransactionState.Success)],
                              intents := t.intents[txn.intent := intent.(status := PaymentStatus.Success)]),
                           x, txn.vpa, intent.merchant, amount, "INR")
  {
    hide Inv, CanPost, DoubleEntry;
    AppliedExactlyWhen(t, event, reference, amount);
    var out := CallbackStep(t, event, reference, amount);
    if out.response.CallbackApplied? {
      FoundByReference(t, out.response.transaction);
    }
  }
}

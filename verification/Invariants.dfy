/** What every committed state satisfies, and why every step keeps it. */
module Invariants {
  import opened Sums
  import opened StateMachine
  import opened Tables
  import opened Services
  import opened Ledger

  // ---- The payment lifecycle -------------------------------------------------

  function Attempts(t: Tables, order: Id): set<Id> {
    set x | x in t.transactions && t.transactions[x].intent == order
  }

  ghost predicate RowsOk(t: Tables) {
    && (forall i :: i in t.intents ==> ValidAmount(t.intents[i].amount))
    && (forall x :: x in t.transactions ==> HasIntent(t, x) && ValidVpa(t.transactions[x].vpa))
  }

  /** No key, reference or intent is used twice. */
  ghost predicate KeysUnique(t: Tables) {
    forall i, j | i in t.intents && j in t.intents && t.intents[i].key == t.intents[j].key :: i == j
  }

  ghost predicate ReferencesUnique(t: Tables) {
    forall x, y | x in t.transactions && y in t.transactions
                  && t.transactions[x].reference == t.transactions[y].reference :: x == y
  }

  ghost predicate OneAttempt(t: Tables) {
    forall x, y | x in t.transactions && y in t.transactions
                  && t.transactions[x].intent == t.transactions[y].intent :: x == y
  }

  /** An intent is in the status that goes with its transaction's state ... */
  ghost predicate Matched(t: Tables)
    requires RowsOk(t)
  {
    forall x :: x in t.transactions ==>
      && t.transactions[x].state != TransactionState.Initiated
      && IntentOf(t, x).status == StatusFor(t.transactions[x].state)
  }

  /** ... and is still CREATED exactly when it has none. */
  ghost predicate Covered(t: Tables) {
    forall i :: i in t.intents ==> (t.intents[i].status == PaymentStatus.Created <==> Attempts(t, i) == {})
  }

  ghost predicate Lifecycle(t: Tables) {
    RowsOk(t) && KeysUnique(t) && ReferencesUnique(t) && OneAttempt(t) && Matched(t) && Covered(t)
  }

  // ---- The ledger ------------------------------------------------------------

  predicate IsSettled(t: Tables, x: Id) {
    HasIntent(t, x) && t.transactions[x].state == TransactionState.Success
  }

  function Settled(t: Tables): set<Id> {
    set x | x in t.transactions && IsSettled(t, x)
  }

  predicate Touches(t: Tables, x: Id, account: string)
    requires HasIntent(t, x)
  {
    t.transactions[x].vpa == account || SettlementAccount(IntentOf(t, x).merchant) == account
  }

  /** The settled transactions an account takes part in. */
  function SettledOn(t: Tables, account: string): set<Id> {
    set x | x in t.transactions && IsSettled(t, x) && Touches(t, x, account)
  }

  function Amounts(t: Tables): map<Id, int> {
    map x | x in t.transactions && HasIntent(t, x) :: IntentOf(t, x).amount
  }

  function KindOf(identifier: string): AccountType {
    if '@' in identifier then Virtual else MerchantSettlement
  }

  function SideOf(identifier: string): EntryType {
    if '@' in identifier then Debit else Credit
  }

  /** The two entries of a settled transaction, and none of any other. */
  function Expected(t: Tables, x: Id): seq<Entry> {
    if IsSettled(t, x) then [DebitOf(t, x), CreditOf(t, x)] else []
  }

  /** A running balance is the sum of the account's own side of the entry history. */
  ghost predicate Indexed(t: Tables) {
    forall a: string, side :: EntrySum(t.entries, a, side) == if side == SideOf(a) then Balance(t, a) else 0
  }

  /** A running balance is the sum of the settled payments of its payer or merchant. */
  ghost predicate Owed(t: Tables) {
    forall a: string :: Balance(t, a) == Total(SettledOn(t, a), Amounts(t))
  }

  ghost predicate PostedOnce(t: Tables) {
    forall x: Id :: EntriesFor(t.entries, x) == Expected(t, x)
  }

  ghost predicate AccountOk(a: string, row: Account) {
    && row.kind == KindOf(a)
    && 0 < row.balance < MONEY_LIMIT
    && (row.kind.Virtual? ==> row.merchant == None)
    && (row.kind.MerchantSettlement? ==> row.merchant.Some? && a == SettlementAccount(row.merchant.value))
  }

  ghost predicate AccountsOk(t: Tables) {
    forall a :: a in t.accounts ==> AccountOk(a, t.accounts[a])
  }

  ghost predicate Balanced(t: Tables) {
    SideTotal(t.entries, Debit) == SideTotal(t.entries, Credit) == Total(Settled(t), Amounts(t))
  }

  ghost predicate LedgerOk(t: Tables) {
    Indexed(t) && Owed(t) && PostedOnce(t) && AccountsOk(t) && Balanced(t)
  }

  ghost predicate Inv(t: Tables) {
    Lifecycle(t) && LedgerOk(t)
  }

  lemma EmptyInv()
    ensures Inv(Empty)
  { }

  // ---- Preservation ----------------------------------------------------------

  /** Every old transaction is still there, with the same payer, merchant and amount. */
  ghost predicate KeepsTerms(t: Tables, u: Tables) {
    forall x :: x in t.transactions && HasIntent(t, x) ==>
      && HasIntent(u, x)
      && u.transactions[x].vpa == t.transactions[x].vpa
      && IntentOf(u, x).merchant == IntentOf(t, x).merchant
      && IntentOf(u, x).amount == IntentOf(t, x).amount
  }

  /** A step that leaves accounts, entries and the settled transactions alone keeps the ledger. */
  lemma LedgerFrame(t: Tables, u: Tables)
    requires RowsOk(t) && LedgerOk(t) && KeepsTerms(t, u)
    requires u.accounts == t.accounts && u.entries == t.entries
    requires forall x :: IsSettled(u, x) <==> IsSettled(t, x)
    ensures LedgerOk(u)
  {
    forall a: string ensures Balance(u, a) == Total(SettledOn(u, a), Amounts(u)) {
      assert SettledOn(u, a) == SettledOn(t, a) by {
        forall x ensures x in SettledOn(u, a) <==> x in SettledOn(t, a) {
          assert IsSettled(u, x) <==> IsSettled(t, x);
        }
      }
      TotalSame(SettledOn(t, a), Amounts(t), Amounts(u));
      assert Balance(u, a) == Balance(t, a);
    }
    assert Settled(u) == Settled(t) by {
      forall x ensures x in Settled(u) <==> x in Settled(t) {
        assert IsSettled(u, x) <==> IsSettled(t, x);
      }
    }
    TotalSame(Settled(t), Amounts(t), Amounts(u));
    forall x: Id ensures EntriesFor(u.entries, x) == Expected(u, x) {
      assert EntriesFor(t.entries, x) == Expected(t, x);
    }
    assert forall a: string :: Balance(u, a) == Balance(t, a);
  }

  function WithIntent(t: Tables, id: Id, intent: Intent): Tables {
    t.(intents := t.intents[id := intent])
  }

  lemma NewIntentRows(t: Tables, id: Id, intent: Intent)
    requires RowsOk(t) && id !in t.intents && ValidAmount(intent.amount)
    ensures RowsOk(WithIntent(t, id, intent)) && KeepsTerms(t, WithIntent(t, id, intent))
    ensures forall x :: x in t.transactions ==>
      && HasIntent(t, x) && HasIntent(WithIntent(t, id, intent), x)
      && IntentOf(WithIntent(t, id, intent), x) == IntentOf(t, x)
  {
    forall x | x in t.transactions ensures HasIntent(t, x) && HasIntent(WithIntent(t, id, intent), x) { }
  }

  lemma NewIntentCovered(t: Tables, id: Id, intent: Intent)
    requires RowsOk(t) && Covered(t) && id !in t.intents && intent.status == PaymentStatus.Created
    ensures Covered(WithIntent(t, id, intent))
  {
    var u := WithIntent(t, id, intent);
    forall i | i in u.intents ensures Attempts(u, i) == Attempts(t, i) { }
    forall x | x in t.transactions ensures t.transactions[x].intent != id { assert HasIntent(t, x); }
  }

  lemma NewIntentKeepsInv(t: Tables, id: Id, intent: Intent)
    requires Inv(t) && id !in t.intents && !KeyTaken(t, intent.key)
    requires ValidAmount(intent.amount) && intent.status == PaymentStatus.Created
    ensures Inv(WithIntent(t, id, intent))
  {
    hide Covered, RowsOk, LedgerOk, KeepsTerms;
    NewIntentRows(t, id, intent);
    NewIntentCovered(t, id, intent);
    LedgerFrame(t, WithIntent(t, id, intent));
  }

  lemma OrderKeepsInv(t: Tables, m: MerchantId, key: string, amount: int, currency: string, newId: Id)
    requires Inv(t) && ValidAmount(amount)
    ensures Inv(OrderStep(t, m, key, amount, currency, newId).tables)
  {
    if !KeyTaken(t, key) && newId !in t.intents {
      NewIntentKeepsInv(t, newId, Intent(m, amount, currency, key, PaymentStatus.Created));
    }
  }

  lemma AttemptedRows(t: Tables, order: Id, vpa: string, newId: Id, newReference: Id)
    requires RowsOk(t) && order in t.intents && newId !in t.transactions && ValidVpa(vpa)
    ensures RowsOk(Attempted(t, order, vpa, newId, newReference))
    ensures KeepsTerms(t, Attempted(t, order, vpa, newId, newReference))
  {
    var u := Attempted(t, order, vpa, newId, newReference);
    forall x | x in u.transactions ensures HasIntent(u, x) {
      if x in t.transactions { assert HasIntent(t, x); }
    }
  }

  lemma AttemptedUnique(t: Tables, order: Id, vpa: string, newId: Id, newReference: Id)
    requires Lifecycle(t) && order in t.intents && newId !in t.transactions
    requires ByReference(t, newReference) == {} && Attempts(t, order) == {}
    ensures var u := Attempted(t, order, vpa, newId, newReference);
            KeysUnique(u) && ReferencesUnique(u) && OneAttempt(u)
  {
    forall x | x in t.transactions
      ensures t.transactions[x].intent != order && t.transactions[x].reference != newReference
    {
      assert x !in Attempts(t, order) && x !in ByReference(t, newReference);
    }
  }

  lemma AttemptedMatched(t: Tables, order: Id, vpa: string, newId: Id, newReference: Id)
    requires Lifecycle(t) && order in t.intents && newId !in t.transactions
    requires Attempts(t, order) == {} && RowsOk(Attempted(t, order, vpa, newId, newReference))
    ensures Matched(Attempted(t, order, vpa, newId, newReference))
  { }

  lemma AttemptedCovered(t: Tables, order: Id, vpa: string, newId: Id, newReference: Id)
    requires Covered(t) && order in t.intents && newId !in t.transactions
    ensures Covered(Attempted(t, order, vpa, newId, newReference))
  {
    var u := Attempted(t, order, vpa, newId, newReference);
    forall i | i in u.intents
      ensures u.intents[i].status == PaymentStatus.Created <==> Attempts(u, i) == {}
    {
      if i == order { assert newId in Attempts(u, i); }
      else { assert Attempts(u, i) == Attempts(t, i); }
    }
  }

  lemma AttemptedKeepsInv(t: Tables, order: Id, vpa: string, newId: Id, newReference: Id)
    requires Inv(t) && order in t.intents && t.intents[order].status == PaymentStatus.Created
    requires newId !in t.transactions && ByReference(t, newReference) == {} && ValidVpa(vpa)
    ensures Inv(Attempted(t, order, vpa, newId, newReference))
  {
    AttemptedRows(t, order, vpa, newId, newReference);
    AttemptedUnique(t, order, vpa, newId, newReference);
    AttemptedMatched(t, order, vpa, newId, newReference);
    AttemptedCovered(t, order, vpa, newId, newReference);
    LedgerFrame(t, Attempted(t, order, vpa, newId, newReference));
  }

  lemma InitiateKeepsInv(t: Tables, m: MerchantId, order: Id, vpa: string, newId: Id, newReference: Id)
    requires Inv(t) && ValidVpa(vpa) && ByReference(t, newReference) == {}
    ensures Inv(InitiateStep(t, m, order, vpa, newId, newReference).tables)
  {
    hide LedgerOk, KeysUnique, ReferencesUnique, OneAttempt, Matched, Covered;
    var u := InitiateStep(t, m, order, vpa, newId, newReference).tables;
    if u != t { AttemptedKeepsInv(t, order, vpa, newId, newReference); }
  }

  predicate IsPending(t: Tables, x: Id) {
    HasIntent(t, x) && t.transactions[x].state == TransactionState.Pending
  }

  lemma FinishedRows(t: Tables, x: Id, event: Event)
    requires RowsOk(t) && IsPending(t, x)
    ensures RowsOk(Finished(t, x, event)) && KeepsTerms(t, Finished(t, x, event))
  {
    var u := Finished(t, x, event);
    forall y | y in t.transactions ensures HasIntent(t, y) && HasIntent(u, y) { }
  }

  lemma FinishedUnique(t: Tables, x: Id, event: Event)
    requires Lifecycle(t) && IsPending(t, x)
    ensures var u := Finished(t, x, event); KeysUnique(u) && ReferencesUnique(u) && OneAttempt(u)
  { }

  lemma FinishedMatched(t: Tables, x: Id, event: Event)
    requires Lifecycle(t) && IsPending(t, x) && RowsOk(Finished(t, x, event))
    ensures Matched(Finished(t, x, event))
  { }

  lemma FinishedCovered(t: Tables, x: Id, event: Event)
    requires Covered(t) && IsPending(t, x)
    ensures Covered(Finished(t, x, event))
  {
    var u := Finished(t, x, event);
    forall i | i in u.intents
      ensures u.intents[i].status == PaymentStatus.Created <==> Attempts(u, i) == {}
    {
      assert Attempts(u, i) == Attempts(t, i);
      if i == t.transactions[x].intent { assert x in Attempts(t, i); }
    }
  }

  lemma FinishedKeepsLifecycle(t: Tables, x: Id, event: Event)
    requires Lifecycle(t) && IsPending(t, x)
    ensures Lifecycle(Finished(t, x, event)) && KeepsTerms(t, Finished(t, x, event))
  {
    FinishedRows(t, x, event);
    FinishedUnique(t, x, event);
    FinishedMatched(t, x, event);
    FinishedCovered(t, x, event);
  }

  lemma FailedKeepsInv(t: Tables, x: Id)
    requires Inv(t) && IsPending(t, x)
    ensures Inv(Finished(t, x, PaymentFailed))
  {
    var u := Finished(t, x, PaymentFailed);
    FinishedKeepsLifecycle(t, x, PaymentFailed);
    forall y ensures IsSettled(u, y) <==> IsSettled(t, y) { }
    LedgerFrame(t, u);
  }

  // ---- Settlement ------------------------------------------------------------

  /** What a posting does to one balance. */
  lemma PostedBalance(t: Tables, x: Id, a: string)
    requires HasIntent(t, x) && '@' in t.transactions[x].vpa
    ensures Balance(Posted(t, x), a) == Balance(t, a) + if Touches(t, x, a) then IntentOf(t, x).amount else 0
  { }

  lemma PostedIndexed(t: Tables, x: Id)
    requires Indexed(t) && HasIntent(t, x) && '@' in t.transactions[x].vpa
    ensures Indexed(Posted(t, x))
  {
    var u, d, c := Posted(t, x), DebitOf(t, x), CreditOf(t, x);
    forall a: string, side
      ensures EntrySum(u.entries, a, side) == if side == SideOf(a) then Balance(u, a) else 0
    {
      AppendPair(t.entries, d, c);
      PostedBalance(t, x, a);
      assert EntrySum(t.entries, a, side) == if side == SideOf(a) then Balance(t, a) else 0;
    }
  }

  lemma PostedAccounts(t: Tables, x: Id)
    requires AccountsOk(t) && RowsOk(t) && HasIntent(t, x) && CanPost(t, x)
    ensures AccountsOk(Posted(t, x))
  {
    var u := Posted(t, x);
    var payer, payee := t.transactions[x].vpa, SettlementAccount(IntentOf(t, x).merchant);
    forall a | a in u.accounts ensures AccountOk(a, u.accounts[a]) {
      if a in t.accounts { assert AccountOk(a, t.accounts[a]); }
      if a != payer && a != payee { assert u.accounts[a] == t.accounts[a]; }
    }
  }

  /** The state after a success callback that is applied. */
  function Settle(t: Tables, x: Id): Tables
    requires HasIntent(t, x)
  {
    Posted(Finished(t, x, PaymentSuccess), x)
  }

  lemma SettleRow(t: Tables, x: Id, y: Id)
    requires RowsOk(t) && IsPending(t, x) && y in t.transactions
    ensures HasIntent(t, y) && HasIntent(Settle(t, x), y)
    ensures IntentOf(Settle(t, x), y).amount == IntentOf(t, y).amount
    ensures IsSettled(Settle(t, x), y) <==> IsSettled(t, y) || y == x
    ensures forall a: string :: Touches(Settle(t, x), y, a) <==> Touches(t, y, a)
    ensures DebitOf(Settle(t, x), y) == DebitOf(t, y) && CreditOf(Settle(t, x), y) == CreditOf(t, y)
  { }

  lemma SettledSetAfter(t: Tables, x: Id)
    requires RowsOk(t) && IsPending(t, x)
    ensures Settled(Settle(t, x)) == Settled(t) + {x} && x !in Settled(t)
  {
    forall y | y in t.transactions { SettleRow(t, x, y); }
  }

  lemma SettledAfter(t: Tables, x: Id)
    requires RowsOk(t) && IsPending(t, x)
    ensures Settled(Settle(t, x)) == Settled(t) + {x} && x !in Settled(t)
    ensures Total(Settled(t), Amounts(Settle(t, x))) == Total(Settled(t), Amounts(t))
    ensures Total(Settled(Settle(t, x)), Amounts(Settle(t, x))) == Total(Settled(t), Amounts(t)) + IntentOf(t, x).amount
  {
    hide Settle;
    var u := Settle(t, x);
    SettledSetAfter(t, x);
    forall y | y in t.transactions { SettleRow(t, x, y); }
    TotalSame(Settled(t), Amounts(t), Amounts(u));
    TotalInsert(Settled(t), Amounts(u), x);
  }

  lemma SettledOnSetAfter(t: Tables, x: Id, a: string)
    requires RowsOk(t) && IsPending(t, x)
    ensures SettledOn(Settle(t, x), a) == SettledOn(t, a) + (if Touches(t, x, a) then {x} else {})
    ensures x !in SettledOn(t, a)
  {
    forall y | y in t.transactions { SettleRow(t, x, y); }
  }

  lemma SettledOnAfter(t: Tables, x: Id, a: string)
    requires RowsOk(t) && IsPending(t, x)
    ensures SettledOn(Settle(t, x), a) == SettledOn(t, a) + (if Touches(t, x, a) then {x} else {})
    ensures Total(SettledOn(Settle(t, x), a), Amounts(Settle(t, x)))
         == Total(SettledOn(t, a), Amounts(t)) + if Touches(t, x, a) then IntentOf(t, x).amount else 0
  {
    hide Settle;
    var u := Settle(t, x);
    SettledOnSetAfter(t, x, a);
    forall y | y in t.transactions { SettleRow(t, x, y); }
    var before, after := SettledOn(t, a), SettledOn(u, a);
    TotalSame(before, Amounts(t), Amounts(u));
    if Touches(t, x, a) { TotalInsert(before, Amounts(u), x); } else { assert after == before; }
  }

  lemma SettleOwedAt(t: Tables, x: Id, a: string)
    requires Lifecycle(t) && IsPending(t, x)
    requires Balance(t, a) == Total(SettledOn(t, a), Amounts(t))
    ensures Balance(Settle(t, x), a) == Total(SettledOn(Settle(t, x), a), Amounts(Settle(t, x)))
  {
    SettledOnAfter(t, x, a);
    PostedBalance(Finished(t, x, PaymentSuccess), x, a);
  }

  lemma SettleOwed(t: Tables, x: Id)
    requires Lifecycle(t) && Owed(t) && IsPending(t, x)
    ensures Owed(Settle(t, x))
  {
    forall a: string ensures Balance(Settle(t, x), a) == Total(SettledOn(Settle(t, x), a), Amounts(Settle(t, x))) {
      assert Balance(t, a) == Total(SettledOn(t, a), Amounts(t));
      SettleOwedAt(t, x, a);
    }
  }

  lemma SettleExpected(t: Tables, x: Id, y: Id)
    requires RowsOk(t) && IsPending(t, x)
    ensures Expected(Settle(t, x), y) == if y == x then [DebitOf(t, x), CreditOf(t, x)] else Expected(t, y)
  { }

  lemma SettlePostedOnce(t: Tables, x: Id)
    requires RowsOk(t) && PostedOnce(t) && IsPending(t, x)
    ensures PostedOnce(Settle(t, x))
  {
    var u := Settle(t, x);
    forall y: Id ensures EntriesFor(u.entries, y) == Expected(u, y) {
      assert EntriesFor(t.entries, y) == Expected(t, y);
      SettleExpected(t, x, y);
      AppendPair(t.entries, DebitOf(t, x), CreditOf(t, x));
    }
  }

  lemma SettleBalanced(t: Tables, x: Id)
    requires Lifecycle(t) && Balanced(t) && IsPending(t, x)
    ensures Balanced(Settle(t, x))
  {
    SettledAfter(t, x);
    AppendPair(t.entries, DebitOf(t, x), CreditOf(t, x));
  }

  lemma SettleLedger(t: Tables, x: Id)
    requires Lifecycle(t) && LedgerOk(t) && IsPending(t, x) && CanPost(t, x)
    ensures LedgerOk(Settle(t, x))
  {
    var f := Finished(t, x, PaymentSuccess);
    FinishedRows(t, x, PaymentSuccess);
    SettleIndexed(t, x);
    PostedAccounts(f, x);
    SettleOwed(t, x);
    SettlePostedOnce(t, x);
    SettleBalanced(t, x);
  }

  lemma SettleIndexed(t: Tables, x: Id)
    requires Indexed(t) && IsPending(t, x) && '@' in t.transactions[x].vpa
    ensures Indexed(Settle(t, x))
  {
    var f := Finished(t, x, PaymentSuccess);
    assert Indexed(f) by { assert forall a: string :: Balance(f, a) == Balance(t, a); }
    PostedIndexed(f, x);
  }

  lemma PostedLifecycle(t: Tables, x: Id)
    requires Lifecycle(t) && HasIntent(t, x)
    ensures Lifecycle(Posted(t, x))
  { }

  lemma SettleKeepsInv(t: Tables, x: Id)
    requires Inv(t) && IsPending(t, x) && CanPost(t, x)
    ensures Inv(Settle(t, x))
  {
    FinishedKeepsLifecycle(t, x, PaymentSuccess);
    PostedLifecycle(Finished(t, x, PaymentSuccess), x);
    SettleLedger(t, x);
  }

  lemma EventKeepsInv(t: Tables, x: Id, event: Event, amount: int)
    requires Inv(t) && HasIntent(t, x)
    ensures Inv(EventStep(t, x, event, amount))
  {
    if Applies(t, x, event, amount) {
      if event.PaymentSuccess? { SettleKeepsInv(t, x); } else { FailedKeepsInv(t, x); }
    }
  }

  /** Every request, accepted or refused, keeps the invariant. */
  lemma StepKeepsInv(t: Tables, req: Request)
    requires Inv(t) && ValidRequest(req) && Fresh(t, req)
    ensures Inv(Step(t, req).tables)
  {
    match req
    case CreateOrder(m, key, amount, currency, newId) => OrderKeepsInv(t, m, key, amount, currency, newId);
    case InitiateUpi(m, order, vpa, newId, newReference) => InitiateKeepsInv(t, m, order, vpa, newId, newReference);
    case BankCallback(event, reference, amount) =>
      match Single(ByReference(t, reference)) {
        case OneRow(x) => if HasIntent(t, x) { EventKeepsInv(t, x, event, amount); }
        case _ =>
      }
  }
}

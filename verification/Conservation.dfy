/** What the invariant says about money. */
module Conservation {
  import opened Sums
  import opened StateMachine
  import opened Tables
  import opened Services
  import opened Ledger
  import opened Invariants

  function IntentAmounts(t: Tables): map<Id, int> {
    map i | i in t.intents :: t.intents[i].amount
  }

  function SuccessIntents(t: Tables): set<Id> {
    set i | i in t.intents && t.intents[i].status == PaymentStatus.Success
  }

  function SuccessIntentsOf(t: Tables, merchant: MerchantId): set<Id> {
    set i | i in t.intents && t.intents[i].status == PaymentStatus.Success && t.intents[i].merchant == merchant
  }

  function SettledFrom(t: Tables, vpa: string): set<Id> {
    set x | x in t.transactions && IsSettled(t, x) && t.transactions[x].vpa == vpa
  }

  function IntentIds(t: Tables): map<Id, Id> {
    map x | x in t.transactions :: t.transactions[x].intent
  }

  /** The settled transactions in `xs` and the successful intents in `ys` are the same payments. */
  lemma SamePayments(t: Tables, xs: set<Id>, ys: set<Id>)
    requires Inv(t) && xs <= Settled(t) && ys <= SuccessIntents(t)
    requires forall x :: x in Settled(t) ==> (x in xs <==> t.transactions[x].intent in ys)
    ensures Total(xs, Amounts(t)) == Total(ys, IntentAmounts(t))
  {
    forall i | i in ys ensures i in Image(xs, IntentIds(t)) {
      assert Attempts(t, i) != {};
      var x :| x in Attempts(t, i);
      assert HasIntent(t, x);
      assert x in Settled(t);
    }
    forall x | x in xs ensures IntentIds(t)[x] in ys && Amounts(t)[x] == IntentAmounts(t)[IntentIds(t)[x]] {
      assert x in Settled(t) && HasIntent(t, x);
    }
    assert Image(xs, IntentIds(t)) == ys;
    TotalReindex(xs, Amounts(t), IntentIds(t), IntentAmounts(t));
  }

  /** A payer's balance is its debit entries, and the settled payments made from its address. */
  lemma VirtualBalance(t: Tables, vpa: string)
    requires Inv(t) && '@' in vpa
    ensures Balance(t, vpa) == EntrySum(t.entries, vpa, Debit) == Total(SettledFrom(t, vpa), Amounts(t))
    ensures EntrySum(t.entries, vpa, Credit) == 0
  {
    assert SettledOn(t, vpa) == SettledFrom(t, vpa);
    assert EntrySum(t.entries, vpa, Debit) == Balance(t, vpa);
    assert EntrySum(t.entries, vpa, Credit) == 0;
  }

  /** A merchant's balance is its credit entries, and its successful intents. */
  lemma SettlementBalance(t: Tables, merchant: MerchantId)
    requires Inv(t)
    ensures var a := SettlementAccount(merchant);
            && Balance(t, a) == EntrySum(t.entries, a, Credit) == Total(SuccessIntentsOf(t, merchant), IntentAmounts(t))
            && EntrySum(t.entries, a, Debit) == 0
  {
    var a := SettlementAccount(merchant);
    forall x | x in Settled(t)
      ensures x in SettledOn(t, a) <==> t.transactions[x].intent in SuccessIntentsOf(t, merchant)
    {
      assert HasIntent(t, x) && ValidVpa(t.transactions[x].vpa);
      if SettlementAccount(IntentOf(t, x).merchant) == a {
        SettlementAccountInjective(IntentOf(t, x).merchant, merchant);
      }
    }
    SamePayments(t, SettledOn(t, a), SuccessIntentsOf(t, merchant));
    assert EntrySum(t.entries, a, Credit) == Balance(t, a);
    assert EntrySum(t.entries, a, Debit) == 0;
  }

  /** Money in equals money out, and both equal what successful intents asked for. */
  lemma BooksBalance(t: Tables)
    requires Inv(t)
    ensures SideTotal(t.entries, Debit) == SideTotal(t.entries, Credit) == Total(SuccessIntents(t), IntentAmounts(t))
  {
    forall x | x in Settled(t) ensures t.transactions[x].intent in SuccessIntents(t) { assert HasIntent(t, x); }
    SamePayments(t, Settled(t), SuccessIntents(t));
  }

  /** A settled transaction has one debit on its payer and one credit on its merchant, each for the intent's amount and
      each in the history exactly once; no other entry names it, and other transactions have none. */
  lemma PostedExactlyOnce(t: Tables, x: Id, e: Entry)
    requires Inv(t) && e.transaction == x
    ensures multiset(t.entries)[e] == if IsSettled(t, x) && (e == DebitOf(t, x) || e == CreditOf(t, x)) then 1 else 0
  {
    EntriesForCounts(t.entries, e);
    assert EntriesFor(t.entries, x) == Expected(t, x);
  }

  lemma SameBalance(t: Tables, u: Tables, a: string)
    requires Owed(t) && Owed(u) && t.intents == u.intents && t.transactions == u.transactions
    ensures Balance(t, a) == Balance(u, a)
  {
    assert SettledOn(t, a) == SettledOn(u, a) && Amounts(t) == Amounts(u);
    assert Balance(t, a) == Total(SettledOn(t, a), Amounts(t));
    assert Balance(u, a) == Total(SettledOn(u, a), Amounts(u));
  }

  lemma SameEntries(t: Tables, u: Tables)
    requires PostedOnce(t) && PostedOnce(u) && t.intents == u.intents && t.transactions == u.transactions
    ensures multiset(t.entries) == multiset(u.entries)
  {
    forall e: Entry ensures multiset(t.entries)[e] == multiset(u.entries)[e] {
      EntriesForCounts(t.entries, e);
      EntriesForCounts(u.entries, e);
      assert EntriesFor(t.entries, e.transaction) == Expected(t, e.transaction);
      assert EntriesFor(u.entries, e.transaction) == Expected(u, e.transaction);
      assert Expected(t, e.transaction) == Expected(u, e.transaction);
    }
  }

  lemma SameRow(t: Tables, u: Tables, a: string)
    requires AccountsOk(t) && AccountsOk(u) && Balance(t, a) == Balance(u, a)
    ensures a in t.accounts <==> a in u.accounts
    ensures a in t.accounts ==> t.accounts[a] == u.accounts[a]
  {
    if a in t.accounts { assert AccountOk(a, t.accounts[a]); }
    if a in u.accounts { assert AccountOk(a, u.accounts[a]); }
    if a in t.accounts && a in u.accounts && '@' !in a {
      SettlementAccountInjective(t.accounts[a].merchant.value, u.accounts[a].merchant.value);
    }
  }

  /** The ledger carries no information of its own: intents and transactions determine every account row, every
      balance and the collection of entries. */
  lemma LedgerDetermined(t: Tables, u: Tables)
    requires Inv(t) && Inv(u) && t.intents == u.intents && t.transactions == u.transactions
    ensures t.accounts == u.accounts && multiset(t.entries) == multiset(u.entries)
  {
    forall a: string
      ensures a in t.accounts <==> a in u.accounts
      ensures a in t.accounts ==> t.accounts[a] == u.accounts[a]
    {
      SameBalance(t, u, a);
      SameRow(t, u, a);
    }
    SameEntries(t, u);
  }

  // ---- Currency --------------------------------------------------------------

  function SuccessIntentsIn(t: Tables, currency: string): set<Id> {
    set i | i in t.intents && t.intents[i].status == PaymentStatus.Success && t.intents[i].currency == currency
  }

  lemma PartOfTotal(part: set<Id>, all: set<Id>, f: map<Id, int>)
    requires part <= all <= f.Keys && forall i :: i in all ==> f[i] > 0
    ensures Total(part, f) == Total(all, f) <==> part == all
  {
    if part != all {
      assert !(all <= part);
      var i :| i in all && i !in part;
      TotalMonotone(part, all - {i}, f);
      TotalExtract(all, f, i);
    }
  }

  /** Entries are always booked in INR, so the INR books equal the INR payments exactly when nothing else was paid. */
  lemma InrBooksExactWhenAllInr(t: Tables)
    requires Inv(t)
    ensures SideTotal(t.entries, Credit) == Total(SuccessIntentsIn(t, INR), IntentAmounts(t))
       <==> forall i :: i in SuccessIntents(t) ==> t.intents[i].currency == INR
  {
    BooksBalance(t);
    PartOfTotal(SuccessIntentsIn(t, INR), SuccessIntents(t), IntentAmounts(t));
    if forall i :: i in SuccessIntents(t) ==> t.intents[i].currency == INR {
      assert SuccessIntentsIn(t, INR) == SuccessIntents(t);
    }
  }

  function DollarOrder(merchant: MerchantId): Request {
    CreateOrder(merchant, "key-0001", 5, "USD", 1)
  }

  function DollarPayer(merchant: MerchantId): Request {
    InitiateUpi(merchant, 1, "payer@upi", 2, 3)
  }

  /** The tables after one dollar payment was ordered, opened and reported as paid. */
  ghost function DollarPaid(merchant: MerchantId): Tables {
    var ordered := Step(Empty, DollarOrder(merchant)).tables;
    var open := Step(ordered, DollarPayer(merchant)).tables;
    Step(open, BankCallback(PaymentSuccess, 3, 5)).tables
  }

  /** Three requests to an empty gateway make its INR books wrong. */
  lemma DollarPaymentIsBookedInInr(merchant: MerchantId)
    ensures var t := DollarPaid(merchant);
      && Inv(t) && 1 in t.intents && t.intents[1] == Intent(merchant, 5, "USD", "key-0001", PaymentStatus.Success)
      && SideTotal(t.entries, Credit) == 5 && Total(SuccessIntentsIn(t, INR), IntentAmounts(t)) == 0
  {
    hide Inv;
    var t2 := DollarOpened(merchant);
    assert ByReference(t2, 3) == {2};
    assert IsPending(t2, 2) && CanPost(t2, 2);
    SettleKeepsInv(t2, 2);
    SettledCallback(t2, 2, 3);
    var t := Settle(t2, 2);
    assert SuccessIntentsIn(t, INR) == {};
    AppendPair([], DebitOf(t2, 2), CreditOf(t2, 2));
  }

  lemma SettledCallback(t: Tables, x: Id, reference: Id)
    requires ByReference(t, reference) == {x} && IsPending(t, x) && IntentOf(t, x).status == PaymentStatus.Processing
    requires CanPost(t, x)
    ensures Step(t, BankCallback(PaymentSuccess, reference, IntentOf(t, x).amount)).tables == Settle(t, x)
  { }

  lemma DollarOrdered(merchant: MerchantId) returns (t: Tables)
    ensures t == Step(Empty, DollarOrder(merchant)).tables && Inv(t)
    ensures t == WithIntent(Empty, 1, Intent(merchant, 5, "USD", "key-0001", PaymentStatus.Created))
  {
    EmptyInv();
    t := Step(Empty, DollarOrder(merchant)).tables;
    StepKeepsInv(Empty, DollarOrder(merchant));
    assert OrdersByKey(Empty, merchant, "key-0001") == {};
  }

  lemma DollarOpened(merchant: MerchantId) returns (t: Tables)
    ensures t == Step(Step(Empty, DollarOrder(merchant)).tables, DollarPayer(merchant)).tables
    ensures Inv(t)
    ensures t == Attempted(WithIntent(Empty, 1, Intent(merchant, 5, "USD", "key-0001", PaymentStatus.Created)),
                           1, "payer@upi", 2, 3)
  {
    hide Inv;
    var ordered := DollarOrdered(merchant);
    assert ByReference(ordered, 3) == {} && AttemptsFor(ordered, 1, "payer@upi") == {};
    StepKeepsInv(ordered, DollarPayer(merchant));
    t := Step(ordered, DollarPayer(merchant)).tables;
  }
}

/** Bank callbacks arrive late, repeated and out of order. Exactly when does that not matter? */
module Confluence {
  import opened Sums
  import opened StateMachine
  import opened Tables
  import opened Services
  import opened Invariants
  import opened Guarantees
  import opened Conservation

  datatype Callback = Callback(event: Event, reference: Id, amount: int)

  ghost function Apply(t: Tables, c: Callback): Tables {
    CallbackStep(t, c.event, c.reference, c.amount).tables
  }

  ghost function Run(t: Tables, cs: seq<Callback>): Tables
    decreases cs
  {
    if cs == [] then t else Run(Apply(t, cs[0]), cs[1..])
  }

  function Elements(cs: seq<Callback>): set<Callback> {
    set c | c in cs
  }

  /** The callback with which the bank reports `event` for transaction `x`. */
  function Report(t: Tables, x: Id, event: Event): Callback
    requires HasIntent(t, x)
  {
    Callback(event, t.transactions[x].reference, IntentOf(t, x).amount)
  }

  /** The pending payments that `s` reports as paid and that fit on their own. */
  function Payable(t: Tables, s: set<Callback>): set<Id> {
    set x | x in t.transactions && IsPending(t, x) && Report(t, x, PaymentSuccess) in s && Fits(t, x)
  }

  function PayableOn(t: Tables, s: set<Callback>, a: string): set<Id> {
    set x | x in t.transactions && IsPending(t, x) && Report(t, x, PaymentSuccess) in s && Fits(t, x)
            && Touches(t, x, a)
  }

  function Declined(t: Tables, s: set<Callback>): set<Id> {
    set x | x in t.transactions && IsPending(t, x) && Report(t, x, PaymentFailed) in s
  }

  /** The payments that fit alone also fit all together. */
  ghost predicate AllFit(t: Tables, s: set<Callback>) {
    forall a: string :: Balance(t, a) + Total(PayableOn(t, s, a), Amounts(t)) < MONEY_LIMIT
  }

  function Predicted(t: Tables, s: set<Callback>, x: Id): TransactionState
    requires x in t.transactions
  {
    if x in Payable(t, s) then TransactionState.Success
    else if x in Declined(t, s) then TransactionState.Failed
    else t.transactions[x].state
  }

  ghost predicate SameUpToOrder(t: Tables, u: Tables) {
    && t.intents == u.intents && t.transactions == u.transactions && t.accounts == u.accounts
    && multiset(t.entries) == multiset(u.entries)
  }

  // ---- What callbacks never change -------------------------------------------

  /** The same rows, up to their states. */
  ghost predicate SameRows(t: Tables, u: Tables) {
    && t.intents.Keys == u.intents.Keys && t.transactions.Keys == u.transactions.Keys
    && (forall i :: i in t.intents ==> u.intents[i] == t.intents[i].(status := u.intents[i].status))
    && (forall x :: x in t.transactions ==> u.transactions[x] == t.transactions[x].(state := u.transactions[x].state))
  }

  lemma ApplySameRows(t: Tables, c: Callback)
    ensures SameRows(t, Apply(t, c))
  { }

  lemma ApplyKeeps(t: Tables, c: Callback)
    requires Inv(t)
    ensures Inv(Apply(t, c)) && Extends(t, Apply(t, c)) && SameRows(t, Apply(t, c))
  {
    var req := BankCallback(c.event, c.reference, c.amount);
    StepKeepsInv(t, req);
    StepExtends(t, req);
    ApplySameRows(t, c);
  }

  lemma SameTerms(t: Tables, u: Tables, x: Id)
    requires SameRows(t, u) && HasIntent(t, x)
    ensures HasIntent(u, x) && u.transactions[x].vpa == t.transactions[x].vpa
    ensures IntentOf(u, x).amount == IntentOf(t, x).amount && IntentOf(u, x).merchant == IntentOf(t, x).merchant
    ensures forall e :: Report(u, x, e) == Report(t, x, e)
    ensures forall a: string :: Touches(u, x, a) <==> Touches(t, x, a)
  { }

  lemma SameKeys(t: Tables, u: Tables)
    requires SameRows(t, u)
    ensures t.transactions.Keys == u.transactions.Keys
  { }

  lemma SameAmounts(t: Tables, u: Tables)
    requires SameRows(t, u)
    ensures Amounts(t) == Amounts(u)
  { }

  /** A callback either changes nothing or finishes the one pending transaction it names. */
  lemma ApplyCases(t: Tables, c: Callback) returns (x: Id)
    requires Inv(t)
    ensures Apply(t, c) != t ==>
      && IsPending(t, x) && c == Report(t, x, c.event) && (c.event.PaymentSuccess? ==> Fits(t, x))
      && Apply(t, c) == if c.event.PaymentSuccess? then Settle(t, x) else Finished(t, x, PaymentFailed)
  {
    x := 0;
    if Single(ByReference(t, c.reference)).OneRow? {
      x := Single(ByReference(t, c.reference)).id;
      assert x in ByReference(t, c.reference) && HasIntent(t, x);
      EventChangesExactlyWhen(t, x, c.event, c.amount);
    }
  }

  // ---- Callbacks that have nothing left to do --------------------------------

  ghost predicate Inert(t: Tables, c: Callback) {
    Apply(t, c) == t
  }

  lemma MovesEarlier(t: Tables, c: Callback, x: Id, event: Event, reference: Id, amount: int)
    requires Inv(t) && Moves(Apply(t, c), x, event, reference, amount)
    ensures Moves(t, x, event, reference, amount)
  {
    hide LedgerOk, KeysUnique, ReferencesUnique, OneAttempt, Covered, Apply;
    var u := Apply(t, c);
    ApplyKeeps(t, c);
    assert x in t.transactions && HasIntent(t, x) && t.transactions[x].state != TransactionState.Initiated;
    SameTerms(t, u, x);
    assert TransactionExtends(t.transactions[x], u.transactions[x]);
    assert Balance(t, t.transactions[x].vpa) <= Balance(u, t.transactions[x].vpa);
    var payee := SettlementAccount(IntentOf(t, x).merchant);
    assert Balance(t, payee) <= Balance(u, payee);
  }

  lemma InertIffUnmoved(t: Tables, c: Callback)
    requires Inv(t)
    ensures Inert(t, c) <==> forall x :: !Moves(t, x, c.event, c.reference, c.amount)
  {
    CallbackChangesExactlyWhen(t, c.event, c.reference, c.amount);
  }

  lemma InertPersists(t: Tables, c: Callback, d: Callback)
    requires Inv(t) && Inert(t, c)
    ensures Inert(Apply(t, d), c)
  {
    ApplyKeeps(t, d);
    InertIffUnmoved(t, c);
    InertIffUnmoved(Apply(t, d), c);
    forall x | Moves(Apply(t, d), x, c.event, c.reference, c.amount) ensures false {
      MovesEarlier(t, d, x, c.event, c.reference, c.amount);
    }
  }

  /** Re-delivery is a no-op: applying a callback twice is applying it once. */
  lemma ApplyIdempotent(t: Tables, c: Callback)
    requires Inv(t)
    ensures Apply(Apply(t, c), c) == Apply(t, c)
  {
    hide LedgerOk, KeysUnique, ReferencesUnique, OneAttempt, Covered;
    var u := Apply(t, c);
    ApplyKeeps(t, c);
    InertIffUnmoved(u, c);
    forall x | Moves(u, x, c.event, c.reference, c.amount) ensures false {
      MovesEarlier(t, c, x, c.event, c.reference, c.amount);
      FoundByReference(t, x);
      EventChangesExactlyWhen(t, x, c.event, c.amount);
    }
  }

  // ---- When order does not matter --------------------------------------------

  /** The rest of the rows after one transaction is finished. */
  lemma OtherRow(t: Tables, u: Tables, x: Id, event: Event, y: Id)
    requires RowsOk(t) && IsPending(t, x) && HasIntent(t, y)
    requires u == Finished(t, x, event) || (event.PaymentSuccess? && u == Settle(t, x))
    ensures HasIntent(u, y) && u.transactions[y].vpa == t.transactions[y].vpa
    ensures IntentOf(u, y).amount == IntentOf(t, y).amount && IntentOf(u, y).merchant == IntentOf(t, y).merchant
    ensures forall e :: Report(u, y, e) == Report(t, y, e)
    ensures forall a: string :: Touches(u, y, a) <==> Touches(t, y, a)
    ensures IsPending(u, y) <==> IsPending(t, y) && y != x
  { }

  lemma DeclineKeepsPayable(t: Tables, s: set<Callback>, x: Id, a: string)
    requires RowsOk(t) && IsPending(t, x) && x !in Payable(t, s)
    ensures var u := Finished(t, x, PaymentFailed);
      && Payable(u, s) == Payable(t, s) && Declined(u, s) == Declined(t, s) - {x}
      && PayableOn(u, s, a) == PayableOn(t, s, a)
  {
    hide RowsOk;
    var u := Finished(t, x, PaymentFailed);
    forall y | y in t.transactions
      ensures y in Payable(u, s) <==> y in Payable(t, s)
      ensures y in PayableOn(u, s, a) <==> y in PayableOn(t, s, a)
      ensures y in Declined(u, s) <==> y in Declined(t, s) && y != x
    {
      if HasIntent(t, y) {
        OtherRow(t, u, x, PaymentFailed, y);
        assert Fits(u, y) <==> Fits(t, y);
      }
    }
  }

  lemma DeclineKeepsPrediction(t: Tables, s: set<Callback>, x: Id)
    requires RowsOk(t) && IsPending(t, x) && x !in Payable(t, s) && AllFit(t, s)
    requires SameRows(t, Finished(t, x, PaymentFailed))
    ensures AllFit(Finished(t, x, PaymentFailed), s)
  {
    hide RowsOk, SameRows;
    var u := Finished(t, x, PaymentFailed);
    SameAmounts(t, u);
    forall a: string ensures Balance(u, a) + Total(PayableOn(u, s, a), Amounts(u)) < MONEY_LIMIT {
      assert Balance(t, a) + Total(PayableOn(t, s, a), Amounts(t)) < MONEY_LIMIT;
      DeclineKeepsPayable(t, s, x, a);
      assert Balance(u, a) == Balance(t, a);
    }
  }

  /** Two payable payments on one account leave room for each other. */
  lemma RoomForBoth(t: Tables, s: set<Callback>, x: Id, y: Id, a: string)
    requires RowsOk(t) && AllFit(t, s) && x != y && {x, y} <= PayableOn(t, s, a)
    ensures Balance(t, a) + IntentOf(t, x).amount + IntentOf(t, y).amount < MONEY_LIMIT
  {
    var all, f := PayableOn(t, s, a), Amounts(t);
    TotalExtract(all, f, x);
    TotalExtract(all - {x}, f, y);
    forall z | z in f ensures f[z] >= 0 { assert HasIntent(t, z); }
    TotalMonotone({}, all - {x} - {y}, f);
    assert Balance(t, a) + Total(all, f) < MONEY_LIMIT;
  }

  lemma SettleBalance(t: Tables, x: Id, a: string)
    requires RowsOk(t) && IsPending(t, x)
    ensures Balance(Settle(t, x), a) == Balance(t, a) + if Touches(t, x, a) then IntentOf(t, x).amount else 0
    ensures IntentOf(t, x).amount > 0
  { }

  ghost predicate FitsOn(t: Tables, x: Id, a: string)
    requires HasIntent(t, x)
  {
    Balance(t, a) + IntentOf(t, x).amount < MONEY_LIMIT
  }

  lemma SettleKeepsFitOn(t: Tables, s: set<Callback>, x: Id, y: Id, a: string)
    requires RowsOk(t) && AllFit(t, s) && x in Payable(t, s) && y != x
    requires IsPending(t, y) && Touches(t, y, a) && Report(t, y, PaymentSuccess) in s
    ensures Fits(t, y) ==> HasIntent(Settle(t, x), y) && FitsOn(Settle(t, x), y, a)
    ensures HasIntent(Settle(t, x), y) && FitsOn(Settle(t, x), y, a) ==> FitsOn(t, y, a)
  {
    hide RowsOk, AllFit;
    var u := Settle(t, x);
    OtherRow(t, u, x, PaymentSuccess, y);
    SettleBalance(t, x, a);
    if Fits(t, y) && Touches(t, x, a) { RoomForBoth(t, s, x, y, a); }
  }

  lemma SettleKeepsFit(t: Tables, s: set<Callback>, x: Id, y: Id)
    requires RowsOk(t) && AllFit(t, s) && x in Payable(t, s) && y != x
    requires IsPending(t, y) && Report(t, y, PaymentSuccess) in s
    ensures HasIntent(Settle(t, x), y) && (Fits(Settle(t, x), y) <==> Fits(t, y))
  {
    hide RowsOk, AllFit;
    var payer, payee := t.transactions[y].vpa, SettlementAccount(IntentOf(t, y).merchant);
    OtherRow(t, Settle(t, x), x, PaymentSuccess, y);
    SettleKeepsFitOn(t, s, x, y, payer);
    SettleKeepsFitOn(t, s, x, y, payee);
  }

  lemma SettleShrinks(t: Tables, s: set<Callback>, x: Id, a: string)
    requires RowsOk(t) && AllFit(t, s) && x in Payable(t, s)
    ensures var u := Settle(t, x);
      && Payable(u, s) == Payable(t, s) - {x} && Declined(u, s) == Declined(t, s) - {x}
      && PayableOn(u, s, a) == PayableOn(t, s, a) - {x}
  {
    hide RowsOk, AllFit, Fits;
    var u := Settle(t, x);
    forall y | y in t.transactions
      ensures y in Payable(u, s) <==> y in Payable(t, s) && y != x
      ensures y in PayableOn(u, s, a) <==> y in PayableOn(t, s, a) && y != x
      ensures y in Declined(u, s) <==> y in Declined(t, s) && y != x
    {
      if HasIntent(t, y) {
        OtherRow(t, u, x, PaymentSuccess, y);
        if y != x && IsPending(t, y) && Report(t, y, PaymentSuccess) in s { SettleKeepsFit(t, s, x, y); }
      }
    }
  }

  lemma SettleKeepsPrediction(t: Tables, s: set<Callback>, x: Id)
    requires RowsOk(t) && AllFit(t, s) && x in Payable(t, s) && SameRows(t, Settle(t, x))
    ensures AllFit(Settle(t, x), s)
  {
    hide RowsOk, SameRows, Fits;
    var u := Settle(t, x);
    SameAmounts(t, u);
    forall a: string ensures Balance(u, a) + Total(PayableOn(u, s, a), Amounts(u)) < MONEY_LIMIT {
      assert Balance(t, a) + Total(PayableOn(t, s, a), Amounts(t)) < MONEY_LIMIT;
      SettleShrinks(t, s, x, a);
      SettleBalance(t, x, a);
      if Touches(t, x, a) { TotalExtract(PayableOn(t, s, a), Amounts(t), x); }
      else { assert PayableOn(t, s, a) - {x} == PayableOn(t, s, a); }
    }
  }

  lemma ApplyKeepsPrediction(t: Tables, s: set<Callback>, c: Callback)
    requires Inv(t) && Payable(t, s) !! Declined(t, s) && AllFit(t, s) && c in s
    ensures var u := Apply(t, c);
      && Payable(u, s) !! Declined(u, s) && AllFit(u, s) && t.transactions.Keys == u.transactions.Keys
      && forall x :: x in t.transactions ==> Predicted(u, s, x) == Predicted(t, s, x)
  {
    hide Apply, SameRows, AllFit, Fits, LedgerOk, KeysUnique, Matched, Covered, OneAttempt, ReferencesUnique;
    var u := Apply(t, c);
    ApplySameRows(t, c);
    SameKeys(t, u);
    var x := ApplyCases(t, c);
    if u != t {
      if c.event.PaymentSuccess? { SettleShrinks(t, s, x, ""); SettleKeepsPrediction(t, s, x); }
      else { DeclineKeepsPayable(t, s, x, ""); DeclineKeepsPrediction(t, s, x); }
    }
  }

  lemma {:induction false} RunFollowsPrediction(t: Tables, s: set<Callback>, cs: seq<Callback>)
    requires Inv(t) && Payable(t, s) !! Declined(t, s) && AllFit(t, s)
    requires forall c :: c in cs ==> c in s
    requires forall c :: c in s ==> c in cs || Inert(t, c)
    ensures Inv(Run(t, cs)) && SameRows(t, Run(t, cs))
    ensures forall x :: x in t.transactions ==> Run(t, cs).transactions[x].state == Predicted(t, s, x)
    decreases cs
  {
    hide Inv, Extends, CallbackStep, AllFit;
    if cs == [] {
      forall x | x in t.transactions ensures t.transactions[x].state == Predicted(t, s, x) {
        NothingLeft(t, s, x);
      }
    } else {
      var u := Apply(t, cs[0]);
      ApplyKeeps(t, cs[0]);
      ApplyKeepsPrediction(t, s, cs[0]);
      forall c | c in s ensures c in cs[1..] || Inert(u, c) {
        if c == cs[0] { ApplyIdempotent(t, c); }
        else if c !in cs { InertPersists(t, c, cs[0]); }
      }
      RunFollowsPrediction(u, s, cs[1..]);
    }
  }

  lemma NothingLeft(t: Tables, s: set<Callback>, x: Id)
    requires Inv(t) && x in t.transactions && forall c :: c in s ==> Inert(t, c)
    ensures x !in Payable(t, s) && x !in Declined(t, s)
  {
    assert HasIntent(t, x);
    var paid, failed := Report(t, x, PaymentSuccess), Report(t, x, PaymentFailed);
    InertIffUnmoved(t, paid);
    InertIffUnmoved(t, failed);
    assert Moves(t, x, PaymentSuccess, paid.reference, paid.amount) <==> IsPending(t, x) && Fits(t, x);
    assert Moves(t, x, PaymentFailed, failed.reference, failed.amount) <==> IsPending(t, x);
  }

  /** Intents follow their transactions. */
  lemma IntentsDetermined(t: Tables, u: Tables)
    requires Inv(t) && Inv(u) && SameRows(t, u) && t.transactions == u.transactions
    ensures t.intents == u.intents
  { }

  lemma SamePrediction(t: Tables, s: set<Callback>, u: Tables, v: Tables)
    requires SameRows(t, u) && SameRows(t, v)
    requires forall x :: x in t.transactions ==>
      u.transactions[x].state == Predicted(t, s, x) == v.transactions[x].state
    ensures u.transactions == v.transactions && SameRows(u, v)
  { }

  lemma OrderIrrelevant(t: Tables, cs: seq<Callback>, ds: seq<Callback>)
    requires Inv(t) && Elements(cs) == Elements(ds)
    requires Payable(t, Elements(cs)) !! Declined(t, Elements(cs)) && AllFit(t, Elements(cs))
    ensures SameUpToOrder(Run(t, cs), Run(t, ds))
  {
    hide Inv, AllFit, Payable, Declined, SameRows, Run, Predicted;
    var s := Elements(cs);
    forall c | c in ds ensures c in s { assert c in Elements(ds); }
    forall c | c in s ensures c in ds { assert c in Elements(ds); }
    RunFollowsPrediction(t, s, cs);
    RunFollowsPrediction(t, s, ds);
    var u, v := Run(t, cs), Run(t, ds);
    SamePrediction(t, s, u, v);
    IntentsDetermined(u, v);
    LedgerDetermined(u, v);
  }

  // ---- When it does ----------------------------------------------------------

  lemma {:induction false} RunKeeps(t: Tables, cs: seq<Callback>)
    requires Inv(t)
    ensures Inv(Run(t, cs)) && Extends(t, Run(t, cs)) && SameRows(t, Run(t, cs))
    decreases cs
  {
    hide Inv, CallbackStep;
    if cs != [] {
      var u := Apply(t, cs[0]);
      ApplyKeeps(t, cs[0]);
      RunKeeps(u, cs[1..]);
      ExtendsTransitive(t, u, Run(u, cs[1..]));
    } else {
      assert forall a: string :: Balance(t, a) <= Balance(t, a);
    }
  }

  lemma MoveHappens(t: Tables, x: Id, event: Event)
    requires Inv(t) && IsPending(t, x) && (event.PaymentSuccess? ==> Fits(t, x))
    ensures x in Apply(t, Report(t, x, event)).transactions
    ensures Apply(t, Report(t, x, event)).transactions[x].state == Target(event)
  {
    FoundByReference(t, x);
    EventChangesExactlyWhen(t, x, event, IntentOf(t, x).amount);
  }

  /** Moving one effective callback to the front decides its transaction. */
  lemma FirstWins(t: Tables, cs: seq<Callback>, x: Id, event: Event) returns (ds: seq<Callback>)
    requires Inv(t) && IsPending(t, x) && Report(t, x, event) in cs && (event.PaymentSuccess? ==> Fits(t, x))
    ensures multiset(ds) == multiset(cs)
    ensures x in Run(t, ds).transactions && Run(t, ds).transactions[x].state == Target(event)
  {
    hide Inv, Extends, SameRows, CallbackStep;
    var c := Report(t, x, event);
    var i :| 0 <= i < |cs| && cs[i] == c;
    var rest := cs[..i] + cs[i + 1..];
    ds := [c] + rest;
    assert cs == cs[..i] + [c] + cs[i + 1..];
    assert ds[1..] == rest;
    var u := Apply(t, c);
    MoveHappens(t, x, event);
    ApplyKeeps(t, c);
    RunKeeps(u, rest);
    TerminalRowsAreFinal(u, Run(u, rest));
  }

  lemma BalanceIsMoney(t: Tables, a: string)
    requires AccountsOk(t)
    ensures 0 <= Balance(t, a) < MONEY_LIMIT
  { }

  /** No run can settle everything payable when it does not fit together. */
  lemma SomethingIsRefused(t: Tables, u: Tables, s: set<Callback>) returns (x: Id)
    requires Inv(t) && Inv(u) && Extends(t, u) && SameRows(t, u) && !AllFit(t, s)
    ensures x in Payable(t, s) && u.transactions[x].state != TransactionState.Success
  {
    hide Lifecycle, Indexed, PostedOnce, Balanced, Extends;
    var a: string :| Balance(t, a) + Total(PayableOn(t, s, a), Amounts(t)) >= MONEY_LIMIT;
    BalanceIsMoney(u, a);
    if forall x :: x in PayableOn(t, s, a) ==> u.transactions[x].state == TransactionState.Success {
      SettledGrows(t, u, PayableOn(t, s, a), a);
      assert false;
    }
    x :| x in PayableOn(t, s, a) && u.transactions[x].state != TransactionState.Success;
  }

  lemma SettledStays(t: Tables, u: Tables, x: Id, a: string)
    requires RowsOk(t) && RowsOk(u) && Extends(t, u) && SameRows(t, u) && x in t.transactions
    requires || x in SettledOn(t, a)
             || (IsPending(t, x) && Touches(t, x, a) && u.transactions[x].state == TransactionState.Success)
    ensures x in SettledOn(u, a)
  {
    assert HasIntent(t, x);
    TerminalRowsAreFinal(t, u);
    SameTerms(t, u, x);
  }

  lemma SettledGrows(t: Tables, u: Tables, more: set<Id>, a: string)
    requires Inv(t) && Inv(u) && Extends(t, u) && SameRows(t, u)
    requires forall x :: x in more ==>
      IsPending(t, x) && Touches(t, x, a) && u.transactions[x].state == TransactionState.Success
    requires more <= Amounts(t).Keys
    ensures Balance(u, a) >= Balance(t, a) + Total(more, Amounts(t))
  {
    hide KeysUnique, ReferencesUnique, OneAttempt, Matched, Covered, Indexed, PostedOnce, AccountsOk, Balanced;
    hide Extends, SameRows;
    SameAmounts(t, u);
    forall x | x in SettledOn(t, a) + more ensures x in SettledOn(u, a) { SettledStays(t, u, x, a); }
    SumsGrow(t, SettledOn(t, a), more, SettledOn(u, a));
    assert Balance(u, a) == Total(SettledOn(u, a), Amounts(u));
    assert Balance(t, a) == Total(SettledOn(t, a), Amounts(t));
  }

  lemma SumsGrow(t: Tables, some: set<Id>, more: set<Id>, all: set<Id>)
    requires RowsOk(t) && some !! more && some + more <= all <= Amounts(t).Keys
    ensures Total(some, Amounts(t)) + Total(more, Amounts(t)) <= Total(all, Amounts(t))
  {
    var f := Amounts(t);
    forall x | x in f ensures f[x] >= 0 { assert HasIntent(t, x); }
    TotalSplit(some, more, f);
    TotalMonotone(some + more, all, f);
  }

  /** The tables reached depend only on which callbacks arrived - not on their order or number - exactly when no payment
      that could settle is also reported failed, and all that could settle alone fit their accounts together. */
  lemma OrderIrrelevantExactlyWhen(t: Tables, cs: seq<Callback>)
    requires Inv(t)
    ensures var s := Elements(cs);
      if Payable(t, s) !! Declined(t, s) && AllFit(t, s)
      then forall ds :: Elements(ds) == s ==> SameUpToOrder(Run(t, cs), Run(t, ds))
      else exists ds :: multiset(ds) == multiset(cs) && Run(t, ds).transactions != Run(t, cs).transactions
  {
    var s := Elements(cs);
    if Payable(t, s) !! Declined(t, s) && AllFit(t, s) {
      forall ds | Elements(ds) == s ensures SameUpToOrder(Run(t, cs), Run(t, ds)) {
        OrderIrrelevant(t, cs, ds);
      }
    } else if !AllFit(t, s) {
      RunKeeps(t, cs);
      var x := SomethingIsRefused(t, Run(t, cs), s);
      var ds := FirstWins(t, cs, x, PaymentSuccess);
    } else {
      var x :| x in Payable(t, s) && x in Declined(t, s);
      var paidFirst := FirstWins(t, cs, x, PaymentSuccess);
      var failedFirst := FirstWins(t, cs, x, PaymentFailed);
      assert Run(t, paidFirst).transactions != Run(t, failedFirst).transactions;
    }
  }
}

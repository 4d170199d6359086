/** What retries are answered, over whole runs of concurrent sessions. */
module Retries {
  import opened Sums
  import opened StateMachine
  import opened Tables
  import opened Services
  import opened Invariants
  import opened Guarantees
  import opened Outcomes
  import opened Sessions
  import opened Refinement
  import opened System
  import opened Runs

  // ---- Every repeated request ------------------------------------------------

  /** The second request repeats the first, up to the identifiers it is handed and the terms of an order. */
  predicate Repeats(first: Request, again: Request) {
    match first
    case CreateOrder(m, key, _, _, _) => again.CreateOrder? && again.merchant == m && again.key == key
    case InitiateUpi(m, order, vpa, _, _) =>
      again.InitiateUpi? && again.merchant == m && again.order == order && again.vpa == vpa
    case BankCallback(_, _, _) => again == first
  }

  /** What a repeated request may be told, once the first was granted. */
  predicate Confirms(first: Response, again: Response) {
    match first
    case OrderAccepted(order, key, amount, currency, _) =>
      || again == OrderIdempotencyReuse
      || (again.OrderAccepted? && again == first.(status := again.status))
    case UpiInitiated(x, order, _, reference) =>
      again == AlreadyFinalised || again == UpiInitiated(x, order, TransactionState.Pending, reference)
    case CallbackApplied(x, _, state) => again == CallbackReplayed(x, state)
    case CallbackReplayed(x, state) => again == CallbackReplayed(x, state)
    case _ => true
  }

  lemma OrderConfirmed(t: Tables, first: Request, granted: Response, again: Request, u: Tables, response: Response)
    requires Inv(t) && Fresh(t, again) && again.CreateOrder?
    requires ResponseHolds(t, first, granted) && Repeats(first, again) && Atomic(t, again, u, response)
    ensures Confirms(granted, response)
  {
    hide Inv;
    OrderAnswers(t, again.merchant, again.key, again.amount, again.currency, again.newId);
    if granted.OrderAccepted? { assert Holds(t, granted.order, again.merchant, again.key); }
  }

  lemma InitiationConfirmed(t: Tables, first: Request, granted: Response, again: Request, u: Tables, response: Response)
    requires Inv(t) && Fresh(t, again) && again.InitiateUpi?
    requires ResponseHolds(t, first, granted) && Repeats(first, again) && Atomic(t, again, u, response)
    ensures Confirms(granted, response)
  {
    hide LedgerOk, KeysUnique, ReferencesUnique, InitiateStep;
    InitiationAnswers(t, again.merchant, again.order, again.vpa, again.newId, again.newReference);
    if granted.UpiInitiated? {
      var x := granted.transaction;
      assert t.transactions[x].state == TransactionState.Pending ==> Opens(t, x, again.order);
    }
  }

  lemma CallbackConfirmed(t: Tables, first: Request, granted: Response, again: Request, u: Tables, response: Response)
    requires Inv(t) && again.BankCallback?
    requires ResponseHolds(t, first, granted) && Repeats(first, again) && Atomic(t, again, u, response)
    ensures Confirms(granted, response)
  {
    hide Inv, CallbackStep;
    CallbackAnswers(t, again.event, again.reference, again.amount);
    if granted.CallbackApplied? || granted.CallbackReplayed? {
      assert Bills(t, granted.transaction, again.reference, again.amount) && Says(again.event, granted.state);
    }
  }

  lemma RetryConfirmed(t: Tables, first: Request, granted: Response, again: Request, u: Tables, response: Response)
    requires Inv(t) && Fresh(t, again)
    requires ResponseHolds(t, first, granted) && Repeats(first, again) && Atomic(t, again, u, response)
    ensures Confirms(granted, response)
  {
    hide *;
    match again
    case CreateOrder(_, _, _, _, _) => OrderConfirmed(t, first, granted, again, u, response);
    case InitiateUpi(_, _, _, _, _) => InitiationConfirmed(t, first, granted, again, u, response);
    case BankCallback(_, _, _) => CallbackConfirmed(t, first, granted, again, u, response);
  }

  ghost predicate Remembered(t: Tables, calls: seq<Call>) {
    forall k :: 0 <= k < |calls| ==> ResponseHolds(t, calls[k].req, calls[k].response)
  }

  ghost predicate AllConfirmed(calls: seq<Call>) {
    forall k, l | 0 <= k < l < |calls| && Repeats(calls[k].req, calls[l].req) ::
      Confirms(calls[k].response, calls[l].response)
  }

  lemma PerformConfirms(db: Db, a: Action, calls: seq<Call>)
    requires DbInv(db) && Enabled(db, a) && Remembered(db.tables, calls) && AllConfirmed(calls)
    ensures var more := calls + NewCalls(db, a, Perform(db, a));
      Remembered(Perform(db, a).tables, more) && AllConfirmed(more)
  {
    hide Inv, Extends, NoClashes, LocksDisjoint, ResponsesHold, MoveOf, SnapshotOk, WritesOnly, Atomic, ResponseHolds;
    hide Repeats, Confirms, Fresh;
    var next := Perform(db, a);
    PerformKeepsInv(db, a);
    StepRefines(db, a);
    forall k | 0 <= k < |calls| ensures ResponseHolds(next.tables, calls[k].req, calls[k].response) {
      ResponseKept(db.tables, next.tables, calls[k].req, calls[k].response);
    }
    if Answers(db, a, next) {
      AdvanceFacts(db, a.sid);
      var s := next.sessions[a.sid];
      forall k | 0 <= k < |calls| && Repeats(calls[k].req, s.req) ensures Confirms(calls[k].response, s.pc.response) {
        RetryConfirmed(db.tables, calls[k].req, calls[k].response, s.req, next.tables, s.pc.response);
      }
    }
  }

  lemma {:induction false} RunConfirms(dbs: seq<Db>, acts: seq<Action>)
    requires IsRun(dbs, acts) && DbInv(dbs[0])
    ensures Remembered(Last(dbs).tables, History(dbs, acts)) && AllConfirmed(History(dbs, acts))
    decreases |acts|
  {
    hide DbInv, PcsOk, Enabled, Perform, NewCalls, Remembered, AllConfirmed;
    if acts == [] {
      NoneYet(dbs[0].tables);
    } else {
      var n := |acts| - 1;
      assert IsStep(dbs[n], Last(acts), dbs[n + 1]);
      PrefixIsRun(dbs, acts);
      RunConfirms(Front(dbs), Front(acts));
      RunExtends(Front(dbs), Front(acts));
      PerformConfirms(dbs[n], Last(acts), History(Front(dbs), Front(acts)));
    }
  }

  lemma NoneYet(t: Tables)
    ensures Remembered(t, []) && AllConfirmed([])
  { }

  /** Once a request was granted, every later repetition of it in the run is confirmed: a callback is told the same
      transaction and state again, an initiation gets the same transaction and reference until the order is finished, an
      order is told the same order and terms - unless its look-up came too early, when it is refused. */
  lemma RetriesAreConfirmed(dbs: seq<Db>, acts: seq<Action>, k: nat, l: nat)
    requires IsRun(dbs, acts) && DbInv(dbs[0])
    requires var calls := History(dbs, acts); k < l < |calls| && Repeats(calls[k].req, calls[l].req)
    ensures Confirms(History(dbs, acts)[k].response, History(dbs, acts)[l].response)
  {
    hide IsStep;
    RunConfirms(dbs, acts);
  }

  // ---- Orders, from arrival to answer ----------------------------------------

  /** The first step of the session, which looks its key up. */
  predicate LooksUp(acts: seq<Action>, sid: Sid, k: nat) {
    0 < k < |acts| && acts[k] == Advance(sid) && forall i :: 0 < i < k ==> acts[i] != Advance(sid)
  }

  ghost predicate AnswersAt(dbs: seq<Db>, acts: seq<Action>, sid: Sid, n: nat)
    requires |dbs| == |acts| + 1
  {
    n < |acts| && acts[n] == Advance(sid) && Answers(dbs[n], acts[n], dbs[n + 1])
  }

  ghost predicate HoldsNone(t: Tables, merchant: MerchantId, key: string) {
    forall i :: !Holds(t, i, merchant, key)
  }

  function NewOrder(t: Tables, req: Request): Tables
    requires req.CreateOrder?
  {
    var intent := Intent(req.merchant, req.amount, req.currency, req.key, PaymentStatus.Created);
    t.(intents := t.intents[req.newId := intent])
  }

  /** The three steps of an order. */
  lemma OrderAdvances(db: Db, sid: Sid)
    requires DbInv(db) && sid in db.sessions && db.sessions[sid].req.CreateOrder? && NextMove(db, sid).Go?
    ensures var t, pc, r, move := db.tables, db.sessions[sid].pc, db.sessions[sid].req, NextMove(db, sid);
      && (pc.OrderRead? || pc.OrderInsert? || pc.OrderCommit?)
      && (pc.OrderRead? ==>
            && move.tables == t
            && (HoldsNone(t, r.merchant, r.key) ==> move.pc == OrderInsert)
            && (forall i :: Holds(t, i, r.merchant, r.key) ==>
                  var own := t.intents[i];
                  move.pc == Done(OrderAccepted(i, r.key, own.amount, own.currency, own.status))))
      && (pc.OrderInsert? ==>
            && move.tables == t
            && move.pc == if KeyTaken(t, r.key) then Done(OrderIdempotencyReuse) else OrderCommit)
      && (pc.OrderCommit? ==>
            && !KeyTaken(t, r.key) && move.tables == NewOrder(t, r)
            && move.pc == Done(OrderAccepted(r.newId, r.key, r.amount, r.currency, PaymentStatus.Created)))
  {
    hide LedgerOk, ReferencesUnique, OneAttempt, Matched, Covered, NoClashes, LocksDisjoint, ResponsesHold;
    var t, s := db.tables, db.sessions[sid];
    assert PcOk(s) && SnapshotOk(t, s) && (Live(s) ==> Fresh(t, s.req));
    OwnOrders(t, s.req.merchant, s.req.key);
  }

  lemma OwnOrders(t: Tables, m: MerchantId, key: string)
    requires Inv(t)
    ensures HoldsNone(t, m, key) ==> OrdersByKey(t, m, key) == {}
    ensures forall i :: Holds(t, i, m, key) ==> Single(OrdersByKey(t, m, key)) == OneRow(i)
    ensures !Single(OrdersByKey(t, m, key)).ManyRows?
  {
    hide LedgerOk, ReferencesUnique, OneAttempt, Matched, Covered;
    RowLookupsNeverAmbiguous(t);
    forall i | i in OrdersByKey(t, m, key) ensures Holds(t, i, m, key) { }
    forall i: Id | Holds(t, i, m, key) ensures Single(OrdersByKey(t, m, key)) == OneRow(i) {
      assert i in OrdersByKey(t, m, key);
    }
  }

  /** How far the order has come, and what that says of its look-up at `k` and its answer at `n`. */
  ghost predicate Traced(dbs: seq<Db>, acts: seq<Action>, sid: Sid, r: Request, k: nat, n: nat)
    requires |dbs| == |acts| + 1 && r.CreateOrder?
  {
    && sid in Last(dbs).sessions && Last(dbs).sessions[sid].req == r
    && var pc := Last(dbs).sessions[sid].pc;
       && (pc.OrderRead? ==> forall i :: 0 < i < |acts| ==> acts[i] != Advance(sid))
       && (pc.OrderInsert? || pc.OrderCommit? ==>
             LooksUp(acts, sid, k) && HoldsNone(dbs[k].tables, r.merchant, r.key))
       && (pc.OrderRead? || pc.OrderInsert? || pc.OrderCommit? || pc.Done? || pc.Crashed?)
       && (pc.Done? ==>
             && LooksUp(acts, sid, k) && AnswersAt(dbs, acts, sid, n) && k <= n
             && AnswerFits(dbs[k].tables, dbs[n].tables, dbs[n + 1].tables, r, pc.response))
  }

  /** The answer, by the tables at the look-up, and those before and after it is given. */
  ghost predicate AnswerFits(seen: Tables, before: Tables, after: Tables, r: Request, response: Response)
    requires r.CreateOrder?
  {
    && (forall i :: Holds(seen, i, r.merchant, r.key) ==>
          var own := seen.intents[i];
          after == before && response == OrderAccepted(i, r.key, own.amount, own.currency, own.status))
    && (HoldsNone(seen, r.merchant, r.key) ==>
          if KeyTaken(before, r.key) then response == OrderIdempotencyReuse && after == before
          else && response == OrderAccepted(r.newId, r.key, r.amount, r.currency, PaymentStatus.Created)
               && after == NewOrder(before, r))
  }

  lemma ArrivesReading(db: Db, a: Action, next: Db)
    requires IsStep(db, a, next) && a.Arrive? && a.req.CreateOrder?
    ensures a.sid in next.sessions && next.sessions[a.sid].req == a.req && next.sessions[a.sid].pc == OrderRead
  { }

  lemma OrderAdvanced(db: Db, a: Action, next: Db)
    requires DbInv(db) && IsStep(db, a, next) && a.Advance? && db.sessions[a.sid].req.CreateOrder?
    ensures a.sid in next.sessions && next.sessions[a.sid].req == db.sessions[a.sid].req
    ensures var r, pc, after := db.sessions[a.sid].req, db.sessions[a.sid].pc, next.sessions[a.sid].pc;
      && (pc.OrderRead? || pc.OrderInsert? || pc.OrderCommit?)
      && (after.OrderInsert? || after.OrderCommit? || after.Done?)
      && (pc.OrderRead? && !after.Done? ==> HoldsNone(db.tables, r.merchant, r.key))
      && (after.Done? ==>
            && Answers(db, a, next)
            && (pc.OrderRead? ==> AnswerFits(db.tables, db.tables, next.tables, r, after.response))
            && (!pc.OrderRead? ==>
                  forall seen :: HoldsNone(seen, r.merchant, r.key) ==>
                    AnswerFits(seen, db.tables, next.tables, r, after.response)))
  {
    hide DbInv, MoveOf;
    DbInvPcsOk(db);
    OrderAdvances(db, a.sid);
    var r := db.sessions[a.sid].req;
    if !HoldsNone(db.tables, r.merchant, r.key) {
      var i: Id :| Holds(db.tables, i, r.merchant, r.key);
    }
  }

  lemma DbInvPcsOk(db: Db)
    requires DbInv(db)
    ensures PcsOk(db)
  { }

  lemma Untouched(db: Db, a: Action, next: Db, sid: Sid)
    requires IsStep(db, a, next) && sid in db.sessions && a != Advance(sid)
    ensures sid in next.sessions && next.sessions[sid].req == db.sessions[sid].req
    ensures next.sessions[sid].pc == db.sessions[sid].pc || next.sessions[sid].pc == Crashed
  {
    hide MoveOf;
  }

  lemma {:induction false} OrderTrace(dbs: seq<Db>, acts: seq<Action>, sid: Sid) returns (k: nat, n: nat)
    requires IsRun(dbs, acts) && DbInv(dbs[0]) && acts != []
    requires acts[0].Arrive? && acts[0].sid == sid && acts[0].req.CreateOrder?
    ensures Traced(dbs, acts, sid, acts[0].req, k, n)
    decreases |acts|
  {
    hide DbInv, PcsOk, Enabled, Perform, HoldsNone, AnswerFits;
    var m := |acts| - 1;
    assert IsStep(dbs[m], acts[m], dbs[m + 1]);
    if m == 0 {
      ArrivesReading(dbs[0], acts[0], dbs[1]);
      k, n := 0, 0;
    } else {
      PrefixIsRun(dbs, acts);
      k, n := OrderTrace(Front(dbs), Front(acts), sid);
      RunExtends(Front(dbs), Front(acts));
      forall i | 0 < i < m ensures Front(acts)[i] == acts[i] { }
      if acts[m] == Advance(sid) {
        if dbs[m].sessions[sid].pc.OrderRead? { k := m; }
        OrderAdvanced(dbs[m], acts[m], dbs[m + 1]);
        n := m;
      } else {
        Untouched(dbs[m], acts[m], dbs[m + 1], sid);
      }
    }
  }

  lemma KeyTakenBetween(dbs: seq<Db>, acts: seq<Action>, k: nat, n: nat, key: string)
    requires IsRun(dbs, acts) && DbInv(dbs[0]) && k <= n < |dbs|
    ensures KeyTaken(dbs[n].tables, key)
       <==> KeyTaken(dbs[k].tables, key) || exists j :: k <= j < n && TakesKey(dbs[j], dbs[j + 1], key)
  {
    hide DbInv, IsStep;
    var part, steps := dbs[k..n + 1], acts[k..n];
    RunExtends(dbs[..k + 1], acts[..k]);
    forall i | 0 <= i < |steps| ensures IsStep(part[i], steps[i], part[i + 1]) {
      assert IsStep(dbs[k + i], acts[k + i], dbs[k + i + 1]);
    }
    KeyTakenSince(part, steps, key);
    forall j | k <= j < n ensures TakesKey(dbs[j], dbs[j + 1], key) <==> TakesKey(part[j - k], part[j - k + 1], key) { }
    if i :| 0 <= i < |steps| && TakesKey(part[i], part[i + 1], key) {
      assert TakesKey(dbs[k + i], dbs[k + i + 1], key);
    }
  }

  /** What an order is answered, from its arrival on and whatever runs beside it. The session looks its key up once, at
      its first step `k`. If its merchant's own order is there, it is answered with that order. Otherwise it is refused
      exactly when another merchant held the key at the look-up, or an order with the key was committed between the
      look-up and the answer at step `n`; and else it is answered with a new order of its own terms, which is then in
      the tables. */
  lemma OrderIsAnswered(dbs: seq<Db>, acts: seq<Action>, sid: Sid) returns (k: nat, n: nat)
    requires IsRun(dbs, acts) && DbInv(dbs[0]) && acts != []
    requires acts[0].Arrive? && acts[0].sid == sid && acts[0].req.CreateOrder?
    requires sid in Last(dbs).sessions && Responded(Last(dbs).sessions[sid].pc)
    ensures LooksUp(acts, sid, k) && AnswersAt(dbs, acts, sid, n) && k <= n
    ensures var r, response, seen := acts[0].req, Last(dbs).sessions[sid].pc.response, dbs[k].tables;
      && (forall i :: Holds(seen, i, r.merchant, r.key) ==>
            var own := seen.intents[i]; response == OrderAccepted(i, r.key, own.amount, own.currency, own.status))
      && (HoldsNone(seen, r.merchant, r.key) ==>
            && (response == OrderIdempotencyReuse
                <==> HeldByAnother(seen, r.merchant, r.key)
                     || exists j :: k <= j < n && TakesKey(dbs[j], dbs[j + 1], r.key))
            && (response != OrderIdempotencyReuse ==>
                  && response == OrderAccepted(r.newId, r.key, r.amount, r.currency, PaymentStatus.Created)
                  && dbs[n + 1].tables == NewOrder(dbs[n].tables, r)))
  {
    hide DbInv, IsStep, KeyTaken, TakesKey, Holds;
    k, n := OrderTrace(dbs, acts, sid);
    var r := acts[0].req;
    KeyTakenBetween(dbs, acts, k, n, r.key);
    if HoldsNone(dbs[k].tables, r.merchant, r.key) { TakenByOthers(dbs[k].tables, r.merchant, r.key); }
  }

  lemma TakenByOthers(t: Tables, m: MerchantId, key: string)
    requires HoldsNone(t, m, key)
    ensures KeyTaken(t, key) <==> HeldByAnother(t, m, key)
  {
    forall i | i in t.intents && t.intents[i].key == key ensures t.intents[i].merchant != m {
      assert !Holds(t, i, m, key);
    }
  }
}

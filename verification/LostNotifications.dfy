/** Notifications can be lost: exactly when, over whole runs. */
module LostNotifications {
  import opened Sums
  import opened StateMachine
  import opened Tables
  import opened Services
  import opened Invariants
  import opened Guarantees
  import opened Sessions
  import opened Refinement
  import opened System
  import opened Runs
  import opened Notifications

  predicate Terminal(t: Tables, x: Id) {
    x in t.transactions && IsTerminal(t.transactions[x].state)
  }

  /** A finished transaction whose row is neither written nor owed by any session. */
  ghost predicate NeverNotified(db: Db, x: Id) {
    Terminal(db.tables, x) && !Delivered(db, x) && forall i :: !AboutToDeliver(db, i, x)
  }

  /** A session that dies between the two commits leaves the merchant unnotified ... */
  lemma CrashLosesNotification(db: Db, sid: Sid, x: Id)
    requires DbInv(db) && OutboxInv(db) && AboutToDeliver(db, sid, x)
    ensures Enabled(db, Crash(sid)) && NeverNotified(Perform(db, Crash(sid)), x)
  {
    hide Inv, SessionsOk, NoClashes, LocksDisjoint, ResponsesHold, MoveOf;
    OwedIsTerminal(db, sid, x);
    OthersStillOwe(db, Perform(db, Crash(sid)), sid);
  }

  lemma StaysUnnotified(db: Db, a: Action, x: Id)
    requires DbInv(db) && Enabled(db, a) && NeverNotified(db, x)
    ensures NeverNotified(Perform(db, a), x)
  {
    hide Inv, SessionsOk, NoClashes, LocksDisjoint, ResponsesHold, MoveOf, Extends, Atomic;
    var u := Perform(db, a);
    match a
    case Arrive(sid, req, notify) =>
      forall i ensures !AboutToDeliver(u, i, x) { assert !AboutToDeliver(db, i, x); }
    case Crash(sid) => OthersStillOwe(db, u, sid);
    case Advance(sid) =>
      AdvanceFacts(db, sid);
      OutboxCases(db, sid);
      OthersStillOwe(db, u, sid);
      TerminalRowsAreFinal(db.tables, u.tables);
      assert !AboutToDeliver(db, sid, x);
  }

  /** ... for ever: every later callback for the transaction is a replay, and replays write no outbox row. */
  lemma {:induction false} LostForEver(dbs: seq<Db>, acts: seq<Action>, x: Id)
    requires IsRun(dbs, acts) && DbInv(dbs[0]) && NeverNotified(dbs[0], x)
    ensures NeverNotified(Last(dbs), x)
    decreases |acts|
  {
    hide DbInv, NeverNotified, PcsOk, Enabled, Perform;
    if acts != [] {
      assert IsStep(dbs[|acts| - 1], Last(acts), dbs[|acts|]);
      PrefixIsRun(dbs, acts);
      LostForEver(Front(dbs), Front(acts), x);
      RunExtends(Front(dbs), Front(acts));
      StaysUnnotified(dbs[|acts| - 1], Last(acts), x);
    }
  }

  // ---- Exactly when ----------------------------------------------------------

  /** The call that finished transaction `x`. */
  predicate Finishes(call: Call, x: Id) {
    call.response.CallbackApplied? && call.response.transaction == x
  }

  /** The session of the call has no URL to notify, or died before it wrote its row. */
  predicate Silent(db: Db, call: Call) {
    call.sid in db.sessions && (!db.sessions[call.sid].notify || db.sessions[call.sid].pc.Crashed?)
  }

  ghost predicate WasFinished(calls: seq<Call>, x: Id) {
    exists k :: 0 <= k < |calls| && Finishes(calls[k], x)
  }

  /** Every terminal transaction was finished by some call, and those finished by a silent session have no row. */
  ghost predicate Traced(db: Db, calls: seq<Call>) {
    && (forall x :: Terminal(db.tables, x) ==> WasFinished(calls, x))
    && (forall k, x :: 0 <= k < |calls| && Finishes(calls[k], x) && Silent(db, calls[k]) ==> NeverNotified(db, x))
  }

  /** Only a callback answered as applied makes a transaction terminal. */
  lemma FinishedByCallback(t: Tables, req: Request, u: Tables, response: Response, x: Id)
    requires Atomic(t, req, u, response) && Terminal(u, x) && !Terminal(t, x)
    ensures response.CallbackApplied? && response.transaction == x
  { }

  /** The session of an earlier answer still carries it, unless it crashed. */
  lemma AnswerCarried(db: Db, calls: seq<Call>, k: nat)
    requires HistoryMatches(db, calls) && k < |calls|
    ensures calls[k].sid in db.sessions
    ensures var pc := db.sessions[calls[k].sid].pc;
            pc.Crashed? || (Responded(pc) && pc.response == calls[k].response)
  {
    var s := db.sessions[calls[k].sid];
    if Responded(s.pc) {
      var j :| 0 <= j < |calls| && calls[j] == Call(calls[k].sid, s.req, s.pc.response);
      assert j == k;
    }
  }

  lemma FinishedTraced(db: Db, a: Action, calls: seq<Call>, x: Id)
    requires DbInv(db) && Enabled(db, a) && Terminal(Perform(db, a).tables, x)
    requires Terminal(db.tables, x) ==> WasFinished(calls, x)
    ensures WasFinished(calls + NewCalls(db, a, Perform(db, a)), x)
  {
    hide DbInv, PcsOk, Enabled, Perform, Atomic;
    PcsAreOk(db);
    var more := calls + NewCalls(db, a, Perform(db, a));
    if Terminal(db.tables, x) {
      var k :| 0 <= k < |calls| && Finishes(calls[k], x);
      assert Finishes(more[k], x);
    } else {
      StepRefines(db, a);
      var next := Perform(db, a);
      FinishedByCallback(db.tables, next.sessions[a.sid].req, next.tables, next.sessions[a.sid].pc.response, x);
      assert Finishes(more[|calls|], x);
    }
  }

  lemma PcsAreOk(db: Db)
    requires DbInv(db)
    ensures PcsOk(db)
  { }

  /** A session without a URL that finishes a transaction leaves it without a row. */
  lemma NewSilence(db: Db, sid: Sid, x: Id)
    requires DbInv(db) && OutboxInv(db) && sid in db.sessions && NextMove(db, sid).Go?
    requires Answers(db, Advance(sid), Perform(db, Advance(sid)))
    requires NextMove(db, sid).pc.response.CallbackApplied? && NextMove(db, sid).pc.response.transaction == x
    requires !db.sessions[sid].notify
    ensures NeverNotified(Perform(db, Advance(sid)), x)
  {
    hide Inv, SessionsOk, NoClashes, LocksDisjoint, ResponsesHold, MoveOf, Extends, Atomic, SnapshotOk;
    var next := Perform(db, Advance(sid));
    AdvanceFacts(db, sid);
    OutboxCases(db, sid);
    OthersStillOwe(db, next, sid);
    forall i | AboutToDeliver(db, i, x) ensures false { OwedIsTerminal(db, i, x); }
  }

  lemma SilenceTraced(db: Db, a: Action, calls: seq<Call>, k: nat, x: Id)
    requires DbInv(db) && OutboxInv(db) && HistoryMatches(db, calls) && Traced(db, calls) && Enabled(db, a)
    requires k < |calls| && Finishes(calls[k], x) && Silent(Perform(db, a), calls[k])
    ensures NeverNotified(Perform(db, a), x)
  {
    hide OutboxInv, Inv, SessionsOk, NoClashes, LocksDisjoint, ResponsesHold, MoveOf, Extends, Atomic;
    hide HistoryMatches, NeverNotified;
    var sid := calls[k].sid;
    AnswerCarried(db, calls, k);
    if Silent(db, calls[k]) {
      StaysUnnotified(db, a, x);
    } else {
      if a.Advance? { AdvanceFacts(db, a.sid); }
      assert a == Crash(sid) && AboutToDeliver(db, sid, x);
      CrashLosesNotification(db, sid, x);
    }
  }

  lemma PerformKeepsTraced(db: Db, a: Action, calls: seq<Call>)
    requires DbInv(db) && OutboxInv(db) && HistoryMatches(db, calls) && Traced(db, calls) && Enabled(db, a)
    ensures Traced(Perform(db, a), calls + NewCalls(db, a, Perform(db, a)))
  {
    hide DbInv, OutboxInv, HistoryMatches, Enabled, Perform, NeverNotified;
    PcsAreOk(db);
    var next, more := Perform(db, a), calls + NewCalls(db, a, Perform(db, a));
    forall x | Terminal(next.tables, x) ensures WasFinished(more, x) { FinishedTraced(db, a, calls, x); }
    forall k, x | 0 <= k < |more| && Finishes(more[k], x) && Silent(next, more[k]) ensures NeverNotified(next, x) {
      if k < |calls| { SilenceTraced(db, a, calls, k, x); } else { AnsweredSilently(db, a, x); }
    }
  }

  lemma AnsweredSilently(db: Db, a: Action, x: Id)
    requires DbInv(db) && OutboxInv(db) && Enabled(db, a) && Answers(db, a, Perform(db, a))
    requires var call := NewCalls(db, a, Perform(db, a))[0]; Finishes(call, x) && Silent(Perform(db, a), call)
    ensures NeverNotified(Perform(db, a), x)
  {
    hide OutboxInv, Inv, SessionsOk, NoClashes, LocksDisjoint, ResponsesHold, MoveOf, NeverNotified;
    NewSilence(db, a.sid, x);
  }

  lemma {:induction false} AlwaysTraced(dbs: seq<Db>, acts: seq<Action>)
    requires IsRun(dbs, acts) && dbs[0] == Start
    ensures Traced(Last(dbs), History(dbs, acts))
    decreases |acts|
  {
    hide DbInv, OutboxInv, HistoryMatches, PcsOk, Enabled, Perform, Answers, Traced;
    if acts == [] {
      StartTraced();
    } else {
      assert IsStep(dbs[|acts| - 1], Last(acts), dbs[|acts|]);
      PrefixIsRun(dbs, acts);
      AlwaysTraced(Front(dbs), Front(acts));
      Linearizable(Front(dbs), Front(acts));
      OutboxAlways(Front(dbs), Front(acts));
      PerformKeepsTraced(dbs[|acts| - 1], Last(acts), History(Front(dbs), Front(acts)));
    }
  }

  lemma StartTraced()
    ensures Traced(Start, [])
  { }

  /** The session of the call ran to its end, for a merchant with a URL. */
  predicate Outspoken(db: Db, call: Call) {
    call.sid in db.sessions && db.sessions[call.sid].notify && db.sessions[call.sid].pc.Done?
  }

  /** How the session that finished a transaction decides about its row. */
  lemma FinisherDecides(db: Db, calls: seq<Call>, k: nat, x: Id)
    requires DbInv(db) && OutboxInv(db) && HistoryMatches(db, calls) && Traced(db, calls)
    requires k < |calls| && Finishes(calls[k], x)
    ensures Terminal(db.tables, x)
    ensures Silent(db, calls[k]) ==> NeverNotified(db, x)
    ensures Outspoken(db, calls[k]) ==> Delivered(db, x)
    ensures Silent(db, calls[k]) || Outspoken(db, calls[k]) || AboutToDeliver(db, calls[k].sid, x)
  {
    hide Inv, SessionsOk, NoClashes, LocksDisjoint, HistoryMatches;
    AnswerCarried(db, calls, k);
    var s := db.sessions[calls[k].sid];
    if Silent(db, calls[k]) { assert NeverNotified(db, x); }
    else { assert ResponseHolds(db.tables, s.req, s.pc.response) && IsTerminal(Target(s.req.event)); }
    if Outspoken(db, calls[k]) { assert Notified(db, calls[k].sid, x); }
  }

  lemma NotifiedCases(db: Db, calls: seq<Call>, x: Id)
    requires DbInv(db) && OutboxInv(db) && HistoryMatches(db, calls) && Traced(db, calls)
    ensures Terminal(db.tables, x) <==> WasFinished(calls, x)
    ensures Delivered(db, x) <==> exists k :: 0 <= k < |calls| && Finishes(calls[k], x) && Outspoken(db, calls[k])
    ensures NeverNotified(db, x) <==> exists k :: 0 <= k < |calls| && Finishes(calls[k], x) && Silent(db, calls[k])
  {
    hide DbInv, HistoryMatches, Silent, Outspoken, Finishes;
    forall k | 0 <= k < |calls| && Finishes(calls[k], x)
      ensures Terminal(db.tables, x)
      ensures Silent(db, calls[k]) ==> NeverNotified(db, x)
      ensures Outspoken(db, calls[k]) ==> Delivered(db, x)
      ensures Silent(db, calls[k]) || Outspoken(db, calls[k]) || AboutToDeliver(db, calls[k].sid, x)
    {
      FinisherDecides(db, calls, k, x);
    }
    if Delivered(db, x) {
      var d :| d in db.deliveries && d.transaction == x;
      assert Reports(db.tables, d);
    }
  }

  /** At the end of any run, a terminal transaction has its row exactly when the session of the callback that finished
      it has a URL to notify and ran to its end; and it will never have one exactly when that session has none, or died
      between the two commits. In between, the row is owed. */
  lemma NotifiedExactlyWhen(dbs: seq<Db>, acts: seq<Action>, x: Id)
    requires IsRun(dbs, acts) && dbs[0] == Start
    ensures var db, calls := Last(dbs), History(dbs, acts);
      && (Terminal(db.tables, x) <==> WasFinished(calls, x))
      && (Delivered(db, x) <==> exists k :: 0 <= k < |calls| && Finishes(calls[k], x) && Outspoken(db, calls[k]))
      && (NeverNotified(db, x) <==> exists k :: 0 <= k < |calls| && Finishes(calls[k], x) && Silent(db, calls[k]))
  {
    Linearizable(dbs, acts);
    OutboxAlways(dbs, acts);
    AlwaysTraced(dbs, acts);
    NotifiedCases(Last(dbs), History(dbs, acts), x);
  }

  // ---- A run that loses one --------------------------------------------------

  function Pay(m: MerchantId): Request {
    InitiateUpi(m, 1, "payer@upi", 2, 3)
  }

  const Decline: Request := BankCallback(PaymentFailed, 3, 100)

  function Opened(m: MerchantId): Tables {
    Attempted(Committed(m), 1, "payer@upi", 2, 3)
  }

  function Declined(m: MerchantId): Tables {
    Finished(Opened(m), 2, PaymentFailed)
  }

  function Ordering(t: Tables, m: MerchantId, pc: Pc): Db {
    Db(t, [], map[1 := Session(Retry(m, 1), true, pc)])
  }

  function Paying(t: Tables, m: MerchantId, pc: Pc): Db {
    var ordered := Ordering(t, m, Done(Accepted(1, Committed(m).intents[1])));
    ordered.(sessions := ordered.sessions[2 := Session(Pay(m), true, pc)])
  }

  function Declining(t: Tables, m: MerchantId, pc: Pc): Db {
    var paid := Paying(t, m, Done(UpiInitiated(2, 1, TransactionState.Pending, 3)));
    paid.(sessions := paid.sessions[3 := Session(Decline, true, pc)])
  }

  lemma OrderingSteps(m: MerchantId)
    ensures IsStep(Start, Arrive(1, Retry(m, 1), true), Ordering(Empty, m, OrderRead))
    ensures IsStep(Ordering(Empty, m, OrderRead), Advance(1), Ordering(Empty, m, OrderInsert))
    ensures IsStep(Ordering(Empty, m, OrderInsert), Advance(1), Ordering(Empty, m, OrderCommit))
    ensures IsStep(Ordering(Empty, m, OrderCommit), Advance(1),
                   Ordering(Committed(m), m, Done(Accepted(1, Committed(m).intents[1]))))
  {
    assert OrdersByKey(Empty, m, "key-0001") == {};
    assert OtherLocks(Ordering(Empty, m, OrderInsert), 1) == {};
  }

  lemma PayingBegins(m: MerchantId)
    ensures var t, read := Committed(m), Committed(m).intents[1];
      && IsStep(Ordering(t, m, Done(Accepted(1, read))), Arrive(2, Pay(m), true), Paying(t, m, InitiateLock))
      && IsStep(Paying(t, m, InitiateLock), Advance(2), Paying(t, m, InitiateDecide(read)))
  {
    assert OtherLocks(Paying(Committed(m), m, InitiateLock), 2) == {};
    assert ByReference(Committed(m), 3) == {};
  }

  lemma PayingDecides(m: MerchantId)
    ensures var t, read := Committed(m), Committed(m).intents[1];
      IsStep(Paying(t, m, InitiateDecide(read)), Advance(2), Paying(t, m, InitiateCommit(read)))
  {
    hide Locks, OtherLocks, OrderMove, ReadMove, PostMove, CommitMove;
    assert AttemptsFor(Committed(m), 1, "payer@upi") == {};
  }

  lemma PayingCommits(m: MerchantId)
    ensures var t, read := Committed(m), Committed(m).intents[1];
      IsStep(Paying(t, m, InitiateCommit(read)), Advance(2),
             Paying(Opened(m), m, Done(UpiInitiated(2, 1, TransactionState.Pending, 3))))
  {
    hide Locks, OtherLocks, OrderMove, ReadMove, PostMove, CommitMove;
  }

  function Read(m: MerchantId): Work {
    Work(2, Opened(m).transactions[2], Opened(m).intents[1])
  }

  lemma DecliningArrives(m: MerchantId)
    ensures IsStep(Paying(Opened(m), m, Done(UpiInitiated(2, 1, TransactionState.Pending, 3))),
                   Arrive(3, Decline, true), Declining(Opened(m), m, CallbackLock))
  { }

  lemma DecliningLocks(m: MerchantId)
    ensures IsStep(Declining(Opened(m), m, CallbackLock), Advance(3),
                   Declining(Opened(m), m, CallbackLockIntent(2, Read(m).txn)))
  {
    hide OrderMove, InitiateMove, PostMove, CommitMove;
    assert ByReference(Opened(m), 3) == {2};
    assert OtherLocks(Declining(Opened(m), m, CallbackLock), 3) == {};
  }

  lemma DecliningReads(m: MerchantId)
    ensures IsStep(Declining(Opened(m), m, CallbackLockIntent(2, Read(m).txn)), Advance(3),
                   Declining(Opened(m), m, Decide(Read(m))))
  {
    hide OrderMove, InitiateMove, PostMove, CommitMove, ValidRequest, Fresh, Clash;
    assert OtherLocks(Declining(Opened(m), m, CallbackLockIntent(2, Read(m).txn)), 3) == {};
  }

  lemma DecliningDecides(m: MerchantId)
    ensures IsStep(Declining(Opened(m), m, Decide(Read(m))), Advance(3), Declining(Opened(m), m, CommitFailed(Read(m))))
  {
    hide Locks, OtherLocks, CommitMove;
  }

  lemma DecliningCommits(m: MerchantId)
    ensures IsStep(Declining(Opened(m), m, CommitFailed(Read(m))), Advance(3),
                   Declining(Declined(m), m, Outbox(CallbackApplied(2, 1, TransactionState.Failed))))
  {
    hide Locks, OtherLocks, OrderMove, InitiateMove, ReadMove, PostMove;
    assert WriteStatus(Opened(m), Read(m), PaymentFailed) == Declined(m);
  }

  lemma DecliningDies(m: MerchantId)
    ensures IsStep(Declining(Declined(m), m, Outbox(CallbackApplied(2, 1, TransactionState.Failed))), Crash(3),
                   Declining(Declined(m), m, Crashed))
  { }

  /** A payment is ordered, opened and declined, and the session that took the bank's callback dies before it writes the
      outbox row: the merchant, who has a URL, is never told. */
  lemma NotificationMayBeLost(m: MerchantId) returns (dbs: seq<Db>, acts: seq<Action>)
    ensures IsRun(dbs, acts) && dbs[0] == Start
    ensures NeverNotified(Last(dbs), 2)
    ensures forall i :: i in Last(dbs).sessions ==> Last(dbs).sessions[i].notify
  {
    hide IsStep;
    OrderingSteps(m);
    PayingBegins(m);
    PayingDecides(m);
    PayingCommits(m);
    DecliningArrives(m);
    DecliningLocks(m);
    DecliningReads(m);
    DecliningDecides(m);
    DecliningCommits(m);
    DecliningDies(m);
    var t, u, read, w := Committed(m), Opened(m), Committed(m).intents[1], Read(m);
    dbs := [Start,
            Ordering(Empty, m, OrderRead), Ordering(Empty, m, OrderInsert), Ordering(Empty, m, OrderCommit),
            Ordering(t, m, Done(Accepted(1, read))),
            Paying(t, m, InitiateLock), Paying(t, m, InitiateDecide(read)), Paying(t, m, InitiateCommit(read)),
            Paying(u, m, Done(UpiInitiated(2, 1, TransactionState.Pending, 3))),
            Declining(u, m, CallbackLock), Declining(u, m, CallbackLockIntent(2, w.txn)), Declining(u, m, Decide(w)),
            Declining(u, m, CommitFailed(w)),
            Declining(Declined(m), m, Outbox(CallbackApplied(2, 1, TransactionState.Failed))),
            Declining(Declined(m), m, Crashed)];
    acts := [Arrive(1, Retry(m, 1), true), Advance(1), Advance(1), Advance(1),
             Arrive(2, Pay(m), true), Advance(2), Advance(2), Advance(2),
             Arrive(3, Decline, true), Advance(3), Advance(3), Advance(3), Advance(3), Crash(3)];
  }
}

/** The merchant's notification is written in a second transaction, after the payment commits. */
module Notifications {
  import opened Sums
  import opened StateMachine
  import opened Tables
  import opened Services
  import opened Invariants
  import opened Guarantees
  import opened Sessions
  import opened Refinement
  import opened System
  import opened Runs

  predicate IsTerminal(state: TransactionState) {
    state == TransactionState.Success || state == TransactionState.Failed
  }

  predicate Reports(t: Tables, d: Delivery) {
    d.transaction in t.transactions && t.transactions[d.transaction].state == d.state && IsTerminal(d.state)
  }

  predicate Delivered(db: Db, x: Id) {
    exists d :: d in db.deliveries && d.transaction == x
  }

  /** Session `i` has finished transaction `x` and is about to write its outbox row. */
  predicate AboutToDeliver(db: Db, i: Sid, x: Id) {
    i in db.sessions && db.sessions[i].pc.Outbox? && db.sessions[i].pc.response.CallbackApplied?
    && db.sessions[i].pc.response.transaction == x
  }

  /** Session `i` ran to its end having finished transaction `x` for a merchant with a webhook URL. */
  predicate Notified(db: Db, i: Sid, x: Id) {
    i in db.sessions && db.sessions[i].notify && db.sessions[i].pc.Done? && db.sessions[i].pc.response.CallbackApplied?
    && db.sessions[i].pc.response.transaction == x
  }

  ghost predicate OutboxInv(db: Db) {
    && (forall i, j :: 0 <= i < j < |db.deliveries| ==> db.deliveries[i].transaction != db.deliveries[j].transaction)
    && (forall d :: d in db.deliveries ==> Reports(db.tables, d))
    && (forall i, x :: AboutToDeliver(db, i, x) ==> !Delivered(db, x))
    && (forall i, j, x :: AboutToDeliver(db, i, x) && AboutToDeliver(db, j, x) ==> i == j)
    && (forall i, x :: Notified(db, i, x) ==> Delivered(db, x))
  }

  lemma ReportsKept(t: Tables, u: Tables, d: Delivery)
    requires Extends(t, u) && Reports(t, d)
    ensures Reports(u, d)
  { }

  /** How an advance concerns the outbox: it writes its row, while no other session has the transaction locked; or it
      finishes a pending transaction, and then owes a row exactly when the merchant has a URL; or neither. */
  lemma OutboxCases(db: Db, sid: Sid)
    requires DbInv(db) && sid in db.sessions && NextMove(db, sid).Go?
    ensures var s, move := db.sessions[sid], NextMove(db, sid);
      && (s.pc.Outbox? ==>
            move.deliveries == db.deliveries + [Delivery(s.pc.response.transaction, s.pc.response.state)]
            && move.pc == Done(s.pc.response)
            && forall i :: i in db.sessions && i != sid ==>
                 TransactionLock(s.pc.response.transaction) !in Locks(db.sessions[i]))
      && (!s.pc.Outbox? ==>
            && move.deliveries == db.deliveries
            && (move.pc.Outbox? ==> s.notify && move.pc.response.CallbackApplied?)
            && (move.pc.Done? && move.pc.response.CallbackApplied? ==> !s.notify)
            && (Responded(move.pc) && move.pc.response.CallbackApplied? ==>
                  s.req.BankCallback? && IsPending(db.tables, move.pc.response.transaction)))
  {
    hide Inv, NoClashes, LocksDisjoint, ResponsesHold, Fresh, SnapshotOk, OtherLocks;
    hide OrderMove, InitiateMove, ReadMove, PostMove;
    var s := db.sessions[sid];
    PendingWork(db.tables, s);
    if s.pc.Outbox? { HeldByNone(db, sid, TransactionLock(s.pc.response.transaction)); }
    if !(s.pc.CommitFailed? || s.pc.CommitPaid? || s.pc.Outbox?) {
      OnlyCommitsOwe(db.tables, db.deliveries, OtherLocks(db, sid), s);
    }
  }

  lemma HeldByNone(db: Db, sid: Sid, lock: Lock)
    requires PcsOk(db)
    ensures lock !in OtherLocks(db, sid) ==>
              forall i :: i in db.sessions && i != sid ==> lock !in Locks(db.sessions[i])
  {
    hide Locks;
  }

  lemma OnlyCommitsOwe(t: Tables, d: seq<Delivery>, taken: set<Lock>, s: Session)
    requires PcOk(s) && MoveOf(t, d, taken, s).Go? && !(s.pc.CommitFailed? || s.pc.CommitPaid? || s.pc.Outbox?)
    ensures var move := MoveOf(t, d, taken, s);
      move.deliveries == d && !move.pc.Outbox? && (move.pc.Done? ==> !move.pc.response.CallbackApplied?)
  { }

  /** A callback about to commit has a pending transaction. */
  lemma PendingWork(t: Tables, s: Session)
    requires PcOk(s) && SnapshotOk(t, s)
    ensures s.pc.CommitFailed? || s.pc.CommitPaid? ==> IsPending(t, s.pc.work.x)
  { }

  lemma OwedIsTerminal(db: Db, i: Sid, x: Id)
    requires DbInv(db) && AboutToDeliver(db, i, x)
    ensures x in db.tables.transactions && db.tables.transactions[x].state == db.sessions[i].pc.response.state
    ensures Reports(db.tables, Delivery(x, db.sessions[i].pc.response.state))
  {
    hide Inv, SessionsOk, NoClashes, LocksDisjoint;
    assert ResponseHolds(db.tables, db.sessions[i].req, db.sessions[i].pc.response);
  }

  lemma AdvanceKeepsOutbox(db: Db, sid: Sid)
    requires DbInv(db) && OutboxInv(db) && sid in db.sessions && NextMove(db, sid).Go?
    ensures OutboxInv(Perform(db, Advance(sid)))
  {
    hide Inv, SessionsOk, NoClashes, LocksDisjoint, ResponsesHold, MoveOf, Extends, Atomic, SnapshotOk;
    hide ResponseHolds, WritesOnly, Step, Locks, OtherLocks;
    var s, move, u := db.sessions[sid], NextMove(db, sid), Perform(db, Advance(sid));
    AdvanceFacts(db, sid);
    OutboxCases(db, sid);
    forall d | d in db.deliveries ensures Reports(u.tables, d) { ReportsKept(db.tables, u.tables, d); }
    if s.pc.Outbox? {
      var x := s.pc.response.transaction;
      assert AboutToDeliver(db, sid, x);
      OwedIsTerminal(db, sid, x);
      ReportsKept(db.tables, u.tables, Delivery(x, s.pc.response.state));
      assert Delivery(x, s.pc.response.state) in u.deliveries;
    } else if move.pc.Outbox? {
      var x := move.pc.response.transaction;
      assert !Delivered(db, x);
      forall i | AboutToDeliver(db, i, x) ensures false { OwedIsTerminal(db, i, x); }
    }
    OthersStillOwe(db, u, sid);
    StillDelivered(db, u, sid);
  }

  lemma StillDelivered(db: Db, u: Db, sid: Sid)
    requires sid in db.sessions && u.sessions.Keys == db.sessions.Keys
    requires forall i :: i in db.sessions && i != sid ==> u.sessions[i] == db.sessions[i]
    requires db.deliveries <= u.deliveries
    requires forall i, x :: Notified(db, i, x) ==> Delivered(db, x)
    requires forall x :: Notified(u, sid, x) ==> Delivered(u, x)
    ensures forall i, x :: Notified(u, i, x) ==> Delivered(u, x)
  {
    forall i, x | Notified(u, i, x) && i != sid ensures Delivered(u, x) {
      assert Notified(db, i, x) && Delivered(db, x);
      var d :| d in db.deliveries && d.transaction == x;
      assert d in u.deliveries;
    }
  }

  lemma OthersStillOwe(db: Db, u: Db, sid: Sid)
    requires sid in db.sessions && u.sessions.Keys == db.sessions.Keys
    requires forall i :: i in db.sessions && i != sid ==> u.sessions[i] == db.sessions[i]
    ensures forall i, x :: i != sid ==> (AboutToDeliver(u, i, x) <==> AboutToDeliver(db, i, x))
  { }

  /** Every action keeps the outbox sound: at most one row per transaction, written only once it is terminal, and
      telling its state for ever after; and a session that is not cut short never fails to write it. */
  lemma PerformKeepsOutbox(db: Db, a: Action)
    requires DbInv(db) && OutboxInv(db) && Enabled(db, a)
    ensures OutboxInv(Perform(db, a))
  {
    hide Inv, SessionsOk, NoClashes, LocksDisjoint, ResponsesHold, MoveOf;
    match a
    case Arrive(sid, req, notify) =>
      forall i, x
        ensures AboutToDeliver(Perform(db, a), i, x) <==> AboutToDeliver(db, i, x)
        ensures Notified(Perform(db, a), i, x) <==> Notified(db, i, x)
      { }
    case Advance(sid) => AdvanceKeepsOutbox(db, sid);
    case Crash(sid) =>
      OthersStillOwe(db, Perform(db, a), sid);
      StillDelivered(db, Perform(db, a), sid);
  }

  lemma {:induction false} OutboxAlways(dbs: seq<Db>, acts: seq<Action>)
    requires IsRun(dbs, acts) && dbs[0] == Start
    ensures OutboxInv(Last(dbs))
    decreases |acts|
  {
    hide DbInv, OutboxInv, PcsOk, Enabled, Perform;
    if acts == [] {
      StartOutbox();
    } else {
      assert IsStep(dbs[|acts| - 1], Last(acts), dbs[|acts|]);
      PrefixIsRun(dbs, acts);
      OutboxAlways(Front(dbs), Front(acts));
      StartOk();
      RunExtends(Front(dbs), Front(acts));
      PerformKeepsOutbox(dbs[|acts| - 1], Last(acts));
    }
  }

  lemma StartOutbox()
    ensures OutboxInv(Start)
  { }
}

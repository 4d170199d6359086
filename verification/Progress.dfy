/** Locks are taken in one order, so sessions never deadlock and every finite batch of requests finishes. */
module Progress {
  import opened Sums
  import opened Tables
  import opened Services
  import opened Invariants
  import opened Sessions
  import opened Refinement
  import opened System
  import opened Runs

  /** Transaction before intent before payer account before merchant account. */
  function Rank(lock: Lock): nat {
    match lock
    case KeyLock(_) => 0
    case TransactionLock(_) => 1
    case IntentLock(_) => 2
    case AccountLock(a) => if '@' in a then 3 else 4
  }

  /** A session waits only for a lock that another holds, and that ranks above all it holds itself. */
  lemma WaitsUpwards(t: Tables, d: seq<Delivery>, taken: set<Lock>, s: Session)
    requires Inv(t) && PcOk(s) && SnapshotOk(t, s) && MoveOf(t, d, taken, s).Wait?
    ensures MoveOf(t, d, taken, s).on in taken
    ensures forall l :: l in Locks(s) ==> Rank(l) < Rank(MoveOf(t, d, taken, s).on)
  {
    hide Inv;
    if s.pc.PayerInsert? || s.pc.PayerLock? || s.pc.PayeeInsert? || s.pc.PayeeLock? {
      PayerAddress(t, s.pc.work.x);
    }
  }

  lemma UnfinishedMoves(t: Tables, d: seq<Delivery>, taken: set<Lock>, s: Session)
    requires PcOk(s) && !IsFinished(s)
    ensures !MoveOf(t, d, taken, s).Stopped?
  { }

  lemma FinishedHoldNothing(s: Session)
    requires PcOk(s) && IsFinished(s)
    ensures Locks(s) == {}
  { }

  ghost function Height(db: Db, sid: Sid): nat
    requires PcsOk(db) && sid in db.sessions
  {
    if NextMove(db, sid).Wait? then 5 - Rank(NextMove(db, sid).on) else 0
  }

  /** Deadlock freedom: following the chain of waits from any unfinished session ends at one that can move. */
  lemma {:induction false} SomeoneCanMove(db: Db, sid: Sid) returns (mover: Sid)
    requires DbInv(db) && sid in db.sessions && !IsFinished(db.sessions[sid])
    ensures mover in db.sessions && Enabled(db, Advance(mover))
    decreases Height(db, sid)
  {
    hide Inv, NoClashes, ResponsesHold, MoveOf, SnapshotOk, Locks, Fresh;
    var s := db.sessions[sid];
    UnfinishedMoves(db.tables, db.deliveries, OtherLocks(db, sid), s);
    if NextMove(db, sid).Go? { return sid; }
    WaitsUpwards(db.tables, db.deliveries, OtherLocks(db, sid), s);
    var lock := NextMove(db, sid).on;
    var holder :| holder in db.sessions && holder != sid && lock in Locks(db.sessions[holder]);
    var h := db.sessions[holder];
    if IsFinished(h) { FinishedHoldNothing(h); }
    if NextMove(db, holder).Wait? {
      WaitsUpwards(db.tables, db.deliveries, OtherLocks(db, holder), h);
    }
    mover := SomeoneCanMove(db, holder);
  }

  // ---- Termination -----------------------------------------------------------

  /** How many more moves a session can make at most. */
  function StepsLeft(pc: Pc): nat {
    match pc
    case OrderRead => 3
    case OrderInsert => 2
    case OrderCommit => 1
    case InitiateLock => 3
    case InitiateDecide(_) => 2
    case InitiateCommit(_) => 1
    case CallbackLock => 9
    case CallbackLockIntent(_, _) => 8
    case Decide(_) => 7
    case CommitFailed(_) => 2
    case PayerInsert(_) => 6
    case PayerLock(_, _) => 5
    case PayeeInsert(_, _) => 4
    case PayeeLock(_, _, _) => 3
    case CommitPaid(_, _, _) => 2
    case Outbox(_) => 1
    case Done(_) => 0
    case Crashed => 0
  }

  lemma MoveCounts(t: Tables, d: seq<Delivery>, taken: set<Lock>, s: Session)
    requires PcOk(s) && MoveOf(t, d, taken, s).Go?
    ensures StepsLeft(MoveOf(t, d, taken, s).pc) < StepsLeft(s.pc)
  { }

  function Steps(db: Db): map<Id, int> {
    map i | i in db.sessions :: StepsLeft(db.sessions[i].pc)
  }

  ghost function Measure(db: Db): int {
    Total(db.sessions.Keys, Steps(db))
  }

  lemma MeasureBounds(db: Db)
    ensures 0 <= Measure(db)
  {
    TotalMonotone({}, db.sessions.Keys, Steps(db));
  }

  lemma MeasureDrops(db: Db, next: Db, sid: Sid)
    requires sid in db.sessions && next.sessions.Keys == db.sessions.Keys
    requires forall i :: i in db.sessions && i != sid ==> next.sessions[i] == db.sessions[i]
    requires StepsLeft(next.sessions[sid].pc) < StepsLeft(db.sessions[sid].pc)
    ensures Measure(next) < Measure(db)
  {
    var keys := db.sessions.Keys;
    TotalExtract(keys, Steps(db), sid);
    TotalExtract(keys, Steps(next), sid);
    TotalSame(keys - {sid}, Steps(db), Steps(next));
  }

  /** Every action but an arrival uses up a step. */
  lemma ActionDrops(db: Db, a: Action)
    requires PcsOk(db) && Enabled(db, a) && !a.Arrive?
    ensures Measure(Perform(db, a)) < Measure(db)
  {
    hide MoveOf, Measure;
    var sid := a.sid;
    if a.Advance? { MoveCounts(db.tables, db.deliveries, OtherLocks(db, sid), db.sessions[sid]); }
    else { UnfinishedHasSteps(db.sessions[sid]); }
    MeasureDrops(db, Perform(db, a), sid);
  }

  lemma UnfinishedHasSteps(s: Session)
    requires !IsFinished(s)
    ensures StepsLeft(s.pc) > 0
  { }

  /** No schedule runs for longer than the steps its sessions have left. */
  lemma {:induction false} RunsAreBounded(dbs: seq<Db>, acts: seq<Action>)
    requires IsRun(dbs, acts) && forall i :: 0 <= i < |acts| ==> !acts[i].Arrive?
    ensures |acts| + Measure(Last(dbs)) <= Measure(dbs[0])
    decreases |acts|
  {
    hide PcsOk, Enabled, Perform, Measure;
    if acts != [] {
      assert IsStep(dbs[|acts| - 1], Last(acts), dbs[|acts|]);
      PrefixIsRun(dbs, acts);
      RunsAreBounded(Front(dbs), Front(acts));
      ActionDrops(dbs[|acts| - 1], Last(acts));
    }
  }

  ghost predicate AllFinished(db: Db) {
    forall i :: i in db.sessions ==> IsFinished(db.sessions[i])
  }

  /** From every reachable state the sessions can all be run to the end without a crash. */
  lemma {:induction false} EveryBatchFinishes(db: Db) returns (dbs: seq<Db>, acts: seq<Action>)
    requires DbInv(db)
    ensures IsRun(dbs, acts) && dbs[0] == db && AllFinished(Last(dbs))
    ensures forall i :: 0 <= i < |acts| ==> acts[i].Advance?
    decreases Measure(db)
  {
    hide DbInv, PcsOk, Enabled, Perform, Measure;
    if AllFinished(db) { return [db], []; }
    var sid :| sid in db.sessions && !IsFinished(db.sessions[sid]);
    var mover := SomeoneCanMove(db, sid);
    var a := Advance(mover);
    DbInvPcs(db);
    var next := Perform(db, a);
    PerformKeepsInv(db, a);
    MeasureBounds(next);
    ActionDrops(db, a);
    var rest, more := EveryBatchFinishes(next);
    dbs, acts := [db] + rest, [a] + more;
    forall i | 0 <= i < |acts| ensures IsStep(dbs[i], acts[i], dbs[i + 1]) {
      if i > 0 { assert IsStep(rest[i - 1], more[i - 1], rest[i]); }
    }
  }

  lemma DbInvPcs(db: Db)
    requires DbInv(db)
    ensures PcsOk(db)
  { }
}

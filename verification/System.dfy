/** The whole system of concurrent sessions: its invariant, and linearizability of every run. */
module System {
  import opened Sums
  import opened Tables
  import opened Services
  import opened Invariants
  import opened Guarantees
  import opened Sessions
  import opened Refinement

  /** Still on its way to an answer. */
  predicate Live(s: Session) {
    !Responded(s.pc) && !IsFinished(s)
  }

  ghost predicate SessionsOk(db: Db)
    requires PcsOk(db)
  {
    forall i :: i in db.sessions ==>
      && ValidRequest(db.sessions[i].req)
      && SnapshotOk(db.tables, db.sessions[i])
      && (Live(db.sessions[i]) ==> Fresh(db.tables, db.sessions[i].req))
  }

  ghost predicate NoClashes(db: Db) {
    forall i, j | i in db.sessions && j in db.sessions && i != j :: !Clash(db.sessions[i].req, db.sessions[j].req)
  }

  /** No row is locked twice. */
  ghost predicate LocksDisjoint(db: Db)
    requires PcsOk(db)
  {
    forall i, j | i in db.sessions && j in db.sessions && i != j :: Locks(db.sessions[i]) !! Locks(db.sessions[j])
  }

  /** What an answer promised is still true of the tables. */
  ghost predicate ResponseHolds(t: Tables, req: Request, response: Response) {
    match response
    case OrderAccepted(order, key, amount, currency, _) =>
      && req.CreateOrder? && order in t.intents && t.intents[order].merchant == req.merchant
      && t.intents[order].key == key == req.key
      && t.intents[order].amount == amount && t.intents[order].currency == currency
    case UpiInitiated(x, order, _, reference) =>
      && req.InitiateUpi? && HasIntent(t, x) && t.transactions[x].reference == reference
      && t.transactions[x].intent == order == req.order && t.transactions[x].vpa == req.vpa
      && IntentOf(t, x).merchant == req.merchant
    case CallbackApplied(x, order, state) =>
      && req.BankCallback? && HasIntent(t, x) && t.transactions[x].reference == req.reference
      && t.transactions[x].intent == order && IntentOf(t, x).amount == req.amount
      && t.transactions[x].state == state == Target(req.event)
    case CallbackReplayed(x, state) =>
      && req.BankCallback? && HasIntent(t, x) && t.transactions[x].reference == req.reference
      && IntentOf(t, x).amount == req.amount && t.transactions[x].state == state == Target(req.event)
    case _ => true
  }

  ghost predicate ResponsesHold(db: Db) {
    forall i :: i in db.sessions && Responded(db.sessions[i].pc) ==>
      ResponseHolds(db.tables, db.sessions[i].req, db.sessions[i].pc.response)
  }

  ghost predicate DbInv(db: Db) {
    PcsOk(db) && Inv(db.tables) && SessionsOk(db) && NoClashes(db) && LocksDisjoint(db) && ResponsesHold(db)
  }

  // ---- One step of one session -----------------------------------------------

  /** A session only ever adds locks that nobody else holds. */
  lemma NewLocksAreFree(t: Tables, d: seq<Delivery>, taken: set<Lock>, s: Session)
    requires PcOk(s) && MoveOf(t, d, taken, s).Go? && PcOk(s.(pc := MoveOf(t, d, taken, s).pc))
    ensures forall l :: l in Locks(s.(pc := MoveOf(t, d, taken, s).pc)) ==> l in Locks(s) || l !in taken
  {
    hide PostMove, OrderMove, InitiateMove, ReadMove, CommitMove;
    if s.pc.PayerInsert? || s.pc.PayerLock? || s.pc.PayeeInsert? || s.pc.PayeeLock? {
      PostLocksAreFree(t, d, taken, s);
    } else {
      ReadLocksAreFree(t, d, taken, s);
    }
  }

  lemma PostLocksAreFree(t: Tables, d: seq<Delivery>, taken: set<Lock>, s: Session)
    requires PcOk(s) && (s.pc.PayerInsert? || s.pc.PayerLock? || s.pc.PayeeInsert? || s.pc.PayeeLock?)
    requires MoveOf(t, d, taken, s).Go? && PcOk(s.(pc := MoveOf(t, d, taken, s).pc))
    ensures forall l :: l in Locks(s.(pc := MoveOf(t, d, taken, s).pc)) ==> l in Locks(s) || l !in taken
  {
    hide OrderMove, InitiateMove, ReadMove, CommitMove;
  }

  lemma ReadLocksAreFree(t: Tables, d: seq<Delivery>, taken: set<Lock>, s: Session)
    requires PcOk(s) && !(s.pc.PayerInsert? || s.pc.PayerLock? || s.pc.PayeeInsert? || s.pc.PayeeLock?)
    requires MoveOf(t, d, taken, s).Go? && PcOk(s.(pc := MoveOf(t, d, taken, s).pc))
    ensures forall l :: l in Locks(s.(pc := MoveOf(t, d, taken, s).pc)) ==> l in Locks(s) || l !in taken
  {
    hide PostMove;
  }

  lemma AdvanceKeepsLocks(db: Db, sid: Sid)
    requires PcsOk(db) && LocksDisjoint(db) && sid in db.sessions && NextMove(db, sid).Go?
    requires PcOk(db.sessions[sid].(pc := NextMove(db, sid).pc))
    ensures PcsOk(Perform(db, Advance(sid))) && LocksDisjoint(Perform(db, Advance(sid)))
  {
    hide MoveOf, Locks;
    var s, u := db.sessions[sid], Perform(db, Advance(sid));
    NewLocksAreFree(db.tables, db.deliveries, OtherLocks(db, sid), s);
    forall j | j in db.sessions && j != sid ensures Locks(u.sessions[sid]) !! Locks(u.sessions[j]) {
      assert forall l :: l in Locks(db.sessions[j]) ==> l in OtherLocks(db, sid);
    }
  }

  lemma StepKeepsFresh(t: Tables, req: Request, other: Request)
    requires Fresh(t, other) && !Clash(req, other)
    ensures Fresh(Step(t, req).tables, other)
  {
    var u := Step(t, req).tables;
    if other.InitiateUpi? {
      forall x | x in u.transactions ensures u.transactions[x].reference != other.newReference {
        if x in t.transactions { assert x !in ByReference(t, other.newReference); }
      }
    }
  }

  lemma OrderResponseHolds(t: Tables, req: Request)
    requires req.CreateOrder?
    ensures ResponseHolds(Step(t, req).tables, req, Step(t, req).response)
  { }

  lemma InitiateResponseHolds(t: Tables, req: Request)
    requires req.InitiateUpi?
    ensures ResponseHolds(Step(t, req).tables, req, Step(t, req).response)
  {
    if Single(AttemptsFor(t, req.order, req.vpa)).OneRow? {
      assert Single(AttemptsFor(t, req.order, req.vpa)).id in AttemptsFor(t, req.order, req.vpa);
    }
  }

  lemma CallbackResponseHolds(t: Tables, req: Request)
    requires req.BankCallback?
    ensures ResponseHolds(Step(t, req).tables, req, Step(t, req).response)
  {
    if Single(ByReference(t, req.reference)).OneRow? {
      var x := Single(ByReference(t, req.reference)).id;
      assert x in ByReference(t, req.reference);
    }
  }

  lemma AtomicFacts(t: Tables, req: Request, u: Tables, response: Response)
    requires Inv(t) && ValidRequest(req) && Fresh(t, req) && Atomic(t, req, u, response)
    ensures Inv(u) && Extends(t, u) && ResponseHolds(u, req, response)
  {
    hide Inv, Extends, Step, ResponseHolds;
    StepKeepsInv(t, req);
    StepExtends(t, req);
    ExtendsSelf(t);
    match req {
      case CreateOrder(_, _, _, _, _) => OrderResponseHolds(t, req);
      case InitiateUpi(_, _, _, _, _) => InitiateResponseHolds(t, req);
      case BankCallback(_, _, _) => CallbackResponseHolds(t, req);
    }
    TrivialResponseHolds(u, req);
  }

  lemma ExtendsSelf(t: Tables)
    ensures Extends(t, t)
  { }

  lemma TrivialResponseHolds(t: Tables, req: Request)
    ensures ResponseHolds(t, req, OrderIdempotencyReuse)
  { }

  lemma ResponseKept(t: Tables, u: Tables, req: Request, response: Response)
    requires Extends(t, u) && ResponseHolds(t, req, response)
    ensures ResponseHolds(u, req, response)
  { }

  /** What one advance does to the tables. */
  lemma AdvanceFacts(db: Db, sid: Sid)
    requires DbInv(db) && sid in db.sessions && NextMove(db, sid).Go?
    ensures var s, move := db.sessions[sid], NextMove(db, sid);
      && !IsFinished(s) && MoveOk(db.tables, s, move) && Inv(move.tables) && Extends(db.tables, move.tables)
      && (Responded(move.pc) ==> ResponseHolds(move.tables, s.req, move.pc.response))
  {
    hide Inv, Extends, ResponseHolds, SnapshotOk, MoveOf, Fresh, WritesOnly, Atomic, Locks, LocksDisjoint, NoClashes;
    var s, move := db.sessions[sid], NextMove(db, sid);
    if IsFinished(s) { FinishedStops(db, sid); }
    EveryMoveOk(db.tables, db.deliveries, OtherLocks(db, sid), s);
    ExtendsSelf(db.tables);
    if Responded(move.pc) && !Responded(s.pc) { AtomicFacts(db.tables, s.req, move.tables, move.pc.response); }
  }

  lemma FinishedStops(db: Db, sid: Sid)
    requires PcsOk(db) && sid in db.sessions && IsFinished(db.sessions[sid])
    ensures !NextMove(db, sid).Go?
  { }

  lemma OthersUnharmed(db: Db, sid: Sid, o: Sid)
    requires DbInv(db) && sid in db.sessions && o in db.sessions && o != sid && NextMove(db, sid).Go?
    ensures var u := NextMove(db, sid).tables; var s := db.sessions[o];
      && SnapshotOk(u, s) && (Live(s) ==> Fresh(u, s.req))
      && (Responded(s.pc) ==> ResponseHolds(u, s.req, s.pc.response))
  {
    hide Inv, Extends, ResponseHolds, SnapshotOk, MoveOf, Fresh, Step, SameUnder, Locks;
    var t, s, move := db.tables, db.sessions[o], NextMove(db, sid);
    AdvanceFacts(db, sid);
    forall l | l in Locks(s) ensures SameUnder(t, move.tables, l) {
      assert l !in Locks(db.sessions[sid]);
    }
    SnapshotStable(t, move.tables, s);
    if Live(s) && move.tables != t { StepKeepsFresh(t, db.sessions[sid].req, s.req); }
    if Responded(s.pc) { ResponseKept(t, move.tables, s.req, s.pc.response); }
  }

  lemma AdvanceKeepsInv(db: Db, sid: Sid)
    requires DbInv(db) && sid in db.sessions && NextMove(db, sid).Go?
    ensures DbInv(Perform(db, Advance(sid)))
  {
    hide Inv, Extends, ResponseHolds, SnapshotOk, MoveOf, Locks, LocksDisjoint, WritesOnly, Atomic, Step;
    AdvanceFacts(db, sid);
    AdvanceKeepsLocks(db, sid);
    var u, s, move := Perform(db, Advance(sid)), db.sessions[sid], NextMove(db, sid);
    forall o | o in db.sessions && o != sid
      ensures SnapshotOk(u.tables, u.sessions[o]) && (Live(u.sessions[o]) ==> Fresh(u.tables, u.sessions[o].req))
      ensures Responded(u.sessions[o].pc) ==> ResponseHolds(u.tables, u.sessions[o].req, u.sessions[o].pc.response)
    {
      OthersUnharmed(db, sid, o);
    }
    assert Live(u.sessions[sid]) ==> Fresh(u.tables, s.req);
  }

  lemma ArriveKeepsInv(db: Db, sid: Sid, req: Request, notify: bool)
    requires DbInv(db) && Enabled(db, Arrive(sid, req, notify))
    ensures DbInv(Perform(db, Arrive(sid, req, notify)))
  {
    hide Inv, ResponseHolds;
    var u := Perform(db, Arrive(sid, req, notify));
    assert Locks(u.sessions[sid]) == {};
  }

  lemma CrashKeepsInv(db: Db, sid: Sid)
    requires DbInv(db) && Enabled(db, Crash(sid))
    ensures DbInv(Perform(db, Crash(sid)))
  {
    hide Inv, ResponseHolds, Fresh;
    var u := Perform(db, Crash(sid));
    assert Locks(u.sessions[sid]) == {};
  }

  /** Every action of the system keeps its invariant. */
  lemma PerformKeepsInv(db: Db, a: Action)
    requires DbInv(db) && Enabled(db, a)
    ensures DbInv(Perform(db, a)) && Extends(db.tables, Perform(db, a).tables)
  {
    hide Inv, Extends, SessionsOk, NoClashes, LocksDisjoint, ResponsesHold;
    ExtendsSelf(db.tables);
    match a
    case Arrive(sid, req, notify) => ArriveKeepsInv(db, sid, req, notify);
    case Advance(sid) => AdvanceFacts(db, sid); AdvanceKeepsInv(db, sid);
    case Crash(sid) => CrashKeepsInv(db, sid);
  }
}

/** Every interleaving of sessions is a sequence of atomic service calls. */
module Refinement {
  import opened Sums
  import opened StateMachine
  import opened Tables
  import opened Services
  import opened Invariants
  import opened Guarantees
  import opened Sessions

  // ---- What a session knows of the rows it has locked ------------------------

  ghost predicate TransactionRead(t: Tables, req: Request, x: Id, txn: Transaction)
    requires req.BankCallback?
  {
    x in t.transactions && t.transactions[x] == txn && txn.reference == req.reference
  }

  ghost predicate WorkRead(t: Tables, req: Request, w: Work)
    requires req.BankCallback?
  {
    TransactionRead(t, req, w.x, w.txn) && w.txn.intent in t.intents && t.intents[w.txn.intent] == w.intent
  }

  /** The guards of the callback passed on the rows read. */
  predicate GuardsPassed(req: Request, w: Work, event: Event)
    requires req.BankCallback?
  {
    && req.event == event && w.intent.amount == req.amount
    && TransactionMayMove(w.txn.state, Target(event)) && IntentMayMove(w.intent.status, StatusFor(Target(event)))
  }

  ghost predicate PayerRead(t: Tables, w: Work, row: Account) {
    |PayerOf(w)| <= IDENTIFIER_LIMIT && row.kind == Virtual && row == RowSeen(t, PayerOf(w), Virtual, None)
  }

  ghost predicate PayeeRead(t: Tables, w: Work, row: Account) {
    row.kind == MerchantSettlement && row == RowSeen(t, PayeeOf(w), MerchantSettlement, Some(w.intent.merchant))
  }

  ghost predicate PostingBegun(t: Tables, req: Request, w: Work)
    requires req.BankCallback?
  {
    WorkRead(t, req, w) && GuardsPassed(req, w, PaymentSuccess)
  }

  /** A locked row still equals the holder's copy of it. */
  ghost predicate SnapshotOk(t: Tables, s: Session)
    requires PcOk(s)
  {
    match s.pc
    case OrderCommit => !KeyTaken(t, s.req.key)
    case InitiateDecide(read) => OrderReadOk(t, s.req, read)
    case InitiateCommit(read) => OrderReadOk(t, s.req, read) && read.status == PaymentStatus.Created
    case CallbackLockIntent(x, txn) => TransactionRead(t, s.req, x, txn)
    case Decide(w) => WorkRead(t, s.req, w)
    case CommitFailed(w) => WorkRead(t, s.req, w) && GuardsPassed(s.req, w, PaymentFailed)
    case PayerInsert(w) => PostingBegun(t, s.req, w)
    case PayerLock(w, inserted) =>
      PostingBegun(t, s.req, w) && |PayerOf(w)| <= IDENTIFIER_LIMIT && (inserted <==> PayerOf(w) !in t.accounts)
    case PayeeInsert(w, payer) => PostingBegun(t, s.req, w) && PayerRead(t, w, payer)
    case PayeeLock(w, payer, inserted) =>
      PostingBegun(t, s.req, w) && PayerRead(t, w, payer) && (inserted <==> PayeeOf(w) !in t.accounts)
    case CommitPaid(w, payer, payee) => PostingBegun(t, s.req, w) && PayerRead(t, w, payer) && PayeeRead(t, w, payee)
    case _ => true
  }

  ghost predicate OrderReadOk(t: Tables, req: Request, read: Intent)
    requires req.InitiateUpi?
  {
    req.order in t.intents && t.intents[req.order] == read && read.merchant == req.merchant
  }

  // ---- Snapshots survive the commits of others -------------------------------

  /** `u` has the same committed rows under `lock` as `t`. */
  ghost predicate SameUnder(t: Tables, u: Tables, lock: Lock) {
    match lock
    case KeyLock(key) => KeyTaken(u, key) ==> KeyTaken(t, key)
    case TransactionLock(x) => x in t.transactions ==> x in u.transactions && u.transactions[x] == t.transactions[x]
    case IntentLock(i) => i in t.intents ==> i in u.intents && u.intents[i] == t.intents[i]
    case AccountLock(a) =>
      (a in t.accounts <==> a in u.accounts) && (a in t.accounts ==> u.accounts[a] == t.accounts[a])
  }

  ghost predicate WritesOnly(t: Tables, u: Tables, held: set<Lock>) {
    (forall l :: l !in held ==> SameUnder(t, u, l)) && t.accounts.Keys <= u.accounts.Keys
  }

  lemma SnapshotStable(t: Tables, u: Tables, s: Session)
    requires PcOk(s) && SnapshotOk(t, s) && t.accounts.Keys <= u.accounts.Keys
    requires forall l :: l in Locks(s) ==> SameUnder(t, u, l)
    ensures SnapshotOk(u, s)
  {
    match s.pc
    case OrderCommit => assert KeyLock(s.req.key) in Locks(s);
    case InitiateDecide(_) => assert IntentLock(s.req.order) in Locks(s);
    case InitiateCommit(_) => assert IntentLock(s.req.order) in Locks(s);
    case CallbackLockIntent(x, _) => assert TransactionLock(x) in Locks(s);
    case Decide(w) => WorkStable(t, u, s, w);
    case CommitFailed(w) => WorkStable(t, u, s, w);
    case PayerInsert(w) => WorkStable(t, u, s, w);
    case PayerLock(w, inserted) =>
      WorkStable(t, u, s, w);
      if inserted { assert AccountLock(PayerOf(w)) in Locks(s); }
    case PayeeInsert(w, _) =>
      WorkStable(t, u, s, w);
      assert AccountLock(PayerOf(w)) in Locks(s);
    case PayeeLock(w, _, inserted) =>
      WorkStable(t, u, s, w);
      assert AccountLock(PayerOf(w)) in Locks(s);
      if inserted { assert AccountLock(PayeeOf(w)) in Locks(s); }
    case CommitPaid(w, _, _) =>
      WorkStable(t, u, s, w);
      assert AccountLock(PayerOf(w)) in Locks(s) && AccountLock(PayeeOf(w)) in Locks(s);
    case _ =>
  }

  lemma WorkStable(t: Tables, u: Tables, s: Session, w: Work)
    requires PcOk(s) && s.req.BankCallback? && WorkRead(t, s.req, w) && RowLocks(w) <= Locks(s)
    requires forall l :: l in Locks(s) ==> SameUnder(t, u, l)
    ensures WorkRead(u, s.req, w)
  { }

  // ---- One move --------------------------------------------------------------

  /** The merchant's own order with the key is there, although the request found none when it looked. */
  predicate Overtaken(t: Tables, req: Request) {
    req.CreateOrder? && OrdersByKey(t, req.merchant, req.key) != {}
  }

  /** The call that answers `response` does so in one atomic step. A new order may be overtaken by an order of its own
      merchant committed after it looked, and is then refused; `Retries` says exactly when. */
  ghost predicate Atomic(t: Tables, req: Request, u: Tables, response: Response) {
    || Outcome(u, response) == Step(t, req)
    || (Overtaken(t, req) && u == t && response == OrderIdempotencyReuse)
  }

  /** A move answers with an atomic step, or leaves the tables alone; it writes only rows it has locked. Only an insert
      can find itself overtaken. */
  ghost predicate MoveOk(t: Tables, s: Session, move: Move)
    requires PcOk(s)
  {
    move.Go? ==>
      && PcOk(s.(pc := move.pc)) && SnapshotOk(move.tables, s.(pc := move.pc))
      && !move.pc.Crashed?
      && (if Responded(move.pc) && !Responded(s.pc)
          then && Atomic(t, s.req, move.tables, move.pc.response)
               && (s.pc.OrderInsert? || Outcome(move.tables, move.pc.response) == Step(t, s.req))
          else move.tables == t && (Responded(s.pc) ==> Responded(move.pc) && move.pc.response == s.pc.response))
      && WritesOnly(t, move.tables, Locks(s))
  }

  lemma UnchangedWrites(t: Tables, held: set<Lock>)
    ensures WritesOnly(t, t, held)
  { }

  lemma OrderMoveOk(t: Tables, d: seq<Delivery>, taken: set<Lock>, s: Session)
    requires Inv(t) && PcOk(s) && SnapshotOk(t, s) && Fresh(t, s.req)
    requires s.pc.OrderRead? || s.pc.OrderInsert? || s.pc.OrderCommit?
    ensures MoveOk(t, s, OrderMove(t, d, taken, s))
  {
    hide Inv;
    UnchangedWrites(t, Locks(s));
    if s.pc.OrderCommit? {
      var move := OrderMove(t, d, taken, s);
      assert OrdersByKey(t, s.req.merchant, s.req.key) == {};
      assert Atomic(t, s.req, move.tables, move.pc.response);
      forall l | l !in Locks(s) ensures SameUnder(t, move.tables, l) { }
    }
  }

  lemma UnopenedOrder(t: Tables, order: Id, vpa: string)
    requires Inv(t) && order in t.intents && t.intents[order].status == PaymentStatus.Created
    ensures Single(AttemptsFor(t, order, vpa)).NoRow?
  { }

  lemma InitiateCommitOk(t: Tables, d: seq<Delivery>, taken: set<Lock>, s: Session)
    requires Inv(t) && PcOk(s) && SnapshotOk(t, s) && Fresh(t, s.req) && s.pc.InitiateCommit?
    ensures MoveOk(t, s, InitiateMove(t, d, taken, s))
  {
    hide Inv;
    UnopenedOrder(t, s.req.order, s.req.vpa);
    var move := InitiateMove(t, d, taken, s);
    assert Atomic(t, s.req, move.tables, move.pc.response);
    forall l | l !in Locks(s) ensures SameUnder(t, move.tables, l) { }
  }

  lemma InitiateMoveOk(t: Tables, d: seq<Delivery>, taken: set<Lock>, s: Session)
    requires Inv(t) && PcOk(s) && SnapshotOk(t, s) && Fresh(t, s.req)
    requires s.pc.InitiateLock? || s.pc.InitiateDecide? || s.pc.InitiateCommit?
    ensures MoveOk(t, s, InitiateMove(t, d, taken, s))
  {
    hide Inv, WritesOnly;
    UnchangedWrites(t, Locks(s));
    if s.pc.InitiateCommit? { InitiateCommitOk(t, d, taken, s); }
  }

  lemma DecideOk(t: Tables, d: seq<Delivery>, taken: set<Lock>, s: Session)
    requires Inv(t) && PcOk(s) && SnapshotOk(t, s) && s.pc.Decide?
    ensures MoveOk(t, s, ReadMove(t, d, taken, s))
  {
    hide Inv, WritesOnly, Posted, Finished, CanPost;
    UnchangedWrites(t, Locks(s));
    FoundByReference(t, s.pc.work.x);
  }

  lemma CallbackLocksOk(t: Tables, d: seq<Delivery>, taken: set<Lock>, s: Session)
    requires Inv(t) && PcOk(s) && SnapshotOk(t, s) && (s.pc.CallbackLock? || s.pc.CallbackLockIntent?)
    ensures MoveOk(t, s, ReadMove(t, d, taken, s))
  {
    hide Inv, WritesOnly, EventStep, EventResponse;
    UnchangedWrites(t, Locks(s));
    if s.pc.CallbackLock? {
      if Single(ByReference(t, s.req.reference)).OneRow? {
        assert Single(ByReference(t, s.req.reference)).id in ByReference(t, s.req.reference);
      }
    } else {
      FoundByReference(t, s.pc.x);
    }
  }

  lemma ReadMoveOk(t: Tables, d: seq<Delivery>, taken: set<Lock>, s: Session)
    requires Inv(t) && PcOk(s) && SnapshotOk(t, s)
    requires s.pc.CallbackLock? || s.pc.CallbackLockIntent? || s.pc.Decide?
    ensures MoveOk(t, s, ReadMove(t, d, taken, s))
  {
    hide *;
    if s.pc.Decide? { DecideOk(t, d, taken, s); } else { CallbackLocksOk(t, d, taken, s); }
  }

  // ---- Posting ---------------------------------------------------------------

  /** With both accounts read under lock, the posting is possible exactly when neither balance overflows. */
  lemma PostingReady(t: Tables, req: Request, w: Work, payer: Account, payee: Account)
    requires AccountsOk(t) && req.BankCallback? && PostingBegun(t, req, w) && '@' in PayerOf(w)
    requires PayerRead(t, w, payer) && PayeeRead(t, w, payee)
    ensures HasIntent(t, w.x)
    ensures CanPost(t, w.x) <==> payer.balance + req.amount < MONEY_LIMIT && payee.balance + req.amount < MONEY_LIMIT
    ensures WritePosting(WriteStatus(t, w, PaymentSuccess), w, payer, payee, req.amount) == Settle(t, w.x)
  {
    AccountKinds(t, PayerOf(w), w.intent.merchant);
  }

  /** An address too long for an identifier can never be posted. */
  lemma TooLong(t: Tables, req: Request, w: Work)
    requires Inv(t) && req.BankCallback? && PostingBegun(t, req, w) && |PayerOf(w)| > IDENTIFIER_LIMIT
    ensures Step(t, req) == Outcome(t, ServerError)
  {
    hide Inv, Posted, Finished;
    FoundByReference(t, w.x);
  }

  lemma PayerMoveOk(t: Tables, d: seq<Delivery>, taken: set<Lock>, s: Session)
    requires Inv(t) && PcOk(s) && SnapshotOk(t, s) && (s.pc.PayerInsert? || s.pc.PayerLock?)
    ensures MoveOk(t, s, PostMove(t, d, taken, s))
  {
    hide Inv, Step, WritesOnly;
    UnchangedWrites(t, Locks(s));
    var w := s.pc.work;
    PayerAddress(t, w.x);
    ReachableKinds(t, PayerOf(w), w.intent.merchant);
    if s.pc.PayerInsert? && |PayerOf(w)| > IDENTIFIER_LIMIT { TooLong(t, s.req, w); }
  }

  lemma PayeeMoveOk(t: Tables, d: seq<Delivery>, taken: set<Lock>, s: Session)
    requires Inv(t) && PcOk(s) && SnapshotOk(t, s) && (s.pc.PayeeInsert? || s.pc.PayeeLock?)
    ensures MoveOk(t, s, PostMove(t, d, taken, s))
  {
    hide Inv, Step, WritesOnly;
    UnchangedWrites(t, Locks(s));
    var w := s.pc.work;
    PayerAddress(t, w.x);
    ReachableKinds(t, PayerOf(w), w.intent.merchant);
  }

  lemma PayerAddress(t: Tables, x: Id)
    requires Inv(t) && x in t.transactions
    ensures '@' in t.transactions[x].vpa && HasIntent(t, x)
  { }

  lemma ReachableKinds(t: Tables, payer: string, merchant: MerchantId)
    requires Inv(t) && '@' in payer
    ensures payer in t.accounts ==> t.accounts[payer].kind == Virtual
    ensures SettlementAccount(merchant) in t.accounts ==>
              t.accounts[SettlementAccount(merchant)].kind == MerchantSettlement
  { }

  lemma CommitPaidAtomic(t: Tables, d: seq<Delivery>, taken: set<Lock>, s: Session)
    requires Inv(t) && PcOk(s) && SnapshotOk(t, s) && s.pc.CommitPaid?
    ensures var move := CommitMove(t, d, taken, s); Outcome(move.tables, move.pc.response) == Step(t, s.req)
  {
    hide Inv, Settle, CanPost, WriteStatus, WritePosting;
    var w := s.pc.work;
    PayerAddress(t, w.x);
    FoundByReference(t, w.x);
    InvAccounts(t);
    PostingReady(t, s.req, w, s.pc.payer, s.pc.payee);
    if CanPost(t, w.x) { EventSettles(t, w.x, s.req.amount); }
  }

  lemma EventSettles(t: Tables, x: Id, amount: int)
    requires HasIntent(t, x) && Applies(t, x, PaymentSuccess, amount)
    ensures EventStep(t, x, PaymentSuccess, amount) == Settle(t, x)
  { }

  lemma InvAccounts(t: Tables)
    requires Inv(t)
    ensures AccountsOk(t)
  { }

  lemma CommitPaidWrites(t: Tables, d: seq<Delivery>, taken: set<Lock>, s: Session)
    requires PcOk(s) && SnapshotOk(t, s) && s.pc.CommitPaid?
    ensures WritesOnly(t, CommitMove(t, d, taken, s).tables, Locks(s))
  {
    UnchangedWrites(t, Locks(s));
    forall l | l !in Locks(s) ensures SameUnder(t, CommitMove(t, d, taken, s).tables, l) { }
  }

  lemma CommitFailedAtomic(t: Tables, d: seq<Delivery>, taken: set<Lock>, s: Session)
    requires Inv(t) && PcOk(s) && SnapshotOk(t, s) && s.pc.CommitFailed?
    ensures var move := CommitMove(t, d, taken, s);
      Outcome(move.tables, move.pc.response) == Step(t, s.req) && WritesOnly(t, move.tables, Locks(s))
  {
    hide Inv, CanPost, Posted;
    FoundByReference(t, s.pc.work.x);
    forall l | l !in Locks(s) ensures SameUnder(t, CommitMove(t, d, taken, s).tables, l) { }
  }

  lemma CommitMoveOk(t: Tables, d: seq<Delivery>, taken: set<Lock>, s: Session)
    requires Inv(t) && PcOk(s) && SnapshotOk(t, s) && (s.pc.CommitFailed? || s.pc.CommitPaid? || s.pc.Outbox?)
    ensures MoveOk(t, s, CommitMove(t, d, taken, s))
  {
    hide Inv, WritesOnly, Step, WriteStatus, WritePosting;
    UnchangedWrites(t, Locks(s));
    if s.pc.CommitPaid? { CommitPaidAtomic(t, d, taken, s); CommitPaidWrites(t, d, taken, s); }
    if s.pc.CommitFailed? { CommitFailedAtomic(t, d, taken, s); }
  }

  /** Every move of every session is atomic or invisible, and touches only rows the session has locked. */
  lemma EveryMoveOk(t: Tables, d: seq<Delivery>, taken: set<Lock>, s: Session)
    requires Inv(t) && PcOk(s) && SnapshotOk(t, s) && (!Responded(s.pc) && !IsFinished(s) ==> Fresh(t, s.req))
    ensures MoveOk(t, s, MoveOf(t, d, taken, s))
  {
    hide Inv, SnapshotOk, MoveOk, OrderMove, InitiateMove, ReadMove, PostMove, CommitMove, Fresh;
    if s.pc.OrderRead? || s.pc.OrderInsert? || s.pc.OrderCommit? { OrderMoveOk(t, d, taken, s); }
    else if s.pc.InitiateLock? || s.pc.InitiateDecide? || s.pc.InitiateCommit? { InitiateMoveOk(t, d, taken, s); }
    else if s.pc.CallbackLock? || s.pc.CallbackLockIntent? || s.pc.Decide? { ReadMoveOk(t, d, taken, s); }
    else if s.pc.CommitFailed? || s.pc.CommitPaid? || s.pc.Outbox? { CommitMoveOk(t, d, taken, s); }
    else if IsFinished(s) { StoppedOk(t, s); }
    else if s.pc.PayerInsert? || s.pc.PayerLock? { PayerMoveOk(t, d, taken, s); }
    else { PayeeMoveOk(t, d, taken, s); }
  }

  lemma StoppedOk(t: Tables, s: Session)
    requires PcOk(s)
    ensures MoveOk(t, s, Stopped)
  { }
}

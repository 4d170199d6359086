/** The services as concurrent database sessions: row locks are taken one at a time, rows are read under them, writes
    are buffered as absolute values and land only at commit. A locked read returns the latest committed row. */
module Sessions {
  import opened Sums
  import opened StateMachine
  import opened Tables
  import opened Services

  type Sid = nat

  /** A row lock, or the wait that an uncommitted insert imposes on inserts of the same unique value. */
  datatype Lock =
    | KeyLock(key: string)
    | TransactionLock(transaction: Id)
    | IntentLock(intent: Id)
    | AccountLock(identifier: string)

  /** The rows a callback has read under lock. */
  datatype Work = Work(x: Id, txn: Transaction, intent: Intent)

  datatype Pc =
    | OrderRead
    | OrderInsert
    | OrderCommit
    | InitiateLock
    | InitiateDecide(read: Intent)
    | InitiateCommit(read: Intent)
    | CallbackLock
    | CallbackLockIntent(x: Id, txn: Transaction)
    | Decide(work: Work)
    | CommitFailed(work: Work)
    | PayerInsert(work: Work)
    | PayerLock(work: Work, inserted: bool)
    | PayeeInsert(work: Work, payer: Account)
    | PayeeLock(work: Work, payer: Account, inserted: bool)
    | CommitPaid(work: Work, payer: Account, payee: Account)
    | Outbox(response: Response)
    | Done(response: Response)
    | Crashed

  /** `notify`: the merchant behind the request has a webhook URL. */
  datatype Session = Session(req: Request, notify: bool, pc: Pc)

  datatype Db = Db(tables: Tables, deliveries: seq<Delivery>, sessions: map<Sid, Session>)

  const Start: Db := Db(Empty, [], map[])

  predicate PcOk(s: Session) {
    match s.pc
    case OrderRead => s.req.CreateOrder?
    case OrderInsert => s.req.CreateOrder?
    case OrderCommit => s.req.CreateOrder?
    case InitiateLock => s.req.InitiateUpi?
    case InitiateDecide(_) => s.req.InitiateUpi?
    case InitiateCommit(_) => s.req.InitiateUpi?
    case Outbox(response) => s.req.BankCallback? && response.CallbackApplied?
    case Done(_) => true
    case Crashed => true
    case _ => s.req.BankCallback?
  }

  predicate IsFinished(s: Session) {
    s.pc.Done? || s.pc.Crashed?
  }

  /** The service call has its answer; at most the outbox row is still to be written. */
  predicate Responded(pc: Pc) {
    pc.Done? || pc.Outbox?
  }

  function Begin(req: Request): Pc {
    match req
    case CreateOrder(_, _, _, _, _) => OrderRead
    case InitiateUpi(_, _, _, _, _) => InitiateLock
    case BankCallback(_, _, _) => CallbackLock
  }

  function PayerOf(w: Work): string { w.txn.vpa }

  function PayeeOf(w: Work): string { SettlementAccount(w.intent.merchant) }

  function RowLocks(w: Work): set<Lock> {
    {TransactionLock(w.x), IntentLock(w.txn.intent)}
  }

  /** What a session holds until it commits or rolls back. */
  function Locks(s: Session): set<Lock>
    requires PcOk(s)
  {
    match s.pc
    case OrderCommit => {KeyLock(s.req.key)}
    case InitiateDecide(_) => {IntentLock(s.req.order)}
    case InitiateCommit(_) => {IntentLock(s.req.order)}
    case CallbackLockIntent(x, _) => {TransactionLock(x)}
    case Decide(w) => RowLocks(w)
    case CommitFailed(w) => RowLocks(w)
    case PayerInsert(w) => RowLocks(w)
    case PayerLock(w, inserted) => RowLocks(w) + if inserted then {AccountLock(PayerOf(w))} else {}
    case PayeeInsert(w, _) => RowLocks(w) + {AccountLock(PayerOf(w))}
    case PayeeLock(w, _, inserted) =>
      RowLocks(w) + {AccountLock(PayerOf(w))} + if inserted then {AccountLock(PayeeOf(w))} else {}
    case CommitPaid(w, _, _) => RowLocks(w) + {AccountLock(PayerOf(w)), AccountLock(PayeeOf(w))}
    case _ => {}
  }

  datatype Move = Wait(on: Lock) | Go(tables: Tables, deliveries: seq<Delivery>, pc: Pc) | Stopped

  ghost function OrderMove(t: Tables, d: seq<Delivery>, taken: set<Lock>, s: Session): Move
    requires PcOk(s) && (s.pc.OrderRead? || s.pc.OrderInsert? || s.pc.OrderCommit?)
  {
    var r := s.req;
    match s.pc
    case OrderRead =>
      (match Single(OrdersByKey(t, r.merchant, r.key))
       case NoRow => Go(t, d, OrderInsert)
       case OneRow(i) => Go(t, d, Done(Accepted(i, t.intents[i])))
       case ManyRows => Go(t, d, Done(ServerError)))
    case OrderInsert =>
      if KeyTaken(t, r.key) || r.newId in t.intents then Go(t, d, Done(OrderIdempotencyReuse))
      else if KeyLock(r.key) in taken then Wait(KeyLock(r.key))
      else Go(t, d, OrderCommit)
    case OrderCommit =>
      var intent := Intent(r.merchant, r.amount, r.currency, r.key, PaymentStatus.Created);
      Go(t.(intents := t.intents[r.newId := intent]), d, Done(Accepted(r.newId, intent)))
  }

  ghost function InitiateMove(t: Tables, d: seq<Delivery>, taken: set<Lock>, s: Session): Move
    requires PcOk(s) && (s.pc.InitiateLock? || s.pc.InitiateDecide? || s.pc.InitiateCommit?)
  {
    var r := s.req;
    match s.pc
    case InitiateLock =>
      if r.order !in t.intents || t.intents[r.order].merchant != r.merchant then Go(t, d, Done(OrderNotFound))
      else if IntentLock(r.order) in taken then Wait(IntentLock(r.order))
      else Go(t, d, InitiateDecide(t.intents[r.order]))
    case InitiateDecide(read) =>
      if read.status == PaymentStatus.Success || read.status == PaymentStatus.Failed
        then Go(t, d, Done(AlreadyFinalised))
      else (match Single(AttemptsFor(t, r.order, r.vpa))
            case ManyRows => Go(t, d, Done(ServerError))
            case OneRow(x) =>
              Go(t, d, Done(UpiInitiated(x, r.order, TransactionState.Pending, t.transactions[x].reference)))
            case NoRow =>
              if !IntentMayMove(read.status, PaymentStatus.Processing) then Go(t, d, Done(InvalidStateTransition))
              else Go(t, d, InitiateCommit(read)))
    case InitiateCommit(read) =>
      if r.newId in t.transactions then Go(t, d, Done(ServerError))
      else
        var txn := Transaction(r.order, r.vpa, TransactionState.Pending, r.newReference);
        Go(t.(intents := t.intents[r.order := read.(status := PaymentStatus.Processing)],
              transactions := t.transactions[r.newId := txn]),
           d, Done(UpiInitiated(r.newId, r.order, TransactionState.Pending, r.newReference)))
  }

  ghost function ReadMove(t: Tables, d: seq<Delivery>, taken: set<Lock>, s: Session): Move
    requires PcOk(s) && (s.pc.CallbackLock? || s.pc.CallbackLockIntent? || s.pc.Decide?)
  {
    match s.pc
    case CallbackLock =>
      (match Single(ByReference(t, s.req.reference))
       case NoRow => Go(t, d, Done(TransactionNotFound))
       case ManyRows => Go(t, d, Done(ServerError))
       case OneRow(x) =>
         if TransactionLock(x) in taken then Wait(TransactionLock(x))
         else Go(t, d, CallbackLockIntent(x, t.transactions[x])))
    case CallbackLockIntent(x, txn) =>
      if txn.intent !in t.intents then Go(t, d, Done(ServerError))
      else if IntentLock(txn.intent) in taken then Wait(IntentLock(txn.intent))
      else Go(t, d, Decide(Work(x, txn, t.intents[txn.intent])))
    case Decide(w) =>
      var target := Target(s.req.event);
      if w.intent.amount != s.req.amount then Go(t, d, Done(AmountMismatch))
      else if w.txn.state == target then Go(t, d, Done(CallbackReplayed(w.x, w.txn.state)))
      else if !TransactionMayMove(w.txn.state, target) || !IntentMayMove(w.intent.status, StatusFor(target))
        then Go(t, d, Done(InvalidStateTransition))
      else if s.req.event.PaymentSuccess? then Go(t, d, PayerInsert(w)) else Go(t, d, CommitFailed(w))
  }

  /** Insert-or-ignore, then lock: `inserted` tells whether the row is this session's own, uncommitted one. */
  function InsertMove(t: Tables, d: seq<Delivery>, taken: set<Lock>, identifier: string, next: bool -> Pc): Move {
    if |identifier| > IDENTIFIER_LIMIT then Go(t, d, Done(ServerError))
    else if identifier in t.accounts then Go(t, d, next(false))
    else if AccountLock(identifier) in taken then Wait(AccountLock(identifier))
    else Go(t, d, next(true))
  }

  /** The row as the locking session sees it. */
  function RowSeen(t: Tables, identifier: string, kind: AccountType, owner: Option<MerchantId>): Account {
    if identifier in t.accounts then t.accounts[identifier] else Account(kind, owner, 0)
  }

  function LockMove(t: Tables, d: seq<Delivery>, taken: set<Lock>, identifier: string, kind: AccountType,
                    owner: Option<MerchantId>, inserted: bool, next: Account -> Pc): Move
  {
    if !inserted && AccountLock(identifier) in taken then Wait(AccountLock(identifier))
    else if RowSeen(t, identifier, kind, owner).kind != kind then Go(t, d, Done(ServerError))
    else Go(t, d, next(RowSeen(t, identifier, kind, owner)))
  }

  function PostMove(t: Tables, d: seq<Delivery>, taken: set<Lock>, s: Session): Move
    requires PcOk(s) && (s.pc.PayerInsert? || s.pc.PayerLock? || s.pc.PayeeInsert? || s.pc.PayeeLock?)
  {
    match s.pc
    case PayerInsert(w) => InsertMove(t, d, taken, PayerOf(w), i => PayerLock(w, i))
    case PayerLock(w, i) => LockMove(t, d, taken, PayerOf(w), Virtual, None, i, row => PayeeInsert(w, row))
    case PayeeInsert(w, payer) => InsertMove(t, d, taken, PayeeOf(w), i => PayeeLock(w, payer, i))
    case PayeeLock(w, payer, i) =>
      LockMove(t, d, taken, PayeeOf(w), MerchantSettlement, Some(w.intent.merchant), i,
               row => CommitPaid(w, payer, row))
  }

  function Answer(s: Session, response: Response): Pc {
    if s.notify && response.CallbackApplied? then Outbox(response) else Done(response)
  }

  /** The two status rows as the commit overwrites them. */
  function WriteStatus(t: Tables, w: Work, event: Event): Tables {
    t.(transactions := t.transactions[w.x := w.txn.(state := Target(event))],
       intents := t.intents[w.txn.intent := w.intent.(status := StatusFor(Target(event)))])
  }

  /** The account rows, computed from the balances read under lock, and the two entries. */
  function WritePosting(t: Tables, w: Work, payer: Account, payee: Account, amount: int): Tables {
    t.(accounts := t.accounts[PayerOf(w) := payer.(balance := payer.balance + amount)]
                             [PayeeOf(w) := payee.(balance := payee.balance + amount)],
       entries := t.entries + [Entry(PayerOf(w), w.x, amount, Debit, INR), Entry(PayeeOf(w), w.x, amount, Credit, INR)])
  }

  /** The row of the outbox refers to its transaction, and waits while another session has that row locked. */
  function CommitMove(t: Tables, d: seq<Delivery>, taken: set<Lock>, s: Session): Move
    requires PcOk(s) && (s.pc.CommitFailed? || s.pc.CommitPaid? || s.pc.Outbox?)
  {
    match s.pc
    case CommitFailed(w) =>
      Go(WriteStatus(t, w, s.req.event), d, Answer(s, CallbackApplied(w.x, w.txn.intent, Target(s.req.event))))
    case CommitPaid(w, payer, payee) =>
      if payer.balance + s.req.amount >= MONEY_LIMIT || payee.balance + s.req.amount >= MONEY_LIMIT
        then Go(t, d, Done(ServerError))
      else Go(WritePosting(WriteStatus(t, w, s.req.event), w, payer, payee, s.req.amount), d,
              Answer(s, CallbackApplied(w.x, w.txn.intent, Target(s.req.event))))
    case Outbox(response) =>
      if TransactionLock(response.transaction) in taken then Wait(TransactionLock(response.transaction))
      else Go(t, d + [Delivery(response.transaction, response.state)], Done(response))
  }

  /** What a session does next, given the committed tables and the locks the others hold. */
  ghost function MoveOf(t: Tables, d: seq<Delivery>, taken: set<Lock>, s: Session): Move
    requires PcOk(s)
  {
    if s.pc.OrderRead? || s.pc.OrderInsert? || s.pc.OrderCommit? then OrderMove(t, d, taken, s)
    else if s.pc.InitiateLock? || s.pc.InitiateDecide? || s.pc.InitiateCommit? then InitiateMove(t, d, taken, s)
    else if s.pc.CallbackLock? || s.pc.CallbackLockIntent? || s.pc.Decide? then ReadMove(t, d, taken, s)
    else if s.pc.CommitFailed? || s.pc.CommitPaid? || s.pc.Outbox? then CommitMove(t, d, taken, s)
    else if IsFinished(s) then Stopped
    else PostMove(t, d, taken, s)
  }

  // ---- The system ------------------------------------------------------------

  datatype Action = Arrive(sid: Sid, req: Request, notify: bool) | Advance(sid: Sid) | Crash(sid: Sid)

  ghost predicate PcsOk(db: Db) {
    forall i :: i in db.sessions ==> PcOk(db.sessions[i])
  }

  function OtherLocks(db: Db, sid: Sid): set<Lock>
    requires forall i :: i in db.sessions ==> PcOk(db.sessions[i])
  {
    set i, l | i in db.sessions && i != sid && l in Locks(db.sessions[i]) :: l
  }

  ghost function NextMove(db: Db, sid: Sid): Move
    requires PcsOk(db) && sid in db.sessions
  {
    MoveOf(db.tables, db.deliveries, OtherLocks(db, sid), db.sessions[sid])
  }

  /** Two requests were handed the same identifier. */
  predicate Clash(a: Request, b: Request) {
    || (a.CreateOrder? && b.CreateOrder? && a.newId == b.newId)
    || (a.InitiateUpi? && b.InitiateUpi? && (a.newId == b.newId || a.newReference == b.newReference))
  }

  ghost predicate Enabled(db: Db, a: Action)
    requires PcsOk(db)
  {
    match a
    case Arrive(sid, req, _) =>
      && sid !in db.sessions && ValidRequest(req) && Fresh(db.tables, req)
      && forall i :: i in db.sessions ==> !Clash(req, db.sessions[i].req)
    case Advance(sid) => sid in db.sessions && NextMove(db, sid).Go?
    case Crash(sid) => sid in db.sessions && !IsFinished(db.sessions[sid])
  }

  /** A crash, an exception elsewhere or a lost connection rolls the session back and drops its locks. */
  ghost function Perform(db: Db, a: Action): Db
    requires PcsOk(db) && Enabled(db, a)
  {
    match a
    case Arrive(sid, req, notify) => db.(sessions := db.sessions[sid := Session(req, notify, Begin(req))])
    case Advance(sid) =>
      var move := NextMove(db, sid);
      Db(move.tables, move.deliveries, db.sessions[sid := db.sessions[sid].(pc := move.pc)])
    case Crash(sid) => db.(sessions := db.sessions[sid := db.sessions[sid].(pc := Crashed)])
  }
}

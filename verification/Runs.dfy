/** Whole runs of the system: every one is a sequence of atomic calls, one for each answer given. */
module Runs {
  import opened Sums
  import opened StateMachine
  import opened Tables
  import opened Services
  import opened Invariants
  import opened Guarantees
  import opened Sessions
  import opened Refinement
  import opened System

  ghost predicate IsStep(db: Db, a: Action, next: Db) {
    PcsOk(db) && Enabled(db, a) && next == Perform(db, a)
  }

  ghost predicate IsRun(dbs: seq<Db>, acts: seq<Action>) {
    && |dbs| == |acts| + 1
    && forall i :: 0 <= i < |acts| ==> IsStep(dbs[i], acts[i], dbs[i + 1])
  }

  function Last<T>(s: seq<T>): T
    requires s != []
  {
    s[|s| - 1]
  }

  function Front<T>(s: seq<T>): seq<T>
    requires s != []
  {
    s[..|s| - 1]
  }

  /** A session's request and the answer it got. */
  datatype Call = Call(sid: Sid, req: Request, response: Response)

  /** The action makes a session answer. */
  ghost predicate Answers(db: Db, a: Action, next: Db) {
    && a.Advance? && a.sid in db.sessions && a.sid in next.sessions
    && !Responded(db.sessions[a.sid].pc) && Responded(next.sessions[a.sid].pc)
  }

  /** The call that the action answers, if any. */
  ghost function NewCalls(db: Db, a: Action, next: Db): seq<Call> {
    if Answers(db, a, next) then [Call(a.sid, next.sessions[a.sid].req, next.sessions[a.sid].pc.response)] else []
  }

  /** The answers of a run, in the order they were given. */
  ghost function History(dbs: seq<Db>, acts: seq<Action>): seq<Call>
    requires |dbs| == |acts| + 1
  {
    if acts == [] then []
    else History(Front(dbs), Front(acts)) + NewCalls(dbs[|acts| - 1], Last(acts), dbs[|acts|])
  }

  /** The calls, run one after the other, lead from `t` to `u` with these very answers. */
  ghost predicate Sequential(t: Tables, calls: seq<Call>, u: Tables) {
    if calls == [] then u == t
    else exists mid :: Sequential(t, Front(calls), mid) && Atomic(mid, Last(calls).req, u, Last(calls).response)
  }

  /** One answer per session, and exactly the answers the sessions carry. */
  ghost predicate HistoryMatches(db: Db, calls: seq<Call>) {
    && (forall i, j :: 0 <= i < j < |calls| ==> calls[i].sid != calls[j].sid)
    && (forall i :: 0 <= i < |calls| ==>
          && calls[i].sid in db.sessions && db.sessions[calls[i].sid].req == calls[i].req
          && !Live(db.sessions[calls[i].sid]))
    && (forall s :: s in db.sessions && Responded(db.sessions[s].pc) ==>
          Call(s, db.sessions[s].req, db.sessions[s].pc.response) in calls)
  }

  lemma StartOk()
    ensures DbInv(Start)
  {
    EmptyInv();
  }

  /** A step is one atomic call when it answers, and leaves the tables alone when it does not. */
  lemma StepRefines(db: Db, a: Action)
    requires DbInv(db) && Enabled(db, a)
    ensures var next := Perform(db, a);
      if Answers(db, a, next)
      then Atomic(db.tables, next.sessions[a.sid].req, next.tables, next.sessions[a.sid].pc.response)
      else next.tables == db.tables
  {
    hide Inv, Extends, SessionsOk, NoClashes, LocksDisjoint, ResponsesHold, MoveOf, SnapshotOk, WritesOnly, Step;
    if a.Advance? { AdvanceFacts(db, a.sid); }
  }

  lemma HistoryExtends(db: Db, a: Action, calls: seq<Call>)
    requires DbInv(db) && Enabled(db, a) && HistoryMatches(db, calls)
    ensures var next := Perform(db, a); HistoryMatches(next, calls + NewCalls(db, a, next))
  {
    hide Inv, Extends, SessionsOk, NoClashes, LocksDisjoint, ResponsesHold, MoveOf, SnapshotOk, WritesOnly, Step;
    hide Atomic;
    if a.Advance? { AdvanceFacts(db, a.sid); }
  }

  /** From any reachable state, a run leads where its answered calls lead when run one by one. */
  lemma {:induction false} RunIsSequential(dbs: seq<Db>, acts: seq<Action>)
    requires IsRun(dbs, acts) && DbInv(dbs[0])
    ensures DbInv(Last(dbs)) && Sequential(dbs[0].tables, History(dbs, acts), Last(dbs).tables)
    decreases |acts|
  {
    hide DbInv, Atomic, PcsOk, Enabled, Perform, Answers;
    if acts != [] {
      var db, a := dbs[|acts| - 1], Last(acts);
      assert IsStep(db, a, dbs[|acts|]);
      PrefixIsRun(dbs, acts);
      RunIsSequential(Front(dbs), Front(acts));
      StepRefines(db, a);
      PerformKeepsInv(db, a);
      SequentialExtends(dbs[0].tables, db, a, dbs[|acts|], History(Front(dbs), Front(acts)));
    }
  }

  /** Linearizability: whatever the interleaving, the tables are those of the answered calls run one by one, and these
      are the answers the sessions hold, one each. */
  lemma {:induction false} Linearizable(dbs: seq<Db>, acts: seq<Action>)
    requires IsRun(dbs, acts) && dbs[0] == Start
    ensures DbInv(Last(dbs))
    ensures Sequential(Empty, History(dbs, acts), Last(dbs).tables)
    ensures HistoryMatches(Last(dbs), History(dbs, acts))
    decreases |acts|
  {
    hide DbInv, Sequential, PcsOk, Enabled, Perform, HistoryMatches, Answers;
    StartOk();
    RunIsSequential(dbs, acts);
    if acts == [] {
      StartMatches();
    } else {
      assert IsStep(dbs[|acts| - 1], Last(acts), dbs[|acts|]);
      PrefixIsRun(dbs, acts);
      Linearizable(Front(dbs), Front(acts));
      HistoryExtends(dbs[|acts| - 1], Last(acts), History(Front(dbs), Front(acts)));
    }
  }

  lemma StartMatches()
    ensures HistoryMatches(Start, [])
  { }

  lemma PrefixIsRun(dbs: seq<Db>, acts: seq<Action>)
    requires IsRun(dbs, acts) && acts != []
    ensures IsRun(Front(dbs), Front(acts)) && Last(Front(dbs)) == dbs[|acts| - 1] && Front(dbs)[0] == dbs[0]
  { }

  lemma SequentialExtends(t: Tables, db: Db, a: Action, next: Db, calls: seq<Call>)
    requires Sequential(t, calls, db.tables)
    requires if Answers(db, a, next)
             then Atomic(db.tables, next.sessions[a.sid].req, next.tables, next.sessions[a.sid].pc.response)
             else next.tables == db.tables
    ensures Sequential(t, calls + NewCalls(db, a, next), next.tables)
  {
    hide Atomic;
    if Answers(db, a, next) {
      var more := calls + NewCalls(db, a, next);
      assert Front(more) == calls;
      assert Sequential(t, Front(more), db.tables);
    } else {
      assert calls + [] == calls;
    }
  }

  /** From one moment of a run to any later one, the invariant holds and the tables are only extended. */
  lemma {:induction false} RunExtends(dbs: seq<Db>, acts: seq<Action>)
    requires IsRun(dbs, acts) && DbInv(dbs[0])
    ensures DbInv(Last(dbs)) && Extends(dbs[0].tables, Last(dbs).tables)
    decreases |acts|
  {
    hide DbInv, Extends, PcsOk, Enabled, Perform;
    ExtendsSelf(dbs[0].tables);
    if acts != [] {
      var db, a := dbs[|acts| - 1], Last(acts);
      assert IsStep(db, a, dbs[|acts|]);
      PrefixIsRun(dbs, acts);
      RunExtends(Front(dbs), Front(acts));
      PerformKeepsInv(db, a);
      ExtendsTransitive(dbs[0].tables, db.tables, dbs[|acts|].tables);
    }
  }

  /** At every moment of every run the tables satisfy the invariant and extend those of every earlier moment. */
  lemma {:induction false} EveryMoment(dbs: seq<Db>, acts: seq<Action>, i: nat, j: nat)
    requires IsRun(dbs, acts) && dbs[0] == Start && i <= j < |dbs|
    ensures DbInv(dbs[j]) && Extends(dbs[i].tables, dbs[j].tables)
    decreases j
  {
    hide DbInv, Extends, PcsOk, Enabled, Perform;
    ExtendsSelf(dbs[j].tables);
    if j == 0 {
      StartOk();
    } else {
      EveryMoment(dbs, acts, if i < j then i else j - 1, j - 1);
      assert IsStep(dbs[j - 1], acts[j - 1], dbs[j]);
      PerformKeepsInv(dbs[j - 1], acts[j - 1]);
      if i < j { ExtendsTransitive(dbs[i].tables, dbs[j - 1].tables, dbs[j].tables); }
    }
  }

  /** Every session is one that arrived, with the request and the merchant it arrived with. */
  lemma {:induction false} SessionsArrived(dbs: seq<Db>, acts: seq<Action>, sid: Sid) returns (i: nat)
    requires IsRun(dbs, acts) && dbs[0] == Start && sid in Last(dbs).sessions
    ensures i < |acts| && acts[i] == Arrive(sid, Last(dbs).sessions[sid].req, Last(dbs).sessions[sid].notify)
    decreases |acts|
  {
    hide PcsOk, NextMove;
    var n := |acts| - 1;
    assert IsStep(dbs[n], Last(acts), dbs[n + 1]);
    if sid in dbs[n].sessions {
      PrefixIsRun(dbs, acts);
      i := SessionsArrived(Front(dbs), Front(acts), sid);
    } else {
      i := n;
    }
  }

  // ---- What clients see ------------------------------------------------------

  ghost predicate Accepts(s: Session) {
    Responded(s.pc) && s.pc.response.OrderAccepted?
  }

  /** However many retries race, all that succeed with one key report one order, with its amount and currency, and they
      all come from one merchant. */
  lemma AcceptedOrdersAgree(db: Db, i: Sid, j: Sid)
    requires DbInv(db) && i in db.sessions && j in db.sessions
    requires Accepts(db.sessions[i]) && Accepts(db.sessions[j])
    requires db.sessions[i].pc.response.key == db.sessions[j].pc.response.key
    ensures var a, b := db.sessions[i].pc.response, db.sessions[j].pc.response;
      a.order == b.order && a.amount == b.amount && a.currency == b.currency
    ensures db.sessions[i].req.CreateOrder? && db.sessions[j].req.CreateOrder?
      && db.sessions[i].req.merchant == db.sessions[j].req.merchant
  {
    hide LedgerOk, SessionsOk, NoClashes, LocksDisjoint;
    var t := db.tables;
    assert ResponseHolds(t, db.sessions[i].req, db.sessions[i].pc.response);
    assert ResponseHolds(t, db.sessions[j].req, db.sessions[j].pc.response);
    assert KeysUnique(t);
  }

  /** All payers that were ever answered for one order hold the same transaction and reference. */
  lemma InitiationsAgree(db: Db, i: Sid, j: Sid)
    requires DbInv(db) && i in db.sessions && j in db.sessions
    requires Responded(db.sessions[i].pc) && Responded(db.sessions[j].pc)
    requires db.sessions[i].pc.response.UpiInitiated? && db.sessions[j].pc.response.UpiInitiated?
    requires db.sessions[i].pc.response.order == db.sessions[j].pc.response.order
    ensures db.sessions[i].pc.response.transaction == db.sessions[j].pc.response.transaction
    ensures db.sessions[i].pc.response.reference == db.sessions[j].pc.response.reference
  {
    hide LedgerOk, SessionsOk, NoClashes, LocksDisjoint;
    var t := db.tables;
    assert ResponseHolds(t, db.sessions[i].req, db.sessions[i].pc.response);
    assert ResponseHolds(t, db.sessions[j].req, db.sessions[j].pc.response);
    assert OneAttempt(t);
  }

  /** An order is refused at its insert exactly when its key is taken by then. */
  lemma InsertIsRefused(db: Db, sid: Sid)
    requires DbInv(db) && sid in db.sessions && db.sessions[sid].pc.OrderInsert?
    ensures NextMove(db, sid) == Go(db.tables, db.deliveries, Done(OrderIdempotencyReuse))
       <==> KeyTaken(db.tables, db.sessions[sid].req.key)
  {
    hide LedgerOk, NoClashes, LocksDisjoint, ResponsesHold;
    assert Fresh(db.tables, db.sessions[sid].req);
  }

  /** The action commits the order that takes the key. */
  ghost predicate TakesKey(db: Db, next: Db, key: string) {
    !KeyTaken(db.tables, key) && KeyTaken(next.tables, key)
  }

  lemma {:induction false} KeyTakenSince(dbs: seq<Db>, acts: seq<Action>, key: string)
    requires IsRun(dbs, acts) && DbInv(dbs[0])
    ensures KeyTaken(Last(dbs).tables, key)
       <==> KeyTaken(dbs[0].tables, key) || exists i :: 0 <= i < |acts| && TakesKey(dbs[i], dbs[i + 1], key)
    decreases |acts|
  {
    hide DbInv, PcsOk, Enabled, Perform;
    if acts != [] {
      var n := |acts| - 1;
      assert IsStep(dbs[n], Last(acts), dbs[n + 1]);
      PrefixIsRun(dbs, acts);
      KeyTakenSince(Front(dbs), Front(acts), key);
      RunExtends(Front(dbs), Front(acts));
      PerformKeepsInv(dbs[n], Last(acts));
      KeyStaysTaken(dbs[n].tables, dbs[n + 1].tables, key);
      forall i | 0 <= i < n
        ensures TakesKey(dbs[i], dbs[i + 1], key) <==> TakesKey(Front(dbs)[i], Front(dbs)[i + 1], key)
      { }
      assert KeyTaken(dbs[n + 1].tables, key) && !KeyTaken(dbs[n].tables, key) ==> TakesKey(dbs[n], dbs[n + 1], key);
    }
  }

  lemma KeyStaysTaken(t: Tables, u: Tables, key: string)
    requires Extends(t, u)
    ensures KeyTaken(t, key) ==> KeyTaken(u, key)
  {
    if i :| i in t.intents && t.intents[i].key == key { assert IntentExtends(t.intents[i], u.intents[i]); }
  }

  lemma {:induction false} RequestStays(dbs: seq<Db>, acts: seq<Action>, sid: Sid)
    requires IsRun(dbs, acts) && sid in dbs[0].sessions
    ensures sid in Last(dbs).sessions && Last(dbs).sessions[sid].req == dbs[0].sessions[sid].req
    decreases |acts|
  {
    hide PcsOk, NextMove;
    if acts != [] {
      assert IsStep(dbs[|acts| - 1], Last(acts), dbs[|acts|]);
      PrefixIsRun(dbs, acts);
      RequestStays(Front(dbs), Front(acts), sid);
    }
  }

  /** An order whose look-up, the first action of this run, found nothing is refused at its insert exactly when another
      merchant held its key already at the look-up, or the key was committed between look-up and insert - be it by an
      identical request of the same merchant. */
  lemma RacingRetryIsRefused(dbs: seq<Db>, acts: seq<Action>, sid: Sid)
    requires IsRun(dbs, acts) && DbInv(dbs[0]) && acts != [] && acts[0] == Advance(sid)
    requires sid in dbs[0].sessions && dbs[0].sessions[sid].pc.OrderRead?
    requires sid in dbs[1].sessions && dbs[1].sessions[sid].pc.OrderInsert?
    requires sid in Last(dbs).sessions && Last(dbs).sessions[sid].pc.OrderInsert? && PcsOk(Last(dbs))
    ensures var db, r := Last(dbs), dbs[0].sessions[sid].req;
      NextMove(db, sid) == Go(db.tables, db.deliveries, Done(OrderIdempotencyReuse))
      <==> HeldByAnother(dbs[0].tables, r.merchant, r.key)
           || exists i :: 0 < i < |acts| && TakesKey(dbs[i], dbs[i + 1], r.key)
  {
    hide DbInv, NextMove, Enabled, Perform;
    var r := dbs[0].sessions[sid].req;
    RequestStays(dbs, acts, sid);
    RunExtends(dbs, acts);
    InsertIsRefused(Last(dbs), sid);
    KeyTakenSince(dbs, acts, r.key);
    LookupFoundNothing(dbs[0], acts[0], dbs[1]);
  }

  lemma LookupFoundNothing(db: Db, a: Action, next: Db)
    requires DbInv(db) && IsStep(db, a, next) && a.Advance? && db.sessions[a.sid].pc.OrderRead?
    requires next.sessions[a.sid].pc.OrderInsert?
    ensures next.tables == db.tables
    ensures var r := db.sessions[a.sid].req; KeyTaken(db.tables, r.key) <==> HeldByAnother(db.tables, r.merchant, r.key)
  {
    hide Inv, SessionsOk, NoClashes, LocksDisjoint, ResponsesHold;
    var r := db.sessions[a.sid].req;
    assert OrdersByKey(db.tables, r.merchant, r.key) == {};
    forall i | i in db.tables.intents && db.tables.intents[i].key == r.key
      ensures db.tables.intents[i].merchant != r.merchant
    {
      assert i !in OrdersByKey(db.tables, r.merchant, r.key);
    }
  }

  function Retry(merchant: MerchantId, newId: Id): Request {
    CreateOrder(merchant, "key-0001", 100, INR, newId)
  }

  function Racer(merchant: MerchantId, newId: Id, pc: Pc): Session {
    Session(Retry(merchant, newId), false, pc)
  }

  function Race(t: Tables, m: MerchantId, a: Pc, b: Pc): Db {
    Db(t, [], map[1 := Racer(m, 1, a), 2 := Racer(m, 2, b)])
  }

  lemma RaceArrives(m: MerchantId)
    ensures var one := Db(Empty, [], map[1 := Racer(m, 1, OrderRead)]);
      && IsStep(Start, Arrive(1, Retry(m, 1), false), one)
      && IsStep(one, Arrive(2, Retry(m, 2), false), Race(Empty, m, OrderRead, OrderRead))
  { }

  lemma RaceReads(m: MerchantId)
    ensures IsStep(Race(Empty, m, OrderRead, OrderRead), Advance(1), Race(Empty, m, OrderInsert, OrderRead))
    ensures IsStep(Race(Empty, m, OrderInsert, OrderRead), Advance(2), Race(Empty, m, OrderInsert, OrderInsert))
  {
    assert OrdersByKey(Empty, m, "key-0001") == {};
  }

  lemma RaceInserts(m: MerchantId)
    ensures IsStep(Race(Empty, m, OrderInsert, OrderInsert), Advance(1), Race(Empty, m, OrderCommit, OrderInsert))
  {
    assert OtherLocks(Race(Empty, m, OrderInsert, OrderInsert), 1) == {};
  }

  function Committed(m: MerchantId): Tables {
    Empty.(intents := map[1 := Intent(m, 100, INR, "key-0001", PaymentStatus.Created)])
  }

  lemma RaceCommits(m: MerchantId) returns (answer: Response)
    ensures answer.OrderAccepted?
    ensures IsStep(Race(Empty, m, OrderCommit, OrderInsert), Advance(1),
                   Race(Committed(m), m, Done(answer), OrderInsert))
  {
    answer := Accepted(1, Committed(m).intents[1]);
  }

  lemma RaceLoses(m: MerchantId, answer: Response)
    ensures IsStep(Race(Committed(m), m, Done(answer), OrderInsert), Advance(2),
                   Race(Committed(m), m, Done(answer), Done(OrderIdempotencyReuse)))
  {
    assert Committed(m).intents[1].key == "key-0001";
  }

  /** Two identical requests that race: one is accepted, the other is told its key belongs to a different payload. */
  lemma IdenticalRequestsMayConflict(m: MerchantId) returns (dbs: seq<Db>, acts: seq<Action>)
    ensures IsRun(dbs, acts) && dbs[0] == Start
    ensures var db := Last(dbs);
      && 1 in db.sessions && 2 in db.sessions && Accepts(db.sessions[1])
      && db.sessions[1].req == Retry(m, 1) && db.sessions[2].req == Retry(m, 2)
      && db.sessions[2].pc == Done(OrderIdempotencyReuse)
  {
    hide IsStep;
    RaceArrives(m);
    RaceReads(m);
    RaceInserts(m);
    var answer := RaceCommits(m);
    RaceLoses(m, answer);
    dbs := [Start, Db(Empty, [], map[1 := Racer(m, 1, OrderRead)]), Race(Empty, m, OrderRead, OrderRead),
            Race(Empty, m, OrderInsert, OrderRead), Race(Empty, m, OrderInsert, OrderInsert),
            Race(Empty, m, OrderCommit, OrderInsert), Race(Committed(m), m, Done(answer), OrderInsert),
            Race(Committed(m), m, Done(answer), Done(OrderIdempotencyReuse))];
    acts := [Arrive(1, Retry(m, 1), false), Arrive(2, Retry(m, 2), false),
             Advance(1), Advance(2), Advance(1), Advance(1), Advance(2)];
  }
}

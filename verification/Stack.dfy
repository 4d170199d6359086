/** The middlewares around the endpoints, as app/main.py stacks them: a request passes the idempotency middleware, then
    the limiter, then its endpoint. Service calls are atomic here; `Runs.Linearizable` is the reason they may be. */
module Stack {
  import opened Sums
  import opened Tables
  import opened Services
  import opened Guarantees
  import opened Outcomes
  import opened Refinement
  import opened Idempotency
  import Invariants
  import RateLimit
  import System

  const TOO_MANY_REQUESTS: int := 429

  /** The status with which an endpoint reports each answer of its service. */
  function Code(response: Response): int
    requires !Uncaught(response)
  {
    match response
    case OrderAccepted(_, _, _, _, _) => 201
    case UpiInitiated(_, _, _, _) => 201
    case CallbackApplied(_, _, _) => 200
    case CallbackReplayed(_, _) => 200
    case OrderIdempotencyReuse => 409
    case AlreadyFinalised => 409
    case OrderNotFound => 404
    case TransactionNotFound => 422
    case AmountMismatch => 422
  }

  /** What became of a request that was let through to its handler. */
  datatype Pass =
    | Limited(rid: Rid, key: string)
    | Called(rid: Rid, key: string, req: Request, response: Response)

  /** What the idempotency middleware sees of it. */
  function Ending(pass: Pass, body: string): HandlerOutcome {
    if pass.Limited? then Returns(Reply(TOO_MANY_REQUESTS, body))
    else if Uncaught(pass.response) then HandlerOutcome.Raises
    else Returns(Reply(Code(pass.response), body))
  }

  /** The status of every admitted request, by the tables alone. */
  lemma StatusTells(t: Tables, rid: Rid, key: string, req: Request, body: string)
    requires Invariants.Inv(t) && Fresh(t, req)
    ensures var ending := Ending(Called(rid, key, req, Step(t, req).response), body);
      if Hopeless(t, req) then ending == HandlerOutcome.Raises
      else ending == Returns(Reply(
        match req
        case CreateOrder(m, k, _, _, _) => if HeldByAnother(t, m, k) then 409 else 201
        case InitiateUpi(m, order, _, _, _) =>
          if !Owned(t, m, order) then 404 else if IsFinal(t.intents[order].status) then 409 else 201
        case BankCallback(_, reference, amount) =>
          if exists x :: Bills(t, x, reference, amount) then 200 else 422,
        body))
  {
    hide Invariants.Inv, Step, Hopeless;
    RaisesExactlyWhen(t, req);
    match req
    case CreateOrder(m, k, amount, currency, newId) => OrderStatus(t, m, k, amount, currency, newId);
    case InitiateUpi(m, order, vpa, newId, newReference) => InitiationStatus(t, m, order, vpa, newId, newReference);
    case BankCallback(event, reference, amount) => CallbackStatus(t, event, reference, amount);
  }

  lemma OrderStatus(t: Tables, m: MerchantId, key: string, amount: int, currency: string, newId: Id)
    requires Invariants.Inv(t) && newId !in t.intents
    ensures var r := Step(t, CreateOrder(m, key, amount, currency, newId)).response;
      !Uncaught(r) && Code(r) == if HeldByAnother(t, m, key) then 409 else 201
  {
    hide Invariants.Inv, OrderStep;
    OrderAnswers(t, m, key, amount, currency, newId);
    if IsFree(t, key) { assert !HeldByAnother(t, m, key); }
    else if i :| Holds(t, i, m, key) { OneHolder(t, i, m, key); }
  }

  lemma OneHolder(t: Tables, i: Id, m: MerchantId, key: string)
    requires Invariants.Inv(t) && Holds(t, i, m, key)
    ensures !HeldByAnother(t, m, key)
  { }

  lemma InitiationStatus(t: Tables, m: MerchantId, order: Id, vpa: string, newId: Id, newReference: Id)
    requires Invariants.Inv(t) && newId !in t.transactions
    ensures var r := Step(t, InitiateUpi(m, order, vpa, newId, newReference)).response;
      !Uncaught(r) ==>
        Code(r) == if !Owned(t, m, order) then 404 else if IsFinal(t.intents[order].status) then 409 else 201
  {
    hide Invariants.Inv, InitiateStep;
    InitiationAnswers(t, m, order, vpa, newId, newReference);
    InitiationKinds(t, m, order, vpa, newId, newReference);
  }

  lemma InitiationKinds(t: Tables, m: MerchantId, order: Id, vpa: string, newId: Id, newReference: Id)
    ensures var r := InitiateStep(t, m, order, vpa, newId, newReference).response;
      Uncaught(r) || r.UpiInitiated? || r == OrderNotFound || r == AlreadyFinalised
  { }

  lemma CallbackStatus(t: Tables, event: Event, reference: Id, amount: int)
    requires Invariants.Inv(t)
    ensures var r := Step(t, BankCallback(event, reference, amount)).response;
      !Uncaught(r) ==> Code(r) == if exists x :: Bills(t, x, reference, amount) then 200 else 422
  {
    hide Invariants.Inv, CallbackStep;
    CallbackAnswers(t, event, reference, amount);
    CallbackKinds(t, event, reference, amount);
    var r := CallbackStep(t, event, reference, amount).response;
    if r.CallbackReplayed? { assert Bills(t, r.transaction, reference, amount); }
    else if r.CallbackApplied? { assert Bills(t, r.transaction, reference, amount); }
    else if x :| Bills(t, x, reference, amount) {
      assert Refers(t, x, reference);
      if r == AmountMismatch {
        var y :| Refers(t, y, reference) && IntentOf(t, y).amount != amount;
        OneReferred(t, x, y, reference);
      }
    }
  }

  lemma OneReferred(t: Tables, x: Id, y: Id, reference: Id)
    requires Invariants.Inv(t) && Refers(t, x, reference) && Refers(t, y, reference)
    ensures x == y
  { }

  lemma CallbackKinds(t: Tables, event: Event, reference: Id, amount: int)
    ensures var r := CallbackStep(t, event, reference, amount).response;
      Uncaught(r) || r.CallbackReplayed? || r.CallbackApplied? || r == AmountMismatch || r == TransactionNotFound
  { }

  /** `passes` records every request that reached its handler under a key. */
  datatype World = World(gate: State, tables: Tables, hits: seq<RateLimit.Hit>, passes: seq<Pass>)

  const Nothing: World := World(Idempotency.Start, Empty, [], [])

  /** `Keyed` runs the handler of a request under its key, `Plain` that of a request without one; `tables` and
      `response` are what the service makes of it, `body` is the text of the reply. */
  datatype Move =
    | Gate(step: Action)
    | Keyed(rid: Rid, hit: RateLimit.Hit, req: Request, tables: Tables, response: Response, body: string)
    | Plain(hit: RateLimit.Hit, req: Request, tables: Tables, response: Response)

  predicate Admits(w: World, hit: RateLimit.Hit) {
    RateLimit.AdmittedAt(w.hits + [hit], |w.hits|)
  }

  ghost predicate Handles(w: World, m: Move)
    requires !m.Gate?
  {
    && ValidRequest(m.req) && Fresh(w.tables, m.req)
    && if Admits(w, m.hit) then Atomic(w.tables, m.req, m.tables, m.response) else m.tables == w.tables
  }

  ghost predicate CanMove(w: World, m: Move) {
    match m
    case Gate(step) => !step.Return? && Enabled(w.gate, step)
    case Keyed(rid, _, _, _, _, _) => rid in w.gate.calls && w.gate.calls[rid].pc.Handle? && Handles(w, m)
    case Plain(_, _, _, _) => Handles(w, m)
  }

  function PassOf(w: World, m: Move): Pass
    requires m.Keyed? && m.rid in w.gate.calls
  {
    var key := w.gate.calls[m.rid].key;
    if Admits(w, m.hit) then Called(m.rid, key, m.req, m.response) else Limited(m.rid, key)
  }

  /** The handler of a request ends. */
  function End(rid: Rid, outcome: HandlerOutcome): Action {
    match outcome
    case Raises => Die(rid)
    case Returns(reply) => Return(rid, reply)
  }

  ghost function After(w: World, m: Move): World
    requires CanMove(w, m)
  {
    match m
    case Gate(step) => w.(gate := Perform(w.gate, step))
    case Plain(hit, _, tables, _) => w.(tables := tables, hits := w.hits + [hit])
    case Keyed(rid, hit, _, tables, _, body) =>
      World(Perform(w.gate, End(rid, Ending(PassOf(w, m), body))), tables, w.hits + [hit], w.passes + [PassOf(w, m)])
  }

  // ---- The invariant ---------------------------------------------------------

  /** No endpoint returns a status outside 200..499. */
  lemma EveryReplyIsCacheable(pass: Pass, body: string)
    ensures Ending(pass, body).Returns? ==> 200 <= Ending(pass, body).reply.code < 500
  { }

  ghost predicate OnlyCacheable(s: State) {
    forall r :: r in s.calls && s.calls[r].pc.Conclude? ==> 200 <= s.calls[r].pc.reply.code < 500
  }

  /** Once a request has passed under a key, the key stays taken and nobody else gets to the handler. */
  ghost predicate Spent(s: State, pass: Pass) {
    pass.key in s.store && forall r | Owns(s, r, pass.key) :: s.calls[r].pc.Conclude?
  }

  predicate Explains(pass: Pass, e: Completion) {
    pass.rid == e.rid && pass.key == e.key && Ending(pass, e.reply.body) == Returns(e.reply)
  }

  ghost predicate PassesOk(w: World) {
    && (forall p :: p in w.passes ==> Spent(w.gate, p))
    && (forall i, j :: 0 <= i < j < |w.passes| ==> w.passes[i].key != w.passes[j].key)
    && (forall e :: e in w.gate.completions ==> exists p :: p in w.passes && Explains(p, e))
  }

  ghost predicate WorldInv(w: World) {
    Idempotency.Inv(w.gate) && Invariants.Inv(w.tables) && OnlyCacheable(w.gate) && PassesOk(w)
  }

  lemma NothingOk()
    ensures WorldInv(Nothing)
  {
    StartInv();
    Invariants.EmptyInv();
  }

  /** No step frees a key. */
  lemma StaysTaken(s: State, a: Action, key: string)
    requires Idempotency.Inv(s) && OnlyCacheable(s) && Enabled(s, a) && key in s.store
    ensures key in Perform(s, a).store
  {
    FreedExactlyWhen(s, a, key);
  }

  lemma StaysSpent(s: State, a: Action, pass: Pass)
    requires Idempotency.Inv(s) && OnlyCacheable(s) && Enabled(s, a) && Spent(s, pass)
    ensures Spent(Perform(s, a), pass)
  {
    hide Idempotency.Inv, OnlyCacheable;
    StaysTaken(s, a, pass.key);
    forall r | Owns(Perform(s, a), r, pass.key) ensures Perform(s, a).calls[r].pc.Conclude? {
      if r != a.rid { OthersUnmoved(s, a, r, pass.key); }
    }
  }

  lemma GateKeepsInv(w: World, m: Move)
    requires WorldInv(w) && CanMove(w, m) && m.Gate?
    ensures WorldInv(After(w, m))
  {
    hide Idempotency.Inv, Invariants.Inv, Spent;
    Idempotency.PerformKeepsInv(w.gate, m.step);
    forall p | p in w.passes ensures Spent(Perform(w.gate, m.step), p) { StaysSpent(w.gate, m.step, p); }
  }

  /** The handler of the owner is about to end, so no request passed under its key yet. */
  lemma FirstPass(w: World, m: Move)
    requires WorldInv(w) && CanMove(w, m) && m.Keyed?
    ensures forall p :: p in w.passes ==> p.key != PassOf(w, m).key
    ensures var a := End(m.rid, Ending(PassOf(w, m), m.body));
      Enabled(w.gate, a) && Spent(Perform(w.gate, a), PassOf(w, m))
  {
    hide Invariants.Inv, Handles, OnlyCacheable, Provenance, Closed, AtMostOneGood, CacheExplained, OwnersExplained;
    var key, a := PassOf(w, m).key, End(m.rid, Ending(PassOf(w, m), m.body));
    assert Owns(w.gate, m.rid, key);
    forall r | Owns(Perform(w.gate, a), r, key) ensures Perform(w.gate, a).calls[r].pc.Conclude? {
      if r != m.rid { OthersUnmoved(w.gate, a, r, key); }
    }
  }

  lemma KeyedKeepsInv(w: World, m: Move)
    requires WorldInv(w) && CanMove(w, m) && m.Keyed? && Invariants.Inv(m.tables)
    ensures WorldInv(After(w, m))
  {
    hide Idempotency.Inv, Invariants.Inv, Spent, Handles;
    var pass := PassOf(w, m);
    var a, u := End(m.rid, Ending(pass, m.body)), After(w, m);
    FirstPass(w, m);
    EveryReplyIsCacheable(pass, m.body);
    Idempotency.PerformKeepsInv(w.gate, a);
    forall p | p in w.passes ensures Spent(u.gate, p) { StaysSpent(w.gate, a, p); }
    forall e | e in u.gate.completions ensures exists p :: p in u.passes && Explains(p, e) {
      if e in w.gate.completions {
        var p :| p in w.passes && Explains(p, e);
        assert p in u.passes;
      } else {
        assert pass in u.passes && Explains(pass, e);
      }
    }
  }

  lemma TablesStayOk(w: World, m: Move)
    requires WorldInv(w) && CanMove(w, m) && !m.Gate?
    ensures Invariants.Inv(m.tables)
  {
    hide Invariants.Inv, Idempotency.Inv, OnlyCacheable, PassesOk, Atomic;
    if Admits(w, m.hit) { System.AtomicFacts(w.tables, m.req, m.tables, m.response); }
  }

  /** Every move of the whole stack keeps its invariant. */
  lemma AfterKeepsInv(w: World, m: Move)
    requires WorldInv(w) && CanMove(w, m)
    ensures WorldInv(After(w, m))
  {
    if m.Gate? {
      GateKeepsInv(w, m);
    } else {
      TablesStayOk(w, m);
      if m.Keyed? { KeyedKeepsInv(w, m); }
    }
  }

  /** Every request that is handled counts against its client, with or without a key; those admitted are one atomic
      service call each, and nothing else touches the tables. */
  lemma MoveRefines(w: World, m: Move)
    requires CanMove(w, m)
    ensures var u := After(w, m);
      if m.Gate? then u.tables == w.tables && u.hits == w.hits
      else && u.hits == w.hits + [m.hit]
           && if Admits(w, m.hit) then Atomic(w.tables, m.req, u.tables, m.response) else u.tables == w.tables
  {
    hide Atomic, Admits;
  }

  // ---- Whole runs ------------------------------------------------------------

  ghost predicate IsMove(w: World, m: Move, u: World) {
    CanMove(w, m) && u == After(w, m)
  }

  ghost predicate IsHistory(ws: seq<World>, ms: seq<Move>) {
    |ws| == |ms| + 1 && ws[0] == Nothing && forall i :: 0 <= i < |ms| ==> IsMove(ws[i], ms[i], ws[i + 1])
  }

  lemma {:induction false} AlwaysOk(ws: seq<World>, ms: seq<Move>, i: nat)
    requires IsHistory(ws, ms) && i < |ws|
    ensures WorldInv(ws[i])
  {
    hide WorldInv, CanMove, After;
    if i == 0 {
      NothingOk();
    } else {
      AlwaysOk(ws, ms, i - 1);
      assert IsMove(ws[i - 1], ms[i - 1], ws[i]);
      AfterKeepsInv(ws[i - 1], ms[i - 1]);
    }
  }

  lemma {:induction false} PassesGrow(ws: seq<World>, ms: seq<Move>, i: nat, j: nat)
    requires IsHistory(ws, ms) && i <= j < |ws|
    ensures ws[i].passes <= ws[j].passes
    decreases j
  {
    hide CanMove;
    if i < j {
      PassesGrow(ws, ms, i, j - 1);
      assert IsMove(ws[j - 1], ms[j - 1], ws[j]);
    }
  }

  /** Over a whole run, whatever is retried, limited, raised or crashes, at most one request per key gets to its
      handler; so at most one service call is made under a key. */
  lemma AtMostOnePass(ws: seq<World>, ms: seq<Move>, i: nat, j: nat)
    requires IsHistory(ws, ms)
    requires var passes := ws[|ms|].passes; i < |passes| && j < |passes| && passes[i].key == passes[j].key
    ensures i == j
  {
    hide CanMove, After;
    AlwaysOk(ws, ms, |ms|);
  }

  /** A key once taken is never free again: the branch that frees it is for replies that no endpoint gives. */
  lemma {:induction false} NeverFreed(ws: seq<World>, ms: seq<Move>, i: nat, j: nat, key: string)
    requires IsHistory(ws, ms) && i <= j < |ws| && key in ws[i].gate.store
    ensures key in ws[j].gate.store
    decreases j
  {
    hide Idempotency.Inv, Invariants.Inv, PassesOk, Handles, OnlyCacheable;
    if i < j {
      NeverFreed(ws, ms, i, j - 1, key);
      AlwaysOk(ws, ms, j - 1);
      var w, m := ws[j - 1], ms[j - 1];
      assert IsMove(w, m, ws[j]);
      if m.Gate? { StaysTaken(w.gate, m.step, key); }
      if m.Keyed? { StaysTaken(w.gate, End(m.rid, Ending(PassOf(w, m), m.body)), key); }
    }
  }

  /** Whoever is answered under a key, directly or from the cache, is told how the one request that passed under it
      ended. */
  lemma AnswersTellThePass(ws: seq<World>, ms: seq<Move>, i: nat, r: Rid, key: string, reply: Reply, pass: Pass)
    requires IsHistory(ws, ms) && i < |ws| && AnsweredWith(ws[i].gate, r, key, reply)
    requires pass in ws[i].passes && pass.key == key
    ensures Ending(pass, reply.body) == Returns(reply)
  {
    hide CanMove, After, Ending, Spent, Invariants.Inv, OnlyCacheable, Protocol, Provenance;
    AlwaysOk(ws, ms, i);
    AnswerWasCompleted(ws[i].gate, r, key, reply);
    var e :| e in ws[i].gate.completions && Good(e, key) && e.reply == reply;
    var p :| p in ws[i].passes && Explains(p, e);
    var a :| 0 <= a < |ws[i].passes| && ws[i].passes[a] == p;
    var b :| 0 <= b < |ws[i].passes| && ws[i].passes[b] == pass;
    assert a == b;
  }

  /** A key whose request was turned away by the limiter never succeeds: no service call is ever made under it, and
      whoever is answered under it, at any later moment, is told 429. */
  lemma LimitedForEver(ws: seq<World>, ms: seq<Move>, i: nat, j: nat, pass: Pass)
    requires IsHistory(ws, ms) && i <= j < |ws| && pass in ws[i].passes && pass.Limited?
    ensures forall p :: p in ws[j].passes && p.key == pass.key ==> p.Limited?
    ensures forall r, reply :: AnsweredWith(ws[j].gate, r, pass.key, reply) ==> reply.code == 429
  {
    hide CanMove, After;
    PassesGrow(ws, ms, i, j);
    AlwaysOk(ws, ms, j);
    var passes := ws[j].passes;
    assert pass in passes;
    forall p | p in passes && p.key == pass.key ensures p == pass {
      var a :| 0 <= a < |passes| && passes[a] == p;
      var b :| 0 <= b < |passes| && passes[b] == pass;
      assert a == b;
    }
    forall r, reply | AnsweredWith(ws[j].gate, r, pass.key, reply) ensures reply.code == TOO_MANY_REQUESTS {
      AnswersTellThePass(ws, ms, j, r, pass.key, reply, pass);
    }
  }

  /** The handler of a request abandons its key exactly when the limiter lets the request through and it is one of those
      that cannot be answered: a success callback for a payment that does not fit, a callback contradicting a finished
      transaction, or an initiation of an order already being paid from another address. */
  lemma HandlerAbandonsExactlyWhen(w: World, m: Move)
    requires WorldInv(w) && CanMove(w, m) && m.Keyed?
    ensures Abandoned(After(w, m).gate, w.gate.calls[m.rid].key) <==> Admits(w, m.hit) && Hopeless(w.tables, m.req)
  {
    hide Invariants.Inv, Step, PaidByAnother, CannotApply, Provenance, Closed, AtMostOneGood, CacheExplained;
    hide OwnersExplained;
    var key := w.gate.calls[m.rid].key;
    assert Owns(w.gate, m.rid, key);
    RaisesExactlyWhen(w.tables, m.req);
    var outcome := Ending(PassOf(w, m), m.body);
    if outcome.Raises? {
      DeathAbandons(w.gate, m.rid, key);
    } else {
      assert Owns(After(w, m).gate, m.rid, key);
    }
  }

  // ---- A run that spends a key on a 429 --------------------------------------

  const Client: string := "client"

  const Unknown: Request := BankCallback(PaymentFailed, 0, 0)

  function Busy(n: nat): World {
    Nothing.(hits := RateLimit.Burst(Client, 0, n))
  }

  lemma OneMore(n: nat)
    ensures IsMove(Busy(n), Plain(RateLimit.Hit(Client, 0, 0), Unknown, Empty, TransactionNotFound), Busy(n + 1))
  {
    assert ByReference(Empty, 0) == {};
  }

  lemma {:induction false} Flood(n: nat) returns (ws: seq<World>, ms: seq<Move>)
    ensures IsHistory(ws, ms) && ws[|ms|] == Busy(n)
  {
    hide IsMove;
    if n == 0 { return [Nothing], []; }
    ws, ms := Flood(n - 1);
    OneMore(n - 1);
    ws, ms := Append(ws, ms, Plain(RateLimit.Hit(Client, 0, 0), Unknown, Empty, TransactionNotFound), Busy(n));
  }

  lemma Append(ws: seq<World>, ms: seq<Move>, m: Move, w: World) returns (more: seq<World>, moves: seq<Move>)
    requires IsHistory(ws, ms) && IsMove(ws[|ms|], m, w)
    ensures IsHistory(more, moves) && more[|moves|] == w
  {
    hide IsMove;
    more, moves := ws + [w], ms + [m];
    forall i | 0 <= i < |moves| ensures IsMove(more[i], moves[i], more[i + 1]) {
      if i < |ms| { assert IsMove(ws[i], ms[i], ws[i + 1]); }
    }
  }

  /** The request after the limit is turned away. */
  lemma Overflows()
    ensures !Admits(Busy(RateLimit.LIMIT), RateLimit.Hit(Client, 0, 0))
  {
    hide RateLimit.Burst, RateLimit.Occurrences, RateLimit.After;
    var burst, h := RateLimit.Burst(Client, 0, RateLimit.LIMIT), RateLimit.Hit(Client, 0, 0);
    RateLimit.Nothing(RateLimit.KeyOf(h));
    RateLimit.BurstOccurs([], Client, 0, RateLimit.LIMIT, RateLimit.KeyOf(h));
    assert [] + burst == burst;
    RateLimit.PromptAppend(burst, h);
    RateLimit.CountIsExact(burst + [h], |burst|);
    assert (burst + [h])[..|burst| + 1] == burst + [h];
  }

  function Reserving(key: string, pc: Pc): World {
    var record := if pc.Mark? then Reserved else InProgress;
    Busy(RateLimit.LIMIT).(gate := State(map[key := record], map[1 := Call(key, pc)], []))
  }

  lemma ReservingMoves(key: string)
    ensures var w := Busy(RateLimit.LIMIT); var begun := w.(gate := State(map[], map[1 := Call(key, Begin)], []));
      && IsMove(w, Gate(Arrive(1, key)), begun)
      && IsMove(begun, Gate(Advance(1)), Reserving(key, Mark))
      && IsMove(Reserving(key, Mark), Gate(Advance(1)), Reserving(key, Handle))
  { }

  /** A client that has used up its minute sends a request with a new key, and the key is spent. */
  lemma KeyMayBeSpent(key: string, body: string) returns (ws: seq<World>, ms: seq<Move>)
    ensures IsHistory(ws, ms) && ws[|ms|].passes == [Limited(1, key)]
  {
    hide IsMove, RateLimit.Burst, Admits;
    ws, ms := Flood(RateLimit.LIMIT);
    ReservingMoves(key);
    var w := Busy(RateLimit.LIMIT);
    ws, ms := Append(ws, ms, Gate(Arrive(1, key)), w.(gate := State(map[], map[1 := Call(key, Begin)], [])));
    ws, ms := Append(ws, ms, Gate(Advance(1)), Reserving(key, Mark));
    ws, ms := Append(ws, ms, Gate(Advance(1)), Reserving(key, Handle));
    var m := Keyed(1, RateLimit.Hit(Client, 0, 0), Unknown, Empty, TransactionNotFound, body);
    Overflows();
    TurnedAway(key, m);
    ws, ms := Append(ws, ms, m, After(Reserving(key, Handle), m));
  }

  lemma TurnedAway(key: string, m: Move)
    requires !Admits(Busy(RateLimit.LIMIT), RateLimit.Hit(Client, 0, 0))
    requires m.Keyed? && m.rid == 1 && m.hit == RateLimit.Hit(Client, 0, 0) && m.req == Unknown && m.tables == Empty
    ensures CanMove(Reserving(key, Handle), m)
    ensures IsMove(Reserving(key, Handle), m, After(Reserving(key, Handle), m))
    ensures After(Reserving(key, Handle), m).passes == [Limited(1, key)]
  {
    hide RateLimit.Burst, RateLimit.After;
  }
}

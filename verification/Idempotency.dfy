/** The Redis protocol of the idempotency middleware: any number of requests, each a sequence of atomic store operations
    around one handler call, in any interleaving, with crashes at any point. Expiry of a key within its 24 hours is not
    modelled. */
module Idempotency {
  type Rid = nat

  datatype Reply = Reply(code: int, body: string)

  /** The value stored under a key: the first reservation carries no status. */
  datatype Record = Reserved | InProgress | Cached(reply: Reply)

  type Store = map<string, Record>

  datatype Answer =
    | Own(reply: Reply)        // the handler's reply
    | Replayed(reply: Reply)   // the cached reply
    | Conflict                 // 409
    | EmptyOk                  // 200 with an empty body

  datatype Pc = Begin | Lookup | Mark | Handle | Conclude(reply: Reply) | Finished(answer: Answer) | Dead(at: Pc)

  datatype Call = Call(key: string, pc: Pc)

  /** A handler ran to completion. */
  datatype Completion = Completion(rid: Rid, key: string, reply: Reply)

  datatype State = State(store: Store, calls: map<Rid, Call>, completions: seq<Completion>)

  const Start: State := State(map[], map[], [])

  datatype Action = Arrive(rid: Rid, key: string) | Advance(rid: Rid) | Return(rid: Rid, reply: Reply) | Die(rid: Rid)

  /** Replies that are cached; any other frees the key. */
  predicate Cacheable(reply: Reply) {
    200 <= reply.code < 500
  }

  /** `SET key value XX`. */
  function Overwrite(store: Store, key: string, record: Record): Store {
    if key in store then store[key := record] else store
  }

  /** What a request that lost the reservation is told. */
  function LoserAnswer(store: Store, key: string): Answer {
    if key !in store then Conflict
    else match store[key]
      case InProgress => Conflict
      case Reserved => EmptyOk
      case Cached(reply) => Replayed(reply)
  }

  function AfterHandler(store: Store, key: string, reply: Reply): Store {
    if Cacheable(reply) then Overwrite(store, key, Cached(reply)) else store - {key}
  }

  predicate Enabled(s: State, a: Action) {
    match a
    case Arrive(r, _) => r !in s.calls
    case Advance(r) =>
      && r in s.calls
      && (s.calls[r].pc.Begin? || s.calls[r].pc.Lookup? || s.calls[r].pc.Mark? || s.calls[r].pc.Conclude?)
    case Return(r, _) => r in s.calls && s.calls[r].pc.Handle?
    case Die(r) => r in s.calls && !s.calls[r].pc.Finished? && !s.calls[r].pc.Dead?
  }

  function SetPc(s: State, r: Rid, pc: Pc): map<Rid, Call>
    requires r in s.calls
  {
    s.calls[r := s.calls[r].(pc := pc)]
  }

  function Perform(s: State, a: Action): State
    requires Enabled(s, a)
  {
    match a
    case Arrive(r, key) => s.(calls := s.calls[r := Call(key, Begin)])
    case Die(r) => s.(calls := SetPc(s, r, Dead(s.calls[r].pc)))
    case Return(r, reply) =>
      s.(calls := SetPc(s, r, Conclude(reply)), completions := s.completions + [Completion(r, s.calls[r].key, reply)])
    case Advance(r) =>
      var key := s.calls[r].key;
      match s.calls[r].pc
      case Begin =>
        if key in s.store then s.(calls := SetPc(s, r, Lookup))
        else s.(store := s.store[key := Reserved], calls := SetPc(s, r, Mark))
      case Lookup => s.(calls := SetPc(s, r, Finished(LoserAnswer(s.store, key))))
      case Mark => s.(store := Overwrite(s.store, key, InProgress), calls := SetPc(s, r, Handle))
      case Conclude(reply) => s.(store := AfterHandler(s.store, key, reply), calls := SetPc(s, r, Finished(Own(reply))))
      case _ => s
  }

  // ---- The invariant ---------------------------------------------------------

  /** Between winning the reservation and caching or freeing the key. */
  predicate Owns(s: State, r: Rid, key: string) {
    r in s.calls && s.calls[r].key == key && (s.calls[r].pc.Mark? || s.calls[r].pc.Handle? || s.calls[r].pc.Conclude?)
  }

  ghost predicate OneOwner(s: State) {
    forall i, j, key | Owns(s, i, key) && Owns(s, j, key) :: i == j
  }

  /** The record tells how far the owner is. */
  ghost predicate RecordsMatch(s: State) {
    forall r, key | Owns(s, r, key) ::
      key in s.store && s.store[key] == if s.calls[r].pc.Mark? then Reserved else InProgress
  }

  /** Its worker died, or its handler raised, while it owned the key. */
  predicate DiedOwning(s: State, r: Rid, key: string) {
    && r in s.calls && s.calls[r].key == key && s.calls[r].pc.Dead?
    && (s.calls[r].pc.at.Mark? || s.calls[r].pc.at.Handle? || s.calls[r].pc.at.Conclude?)
  }

  /** A dead owner's record stays as it left it, and nobody owns its key again. */
  ghost predicate DeadKeep(s: State) {
    forall r, key | DiedOwning(s, r, key) ::
      && key in s.store && s.store[key] == (if s.calls[r].pc.at.Mark? then Reserved else InProgress)
      && forall o :: !Owns(s, o, key)
  }

  /** The reply of this request went into the cache. */
  predicate Served(s: State, r: Rid, key: string, reply: Reply) {
    r in s.calls && s.calls[r].key == key && s.calls[r].pc == Finished(Own(reply)) && 200 <= reply.code < 500
  }

  /** Every record comes from a request that still owns the key, died owning it, or served the reply cached there. */
  ghost predicate RecordsExplained(s: State) {
    && (forall key | key in s.store && !s.store[key].Cached? :: exists r :: Owns(s, r, key) || DiedOwning(s, r, key))
    && (forall key | key in s.store && s.store[key].Cached? :: exists r :: Served(s, r, key, s.store[key].reply))
  }

  /** A reply that was cached stays cached. */
  ghost predicate ServedKeep(s: State) {
    forall r, key, reply | Served(s, r, key, reply) :: key in s.store && s.store[key] == Cached(reply)
  }

  predicate Good(e: Completion, key: string) {
    e.key == key && 200 <= e.reply.code < 500
  }

  /** A cacheable completion closes its key: the record holds its reply, its owner is about to write it, or died. */
  ghost predicate Closed(s: State) {
    forall e, key | e in s.completions && Good(e, key) ::
      && key in s.store
      && (s.store[key].Cached? ==> s.store[key].reply == e.reply)
      && (forall r | Owns(s, r, key) :: r == e.rid && s.calls[r].pc == Conclude(e.reply))
  }

  ghost predicate AtMostOneGood(s: State) {
    forall i, j, key | 0 <= i < |s.completions| && 0 <= j < |s.completions|
                       && Good(s.completions[i], key) && Good(s.completions[j], key) :: i == j
  }

  ghost predicate WasCompleted(s: State, key: string, reply: Reply) {
    exists e :: e in s.completions && Good(e, key) && e.reply == reply
  }

  ghost predicate CacheExplained(s: State) {
    && (forall key | key in s.store && s.store[key].Cached? :: WasCompleted(s, key, s.store[key].reply))
    && (forall r | r in s.calls && s.calls[r].pc.Finished? && s.calls[r].pc.answer.Replayed? ::
          WasCompleted(s, s.calls[r].key, s.calls[r].pc.answer.reply))
  }

  /** An owner that has not finished its handler has no completion yet; one that has, has exactly its own. */
  ghost predicate OwnersExplained(s: State) {
    && (forall r | r in s.calls && s.calls[r].pc.Conclude? ::
          Completion(r, s.calls[r].key, s.calls[r].pc.reply) in s.completions)
    && (forall r | r in s.calls && s.calls[r].pc.Finished? && s.calls[r].pc.answer.Own? ::
          Completion(r, s.calls[r].key, s.calls[r].pc.answer.reply) in s.completions)
  }

  /** Where the records come from. */
  ghost predicate Provenance(s: State) {
    DeadKeep(s) && ServedKeep(s) && RecordsExplained(s)
  }

  /** What the owners are doing, and what was completed. */
  ghost predicate Protocol(s: State) {
    OneOwner(s) && RecordsMatch(s) && Closed(s) && AtMostOneGood(s) && CacheExplained(s) && OwnersExplained(s)
  }

  ghost predicate Inv(s: State) {
    Protocol(s) && Provenance(s)
  }

  lemma StartInv()
    ensures Inv(Start)
  { }

  // ---- Preservation ----------------------------------------------------------

  lemma ArriveOk(s: State, r: Rid, key: string)
    requires Protocol(s) && Enabled(s, Arrive(r, key))
    ensures Protocol(Perform(s, Arrive(r, key)))
  {
    var u := Perform(s, Arrive(r, key));
    forall i, k ensures Owns(u, i, k) <==> Owns(s, i, k) { }
    CompletedStays(s, u);
  }

  lemma CompletedStays(s: State, u: State)
    requires s.completions <= u.completions
    ensures forall key, reply :: WasCompleted(s, key, reply) ==> WasCompleted(u, key, reply)
  { }

  lemma DieOk(s: State, r: Rid)
    requires Protocol(s) && Enabled(s, Die(r))
    ensures Protocol(Perform(s, Die(r)))
  {
    var u := Perform(s, Die(r));
    forall i, k ensures Owns(u, i, k) <==> Owns(s, i, k) && i != r { }
    CompletedStays(s, u);
  }

  lemma ReturnCloses(s: State, r: Rid, reply: Reply)
    requires Protocol(s) && Enabled(s, Return(r, reply))
    ensures Closed(Perform(s, Return(r, reply))) && AtMostOneGood(Perform(s, Return(r, reply)))
  {
    hide CacheExplained, OwnersExplained;
    var u, key := Perform(s, Return(r, reply)), s.calls[r].key;
    assert Owns(s, r, key);
    forall i, k ensures Owns(u, i, k) <==> Owns(s, i, k) { }
    assert forall e :: e in s.completions ==> !Good(e, key);
  }

  lemma ReturnOk(s: State, r: Rid, reply: Reply)
    requires Protocol(s) && Enabled(s, Return(r, reply))
    ensures Protocol(Perform(s, Return(r, reply)))
  {
    var u, key := Perform(s, Return(r, reply)), s.calls[r].key;
    hide Closed, AtMostOneGood;
    ReturnCloses(s, r, reply);
    assert Owns(s, r, key);
    forall i, k ensures Owns(u, i, k) <==> Owns(s, i, k) { }
    CompletedStays(s, u);
  }

  lemma BeginOk(s: State, r: Rid)
    requires Protocol(s) && Enabled(s, Advance(r)) && s.calls[r].pc.Begin?
    ensures Protocol(Perform(s, Advance(r)))
  {
    var u, key := Perform(s, Advance(r)), s.calls[r].key;
    forall i, k ensures Owns(u, i, k) <==> Owns(s, i, k) || (i == r && k == key && key !in s.store) { }
    CompletedStays(s, u);
  }

  lemma LookupOk(s: State, r: Rid)
    requires Protocol(s) && Enabled(s, Advance(r)) && s.calls[r].pc.Lookup?
    ensures Protocol(Perform(s, Advance(r)))
  {
    var u := Perform(s, Advance(r));
    forall i, k ensures Owns(u, i, k) <==> Owns(s, i, k) { }
    CompletedStays(s, u);
  }

  lemma MarkOk(s: State, r: Rid)
    requires Protocol(s) && Enabled(s, Advance(r)) && s.calls[r].pc.Mark?
    ensures Protocol(Perform(s, Advance(r)))
  {
    var u, key := Perform(s, Advance(r)), s.calls[r].key;
    assert Owns(s, r, key);
    forall i, k ensures Owns(u, i, k) <==> Owns(s, i, k) { }
    CompletedStays(s, u);
  }

  lemma ConcludeOk(s: State, r: Rid)
    requires Protocol(s) && Enabled(s, Advance(r)) && s.calls[r].pc.Conclude?
    ensures Protocol(Perform(s, Advance(r)))
  {
    var u, key := Perform(s, Advance(r)), s.calls[r].key;
    assert Owns(s, r, key);
    forall i, k ensures Owns(u, i, k) <==> Owns(s, i, k) && i != r { }
    CompletedStays(s, u);
    assert Completion(r, key, s.calls[r].pc.reply) in s.completions;
    forall e | e in s.completions && Good(e, key) ensures s.calls[r].pc == Conclude(e.reply) { }
  }

  // Which requests own, died owning, or served a key changes only for the request that acts.

  lemma OthersUnmoved(s: State, a: Action, i: Rid, key: string)
    requires Enabled(s, a) && i != a.rid
    ensures Owns(Perform(s, a), i, key) <==> Owns(s, i, key)
    ensures DiedOwning(Perform(s, a), i, key) <==> DiedOwning(s, i, key)
    ensures forall reply :: Served(Perform(s, a), i, key, reply) <==> Served(s, i, key, reply)
  { }

  /** A record changes only by the step of its owner, or of a request that thereby becomes its owner. */
  lemma RecordMoves(s: State, a: Action, key: string)
    requires Protocol(s) && Enabled(s, a) && !Owns(s, a.rid, key) && !Owns(Perform(s, a), a.rid, key)
    ensures key in Perform(s, a).store <==> key in s.store
    ensures key in s.store ==> Perform(s, a).store[key] == s.store[key]
  { }

  lemma DeadKept(s: State, a: Action)
    requires Protocol(s) && DeadKeep(s) && Enabled(s, a)
    ensures DeadKeep(Perform(s, a))
  {
    var u := Perform(s, a);
    forall r, key | DiedOwning(u, r, key)
      ensures key in u.store && u.store[key] == (if u.calls[r].pc.at.Mark? then Reserved else InProgress)
      ensures forall o :: !Owns(u, o, key)
    {
      if DiedOwning(s, r, key) { RecordMoves(s, a, key); } else { assert Owns(s, r, key); }
      forall o ensures !Owns(u, o, key) { assert Owns(s, o, key) ==> o == r; }
    }
  }

  lemma ServedKept(s: State, a: Action)
    requires Protocol(s) && ServedKeep(s) && Enabled(s, a)
    ensures ServedKeep(Perform(s, a))
  {
    var u := Perform(s, a);
    forall r, key, reply | Served(u, r, key, reply) ensures key in u.store && u.store[key] == Cached(reply) {
      if Served(s, r, key, reply) { RecordMoves(s, a, key); } else { assert Owns(s, r, key); }
    }
  }

  lemma ExplainedKept(s: State, a: Action)
    requires Protocol(s) && RecordsExplained(s) && Enabled(s, a)
    ensures RecordsExplained(Perform(s, a))
  {
    var u := Perform(s, a);
    forall key | key in u.store
      ensures !u.store[key].Cached? ==> exists r :: Owns(u, r, key) || DiedOwning(u, r, key)
      ensures u.store[key].Cached? ==> exists r :: Served(u, r, key, u.store[key].reply)
    {
      if Owns(s, a.rid, key) {
        assert Owns(u, a.rid, key) || DiedOwning(u, a.rid, key) || Served(u, a.rid, key, s.calls[a.rid].pc.reply);
      } else if !Owns(u, a.rid, key) {
        RecordMoves(s, a, key);
        if s.store[key].Cached? {
          var r :| Served(s, r, key, s.store[key].reply);
          OthersUnmoved(s, a, r, key);
        } else {
          var r :| Owns(s, r, key) || DiedOwning(s, r, key);
          OthersUnmoved(s, a, r, key);
        }
      }
    }
  }

  /** Every action, crashes included, keeps the protocol's invariant. */
  lemma PerformKeepsInv(s: State, a: Action)
    requires Inv(s) && Enabled(s, a)
    ensures Inv(Perform(s, a))
  {
    hide Protocol, DeadKeep, ServedKeep, RecordsExplained, Perform;
    DeadKept(s, a);
    ServedKept(s, a);
    ExplainedKept(s, a);
    match a
    case Arrive(r, key) => ArriveOk(s, r, key);
    case Return(r, reply) => ReturnOk(s, r, reply);
    case Die(r) => DieOk(s, r);
    case Advance(r) =>
      if s.calls[r].pc.Begin? { BeginOk(s, r); }
      else if s.calls[r].pc.Lookup? { LookupOk(s, r); }
      else if s.calls[r].pc.Mark? { MarkOk(s, r); }
      else { ConcludeOk(s, r); }
  }

  // ---- Runs ------------------------------------------------------------------

  predicate IsStep(s: State, a: Action, u: State) {
    Enabled(s, a) && u == Perform(s, a)
  }

  ghost predicate IsRun(states: seq<State>, acts: seq<Action>) {
    && |states| == |acts| + 1
    && forall i :: 0 <= i < |acts| ==> IsStep(states[i], acts[i], states[i + 1])
  }

  lemma {:induction false} InvAlways(states: seq<State>, acts: seq<Action>, i: nat)
    requires IsRun(states, acts) && states[0] == Start && i < |states|
    ensures Inv(states[i])
    decreases i
  {
    hide Inv, Perform, Enabled;
    if i == 0 {
      StartInv();
    } else {
      InvAlways(states, acts, i - 1);
      assert IsStep(states[i - 1], acts[i - 1], states[i]);
      PerformKeepsInv(states[i - 1], acts[i - 1]);
    }
  }

  /** Mutual exclusion: at every moment of every run, at most one request per key is between reserving it and caching or
      freeing it; so at most one is in the handler. */
  lemma MutualExclusion(states: seq<State>, acts: seq<Action>, i: nat, p: Rid, q: Rid, key: string)
    requires IsRun(states, acts) && states[0] == Start && i < |states|
    requires Owns(states[i], p, key) && Owns(states[i], q, key)
    ensures p == q
  {
    InvAlways(states, acts, i);
  }

  /** Over a whole run, crashes included, at most one handler completion per key is a cacheable one. */
  lemma OneCacheableCompletion(states: seq<State>, acts: seq<Action>, i: nat, j: nat, key: string)
    requires IsRun(states, acts) && states[0] == Start
    requires var log := states[|acts|].completions;
      i < |log| && j < |log| && Good(log[i], key) && Good(log[j], key)
    ensures i == j
  {
    InvAlways(states, acts, |acts|);
  }

  // ---- What clients are told -------------------------------------------------

  predicate AnsweredWith(s: State, r: Rid, key: string, reply: Reply) {
    r in s.calls && s.calls[r].key == key && s.calls[r].pc.Finished?
    && (s.calls[r].pc.answer == Replayed(reply) || (s.calls[r].pc.answer == Own(reply) && 200 <= reply.code < 500))
  }

  /** The winner and everyone served from the cache get one and the same reply. */
  lemma RepliesAgree(s: State, p: Rid, q: Rid, key: string, a: Reply, b: Reply)
    requires Inv(s) && AnsweredWith(s, p, key, a) && AnsweredWith(s, q, key, b)
    ensures a == b
  {
    assert WasCompleted(s, key, a) by { AnswerWasCompleted(s, p, key, a); }
    assert WasCompleted(s, key, b) by { AnswerWasCompleted(s, q, key, b); }
    var d :| d in s.completions && Good(d, key) && d.reply == a;
    var e :| e in s.completions && Good(e, key) && e.reply == b;
    var i :| 0 <= i < |s.completions| && s.completions[i] == d;
    var j :| 0 <= j < |s.completions| && s.completions[j] == e;
    assert i == j;
  }

  lemma AnswerWasCompleted(s: State, r: Rid, key: string, reply: Reply)
    requires Inv(s) && AnsweredWith(s, r, key, reply)
    ensures WasCompleted(s, key, reply)
  { }

  /** It stopped, or is still, between the two writes of its reservation. */
  predicate LeftBare(s: State, r: Rid, key: string) {
    r in s.calls && s.calls[r].key == key && (s.calls[r].pc == Mark || s.calls[r].pc == Dead(Mark))
  }

  /** It owns the key, or died owning it, and had marked it as in progress. */
  predicate LeftMarked(s: State, r: Rid, key: string) {
    (Owns(s, r, key) || DiedOwning(s, r, key)) && !LeftBare(s, r, key)
  }

  /** The exact classification of what a request that lost the reservation is told: the empty 200 exactly when its read
      falls after some owner's first write and before the second - which never comes if that owner died in between; a
      replay of exactly the reply that was served and cached; a 409 in every other case, that is while an owner is past
      its second write or died there, or when the key was freed meanwhile. */
  lemma LoserIsTold(s: State, r: Rid)
    requires Inv(s) && r in s.calls && s.calls[r].pc.Lookup?
    ensures var key := s.calls[r].key; var answer := Perform(s, Advance(r)).calls[r].pc.answer;
      && (answer == EmptyOk <==> exists w :: LeftBare(s, w, key))
      && (forall reply :: answer == Replayed(reply) <==> exists w :: Served(s, w, key, reply))
      && (answer == Conflict <==> key !in s.store || exists w :: LeftMarked(s, w, key))
      && !answer.Own?
  {
    RecordTells(s, s.calls[r].key);
  }

  /** A record is bare, in progress or cached exactly when some request left it so. */
  lemma RecordTells(s: State, key: string)
    requires Inv(s)
    ensures key in s.store && s.store[key] == Reserved <==> exists w :: LeftBare(s, w, key)
    ensures key in s.store && s.store[key] == InProgress <==> exists w :: LeftMarked(s, w, key)
    ensures forall reply :: key in s.store && s.store[key] == Cached(reply) <==> exists w :: Served(s, w, key, reply)
  {
    hide Closed, AtMostOneGood, CacheExplained, OwnersExplained, OneOwner;
    forall w ensures LeftBare(s, w, key) || LeftMarked(s, w, key) <==> Owns(s, w, key) || DiedOwning(s, w, key) { }
    forall w | LeftBare(s, w, key) ensures key in s.store && s.store[key] == Reserved {
      assert Owns(s, w, key) || DiedOwning(s, w, key);
    }
    forall w | LeftMarked(s, w, key) ensures key in s.store && s.store[key] == InProgress { }
    if key in s.store && !s.store[key].Cached? {
      var w :| Owns(s, w, key) || DiedOwning(s, w, key);
      assert LeftBare(s, w, key) || LeftMarked(s, w, key);
    }
    forall reply ensures key in s.store && s.store[key] == Cached(reply) <==> exists w :: Served(s, w, key, reply) {
      if key in s.store && s.store[key] == Cached(reply) { assert exists w :: Served(s, w, key, s.store[key].reply); }
    }
  }

  /** A retry that arrives while the first request runs is told 409, unless it reads between that request's two
      writes. */
  lemma RetryWhileRunning(s: State, r: Rid, owner: Rid)
    requires Inv(s) && r in s.calls && s.calls[r].pc.Lookup? && Owns(s, owner, s.calls[r].key)
    ensures Perform(s, Advance(r)).calls[r].pc.answer == if s.calls[owner].pc.Mark? then EmptyOk else Conflict
  { }

  /** A run in which a retry of an unfinished request is told 200, not 409. */
  lemma RetryMayBeToldOk(key: string) returns (states: seq<State>, acts: seq<Action>)
    ensures IsRun(states, acts) && states[0] == Start
    ensures var s := states[|acts|]; 2 in s.calls && s.calls[2] == Call(key, Finished(EmptyOk)) && s.completions == []
  {
    acts := [Arrive(1, key), Arrive(2, key), Advance(1), Advance(2), Advance(2)];
    var s1 := Perform(Start, acts[0]);
    var s2 := Perform(s1, acts[1]);
    var s3 := Perform(s2, acts[2]);
    var s4 := Perform(s3, acts[3]);
    states := [Start, s1, s2, s3, s4, Perform(s4, acts[4])];
  }

  // ---- After a handler has replied -------------------------------------------

  /** An owner that concludes a status in 200..499 leaves exactly its reply under the key, any other status leaves the
      key absent; no other key is touched. */
  lemma ConclusionStores(s: State, r: Rid)
    requires Inv(s) && r in s.calls && s.calls[r].pc.Conclude?
    ensures var key, reply, u := s.calls[r].key, s.calls[r].pc.reply, Perform(s, Advance(r));
      && u.calls[r].pc == Finished(Own(reply))
      && (200 <= reply.code < 500 ==> u.store == s.store[key := Cached(reply)])
      && (reply.code < 200 || reply.code >= 500 ==> u.store == s.store - {key})
  {
    hide Provenance, Closed, AtMostOneGood, CacheExplained, OwnersExplained, OneOwner;
    assert Owns(s, r, s.calls[r].key);
  }

  /** Request `q` takes the first step of its own, which reserves the key or loses it. */
  predicate BeginsUnder(s: State, a: Action, key: string) {
    a.Advance? && a.rid in s.calls && s.calls[a.rid] == Call(key, Begin)
  }

  lemma StaysCached(s: State, a: Action, key: string, reply: Reply)
    requires Inv(s) && Enabled(s, a) && key in s.store && s.store[key] == Cached(reply)
    ensures var u := Perform(s, a);
      && key in u.store && u.store[key] == Cached(reply)
      && (a.Advance? && s.calls[a.rid] == Call(key, Begin) ==> u.calls[a.rid].pc == Lookup)
      && (a.Advance? && s.calls[a.rid] == Call(key, Lookup) ==> u.calls[a.rid].pc == Finished(Replayed(reply)))
  {
    hide Provenance, Closed, AtMostOneGood, CacheExplained, OwnersExplained, OneOwner;
  }

  lemma {:induction false} CachedForEver(states: seq<State>, acts: seq<Action>, i: nat, key: string, reply: Reply)
    requires IsRun(states, acts) && Inv(states[0]) && i < |states|
    requires key in states[0].store && states[0].store[key] == Cached(reply)
    ensures Inv(states[i]) && key in states[i].store && states[i].store[key] == Cached(reply)
    decreases i
  {
    hide Inv, Perform, Enabled;
    if i > 0 {
      CachedForEver(states, acts, i - 1, key, reply);
      assert IsStep(states[i - 1], acts[i - 1], states[i]);
      PerformKeepsInv(states[i - 1], acts[i - 1]);
      StaysCached(states[i - 1], acts[i - 1], key, reply);
    }
  }

  /** Over a run that begins with the conclusion of a status in 200..499: no later request under the key reaches its
      handler, and each is answered with that very status and body. */
  lemma RepliedForEver(states: seq<State>, acts: seq<Action>, r: Rid, i: nat)
    requires IsRun(states, acts) && Inv(states[0]) && 0 < i < |acts| && acts[0] == Advance(r)
    requires r in states[0].calls && states[0].calls[r].pc.Conclude? && 200 <= states[0].calls[r].pc.reply.code < 500
    ensures var key, reply, u, q := states[0].calls[r].key, states[0].calls[r].pc.reply, states[i + 1], acts[i].rid;
      && (forall p :: !Owns(u, p, key))
      && (acts[i].Advance? && states[i].calls[q] == Call(key, Begin) ==> u.calls[q].pc == Lookup)
      && (acts[i].Advance? && states[i].calls[q] == Call(key, Lookup) ==> u.calls[q].pc == Finished(Replayed(reply)))
  {
    hide Protocol, Provenance, Perform, Enabled;
    var key, reply := states[0].calls[r].key, states[0].calls[r].pc.reply;
    assert IsStep(states[0], acts[0], states[1]) && IsStep(states[i], acts[i], states[i + 1]);
    ConclusionStores(states[0], r);
    PerformKeepsInv(states[0], acts[0]);
    forall j | 0 <= j < |acts[1..]| ensures IsStep(states[1..][j], acts[1..][j], states[1..][j + 1]) {
      assert IsStep(states[j + 1], acts[j + 1], states[j + 2]);
    }
    CachedForEver(states[1..], acts[1..], i - 1, key, reply);
    CachedForEver(states[1..], acts[1..], i, key, reply);
    StaysCached(states[i], acts[i], key, reply);
    CachedUnowned(states[i + 1], key, reply);
  }

  lemma CachedUnowned(s: State, key: string, reply: Reply)
    requires Inv(s) && key in s.store && s.store[key] == Cached(reply)
    ensures forall p :: !Owns(s, p, key)
  { }

  lemma {:induction false} FreeUntilNext(states: seq<State>, acts: seq<Action>, i: nat, key: string)
    requires IsRun(states, acts) && Inv(states[0]) && i < |states| && key !in states[0].store
    requires forall j :: 0 <= j < i ==> !BeginsUnder(states[j], acts[j], key)
    ensures Inv(states[i]) && key !in states[i].store
    decreases i
  {
    hide Protocol, Provenance;
    if i > 0 {
      FreeUntilNext(states, acts, i - 1, key);
      assert IsStep(states[i - 1], acts[i - 1], states[i]) && !BeginsUnder(states[i - 1], acts[i - 1], key);
      PerformKeepsInv(states[i - 1], acts[i - 1]);
    }
  }

  /** Over a run that begins with the conclusion of a reply: the next request to begin under the key gets to its handler
      exactly when the status was outside 200..499, and otherwise loses the key to the cached reply. */
  lemma NextRequestServedExactlyWhen(states: seq<State>, acts: seq<Action>, r: Rid, i: nat)
    requires IsRun(states, acts) && Inv(states[0]) && 0 < i < |acts| && acts[0] == Advance(r)
    requires r in states[0].calls && states[0].calls[r].pc.Conclude?
    requires var key := states[0].calls[r].key;
      BeginsUnder(states[i], acts[i], key) && forall j :: 0 < j < i ==> !BeginsUnder(states[j], acts[j], key)
    ensures var key, reply, q := states[0].calls[r].key, states[0].calls[r].pc.reply, acts[i].rid;
      && (Owns(states[i + 1], q, key) <==> reply.code < 200 || reply.code >= 500)
      && (200 <= reply.code < 500 ==>
            states[i + 1].calls[q].pc == Lookup && states[i + 1].store[key] == Cached(reply))
  {
    hide Protocol, Provenance, Enabled;
    var key, reply := states[0].calls[r].key, states[0].calls[r].pc.reply;
    assert IsStep(states[0], acts[0], states[1]) && IsStep(states[i], acts[i], states[i + 1]);
    ConclusionStores(states[0], r);
    PerformKeepsInv(states[0], acts[0]);
    forall j | 0 <= j < |acts[1..]| ensures IsStep(states[1..][j], acts[1..][j], states[1..][j + 1]) {
      assert IsStep(states[j + 1], acts[j + 1], states[j + 2]);
    }
    if 200 <= reply.code < 500 {
      RepliedForEver(states, acts, r, i);
      CachedForEver(states[1..], acts[1..], i, key, reply);
    } else {
      forall j | 0 <= j < i - 1 ensures !BeginsUnder(states[1..][j], acts[1..][j], key) {
        assert !BeginsUnder(states[j + 1], acts[j + 1], key);
      }
      FreeUntilNext(states[1..], acts[1..], i - 1, key);
    }
  }

  // ---- Keys that are never freed ---------------------------------------------

  /** Nobody is working on the key, and no reply was cached. */
  ghost predicate Abandoned(s: State, key: string) {
    key in s.store && !s.store[key].Cached? && forall r :: !Owns(s, r, key)
  }

  /** A key is abandoned exactly when a worker died, or a handler raised, while it owned the key. */
  lemma AbandonedExactlyWhen(s: State, key: string)
    requires Inv(s)
    ensures Abandoned(s, key) <==> exists r :: DiedOwning(s, r, key)
  {
    hide Closed, AtMostOneGood, CacheExplained, OwnersExplained, OneOwner, RecordsMatch;
    if Abandoned(s, key) {
      var r :| Owns(s, r, key) || DiedOwning(s, r, key);
      assert DiedOwning(s, r, key);
    }
  }

  /** The step that ends an owner's hold on its key frees the key exactly when it concludes a reply outside 200..499,
      caches exactly when it concludes any other reply, and abandons exactly when the owner dies. */
  lemma OwnerLeaves(s: State, a: Action, key: string)
    requires Inv(s) && Enabled(s, a) && Owns(s, a.rid, key) && !Owns(Perform(s, a), a.rid, key)
    ensures var u := Perform(s, a);
      && (key !in u.store <==> a.Advance? && !(200 <= s.calls[a.rid].pc.reply.code < 500))
      && (key in u.store && u.store[key].Cached? <==> a.Advance? && 200 <= s.calls[a.rid].pc.reply.code < 500)
      && (Abandoned(u, key) <==> a.Die?)
  {
    if a.Die? { DeathAbandons(s, a.rid, key); }
  }

  /** Nothing else ever frees a key. */
  lemma FreedExactlyWhen(s: State, a: Action, key: string)
    requires Inv(s) && Enabled(s, a) && key in s.store
    ensures key !in Perform(s, a).store
       <==> && a.Advance? && Owns(s, a.rid, key) && s.calls[a.rid].pc.Conclude?
            && !(200 <= s.calls[a.rid].pc.reply.code < 500)
  {
    hide Provenance, Closed, AtMostOneGood, CacheExplained, OwnersExplained, OneOwner, RecordsMatch;
  }

  /** An owner that dies before it concludes abandons the key. */
  lemma DeathAbandons(s: State, r: Rid, key: string)
    requires Inv(s) && Owns(s, r, key)
    ensures Abandoned(Perform(s, Die(r)), key)
  {
    hide Provenance, Closed, AtMostOneGood, CacheExplained, OwnersExplained;
    forall i ensures !Owns(Perform(s, Die(r)), i, key) {
      if i != r { OthersUnmoved(s, Die(r), i, key); }
    }
  }

  /** A run in which the handler of the only request raises and its key stays taken. */
  lemma RaisingHandlerAbandons(key: string) returns (states: seq<State>, acts: seq<Action>)
    ensures IsRun(states, acts) && states[0] == Start
    ensures acts == [Arrive(1, key), Advance(1), Advance(1), Die(1)]
    ensures Abandoned(states[|acts|], key)
  {
    acts := [Arrive(1, key), Advance(1), Advance(1), Die(1)];
    var s1 := Perform(Start, acts[0]);
    var s2 := Perform(s1, acts[1]);
    var s3 := Perform(s2, acts[2]);
    states := [Start, s1, s2, s3, Perform(s3, acts[3])];
  }

  lemma StaysAbandoned(s: State, a: Action, key: string)
    requires Enabled(s, a) && Abandoned(s, key)
    ensures Abandoned(Perform(s, a), key) && Perform(s, a).store[key] == s.store[key]
    ensures forall e :: e in Perform(s, a).completions && e.key == key ==> e in s.completions
    ensures a.Advance? && s.calls[a.rid].key == key ==>
      Perform(s, a).calls[a.rid].pc == if s.calls[a.rid].pc.Begin? then Lookup
                                       else Finished(if s.store[key] == Reserved then EmptyOk else Conflict)
  {
    var u := Perform(s, a);
    match a
    case Arrive(r, k) => forall i ensures !Owns(u, i, key) { assert !Owns(s, i, key); }
    case Return(r, _) => assert !Owns(s, r, key); forall i ensures !Owns(u, i, key) { assert !Owns(s, i, key); }
    case Die(r) => forall i ensures !Owns(u, i, key) { assert !Owns(s, i, key); }
    case Advance(r) => assert !Owns(s, r, key); forall i ensures !Owns(u, i, key) { assert !Owns(s, i, key); }
  }

  /** An abandoned key is never freed: no handler completes for it again, whatever is retried. */
  lemma {:induction false} AbandonedForEver(states: seq<State>, acts: seq<Action>, key: string, i: nat)
    requires IsRun(states, acts) && Abandoned(states[0], key) && i < |states|
    ensures Abandoned(states[i], key)
    ensures forall e :: e in states[i].completions && e.key == key ==> e in states[0].completions
    decreases i
  {
    hide Abandoned, Perform, Enabled;
    if i > 0 {
      AbandonedForEver(states, acts, key, i - 1);
      assert IsStep(states[i - 1], acts[i - 1], states[i]);
      StaysAbandoned(states[i - 1], acts[i - 1], key);
    }
  }

  /** A reply outside 200..499 does free it: the next request to begin reserves it. */
  lemma FailureFreesTheKey(s: State, r: Rid, q: Rid)
    requires Inv(s) && r in s.calls && s.calls[r].pc.Conclude?
    requires !(200 <= s.calls[r].pc.reply.code < 500)
    requires q in s.calls && s.calls[q] == Call(s.calls[r].key, Begin)
    ensures var u := Perform(s, Advance(r));
      s.calls[r].key !in u.store && Owns(Perform(u, Advance(q)), q, s.calls[r].key)
  { }

  // ---- The middleware as one request runs it ---------------------------------

  datatype HandlerOutcome = Returns(reply: Reply) | Raises

  /** What one request with no other in between leads to: what is stored, and the answer unless the handler raised. */
  ghost predicate Serves(before: Store, key: string, handler: HandlerOutcome, after: Store, answer: Answer,
                         raised: bool)
  {
    && (key in before ==> !raised && answer == LoserAnswer(before, key) && after == before)
    && (key !in before && handler.Raises? ==> raised && after == before[key := InProgress])
    && (key !in before && handler.Returns? ==>
          && !raised && answer == Own(handler.reply)
          && after == if 200 <= handler.reply.code < 500 then before[key := Cached(handler.reply)] else before)
  }

  class Redis {
    var store: Store

    constructor ()
      ensures store == map[]
    {
      store := map[];
    }

    method SetNx(key: string, record: Record) returns (reserved: bool)
      modifies this
      ensures reserved <==> key !in old(store)
      ensures store == if reserved then old(store)[key := record] else old(store)
    {
      reserved := key !in store;
      if reserved { store := store[key := record]; }
    }

    method SetXx(key: string, record: Record)
      modifies this
      ensures store == if key in old(store) then old(store)[key := record] else old(store)
    {
      if key in store { store := store[key := record]; }
    }

    method Delete(key: string)
      modifies this
      ensures store == old(store) - {key}
    {
      store := store - {key};
    }

    /** The middleware; `raised` when the handler's exception passes through it. */
    method Dispatch(key: string, handler: HandlerOutcome) returns (answer: Answer, raised: bool)
      modifies this
      ensures Serves(old(store), key, handler, store, answer, raised)
    {
      raised, answer := false, Conflict;
      var reserved := SetNx(key, Reserved);
      if !reserved {
        answer := LoserAnswer(store, key);
        return;
      }
      SetXx(key, InProgress);
      match handler {
        case Raises => raised := true;
        case Returns(reply) =>
          if Cacheable(reply) { SetXx(key, Cached(reply)); } else { Delete(key); }
          answer := Own(reply);
      }
    }
  }

  /** The steps of a request that nobody interleaves with. */
  function SoloSteps(s: State, r: Rid, handler: HandlerOutcome): seq<Action>
    requires r in s.calls
  {
    if s.calls[r].key in s.store then [Advance(r), Advance(r)]
    else match handler
      case Raises => [Advance(r), Advance(r), Die(r)]
      case Returns(reply) => [Advance(r), Advance(r), Return(r, reply), Advance(r)]
  }

  /** An undisturbed request of the protocol does what the middleware method does, whatever is stored under its key and
      however its handler ends. */
  lemma SoloRunIsDispatch(s: State, r: Rid, key: string, handler: HandlerOutcome) returns (states: seq<State>)
    requires r in s.calls && s.calls[r] == Call(key, Begin)
    ensures IsRun(states, SoloSteps(s, r, handler)) && states[0] == s
    ensures var u := states[|states| - 1];
      && r in u.calls && (u.calls[r].pc.Finished? || u.calls[r].pc == Dead(Handle))
      && Serves(s.store, key, handler, u.store,
                if u.calls[r].pc.Finished? then u.calls[r].pc.answer else Conflict, !u.calls[r].pc.Finished?)
  {
    var acts := SoloSteps(s, r, handler);
    var s1 := Perform(s, acts[0]);
    var s2 := Perform(s1, acts[1]);
    if key in s.store { return [s, s1, s2]; }
    assert s2.store == s.store[key := InProgress] && s2.calls[r] == Call(key, Handle);
    var s3 := Perform(s2, acts[2]);
    if handler.Raises? { return [s, s1, s2, s3]; }
    states := [s, s1, s2, s3, Perform(s3, acts[3])];
  }
}

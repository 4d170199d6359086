/** Confluence lifted to concurrent sessions: a batch of callbacks delivered in any interleaving, any number of
    times. */
module ConcurrentCallbacks {
  import opened Tables
  import opened Services
  import opened Invariants
  import opened Guarantees
  import opened Sessions
  import opened Refinement
  import opened System
  import opened Runs
  import opened Progress
  import Confluence

  function CallbackOf(req: Request): Confluence.Callback
    requires req.BankCallback?
  {
    Confluence.Callback(req.event, req.reference, req.amount)
  }

  ghost predicate CallbackCalls(calls: seq<Call>) {
    forall i :: 0 <= i < |calls| ==> calls[i].req.BankCallback?
  }

  ghost function Callbacks(calls: seq<Call>): seq<Confluence.Callback>
    requires CallbackCalls(calls)
  {
    seq(|calls|, i requires 0 <= i < |calls| => CallbackOf(calls[i].req))
  }

  lemma {:induction false} RunAppend(t: Tables, cs: seq<Confluence.Callback>, c: Confluence.Callback)
    ensures Confluence.Run(t, cs + [c]) == Confluence.Apply(Confluence.Run(t, cs), c)
    decreases cs
  {
    hide Confluence.Apply;
    if cs == [] {
      assert Confluence.Run(Confluence.Apply(t, c), []) == Confluence.Apply(t, c);
      assert ([] + [c])[1..] == [];
    } else {
      assert (cs + [c])[1..] == cs[1..] + [c];
      RunAppend(Confluence.Apply(t, cs[0]), cs[1..], c);
    }
  }

  /** Callbacks answered one by one are callbacks applied one by one. */
  lemma {:induction false} SequentialIsRun(t: Tables, calls: seq<Call>, u: Tables)
    requires CallbackCalls(calls) && Sequential(t, calls, u)
    ensures u == Confluence.Run(t, Callbacks(calls))
    decreases |calls|
  {
    hide CallbackStep;
    if calls != [] {
      var mid :| Sequential(t, Front(calls), mid) && Atomic(mid, Last(calls).req, u, Last(calls).response);
      SequentialIsRun(t, Front(calls), mid);
      RunAppend(t, Callbacks(Front(calls)), CallbackOf(Last(calls).req));
      assert Callbacks(calls) == Callbacks(Front(calls)) + [CallbackOf(Last(calls).req)];
    }
  }

  // ---- Runs that deliver callbacks -------------------------------------------

  /** The calls answered in the run are callbacks, and exactly those of `s`: each at least once, in any order and
      interleaving. Sessions may crash at any point, before or after they are answered, and some may never finish. */
  ghost predicate Delivers(db: Db, dbs: seq<Db>, acts: seq<Action>, s: set<Confluence.Callback>) {
    && IsRun(dbs, acts) && dbs[0] == db
    && CallbackCalls(History(dbs, acts)) && Confluence.Elements(Callbacks(History(dbs, acts))) == s
  }

  lemma DeliveryIsRun(db: Db, dbs: seq<Db>, acts: seq<Action>, s: set<Confluence.Callback>)
    requires DbInv(db) && Delivers(db, dbs, acts, s)
    ensures Last(dbs).tables == Confluence.Run(db.tables, Callbacks(History(dbs, acts)))
  {
    hide DbInv, IsStep, Sequential, Confluence.Run;
    RunIsSequential(dbs, acts);
    SequentialIsRun(db.tables, History(dbs, acts), Last(dbs).tables);
  }

  /** Two runs that deliver the same callbacks end in the same tables, if no payable payment is also reported failed and
      all payable payments fit together. */
  lemma InterleavingIsIrrelevant(db: Db, dbs: seq<Db>, acts: seq<Action>, others: seq<Db>, moves: seq<Action>,
                                 s: set<Confluence.Callback>)
    requires DbInv(db) && Delivers(db, dbs, acts, s) && Delivers(db, others, moves, s)
    requires Confluence.Payable(db.tables, s) !! Confluence.Declined(db.tables, s) && Confluence.AllFit(db.tables, s)
    ensures Confluence.SameUpToOrder(Last(dbs).tables, Last(others).tables)
  {
    hide IsStep, Confluence.Run, Confluence.AllFit, Confluence.Payable, Confluence.Declined, Confluence.SameUpToOrder;
    DeliveryIsRun(db, dbs, acts, s);
    DeliveryIsRun(db, others, moves, s);
    Confluence.OrderIrrelevant(db.tables, Callbacks(History(dbs, acts)), Callbacks(History(others, moves)));
  }

  // ---- Callbacks that are under way or arrive --------------------------------

  /** Session `i` is a callback on its way to an answer. */
  predicate Waits(db: Db, i: Sid, c: Confluence.Callback) {
    i in db.sessions && Live(db.sessions[i]) && db.sessions[i].req.BankCallback? && CallbackOf(db.sessions[i].req) == c
  }

  function Waiting(db: Db): set<Confluence.Callback> {
    set i | i in db.sessions && Live(db.sessions[i]) && db.sessions[i].req.BankCallback?
      :: CallbackOf(db.sessions[i].req)
  }

  function ArrivedNow(a: Action): set<Confluence.Callback> {
    if a.Arrive? && a.req.BankCallback? then {CallbackOf(a.req)} else {}
  }

  /** The callbacks under way in `db`, and those that arrive later. */
  function Offered(db: Db, acts: seq<Action>): set<Confluence.Callback> {
    if acts == [] then Waiting(db) else Offered(db, Front(acts)) + ArrivedNow(Last(acts))
  }

  /** Only callbacks are under way, and only callbacks arrive. */
  ghost predicate OnlyCallbacks(db: Db, acts: seq<Action>) {
    && (forall i :: i in db.sessions && Live(db.sessions[i]) ==> db.sessions[i].req.BankCallback?)
    && (forall i :: 0 <= i < |acts| && acts[i].Arrive? ==> acts[i].req.BankCallback?)
  }

  ghost predicate Answered(calls: seq<Call>, c: Confluence.Callback) {
    exists i :: 0 <= i < |calls| && calls[i].req.BankCallback? && CallbackOf(calls[i].req) == c
  }

  /** Whatever was or will be answered is an offered callback. */
  ghost predicate Accounted(db: Db, offered: set<Confluence.Callback>, calls: seq<Call>) {
    && (forall i :: 0 <= i < |calls| ==> calls[i].req.BankCallback? && CallbackOf(calls[i].req) in offered)
    && (forall i :: i in db.sessions && Live(db.sessions[i]) ==>
          db.sessions[i].req.BankCallback? && CallbackOf(db.sessions[i].req) in offered)
  }

  /** No offered callback is lost: it was answered or is still under way. */
  ghost predicate NoneLost(db: Db, offered: set<Confluence.Callback>, calls: seq<Call>) {
    forall c :: c in offered ==> Answered(calls, c) || exists i :: Waits(db, i, c)
  }

  /** What an action does to the other sessions and to its own, as far as answers go. */
  lemma SessionsAfter(db: Db, a: Action)
    requires DbInv(db) && Enabled(db, a)
    ensures var next := Perform(db, a);
      && next.sessions.Keys == db.sessions.Keys + {a.sid}
      && (forall i :: i in db.sessions && i != a.sid ==> next.sessions[i] == db.sessions[i])
      && (a.Arrive? ==> a.sid !in db.sessions && next.sessions[a.sid].req == a.req)
      && (!a.Arrive? ==> a.sid in db.sessions && next.sessions[a.sid].req == db.sessions[a.sid].req)
      && (a.Advance? && Live(db.sessions[a.sid]) ==> Live(next.sessions[a.sid]) || Answers(db, a, next))
      && (!a.Arrive? && Live(next.sessions[a.sid]) ==> Live(db.sessions[a.sid]))
      && (Answers(db, a, next) ==> Live(db.sessions[a.sid]))
  {
    hide Inv, Extends, SessionsOk, NoClashes, LocksDisjoint, ResponsesHold, MoveOf, SnapshotOk, WritesOnly, Atomic;
    if a.Advance? { AdvanceFacts(db, a.sid); }
  }

  lemma PerformAccounts(db: Db, a: Action, offered: set<Confluence.Callback>, calls: seq<Call>)
    requires DbInv(db) && Enabled(db, a) && (a.Arrive? ==> a.req.BankCallback?) && Accounted(db, offered, calls)
    ensures Accounted(Perform(db, a), offered + ArrivedNow(a), calls + NewCalls(db, a, Perform(db, a)))
  {
    hide DbInv, PcsOk, Enabled, Perform;
    DbInvPcs(db);
    SessionsAfter(db, a);
  }

  lemma PerformLosesNone(db: Db, a: Action, offered: set<Confluence.Callback>, calls: seq<Call>)
    requires DbInv(db) && Enabled(db, a) && !a.Crash? && NoneLost(db, offered, calls)
    ensures NoneLost(Perform(db, a), offered + ArrivedNow(a), calls + NewCalls(db, a, Perform(db, a)))
  {
    hide DbInv, PcsOk, Enabled;
    DbInvPcs(db);
    SessionsAfter(db, a);
    var next, more := Perform(db, a), calls + NewCalls(db, a, Perform(db, a));
    forall c | c in offered + ArrivedNow(a) ensures Answered(more, c) || exists i :: Waits(next, i, c) {
      if Answered(calls, c) {
        var k :| 0 <= k < |calls| && calls[k].req.BankCallback? && CallbackOf(calls[k].req) == c;
        assert more[k] == calls[k];
      } else if i :| Waits(db, i, c) {
        if i != a.sid || Live(next.sessions[i]) { assert Waits(next, i, c); }
        else { assert more[|calls|].req == db.sessions[i].req; }
      } else {
        assert Waits(next, a.sid, c);
      }
    }
  }

  lemma {:induction false} RunAccounts(dbs: seq<Db>, acts: seq<Action>)
    requires IsRun(dbs, acts) && DbInv(dbs[0]) && OnlyCallbacks(dbs[0], acts)
    ensures Accounted(Last(dbs), Offered(dbs[0], acts), History(dbs, acts))
    ensures (forall i :: 0 <= i < |acts| ==> !acts[i].Crash?) ==>
              NoneLost(Last(dbs), Offered(dbs[0], acts), History(dbs, acts))
    decreases |acts|
  {
    hide DbInv, PcsOk, Enabled, Perform, NewCalls, Accounted, NoneLost, Waiting;
    if acts == [] {
      NothingYet(dbs[0]);
    } else {
      var n := |acts| - 1;
      assert IsStep(dbs[n], Last(acts), dbs[n + 1]);
      PrefixIsRun(dbs, acts);
      RunAccounts(Front(dbs), Front(acts));
      RunExtends(Front(dbs), Front(acts));
      var offered, calls := Offered(dbs[0], Front(acts)), History(Front(dbs), Front(acts));
      PerformAccounts(dbs[n], Last(acts), offered, calls);
      if forall i :: 0 <= i < |acts| ==> !acts[i].Crash? {
        forall i | 0 <= i < n ensures !Front(acts)[i].Crash? { assert acts[i] == Front(acts)[i]; }
        PerformLosesNone(dbs[n], Last(acts), offered, calls);
      }
    }
  }

  lemma NothingYet(db: Db)
    requires OnlyCallbacks(db, [])
    ensures Accounted(db, Waiting(db), []) && NoneLost(db, Waiting(db), [])
  {
    forall c | c in Waiting(db) ensures exists i :: Waits(db, i, c) {
      var i :| i in db.sessions && Live(db.sessions[i]) && db.sessions[i].req.BankCallback?
               && CallbackOf(db.sessions[i].req) == c;
      assert Waits(db, i, c);
    }
  }

  /** A bank that keeps delivering until each of its callbacks has been answered once has delivered them, whatever
      crashes meanwhile. */
  lemma AnsweredIsDelivered(dbs: seq<Db>, acts: seq<Action>)
    requires IsRun(dbs, acts) && DbInv(dbs[0]) && OnlyCallbacks(dbs[0], acts)
    requires forall c :: c in Offered(dbs[0], acts) ==> Answered(History(dbs, acts), c)
    ensures Delivers(dbs[0], dbs, acts, Offered(dbs[0], acts))
  {
    hide DbInv, IsStep, OnlyCallbacks, Offered;
    RunAccounts(dbs, acts);
    var calls := History(dbs, acts);
    var cs := Callbacks(calls);
    forall c | c in Offered(dbs[0], acts) ensures c in cs {
      var i :| 0 <= i < |calls| && calls[i].req.BankCallback? && CallbackOf(calls[i].req) == c;
      assert cs[i] == c;
    }
    forall c | c in cs ensures c in Offered(dbs[0], acts) {
      var i :| 0 <= i < |cs| && cs[i] == c;
      assert CallbackOf(calls[i].req) in Offered(dbs[0], acts);
    }
  }

  /** When nothing crashes and all sessions have finished, every callback has been answered. */
  lemma FinishedIsDelivered(dbs: seq<Db>, acts: seq<Action>)
    requires IsRun(dbs, acts) && DbInv(dbs[0]) && OnlyCallbacks(dbs[0], acts)
    requires AllFinished(Last(dbs)) && forall i :: 0 <= i < |acts| ==> !acts[i].Crash?
    ensures Delivers(dbs[0], dbs, acts, Offered(dbs[0], acts))
  {
    hide DbInv, IsStep, OnlyCallbacks, Offered, Delivers;
    RunAccounts(dbs, acts);
    AnsweredIsDelivered(dbs, acts);
  }

  // ---- Any order of callbacks is some run ------------------------------------

  lemma {:induction false} RepeatedIsOnce(t: Tables, c: Confluence.Callback, cs: seq<Confluence.Callback>)
    requires Inv(t) && forall d :: d in cs ==> d == c
    ensures Confluence.Run(t, cs) == if cs == [] then t else Confluence.Apply(t, c)
    decreases cs
  {
    hide Confluence.Apply, Inv;
    if cs != [] {
      assert cs[0] in cs && forall d :: d in cs[1..] ==> d in cs;
      var u := Confluence.Apply(t, c);
      Confluence.ApplyKeeps(t, c);
      Confluence.ApplyIdempotent(t, c);
      RepeatedIsOnce(u, c, cs[1..]);
    }
  }

  lemma FreshSid(used: set<Sid>) returns (sid: Sid)
    ensures sid !in used && forall i :: i in used ==> i < sid
    decreases used
  {
    sid := 0;
    if used != {} {
      var i :| i in used;
      var rest := FreshSid(used - {i});
      sid := if i < rest then rest else i + 1;
      assert used == used - {i} + {i};
    }
  }

  /** One run after another. */
  function Then(dbs: seq<Db>, more: seq<Db>): seq<Db>
    requires dbs != []
  {
    Front(dbs) + more
  }

  lemma {:induction false} RunThen(dbs: seq<Db>, acts: seq<Action>, more: seq<Db>, moves: seq<Action>)
    requires IsRun(dbs, acts) && IsRun(more, moves) && Last(dbs) == more[0]
    ensures IsRun(Then(dbs, more), acts + moves) && Then(dbs, more)[0] == dbs[0]
    ensures Last(Then(dbs, more)) == Last(more)
    ensures History(Then(dbs, more), acts + moves) == History(dbs, acts) + History(more, moves)
    decreases |moves|
  {
    hide IsStep, NewCalls;
    var all, steps := Then(dbs, more), acts + moves;
    forall i | 0 <= i < |steps| ensures IsStep(all[i], steps[i], all[i + 1]) {
      if i < |acts| {
        assert IsStep(dbs[i], acts[i], dbs[i + 1]) && all[i + 1] == dbs[i + 1];
      } else {
        assert IsStep(more[i - |acts|], moves[i - |acts|], more[i - |acts| + 1]);
      }
    }
    if moves == [] {
      assert dbs == Front(dbs) + [more[0]] && more == [more[0]];
      assert all == dbs && steps == acts;
    } else {
      PrefixIsRun(more, moves);
      RunThen(dbs, acts, Front(more), Front(moves));
      assert Front(all) == Then(dbs, Front(more)) && Front(steps) == acts + Front(moves);
    }
  }

  /** One callback delivered to a quiet system by a session that nothing disturbs. */
  lemma DeliverOne(db: Db, c: Confluence.Callback) returns (dbs: seq<Db>, acts: seq<Action>)
    requires DbInv(db) && AllFinished(db)
    ensures Delivers(db, dbs, acts, {c}) && DbInv(Last(dbs)) && AllFinished(Last(dbs))
    ensures Last(dbs).tables == Confluence.Apply(db.tables, c)
  {
    hide DbInv, PcsOk, Enabled, Perform, Confluence.Apply, Confluence.Run, Delivers;
    var sid := FreshSid(db.sessions.Keys);
    var a := Arrive(sid, BankCallback(c.event, c.reference, c.amount), false);
    CallbackMayArrive(db, a);
    var next := Perform(db, a);
    PerformKeepsInv(db, a);
    var rest, moves := EveryBatchFinishes(next);
    dbs, acts := Then([db, next], rest), [a] + moves;
    RunThen([db, next], [a], rest, moves);
    OneOffered(db, a, moves);
    assert Offered(db, acts) == {c};
    FinishedIsDelivered(dbs, acts);
    RunExtends(dbs, acts);
    DeliveryIsRun(db, dbs, acts, {c});
    OnlyOne(db, dbs, acts, c);
  }

  lemma OnlyOne(db: Db, dbs: seq<Db>, acts: seq<Action>, c: Confluence.Callback)
    requires DbInv(db) && Delivers(db, dbs, acts, {c})
    ensures Confluence.Run(db.tables, Callbacks(History(dbs, acts))) == Confluence.Apply(db.tables, c)
  {
    hide Confluence.Run, Confluence.Apply, IsStep;
    var cs := Callbacks(History(dbs, acts));
    forall d | d in cs ensures d == c { assert d in Confluence.Elements(cs); }
    assert c in Confluence.Elements(cs);
    RepeatedIsOnce(db.tables, c, cs);
  }

  lemma CallbackMayArrive(db: Db, a: Action)
    requires DbInv(db) && a.Arrive? && a.req.BankCallback? && a.sid !in db.sessions
    ensures PcsOk(db) && Enabled(db, a)
  { }

  lemma {:induction false} OneOffered(db: Db, a: Action, moves: seq<Action>)
    requires AllFinished(db) && a.Arrive? && a.req.BankCallback? && forall i :: 0 <= i < |moves| ==> moves[i].Advance?
    ensures OnlyCallbacks(db, [a] + moves) && Offered(db, [a] + moves) == {CallbackOf(a.req)}
    decreases |moves|
  {
    var acts := [a] + moves;
    if moves == [] {
      assert Front(acts) == [] && Waiting(db) == {};
    } else {
      assert Front(acts) == [a] + Front(moves);
      OneOffered(db, a, Front(moves));
    }
  }

  lemma {:induction false} DeliverAll(db: Db, cs: seq<Confluence.Callback>) returns (dbs: seq<Db>, acts: seq<Action>)
    requires DbInv(db) && AllFinished(db)
    ensures Delivers(db, dbs, acts, Confluence.Elements(cs)) && DbInv(Last(dbs)) && AllFinished(Last(dbs))
    ensures Last(dbs).tables == Confluence.Run(db.tables, cs)
    decreases |cs|
  {
    hide DbInv, Confluence.Apply, AllFinished;
    if cs == [] { return [db], []; }
    var first, begin := DeliverOne(db, cs[0]);
    var rest, moves := DeliverAll(Last(first), cs[1..]);
    RunThen(first, begin, rest, moves);
    dbs, acts := Then(first, rest), begin + moves;
    Together(History(first, begin), History(rest, moves));
    assert Confluence.Elements(cs) == {cs[0]} + Confluence.Elements(cs[1..]);
  }

  lemma Together(calls: seq<Call>, more: seq<Call>)
    requires CallbackCalls(calls) && CallbackCalls(more)
    ensures CallbackCalls(calls + more) && Callbacks(calls + more) == Callbacks(calls) + Callbacks(more)
    ensures Confluence.Elements(Callbacks(calls + more))
         == Confluence.Elements(Callbacks(calls)) + Confluence.Elements(Callbacks(more))
  { }

  /** Any state becomes quiet, its tables untouched, when all its sessions crash. */
  lemma {:induction false} CrashAll(db: Db) returns (dbs: seq<Db>, acts: seq<Action>)
    requires DbInv(db)
    ensures IsRun(dbs, acts) && dbs[0] == db && DbInv(Last(dbs)) && AllFinished(Last(dbs))
    ensures Last(dbs).tables == db.tables && History(dbs, acts) == []
    decreases Measure(db)
  {
    hide DbInv, Measure;
    if AllFinished(db) { return [db], []; }
    var sid :| sid in db.sessions && !IsFinished(db.sessions[sid]);
    var a := Crash(sid);
    DbInvPcs(db);
    var next := Perform(db, a);
    PerformKeepsInv(db, a);
    MeasureBounds(next);
    ActionDrops(db, a);
    var rest, moves := CrashAll(next);
    assert History([db, next], [a]) == [];
    RunThen([db, next], [a], rest, moves);
    dbs, acts := Then([db, next], rest), [a] + moves;
  }

  lemma Deliverable(db: Db, cs: seq<Confluence.Callback>) returns (dbs: seq<Db>, acts: seq<Action>)
    requires DbInv(db)
    ensures Delivers(db, dbs, acts, Confluence.Elements(cs)) && Last(dbs).tables == Confluence.Run(db.tables, cs)
  {
    hide DbInv, AllFinished, Confluence.Run;
    var quiet, crashes := CrashAll(db);
    var rest, moves := DeliverAll(Last(quiet), cs);
    RunThen(quiet, crashes, rest, moves);
    dbs, acts := Then(quiet, rest), crashes + moves;
    assert [] + History(rest, moves) == History(rest, moves);
  }

  lemma {:induction false} Listing(s: set<Confluence.Callback>) returns (cs: seq<Confluence.Callback>)
    ensures Confluence.Elements(cs) == s
    decreases s
  {
    cs := [];
    if s != {} {
      var c :| c in s;
      var rest := Listing(s - {c});
      cs := [c] + rest;
      forall d ensures d in cs <==> d in s { assert d in rest <==> d in Confluence.Elements(rest); }
    }
  }

  /** From any reachable state, the tables after a set of callbacks has been delivered are the same for all runs exactly
      when no payable payment is also reported failed and all payable payments fit together; otherwise two runs end with
      different transactions. */
  lemma InterleavingIrrelevantExactlyWhen(db: Db, s: set<Confluence.Callback>)
    requires DbInv(db)
    ensures
      if Confluence.Payable(db.tables, s) !! Confluence.Declined(db.tables, s) && Confluence.AllFit(db.tables, s)
      then forall dbs, acts, others, moves :: Delivers(db, dbs, acts, s) && Delivers(db, others, moves, s) ==>
             Confluence.SameUpToOrder(Last(dbs).tables, Last(others).tables)
      else exists dbs, acts, others, moves ::
             Delivers(db, dbs, acts, s) && Delivers(db, others, moves, s)
             && Last(dbs).tables.transactions != Last(others).tables.transactions
  {
    hide IsStep, Confluence.Run, Confluence.AllFit, Confluence.Payable, Confluence.Declined, Confluence.SameUpToOrder;
    if Confluence.Payable(db.tables, s) !! Confluence.Declined(db.tables, s) && Confluence.AllFit(db.tables, s) {
      forall dbs, acts, others, moves | Delivers(db, dbs, acts, s) && Delivers(db, others, moves, s)
        ensures Confluence.SameUpToOrder(Last(dbs).tables, Last(others).tables)
      {
        InterleavingIsIrrelevant(db, dbs, acts, others, moves, s);
      }
    } else {
      var cs := Listing(s);
      Confluence.OrderIrrelevantExactlyWhen(db.tables, cs);
      var ds :| multiset(ds) == multiset(cs)
                && Confluence.Run(db.tables, ds).transactions != Confluence.Run(db.tables, cs).transactions;
      SameElements(cs, ds);
      var dbs, acts := Deliverable(db, cs);
      var others, moves := Deliverable(db, ds);
    }
  }

  lemma SameElements(cs: seq<Confluence.Callback>, ds: seq<Confluence.Callback>)
    requires multiset(cs) == multiset(ds)
    ensures Confluence.Elements(cs) == Confluence.Elements(ds)
  {
    forall c ensures c in cs <==> c in ds { assert c in multiset(cs) <==> c in multiset(ds); }
  }
}

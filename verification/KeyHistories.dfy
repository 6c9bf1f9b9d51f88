// The key histories a hub holds, of its registered agents and of those that left
// (internal/aghub/aghub.go, deregister.go, kelpush.go).
module KeyHistories {
  import opened Basics

  type Aid = nat

  // An event of a key history, by its digest; a deactivation ends it.
  datatype Event = Event(digest: nat, deactivation: bool)

  // A history that replays has at least its inception.
  type Kel = k: seq<Event> | |k| > 0 witness [Event(0, false)]

  // departed is the tombstones, which stay when an agent comes back.
  datatype Rows = Rows(agents: map<Aid, Kel>, departed: map<Aid, Kel>)

  datatype Outcome =
    | Done | Unchanged
    | NotExtended | NotRegistered | NoHistory | NewEventsRefused | TombstoneShrinks | DeregisteredMeanwhile

  // ExtendsKEL.
  predicate Extends(old_: Kel, new_: Kel) {
    old_ <= new_
  }

  // knownKEL: the registered history, else the tombstone.
  function Known(s: Rows, aid: Aid): Option<Kel> {
    if aid in s.agents then Some(s.agents[aid])
    else if aid in s.departed then Some(s.departed[aid])
    else None
  }

  // writeTombstone, inside a transaction: refused when it would lose events.
  function Tombstoned(s: Rows, aid: Aid, kel: Kel): Option<Rows> {
    if aid in s.departed && !Extends(s.departed[aid], kel) then None
    else Some(s.(departed := s.departed[aid := kel]))
  }

  // DeregisterTx.
  function Left(s: Rows, aid: Aid): (Outcome, Rows) {
    if aid !in s.agents then (NotRegistered, s)
    else
      match Tombstoned(s, aid, s.agents[aid])
      case None => (TombstoneShrinks, s)
      case Some(t) => (Done, t.(agents := t.agents - {aid}))
  }

  // putAgent, for a registration. onlyIfRegistered is whether it was let past the
  // admission gate because the agent was registered.
  function Put(s: Rows, aid: Aid, kel: Kel, onlyIfRegistered: bool): (Outcome, Rows) {
    if Known(s, aid).Some? && !Extends(Known(s, aid).value, kel) then (NotExtended, s)
    else if onlyIfRegistered && aid !in s.agents then (DeregisteredMeanwhile, s)
    else (Done, s.(agents := s.agents[aid := kel]))
  }

  // PushKEL; inTime is what CheckNewEvents says of the new events.
  function Pushed(s: Rows, aid: Aid, kel: Kel, inTime: bool): (Outcome, Rows) {
    if Known(s, aid).None? then (NoHistory, s)
    else if !Extends(Known(s, aid).value, kel) then (NotExtended, s)
    else if |kel| == |Known(s, aid).value| then (Unchanged, s)
    else if !inTime then (NewEventsRefused, s)
    else if aid in s.agents then
      var t := s.(agents := s.agents[aid := kel]);
      if !kel[|kel| - 1].deactivation then (Done, t)
      else
        var (outcome, u) := Left(t, aid);
        if outcome.Done? then (Done, u) else (outcome, s)
    else
      match Tombstoned(s, aid, kel)
      case None => (TombstoneShrinks, s)
      case Some(t) => (Done, t)
  }

  // ---- what is kept ----

  ghost predicate TombstonesBehind(s: Rows) {
    forall aid :: aid in s.agents && aid in s.departed ==> Extends(s.departed[aid], s.agents[aid])
  }

  // What is held of aid only ever grows.
  predicate Grows(s: Rows, t: Rows, aid: Aid) {
    Known(s, aid).Some? ==> Known(t, aid).Some? && Extends(Known(s, aid).value, Known(t, aid).value)
  }

  datatype Op =
    | Register(aid: Aid, kel: Kel, onlyIfRegistered: bool)
    | Push(aid: Aid, kel: Kel, inTime: bool)
    | Deregister(aid: Aid)

  // Self-deregistration, a revocation, an operator's removal and the inactive sweep
  // are all Deregister.
  function Step(s: Rows, op: Op): (Outcome, Rows) {
    match op
    case Register(aid, kel, only) => Put(s, aid, kel, only)
    case Push(aid, kel, inTime) => Pushed(s, aid, kel, inTime)
    case Deregister(aid) => Left(s, aid)
  }

  function Run(s: Rows, ops: seq<Op>): Rows
    decreases |ops|
  {
    if ops == [] then s else Run(Step(s, ops[0]).1, ops[1..])
  }

  lemma LeftKeeps(s: Rows, aid: Aid)
    requires TombstonesBehind(s)
    ensures var (outcome, t) := Left(s, aid);
            TombstonesBehind(t) && outcome != TombstoneShrinks && (forall a :: Grows(s, t, a))
  {
  }

  lemma PushedKeeps(s: Rows, aid: Aid, kel: Kel, inTime: bool)
    requires TombstonesBehind(s)
    ensures var (outcome, t) := Pushed(s, aid, kel, inTime);
            TombstonesBehind(t) && outcome != TombstoneShrinks && (forall a :: Grows(s, t, a))
  {
  }

  lemma StepKeeps(s: Rows, op: Op)
    requires TombstonesBehind(s)
    ensures TombstonesBehind(Step(s, op).1)
    ensures Step(s, op).0 != TombstoneShrinks
    ensures forall a :: Grows(s, Step(s, op).1, a)
  {
    match op
    case Register(aid, kel, only) =>
    case Push(aid, kel, inTime) => PushedKeeps(s, aid, kel, inTime);
    case Deregister(aid) => LeftKeeps(s, aid);
  }

  lemma {:induction false} RunKeeps(s: Rows, ops: seq<Op>, aid: Aid)
    requires TombstonesBehind(s)
    ensures TombstonesBehind(Run(s, ops)) && Grows(s, Run(s, ops), aid)
    decreases |ops|
  {
    if ops != [] {
      StepKeeps(s, ops[0]);
      assert Grows(s, Step(s, ops[0]).1, aid);
      RunKeeps(Step(s, ops[0]).1, ops[1..], aid);
    }
  }

  lemma {:induction false} RunMore(s: Rows, ops: seq<Op>, more: seq<Op>)
    ensures Run(s, ops + more) == Run(Run(s, ops), more)
    decreases |ops|
  {
    if ops == [] {
      assert ops + more == more;
    } else {
      assert (ops + more)[1..] == ops[1..] + more;
      RunMore(Step(s, ops[0]).1, ops[1..], more);
    }
  }

  // ---- the promises ----

  const EMPTY := Rows(map[], map[])

  // Between any two points of a run, leaving and coming back included, what is held of
  // an AID is kept or extended; a tombstone is always a prefix of the history of an
  // agent registered beside it.
  lemma HistoriesOnlyExtend(ops: seq<Op>, more: seq<Op>, aid: Aid)
    ensures Grows(Run(EMPTY, ops), Run(EMPTY, ops + more), aid)
    ensures TombstonesBehind(Run(EMPTY, ops))
  {
    RunMore(EMPTY, ops, more);
    RunKeeps(EMPTY, ops, aid);
    RunKeeps(Run(EMPTY, ops), more, aid);
  }

  // What is held is the registered history, else what the agent left with.
  lemma HeldIs(s: Rows, aid: Aid)
    ensures aid in s.agents ==> Known(s, aid) == Some(s.agents[aid])
    ensures aid !in s.agents && aid in s.departed ==> Known(s, aid) == Some(s.departed[aid])
    ensures aid !in s.agents && aid !in s.departed ==> Known(s, aid).None?
  {
  }

  // So a deregistration never finds a tombstone it would shrink.
  lemma TombstoneNeverShrinks(ops: seq<Op>, op: Op)
    ensures Step(Run(EMPTY, ops), op).0 != TombstoneShrinks
  {
    RunKeeps(EMPTY, ops, 0);
    StepKeeps(Run(EMPTY, ops), op);
  }

  // A registration's history is taken exactly when it extends what is held, and a pushed
  // one exactly when it is longer, too, and its new events are in time; then it is what is
  // held, and otherwise nothing changes.
  lemma TakenExactlyWhenItExtends(ops: seq<Op>, op: Op)
    requires op.Register? || op.Push?
    ensures var s := Run(EMPTY, ops); var (outcome, t) := Step(s, op); var held := Known(s, op.aid);
            && (outcome.Done? <==>
                  && (held.Some? ==> Extends(held.value, op.kel))
                  && (op.Register? && op.onlyIfRegistered ==> op.aid in s.agents)
                  && (op.Push? ==> held.Some? && |held.value| < |op.kel| && op.inTime))
            && (if outcome.Done? then Known(t, op.aid) == Some(op.kel) else t == s)
  {
    TombstoneNeverShrinks(ops, op);
  }

  // What is held of everyone but aid is the same.
  predicate OnlyOf(s: Rows, t: Rows, aid: Aid) {
    t.agents - {aid} == s.agents - {aid} && t.departed - {aid} == s.departed - {aid}
  }

  // A deregistration is done exactly when there is an agent to deregister: then the agent is
  // gone, and its whole history is the tombstone. Otherwise nothing changes.
  lemma LeavingIsExact(ops: seq<Op>, aid: Aid)
    ensures var s := Run(EMPTY, ops); var (outcome, t) := Step(s, Deregister(aid));
            && (outcome.Done? <==> aid in s.agents)
            && (if outcome.Done? then
                  && aid !in t.agents && aid in t.departed && t.departed[aid] == s.agents[aid] && OnlyOf(s, t, aid)
                else t == s && outcome == NotRegistered)
  {
    TombstoneNeverShrinks(ops, Deregister(aid));
  }

  // A registration that is taken leaves the agent registered under its history, and a
  // tombstone, if there was one, as it was.
  lemma RegisteringIsExact(ops: seq<Op>, aid: Aid, kel: Kel, only: bool)
    ensures var s := Run(EMPTY, ops); var (outcome, t) := Step(s, Register(aid, kel, only));
            if outcome.Done? then
              aid in t.agents && t.agents[aid] == kel && t.departed == s.departed && OnlyOf(s, t, aid)
            else
              && t == s
              && var forks := Known(s, aid).Some? && !Extends(Known(s, aid).value, kel);
                 outcome == if forks then NotExtended else DeregisteredMeanwhile
  {
  }

  // A pushed history that is taken is the registered one, unless it ends in a deactivation:
  // then the agent is gone, and it is the tombstone; as it is of one that left before. No
  // push registers anybody.
  lemma PushingIsExact(ops: seq<Op>, aid: Aid, kel: Kel, inTime: bool)
    ensures var s := Run(EMPTY, ops); var (outcome, t) := Step(s, Push(aid, kel, inTime));
            if outcome.Done? then
              && OnlyOf(s, t, aid)
              && (aid in t.agents <==> aid in s.agents && !kel[|kel| - 1].deactivation)
              && (if aid in t.agents then t.agents[aid] == kel && t.departed == s.departed
                  else aid in t.departed && t.departed[aid] == kel)
            else
              && t == s
              && outcome ==
                   if aid !in s.agents && aid !in s.departed then NoHistory
                   else if !Extends(Known(s, aid).value, kel) then NotExtended
                   else if kel == Known(s, aid).value then Unchanged
                   else NewEventsRefused
  {
    RunKeeps(EMPTY, ops, aid);
    PushedKeeps(Run(EMPTY, ops), aid, kel, inTime);
  }

  // So an agent that leaves and comes back does so with its old history or a longer one: any
  // registration taken after it left extends what it left with.
  lemma ComesBackWithItsHistory(ops: seq<Op>, aid: Aid, between: seq<Op>, kel: Kel, only: bool)
    requires aid in Run(EMPTY, ops).agents
    requires Step(Run(EMPTY, ops + [Deregister(aid)] + between), Register(aid, kel, only)).0.Done?
    ensures Extends(Run(EMPTY, ops).agents[aid], kel)
  {
    var s := Run(EMPTY, ops);
    LeavingIsExact(ops, aid);
    RunMore(EMPTY, ops, [Deregister(aid)]);
    RunMore(EMPTY, ops + [Deregister(aid)], between);
    RunKeeps(EMPTY, ops, aid);
    StepKeeps(s, Deregister(aid));
    RunKeeps(Step(s, Deregister(aid)).1, between, aid);
  }

  // And of two histories this hub ever took for one AID, however far apart and
  // whatever happened in between, one extends the other.
  lemma NoForkEverTaken(ops: seq<Op>, first: Op, between: seq<Op>, second: Op)
    requires (first.Register? || first.Push?) && (second.Register? || second.Push?) && first.aid == second.aid
    requires Step(Run(EMPTY, ops), first).0.Done?
    requires Step(Run(EMPTY, ops + [first] + between), second).0.Done?
    ensures Extends(first.kel, second.kel)
  {
    var s := Run(EMPTY, ops);
    var t := Step(s, first).1;
    RunMore(EMPTY, ops, [first]);
    RunMore(EMPTY, ops + [first], between);
    RunKeeps(EMPTY, ops, first.aid);
    StepKeeps(s, first);
    TakenIsKnown(s, first);
    RunKeeps(t, between, first.aid);
  }

  lemma TakenIsKnown(s: Rows, op: Op)
    requires (op.Register? || op.Push?) && Step(s, op).0.Done?
    ensures Known(Step(s, op).1, op.aid) == Some(op.kel)
  {
  }

  // ---- the statements ----

  class Store {
    var agents: map<Aid, Kel>
    var departed: map<Aid, Kel>

    function View(): Rows
      reads this
    {
      Rows(agents, departed)
    }

    constructor ()
      ensures View() == EMPTY && TombstonesBehind(View())
    {
      agents, departed := map[], map[];
    }

    method WriteTombstone(aid: Aid, kel: Kel) returns (ok: bool)
      modifies `departed
      ensures ok <==> Tombstoned(old(View()), aid, kel).Some?
      ensures ok ==> View() == Tombstoned(old(View()), aid, kel).value
      ensures !ok ==> View() == old(View())
    {
      if aid in departed && !(departed[aid] <= kel) {
        return false;
      }
      departed := departed[aid := kel];
      return true;
    }

    method Deregister(aid: Aid) returns (outcome: Outcome)
      requires TombstonesBehind(View())
      modifies this
      ensures (outcome, View()) == Left(old(View()), aid)
      ensures if aid in old(agents) then
                outcome.Done? && agents == old(agents) - {aid} && departed == old(departed)[aid := old(agents)[aid]]
              else outcome == NotRegistered && View() == old(View())
      ensures TombstonesBehind(View()) && outcome != TombstoneShrinks
      ensures forall a :: Grows(old(View()), View(), a)
    {
      LeftKeeps(View(), aid);
      hide TombstonesBehind, Grows;
      if aid !in agents {
        return NotRegistered;
      }
      var ok := WriteTombstone(aid, agents[aid]);
      if !ok {
        return TombstoneShrinks;
      }
      agents := agents - {aid};
      return Done;
    }

    method PutAgent(aid: Aid, kel: Kel, onlyIfRegistered: bool) returns (outcome: Outcome)
      requires TombstonesBehind(View())
      modifies this
      ensures (outcome, View()) == Put(old(View()), aid, kel, onlyIfRegistered)
      ensures TombstonesBehind(View()) && outcome != TombstoneShrinks
      ensures forall a :: Grows(old(View()), View(), a)
    {
      StepKeeps(View(), Op.Register(aid, kel, onlyIfRegistered));
      hide TombstonesBehind, Grows;
      var held := Known(View(), aid);
      if held.Some? && !Extends(held.value, kel) {
        return NotExtended;
      }
      var existed := aid in agents;
      var tx := agents[aid := kel];
      if onlyIfRegistered && !existed {
        return DeregisteredMeanwhile;
      }
      agents := tx;
      return Done;
    }

    // A transaction that is rolled back leaves the tables as they were: on a store that
    // keeps tombstones behind, none is.
    method PushKEL(aid: Aid, kel: Kel, inTime: bool) returns (outcome: Outcome)
      requires TombstonesBehind(View())
      modifies this
      ensures (outcome, View()) == Pushed(old(View()), aid, kel, inTime)
      ensures TombstonesBehind(View()) && outcome != TombstoneShrinks
      ensures forall a :: Grows(old(View()), View(), a)
    {
      PushedKeeps(View(), aid, kel, inTime);
      var registered := aid in agents;
      if !registered && aid !in departed {
        return NoHistory;
      }
      var held := if registered then agents[aid] else departed[aid];
      if !Extends(held, kel) {
        return NotExtended;
      }
      if |kel| == |held| {
        return Unchanged;
      }
      if !inTime {
        return NewEventsRefused;
      }
      if registered {
        agents := agents[aid := kel];
        if kel[|kel| - 1].deactivation {
          outcome := Deregister(aid);
          return outcome;
        }
        return Done;
      }
      var ok := WriteTombstone(aid, kel);
      return if ok then Done else TombstoneShrinks;
    }
  }
}

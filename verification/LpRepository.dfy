/**
 * The repository's own loops over the shared collections (flex/db/lp_projection.py,
 * flex/data/lp_states.py, flex/sync_pools.py). Between any two operations on the
 * collections the other workers may do whatever `env` says.
 */
module LpRepository {
  import opened Wrappers
  import opened LpDomain
  import opened LpWorld
  import opened LpProtocol
  import opened LpSafety
  import opened SyncCoordinator
  import LpSequential
  import EventIds

  /** What the other workers make of the collections at this worker's n-th pause. */
  type Env = (Db, nat) -> Db

  ghost predicate OnChain(w: World, c: Cursor) {
    c.AtEvent? ==> IsEvent(w, c.round, c.rank)
  }

  /** Stored cursors are cursors of the chain. */
  ghost predicate CursorsWithin(w: World, db: Db) {
    forall p | p in db.states && db.states[p].cursor.Some? :: OnChain(w, db.states[p].cursor.value)
  }

  /** States are never deleted and their cursors never go back. */
  ghost predicate CursorsGrow(db: Db, db': Db) {
    forall p | p in db.states ::
      p in db'.states && (db.states[p].cursor.Some? ==> CursorReaches(db', p, db.states[p].cursor.value))
  }

  /** The least that the others must respect for the retry loop to end. */
  ghost predicate Monotone(w: World, env: Env) {
    forall d: Db, n: nat | CursorsWithin(w, d) :: CursorsWithin(w, env(d, n)) && CursorsGrow(d, env(d, n))
  }

  /** The others are workers of the protocol: what they do is what `LpSafety.StepKeeps` allows. */
  ghost predicate Obeys(w: World, env: Env)
    requires Tracked(w)
  {
    forall d: Db, n: nat | DbInv(w, d) :: DbInv(w, env(d, n)) && Evolves(w, d, env(d, n))
  }

  /** Everybody, this worker included, follows the protocol. */
  ghost predicate Disciplined(w: World, env: Env, db: Db, l: Local) {
    ValidWorld(w) && Obeys(w, env) && DbInv(w, db) && LocalInv(w, db, l)
  }

  /** A disciplined run that began at `start` has come to this point. */
  ghost predicate OnTrack(w: World, env: Env, start: Db, db: Db, l: Local) {
    Disciplined(w, env, db, l) && Evolves(w, start, db)
  }

  lemma PauseKeeps(w: World, env: Env, start: Db, db: Db, n: nat, l: Local)
    requires OnTrack(w, env, start, db, l)
    ensures OnTrack(w, env, start, env(db, n), l)
  {
    Stable(w, db, env(db, n), l);
    EvolvesTransitive(w, start, db, env(db, n));
  }

  /** A pause and then one operation of the projection. */
  lemma PausedStep(w: World, env: Env, start: Db, db: Db, n: nat, r: nat, i: nat, pc: Pc)
    requires IsEvent(w, r, i) && OnTrack(w, env, start, db, Projecting(r, i, pc))
    ensures OnTrack(w, env, start, env(db, n), Projecting(r, i, pc))
    ensures var (db', l') := ProjectNext(w.block(r)[i], env(db, n), r, i, pc);
            OnTrack(w, env, start, db', l')
  {
    PauseKeeps(w, env, start, db, n, Projecting(r, i, pc));
    ProjectKeeps(w, env(db, n), r, i, pc);
    EvolvesTransitive(w, start, env(db, n), ProjectNext(w.block(r)[i], env(db, n), r, i, pc).0);
  }

  /** Every event of the pool before this one is at or behind the cursor. */
  ghost predicate NothingBetween(w: World, p: string, c: Cursor, order: Cursor) {
    forall q: nat, j: nat | IsPoolEvent(w, p, q, j) && Before(AtEvent(q, j), order) :: AtMost(AtEvent(q, j), c)
  }

  lemma ReadIsCurrent(w: World, env: Env, start: Db, db: Db, r: nat, i: nat)
    requires IsEvent(w, r, i) && OnTrack(w, env, start, db, Projecting(r, i, ReadState))
    ensures var p := w.block(r)[i].poolAddress;
            && p in db.states && db.states[p].cursor.Some?
            && NothingBetween(w, p, db.states[p].cursor.value, AtEvent(r, i))
  {
    var p := w.block(r)[i].poolAddress;
    assert PoolSound(w, db, p);
    NothingSkipped(w, db, r, i, db.states[p].cursor.value);
  }

  /** Only a snapshot can come between a cursor that skips nothing and the event. */
  lemma RaceIsSnapshot(w: World, p: string, c: Cursor, d: Cursor, order: Cursor)
    requires NothingBetween(w, p, c, order) && Before(c, d) && Before(d, order) && IsCursor(w, p, d)
    ensures d.RoundEnd?
  {
    if d.AtEvent? {
      assert IsPoolEvent(w, p, d.round, d.rank);
    }
  }

  /** Each retry before the event uses up a snapshot round; the last one may land at or past the event. */
  ghost predicate RetriesFit(low: Cursor, order: Cursor, retries: nat) {
    if Before(low, order) then low.RoundEnd? && retries <= low.round + 1 else retries <= order.round + 1
  }

  /** A state that was read at some moment between two others. */
  ghost predicate Seen(w: World, p: string, before: Db, seen: LpState, after: Db) {
    && (seen.cursor.Some? ==> OnChain(w, seen.cursor.value))
    && p in after.states
    && (seen.cursor.Some? ==> CursorReaches(after, p, seen.cursor.value))
    && (p in before.states && before.states[p].cursor.Some? ==>
          seen.cursor.Some? && AtMost(before.states[p].cursor.value, seen.cursor.value))
  }

  /** An attempt read a cursor before the event and lost the race to a newer one. */
  ghost predicate Overtaken(w: World, p: string, before: Db, seen: Option<Cursor>, latest: Option<Cursor>, order: Cursor, after: Db) {
    && seen.Some? && latest.Some? && OnChain(w, seen.value) && OnChain(w, latest.value)
    && Before(seen.value, order) && Before(seen.value, latest.value)
    && p in after.states && after.states[p].cursor == latest
    && (p in before.states && before.states[p].cursor.Some? ==> AtMost(before.states[p].cursor.value, seen.value))
  }

  lemma GapCloses(w: World, low: Option<Cursor>, c: Cursor, d: Cursor, order: Cursor)
    requires order.AtEvent? && Before(c, order) && Before(c, d)
    requires OnChain(w, c)
    requires low.Some? ==> AtMost(low.value, c) && OnChain(w, low.value)
    ensures low.Some? ==>
              RoundsLeft(d, order) < RoundsLeft(low.value, order)
              || (RoundsLeft(d, order) == RoundsLeft(low.value, order)
                  && EventsLeft(w, d, order) < EventsLeft(w, low.value, order))
  {
  }

  lemma RetryFits(w: World, env: Env, start: Db, db: Db, p: string, low: Option<Cursor>, c: Cursor, d: Cursor, order: Cursor,
                  retries: nat)
    requires order.AtEvent? && Before(c, order) && Before(c, d) && NothingBetween(w, p, c, order)
    requires IsEvent(w, order.round, order.rank) && w.block(order.round)[order.rank].poolAddress == p
    requires OnTrack(w, env, start, db, Projecting(order.round, order.rank, ReadState))
    requires p in db.states && db.states[p].cursor == Some(d)
    requires retries == 0 || (low.Some? && AtMost(low.value, c) && RetriesFit(low.value, order, retries))
    ensures RetriesFit(d, order, retries + 1) && retries + 1 <= order.round + 1
  {
    assert PoolSound(w, db, p);
    if Before(d, order) {
      RaceIsSnapshot(w, p, c, d, order);
    }
  }

  /** A call of `project`: at which turn and in which state it began, and for which event. */
  datatype ProjectCall = ProjectCall(base: nat, start: Db, transaction: LpTransaction, round: nat, rank: nat)

  /** The collections and the call after its first `n` operations, each after a move of the others. */
  ghost function After(env: Env, call: ProjectCall, n: nat): (Db, Local) {
    if n == 0 then (call.start, Projecting(call.round, call.rank, ReadState))
    else
      var (db, l) := After(env, call, n - 1);
      if AtWork(call, l) then
        ProjectNext(call.transaction, env(db, call.base + n - 1), call.round, call.rank, l.pc)
      else (db, l)
  }

  /** The call is still at work on its event. */
  predicate AtWork(call: ProjectCall, l: Local) {
    l.Projecting? && l.round == call.round && l.index == call.rank
  }

  /** The call has come to exactly here, and not before this turn if it is over. */
  ghost predicate ComeTo(env: Env, call: ProjectCall, db: Db, l: Local, turn: nat) {
    && call.base <= turn && After(env, call, turn - call.base) == (db, l)
    && (turn > call.base ==> AtWork(call, After(env, call, turn - call.base - 1).1))
  }

  /** The last operation of the call was this one. */
  ghost predicate LastWas(env: Env, call: ProjectCall, pc: Pc, turn: nat) {
    call.base < turn && After(env, call, turn - call.base - 1).1 == Projecting(call.round, call.rank, pc)
  }

  /** How an event came to be settled, told by the last operation. */
  function OutcomeOf(pc: Pc): Outcome {
    match pc
    case Record(outcome) => outcome
    case ReadAliases(_, found, _) => if found then AlreadyApplied else SnapshotCovered
    case _ => AlreadyApplied
  }

  ghost predicate SettledAs(env: Env, call: ProjectCall, outcome: Outcome, turn: nat) {
    exists pc :: LastWas(env, call, pc, turn) && outcome == OutcomeOf(pc)
  }

  /** The others move, and then the call makes its next operation. */
  lemma Proceed(env: Env, call: ProjectCall, db: Db, pc: Pc, turn: nat)
    requires ComeTo(env, call, db, Projecting(call.round, call.rank, pc), turn)
    ensures var (db', l') := ProjectNext(call.transaction, env(db, turn), call.round, call.rank, pc);
            ComeTo(env, call, db', l', turn + 1) && LastWas(env, call, pc, turn + 1)
  {
    hide ProjectNext;
  }

  /** Nobody else writes to the collections. */
  ghost predicate Still(env: Env) {
    forall d: Db, n: nat :: env(d, n) == d
  }

  /** Without others the call comes to what the projection of the event means. */
  lemma {:induction false} AloneLeads(env: Env, call: ProjectCall, n: nat)
    requires Still(env)
    ensures var (db, l) := After(env, call, n);
            LpSequential.Leads(call.start, call.transaction, call.round, call.rank, db, l)
  {
    hide ProjectNext, LpSequential.Knows, LpSequential.Projection;
    if n > 0 {
      AloneLeads(env, call, n - 1);
      var (db, l) := After(env, call, n - 1);
      if AtWork(call, l) {
        LpSequential.StepLeads(call.start, call.transaction, call.round, call.rank, db, l.pc);
      }
    } else {
      BeginsKnowing(call);
    }
  }

  lemma BeginsKnowing(call: ProjectCall)
    ensures LpSequential.Knows(call.start, call.transaction, call.round, call.rank, call.start, ReadState)
  {
  }

  lemma LastTells(env: Env, call: ProjectCall, outcome: Outcome, turn: nat)
    requires Still(env) && SettledAs(env, call, outcome, turn)
    requires After(env, call, turn - call.base).1 == Settled(call.round, call.rank)
    ensures LpSequential.Projection(call.start, call.transaction, call.round, call.rank).1 == Success(outcome)
  {
    hide ProjectNext, LpSequential.Knows, LpSequential.Projection;
    var pc :| LastWas(env, call, pc, turn) && outcome == OutcomeOf(pc);
    var n := turn - call.base - 1;
    AloneLeads(env, call, n);
    OutcomeTells(call, After(env, call, n).0, pc);
  }

  lemma OutcomeTells(call: ProjectCall, db: Db, pc: Pc)
    requires LpSequential.Knows(call.start, call.transaction, call.round, call.rank, db, pc)
    requires ProjectNext(call.transaction, db, call.round, call.rank, pc).1 == Settled(call.round, call.rank)
    ensures LpSequential.Projection(call.start, call.transaction, call.round, call.rank).1 == Success(OutcomeOf(pc))
  {
    hide EventIds.LegacyAliases, LpBalanceDelta, LpSequential.HasLegacyMarker;
    if pc.ReadAliases? {
      NoMarkerLeft(call, pc);
    }
  }

  lemma NoMarkerLeft(call: ProjectCall, pc: Pc)
    requires pc.ReadAliases? && pc.aliases == []
    requires LpSequential.Knows(call.start, call.transaction, call.round, call.rank, call.start, pc)
    ensures !LpSequential.HasLegacyMarker(call.start, call.transaction)
  {
    hide EventIds.LegacyAliases;
  }

  /** The whole call, alone: its outcome and what it leaves behind are what the projection of the event means. */
  lemma AloneMeans(env: Env, call: ProjectCall, db: Db, r: Result<Outcome, ProjectError>, turn: nat)
    requires ComeTo(env, call, db, if r.Success? then Settled(call.round, call.rank) else Failed(call.round, r.error), turn)
    requires r.Success? ==> SettledAs(env, call, r.value, turn)
    ensures Still(env) ==> LpSequential.Projection(call.start, call.transaction, call.round, call.rank) == (db, r)
  {
    hide ProjectNext, SettledAs, LpSequential.Knows, LpSequential.Projection;
    if Still(env) {
      AloneLeads(env, call, turn - call.base);
      if r.Success? {
        LastTells(env, call, r.value, turn);
      }
    }
  }

  /** The first moment of a call. */
  lemma Sets(w: World, env: Env, call: ProjectCall)
    ensures ComeTo(env, call, call.start, Projecting(call.round, call.rank, ReadState), call.base)
    ensures var l := Projecting(call.round, call.rank, ReadState);
            Disciplined(w, env, call.start, l) ==> OnTrack(w, env, call.start, call.start, l)
    ensures CursorsGrow(call.start, call.start)
  {
    hide DbInv, LocalInv, Obeys, Tracked, DistinctIds;
  }

  /** The call is for this event. */
  predicate CallOf(call: ProjectCall, transaction: LpTransaction, order: Cursor) {
    order.AtEvent? && call.transaction == transaction && call.round == order.round && call.rank == order.rank
  }

  datatype SnapshotError = InvalidSnapshot | StateMissing | ConflictingBalances

  lemma PausedStore(w: World, env: Env, start: Db, db: Db, n: nat, l: Local)
    requires l.Holding? && l.cut.Cutover? && |l.cut.cursors| < |l.cut.order|
    requires OnTrack(w, env, start, db, l)
    ensures var (db', l') := StoreSnapshot(env(db, n), l);
            OnTrack(w, env, start, db', l') && !l'.Failed?
    ensures l.missed ==>
              var p := l.cut.order[|l.cut.cursors|];
              && p in env(db, n).states && env(db, n).states[p].cursor.Some?
              && AtMost(RoundEnd(l.observed), env(db, n).states[p].cursor.value)
  {
    hide DbInv, Evolves, Tracked, DistinctIds, RoundFits, SoundCursor, Obeys;
    PauseKeeps(w, env, start, db, n, l);
    SnapshotKeeps(w, env(db, n), l);
    EvolvesTransitive(w, start, env(db, n), StoreSnapshot(env(db, n), l).0);
  }

  /** What taking a snapshot means when nobody else writes. */
  predicate SnapshotTaken(db: Db, p: string, balances: Balances, observed: nat, db': Db, r: Result<LpState, SnapshotError>) {
    if p !in db.states then db' == db && r == Failure(StateMissing)
    else
      var state := db.states[p];
      if state.cursor.None? || Before(state.cursor.value, RoundEnd(observed)) then
        && r == Success(LpState(state.info, balances, Some(RoundEnd(observed)), observed, observed))
        && db' == db.(states := db.states[p := r.value])
      else
        && db' == db
        && r == if state.cursor == Some(RoundEnd(observed)) && state.balances != balances then Failure(ConflictingBalances)
                else Success(state)
  }

  lemma GrowReflexive(db: Db)
    ensures CursorsGrow(db, db)
  {
  }

  lemma GrowTransitive(a: Db, b: Db, c: Db)
    requires CursorsGrow(a, b) && CursorsGrow(b, c)
    ensures CursorsGrow(a, c)
  {
    forall p | p in a.states
      ensures p in c.states && (a.states[p].cursor.Some? ==> CursorReaches(c, p, a.states[p].cursor.value))
    {
    }
  }

  /** How far a cursor is from an event: the rounds between, then the events left in its round. */
  ghost function RoundsLeft(c: Cursor, order: Cursor): nat {
    if Before(c, order) then order.round - c.round else 0
  }

  ghost function EventsLeft(w: World, c: Cursor, order: Cursor): nat {
    if Before(c, order) && c.AtEvent? && c.rank < |w.block(c.round)| then 1 + |w.block(c.round)| - c.rank else 0
  }

  class MongoLpProjectionRepository {
    var states: map<string, LpState>
    var events: map<string, LpTransaction>
    const coordinator: MongoSyncCoordinator

    constructor (states: map<string, LpState>, events: map<string, LpTransaction>, coordinator: MongoSyncCoordinator)
      ensures this.states == states && this.events == events && this.coordinator == coordinator
    {
      this.states := states;
      this.events := events;
      this.coordinator := coordinator;
    }

    function Value(): Db
      reads this, coordinator
    {
      Db(states, events, coordinator.doc)
    }

    /** Let the others run. */
    method Pause(env: Env, n: nat)
      modifies this, coordinator
      ensures Value() == env(old(Value()), n)
    {
      var db := env(Value(), n);
      states := db.states;
      events := db.events;
      coordinator.doc := db.sync;
    }

    /** One guarded update of one state document. */
    method ApplyDelta(p: string, state: LpState, order: Cursor, confirmedRound: nat, delta: BalanceDelta)
      returns (updated: Option<LpState>)
      modifies this`states
      ensures var after := LpProtocol.ApplyDelta(old(states), p, state, order, confirmedRound, delta);
              if after.Some? then states == after.value && updated == Some(states[p])
              else states == old(states) && updated.None?
    {
      if p in states && states[p].cursor == state.cursor {
        var stored := states[p].balances.Get(delta.field);
        var low := if delta.amount < 0 then -delta.amount else 0;
        if low <= stored && (delta.amount > 0 ==> stored <= MAX_ALGORAND_UINT - delta.amount) {
          var s := states[p].(balances := states[p].balances.Add(delta), cursor := Some(order),
                              lastUpdatedRound := confirmedRound);
          states := states[p := s];
          return Some(s);
        }
      }
      return None;
    }

    /** Insert the marker of an event if its ID is new, and compare what is stored then. */
    method RecordEvent(transaction: LpTransaction) returns (ok: bool)
      modifies this`events
      ensures events == EventRecorded(old(events), transaction)
      ensures ok <==> events[transaction.id] == transaction
    {
      if transaction.id !in events {
        events := events[transaction.id := transaction];
      }
      ok := events[transaction.id] == transaction;
    }

    /** Let the others run before the next operation of the projection of one event. */
    method Yield(ghost w: World, env: Env, ghost start: Db, ghost disciplined: bool,
                 ghost order: Cursor, ghost call: ProjectCall, ghost pc: Pc, turn: nat)
      returns (next: nat)
      requires order.AtEvent? && IsEvent(w, order.round, order.rank)
      requires CallOf(call, w.block(order.round)[order.rank], order)
      requires ComeTo(env, call, Value(), Projecting(order.round, order.rank, pc), turn)
      requires Monotone(w, env) && CursorsWithin(w, Value())
      requires disciplined ==> OnTrack(w, env, start, Value(), Projecting(order.round, order.rank, pc))
      modifies this, coordinator
      ensures CursorsWithin(w, Value()) && CursorsGrow(old(Value()), Value())
      ensures disciplined ==> OnTrack(w, env, start, Value(), Projecting(order.round, order.rank, pc))
      ensures LastWas(env, call, pc, next)
      ensures var e := w.block(order.round)[order.rank];
              var (db', l') := ProjectNext(e, Value(), order.round, order.rank, pc);
              ComeTo(env, call, db', l', next) && (disciplined ==> OnTrack(w, env, start, db', l'))
    {
      Proceed(env, call, Value(), pc, turn);
      if disciplined {
        PausedStep(w, env, start, Value(), turn, order.round, order.rank, pc);
      }
      Pause(env, turn);
      next := turn + 1;
    }

    /** Look for a marker under one of the event's legacy IDs, one read each. */
    method LegacyAlias(ghost w: World, ghost start: Db, ghost seen: LpState, ghost found: bool, ghost disciplined: bool,
                       transaction: LpTransaction, ghost order: Cursor, ghost call: ProjectCall, env: Env, turn: nat)
      returns (clash: bool, next: nat)
      requires CallOf(call, transaction, order)
      requires ComeTo(env, call, Value(),
                      Projecting(order.round, order.rank, ReadAliases(seen, found, EventIds.LegacyAliases(transaction.id))), turn)
      requires order.AtEvent? && IsEvent(w, order.round, order.rank) && w.block(order.round)[order.rank] == transaction
      requires Monotone(w, env) && CursorsWithin(w, Value())
      requires var aliases := EventIds.LegacyAliases(transaction.id);
               disciplined ==>
                 OnTrack(w, env, start, Value(), Projecting(order.round, order.rank, ReadAliases(seen, found, aliases)))
      modifies this, coordinator
      ensures CursorsWithin(w, Value()) && CursorsGrow(old(Value()), Value())
      ensures var l := if clash then Failed(order.round, ProjectError.LegacyAlias)
                       else Decide(transaction, order.round, order.rank, seen, found);
              ComeTo(env, call, Value(), l, next) && (disciplined ==> OnTrack(w, env, start, Value(), l))
      ensures !clash ==> LastWas(env, call, ReadAliases(seen, found, []), next)
    {
      hide OnTrack, LastWas, ComeTo;
      var aliases := EventIds.LegacyAliases(transaction.id);
      next := turn;
      while aliases != []
        invariant CursorsWithin(w, Value()) && CursorsGrow(old(Value()), Value())
        invariant ComeTo(env, call, Value(), Projecting(order.round, order.rank, ReadAliases(seen, found, aliases)), next)
        invariant disciplined ==>
                    OnTrack(w, env, start, Value(), Projecting(order.round, order.rank, ReadAliases(seen, found, aliases)))
        decreases |aliases|
      {
        next := Yield(w, env, start, disciplined, order, call, ReadAliases(seen, found, aliases), next);
        if aliases[0] in events {
          return true, next;
        }
        aliases := aliases[1..];
      }
      next := Yield(w, env, start, disciplined, order, call, ReadAliases(seen, found, []), next);
      return false, next;
    }

    /** Read the state, the marker and the legacy markers of an event. */
    method Look(ghost w: World, ghost start: Db, ghost disciplined: bool,
                transaction: LpTransaction, ghost order: Cursor, ghost call: ProjectCall, env: Env, turn: nat)
      returns (r: Result<(LpState, bool), ProjectError>, next: nat)
      requires CallOf(call, transaction, order)
      requires ComeTo(env, call, Value(), Projecting(order.round, order.rank, ReadState), turn)
      requires order.AtEvent? && IsEvent(w, order.round, order.rank) && w.block(order.round)[order.rank] == transaction
      requires Monotone(w, env) && CursorsWithin(w, Value())
      requires disciplined ==> OnTrack(w, env, start, Value(), Projecting(order.round, order.rank, ReadState))
      modifies this, coordinator
      ensures CursorsWithin(w, Value()) && CursorsGrow(old(Value()), Value())
      ensures var l := if r.Success? then Decide(transaction, order.round, order.rank, r.value.0, r.value.1)
                       else Failed(order.round, r.error);
              ComeTo(env, call, Value(), l, next) && (disciplined ==> OnTrack(w, env, start, Value(), l))
      ensures r.Success? ==> LastWas(env, call, ReadAliases(r.value.0, r.value.1, []), next)
      ensures r.Success? ==> Seen(w, transaction.poolAddress, old(Value()), r.value.0, Value())
      ensures disciplined && r.Success? ==>
                r.value.0.cursor.Some? && NothingBetween(w, transaction.poolAddress, r.value.0.cursor.value, order)
    {
      hide OnTrack, NothingBetween, LastWas, ComeTo;
      var p := transaction.poolAddress;
      ghost var before := Value();
      next := Yield(w, env, start, disciplined, order, call, ReadState, turn);
      if p !in states {
        return Failure(StateNotFound), next;
      }
      var state := states[p];
      ghost var read := Value();
      if disciplined {
        ReadIsCurrent(w, env, start, Value(), order.round, order.rank);
      }
      next := Yield(w, env, start, disciplined, order, call, ReadMarker(state), next);
      var found := transaction.id in events;
      if found && events[transaction.id] != transaction {
        return Failure(EventMismatch), next;
      }
      ghost var marked := Value();
      var clash;
      clash, next := LegacyAlias(w, start, state, found, disciplined, transaction, order, call, env, next);
      GrowTransitive(read, marked, Value());
      GrowTransitive(before, read, Value());
      if clash {
        return Failure(ProjectError.LegacyAlias), next;
      }
      return Success((state, found)), next;
    }

    /** Write the marker after everything else. */
    method MarkLast(ghost w: World, env: Env, ghost start: Db, ghost disciplined: bool,
                    transaction: LpTransaction, ghost order: Cursor, ghost call: ProjectCall, ghost outcome: Outcome, turn: nat)
      returns (ok: bool, next: nat)
      requires CallOf(call, transaction, order)
      requires ComeTo(env, call, Value(), Projecting(order.round, order.rank, Record(outcome)), turn)
      requires order.AtEvent? && IsEvent(w, order.round, order.rank) && w.block(order.round)[order.rank] == transaction
      requires Monotone(w, env) && CursorsWithin(w, Value())
      requires disciplined ==> OnTrack(w, env, start, Value(), Projecting(order.round, order.rank, Record(outcome)))
      modifies this, coordinator
      ensures CursorsWithin(w, Value()) && CursorsGrow(old(Value()), Value())
      ensures var l := if ok then Settled(order.round, order.rank) else Failed(order.round, EventMismatch);
              ComeTo(env, call, Value(), l, next) && (disciplined ==> OnTrack(w, env, start, Value(), l))
      ensures LastWas(env, call, Record(outcome), next)
    {
      hide OnTrack, LastWas, ComeTo;
      next := Yield(w, env, start, disciplined, order, call, Record(outcome), turn);
      ok := RecordEvent(transaction);
    }

    /** The marker is there but the state that was read is behind it: read the state again. */
    method ReadAgain(ghost w: World, env: Env, ghost start: Db, ghost disciplined: bool,
                     transaction: LpTransaction, order: Cursor, ghost call: ProjectCall, turn: nat)
      returns (r: Result<LpState, ProjectError>, next: nat)
      requires CallOf(call, transaction, order)
      requires ComeTo(env, call, Value(), Projecting(order.round, order.rank, ReRead), turn)
      requires order.AtEvent? && IsEvent(w, order.round, order.rank) && w.block(order.round)[order.rank] == transaction
      requires Monotone(w, env) && CursorsWithin(w, Value())
      requires disciplined ==> OnTrack(w, env, start, Value(), Projecting(order.round, order.rank, ReRead))
      modifies this, coordinator
      ensures CursorsWithin(w, Value()) && CursorsGrow(old(Value()), Value())
      ensures var l := if r.Success? then Settled(order.round, order.rank) else Failed(order.round, r.error);
              ComeTo(env, call, Value(), l, next) && (disciplined ==> OnTrack(w, env, start, Value(), l))
      ensures LastWas(env, call, ReRead, next)
    {
      hide OnTrack, LastWas, ComeTo;
      var p := transaction.poolAddress;
      next := Yield(w, env, start, disciplined, order, call, ReRead, turn);
      if p !in states {
        return Failure(StateNotFound), next;
      }
      var state := states[p];
      if state.cursor.None? || Before(state.cursor.value, order) {
        return Failure(RecordedButBehind), next;
      }
      return Success(state), next;
    }

    /** Compare and set the balance and the cursor; when that misses, read why. */
    method SwapOrExplain(ghost w: World, env: Env, ghost start: Db, ghost disciplined: bool,
                         transaction: LpTransaction, order: Cursor, ghost call: ProjectCall,
                         state: LpState, delta: BalanceDelta, turn: nat)
      returns (updated: Option<LpState>, latest: Option<Cursor>, next: nat)
      requires order.AtEvent? && IsEvent(w, order.round, order.rank) && w.block(order.round)[order.rank] == transaction
      requires Monotone(w, env) && CursorsWithin(w, Value())
      requires LpBalanceDelta(state.info, transaction.asaId, transaction.delta) == Success(delta)
      requires transaction.poolAddress in Value().states && state.cursor.Some? && Before(state.cursor.value, order)
      requires CursorReaches(Value(), transaction.poolAddress, state.cursor.value)
      requires CallOf(call, transaction, order)
      requires ComeTo(env, call, Value(), Projecting(order.round, order.rank, Pc.Swap(state)), turn)
      requires disciplined ==> OnTrack(w, env, start, Value(), Projecting(order.round, order.rank, Pc.Swap(state)))
      modifies this, coordinator
      ensures CursorsWithin(w, Value()) && CursorsGrow(old(Value()), Value())
      ensures updated.Some? ==>
                var l := Projecting(order.round, order.rank, Record(Applied));
                ComeTo(env, call, Value(), l, next) && (disciplined ==> OnTrack(w, env, start, Value(), l))
      ensures updated.None? ==> latest.Some? && AtMost(state.cursor.value, latest.value)
                                && transaction.poolAddress in Value().states
                                && Value().states[transaction.poolAddress].cursor == latest && OnChain(w, latest.value)
      ensures updated.None? ==>
                var l := if latest == state.cursor then Failed(order.round, OutOfRange)
                         else Projecting(order.round, order.rank, ReadState);
                ComeTo(env, call, Value(), l, next) && (disciplined ==> OnTrack(w, env, start, Value(), l))
    {
      hide OnTrack, LastWas, ComeTo;
      var p := transaction.poolAddress;
      ghost var before := Value();
      next := Yield(w, env, start, disciplined, order, call, Pc.Swap(state), turn);
      ghost var paused := Value();
      updated := ApplyDelta(p, state, order, order.round, delta);
      GrowTransitive(before, paused, Value());
      latest := None;
      if updated.None? {
        next := Yield(w, env, start, disciplined, order, call, CheckLoss(state), next);
        GrowTransitive(before, paused, Value());
        latest := states[p].cursor;
      }
    }

    /** Act on what was read: settle the event, fail, or report the cursor that overtook the read. */
    method Settle(ghost w: World, env: Env, ghost start: Db, ghost disciplined: bool,
                  transaction: LpTransaction, order: Cursor, ghost call: ProjectCall, state: LpState, found: bool, turn: nat)
      returns (r: Option<Result<Outcome, ProjectError>>, latest: Option<Cursor>, next: nat, ghost swaps: nat)
      requires order.AtEvent? && IsEvent(w, order.round, order.rank) && w.block(order.round)[order.rank] == transaction
      requires Monotone(w, env) && CursorsWithin(w, Value())
      requires transaction.poolAddress in Value().states
      requires state.cursor.Some? ==> CursorReaches(Value(), transaction.poolAddress, state.cursor.value)
      requires CallOf(call, transaction, order)
      requires ComeTo(env, call, Value(), Decide(transaction, order.round, order.rank, state, found), turn)
      requires LastWas(env, call, ReadAliases(state, found, []), turn)
      requires disciplined ==> OnTrack(w, env, start, Value(), Decide(transaction, order.round, order.rank, state, found))
      modifies this, coordinator
      ensures CursorsWithin(w, Value()) && CursorsGrow(old(Value()), Value())
      ensures swaps <= 1 && (r.None? ==> swaps == 0)
      ensures r.Some? && r.value.Success? ==> swaps == if r.value.value == Applied then 1 else 0
      ensures r.Some? && r.value.Success? ==>
                SettledAs(env, call, r.value.value, next)
      ensures r.Some? ==>
                var l := if r.value.Success? then Settled(order.round, order.rank) else Failed(order.round, r.value.error);
                ComeTo(env, call, Value(), l, next) && (disciplined ==> OnTrack(w, env, start, Value(), l))
      ensures r.None? ==>
                && state.cursor.Some? && Before(state.cursor.value, order)
                && latest.Some? && Before(state.cursor.value, latest.value) && OnChain(w, latest.value)
                && transaction.poolAddress in Value().states && Value().states[transaction.poolAddress].cursor == latest
      ensures r.None? ==>
                var l := Projecting(order.round, order.rank, ReadState);
                ComeTo(env, call, Value(), l, next) && (disciplined ==> OnTrack(w, env, start, Value(), l))
    {
      hide OnTrack, LastWas, ComeTo, CursorsWithin, CursorsGrow;
      ghost var before := Value();
      assert CursorsGrow(before, before) by { GrowReflexive(before); }
      next, latest, swaps := turn, None, 0;
      if state.cursor.None? {
        return Some(Failure(NoCutoverCursor)), latest, next, swaps;
      }
      var cursor := state.cursor.value;

      if found {
        if Before(cursor, order) {
          var again;
          again, next := ReadAgain(w, env, start, disciplined, transaction, order, call, next);
          return Some(if again.Success? then Success(AlreadyApplied) else Failure(again.error)), latest, next, swaps;
        }
        return Some(Success(AlreadyApplied)), latest, next, swaps;
      }

      if cursor == order {
        var healed;
        healed, next := MarkLast(w, env, start, disciplined, transaction, order, call, AlreadyApplied, next);
        return Some(if healed then Success(AlreadyApplied) else Failure(EventMismatch)), latest, next, swaps;
      }

      if Before(order, cursor) {
        return Some(if SnapshotCovers(cursor, order.round) then Success(SnapshotCovered)
                    else Failure(AdvancedPastUnrecorded)), latest, next, swaps;
      }

      var delta := LpBalanceDelta(state.info, transaction.asaId, transaction.delta);
      if delta.Failure? {
        return Some(Failure(UnknownAsset)), latest, next, swaps;
      }

      var updated;
      updated, latest, next := SwapOrExplain(w, env, start, disciplined, transaction, order, call, state, delta.value, next);
      if updated.Some? {
        ghost var swapped := Value();
        swaps := 1;
        var recorded;
        recorded, next := MarkLast(w, env, start, disciplined, transaction, order, call, Applied, next);
        GrowTransitive(before, swapped, Value());
        return Some(if recorded then Success(Applied) else Failure(EventMismatch)), latest, next, swaps;
      }
      return if latest == state.cursor then Some(Failure(OutOfRange)) else None, latest, next, swaps;
    }

    /** One turn of the retry loop: read, and act on what was read. */
    method Attempt(ghost w: World, env: Env, ghost start: Db, ghost disciplined: bool,
                   transaction: LpTransaction, order: Cursor, ghost call: ProjectCall, turn: nat)
      returns (r: Option<Result<Outcome, ProjectError>>, latest: Option<Cursor>, next: nat, ghost swaps: nat, ghost seen: Option<Cursor>)
      requires order.AtEvent? && IsEvent(w, order.round, order.rank) && w.block(order.round)[order.rank] == transaction
      requires CallOf(call, transaction, order)
      requires Monotone(w, env) && CursorsWithin(w, Value())
      requires ComeTo(env, call, Value(), Projecting(order.round, order.rank, ReadState), turn)
      requires disciplined ==> OnTrack(w, env, start, Value(), Projecting(order.round, order.rank, ReadState))
      modifies this, coordinator
      ensures CursorsWithin(w, Value()) && CursorsGrow(old(Value()), Value())
      ensures swaps <= 1 && (r.None? ==> swaps == 0)
      ensures r.Some? && r.value.Success? ==>
                swaps == (if r.value.value == Applied then 1 else 0) && SettledAs(env, call, r.value.value, next)
      ensures var l := if r.None? then Projecting(order.round, order.rank, ReadState)
                       else if r.value.Success? then Settled(order.round, order.rank)
                       else Failed(order.round, r.value.error);
              ComeTo(env, call, Value(), l, next) && (disciplined ==> OnTrack(w, env, start, Value(), l))
      ensures r.None? ==> Overtaken(w, transaction.poolAddress, old(Value()), seen, latest, order, Value())
      ensures r.None? && disciplined ==> seen.Some? && NothingBetween(w, transaction.poolAddress, seen.value, order)
    {
      hide OnTrack, LastWas, SettledAs, ComeTo, CursorsWithin, CursorsGrow, NothingBetween, Decide;
      ghost var top := Value();
      seen, latest, swaps := None, None, 0;
      var looked;
      looked, next := Look(w, start, disciplined, transaction, order, call, env, turn);
      if looked.Failure? {
        return Some(Failure(looked.error)), latest, next, swaps, seen;
      }
      var (state, found) := looked.value;
      ghost var now := Value();
      r, latest, next, swaps := Settle(w, env, start, disciplined, transaction, order, call, state, found, next);
      GrowTransitive(top, now, Value());
      seen := state.cursor;
    }

    /**
     * Apply one event atomically, or prove that it is already covered. The loop retries when
     * another worker moved the cursor between the read and the compare-and-set.
     */
    method Project(ghost w: World, transaction: LpTransaction, order: Cursor, env: Env, turn: nat)
      returns (r: Result<Outcome, ProjectError>, next: nat, ghost swaps: nat, ghost retries: nat)
      requires order.AtEvent? && IsEvent(w, order.round, order.rank) && w.block(order.round)[order.rank] == transaction
      requires Monotone(w, env) && CursorsWithin(w, Value())
      modifies this, coordinator
      ensures CursorsWithin(w, Value()) && CursorsGrow(old(Value()), Value())
      // The balance is changed once when the result is Applied, and not at all on any other success.
      ensures r.Success? ==> swaps == if r.value == Applied then 1 else 0
      ensures swaps <= 1
      // The call is exactly the run of its operations among the others'.
      ensures ComeTo(env, ProjectCall(turn, old(Value()), transaction, order.round, order.rank), Value(),
                     if r.Success? then Settled(order.round, order.rank) else Failed(order.round, r.error), next)
      // How the event was settled is what the last operation was.
      ensures r.Success? ==>
                SettledAs(env, ProjectCall(turn, old(Value()), transaction, order.round, order.rank), r.value, next)
      // Alone it does what the projection of the event means, on any collections.
      ensures Still(env) ==>
                (Value(), r) == LpSequential.Projection(old(Value()), transaction, order.round, order.rank)
      // Among workers of the protocol the event is settled, or its round was already completed.
      ensures old(Disciplined(w, env, Value(), Projecting(order.round, order.rank, ReadState))) ==>
                && OnTrack(w, env, old(Value()), Value(),
                           if r.Success? then Settled(order.round, order.rank) else Failed(order.round, r.error))
                && retries <= order.round + 1
    {
      hide OnTrack, LastWas, SettledAs, ComeTo, Disciplined, CursorsWithin, CursorsGrow, RetriesFit, NothingBetween, RoundsLeft, EventsLeft;
      hide Still, LpSequential.Projection;
      var p := transaction.poolAddress;
      ghost var start := Value();
      ghost var disciplined := Disciplined(w, env, start, Projecting(order.round, order.rank, ReadState));
      ghost var call := ProjectCall(turn, start, transaction, order.round, order.rank);
      Sets(w, env, call);
      ghost var low: Option<Cursor> := None;
      next := turn;
      swaps, retries := 0, 0;
      while true
        invariant CursorsWithin(w, Value()) && CursorsGrow(start, Value())
        invariant swaps == 0
        invariant ComeTo(env, call, Value(), Projecting(order.round, order.rank, ReadState), next)
        invariant disciplined ==> OnTrack(w, env, start, Value(), Projecting(order.round, order.rank, ReadState))
        invariant low.Some? ==> CursorReaches(Value(), p, low.value) && OnChain(w, low.value)
        invariant disciplined ==> retries == 0 || (low.Some? && RetriesFit(low.value, order, retries))
        invariant disciplined ==> retries <= order.round + 1
        decreases if low.None? then 1 else 0,
                  if low.Some? then RoundsLeft(low.value, order) else 0,
                  if low.Some? then EventsLeft(w, low.value, order) else 0
      {
        ghost var top := Value();
        var settled, latest;
        ghost var seen;
        settled, latest, next, swaps, seen := Attempt(w, env, start, disciplined, transaction, order, call, next);
        GrowTransitive(start, top, Value());
        if settled.Some? {
          AloneMeans(env, call, Value(), settled.value, next);
          return settled.value, next, swaps, retries;
        }
        GapCloses(w, low, seen.value, latest.value, order);
        if disciplined {
          RetryFits(w, env, start, Value(), p, low, seen.value, latest.value, order, retries);
        }
        low := latest;
        retries := retries + 1;
      }
    }

    /**
     * Replace a pool's balances by an authoritative snapshot, only when it is newer than the
     * stored cursor; otherwise return what is stored.
     */
    method ReplaceSnapshot(ghost w: World, p: string, balances: Balances, observed: nat, env: Env, turn: nat,
                           ghost start: Db, ghost disciplined: bool, ghost l: Local)
      returns (r: Result<LpState, SnapshotError>, next: nat)
      requires l.Holding? && l.cut.Cutover? && |l.cut.cursors| < |l.cut.order| && l.cut.order[|l.cut.cursors|] == p
      requires l.balances == balances && l.observed == observed && !l.missed
      requires disciplined ==> OnTrack(w, env, start, Value(), l)
      modifies this, coordinator
      ensures !(balances.InRange() && IsUint64(observed)) ==> r == Failure(InvalidSnapshot) && Value() == old(Value())
      ensures balances.InRange() && IsUint64(observed) ==>
                var (db, l1) := StoreSnapshot(env(old(Value()), turn), l);
                if !l1.Holding? then
                  next == turn + 1 && Value() == db && r.Success? && p in states && r.value == states[p]
                else
                  var (db', l2) := StoreSnapshot(env(db, turn + 1), l1);
                  && next == turn + 2 && Value() == db'
                  && (r.Success? <==> l2.Cutover?) && (r.Success? ==> p in states && r.value == states[p])
                  && (r.Failure? ==> r.error == if p in states then ConflictingBalances else StateMissing)
      // Alone, on any collections: an older state is replaced, a newer one kept, and a different one of the same round refused.
      ensures balances.InRange() && IsUint64(observed) && Still(env) ==> SnapshotTaken(old(Value()), p, balances, observed, Value(), r)
      ensures balances.InRange() && IsUint64(observed) && disciplined ==>
                && r.Success? && r.value.cursor.Some? && AtMost(RoundEnd(observed), r.value.cursor.value)
                && OnTrack(w, env, start, Value(), l.cut.(cursors := l.cut.cursors + [r.value.cursor]))
    {
      hide OnTrack;
      next := turn;
      if !balances.InRange() || !IsUint64(observed) {
        return Failure(InvalidSnapshot), next;
      }
      if disciplined {
        PausedStore(w, env, start, Value(), next, l);
      }
      Pause(env, next);
      next := next + 1;
      if p in states && CursorBefore(states[p].cursor, RoundEnd(observed)) {
        var s := states[p].(balances := balances, cursor := Some(RoundEnd(observed)), lastUpdatedRound := observed,
                             snapshotRound := observed);
        states := states[p := s];
        return Success(s), next;
      }
      if disciplined {
        PausedStore(w, env, start, Value(), next, l.(missed := true));
      }
      Pause(env, next);
      next := next + 1;
      if p !in states {
        return Failure(StateMissing), next;
      }
      if states[p].cursor == Some(RoundEnd(observed)) && states[p].balances != balances {
        return Failure(ConflictingBalances), next;
      }
      return Success(states[p]), next;
    }
  }
}

/**
 * What the projection of one event means when nobody else writes (flex/db/lp_projection.py): one case
 * distinction over the stored state, the markers and the event, on any collections, sound or not.
 */
module LpSequential {
  import opened Wrappers
  import opened LpDomain
  import opened LpWorld
  import opened LpProtocol
  import EventIds

  /** The collections and the outcome after the whole projection of event i of round r. */
  function Projection(db: Db, e: LpTransaction, r: nat, i: nat): (Db, Result<Outcome, ProjectError>) {
    var p, order := e.poolAddress, AtEvent(r, i);
    if p !in db.states then (db, Failure(StateNotFound))
    else if e.id in db.events && db.events[e.id] != e then (db, Failure(EventMismatch))
    else if HasLegacyMarker(db, e) then (db, Failure(ProjectError.LegacyAlias))
    else
      var state := db.states[p];
      if state.cursor.None? then (db, Failure(NoCutoverCursor))
      else if e.id in db.events then
        (db, if Before(state.cursor.value, order) then Failure(RecordedButBehind) else Success(AlreadyApplied))
      else if state.cursor.value == order then (Marking(db, e), Success(AlreadyApplied))
      else if Before(order, state.cursor.value) then
        (db, if SnapshotCovers(state.cursor.value, r) then Success(SnapshotCovered) else Failure(AdvancedPastUnrecorded))
      else
        match LpBalanceDelta(state.info, e.asaId, e.delta)
        case Failure(_) => (db, Failure(UnknownAsset))
        case Success(d) =>
          if WithinBounds(state.balances.Get(d.field), d.amount) then (Marking(Moving(db, e, r, i, d), e), Success(Applied))
          else (db, Failure(OutOfRange))
  }

  predicate HasLegacyMarker(db: Db, e: LpTransaction) {
    exists a :: a in EventIds.LegacyAliases(e.id) && a in db.events
  }

  function Marking(db: Db, e: LpTransaction): Db {
    db.(events := db.events[e.id := e])
  }

  function Moving(db: Db, e: LpTransaction, r: nat, i: nat, d: BalanceDelta): Db
    requires e.poolAddress in db.states
  {
    var state := db.states[e.poolAddress];
    var moved := state.(balances := state.balances.Add(d), cursor := Some(AtEvent(r, i)), lastUpdatedRound := r);
    db.(states := db.states[e.poolAddress := moved])
  }

  /** What is known, before the operation `pc`, of collections that only this worker has written since `start`. */
  ghost predicate Knows(start: Db, e: LpTransaction, r: nat, i: nat, db: Db, pc: Pc) {
    var p, order := e.poolAddress, AtEvent(r, i);
    match pc
    case ReadState => db == start
    case ReadMarker(seen) => db == start && p in start.states && seen == start.states[p]
    case ReadAliases(seen, found, aliases) =>
      && db == start && p in start.states && seen == start.states[p]
      && found == (e.id in start.events) && (found ==> start.events[e.id] == e)
      && (forall a | a in aliases :: a in EventIds.LegacyAliases(e.id))
      && (forall a | a in EventIds.LegacyAliases(e.id) :: a in aliases || a !in start.events)
    case ReRead =>
      db == start && Clear(start, e) && e.id in start.events && Before(start.states[p].cursor.value, order)
    case Swap(seen) => db == start && Ahead(start, e, r, i) && seen == start.states[p]
    case CheckLoss(seen) =>
      && db == start && Ahead(start, e, r, i) && seen == start.states[p]
      && !WithinBounds(seen.balances.Get(DeltaIn(start, e).field), DeltaIn(start, e).amount)
    case Record(outcome) =>
      && Clear(start, e) && e.id !in start.events
      && (outcome == AlreadyApplied ==> db == start && start.states[p].cursor.value == order)
      && (outcome == Applied ==>
            && Ahead(start, e, r, i) && db == Moving(start, e, r, i, DeltaIn(start, e))
            && WithinBounds(start.states[p].balances.Get(DeltaIn(start, e).field), DeltaIn(start, e).amount))
      && outcome != SnapshotCovered
  }

  /** Nothing speaks against the event so far, and its pool has a cursor. */
  ghost predicate Clear(db: Db, e: LpTransaction) {
    && e.poolAddress in db.states && db.states[e.poolAddress].cursor.Some?
    && (e.id in db.events ==> db.events[e.id] == e) && !HasLegacyMarker(db, e)
  }

  /** The event is still to be applied, and moves a balance of its pool. */
  ghost predicate Ahead(db: Db, e: LpTransaction, r: nat, i: nat) {
    && Clear(db, e) && e.id !in db.events && Before(db.states[e.poolAddress].cursor.value, AtEvent(r, i))
    && LpBalanceDelta(db.states[e.poolAddress].info, e.asaId, e.delta).Success?
  }

  ghost function DeltaIn(db: Db, e: LpTransaction): BalanceDelta
    requires e.poolAddress in db.states && LpBalanceDelta(db.states[e.poolAddress].info, e.asaId, e.delta).Success?
  {
    LpBalanceDelta(db.states[e.poolAddress].info, e.asaId, e.delta).value
  }

  /** The projection goes on with what it knows, or has come to what the whole projection means. */
  ghost predicate Leads(start: Db, e: LpTransaction, r: nat, i: nat, db: Db, l: Local) {
    if l.Projecting? && l.round == r && l.index == i then Knows(start, e, r, i, db, l.pc)
    else
      var (db', outcome) := Projection(start, e, r, i);
      db == db' && l == if outcome.Success? then Settled(r, i) else Failed(r, outcome.error)
  }

  lemma AliasesLead(start: Db, e: LpTransaction, r: nat, i: nat, pc: Pc)
    requires pc.ReadAliases? && Knows(start, e, r, i, start, pc)
    ensures var (db', l') := ProjectNext(e, start, r, i, pc);
            Leads(start, e, r, i, db', l')
  {
    hide EventIds.LegacyAliases, LpBalanceDelta;
    if pc.aliases == [] {
      assert !HasLegacyMarker(start, e);
    } else if pc.aliases[0] in start.events {
      assert HasLegacyMarker(start, e);
    }
  }

  /** Every operation leads to what the whole projection means. */
  lemma StepLeads(start: Db, e: LpTransaction, r: nat, i: nat, db: Db, pc: Pc)
    requires Knows(start, e, r, i, db, pc)
    ensures var (db', l') := ProjectNext(e, db, r, i, pc);
            Leads(start, e, r, i, db', l')
  {
    hide EventIds.LegacyAliases, LpBalanceDelta, HasLegacyMarker;
    match pc {
      case ReadAliases(_, _, _) => AliasesLead(start, e, r, i, pc);
      case ReadMarker(_) => MarkerLeads(start, e, r, i, pc);
      case _ =>
    }
  }

  lemma MarkerLeads(start: Db, e: LpTransaction, r: nat, i: nat, pc: Pc)
    requires pc.ReadMarker? && Knows(start, e, r, i, start, pc)
    ensures var (db', l') := ProjectNext(e, start, r, i, pc);
            Leads(start, e, r, i, db', l')
  {
    hide EventIds.LegacyAliases, LpBalanceDelta;
  }
}

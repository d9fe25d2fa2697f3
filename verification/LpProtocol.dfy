/**
 * The LP projector as a state machine: the shared collections, the program counter of one
 * worker, and every separate read and write it makes (flex/db/lp_projection.py,
 * flex/sync_pools.py). Any action that is not enabled leaves everything as it is.
 */
module LpProtocol {
  import opened Wrappers
  import opened LpDomain
  import opened LpWorld
  import opened SyncCoordinator
  import EventIds

  /** A pool's document. `snapshotRound` is only a record for the proofs: the round of the last snapshot; no step reads it. */
  datatype LpState = LpState(info: PoolInfo, balances: Balances, cursor: Option<Cursor>, lastUpdatedRound: nat, snapshotRound: nat)

  /** The three collections the workers share. */
  datatype Db = Db(states: map<string, LpState>, events: map<string, LpTransaction>, sync: SyncState)

  datatype Outcome = Applied | AlreadyApplied | SnapshotCovered

  datatype ProjectError =
    | StateNotFound | EventMismatch | LegacyAlias | NoCutoverCursor | RecordedButBehind
    | AdvancedPastUnrecorded | UnknownAsset | OutOfRange | LostClaim | SnapshotConflict | SnapshotRefused

  // ---- the atomic operations on one document ----

  /** The guard of the balance update: the stored value stays within uint64 after the change. */
  predicate WithinBounds(value: int, amount: int) {
    value >= (if amount < 0 then -amount else 0) && (amount > 0 ==> value <= MAX_ALGORAND_UINT - amount)
  }

  /** Move a balance and the cursor together, if the cursor is still the one that was read. */
  function ApplyDelta(states: map<string, LpState>, p: string, seen: LpState, order: Cursor, round: nat, d: BalanceDelta)
    : Option<map<string, LpState>>
  {
    if p in states && states[p].cursor == seen.cursor && WithinBounds(states[p].balances.Get(d.field), d.amount) then
      Some(states[p := states[p].(balances := states[p].balances.Add(d), cursor := Some(order), lastUpdatedRound := round)])
    else None
  }

  predicate CursorBefore(c: Option<Cursor>, d: Cursor) {
    c.None? || Before(c.value, d)
  }

  /** Replace the balances by an authoritative snapshot, if the cursor is older than its round. */
  function SnapshotReplaced(states: map<string, LpState>, p: string, balances: Balances, observed: nat)
    : Option<map<string, LpState>>
  {
    if p in states && CursorBefore(states[p].cursor, RoundEnd(observed)) then
      Some(states[p := states[p].(balances := balances, cursor := Some(RoundEnd(observed)),
                                        lastUpdatedRound := observed, snapshotRound := observed)])
    else None
  }

  /** Insert the marker of an event unless its ID is already there. */
  function EventRecorded(events: map<string, LpTransaction>, e: LpTransaction): map<string, LpTransaction> {
    if e.id in events then events else events[e.id := e]
  }

  predicate SnapshotCovers(c: Cursor, round: nat) {
    c.RoundEnd? && c.round >= round
  }

  /** The last round that a cursor covers completely. */
  function CompleteThrough(c: Option<Cursor>): Option<nat> {
    match c
    case None => None
    case Some(RoundEnd(r)) => Some(r)
    case Some(AtEvent(r, _)) => if r == 0 then None else Some(r - 1)
  }

  /** The least of the node's round and the rounds that the cursors cover. */
  function LeastCovered(nodeRound: nat, cursors: seq<Option<Cursor>>): (r: Option<nat>)
    ensures r.Some? ==> r.value <= nodeRound
    ensures r.Some? ==> forall i | 0 <= i < |cursors| ::
                          CompleteThrough(cursors[i]).Some? && r.value <= CompleteThrough(cursors[i]).value
    ensures r.Some? ==> r.value == nodeRound || exists i | 0 <= i < |cursors| :: CompleteThrough(cursors[i]) == r
    ensures r.None? ==> exists i | 0 <= i < |cursors| :: CompleteThrough(cursors[i]).None?
  {
    if cursors == [] then Some(nodeRound)
    else
      var rest := LeastCovered(nodeRound, cursors[1..]);
      var first := CompleteThrough(cursors[0]);
      if rest.None? || first.None? then None
      else if first.value < rest.value then first else rest
  }

  datatype CheckpointError = InvalidCursor | SnapshotsLagBehind

  function SnapshotCheckpointRound(previous: Option<nat>, nodeRound: nat, cursors: seq<Option<Cursor>>)
    : Result<nat, CheckpointError>
  {
    match LeastCovered(nodeRound, cursors)
    case None => Failure(InvalidCursor)
    case Some(c) => if previous.Some? && c < previous.value then Failure(SnapshotsLagBehind) else Success(c)
  }

  // ---- one worker ----

  /** Where a worker stands inside the projection of one event. */
  datatype Pc =
    | ReadState
    | ReadMarker(seen: LpState)
    | ReadAliases(seen: LpState, found: bool, aliases: seq<string>)
    | ReRead
    | Swap(seen: LpState)
    | CheckLoss(seen: LpState)
    | Record(outcome: Outcome)

  datatype Local =
    | Idle
    | Projecting(round: nat, index: nat, pc: Pc)
    | Failed(round: nat, error: ProjectError)
    | Cutover(expected: Option<nat>, order: seq<string>, cursors: seq<Option<Cursor>>)
    | Holding(cut: Local, balances: Balances, observed: nat, missed: bool)

  /** The event after the one just settled. */
  function Settled(r: nat, i: nat): Local {
    Projecting(r, i + 1, ReadState)
  }

  /** What a worker does once it has read the state, the marker and the legacy aliases. */
  function Decide(e: LpTransaction, r: nat, i: nat, seen: LpState, found: bool): Local {
    var order := AtEvent(r, i);
    if seen.cursor.None? then Failed(r, NoCutoverCursor)
    else if found then
      if Before(seen.cursor.value, order) then Projecting(r, i, ReRead) else Settled(r, i)
    else if seen.cursor.value == order then Projecting(r, i, Record(AlreadyApplied))
    else if Before(order, seen.cursor.value) then
      if SnapshotCovers(seen.cursor.value, r) then Settled(r, i) else Failed(r, AdvancedPastUnrecorded)
    else if LpBalanceDelta(seen.info, e.asaId, e.delta).Failure? then Failed(r, UnknownAsset)
    else Projecting(r, i, Swap(seen))
  }

  /** One read or write of the projection of event i of round r. */
  function ProjectNext(e: LpTransaction, db: Db, r: nat, i: nat, pc: Pc): (Db, Local) {
    var p := e.poolAddress;
    var order := AtEvent(r, i);
    match pc
    case ReadState =>
      (db, if p in db.states then Projecting(r, i, ReadMarker(db.states[p])) else Failed(r, StateNotFound))
    case ReadMarker(seen) =>
      (db, if e.id in db.events && db.events[e.id] != e then Failed(r, EventMismatch)
           else Projecting(r, i, ReadAliases(seen, e.id in db.events, EventIds.LegacyAliases(e.id))))
    case ReadAliases(seen, found, aliases) =>
      (db, if aliases == [] then Decide(e, r, i, seen, found)
           else if aliases[0] in db.events then Failed(r, LegacyAlias)
           else Projecting(r, i, ReadAliases(seen, found, aliases[1..])))
    case ReRead =>
      (db, if p !in db.states then Failed(r, StateNotFound)
           else if CursorBefore(db.states[p].cursor, order) then Failed(r, RecordedButBehind)
           else Settled(r, i))
    case Swap(seen) =>
      (match LpBalanceDelta(seen.info, e.asaId, e.delta)
       case Failure(_) => (db, Failed(r, UnknownAsset))
       case Success(d) =>
         match ApplyDelta(db.states, p, seen, order, r, d)
         case Some(states) => (db.(states := states), Projecting(r, i, Record(Applied)))
         case None => (db, Projecting(r, i, CheckLoss(seen))))
    case CheckLoss(seen) =>
      (db, if p !in db.states then Failed(r, StateNotFound)
           else if db.states[p].cursor != seen.cursor then Projecting(r, i, ReadState)
           else Failed(r, OutOfRange))
    case Record(_) =>
      var events := EventRecorded(db.events, e);
      (db.(events := events), if events[e.id] == e then Settled(r, i) else Failed(r, EventMismatch))
  }

  datatype Action =
    | Claim(expected: nat, now: int)
    | Continue
    | Complete(now: int)
    | Release
    | Crash
    | BeginCutover(order: seq<string>)
    | Fetch(observed: nat)
    | Store
    | Advance(nodeRound: nat, now: int)

  /** The pools of a cutover are all tracked pools, in any order. */
  ghost predicate CoversPools(w: World, order: seq<string>) {
    forall p | p in w.pools :: p in order
  }

  /** One atomic step of worker `me`. */
  ghost function Act(w: World, me: WorkerId, db: Db, l: Local, a: Action): (Db, Local)
    requires Tracked(w)
  {
    match a
    case Claim(expected, now) =>
      if l.Idle? then
        match SyncCoordinator.Claimed(db.sync, me, Some(expected), expected + 1, now)
        case Some(doc) => (db.(sync := doc), Projecting(expected + 1, 0, ReadState))
        case None => (db, l)
      else (db, l)
    case Continue =>
      if l.Projecting? && l.index < |w.block(l.round)| then
        ProjectNext(w.block(l.round)[l.index], db, l.round, l.index, l.pc)
      else (db, l)
    case Complete(now) =>
      if l.Projecting? && l.index == |w.block(l.round)| && l.round > 0 then
        match SyncCoordinator.Completed(db.sync, me, Some(l.round - 1), l.round, now)
        case Some(doc) => (db.(sync := doc), Idle)
        case None => (db, Failed(l.round, ProjectError.LostClaim))
      else (db, l)
    case Release =>
      if l.Failed? then (db.(sync := SyncCoordinator.Released(db.sync, me, l.round)), Idle) else (db, l)
    case Crash => (db, Idle)
    case BeginCutover(order) =>
      if l.Idle? && CoversPools(w, order) then (db, Cutover(db.sync.lastRound, order, [])) else (db, l)
    case Fetch(observed) =>
      if l.Cutover? && |l.cursors| < |l.order| && l.order[|l.cursors|] in w.pools then
        var p := l.order[|l.cursors|];
        // Numbers that cannot be stored are refused before anything is written.
        (db, if SnapshotFits(w, p, observed) then Holding(l, w.observed(p, observed), observed, false)
             else Failed(observed, SnapshotRefused))
      else (db, l)
    case Store =>
      if l.Holding? && l.cut.Cutover? && |l.cut.cursors| < |l.cut.order| then StoreSnapshot(db, l) else (db, l)
    case Advance(nodeRound, now) =>
      if l.Cutover? && |l.cursors| == |l.order| then
        match SnapshotCheckpointRound(l.expected, nodeRound, l.cursors)
        case Failure(_) => (db, Idle)
        case Success(c) =>
          match SyncCoordinator.Advanced(db.sync, l.expected, c, now)
          case None => (db, Idle)
          case Some(doc) => (db.(sync := doc), Idle)
      else (db, l)
  }

  /** The two operations of `replace_snapshot`: the guarded replacement and, when it misses, the re-read. */
  function StoreSnapshot(db: Db, l: Local): (Db, Local)
    requires l.Holding? && l.cut.Cutover? && |l.cut.cursors| < |l.cut.order|
  {
    var p := l.cut.order[|l.cut.cursors|];
    if !l.missed then
      match SnapshotReplaced(db.states, p, l.balances, l.observed)
      case Some(states) =>
        (db.(states := states), l.cut.(cursors := l.cut.cursors + [Some(RoundEnd(l.observed))]))
      case None => (db, l.(missed := true))
    else if p !in db.states then (db, Failed(l.observed, StateNotFound))
    else if db.states[p].cursor == Some(RoundEnd(l.observed)) && db.states[p].balances != l.balances then
      (db, Failed(l.observed, SnapshotConflict))
    else (db, l.cut.(cursors := l.cut.cursors + [db.states[p].cursor]))
  }

  // ---- what every step keeps ----

  predicate CheckpointAtLeast(db: Db, r: int) {
    r < 0 || (db.sync.lastRound.Some? && db.sync.lastRound.value >= r)
  }

  ghost predicate Marked(w: World, db: Db, r: nat, k: nat)
    requires IsEvent(w, r, k)
  {
    w.block(r)[k].id in db.events
  }

  /** The cursor of a pool, where there is one. */
  ghost predicate CursorReaches(db: Db, p: string, c: Cursor) {
    p in db.states && db.states[p].cursor.Some? && AtMost(c, db.states[p].cursor.value)
  }

  /** A cursor value that the pool has had, or may be given: the events it passed are marked. */
  ghost predicate SoundCursor(w: World, db: Db, p: string, c: Cursor) {
    IsCursor(w, p, c)
    && (c.AtEvent? ==>
          CheckpointAtLeast(db, c.round - 1)
          && forall j: nat | j < c.rank && IsPoolEvent(w, p, c.round, j) :: Marked(w, db, c.round, j))
  }

  /** The balances of every pool are its last snapshot plus every event since, up to its own cursor. */
  ghost predicate PoolSound(w: World, db: Db, p: string)
    requires Tracked(w) && p in w.pools
  {
    && p in db.states
    && db.states[p].info == w.pools[p]
    && db.states[p].cursor.Some?
    && SoundCursor(w, db, p, db.states[p].cursor.value)
    && AtMost(RoundEnd(db.states[p].snapshotRound), db.states[p].cursor.value)
    && (db.states[p].cursor.value.RoundEnd? ==> db.states[p].cursor.value.round == db.states[p].snapshotRound)
    && db.states[p].balances == Held(w, p, db.states[p].snapshotRound, db.states[p].cursor.value)
    && db.states[p].balances.InRange()
  }

  /** A recorded event is an event of the chain, and its pool's cursor has reached it. */
  ghost predicate MarkersSound(w: World, db: Db) {
    && (forall id {:trigger IsEventId(w, id)} | id in db.events :: IsEventId(w, id))
    && (forall r: nat, k: nat | IsEvent(w, r, k) && Marked(w, db, r, k) ::
          db.events[w.block(r)[k].id] == w.block(r)[k]
          && CursorReaches(db, w.block(r)[k].poolAddress, AtEvent(r, k)))
  }

  /** Every cursor covers every event of every round up to the checkpoint. */
  ghost predicate CheckpointCovered(w: World, db: Db) {
    forall r: nat, k: nat | IsEvent(w, r, k) && CheckpointAtLeast(db, r) ::
      CursorReaches(db, w.block(r)[k].poolAddress, AtEvent(r, k))
  }

  ghost predicate DbInv(w: World, db: Db)
    requires Tracked(w)
  {
    && (forall p | p in w.pools :: PoolSound(w, db, p))
    && MarkersSound(w, db)
    && CheckpointCovered(w, db)
  }

  /** An event this worker has settled: its pool is at or past it, and it is recorded or snapshotted over. */
  ghost predicate Handled(w: World, db: Db, r: nat, k: nat)
    requires IsEvent(w, r, k)
  {
    && CursorReaches(db, w.block(r)[k].poolAddress, AtEvent(r, k))
    && (Marked(w, db, r, k) || CursorReaches(db, w.block(r)[k].poolAddress, RoundEnd(r)))
  }

  /** A state value read earlier. */
  ghost predicate SeenOk(w: World, db: Db, p: string, seen: LpState)
    requires Tracked(w) && p in w.pools
  {
    && seen.info == w.pools[p]
    && seen.cursor.Some?
    && SoundCursor(w, db, p, seen.cursor.value)
    && CursorReaches(db, p, seen.cursor.value)
  }

  ghost predicate PcInv(w: World, db: Db, r: nat, i: nat, pc: Pc)
    requires Tracked(w) && IsEvent(w, r, i)
  {
    var e := w.block(r)[i];
    var p := e.poolAddress;
    var order := AtEvent(r, i);
    p in w.pools &&
    match pc
    case ReadState => true
    case ReadMarker(seen) => SeenOk(w, db, p, seen)
    case ReadAliases(seen, found, aliases) =>
      && SeenOk(w, db, p, seen)
      && (found ==> Marked(w, db, r, i))
      && (!found && seen.cursor.value.AtEvent? && Before(order, seen.cursor.value) ==> CheckpointAtLeast(db, r))
      && (forall a | a in aliases :: a in EventIds.LegacyAliases(e.id))
    case ReRead => Marked(w, db, r, i)
    case Swap(seen) => SeenOk(w, db, p, seen) && Before(seen.cursor.value, order)
    case CheckLoss(seen) =>
      && seen.cursor.Some?
      && CursorReaches(db, p, seen.cursor.value)
      && (EventFits(w, r, i) ==> db.states[p].cursor != seen.cursor)
    case Record(_) => CursorReaches(db, p, order)
  }

  ghost predicate CutoverInv(w: World, db: Db, l: Local)
    requires l.Cutover?
  {
    && |l.cursors| <= |l.order|
    && CoversPools(w, l.order)
    && (forall i | 0 <= i < |l.cursors| :: l.order[i] in w.pools
          && l.cursors[i].Some? && CursorReaches(db, l.order[i], l.cursors[i].value))
  }

  ghost predicate FailedRightly(w: World, db: Db, r: nat, error: ProjectError)
    requires Tracked(w)
  {
    || error == ProjectError.LostClaim
    || (error == AdvancedPastUnrecorded && CheckpointAtLeast(db, r))
    || (error == OutOfRange && !RoundFits(w, r))
    || (error == SnapshotRefused && exists p :: p in w.pools && !SnapshotFits(w, p, r))
  }

  /**
   * What a worker may rely on. A worker can fail only by losing its claim, by meeting the
   * "advanced past unrecorded event" error after its round was already completed by others, or
   * because a number does not fit the store.
   */
  ghost predicate LocalInv(w: World, db: Db, l: Local)
    requires Tracked(w)
  {
    match l
    case Idle => true
    case Projecting(r, i, pc) =>
      && i <= |w.block(r)|
      && CheckpointAtLeast(db, r - 1)
      && (forall j: nat | j < i :: IsEvent(w, r, j) && Handled(w, db, r, j))
      && (i < |w.block(r)| ==> PcInv(w, db, r, i, pc))
    case Failed(r, error) => FailedRightly(w, db, r, error)
    case Cutover(_, _, _) => CutoverInv(w, db, l)
    case Holding(cut, balances, observed, missed) =>
      && cut.Cutover? && CutoverInv(w, db, cut) && |cut.cursors| < |cut.order|
      && cut.order[|cut.cursors|] in w.pools
      && balances == w.observed(cut.order[|cut.cursors|], observed) && balances.InRange()
      && (missed ==> CursorReaches(db, cut.order[|cut.cursors|], RoundEnd(observed)))
  }

  // ---- how the collections may change under a worker ----

  /** Cursors never go back, markers are never lost or rewritten, the checkpoint never regresses. */
  ghost predicate Evolves(w: World, db: Db, db': Db) {
    && (forall p | p in w.pools && p in db.states && db.states[p].cursor.Some? ::
          CursorReaches(db', p, db.states[p].cursor.value))
    && (forall id | id in db.events :: id in db'.events && db'.events[id] == db.events[id])
    && (db.sync.lastRound.Some? ==> CheckpointAtLeast(db', db.sync.lastRound.value))
  }

  lemma EvolvesTransitive(w: World, a: Db, b: Db, c: Db)
    requires Evolves(w, a, b) && Evolves(w, b, c)
    ensures Evolves(w, a, c)
  {
  }

  lemma EvolvesKeepsReach(w: World, db: Db, db': Db, p: string, c: Cursor)
    requires Evolves(w, db, db') && p in w.pools && CursorReaches(db, p, c)
    ensures CursorReaches(db', p, c)
  {
  }

  lemma EvolvesKeepsSound(w: World, db: Db, db': Db, p: string, c: Cursor)
    requires Evolves(w, db, db') && SoundCursor(w, db, p, c)
    ensures SoundCursor(w, db', p, c)
  {
    if c.AtEvent? {
      forall j: nat | j < c.rank && IsPoolEvent(w, p, c.round, j) ensures Marked(w, db', c.round, j) {
        assert Marked(w, db, c.round, j);
      }
    }
  }

  lemma StablePc(w: World, db: Db, db': Db, r: nat, i: nat, pc: Pc)
    requires Tracked(w) && Evolves(w, db, db') && IsEvent(w, r, i) && PcInv(w, db, r, i, pc)
    ensures PcInv(w, db', r, i, pc)
  {
    if pc.ReadMarker? || pc.ReadAliases? || pc.Swap? {
      EvolvesKeepsSound(w, db, db', w.block(r)[i].poolAddress, pc.seen.cursor.value);
    }
  }

  lemma StableHandled(w: World, db: Db, db': Db, r: nat, j: nat)
    requires Tracked(w) && Evolves(w, db, db') && IsEvent(w, r, j) && Handled(w, db, r, j)
    ensures Handled(w, db', r, j)
  {
  }

  /** What a worker relies on survives anything the others do. */
  lemma Stable(w: World, db: Db, db': Db, l: Local)
    requires Tracked(w) && Evolves(w, db, db') && LocalInv(w, db, l)
    ensures LocalInv(w, db', l)
  {
    if l.Projecting? {
      forall j: nat | j < l.index ensures IsEvent(w, l.round, j) && Handled(w, db', l.round, j) {
        StableHandled(w, db, db', l.round, j);
      }
      if l.index < |w.block(l.round)| {
        StablePc(w, db, db', l.round, l.index, l.pc);
      }
    }
  }
}

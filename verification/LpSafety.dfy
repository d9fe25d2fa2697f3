/**
 * What every step of the LP projector keeps, and what that gives over every run: any number
 * of workers, any interleaving, any clock readings, any crashes.
 */
module LpSafety {
  import opened Wrappers
  import opened LpDomain
  import opened LpWorld
  import opened LpProtocol
  import opened SyncCoordinator
  import EventIds

  // ---- one step ----

  /** Steps that only read leave nothing to show but the worker's own knowledge. */
  lemma ReadKeeps(w: World, db: Db, r: nat, i: nat, pc: Pc)
    requires ValidWorld(w) && DbInv(w, db) && IsEvent(w, r, i) && LocalInv(w, db, Projecting(r, i, pc))
    requires pc.ReadState? || pc.ReadMarker?
    ensures var (db', l') := ProjectNext(w.block(r)[i], db, r, i, pc);
            db' == db && LocalInv(w, db, l')
  {
    hide Held, EventFits, RoundFits, FailedRightly;
    assert PoolSound(w, db, w.block(r)[i].poolAddress);
    if pc.ReadMarker? {
      if w.block(r)[i].id in db.events {
        assert Marked(w, db, r, i);
      } else {
        UnmarkedNotPassed(w, db, r, i, pc.seen);
      }
    }
  }

  /** After a refused update an unmoved cursor means that the event does not fit. */
  lemma CheckLossKeeps(w: World, db: Db, r: nat, i: nat, pc: Pc)
    requires ValidWorld(w) && IsEvent(w, r, i) && LocalInv(w, db, Projecting(r, i, pc)) && pc.CheckLoss?
    ensures var (db', l') := ProjectNext(w.block(r)[i], db, r, i, pc);
            db' == db && LocalInv(w, db, l')
  {
    hide Tracked, DistinctIds, Held, EventFits, Handled, SoundCursor;
  }

  /** The second read finds the state at or past a recorded event: markers are written last. */
  lemma ReReadKeeps(w: World, db: Db, r: nat, i: nat)
    requires ValidWorld(w) && DbInv(w, db) && IsEvent(w, r, i) && LocalInv(w, db, Projecting(r, i, ReRead))
    ensures ProjectNext(w.block(r)[i], db, r, i, ReRead) == (db, Settled(r, i))
    ensures LocalInv(w, db, Settled(r, i))
  {
    hide Tracked, DistinctIds, DbInv, Held, EventFits, RoundFits, FailedRightly;
    MarkedIsReached(w, db, r, i);
    assert Handled(w, db, r, i);
    SettledInv(w, db, r, i);
  }

  lemma MarkedIsReached(w: World, db: Db, r: nat, i: nat)
    requires Tracked(w) && DbInv(w, db) && IsEvent(w, r, i) && Marked(w, db, r, i)
    ensures db.events[w.block(r)[i].id] == w.block(r)[i]
    ensures CursorReaches(db, w.block(r)[i].poolAddress, AtEvent(r, i))
  {
  }

  /**
   * An unmarked event that a non-snapshot cursor has passed lies in a completed round: within
   * the round, markers are written before the cursor can move on.
   */
  lemma UnmarkedNotPassed(w: World, db: Db, r: nat, i: nat, seen: LpState)
    requires ValidWorld(w) && DbInv(w, db) && IsEvent(w, r, i)
    requires SeenOk(w, db, w.block(r)[i].poolAddress, seen)
    requires w.block(r)[i].id !in db.events
    ensures seen.cursor.value.AtEvent? && Before(AtEvent(r, i), seen.cursor.value) ==> CheckpointAtLeast(db, r)
  {
    assert IsPoolEvent(w, w.block(r)[i].poolAddress, r, i);
  }

  lemma AliasKeeps(w: World, db: Db, r: nat, i: nat, pc: Pc)
    requires ValidWorld(w) && DbInv(w, db) && IsEvent(w, r, i) && LocalInv(w, db, Projecting(r, i, pc))
    requires pc.ReadAliases?
    ensures var (db', l') := ProjectNext(w.block(r)[i], db, r, i, pc);
            db' == db && LocalInv(w, db, l')
  {
    hide Tracked, DistinctIds, DbInv, Held, EventFits, RoundFits, FailedRightly, SoundCursor;
    if pc.aliases == [] {
      if pc.found {
        MarkedIsReached(w, db, r, i);
      }
      DecideKeeps(w, db, r, i, pc);
    } else {
      AliasIsFree(w, db, r, i, pc.aliases[0]);
    }
  }

  /** No marker is stored under a legacy ID of an event. */
  lemma AliasIsFree(w: World, db: Db, r: nat, i: nat, a: string)
    requires ValidWorld(w) && DbInv(w, db) && IsEvent(w, r, i) && a in EventIds.LegacyAliases(w.block(r)[i].id)
    ensures a !in db.events
  {
    assert !IsEventId(w, a);
  }

  lemma DecideKeeps(w: World, db: Db, r: nat, i: nat, pc: Pc)
    requires Tracked(w) && IsEvent(w, r, i) && LocalInv(w, db, Projecting(r, i, pc)) && pc.ReadAliases?
    requires pc.found ==> Handled(w, db, r, i)
    ensures LocalInv(w, db, Decide(w.block(r)[i], r, i, pc.seen, pc.found))
  {
    var p := w.block(r)[i].poolAddress;
    var c := pc.seen.cursor.value;
    if !pc.found && Before(AtEvent(r, i), c) && SnapshotCovers(c, r) {
      BeforeTransitive(RoundEnd(r), c, db.states[p].cursor.value);
      BeforeTransitive(AtEvent(r, i), RoundEnd(r), db.states[p].cursor.value);
      assert Handled(w, db, r, i);
    }
  }

  /**
   * The heart of the protocol: when the compare-and-set of an event succeeds, no event of the
   * pool lies strictly between the cursor it replaces and the event.
   */
  lemma NothingSkipped(w: World, db: Db, r: nat, i: nat, c: Cursor)
    requires ValidWorld(w) && DbInv(w, db) && IsEvent(w, r, i)
    requires CheckpointAtLeast(db, r - 1)
    requires forall j: nat | j < i :: IsEvent(w, r, j) && Handled(w, db, r, j)
    requires var p := w.block(r)[i].poolAddress; p in w.pools && db.states[p].cursor == Some(c)
    ensures forall q: nat, j: nat | IsPoolEvent(w, w.block(r)[i].poolAddress, q, j)
                                    && Before(AtEvent(q, j), AtEvent(r, i)) :: AtMost(AtEvent(q, j), c)
  {
    var p := w.block(r)[i].poolAddress;
    forall q: nat, j: nat | IsPoolEvent(w, p, q, j) && Before(AtEvent(q, j), AtEvent(r, i))
      ensures AtMost(AtEvent(q, j), c)
    {
      if q < r {
        assert CheckpointAtLeast(db, q);
      } else {
        assert Handled(w, db, r, j);
      }
    }
  }

  lemma SwapKeeps(w: World, db: Db, r: nat, i: nat, pc: Pc)
    requires ValidWorld(w) && DbInv(w, db) && IsEvent(w, r, i) && LocalInv(w, db, Projecting(r, i, pc))
    requires pc.Swap?
    ensures var (db', l') := ProjectNext(w.block(r)[i], db, r, i, pc);
            DbInv(w, db') && Evolves(w, db, db') && LocalInv(w, db', l')
  {
    var e := w.block(r)[i];
    var p := e.poolAddress;
    var after := ApplyDelta(db.states, p, pc.seen, AtEvent(r, i), r, DeltaOf(w, e));
    if after.Some? {
      SwapApplied(w, db, r, i, pc.seen);
    } else {
      SwapMissed(w, db, r, i, pc.seen);
    }
    SwapOutcome(w, db, r, i, pc.seen);
  }

  /** What the operation leads to. */
  lemma SwapOutcome(w: World, db: Db, r: nat, i: nat, seen: LpState)
    requires Tracked(w) && IsEvent(w, r, i) && LocalInv(w, db, Projecting(r, i, Pc.Swap(seen)))
    ensures var e := w.block(r)[i];
            var after := ApplyDelta(db.states, e.poolAddress, seen, AtEvent(r, i), r, DeltaOf(w, e));
            ProjectNext(e, db, r, i, Pc.Swap(seen))
            == if after.Some? then (db.(states := after.value), Projecting(r, i, Record(Applied)))
               else (db, Projecting(r, i, CheckLoss(seen)))
  {
    hide EventFits, RoundFits, FailedRightly, Handled, SoundCursor;
  }

  lemma SwapApplied(w: World, db: Db, r: nat, i: nat, seen: LpState)
    requires ValidWorld(w) && DbInv(w, db) && IsEvent(w, r, i) && LocalInv(w, db, Projecting(r, i, Pc.Swap(seen)))
    requires ApplyDelta(db.states, w.block(r)[i].poolAddress, seen, AtEvent(r, i), r, DeltaOf(w, w.block(r)[i])).Some?
    ensures var e := w.block(r)[i];
            var db' := db.(states := ApplyDelta(db.states, e.poolAddress, seen, AtEvent(r, i), r, DeltaOf(w, e)).value);
            DbInv(w, db') && Evolves(w, db, db') && LocalInv(w, db', Projecting(r, i, Record(Applied)))
  {
    hide Held, EventFits, RoundFits, FailedRightly, MarkersSound, CheckpointCovered, SoundCursor;
    var e := w.block(r)[i];
    var p := e.poolAddress;
    assert PoolSound(w, db, p);
    SwapSucceeds(w, db, r, i, seen.cursor.value);
    BoundsAreRange(db.states[p].balances, DeltaOf(w, e));
    var db' := db.(states := ApplyDelta(db.states, p, seen, AtEvent(r, i), r, DeltaOf(w, e)).value);
    assert Evolves(w, db, db');
    SwapKeepsDb(w, db, db', r, i, seen.cursor.value);
    Stable(w, db, db', Projecting(r, i, ReadState));
  }

  lemma SwapMissed(w: World, db: Db, r: nat, i: nat, seen: LpState)
    requires ValidWorld(w) && DbInv(w, db) && IsEvent(w, r, i) && LocalInv(w, db, Projecting(r, i, Pc.Swap(seen)))
    requires ApplyDelta(db.states, w.block(r)[i].poolAddress, seen, AtEvent(r, i), r, DeltaOf(w, w.block(r)[i])).None?
    ensures LocalInv(w, db, Projecting(r, i, CheckLoss(seen))) && Evolves(w, db, db)
  {
    hide Held, EventFits, RoundFits, FailedRightly, MarkersSound, CheckpointCovered, SoundCursor;
    assert PoolSound(w, db, w.block(r)[i].poolAddress);
    if db.states[w.block(r)[i].poolAddress].cursor == seen.cursor {
      SwapSucceeds(w, db, r, i, seen.cursor.value);
    }
  }

  /**
   * With nothing skipped the new balances are the right ones, and the bounds guard refuses the
   * update exactly when they do not fit the store.
   */
  lemma SwapSucceeds(w: World, db: Db, r: nat, i: nat, c: Cursor)
    requires ValidWorld(w) && DbInv(w, db) && IsEvent(w, r, i)
    requires CheckpointAtLeast(db, r - 1)
    requires forall j: nat | j < i :: IsEvent(w, r, j) && Handled(w, db, r, j)
    requires var p := w.block(r)[i].poolAddress; p in w.pools && db.states[p].cursor == Some(c)
    requires Before(c, AtEvent(r, i))
    ensures var e := w.block(r)[i];
            var s := db.states[e.poolAddress];
            && s.snapshotRound < r
            && s.balances.Add(DeltaOf(w, e)) == Held(w, e.poolAddress, s.snapshotRound, AtEvent(r, i))
            && (WithinBounds(s.balances.Get(DeltaOf(w, e).field), DeltaOf(w, e).amount)
                <==> Held(w, e.poolAddress, s.snapshotRound, AtEvent(r, i)).InRange())
            && (EventFits(w, r, i) ==> WithinBounds(s.balances.Get(DeltaOf(w, e).field), DeltaOf(w, e).amount))
  {
    var e := w.block(r)[i];
    var p := e.poolAddress;
    assert PoolSound(w, db, p);
    var b := db.states[p].snapshotRound;
    BeforeTransitive(RoundEnd(b), c, AtEvent(r, i));
    NothingSkipped(w, db, r, i, c);
    assert IsPoolEvent(w, p, r, i);
    NextEventHeld(w, p, b, c, r, i);
    BoundsAreRange(db.states[p].balances, DeltaOf(w, e));
    hide Held;
    assert EventFits(w, r, i) ==> Held(w, p, b, AtEvent(r, i)).InRange();
  }

  /** From balances within range, the guard of an update is that the result is within range. */
  lemma BoundsAreRange(b: Balances, d: BalanceDelta)
    requires b.InRange()
    ensures WithinBounds(b.Get(d.field), d.amount) <==> b.Add(d).InRange()
  {
  }

  lemma SwapKeepsDb(w: World, db: Db, db': Db, r: nat, i: nat, c: Cursor)
    requires ValidWorld(w) && DbInv(w, db) && IsEvent(w, r, i)
    requires CheckpointAtLeast(db, r - 1)
    requires forall j: nat | j < i :: IsEvent(w, r, j) && Handled(w, db, r, j)
    requires var p := w.block(r)[i].poolAddress; p in w.pools && db.states[p].cursor == Some(c)
    requires Before(c, AtEvent(r, i))
    requires Evolves(w, db, db')
    requires var p := w.block(r)[i].poolAddress;
             db' == db.(states := db.states[p := LpState(w.pools[p],
               db.states[p].balances.Add(DeltaOf(w, w.block(r)[i])), Some(AtEvent(r, i)), r, db.states[p].snapshotRound)])
    requires db'.states[w.block(r)[i].poolAddress].balances.InRange()
    ensures DbInv(w, db')
  {
    hide Held, EventFits, RoundFits;
    var p := w.block(r)[i].poolAddress;
    SwapSucceeds(w, db, r, i, c);
    forall j: nat | j < i && IsPoolEvent(w, p, r, j) ensures Marked(w, db', r, j) {
      assert Handled(w, db, r, j);
    }
    forall q | q in w.pools ensures PoolSound(w, db', q) {
      assert PoolSound(w, db, q);
      EvolvesKeepsSound(w, db, db', q, db.states[q].cursor.value);
    }
    ReachesSurvive(w, db, db');
  }

  /** Evolution keeps every claim about which events the cursors have reached. */
  lemma ReachesSurvive(w: World, db: Db, db': Db)
    requires ValidWorld(w) && DbInv(w, db) && Evolves(w, db, db')
    requires db'.events == db.events && db'.sync.lastRound == db.sync.lastRound
    ensures MarkersSound(w, db') && CheckpointCovered(w, db')
  {
    hide Held, EventFits, RoundFits;
    forall r: nat, k: nat | IsEvent(w, r, k) && Marked(w, db', r, k)
      ensures CursorReaches(db', w.block(r)[k].poolAddress, AtEvent(r, k))
    {
      assert Marked(w, db, r, k);
      EvolvesKeepsReach(w, db, db', w.block(r)[k].poolAddress, AtEvent(r, k));
    }
    forall r: nat, k: nat | IsEvent(w, r, k) && CheckpointAtLeast(db', r)
      ensures CursorReaches(db', w.block(r)[k].poolAddress, AtEvent(r, k))
    {
      EvolvesKeepsReach(w, db, db', w.block(r)[k].poolAddress, AtEvent(r, k));
    }
  }

  /** A pool nobody wrote to stays sound. */
  lemma UntouchedPool(w: World, db: Db, db': Db, p: string)
    requires Tracked(w) && p in w.pools && PoolSound(w, db, p) && Evolves(w, db, db')
    requires p in db'.states && db'.states[p] == db.states[p]
    ensures PoolSound(w, db', p)
  {
    hide Held, EventFits, RoundFits;
    EvolvesKeepsSound(w, db, db', p, db.states[p].cursor.value);
  }

  lemma RecordKeepsDb(w: World, db: Db, r: nat, i: nat)
    requires ValidWorld(w) && DbInv(w, db) && IsEvent(w, r, i)
    requires CursorReaches(db, w.block(r)[i].poolAddress, AtEvent(r, i))
    ensures var db' := db.(events := EventRecorded(db.events, w.block(r)[i]));
            && DbInv(w, db') && Evolves(w, db, db')
            && db'.events[w.block(r)[i].id] == w.block(r)[i] && Handled(w, db', r, i)
  {
    hide MarkersSound, PoolSound, DistinctIds;
    var db' := db.(events := EventRecorded(db.events, w.block(r)[i]));
    forall q | q in w.pools ensures PoolSound(w, db', q) {
      SoundPool(w, db, q);
      UntouchedPool(w, db, db', q);
    }
    RecordMarkers(w, db, r, i);
  }

  lemma SoundPool(w: World, db: Db, p: string)
    requires Tracked(w) && DbInv(w, db) && p in w.pools
    ensures PoolSound(w, db, p) && p in db.states
  {
  }

  lemma RecordMarkers(w: World, db: Db, r: nat, i: nat)
    requires ValidWorld(w) && MarkersSound(w, db) && IsEvent(w, r, i)
    requires CursorReaches(db, w.block(r)[i].poolAddress, AtEvent(r, i))
    ensures var db' := db.(events := EventRecorded(db.events, w.block(r)[i]));
            MarkersSound(w, db') && db'.events[w.block(r)[i].id] == w.block(r)[i]
  {
    var e := w.block(r)[i];
    var db' := db.(events := EventRecorded(db.events, e));
    assert Marked(w, db, r, i) ==> db.events[e.id] == e;
    forall q: nat, k: nat | IsEvent(w, q, k) && Marked(w, db', q, k)
      ensures db'.events[w.block(q)[k].id] == w.block(q)[k]
      ensures CursorReaches(db', w.block(q)[k].poolAddress, AtEvent(q, k))
    {
      if Marked(w, db, q, k) {
        assert CursorReaches(db, w.block(q)[k].poolAddress, AtEvent(q, k));
      } else {
        assert SameId(w, q, k, r, i);
      }
    }
    forall id | id in db'.events ensures IsEventId(w, id) {
      if id == e.id {
        assert IsEvent(w, r, i) && w.block(r)[i].id == id;
      }
    }
  }

  lemma SettledInv(w: World, db: Db, r: nat, i: nat)
    requires Tracked(w) && IsEvent(w, r, i) && LocalInv(w, db, Projecting(r, i, ReadState)) && Handled(w, db, r, i)
    ensures LocalInv(w, db, Settled(r, i))
  {
  }

  lemma RecordKeeps(w: World, db: Db, r: nat, i: nat, pc: Pc)
    requires ValidWorld(w) && DbInv(w, db) && IsEvent(w, r, i) && LocalInv(w, db, Projecting(r, i, pc))
    requires pc.Record?
    ensures var (db', l') := ProjectNext(w.block(r)[i], db, r, i, pc);
            DbInv(w, db') && Evolves(w, db, db') && LocalInv(w, db', l')
  {
    hide Held, EventFits, RoundFits;
    var db' := db.(events := EventRecorded(db.events, w.block(r)[i]));
    RecordKeepsDb(w, db, r, i);
    assert LocalInv(w, db, Projecting(r, i, ReadState));
    hide ValidWorld, DbInv, Evolves, LocalInv, Handled;
    Stable(w, db, db', Projecting(r, i, ReadState));
    SettledInv(w, db', r, i);
  }

  lemma ProjectKeeps(w: World, db: Db, r: nat, i: nat, pc: Pc)
    requires ValidWorld(w) && DbInv(w, db) && IsEvent(w, r, i) && LocalInv(w, db, Projecting(r, i, pc))
    ensures var (db', l') := ProjectNext(w.block(r)[i], db, r, i, pc);
            DbInv(w, db') && Evolves(w, db, db') && LocalInv(w, db', l')
  {
    hide Held, EventFits, RoundFits;
    match pc
    case ReadAliases(_, _, _) => AliasKeeps(w, db, r, i, pc);
    case Swap(_) => SwapKeeps(w, db, r, i, pc);
    case Record(_) => RecordKeeps(w, db, r, i, pc);
    case ReRead => ReReadKeeps(w, db, r, i);
    case CheckLoss(_) => CheckLossKeeps(w, db, r, i, pc);
    case _ => ReadKeeps(w, db, r, i, pc);
  }

  /** The checkpoint operations touch the checkpoint alone. */
  lemma SyncKeeps(w: World, db: Db, db': Db)
    requires ValidWorld(w) && DbInv(w, db) && db' == db.(sync := db'.sync)
    requires db.sync.lastRound.Some? ==> CheckpointAtLeast(db', db.sync.lastRound.value)
    requires CheckpointCovered(w, db')
    ensures DbInv(w, db') && Evolves(w, db, db')
  {
    hide Held, EventFits, RoundFits;
    forall p | p in w.pools ensures PoolSound(w, db', p) {
      UntouchedPool(w, db, db', p);
    }
    forall r: nat, k: nat | IsEvent(w, r, k) && Marked(w, db', r, k)
      ensures db'.events[w.block(r)[k].id] == w.block(r)[k]
      ensures CursorReaches(db', w.block(r)[k].poolAddress, AtEvent(r, k))
    {
      assert Marked(w, db, r, k);
    }
  }

  /** Completing round r moves the checkpoint over exactly the events this worker has settled. */
  lemma CompleteKeeps(w: World, db: Db, me: WorkerId, r: nat, now: int)
    requires ValidWorld(w) && DbInv(w, db) && r > 0
    requires LocalInv(w, db, Projecting(r, |w.block(r)|, ReadState))
    requires Completed(db.sync, me, Some(r - 1), r, now).Some?
    ensures var db' := db.(sync := Completed(db.sync, me, Some(r - 1), r, now).value);
            DbInv(w, db') && Evolves(w, db, db')
  {
    hide Held, EventFits, RoundFits;
    var db' := db.(sync := Completed(db.sync, me, Some(r - 1), r, now).value);
    forall q: nat, k: nat | IsEvent(w, q, k) && CheckpointAtLeast(db', q)
      ensures CursorReaches(db', w.block(q)[k].poolAddress, AtEvent(q, k))
    {
      if q == r {
        assert Handled(w, db, r, k);
      } else {
        assert CheckpointAtLeast(db, q);
      }
    }
    SyncKeeps(w, db, db');
  }

  /** The least covered round over all collected cursors is covered by every pool. */
  lemma CursorsCover(w: World, db: Db, l: Local, nodeRound: nat, q: nat, k: nat)
    requires l.Cutover? && CutoverInv(w, db, l) && |l.cursors| == |l.order|
    requires IsEvent(w, q, k) && w.block(q)[k].poolAddress in w.pools
    requires var c := LeastCovered(nodeRound, l.cursors); c.Some? && q <= c.value
    ensures CursorReaches(db, w.block(q)[k].poolAddress, AtEvent(q, k))
  {
    var p := w.block(q)[k].poolAddress;
    var i :| 0 <= i < |l.order| && l.order[i] == p;
    assert q <= CompleteThrough(l.cursors[i]).value;
    BeforeTransitive(AtEvent(q, k), l.cursors[i].value, db.states[p].cursor.value);
  }

  lemma AdvanceKeeps(w: World, db: Db, l: Local, nodeRound: nat, now: int)
    requires ValidWorld(w) && DbInv(w, db) && l.Cutover? && CutoverInv(w, db, l) && |l.cursors| == |l.order|
    requires SnapshotCheckpointRound(l.expected, nodeRound, l.cursors).Success?
    requires Advanced(db.sync, l.expected, SnapshotCheckpointRound(l.expected, nodeRound, l.cursors).value, now).Some?
    ensures var c := SnapshotCheckpointRound(l.expected, nodeRound, l.cursors).value;
            var db' := db.(sync := Advanced(db.sync, l.expected, c, now).value);
            DbInv(w, db') && Evolves(w, db, db')
  {
    var c := SnapshotCheckpointRound(l.expected, nodeRound, l.cursors).value;
    var db' := db.(sync := Advanced(db.sync, l.expected, c, now).value);
    forall q: nat, k: nat | IsEvent(w, q, k) && CheckpointAtLeast(db', q)
      ensures CursorReaches(db', w.block(q)[k].poolAddress, AtEvent(q, k))
    {
      CursorsCover(w, db, l, nodeRound, q, k);
    }
    SyncKeeps(w, db, db');
  }

  lemma SnapshotKeepsDb(w: World, db: Db, p: string, observed: nat)
    requires ValidWorld(w) && DbInv(w, db) && p in w.pools && CursorBefore(db.states[p].cursor, RoundEnd(observed))
    requires w.observed(p, observed).InRange()
    ensures var states := SnapshotReplaced(db.states, p, w.observed(p, observed), observed);
            && states.Some?
            && DbInv(w, db.(states := states.value)) && Evolves(w, db, db.(states := states.value))
            && CursorReaches(db.(states := states.value), p, RoundEnd(observed))
  {
    hide DistinctIds, Held, EventFits, RoundFits, MarkersSound, CheckpointCovered;
    SoundPool(w, db, p);
    HeldAtSnapshot(w, p, observed, RoundEnd(observed));
    var db' := db.(states := SnapshotReplaced(db.states, p, w.observed(p, observed), observed).value);
    forall q | q in w.pools ensures PoolSound(w, db', q) {
      if q != p {
        SoundPool(w, db, q);
        UntouchedPool(w, db, db', q);
      }
    }
    ReachesSurvive(w, db, db');
  }

  lemma HasCursor(w: World, db: Db, p: string)
    requires Tracked(w) && p in w.pools && PoolSound(w, db, p)
    ensures p in db.states && db.states[p].cursor.Some?
  {
  }

  lemma SelfEvolves(w: World, db: Db)
    ensures Evolves(w, db, db)
  {
  }

  lemma SnapshotKeeps(w: World, db: Db, l: Local)
    requires ValidWorld(w) && DbInv(w, db) && LocalInv(w, db, l)
    requires l.Holding? && l.cut.Cutover? && |l.cut.cursors| < |l.cut.order|
    ensures var (db', l') := StoreSnapshot(db, l);
            DbInv(w, db') && Evolves(w, db, db') && LocalInv(w, db', l')
  {
    hide Tracked, DistinctIds, DbInv, Evolves, Held, EventFits, RoundFits, PoolSound;
    var p := l.cut.order[|l.cut.cursors|];
    SoundPool(w, db, p);
    HasCursor(w, db, p);
    SelfEvolves(w, db);
    if l.missed || !CursorBefore(db.states[p].cursor, RoundEnd(l.observed)) {
      MissedSnapshot(w, db, l);
    } else {
      SnapshotKeepsDb(w, db, p, l.observed);
      Stable(w, db, StoreSnapshot(db, l).0, l.cut);
    }
  }

  /** A snapshot that came too late finds a newer cursor, and never conflicting balances. */
  lemma MissedSnapshot(w: World, db: Db, l: Local)
    requires Tracked(w) && LocalInv(w, db, l) && l.Holding? && |l.cut.cursors| < |l.cut.order|
    requires PoolSound(w, db, l.cut.order[|l.cut.cursors|])
    requires l.missed || !CursorBefore(db.states[l.cut.order[|l.cut.cursors|]].cursor, RoundEnd(l.observed))
    ensures StoreSnapshot(db, l).0 == db && LocalInv(w, db, StoreSnapshot(db, l).1)
  {
    hide Held, EventFits, RoundFits;
    HeldAtSnapshot(w, l.cut.order[|l.cut.cursors|], l.observed, RoundEnd(l.observed));
  }

  /** Claiming, losing and releasing a lease leave the checkpoint where it is. */
  lemma LeaseKeeps(w: World, db: Db, doc: SyncState)
    requires ValidWorld(w) && DbInv(w, db) && doc.lastRound == db.sync.lastRound
    ensures DbInv(w, db.(sync := doc)) && Evolves(w, db, db.(sync := doc))
  {
    hide Held, EventFits, RoundFits;
    var db' := db.(sync := doc);
    forall r: nat, k: nat | IsEvent(w, r, k) && CheckpointAtLeast(db', r)
      ensures CursorReaches(db', w.block(r)[k].poolAddress, AtEvent(r, k))
    {
      assert CheckpointAtLeast(db, r);
    }
    SyncKeeps(w, db, db');
  }

  lemma ClaimStepKeeps(w: World, me: WorkerId, db: Db, l: Local, expected: nat, now: int)
    requires ValidWorld(w) && DbInv(w, db) && LocalInv(w, db, l)
    ensures var (db', l') := Act(w, me, db, l, Claim(expected, now));
            DbInv(w, db') && Evolves(w, db, db') && LocalInv(w, db', l')
  {
    if l.Idle? && Claimed(db.sync, me, Some(expected), expected + 1, now).Some? {
      LeaseKeeps(w, db, Claimed(db.sync, me, Some(expected), expected + 1, now).value);
      assert IsEvent(w, expected + 1, 0) ==> w.block(expected + 1)[0].poolAddress in w.pools;
    }
  }

  lemma CompleteStepKeeps(w: World, me: WorkerId, db: Db, l: Local, now: int)
    requires ValidWorld(w) && DbInv(w, db) && LocalInv(w, db, l)
    ensures var (db', l') := Act(w, me, db, l, Complete(now));
            DbInv(w, db') && Evolves(w, db, db') && LocalInv(w, db', l')
  {
    hide Held, EventFits, RoundFits;
    if l.Projecting? && l.index == |w.block(l.round)| && l.round > 0
       && Completed(db.sync, me, Some(l.round - 1), l.round, now).Some?
    {
      assert LocalInv(w, db, Projecting(l.round, |w.block(l.round)|, ReadState));
      CompleteKeeps(w, db, me, l.round, now);
    }
  }

  lemma AdvanceStepKeeps(w: World, me: WorkerId, db: Db, l: Local, nodeRound: nat, now: int)
    requires ValidWorld(w) && DbInv(w, db) && LocalInv(w, db, l)
    ensures var (db', l') := Act(w, me, db, l, Advance(nodeRound, now));
            DbInv(w, db') && Evolves(w, db, db') && LocalInv(w, db', l')
  {
    if l.Cutover? && |l.cursors| == |l.order| {
      var c := SnapshotCheckpointRound(l.expected, nodeRound, l.cursors);
      if c.Success? && Advanced(db.sync, l.expected, c.value, now).Some? {
        AdvanceKeeps(w, db, l, nodeRound, now);
      }
    }
  }

  lemma CutoverStepKeeps(w: World, me: WorkerId, db: Db, l: Local, a: Action)
    requires ValidWorld(w) && DbInv(w, db) && LocalInv(w, db, l)
    requires a.BeginCutover? || a.Fetch? || a.Store? || a.Advance?
    ensures var (db', l') := Act(w, me, db, l, a);
            DbInv(w, db') && Evolves(w, db, db') && LocalInv(w, db', l')
  {
    hide ValidWorld, DbInv;
    if a.Store? && l.Holding? && l.cut.Cutover? && |l.cut.cursors| < |l.cut.order| {
      SnapshotKeeps(w, db, l);
    } else if a.Advance? {
      AdvanceStepKeeps(w, me, db, l, a.nodeRound, a.now);
    }
  }

  /** Every step of every worker keeps the collections sound and only moves them forward. */
  lemma StepKeeps(w: World, me: WorkerId, db: Db, l: Local, a: Action)
    requires ValidWorld(w) && DbInv(w, db) && LocalInv(w, db, l)
    ensures var (db', l') := Act(w, me, db, l, a);
            DbInv(w, db') && Evolves(w, db, db') && LocalInv(w, db', l')
  {
    hide ValidWorld, DbInv;
    if a.Continue? {
      if l.Projecting? && l.index < |w.block(l.round)| {
        ProjectKeeps(w, db, l.round, l.index, l.pc);
      }
    } else if a.Claim? {
      ClaimStepKeeps(w, me, db, l, a.expected, a.now);
    } else if a.Complete? {
      CompleteStepKeeps(w, me, db, l, a.now);
    } else if a.Release? {
      if l.Failed? {
        LeaseKeeps(w, db, Released(db.sync, me, l.round));
      }
    } else if !a.Crash? {
      CutoverStepKeeps(w, me, db, l, a);
    }
  }

  // ---- every run ----

  datatype System = System(db: Db, workers: map<WorkerId, Local>) {

    /** A worker that has not done anything yet is idle. */
    function LocalOf(me: WorkerId): Local {
      if me in workers then workers[me] else Idle
    }
  }

  datatype Step = Step(worker: WorkerId, action: Action)

  ghost function Next(w: World, s: System, step: Step): System
    requires Tracked(w)
  {
    var (db, l) := Act(w, step.worker, s.db, s.LocalOf(step.worker), step.action);
    System(db, s.workers[step.worker := l])
  }

  /** The system after a schedule: any workers, in any order. */
  ghost function Run(w: World, s: System, schedule: seq<Step>): System
    requires Tracked(w)
  {
    if schedule == [] then s
    else Next(w, Run(w, s, schedule[..|schedule| - 1]), schedule[|schedule| - 1])
  }

  /** After the cutover: every cursor is a snapshot, nothing is recorded, and nobody has a checkpoint yet. */
  ghost predicate Start(w: World, s: System)
    requires Tracked(w)
  {
    && s.workers == map[]
    && s.db.events == map[]
    && s.db.sync == SyncState(None, None, None, None)
    && forall p | p in w.pools ::
         && p in s.db.states && s.db.states[p].info == w.pools[p]
         && s.db.states[p].cursor == Some(RoundEnd(s.db.states[p].snapshotRound))
         && s.db.states[p].balances == w.observed(p, s.db.states[p].snapshotRound)
         && s.db.states[p].balances.InRange()
  }

  ghost predicate SystemInv(w: World, s: System)
    requires Tracked(w)
  {
    DbInv(w, s.db) && forall me | me in s.workers :: LocalInv(w, s.db, s.workers[me])
  }

  lemma NextKeeps(w: World, s: System, step: Step)
    requires ValidWorld(w) && SystemInv(w, s)
    ensures SystemInv(w, Next(w, s, step)) && Evolves(w, s.db, Next(w, s, step).db)
  {
    var s' := Next(w, s, step);
    StepKeeps(w, step.worker, s.db, s.LocalOf(step.worker), step.action);
    forall me | me in s'.workers ensures LocalInv(w, s'.db, s'.workers[me]) {
      if me != step.worker {
        Stable(w, s.db, s'.db, s.workers[me]);
      }
    }
  }

  lemma {:induction false} RunKeeps(w: World, s: System, schedule: seq<Step>)
    requires ValidWorld(w) && SystemInv(w, s)
    ensures SystemInv(w, Run(w, s, schedule)) && Evolves(w, s.db, Run(w, s, schedule).db)
  {
    if schedule != [] {
      var before := schedule[..|schedule| - 1];
      RunKeeps(w, s, before);
      NextKeeps(w, Run(w, s, before), schedule[|schedule| - 1]);
      EvolvesTransitive(w, s.db, Run(w, s, before).db, Run(w, s, schedule).db);
    }
  }

  lemma StartInv(w: World, s: System)
    requires ValidWorld(w) && Start(w, s)
    ensures SystemInv(w, s)
  {
    forall p | p in w.pools ensures PoolSound(w, s.db, p) {
      HeldAtSnapshot(w, p, s.db.states[p].snapshotRound, s.db.states[p].cursor.value);
    }
  }

  /**
   * In every reachable state, with live, stale and crashed workers and racing snapshots, each
   * pool's four balances are those of its last snapshot plus the deltas of all its events since,
   * up to its cursor; with exact snapshots they are the truth at the cursor.
   */
  lemma BalancesAreTrue(w: World, s: System, schedule: seq<Step>, p: string)
    requires ValidWorld(w) && Start(w, s) && p in w.pools
    ensures var db := Run(w, s, schedule).db;
            && p in db.states && db.states[p].cursor.Some? && IsCursor(w, p, db.states[p].cursor.value)
            && AtMost(RoundEnd(db.states[p].snapshotRound), db.states[p].cursor.value)
            && db.states[p].balances == Held(w, p, db.states[p].snapshotRound, db.states[p].cursor.value)
            && (ExactSnapshots(w) ==> db.states[p].balances == Truth(w, p, db.states[p].cursor.value))
  {
    StartInv(w, s);
    RunKeeps(w, s, schedule);
    hide Run;
    var state := Run(w, s, schedule).db.states[p];
    assert PoolSound(w, Run(w, s, schedule).db, p);
    HeldAtSnapshot(w, p, state.snapshotRound, state.cursor.value);
  }

  /** Whenever the checkpoint is L, every pool's cursor covers every event of every round up to L. */
  lemma CheckpointIsCovered(w: World, s: System, schedule: seq<Step>, r: nat, k: nat)
    requires ValidWorld(w) && Start(w, s) && IsEvent(w, r, k)
    requires var last := Run(w, s, schedule).db.sync.lastRound; last.Some? && r <= last.value
    ensures var db := Run(w, s, schedule).db;
            var p := w.block(r)[k].poolAddress;
            p in db.states && db.states[p].cursor.Some? && AtMost(AtEvent(r, k), db.states[p].cursor.value)
  {
    StartInv(w, s);
    RunKeeps(w, s, schedule);
    assert CheckpointAtLeast(Run(w, s, schedule).db, r);
  }

  /**
   * While its round is still the next one, a worker can fail only by losing its claim or by an
   * event whose result does not fit the store; "advanced past unrecorded event" needs a round
   * that others have already completed.
   */
  lemma NoFalseAlarm(w: World, s: System, schedule: seq<Step>, me: WorkerId)
    requires ValidWorld(w) && Start(w, s) && Run(w, s, schedule).LocalOf(me).Failed?
    ensures var l := Run(w, s, schedule).LocalOf(me);
            var last := Run(w, s, schedule).db.sync.lastRound;
            || l.error == ProjectError.LostClaim
            || (l.error == AdvancedPastUnrecorded && last.Some? && l.round <= last.value)
            || (l.error == OutOfRange && !RoundFits(w, l.round))
            || (l.error == SnapshotRefused && exists p :: p in w.pools && !SnapshotFits(w, p, l.round))
  {
    StartInv(w, s);
    RunKeeps(w, s, schedule);
  }

  /** Running a schedule in two parts. */
  lemma {:induction false} RunSplit(w: World, s: System, schedule: seq<Step>, n: nat)
    requires Tracked(w) && n <= |schedule|
    ensures Run(w, s, schedule) == Run(w, Run(w, s, schedule[..n]), schedule[n..])
  {
    hide Next;
    if n == |schedule| {
      assert schedule[..n] == schedule && schedule[n..] == [];
    } else {
      var last := |schedule| - 1;
      RunSplit(w, s, schedule[..last], n);
      assert schedule[..last][..n] == schedule[..n];
      assert schedule[n..][..|schedule[n..]| - 1] == schedule[..last][n..];
    }
  }

  /** Cursors, markers and the checkpoint only ever move forward along a run. */
  lemma NeverBackwards(w: World, s: System, schedule: seq<Step>, i: nat, j: nat)
    requires ValidWorld(w) && Start(w, s) && i <= j <= |schedule|
    ensures Evolves(w, Run(w, s, schedule[..i]).db, Run(w, s, schedule[..j]).db)
  {
    StartInv(w, s);
    RunKeeps(w, s, schedule[..i]);
    RunSplit(w, s, schedule[..j], i);
    assert schedule[..j][..i] == schedule[..i];
    RunKeeps(w, Run(w, s, schedule[..i]), schedule[..j][i..]);
  }

  /** Step n of the schedule is the successful compare-and-set of event k of round r. */
  ghost predicate AppliesAt(w: World, s: System, schedule: seq<Step>, n: nat, r: nat, k: nat)
    requires Tracked(w) && n < |schedule|
  {
    var db := Run(w, s, schedule[..n]).db;
    var l := Run(w, s, schedule[..n]).LocalOf(schedule[n].worker);
    && IsEvent(w, r, k)
    && schedule[n].action == Continue
    && l.Projecting? && l.round == r && l.index == k && l.pc.Swap?
    && Run(w, s, schedule[..n + 1]).db.states != db.states
  }

  lemma RunStep(w: World, s: System, schedule: seq<Step>, n: nat)
    requires Tracked(w) && n < |schedule|
    ensures Run(w, s, schedule[..n + 1]) == Next(w, Run(w, s, schedule[..n]), schedule[n])
  {
    assert schedule[..n + 1][..n] == schedule[..n];
  }

  /** The delta of an event is applied at most once in any run. */
  lemma AppliedOnce(w: World, s: System, schedule: seq<Step>, m: nat, n: nat, r: nat, k: nat)
    requires ValidWorld(w) && Start(w, s) && m < |schedule| && n < |schedule|
    requires AppliesAt(w, s, schedule, m, r, k) && AppliesAt(w, s, schedule, n, r, k)
    ensures m == n
  {
    if m < n {
      AppliedBefore(w, s, schedule, m, n, r, k);
    } else if n < m {
      AppliedBefore(w, s, schedule, n, m, r, k);
    }
  }

  /** A compare-and-set that changed a state took its cursor from before the event onto it. */
  lemma SwapMoves(w: World, me: WorkerId, db: Db, l: Local)
    requires ValidWorld(w) && DbInv(w, db) && LocalInv(w, db, l)
    requires l.Projecting? && l.index < |w.block(l.round)| && l.pc.Swap?
    requires Act(w, me, db, l, Continue).0.states != db.states
    ensures var p := w.block(l.round)[l.index].poolAddress;
            && p in w.pools
            && !CursorReaches(db, p, AtEvent(l.round, l.index))
            && CursorReaches(Act(w, me, db, l, Continue).0, p, AtEvent(l.round, l.index))
  {
    hide Held, EventFits, RoundFits, FailedRightly;
  }

  lemma AppliedBefore(w: World, s: System, schedule: seq<Step>, m: nat, n: nat, r: nat, k: nat)
    requires ValidWorld(w) && Start(w, s) && m < n < |schedule|
    requires AppliesAt(w, s, schedule, m, r, k)
    ensures !AppliesAt(w, s, schedule, n, r, k)
  {
    if AppliesAt(w, s, schedule, n, r, k) {
      var first, second := Run(w, s, schedule[..m]), Run(w, s, schedule[..n]);
      StartInv(w, s);
      RunKeeps(w, s, schedule[..m]);
      RunKeeps(w, s, schedule[..n]);
      RunStep(w, s, schedule, m);
      RunStep(w, s, schedule, n);
      NeverBackwards(w, s, schedule, m + 1, n);
      SwapMoves(w, schedule[m].worker, first.db, first.LocalOf(schedule[m].worker));
      SwapMoves(w, schedule[n].worker, second.db, second.LocalOf(schedule[n].worker));
      EvolvesKeepsReach(w, Run(w, s, schedule[..m + 1]).db, second.db, w.block(r)[k].poolAddress, AtEvent(r, k));
    }
  }

  /** Step n of the schedule completes round r. */
  ghost predicate CompletesAt(w: World, s: System, schedule: seq<Step>, n: nat, r: nat)
    requires Tracked(w) && n < |schedule|
  {
    var l := Run(w, s, schedule[..n]).LocalOf(schedule[n].worker);
    schedule[n].action.Complete? && l.Projecting? && l.round == r
    && Run(w, s, schedule[..n + 1]).LocalOf(schedule[n].worker).Idle?
  }

  /** Completing a round moves the checkpoint from the round before it to it. */
  lemma CompletingMoves(w: World, me: WorkerId, db: Db, l: Local, a: Action)
    requires Tracked(w) && a.Complete? && l.Projecting?
    requires Act(w, me, db, l, a).1.Idle?
    ensures l.round > 0 && db.sync.lastRound == Some(l.round - 1) && Act(w, me, db, l, a).0.sync.lastRound == Some(l.round)
  {
  }

  /** Each round is completed by at most one claim. */
  lemma CompletedOnce(w: World, s: System, schedule: seq<Step>, m: nat, n: nat, r: nat)
    requires ValidWorld(w) && Start(w, s) && m < |schedule| && n < |schedule|
    requires CompletesAt(w, s, schedule, m, r) && CompletesAt(w, s, schedule, n, r)
    ensures m == n
  {
    hide Run, Act;
    RunStep(w, s, schedule, m);
    RunStep(w, s, schedule, n);
    CompletingMoves(w, schedule[m].worker, Run(w, s, schedule[..m]).db, Run(w, s, schedule[..m]).LocalOf(schedule[m].worker), schedule[m].action);
    CompletingMoves(w, schedule[n].worker, Run(w, s, schedule[..n]).db, Run(w, s, schedule[..n]).LocalOf(schedule[n].worker), schedule[n].action);
    if m < n {
      NeverBackwards(w, s, schedule, m + 1, n);
    } else if n < m {
      NeverBackwards(w, s, schedule, n + 1, m);
    }
  }
}

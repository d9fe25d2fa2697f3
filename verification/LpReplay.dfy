/**
 * Replay of one block: however often its batch is cut short and started again, by one worker
 * or several at once, finishing it once leads to one and the same stored state.
 */
module LpReplay {
  import opened Wrappers
  import opened LpDomain
  import opened LpWorld
  import opened LpProtocol
  import opened LpSafety
  import opened SyncCoordinator

  /** Steps of workers that replay round r: no snapshots, no other round. */
  predicate ReplayStep(step: Step, r: nat) {
    match step.action
    case Claim(expected, _) => expected + 1 == r
    case Continue => true
    case Complete(_) => true
    case Release => true
    case Crash => true
    case _ => false
  }

  predicate ReplayOf(schedule: seq<Step>, r: nat) {
    forall step <- schedule :: ReplayStep(step, r)
  }

  /** Where the replay starts: nobody is at work, and each pool has some cursor. */
  ghost predicate FreshStart(w: World, s: System)
    requires Tracked(w)
  {
    SystemInv(w, s) && s.workers == map[]
  }

  ghost function CursorOf(db: Db, p: string): Cursor
    requires p in db.states && db.states[p].cursor.Some?
  {
    db.states[p].cursor.value
  }

  /** A pool is untouched, or it has been moved to one of its events in round r. */
  ghost predicate PoolReplayed(w: World, db0: Db, db: Db, p: string, r: nat) {
    && p in db0.states && p in db.states && db0.states[p].cursor.Some? && db.states[p].cursor.Some?
    && (db.states[p] == db0.states[p]
        || (&& CursorOf(db, p).AtEvent? && CursorOf(db, p).round == r
            && Before(CursorOf(db0, p), CursorOf(db, p)) && db.states[p].lastUpdatedRound == r
            && db.states[p].snapshotRound == db0.states[p].snapshotRound))
  }

  /** A marker is old, or it is of an event of round r whose pool had not passed the round. */
  ghost predicate MarkerReplayed(w: World, db0: Db, db: Db, id: string, r: nat)
    requires id in db.events
  {
    id in db0.events
    || exists k: nat :: IsEvent(w, r, k) && w.block(r)[k].id == id
                        && w.block(r)[k].poolAddress in db0.states
                        && CursorBefore(db0.states[w.block(r)[k].poolAddress].cursor, RoundEnd(r))
  }

  ghost predicate LocalReplayed(w: World, db0: Db, l: Local, r: nat) {
    && (l.Idle? || l.Projecting? || l.Failed?)
    && (l.Projecting? ==> l.round == r)
    && (l.Projecting? && l.index < |w.block(r)| ==>
          var p := w.block(r)[l.index].poolAddress;
          p in db0.states && db0.states[p].cursor.Some?
          && (l.pc.ReadMarker? || l.pc.ReadAliases? || l.pc.Swap? ==>
                l.pc.seen.cursor.Some? && AtMost(CursorOf(db0, p), l.pc.seen.cursor.value))
          && (l.pc.Record? ==> AtMost(CursorOf(db0, p), AtEvent(r, l.index))))
  }

  ghost predicate Replayed(w: World, db0: Db, db: Db, r: nat)
    requires Tracked(w)
  {
    && DbInv(w, db0) && DbInv(w, db) && Evolves(w, db0, db)
    && db.states.Keys == db0.states.Keys
    && (forall p | p in db.states && p !in w.pools :: db.states[p] == db0.states[p])
    && (forall p | p in w.pools :: PoolReplayed(w, db0, db, p, r))
    && (forall id | id in db.events :: MarkerReplayed(w, db0, db, id, r))
  }

  /** What a replayed state says about one pool. */
  lemma ReplayedPool(w: World, db0: Db, db: Db, r: nat, p: string)
    requires Tracked(w) && Replayed(w, db0, db, r) && p in w.pools
    ensures PoolSound(w, db0, p) && PoolSound(w, db, p) && PoolReplayed(w, db0, db, p, r)
  {
  }

  /** Every pool and every marker of the new collections is accounted for. */
  lemma StillReplayed(w: World, db0: Db, db: Db, db': Db, r: nat)
    requires Tracked(w) && Replayed(w, db0, db, r) && DbInv(w, db') && Evolves(w, db0, db')
    requires db'.states.Keys == db.states.Keys
    requires forall p | p in w.pools && p in db.states && db'.states[p] != db.states[p] :: PoolReplayed(w, db0, db', p, r)
    requires forall p | p in db.states && p !in w.pools :: db'.states[p] == db.states[p]
    requires forall id | id in db'.events && id !in db.events :: MarkerReplayed(w, db0, db', id, r)
    ensures Replayed(w, db0, db', r)
  {
    hide DbInv, Evolves;
    forall p | p in w.pools ensures PoolReplayed(w, db0, db', p, r) {
      assert PoolReplayed(w, db0, db, p, r);
    }
    forall id | id in db'.events ensures MarkerReplayed(w, db0, db', id, r) {
      if id in db.events {
        assert MarkerReplayed(w, db0, db, id, r);
      }
    }
  }

  lemma SwapReplays(w: World, db0: Db, db: Db, r: nat, i: nat, seen: LpState)
    requires Tracked(w) && Replayed(w, db0, db, r) && IsEvent(w, r, i)
    requires LocalInv(w, db, Projecting(r, i, Pc.Swap(seen))) && LocalReplayed(w, db0, Projecting(r, i, Pc.Swap(seen)), r)
    ensures PoolReplayed(w, db0, ProjectNext(w.block(r)[i], db, r, i, Pc.Swap(seen)).0, w.block(r)[i].poolAddress, r)
  {
    hide Tracked, Replayed, DbInv, Evolves, PoolSound, SoundCursor, EventFits, RoundFits, Handled;
    var p := w.block(r)[i].poolAddress;
    PoolsOf(w, r, i);
    ReplayedPool(w, db0, db, r, p);
    BeforeTransitive(CursorOf(db0, p), seen.cursor.value, AtEvent(r, i));
  }

  lemma ReplayedProject(w: World, db0: Db, db: Db, r: nat, i: nat, pc: Pc)
    requires ValidWorld(w) && Replayed(w, db0, db, r) && IsEvent(w, r, i) && DbInv(w, db)
    requires LocalInv(w, db, Projecting(r, i, pc)) && LocalReplayed(w, db0, Projecting(r, i, pc), r)
    requires Evolves(w, db0, db)
    ensures var (db', l') := ProjectNext(w.block(r)[i], db, r, i, pc);
            Replayed(w, db0, db', r) && LocalReplayed(w, db0, l', r)
  {
    hide Tracked, DistinctIds, DbInv, LocalInv, LocalReplayed, Evolves, Replayed, PoolReplayed;
    var db' := ProjectNext(w.block(r)[i], db, r, i, pc).0;
    PoolsOf(w, r, i);
    ProjectKeeps(w, db, r, i, pc);
    EvolvesTransitive(w, db0, db, db');
    ReplayedLocal(w, db0, db, r, i, pc);
    if pc.Record? {
      RecordReplays(w, db0, db, r, i, pc);
    } else if pc.Swap? {
      SwapReplays(w, db0, db, r, i, pc.seen);
    }
    StillReplayed(w, db0, db, db', r);
  }

  lemma RecordReplays(w: World, db0: Db, db: Db, r: nat, i: nat, pc: Pc)
    requires Tracked(w) && IsEvent(w, r, i) && pc.Record? && LocalReplayed(w, db0, Projecting(r, i, pc), r)
    ensures MarkerReplayed(w, db0, ProjectNext(w.block(r)[i], db, r, i, pc).0, w.block(r)[i].id, r)
  {
    assert IsEvent(w, r, i) && w.block(r)[i].id == w.block(r)[i].id;
  }

  lemma ReplayedLocal(w: World, db0: Db, db: Db, r: nat, i: nat, pc: Pc)
    requires ValidWorld(w) && Replayed(w, db0, db, r) && IsEvent(w, r, i)
    requires LocalInv(w, db, Projecting(r, i, pc)) && LocalReplayed(w, db0, Projecting(r, i, pc), r)
    ensures LocalReplayed(w, db0, ProjectNext(w.block(r)[i], db, r, i, pc).1, r)
  {
    hide Tracked, DistinctIds, DbInv, Evolves, Replayed, LocalInv, SoundCursor, Truth;
    var e := w.block(r)[i];
    PoolsOf(w, r, i);
    ReplayedPool(w, db0, db, r, e.poolAddress);
    if pc.Swap? {
      SwapIsAhead(w, db, r, i, pc.seen);
      BeforeTransitive(CursorOf(db0, e.poolAddress), pc.seen.cursor.value, AtEvent(r, i));
    }
    if i + 1 < |w.block(r)| {
      PoolsOf(w, r, i + 1);
      ReplayedPool(w, db0, db, r, w.block(r)[i + 1].poolAddress);
    }
  }

  lemma PoolsOf(w: World, r: nat, i: nat)
    requires Tracked(w) && IsEvent(w, r, i)
    ensures w.block(r)[i].poolAddress in w.pools
  {
  }

  lemma SwapIsAhead(w: World, db: Db, r: nat, i: nat, seen: LpState)
    requires Tracked(w) && IsEvent(w, r, i) && LocalInv(w, db, Projecting(r, i, Pc.Swap(seen)))
    ensures seen.cursor.Some? && Before(seen.cursor.value, AtEvent(r, i))
  {
  }

  ghost predicate ReplayInv(w: World, s0: System, s: System, r: nat)
    requires Tracked(w)
  {
    && Replayed(w, s0.db, s.db, r) && SystemInv(w, s)
    && forall me | me in s.workers :: LocalReplayed(w, s0.db, s.workers[me], r)
  }

  lemma ReplayNext(w: World, s0: System, s: System, step: Step, r: nat)
    requires ValidWorld(w) && ReplayInv(w, s0, s, r) && ReplayStep(step, r)
    ensures ReplayInv(w, s0, Next(w, s, step), r)
  {
    var l := s.LocalOf(step.worker);
    NextKeeps(w, s, step);
    assert LocalInv(w, s.db, l) && LocalReplayed(w, s0.db, l, r);
    ReplayAct(w, s0.db, s.db, step.worker, l, step.action, r);
  }

  lemma ReplayAct(w: World, db0: Db, db: Db, me: WorkerId, l: Local, a: Action, r: nat)
    requires ValidWorld(w) && Replayed(w, db0, db, r) && ReplayStep(Step(me, a), r)
    requires LocalInv(w, db, l) && LocalReplayed(w, db0, l, r)
    ensures var (db', l') := Act(w, me, db, l, a);
            Replayed(w, db0, db', r) && LocalReplayed(w, db0, l', r)
  {
    hide Tracked, DistinctIds, DbInv, LocalInv, Evolves, Replayed, PoolReplayed, PoolSound;
    ReplayedParts(w, db0, db, r);
    if a.Continue? && l.Projecting? && l.index < |w.block(r)| {
      ReplayedProject(w, db0, db, r, l.index, l.pc);
    } else {
      var (db', l') := Act(w, me, db, l, a);
      StepKeeps(w, me, db, l, a);
      EvolvesTransitive(w, db0, db, db');
      StillReplayed(w, db0, db, db', r);
      if |w.block(r)| > 0 {
        PoolsOf(w, r, 0);
        ReplayedPool(w, db0, db, r, w.block(r)[0].poolAddress);
        HasCursor(w, db0, w.block(r)[0].poolAddress);
      }
    }
  }

  lemma ReplayedParts(w: World, db0: Db, db: Db, r: nat)
    requires Tracked(w) && Replayed(w, db0, db, r)
    ensures DbInv(w, db) && Evolves(w, db0, db)
  {
  }

  lemma {:induction false} ReplayRun(w: World, s0: System, schedule: seq<Step>, r: nat)
    requires ValidWorld(w) && FreshStart(w, s0) && ReplayOf(schedule, r)
    ensures ReplayInv(w, s0, Run(w, s0, schedule), r)
  {
    if schedule == [] {
      forall p | p in w.pools ensures PoolReplayed(w, s0.db, s0.db, p, r) {
        assert PoolSound(w, s0.db, p);
      }
    } else {
      ReplayRun(w, s0, schedule[..|schedule| - 1], r);
      ReplayNext(w, s0, Run(w, s0, schedule[..|schedule| - 1]), schedule[|schedule| - 1], r);
    }
  }

  /** Some worker has settled every event of the block. */
  ghost predicate Finished(w: World, s: System, r: nat) {
    exists me: WorkerId :: var l := s.LocalOf(me); l.Projecting? && l.round == r && l.index == |w.block(r)|
  }

  /** A finished replay has settled every event of the round. */
  lemma FinishedHandled(w: World, s: System, r: nat, k: nat)
    requires Tracked(w) && SystemInv(w, s) && Finished(w, s, r) && IsEvent(w, r, k)
    ensures Handled(w, s.db, r, k)
  {
    var me: WorkerId :| var l := s.LocalOf(me); l.Projecting? && l.round == r && l.index == |w.block(r)|;
    assert LocalInv(w, s.db, s.LocalOf(me));
  }

  /** Two finished replays put a pool at the same cursor. */
  lemma SameCursor(w: World, s0: System, a: System, b: System, r: nat, p: string)
    requires ValidWorld(w) && ReplayInv(w, s0, a, r) && ReplayInv(w, s0, b, r)
    requires Finished(w, a, r) && Finished(w, b, r) && p in w.pools
    ensures p in a.db.states && p in b.db.states && a.db.states[p] == b.db.states[p]
  {
    ReachesTheOther(w, s0, a, b, r, p);
    ReachesTheOther(w, s0, b, a, r, p);
    ReplayPoolOf(w, s0, a, r, p);
    ReplayPoolOf(w, s0, b, r, p);
    hide Tracked, DistinctIds, ReplayInv, Finished, SoundCursor;
    assert CursorOf(a.db, p) == CursorOf(b.db, p);
  }

  lemma ReplayPoolOf(w: World, s0: System, s: System, r: nat, p: string)
    requires Tracked(w) && ReplayInv(w, s0, s, r) && p in w.pools
    ensures PoolSound(w, s0.db, p) && PoolSound(w, s.db, p) && PoolReplayed(w, s0.db, s.db, p, r)
  {
    ReplayedPool(w, s0.db, s.db, r, p);
  }

  /** If one replay has moved a pool, a finished one has moved it at least as far. */
  lemma ReachesTheOther(w: World, s0: System, a: System, b: System, r: nat, p: string)
    requires ValidWorld(w) && ReplayInv(w, s0, a, r) && ReplayInv(w, s0, b, r) && Finished(w, b, r) && p in w.pools
    ensures p in a.db.states && a.db.states[p].cursor.Some? && p in b.db.states && b.db.states[p].cursor.Some?
    ensures AtMost(CursorOf(a.db, p), CursorOf(b.db, p))
  {
    hide Tracked, DistinctIds, ReplayInv, Finished, DbInv, SystemInv, Truth;
    ReplayPoolOf(w, s0, a, r, p);
    ReplayPoolOf(w, s0, b, r, p);
    ReplayParts(w, s0, b, r);
    if a.db.states[p] != s0.db.states[p] {
      FinishedHandled(w, b, r, CursorOf(a.db, p).rank);
    }
  }

  lemma ReplayParts(w: World, s0: System, s: System, r: nat)
    requires Tracked(w) && ReplayInv(w, s0, s, r)
    ensures SystemInv(w, s) && MarkersSound(w, s.db) && Evolves(w, s0.db, s.db)
  {
  }

  /** A marker that the replay has added. */
  lemma NewMarker(w: World, s0: System, s: System, r: nat, id: string) returns (k: nat)
    requires Tracked(w) && ReplayInv(w, s0, s, r) && id in s.db.events && id !in s0.db.events
    ensures IsEvent(w, r, k) && w.block(r)[k].id == id && Marked(w, s.db, r, k)
    ensures w.block(r)[k].poolAddress in s0.db.states
    ensures CursorBefore(s0.db.states[w.block(r)[k].poolAddress].cursor, RoundEnd(r))
  {
    assert MarkerReplayed(w, s0.db, s.db, id, r);
    k :| IsEvent(w, r, k) && w.block(r)[k].id == id
         && w.block(r)[k].poolAddress in s0.db.states
         && CursorBefore(s0.db.states[w.block(r)[k].poolAddress].cursor, RoundEnd(r));
  }

  lemma SameMarker(w: World, s0: System, a: System, b: System, r: nat, id: string)
    requires ValidWorld(w) && ReplayInv(w, s0, a, r) && ReplayInv(w, s0, b, r)
    requires Finished(w, b, r) && id in a.db.events
    ensures id in b.db.events && b.db.events[id] == a.db.events[id]
  {
    hide Tracked, DistinctIds, ReplayInv, Finished, DbInv, SystemInv, MarkersSound, MarkerReplayed, Truth, SoundCursor;
    ReplayParts(w, s0, a, r);
    ReplayParts(w, s0, b, r);
    if id !in s0.db.events {
      var k := NewMarker(w, s0, a, r, id);
      var p := w.block(r)[k].poolAddress;
      PoolsOf(w, r, k);
      ReplayPoolOf(w, s0, b, r, p);
      FinishedHandled(w, b, r, k);
      SameRecord(w, a.db, b.db, r, k);
    }
  }

  lemma SameRecord(w: World, db: Db, db': Db, r: nat, k: nat)
    requires IsEvent(w, r, k) && MarkersSound(w, db) && MarkersSound(w, db')
    requires Marked(w, db, r, k) && Marked(w, db', r, k)
    ensures db.events[w.block(r)[k].id] == db'.events[w.block(r)[k].id]
  {
  }

  /**
   * Replay converges: two replays of a block from one state, with any crashes (also between
   * the balance update and its marker), restarts and helpers, end with the same balances, the
   * same cursors and the same markers as soon as each has been run to the end once.
   */
  lemma ReplayConverges(w: World, s0: System, first: seq<Step>, second: seq<Step>, r: nat)
    requires ValidWorld(w) && FreshStart(w, s0) && ReplayOf(first, r) && ReplayOf(second, r)
    requires Finished(w, Run(w, s0, first), r) && Finished(w, Run(w, s0, second), r)
    ensures Run(w, s0, first).db.states == Run(w, s0, second).db.states
    ensures Run(w, s0, first).db.events == Run(w, s0, second).db.events
  {
    var a, b := Run(w, s0, first), Run(w, s0, second);
    ReplayRun(w, s0, first, r);
    ReplayRun(w, s0, second, r);
    forall p | p in a.db.states ensures p in b.db.states && b.db.states[p] == a.db.states[p] {
      if p in w.pools {
        SameCursor(w, s0, a, b, r, p);
      }
    }
    assert a.db.states.Keys == b.db.states.Keys;
    assert a.db.states == b.db.states;
    forall id | id in a.db.events ensures id in b.db.events && b.db.events[id] == a.db.events[id] {
      SameMarker(w, s0, a, b, r, id);
    }
    forall id | id in b.db.events ensures id in a.db.events {
      SameMarker(w, s0, b, a, r, id);
    }
    assert a.db.events.Keys == b.db.events.Keys;
  }

  // ---- the uninterrupted run ----

  /** One worker that goes on without a pause, n operations long. */
  function Alone(me: WorkerId, n: nat): (schedule: seq<Step>)
    ensures |schedule| == n && forall step <- schedule :: step == Step(me, Continue)
  {
    seq(n, _ => Step(me, Continue))
  }

  /** What was read a moment ago is still what is stored. */
  ghost predicate StillCurrent(w: World, db: Db, r: nat, i: nat, pc: Pc)
    requires IsEvent(w, r, i)
  {
    var p := w.block(r)[i].poolAddress;
    && !pc.CheckLoss?
    && (pc.ReadMarker? || pc.ReadAliases? || pc.Swap? ==> p in db.states && pc.seen.cursor == db.states[p].cursor)
  }

  function StepsLeft(pc: Pc): nat {
    match pc
    case ReadState => 6
    case ReadMarker(_) => 5
    case ReadAliases(_, _, _) => 4
    case ReRead => 3
    case Swap(_) => 2
    case CheckLoss(_) => 1
    case Record(_) => 0
  }

  /** Undisturbed, and with the round still open, every operation leads on to the next one. */
  lemma StepIsQuiet(w: World, db: Db, r: nat, i: nat, pc: Pc)
    requires ValidWorld(w) && DbInv(w, db) && IsEvent(w, r, i) && LocalInv(w, db, Projecting(r, i, pc))
    requires StillCurrent(w, db, r, i, pc) && !CheckpointAtLeast(db, r) && EventFits(w, r, i)
    ensures var (db', l') := ProjectNext(w.block(r)[i], db, r, i, pc);
            && db'.sync == db.sync
            && (l' == Settled(r, i)
                || (l'.Projecting? && l'.round == r && l'.index == i && StillCurrent(w, db', r, i, l'.pc)
                    && (StepsLeft(l'.pc) < StepsLeft(pc)
                        || (pc.ReadAliases? && l'.pc.ReadAliases? && |l'.pc.aliases| < |pc.aliases|))))
  {
    hide DbInv, Tracked, DistinctIds, Evolves;
    ProjectKeeps(w, db, r, i, pc);
    if pc.Swap? {
      CurrentSwapSucceeds(w, db, r, i, pc.seen);
    }
  }

  lemma CurrentSwapSucceeds(w: World, db: Db, r: nat, i: nat, seen: LpState)
    requires ValidWorld(w) && DbInv(w, db) && IsEvent(w, r, i) && LocalInv(w, db, Projecting(r, i, Pc.Swap(seen)))
    requires StillCurrent(w, db, r, i, Pc.Swap(seen)) && EventFits(w, r, i)
    ensures ProjectNext(w.block(r)[i], db, r, i, Pc.Swap(seen)).1 == Projecting(r, i, Record(Applied))
  {
    SwapSucceeds(w, db, r, i, seen.cursor.value);
  }

  lemma AloneUnfold(w: World, s: System, me: WorkerId, n: nat)
    requires Tracked(w)
    ensures Run(w, s, Alone(me, n + 1)) == Run(w, Next(w, s, Step(me, Continue)), Alone(me, n))
  {
    var schedule := Alone(me, n + 1);
    RunSplit(w, s, schedule, 1);
    assert schedule[..1][..0] == [];
    assert Run(w, s, schedule[..1]) == Next(w, s, schedule[0]);
    assert schedule[1..] == Alone(me, n);
  }

  lemma {:induction false} EventFinishes(w: World, s: System, me: WorkerId, r: nat, i: nat, pc: Pc) returns (n: nat)
    requires ValidWorld(w) && SystemInv(w, s) && IsEvent(w, r, i)
    requires s.LocalOf(me) == Projecting(r, i, pc) && StillCurrent(w, s.db, r, i, pc) && !CheckpointAtLeast(s.db, r)
    requires EventFits(w, r, i)
    ensures var s' := Run(w, s, Alone(me, n));
            s'.LocalOf(me) == Settled(r, i) && SystemInv(w, s') && s'.db.sync == s.db.sync
    decreases StepsLeft(pc), if pc.ReadAliases? then |pc.aliases| else 0
  {
    var s1 := Next(w, s, Step(me, Continue));
    StepIsQuiet(w, s.db, r, i, pc);
    NextKeeps(w, s, Step(me, Continue));
    if s1.LocalOf(me) == Settled(r, i) {
      n := 1;
      AloneUnfold(w, s, me, 0);
    } else {
      var rest := EventFinishes(w, s1, me, r, i, s1.LocalOf(me).pc);
      n := rest + 1;
      AloneUnfold(w, s, me, rest);
    }
  }

  lemma {:induction false} BlockFinishes(w: World, s: System, me: WorkerId, r: nat, i: nat) returns (n: nat)
    requires ValidWorld(w) && SystemInv(w, s) && i <= |w.block(r)|
    requires s.LocalOf(me) == Projecting(r, i, ReadState) && !CheckpointAtLeast(s.db, r) && RoundFits(w, r)
    ensures Run(w, s, Alone(me, n)).LocalOf(me) == Projecting(r, |w.block(r)|, ReadState)
    decreases |w.block(r)| - i
  {
    hide SystemInv, Tracked, DistinctIds;
    if i == |w.block(r)| {
      n := 0;
    } else {
      var first := EventFinishes(w, s, me, r, i, ReadState);
      var s' := Run(w, s, Alone(me, first));
      var rest := BlockFinishes(w, s', me, r, i + 1);
      n := first + rest;
      RunSplit(w, s, Alone(me, n), first);
      assert Alone(me, n)[..first] == Alone(me, first) && Alone(me, n)[first..] == Alone(me, rest);
    }
  }

  /** From any sound state with a free claim, one worker left alone settles the whole next block, if its results fit the store. */
  lemma UninterruptedRunFinishes(w: World, s: System, me: WorkerId, r: nat, now: int) returns (schedule: seq<Step>)
    requires ValidWorld(w) && FreshStart(w, s) && r > 0
    requires s.db.sync.lastRound == Some(r - 1) && s.db.sync.LeaseLapsed(now) && RoundFits(w, r)
    ensures ReplayOf(schedule, r) && Finished(w, Run(w, s, schedule), r)
  {
    var claim := Step(me, Claim(r - 1, now));
    var s' := Next(w, s, claim);
    NextKeeps(w, s, claim);
    var n := BlockFinishes(w, s', me, r, 0);
    schedule := [claim] + Alone(me, n);
    RunSplit(w, s, schedule, 1);
    assert schedule[..1] == [claim] && schedule[1..] == Alone(me, n) && [claim][..0] == [];
    assert Run(w, s, [claim]) == s';
    assert Run(w, s, schedule).LocalOf(me) == Projecting(r, |w.block(r)|, ReadState);
  }
}

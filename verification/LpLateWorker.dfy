/**
 * The worker that comes too late: when exactly its reads end in "advanced past unrecorded event",
 * and a run in which they do, although everything fits and every snapshot is exact.
 */
module LpLateWorker {
  import opened Wrappers
  import opened LpDomain
  import opened LpWorld
  import opened LpProtocol
  import opened LpSafety
  import opened LpReplay
  import opened SyncCoordinator
  import EventIds
  import Strings

  /** The uninterrupted reads of one event: its state, its marker, its legacy markers, and the decision. */
  ghost function ReadsOf(w: World, r: nat, k: nat): nat
    requires IsEvent(w, r, k)
  {
    3 + |EventIds.LegacyAliases(w.block(r)[k].id)|
  }

  /** The event has no marker, and an event of its pool that comes later is at the cursor. */
  ghost predicate PassedUnrecorded(w: World, db: Db, r: nat, k: nat)
    requires IsEvent(w, r, k)
  {
    var p := w.block(r)[k].poolAddress;
    && !Marked(w, db, r, k)
    && p in db.states && db.states[p].cursor.Some?
    && db.states[p].cursor.value.AtEvent? && Before(AtEvent(r, k), db.states[p].cursor.value)
  }

  /** One step of a worker that reads leaves the collections alone. */
  lemma OneRead(w: World, s: System, me: WorkerId, r: nat, k: nat, pc: Pc, n: nat)
    requires Tracked(w) && IsEvent(w, r, k) && s.LocalOf(me) == Projecting(r, k, pc)
    requires pc.ReadState? || pc.ReadMarker? || pc.ReadAliases?
    ensures var l' := ProjectNext(w.block(r)[k], s.db, r, k, pc).1;
            Run(w, s, Alone(me, n + 1)) == Run(w, System(s.db, s.workers[me := l']), Alone(me, n))
  {
    hide Run, Tracked;
    AloneUnfold(w, s, me, n);
  }

  lemma {:induction false} AliasesRead(w: World, s: System, me: WorkerId, r: nat, k: nat, seen: LpState, found: bool,
                                       aliases: seq<string>)
    requires Tracked(w) && IsEvent(w, r, k) && s.LocalOf(me) == Projecting(r, k, ReadAliases(seen, found, aliases))
    requires forall a <- aliases :: a !in s.db.events
    ensures var after := Run(w, s, Alone(me, |aliases| + 1));
            after.db == s.db && after.LocalOf(me) == Decide(w.block(r)[k], r, k, seen, found)
    decreases |aliases|
  {
    hide Tracked, Decide;
    OneRead(w, s, me, r, k, ReadAliases(seen, found, aliases), |aliases|);
    if aliases == [] {
      assert Alone(me, 0) == [];
    } else {
      var rest := Projecting(r, k, ReadAliases(seen, found, aliases[1..]));
      AliasesRead(w, System(s.db, s.workers[me := rest]), me, r, k, seen, found, aliases[1..]);
    }
  }

  /** From the first read, undisturbed, to the decision. */
  lemma ReadsDecide(w: World, s: System, me: WorkerId, r: nat, k: nat)
    requires ValidWorld(w) && DbInv(w, s.db) && IsEvent(w, r, k) && s.LocalOf(me) == Projecting(r, k, ReadState)
    ensures var e := w.block(r)[k];
            var after := Run(w, s, Alone(me, ReadsOf(w, r, k)));
            && e.poolAddress in s.db.states && s.db.states[e.poolAddress].cursor.Some?
            && after.db == s.db
            && after.LocalOf(me) == Decide(e, r, k, s.db.states[e.poolAddress], Marked(w, s.db, r, k))
  {
    hide DistinctIds, Decide, Run, Tracked, DbInv, PoolSound;
    var e := w.block(r)[k];
    var aliases := EventIds.LegacyAliases(e.id);
    PoolsOf(w, r, k);
    SoundPool(w, s.db, e.poolAddress);
    HasCursor(w, s.db, e.poolAddress);
    var state := s.db.states[e.poolAddress];
    if Marked(w, s.db, r, k) {
      MarkedIsReached(w, s.db, r, k);
    }
    forall a | a in aliases ensures a !in s.db.events {
      AliasIsFree(w, s.db, r, k, a);
    }
    OneRead(w, s, me, r, k, ReadState, 2 + |aliases|);
    var s1 := System(s.db, s.workers[me := Projecting(r, k, ReadMarker(state))]);
    OneRead(w, s1, me, r, k, ReadMarker(state), 1 + |aliases|);
    var l2 := Projecting(r, k, ReadAliases(state, Marked(w, s.db, r, k), aliases));
    AliasesRead(w, System(s.db, s1.workers[me := l2]), me, r, k, state, Marked(w, s.db, r, k), aliases);
  }

  /**
   * In every reachable state: a worker that begins with an event and is not disturbed meets "advanced past
   * unrecorded event" exactly when the event has no marker and its pool's cursor is at a later event.
   * By `NoFalseAlarm` its round has then been completed by others.
   */
  lemma LateExactly(w: World, s: System, schedule: seq<Step>, me: WorkerId, r: nat, k: nat)
    requires ValidWorld(w) && Start(w, s) && IsEvent(w, r, k)
    requires Run(w, s, schedule).LocalOf(me) == Projecting(r, k, ReadState)
    ensures var now := Run(w, s, schedule);
            var after := Run(w, now, Alone(me, ReadsOf(w, r, k)));
            && after.db == now.db
            && (after.LocalOf(me) == Failed(r, AdvancedPastUnrecorded) <==> PassedUnrecorded(w, now.db, r, k))
  {
    hide DistinctIds, Run, Tracked;
    StartInv(w, s);
    RunKeeps(w, s, schedule);
    ReadsDecide(w, Run(w, s, schedule), me, r, k);
  }

  /** While the round is still open, the condition never holds. */
  lemma NotWhileOpen(w: World, s: System, schedule: seq<Step>, r: nat, k: nat)
    requires ValidWorld(w) && Start(w, s) && IsEvent(w, r, k)
    requires PassedUnrecorded(w, Run(w, s, schedule).db, r, k)
    ensures CheckpointAtLeast(Run(w, s, schedule).db, r)
  {
    hide DistinctIds, Run;
    StartInv(w, s);
    RunKeeps(w, s, schedule);
    var db := Run(w, s, schedule).db;
    var p := w.block(r)[k].poolAddress;
    assert PoolSound(w, db, p);
    assert IsPoolEvent(w, p, r, k);
  }

  // ---- an example ----

  const Info := PoolInfo(9, 1, 2)

  const First := LpTransaction("A@P", "P", "U", 1, 5, 1, 0)
  const Second := LpTransaction("B@P", "P", "U", 1, 5, 2, 0)

  function Reserve(r: nat): Balances {
    Balances(if r == 0 then 0 else if r == 1 then 5 else 10, 0, 0, 0)
  }

  /** One pool, one event in round 1 and one in round 2, and an Indexer that reports exactly that. */
  function ExampleWorld(): World {
    World(map["P" := Info], map["P" := Reserve(0)],
          (r: nat) => if r == 1 then [First] else if r == 2 then [Second] else [],
          (p: string, r: nat) => Reserve(r))
  }

  lemma ExampleAliases()
    ensures EventIds.LegacyAliases("A@P") == ["A"] && EventIds.LegacyAliases("B@P") == ["B"]
  {
    OneAlias("A");
    OneAlias("B");
  }

  lemma OneAlias(root: string)
    requires |root| == 1 && root[0] != EventIds.PROJECTION_SEPARATOR && root[0] != EventIds.PATH_SEPARATOR
    ensures EventIds.LegacyAliases(root + "@P") == [root]
  {
    Strings.PartitionOf(root, EventIds.PROJECTION_SEPARATOR, "P");
    assert root + [EventIds.PROJECTION_SEPARATOR] + "P" == root + "@P";
    Strings.PartitionWithout(root, EventIds.PATH_SEPARATOR);
    assert Strings.Partition(root, EventIds.PATH_SEPARATOR) == (root, false, "");
    assert Strings.Partition(root + "@P", EventIds.PROJECTION_SEPARATOR) == (root, true, "P");
    assert EventIds.EventIdAliases(root + "@P") == Success([root + "@P"] + [root]);
    assert [root + "@P"] + [root] == [root + "@P", root];
    assert [root + "@P", root][1..] == [root];
    assert [root][1..] == [];
    assert EventIds.Others([], root + "@P") == [];
  }

  lemma ExampleIsValid()
    ensures ValidWorld(ExampleWorld())
  {
    var w := ExampleWorld();
    ExampleAliases();
    forall r: nat, k: nat | IsEvent(w, r, k) ensures (r == 1 || r == 2) && k == 0 {
    }
    assert !IsEventId(w, "A") && !IsEventId(w, "B");
  }

  lemma {:induction false} ExampleTruth(r: nat)
    ensures ValidWorld(ExampleWorld()) && Truth(ExampleWorld(), "P", RoundEnd(r)) == Reserve(r)
  {
    ExampleIsValid();
    var w := ExampleWorld();
    if r == 0 {
      assert Balance(w, "P", 0, 0) == Reserve(0);
    } else {
      ExampleTruth(r - 1);
      assert Balance(w, "P", r, 0) == Reserve(r - 1);
      if r <= 2 {
        assert IsEvent(w, r, 0);
        assert Balance(w, "P", r, 1) == Reserve(r);
      }
    }
  }

  /** Everything fits, and every snapshot is exact. */
  lemma ExampleFits()
    ensures ValidWorld(ExampleWorld()) && ExactSnapshots(ExampleWorld())
    ensures forall r: nat :: RoundFits(ExampleWorld(), r)
  {
    hide Truth;
    var w := ExampleWorld();
    ExampleIsValid();
    forall p: string, r: nat | p in w.pools ensures w.observed(p, r) == Truth(w, p, RoundEnd(r)) {
      ExampleTruth(r);
    }
    forall r: nat, k: nat, b: nat | IsEvent(w, r, k) && b < r ensures Held(w, "P", b, AtEvent(r, k)).InRange() {
      HeldAtSnapshot(w, "P", b, AtEvent(r, k));
      assert IsPoolEvent(w, "P", r, k);
      ExampleTruth(r);
      ExampleLast(r, k);
    }
  }

  lemma ExampleLast(r: nat, k: nat)
    requires IsEvent(ExampleWorld(), r, k) && ValidWorld(ExampleWorld())
    ensures ExampleWorld().block(r)[k].poolAddress == "P" && IsPoolEvent(ExampleWorld(), "P", r, k)
    ensures Truth(ExampleWorld(), "P", AtEvent(r, k)) == Truth(ExampleWorld(), "P", RoundEnd(r))
  {
    assert Balance(ExampleWorld(), "P", r + 1, 0) == Balance(ExampleWorld(), "P", r, |ExampleWorld().block(r)|);
  }

  function PoolAt(cursor: Cursor, reserve: nat, updated: nat, snapshot: nat): map<string, LpState> {
    map["P" := LpState(Info, Balances(reserve, 0, 0, 0), Some(cursor), updated, snapshot)]
  }

  const Begun := PoolAt(RoundEnd(0), 0, 0, 0)
  const Snapped := PoolAt(RoundEnd(1), 5, 1, 1)
  const Applied2 := PoolAt(AtEvent(2, 0), 10, 2, 1)

  const Nobody := SyncState(None, None, None, None)
  const HeldByA := SyncState(Some(0), Some(1), Some("A"), Some(120))
  const HeldByB := SyncState(Some(1), Some(2), Some("B"), Some(320))

  /** One more step of a run that has come to `now`. */
  lemma Then(w: World, s: System, schedule: seq<Step>, now: System, me: WorkerId, a: Action, db: Db, l: Local)
    requires Tracked(w) && Run(w, s, schedule) == now && Act(w, me, now.db, now.LocalOf(me), a) == (db, l)
    ensures Run(w, s, schedule + [Step(me, a)]) == System(db, now.workers[me := l])
  {
    assert (schedule + [Step(me, a)])[..|schedule|] == schedule;
  }

  /** A worker begins a cutover and fetches the pool's balances of some round. */
  lemma Fetches(w: World, s: System, schedule: seq<Step>, now: System, me: WorkerId, r: nat) returns (longer: seq<Step>)
    requires w == ExampleWorld() && Tracked(w) && r <= 1 && Run(w, s, schedule) == now && now.LocalOf(me) == Idle
    ensures var cut := Cutover(now.db.sync.lastRound, ["P"], []);
            Run(w, s, longer) == System(now.db, now.workers[me := Holding(cut, Reserve(r), r, false)])
  {
    hide Run, Tracked;
    var cut := Cutover(now.db.sync.lastRound, ["P"], []);
    Then(w, s, schedule, now, me, BeginCutover(["P"]), now.db, cut);
    var s1 := schedule + [Step(me, BeginCutover(["P"]))];
    var n1 := System(now.db, now.workers[me := cut]);
    var held := Holding(cut, Reserve(r), r, false);
    assert SnapshotFits(w, "P", r);
    Then(w, s, s1, n1, me, Fetch(r), now.db, held);
    longer := s1 + [Step(me, Fetch(r))];
    assert n1.workers[me := held] == now.workers[me := held];
  }

  /** With the pool's cursor collected, the checkpoint advances to that round. */
  lemma Advances(w: World, s: System, schedule: seq<Step>, now: System, me: WorkerId, r: nat, time: int) returns (longer: seq<Step>)
    requires Tracked(w) && Run(w, s, schedule) == now
    requires now.LocalOf(me) == Cutover(now.db.sync.lastRound, ["P"], [Some(RoundEnd(r))])
    requires now.db.sync.LeaseLapsed(time) && (now.db.sync.lastRound.Some? ==> now.db.sync.lastRound.value <= r)
    ensures Run(w, s, longer) == System(now.db.(sync := SyncState(Some(r), None, None, None)), now.workers[me := Idle])
  {
    hide Run, Tracked;
    LeastOfOne(r);
    Then(w, s, schedule, now, me, Advance(r, time), now.db.(sync := SyncState(Some(r), None, None, None)), Idle);
    longer := schedule + [Step(me, Advance(r, time))];
  }

  lemma Collected(r: nat)
    ensures [] + [Some(RoundEnd(r))] == [Some(RoundEnd(r))]
  {
  }

  /** The first cutover finds the pool where it is. */
  lemma CutsOverFirst(w: World, s: System, schedule: seq<Step>, now: System, me: WorkerId) returns (longer: seq<Step>)
    requires w == ExampleWorld() && Tracked(w) && Run(w, s, schedule) == now && now.LocalOf(me) == Idle
    requires now.db == Db(Begun, map[], Nobody)
    ensures Run(w, s, longer) == System(Db(Begun, map[], SyncState(Some(0), None, None, None)), now.workers[me := Idle])
  {
    hide Run, Tracked;
    var s2 := Fetches(w, s, schedule, now, me, 0);
    var held := Holding(Cutover(None, ["P"], []), Reserve(0), 0, false);
    var n2 := System(now.db, now.workers[me := held]);
    Then(w, s, s2, n2, me, Store, now.db, held.(missed := true));
    var n3 := System(now.db, n2.workers[me := held.(missed := true)]);
    Collected(0);
    var done := Cutover(None, ["P"], [Some(RoundEnd(0))]);
    Then(w, s, s2 + [Step(me, Store)], n3, me, Store, now.db, done);
    var n4 := System(now.db, n3.workers[me := done]);
    longer := Advances(w, s, s2 + [Step(me, Store)] + [Step(me, Store)], n4, me, 0, 0);
    assert n4.workers[me := Idle] == now.workers[me := Idle];
  }

  /** The second one replaces the pool's balances. */
  lemma CutsOverAgain(w: World, s: System, schedule: seq<Step>, now: System, me: WorkerId) returns (longer: seq<Step>)
    requires w == ExampleWorld() && Tracked(w) && Run(w, s, schedule) == now && now.LocalOf(me) == Idle
    requires now.db == Db(Begun, map[], HeldByA)
    ensures Run(w, s, longer) == System(Db(Snapped, map[], SyncState(Some(1), None, None, None)), now.workers[me := Idle])
  {
    hide Run, Tracked;
    var s2 := Fetches(w, s, schedule, now, me, 1);
    var held := Holding(Cutover(Some(0), ["P"], []), Reserve(1), 1, false);
    var n2 := System(now.db, now.workers[me := held]);
    Collected(1);
    var done := Cutover(Some(0), ["P"], [Some(RoundEnd(1))]);
    assert Snapped == Begun["P" := Snapped["P"]];
    Then(w, s, s2, n2, me, Store, now.db.(states := Snapped), done);
    var n3 := System(now.db.(states := Snapped), n2.workers[me := done]);
    longer := Advances(w, s, s2 + [Step(me, Store)], n3, me, 1, 200);
    assert n3.workers[me := Idle] == now.workers[me := Idle];
  }

  lemma LeastOfOne(r: nat)
    ensures LeastCovered(r, [Some(RoundEnd(r))]) == Some(r)
  {
    assert [Some(RoundEnd(r))][1..] == [];
  }

  /** B projects the event of round 2 up to the new balance. */
  lemma Overtakes(w: World, s: System, schedule: seq<Step>, now: System) returns (longer: seq<Step>)
    requires w == ExampleWorld() && Tracked(w) && Run(w, s, schedule) == now
    requires now.db == Db(Snapped, map[], HeldByB) && now.LocalOf("B") == Projecting(2, 0, ReadState)
    ensures Run(w, s, longer) == System(Db(Applied2, map[], HeldByB), now.workers["B" := Projecting(2, 0, Record(Applied))])
  {
    hide Run, Tracked;
    ExampleAliases();
    var db, seen := now.db, Snapped["P"];
    var l1, l2, l3 := Projecting(2, 0, ReadMarker(seen)), Projecting(2, 0, ReadAliases(seen, false, ["B"])),
                      Projecting(2, 0, ReadAliases(seen, false, []));
    var l5 := Projecting(2, 0, Record(Applied));
    Then(w, s, schedule, now, "B", Continue, db, l1);
    var s1, n1 := schedule + [Step("B", Continue)], System(db, now.workers["B" := l1]);
    Then(w, s, s1, n1, "B", Continue, db, l2);
    var s2, n2 := s1 + [Step("B", Continue)], System(db, n1.workers["B" := l2]);
    assert ["B"][1..] == [];
    Then(w, s, s2, n2, "B", Continue, db, l3);
    var s3, n3 := s2 + [Step("B", Continue)], System(db, n2.workers["B" := l3]);
    assert n3.workers == now.workers["B" := l3];
    longer := Decides(w, s, s3, n3);
    assert n3.workers["B" := l5] == now.workers["B" := l5];
  }

  lemma Decides(w: World, s: System, schedule: seq<Step>, now: System) returns (longer: seq<Step>)
    requires w == ExampleWorld() && Tracked(w) && Run(w, s, schedule) == now
    requires now.db == Db(Snapped, map[], HeldByB) && now.LocalOf("B") == Projecting(2, 0, ReadAliases(Snapped["P"], false, []))
    ensures Run(w, s, longer) == System(Db(Applied2, map[], HeldByB), now.workers["B" := Projecting(2, 0, Record(Applied))])
  {
    hide Run, Tracked;
    var db, seen := now.db, Snapped["P"];
    var l4, l5 := Projecting(2, 0, Pc.Swap(seen)), Projecting(2, 0, Record(Applied));
    Then(w, s, schedule, now, "B", Continue, db, l4);
    var s4, n4 := schedule + [Step("B", Continue)], System(db, now.workers["B" := l4]);
    assert Applied2 == Snapped["P" := Applied2["P"]];
    assert LpBalanceDelta(Info, 1, 5) == Success(BalanceDelta(Asset1Reserve, 5));
    assert seen.balances.Add(BalanceDelta(Asset1Reserve, 5)) == Applied2["P"].balances;
    Then(w, s, s4, n4, "B", Continue, db.(states := Applied2), l5);
    longer := s4 + [Step("B", Continue)];
    assert n4.workers["B" := l5] == now.workers["B" := l5];
  }

  /**
   * The error is real: A claims round 1 and stalls; B snapshots round 1, takes over with round 2 and applies
   * its event; A wakes up, finds neither a marker nor a snapshot, and fails. Everything fits and is exact.
   */
  lemma LateWorkerExample() returns (w: World, s: System, schedule: seq<Step>)
    ensures ValidWorld(w) && ExactSnapshots(w) && (forall r: nat :: RoundFits(w, r)) && Start(w, s)
    ensures Run(w, s, schedule).LocalOf("A") == Failed(1, AdvancedPastUnrecorded)
  {
    w := ExampleWorld();
    ExampleFits();
    hide RoundFits, ExactSnapshots, Run, Tracked;
    s := System(Db(Begun, map[], Nobody), map[]);
    ExampleStarts(s);
    assert Run(w, s, []) == s by { RunsNothing(w, s); }
    schedule := CutsOverFirst(w, s, [], s, "A");
    var n1 := System(Db(Begun, map[], SyncState(Some(0), None, None, None)), map["A" := Idle]);
    var stalled := Projecting(1, 0, ReadState);
    Then(w, s, schedule, n1, "A", Claim(0, 0), n1.db.(sync := HeldByA), stalled);
    var n2 := System(n1.db.(sync := HeldByA), map["A" := stalled]);
    schedule := schedule + [Step("A", Claim(0, 0))];
    schedule := CutsOverAgain(w, s, schedule, n2, "B");
    var n3 := System(Db(Snapped, map[], SyncState(Some(1), None, None, None)), map["A" := stalled, "B" := Idle]);
    var leads := Projecting(2, 0, ReadState);
    Then(w, s, schedule, n3, "B", Claim(1, 200), n3.db.(sync := HeldByB), leads);
    var n4 := System(n3.db.(sync := HeldByB), map["A" := stalled, "B" := leads]);
    schedule := schedule + [Step("B", Claim(1, 200))];
    schedule := Overtakes(w, s, schedule, n4);
    WakesUp(w, s, schedule);
    schedule := schedule + Alone("A", ReadsOf(w, 1, 0));
  }

  lemma RunsNothing(w: World, s: System)
    requires Tracked(w)
    ensures Run(w, s, []) == s
  {
  }

  lemma ExampleStarts(s: System)
    requires Tracked(ExampleWorld()) && s == System(Db(Begun, map[], Nobody), map[])
    ensures Start(ExampleWorld(), s)
  {
  }

  lemma WakesUp(w: World, s: System, schedule: seq<Step>)
    requires w == ExampleWorld() && ValidWorld(w) && Start(w, s)
    requires Run(w, s, schedule).db == Db(Applied2, map[], HeldByB)
    requires Run(w, s, schedule).LocalOf("A") == Projecting(1, 0, ReadState)
    ensures Run(w, s, schedule + Alone("A", ReadsOf(w, 1, 0))).LocalOf("A") == Failed(1, AdvancedPastUnrecorded)
  {
    hide Run, Tracked, Start;
    LateExactly(w, s, schedule, "A", 1, 0);
    var rest := Alone("A", ReadsOf(w, 1, 0));
    RunSplit(w, s, schedule + rest, |schedule|);
    assert (schedule + rest)[..|schedule|] == schedule && (schedule + rest)[|schedule|..] == rest;
  }
}

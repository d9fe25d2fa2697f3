/**
 * One claimed round as the run of its operations: the claim, the projection of the block's events,
 * the completion, and the release after an error (flex/sync_pools.py). The run says what a round
 * must come to, and not only what it must not do.
 */
module LpRoundRun {
  import opened Wrappers
  import opened LpDomain
  import opened LpWorld
  import opened LpProtocol
  import opened LpSafety
  import opened LpRepository
  import opened SyncCoordinator
  import LpReplay
  import EventIds

  datatype RoundResult = RoundCompleted | NotClaimed | RoundFailed(error: ProjectError)

  datatype RoundPc = Claiming | Working(l: Local) | Over(result: RoundResult)

  /** One iteration of the sync loop: whose, for which block, at which clock readings, from which turn and collections on. */
  datatype Job = Job(me: WorkerId, transactions: seq<LpTransaction>, lastRound: nat, claimTime: int, completeTime: int,
                     base: nat, start: Db)
  {
    function Round(): nat {
      lastRound + 1
    }
  }

  /** The next operation of the round. */
  function RoundNext(job: Job, db: Db, pc: RoundPc): (Db, RoundPc) {
    match pc
    case Claiming =>
      (match Claimed(db.sync, job.me, Some(job.lastRound), job.Round(), job.claimTime)
       case None => (db, Over(NotClaimed))
       case Some(doc) => (db.(sync := doc), Working(Projecting(job.Round(), 0, ReadState))))
    case Working(Projecting(r, i, at)) =>
      if i < |job.transactions| then
        var (db', l) := ProjectNext(job.transactions[i], db, r, i, at);
        (db', Working(l))
      else
        (match Completed(db.sync, job.me, Some(job.lastRound), job.Round(), job.completeTime)
         case None => (db, Working(Failed(job.Round(), ProjectError.LostClaim)))
         case Some(doc) => (db.(sync := doc), Over(RoundCompleted)))
    case Working(Failed(_, error)) =>
      (db.(sync := Released(db.sync, job.me, job.Round())), Over(RoundFailed(error)))
    case _ => (db, pc)
  }

  /** The collections and the round after its first `n` operations, each after a move of the others. */
  ghost function RoundAfter(env: Env, job: Job, n: nat): (Db, RoundPc) {
    if n == 0 then (job.start, Claiming)
    else
      var (db, pc) := RoundAfter(env, job, n - 1);
      if pc.Over? then (db, pc) else RoundNext(job, env(db, job.base + n - 1), pc)
  }

  /** The round has come to exactly here, and was not over before this turn. */
  ghost predicate RoundComeTo(env: Env, job: Job, db: Db, pc: RoundPc, turn: nat) {
    && job.base <= turn && RoundAfter(env, job, turn - job.base) == (db, pc)
    && (turn > job.base ==> !RoundAfter(env, job, turn - job.base - 1).1.Over?)
  }

  lemma RoundProceeds(env: Env, job: Job, db: Db, pc: RoundPc, turn: nat)
    requires RoundComeTo(env, job, db, pc, turn) && !pc.Over?
    ensures var (db', pc') := RoundNext(job, env(db, turn), pc);
            RoundComeTo(env, job, db', pc', turn + 1)
  {
    hide RoundNext;
  }

  /** A call of `project` inside a round takes the round along. */
  lemma {:induction false} CallFollows(env: Env, job: Job, call: ProjectCall, n: nat)
    requires call.rank < |job.transactions| && call.transaction == job.transactions[call.rank] && call.round == job.Round()
    requires RoundComeTo(env, job, call.start, Working(Projecting(call.round, call.rank, ReadState)), call.base)
    requires n > 0 ==> AtWork(call, After(env, call, n - 1).1)
    ensures var (db, l) := After(env, call, n);
            RoundComeTo(env, job, db, Working(l), call.base + n)
  {
    hide ProjectNext;
    if n > 0 {
      CallFollows(env, job, call, n - 1);
      var (db, l) := After(env, call, n - 1);
      RoundProceeds(env, job, db, Working(l), call.base + n - 1);
    }
  }

  lemma Follow(env: Env, job: Job, call: ProjectCall, db: Db, l: Local, turn: nat)
    requires call.rank < |job.transactions| && call.transaction == job.transactions[call.rank] && call.round == job.Round()
    requires RoundComeTo(env, job, call.start, Working(Projecting(call.round, call.rank, ReadState)), call.base)
    requires ComeTo(env, call, db, l, turn)
    ensures RoundComeTo(env, job, db, Working(l), turn)
  {
    hide ProjectNext;
    CallFollows(env, job, call, turn - call.base);
  }

  /** What is over stays as it is. */
  lemma {:induction false} OverStays(env: Env, job: Job, m: nat, n: nat)
    requires m <= n && RoundAfter(env, job, m).1.Over?
    ensures RoundAfter(env, job, n) == RoundAfter(env, job, m)
    decreases n
  {
    if m < n {
      OverStays(env, job, m, n - 1);
    }
  }

  // ---- which events were applied now ----

  /** The compare-and-set of event k has succeeded before this turn; only its marker was left to write. */
  ghost predicate AppliedNow(env: Env, job: Job, k: nat, turn: nat) {
    exists n: nat :: job.base + n < turn && RoundAfter(env, job, n).1 == Working(Projecting(job.Round(), k, Record(Applied)))
  }

  /** A set of pools is that of the events applied now. */
  ghost predicate IsChanged(env: Env, job: Job, changed: set<string>, turn: nat) {
    forall p :: p in changed <==> AppliedTo(env, job, p, turn)
  }

  ghost predicate AppliedTo(env: Env, job: Job, p: string, turn: nat) {
    exists k: nat :: k < |job.transactions| && job.transactions[k].poolAddress == p && AppliedNow(env, job, k, turn)
  }

  /** Where the round was during a call of `project`. */
  lemma DuringCall(env: Env, job: Job, call: ProjectCall, turn: nat, n: nat)
    requires call.rank < |job.transactions| && call.transaction == job.transactions[call.rank] && call.round == job.Round()
    requires RoundComeTo(env, job, call.start, Working(Projecting(call.round, call.rank, ReadState)), call.base)
    requires call.base <= turn && (turn > call.base ==> AtWork(call, After(env, call, turn - call.base - 1).1))
    requires call.base <= n < turn
    ensures RoundAfter(env, job, n - job.base).1 == Working(After(env, call, n - call.base).1)
    ensures AtWork(call, After(env, call, n - call.base).1)
  {
    hide ProjectNext;
    StillAtWork(env, call, n - call.base, turn - call.base - 1);
    if n > call.base {
      StillAtWork(env, call, n - call.base - 1, turn - call.base - 1);
    }
    CallFollows(env, job, call, n - call.base);
  }

  /** A call that is at work has been at work all the time. */
  lemma {:induction false} StillAtWork(env: Env, call: ProjectCall, m: nat, n: nat)
    requires m <= n && AtWork(call, After(env, call, n).1)
    ensures AtWork(call, After(env, call, m).1)
    decreases n
  {
    hide ProjectNext;
    if m < n {
      StillAtWork(env, call, m, n - 1);
    }
  }

  lemma RecordIsLast(call: ProjectCall, db: Db, outcome: Outcome)
    ensures !AtWork(call, ProjectNext(call.transaction, db, call.round, call.rank, Record(outcome)).1)
  {
  }

  /** The call was at its `Record(Applied)` exactly when it ended with Applied. */
  lemma AppliedIsLast(env: Env, call: ProjectCall, outcome: Outcome, db: Db, turn: nat)
    requires ComeTo(env, call, db, Settled(call.round, call.rank), turn) && SettledAs(env, call, outcome, turn)
    ensures outcome == Applied ==> turn > call.base
                                   && After(env, call, turn - call.base - 1).1 == Projecting(call.round, call.rank, Record(Applied))
    ensures forall n: nat | n < turn - call.base && After(env, call, n).1 == Projecting(call.round, call.rank, Record(Applied)) ::
              outcome == Applied
  {
    hide ProjectNext, EventIds.LegacyAliases;
    var pc :| LastWas(env, call, pc, turn) && outcome == OutcomeOf(pc);
    if outcome == Applied {
      assert pc == Record(Applied);
    }
    forall n: nat | n < turn - call.base && After(env, call, n).1 == Projecting(call.round, call.rank, Record(Applied))
      ensures outcome == Applied
    {
      if n < turn - call.base - 1 {
        StillAtWork(env, call, n + 1, turn - call.base - 1);
        RecordIsLast(call, env(After(env, call, n).0, call.base + n), Applied);
      }
    }
  }

  /** Settling one more event brings its pool into the set exactly when its outcome was Applied. */
  lemma ChangedNext(env: Env, job: Job, changed: set<string>, call: ProjectCall, outcome: Outcome, db: Db, turn: nat)
    requires call.rank < |job.transactions| && call.transaction == job.transactions[call.rank] && call.round == job.Round()
    requires RoundComeTo(env, job, call.start, Working(Projecting(call.round, call.rank, ReadState)), call.base)
    requires ComeTo(env, call, db, Settled(call.round, call.rank), turn) && SettledAs(env, call, outcome, turn)
    requires IsChanged(env, job, changed, call.base)
    ensures IsChanged(env, job, if outcome == Applied then changed + {call.transaction.poolAddress} else changed, turn)
  {
    hide RoundAfter, After, SettledAs;
    var after := if outcome == Applied then changed + {call.transaction.poolAddress} else changed;
    AppliedIsLast(env, call, outcome, db, turn);
    forall p ensures p in after <==> AppliedTo(env, job, p, turn) {
      if AppliedTo(env, job, p, turn) {
        var k: nat :| k < |job.transactions| && job.transactions[k].poolAddress == p && AppliedNow(env, job, k, turn);
        var n: nat :| job.base + n < turn && RoundAfter(env, job, n).1 == Working(Projecting(job.Round(), k, Record(Applied)));
        if job.base + n < call.base {
          assert AppliedNow(env, job, k, call.base);
        } else {
          DuringCall(env, job, call, turn, job.base + n);
        }
      }
      if p in changed {
        var k: nat :| k < |job.transactions| && job.transactions[k].poolAddress == p && AppliedNow(env, job, k, call.base);
        assert AppliedNow(env, job, k, turn);
      } else if p in after {
        DuringCall(env, job, call, turn, turn - 1);
        assert AppliedNow(env, job, call.rank, turn);
      }
    }
  }

  // ---- how a round ends ----

  /** The claim that lets a worker complete the round, field by field. */
  predicate LiveClaim(doc: SyncState, me: WorkerId, lastRound: nat, now: int) {
    && doc.lastRound == Some(lastRound) && doc.claimedRound == Some(lastRound + 1) && doc.leaseOwner == Some(me)
    && doc.leaseUntil.Some? && now < doc.leaseUntil.value
  }

  /** After n operations every event of the block is settled, and the round is about to be completed. */
  ghost predicate Completing(env: Env, job: Job, n: nat) {
    var pc := RoundAfter(env, job, n).1;
    pc.Working? && pc.l.Projecting? && pc.l.index >= |job.transactions|
  }

  /** The checkpoint document that the completion finds. */
  ghost function FoundDoc(env: Env, job: Job, n: nat): SyncState {
    env(RoundAfter(env, job, n).0, job.base + n).sync
  }

  ghost predicate CompletedOrLost(env: Env, job: Job, live: bool) {
    exists n: nat :: Completing(env, job, n) && (LiveClaim(FoundDoc(env, job, n), job.me, job.lastRound, job.completeTime) <==> live)
  }

  lemma CompletingStep(env: Env, job: Job, n: nat)
    requires Completing(env, job, n)
    ensures RoundAfter(env, job, n + 1).1
            == if LiveClaim(FoundDoc(env, job, n), job.me, job.lastRound, job.completeTime) then Over(RoundCompleted)
               else Working(Failed(job.Round(), ProjectError.LostClaim))
    ensures RoundAfter(env, job, n + 2).1
            == Over(if LiveClaim(FoundDoc(env, job, n), job.me, job.lastRound, job.completeTime) then RoundCompleted
                    else RoundFailed(ProjectError.LostClaim))
  {
  }

  /** The claim is known to be lost. */
  predicate KnowsLoss(pc: RoundPc) {
    pc == Over(RoundFailed(ProjectError.LostClaim)) || (pc.Working? && pc.l.Failed? && pc.l.error == ProjectError.LostClaim)
  }

  lemma ProjectionKeepsClaim(e: LpTransaction, db: Db, r: nat, i: nat, pc: Pc)
    ensures !KnowsLoss(Working(ProjectNext(e, db, r, i, pc).1))
  {
    hide LpBalanceDelta, ApplyDelta, EventIds.LegacyAliases;
  }

  lemma OnlyCompletionTells(job: Job, db: Db, pc: RoundPc)
    requires !(pc.Working? && pc.l.Projecting? && pc.l.index >= |job.transactions|) && !pc.Over?
    ensures KnowsLoss(RoundNext(job, db, pc).1) ==> KnowsLoss(pc)
    ensures RoundNext(job, db, pc).1 != Over(RoundCompleted)
  {
    hide ProjectNext;
    if pc.Working? && pc.l.Projecting? {
      ProjectionKeepsClaim(job.transactions[pc.l.index], db, pc.l.round, pc.l.index, pc.l.pc);
    }
  }

  lemma {:induction false} LostOnlyAtTheEnd(env: Env, job: Job, n: nat)
    ensures RoundAfter(env, job, n).1 == Over(RoundCompleted) ==> CompletedOrLost(env, job, true)
    ensures KnowsLoss(RoundAfter(env, job, n).1) ==> CompletedOrLost(env, job, false)
  {
    hide RoundNext;
    if n > 0 {
      LostOnlyAtTheEnd(env, job, n - 1);
      var (db, pc) := RoundAfter(env, job, n - 1);
      if Completing(env, job, n - 1) {
        CompletingStep(env, job, n - 1);
      } else if !pc.Over? {
        OnlyCompletionTells(job, env(db, job.base + n - 1), pc);
      }
    }
  }

  /**
   * A round ends completed exactly when, with its whole block settled, it finds the checkpoint document
   * still to be this worker's live claim, and with a lost claim exactly when it finds it is not.
   */
  lemma EndIsExact(env: Env, job: Job, db: Db, result: RoundResult, turn: nat)
    requires RoundComeTo(env, job, db, Over(result), turn)
    ensures result == RoundCompleted <==> CompletedOrLost(env, job, true)
    ensures result == RoundFailed(ProjectError.LostClaim) <==> CompletedOrLost(env, job, false)
  {
    hide RoundAfter, RoundNext, Completing;
    LostOnlyAtTheEnd(env, job, turn - job.base);
    forall n: nat | Completing(env, job, n)
      ensures RoundAfter(env, job, n + 2).1 == Over(result)
    {
      CompletingStep(env, job, n);
      if n + 2 <= turn - job.base {
        OverStays(env, job, n + 2, turn - job.base);
      } else {
        OverStays(env, job, turn - job.base, n + 2);
      }
    }
    forall n: nat | Completing(env, job, n)
      ensures result == if LiveClaim(FoundDoc(env, job, n), job.me, job.lastRound, job.completeTime) then RoundCompleted
                        else RoundFailed(ProjectError.LostClaim)
    {
      CompletingStep(env, job, n);
    }
  }

  // ---- a round that nobody disturbs ----

  /** The round is the next one, its claim is to be had and long enough, and its results fit the store. */
  ghost predicate Promising(w: World, job: Job) {
    && ValidWorld(w) && DbInv(w, job.start) && job.transactions == w.block(job.Round()) && RoundFits(w, job.Round())
    && job.start.sync.lastRound == Some(job.lastRound)
    && (job.start.sync.LeaseLapsed(job.claimTime) || job.start.sync.leaseOwner == Some(job.me))
    && job.completeTime < job.claimTime + LEASE_DURATION
  }

  /** No snapshot has come in between: a pool's balances build on the snapshot they did before. */
  ghost predicate SameSnapshots(db0: Db, db: Db) {
    forall p | p in db0.states ::
      && p in db.states && db.states[p].snapshotRound == db0.states[p].snapshotRound
      && (db.states[p].cursor == db0.states[p].cursor || (db.states[p].cursor.Some? && db.states[p].cursor.value.AtEvent?))
  }

  /** Every event of the round is in its pool's balances, and recorded unless a snapshot covered it before. */
  ghost predicate Projected(w: World, db0: Db, db: Db, r: nat) {
    forall k: nat | IsEvent(w, r, k) ::
      && CursorReaches(db, w.block(r)[k].poolAddress, AtEvent(r, k))
      && (Marked(w, db, r, k) || CursorReaches(db0, w.block(r)[k].poolAddress, RoundEnd(r)))
  }

  /** Each pool holds its snapshot and every event since, up to its own cursor. */
  ghost predicate BalancesHeld(w: World, db0: Db, db: Db)
    requires Tracked(w)
  {
    forall p | p in w.pools ::
      && p in db0.states && p in db.states && db.states[p].snapshotRound == db0.states[p].snapshotRound
      && db.states[p].cursor.Some? && IsCursor(w, p, db.states[p].cursor.value)
      && db.states[p].balances == Held(w, p, db.states[p].snapshotRound, db.states[p].cursor.value)
  }

  ghost predicate QuietRound(w: World, job: Job, db: Db, pc: RoundPc)
    requires Tracked(w)
  {
    DbInv(w, db) && SameSnapshots(job.start, db) &&
    match pc
    case Claiming => db.sync == job.start.sync
    case Working(Projecting(r, i, at)) =>
      && r == job.Round() && LocalInv(w, db, pc.l) && !CheckpointAtLeast(db, r)
      && LiveClaim(db.sync, job.me, job.lastRound, job.completeTime)
      && (i < |w.block(r)| ==> LpReplay.StillCurrent(w, db, r, i, at))
    case Over(RoundCompleted) =>
      db.sync.lastRound == Some(job.Round()) && Projected(w, job.start, db, job.Round())
    case _ => false
  }

  lemma SnapshotsTransitive(a: Db, b: Db, c: Db)
    requires SameSnapshots(a, b) && SameSnapshots(b, c)
    ensures SameSnapshots(a, c)
  {
  }

  lemma SyncSnapshots(a: Db, b: Db, c: Db)
    requires SameSnapshots(a, b) && c.states == b.states
    ensures SameSnapshots(a, c)
  {
  }

  lemma ProjectSnapshots(e: LpTransaction, db: Db, r: nat, i: nat, pc: Pc)
    ensures SameSnapshots(db, ProjectNext(e, db, r, i, pc).0)
  {
    hide LpBalanceDelta, Decide, EventIds.LegacyAliases;
  }

  lemma QuietClaim(w: World, job: Job, db: Db)
    requires Promising(w, job) && QuietRound(w, job, db, Claiming)
    ensures var (db', pc') := RoundNext(job, db, Claiming);
            QuietRound(w, job, db', pc')
  {
    hide DbInv, Tracked, DistinctIds, RoundFits, SameSnapshots;
    StepKeeps(w, job.me, db, Idle, Claim(job.lastRound, job.claimTime));
    var db' := RoundNext(job, db, Claiming).0;
    SyncSnapshots(job.start, db, db');
  }

  lemma QuietProject(w: World, job: Job, db: Db, i: nat, at: Pc)
    requires Promising(w, job) && QuietRound(w, job, db, Working(Projecting(job.Round(), i, at))) && i < |job.transactions|
    ensures var (db', pc') := RoundNext(job, db, Working(Projecting(job.Round(), i, at)));
            QuietRound(w, job, db', pc')
  {
    hide DbInv, Tracked, DistinctIds, LocalInv, SameSnapshots, ProjectNext, Evolves;
    var r := job.Round();
    assert IsEvent(w, r, i);
    LpReplay.StepIsQuiet(w, db, r, i, at);
    ProjectKeeps(w, db, r, i, at);
    ProjectSnapshots(w.block(r)[i], db, r, i, at);
    SnapshotsTransitive(job.start, db, ProjectNext(w.block(r)[i], db, r, i, at).0);
  }

  /** While a round is open no event cursor lies beyond it, so one that covers it wholly is a snapshot's. */
  lemma CoveredBefore(w: World, db0: Db, db: Db, r: nat, k: nat)
    requires Tracked(w) && DbInv(w, db) && DbInv(w, db0) && SameSnapshots(db0, db) && !CheckpointAtLeast(db, r) && IsEvent(w, r, k)
    requires CursorReaches(db, w.block(r)[k].poolAddress, RoundEnd(r))
    ensures CursorReaches(db0, w.block(r)[k].poolAddress, RoundEnd(r))
  {
    LpReplay.PoolsOf(w, r, k);
    hide Held, Tracked, MarkersSound, CheckpointCovered;
    assert PoolSound(w, db, w.block(r)[k].poolAddress) && PoolSound(w, db0, w.block(r)[k].poolAddress);
  }

  lemma QuietComplete(w: World, job: Job, db: Db, at: Pc)
    requires Promising(w, job) && QuietRound(w, job, db, Working(Projecting(job.Round(), |job.transactions|, at)))
    ensures var (db', pc') := RoundNext(job, db, Working(Projecting(job.Round(), |job.transactions|, at)));
            QuietRound(w, job, db', pc')
  {
    hide DbInv, Tracked, DistinctIds, RoundFits, SameSnapshots, Evolves, CursorReaches;
    var r := job.Round();
    var l := Projecting(r, |job.transactions|, at);
    StepKeeps(w, job.me, db, l, Complete(job.completeTime));
    var db' := RoundNext(job, db, Working(l)).0;
    SyncSnapshots(job.start, db, db');
    forall k: nat | IsEvent(w, r, k)
      ensures CursorReaches(db', w.block(r)[k].poolAddress, AtEvent(r, k))
      ensures Marked(w, db', r, k) || CursorReaches(job.start, w.block(r)[k].poolAddress, RoundEnd(r))
    {
      assert Handled(w, db, r, k);
      LpReplay.PoolsOf(w, r, k);
      EvolvesKeepsReach(w, db, db', w.block(r)[k].poolAddress, AtEvent(r, k));
      if CursorReaches(db, w.block(r)[k].poolAddress, RoundEnd(r)) {
        CoveredBefore(w, job.start, db, r, k);
      } else {
        assert Marked(w, db', r, k);
      }
    }
  }

  lemma {:induction false} QuietAfter(w: World, env: Env, job: Job, n: nat)
    requires Still(env) && Promising(w, job)
    ensures QuietRound(w, job, RoundAfter(env, job, n).0, RoundAfter(env, job, n).1)
  {
    hide RoundNext, DbInv, Tracked, DistinctIds, RoundFits, LocalInv;
    if n > 0 {
      QuietAfter(w, env, job, n - 1);
      var (db, pc) := RoundAfter(env, job, n - 1);
      match pc
      case Claiming => QuietClaim(w, job, db);
      case Working(l) =>
        if l.index < |job.transactions| {
          QuietProject(w, job, db, l.index, l.pc);
        } else {
          AtTheEnd(w, db, l);
          QuietComplete(w, job, db, l.pc);
        }
      case Over(_) =>
    }
  }

  lemma AtTheEnd(w: World, db: Db, l: Local)
    requires Tracked(w) && LocalInv(w, db, l) && l.Projecting?
    ensures l.index <= |w.block(l.round)|
  {
  }

  /**
   * A round that nobody disturbs is projected: it ends completed, with every event of its block in the
   * balances and recorded, and every pool's balances right at its cursor.
   */
  lemma QuietRoundCompletes(w: World, env: Env, job: Job, db: Db, result: RoundResult, turn: nat)
    requires Still(env) && Promising(w, job) && RoundComeTo(env, job, db, Over(result), turn)
    ensures result == RoundCompleted && db.sync.lastRound == Some(job.Round())
    ensures Projected(w, job.start, db, job.Round()) && BalancesHeld(w, job.start, db)
  {
    hide RoundAfter, Projected, Tracked, DistinctIds, MarkersSound, CheckpointCovered, RoundFits;
    QuietAfter(w, env, job, turn - job.base);
    forall p | p in w.pools
      ensures p in job.start.states && p in db.states && db.states[p].snapshotRound == job.start.states[p].snapshotRound
      ensures db.states[p].cursor.Some? && IsCursor(w, p, db.states[p].cursor.value)
      ensures db.states[p].balances == Held(w, p, db.states[p].snapshotRound, db.states[p].cursor.value)
    {
      assert PoolSound(w, db, p) && PoolSound(w, job.start, p);
    }
  }
}

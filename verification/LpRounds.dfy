/**
 * The block projector's loops: one claimed round, and the snapshot cutover before the first
 * round (flex/data/lp_states.py, flex/sync_pools.py).
 */
module LpRounds {
  import opened Wrappers
  import opened LpDomain
  import opened LpWorld
  import opened LpProtocol
  import opened LpSafety
  import opened LpRepository
  import opened LpRoundRun
  import opened SyncCoordinator

  /** The Indexer: the balances of a pool account and the round they were observed in, at the n-th call. */
  type Indexer = (string, nat) -> (Balances, nat)

  ghost predicate Truthful(w: World, indexer: Indexer) {
    forall p: string, n: nat | p in w.pools ::
      indexer(p, n).0 == w.observed(p, indexer(p, n).1)
  }

  datatype CutoverError = SnapshotFailed(error: SnapshotError) | NoCheckpoint(why: CheckpointError) | NotAdvanced

  /** The claim is the first operation of a round. */
  lemma ClaimStarts(env: Env, job: Job)
    ensures var (db, pc) := RoundNext(job, env(job.start, job.base), Claiming);
            RoundComeTo(env, job, db, pc, job.base + 1)
    ensures IsChanged(env, job, {}, job.base + 1)
  {
    hide RoundNext;
    assert RoundAfter(env, job, 0) == (job.start, Claiming);
    assert RoundComeTo(env, job, job.start, Claiming, job.base);
    RoundProceeds(env, job, job.start, Claiming, job.base);
  }

  /** A pause, then one step of this worker on the checkpoint document. */
  lemma PausedAct(w: World, env: Env, start: Db, db: Db, n: nat, me: WorkerId, l: Local, a: Action)
    requires OnTrack(w, env, start, db, l)
    ensures OnTrack(w, env, start, env(db, n), l)
    ensures var (db', l') := Act(w, me, env(db, n), l, a);
            OnTrack(w, env, start, db', l')
  {
    PauseKeeps(w, env, start, db, n, l);
    StepKeeps(w, me, env(db, n), l, a);
    EvolvesTransitive(w, start, env(db, n), Act(w, me, env(db, n), l, a).0);
  }

  lemma PausedClaim(w: World, env: Env, start: Db, db: Db, n: nat, me: WorkerId, lastRound: nat, now: int)
    requires OnTrack(w, env, start, db, Idle)
    ensures var paused := env(db, n);
            var after := Claimed(paused.sync, me, Some(lastRound), lastRound + 1, now);
            OnTrack(w, env, start, paused.(sync := if after.Some? then after.value else paused.sync),
                    if after.Some? then Projecting(lastRound + 1, 0, ReadState) else Idle)
  {
    hide OnTrack;
    PausedAct(w, env, start, db, n, me, Idle, Claim(lastRound, now));
    var paused := env(db, n);
    assert paused.(sync := paused.sync) == paused;
  }

  lemma PausedComplete(w: World, env: Env, start: Db, db: Db, pause: nat, me: WorkerId, lastRound: nat, n: nat, now: int)
    requires n == |w.block(lastRound + 1)| && OnTrack(w, env, start, db, Projecting(lastRound + 1, n, ReadState))
    ensures var paused := env(db, pause);
            var after := Completed(paused.sync, me, Some(lastRound), lastRound + 1, now);
            OnTrack(w, env, start, paused.(sync := if after.Some? then after.value else paused.sync),
                    if after.Some? then Idle else Failed(lastRound + 1, ProjectError.LostClaim))
  {
    hide OnTrack;
    PausedAct(w, env, start, db, pause, me, Projecting(lastRound + 1, n, ReadState), Complete(now));
    var paused := env(db, pause);
    assert paused.(sync := paused.sync) == paused;
  }

  lemma PausedRelease(w: World, env: Env, start: Db, db: Db, n: nat, me: WorkerId, round: nat, error: ProjectError)
    requires OnTrack(w, env, start, db, Failed(round, error))
    ensures var after := env(db, n).(sync := Released(env(db, n).sync, me, round));
            OnTrack(w, env, start, after, Idle) && Tracked(w) && FailedRightly(w, after, round, error)
  {
    hide OnTrack, DbInv, Evolves, Tracked, DistinctIds, RoundFits;
    PausedAct(w, env, start, db, n, me, Failed(round, error), Release);
    TrackParts(w, env, start, env(db, n), Failed(round, error));
  }

  lemma ReleasedTwice(doc: SyncState, me: WorkerId, round: nat)
    ensures Released(Released(doc, me, round), me, round) == Released(doc, me, round)
  {
  }

  class LpProjector {
    const repository: MongoLpProjectionRepository
    const workerId: WorkerId

    constructor (repository: MongoLpProjectionRepository, workerId: WorkerId)
      ensures this.repository == repository && this.workerId == workerId
    {
      this.repository := repository;
      this.workerId := workerId;
    }

    /** Project a preflighted block, event by event; the pools whose balances were changed now are returned. */
    method UpdateLpStatesWithTransactions(ghost w: World, transactions: seq<LpTransaction>, round: nat, env: Env, turn: nat,
                                          ghost start: Db, ghost disciplined: bool, ghost job: Job)
      returns (r: Result<set<string>, ProjectError>, next: nat)
      requires transactions == w.block(round) && job.transactions == transactions && job.Round() == round
      requires RoundComeTo(env, job, repository.Value(), Working(Projecting(round, 0, ReadState)), turn)
      requires IsChanged(env, job, {}, turn)
      requires Monotone(w, env) && CursorsWithin(w, repository.Value())
      requires disciplined ==> OnTrack(w, env, start, repository.Value(), Projecting(round, 0, ReadState))
      modifies repository, repository.coordinator
      ensures CursorsWithin(w, repository.Value())
      ensures disciplined ==>
                OnTrack(w, env, start, repository.Value(),
                        if r.Success? then Projecting(round, |transactions|, ReadState) else Failed(round, r.error))
      ensures RoundComeTo(env, job, repository.Value(),
                          Working(if r.Success? then Projecting(round, |transactions|, ReadState) else Failed(round, r.error)), next)
      ensures r.Success? ==> IsChanged(env, job, r.value, next)
    {
      hide OnTrack, Disciplined, Evolves, CursorsWithin, Monotone, ComeTo, SettledAs, IsChanged, RoundComeTo, Obeys, DbInv;
      next := turn;
      var changed: set<string> := {};
      var i := 0;
      while i < |transactions|
        invariant 0 <= i <= |transactions|
        invariant CursorsWithin(w, repository.Value())
        invariant disciplined ==> OnTrack(w, env, start, repository.Value(), Projecting(round, i, ReadState))
        invariant RoundComeTo(env, job, repository.Value(), Working(Projecting(round, i, ReadState)), next)
        invariant IsChanged(env, job, changed, next)
      {
        ghost var before := repository.Value();
        if disciplined {
          RestartTrack(w, env, start, before, Projecting(round, i, ReadState));
        }
        ghost var call := ProjectCall(next, before, transactions[i], round, i);
        var outcome;
        ghost var swaps, retries;
        outcome, next, swaps, retries := repository.Project(w, transactions[i], AtEvent(round, i), env, next);
        ghost var l := if outcome.Success? then Settled(round, i) else Failed(round, outcome.error);
        Follow(env, job, call, repository.Value(), l, next);
        if disciplined {
          ExtendTrack(w, env, start, before, repository.Value(), l);
        }
        if outcome.Failure? {
          return Failure(outcome.error), next;
        }
        ChangedNext(env, job, changed, call, outcome.value, repository.Value(), next);
        if outcome.value == Applied {
          changed := changed + {transactions[i].poolAddress};
        }
        i := i + 1;
      }
      return Success(changed), next;
    }

    method ClaimRound(ghost w: World, lastRound: nat, now: int, env: Env, turn: nat, ghost start: Db, ghost disciplined: bool,
                      ghost job: Job)
      returns (claimed: bool)
      requires job == Job(workerId, job.transactions, lastRound, now, job.completeTime, turn, repository.Value())
      requires Monotone(w, env) && CursorsWithin(w, repository.Value())
      requires disciplined ==> OnTrack(w, env, start, repository.Value(), Idle)
      modifies repository, repository.coordinator
      ensures CursorsWithin(w, repository.Value())
      ensures var db := env(old(repository.Value()), turn);
              var after := Claimed(db.sync, workerId, Some(lastRound), lastRound + 1, now);
              (claimed <==> after.Some?) && repository.Value() == db.(sync := if claimed then after.value else db.sync)
      // Claimed exactly when the checkpoint is the expected one and no other worker's lease is live.
      ensures var doc := env(old(repository.Value()), turn).sync;
              claimed <==> && doc.lastRound == Some(lastRound)
                           && (doc.leaseUntil.Some? ==> doc.leaseUntil.value <= now || doc.leaseOwner == Some(workerId))
      ensures claimed ==> LiveClaim(repository.Value().sync, workerId, lastRound, now + LEASE_DURATION - 1)
      ensures RoundComeTo(env, job, repository.Value(),
                          if claimed then Working(Projecting(lastRound + 1, 0, ReadState)) else Over(NotClaimed), turn + 1)
      ensures IsChanged(env, job, {}, turn + 1)
      ensures disciplined ==>
                OnTrack(w, env, start, repository.Value(), if claimed then Projecting(lastRound + 1, 0, ReadState) else Idle)
    {
      hide OnTrack, RoundComeTo, IsChanged;
      ClaimStarts(env, job);
      if disciplined {
        PausedClaim(w, env, start, repository.Value(), turn, workerId, lastRound, now);
      }
      repository.Pause(env, turn);
      ghost var paused := repository.Value();
      var r := repository.coordinator.ClaimRound(workerId, Some(lastRound), lastRound + 1, now);
      claimed := r.Success? && r.value.Some?;
      assert repository.Value() == paused.(sync := repository.coordinator.doc);
    }

    method CompleteRound(ghost w: World, lastRound: nat, ghost n: nat, now: int, env: Env, turn: nat,
                         ghost start: Db, ghost disciplined: bool, ghost job: Job)
      returns (completed: bool)
      requires n == |w.block(lastRound + 1)| && |job.transactions| == n
      requires job.me == workerId && job.lastRound == lastRound && job.completeTime == now
      requires RoundComeTo(env, job, repository.Value(), Working(Projecting(lastRound + 1, n, ReadState)), turn)
      requires disciplined ==> OnTrack(w, env, start, repository.Value(), Projecting(lastRound + 1, n, ReadState))
      modifies repository, repository.coordinator
      ensures completed ==> repository.Value().sync.lastRound == Some(lastRound + 1)
      ensures var db := env(old(repository.Value()), turn);
              var after := Completed(db.sync, workerId, Some(lastRound), lastRound + 1, now);
              (completed <==> after.Some?) && repository.Value() == db.(sync := if completed then after.value else db.sync)
      // Completed exactly when the claim is still this worker's and live.
      ensures completed <==> LiveClaim(env(old(repository.Value()), turn).sync, workerId, lastRound, now)
      ensures RoundComeTo(env, job, repository.Value(),
                          if completed then Over(RoundCompleted) else Working(Failed(lastRound + 1, ProjectError.LostClaim)), turn + 1)
      ensures disciplined ==>
                OnTrack(w, env, start, repository.Value(),
                        if completed then Idle else Failed(lastRound + 1, ProjectError.LostClaim))
    {
      hide OnTrack, RoundComeTo;
      RoundProceeds(env, job, repository.Value(), Working(Projecting(lastRound + 1, n, ReadState)), turn);
      if disciplined {
        PausedComplete(w, env, start, repository.Value(), turn, workerId, lastRound, n, now);
      }
      repository.Pause(env, turn);
      ghost var paused := repository.Value();
      var r := repository.coordinator.CompleteRound(workerId, Some(lastRound), lastRound + 1, now);
      completed := r.Success?;
      assert repository.Value() == paused.(sync := repository.coordinator.doc);
    }

    method ReleaseAfterError(ghost w: World, round: nat, ghost error: ProjectError, env: Env, turn: nat,
                             ghost start: Db, ghost disciplined: bool, ghost job: Job)
      requires job.me == workerId && job.Round() == round
      requires RoundComeTo(env, job, repository.Value(), Working(Failed(round, error)), turn)
      requires disciplined ==> OnTrack(w, env, start, repository.Value(), Failed(round, error))
      modifies repository, repository.coordinator
      ensures var db := env(old(repository.Value()), turn);
              repository.Value() == db.(sync := Released(db.sync, workerId, round))
      ensures RoundComeTo(env, job, repository.Value(), Over(RoundFailed(error)), turn + 1)
      ensures disciplined ==> OnTrack(w, env, start, repository.Value(), Idle) && Tracked(w)
                              && FailedRightly(w, repository.Value(), round, error)
    {
      hide OnTrack, FailedRightly, RoundComeTo;
      RoundProceeds(env, job, repository.Value(), Working(Failed(round, error)), turn);
      if disciplined {
        PausedRelease(w, env, start, repository.Value(), turn, workerId, round, error);
      }
      repository.Pause(env, turn);
      ghost var paused := repository.Value();
      repository.coordinator.ReleaseAfterError(workerId, round);
      assert repository.Value() == paused.(sync := repository.coordinator.doc);
    }

    /**
     * One iteration of the sync loop: claim the next round, project its block, complete it; on
     * an error release the claim.
     */
    method ProcessRound(ghost w: World, transactions: seq<LpTransaction>, lastRound: nat,
                        claimTime: int, completeTime: int, env: Env, turn: nat)
      returns (r: RoundResult, ghost next: nat)
      requires transactions == w.block(lastRound + 1)
      requires Monotone(w, env) && CursorsWithin(w, repository.Value())
      modifies repository, repository.coordinator
      ensures r == RoundCompleted ==> repository.Value().sync.lastRound == Some(lastRound + 1)
      // The call is exactly the run of its operations among the others'.
      ensures var job := Job(workerId, transactions, lastRound, claimTime, completeTime, turn, old(repository.Value()));
              RoundComeTo(env, job, repository.Value(), Over(r), next)
      // Nobody disturbing it, the block is projected and its round completed.
      ensures var job := Job(workerId, transactions, lastRound, claimTime, completeTime, turn, old(repository.Value()));
              Still(env) && Promising(w, job) ==>
                && r == RoundCompleted && Projected(w, old(repository.Value()), repository.Value(), lastRound + 1)
                && BalancesHeld(w, old(repository.Value()), repository.Value())
      // Completed, or reported lost, as the claim is or is not still live when the block is settled.
      ensures var job := Job(workerId, transactions, lastRound, claimTime, completeTime, turn, old(repository.Value()));
              && (r == RoundCompleted <==> CompletedOrLost(env, job, true))
              && (r == RoundFailed(ProjectError.LostClaim) <==> CompletedOrLost(env, job, false))
      // Not claimed exactly when the checkpoint is another one or another worker's lease is live.
      ensures var doc := env(old(repository.Value()), turn).sync;
              r == NotClaimed <==> || doc.lastRound != Some(lastRound)
                                   || (doc.leaseUntil.Some? && claimTime < doc.leaseUntil.value && doc.leaseOwner != Some(workerId))
      ensures r == NotClaimed ==> repository.Value() == env(old(repository.Value()), turn)
      // After an error this worker holds no claim on the round.
      ensures r.RoundFailed? ==>
                repository.Value().sync == Released(repository.Value().sync, workerId, lastRound + 1)
      ensures old(Disciplined(w, env, repository.Value(), Idle)) ==>
                OnTrack(w, env, old(repository.Value()), repository.Value(), Idle)
      ensures old(Disciplined(w, env, repository.Value(), Idle)) && r.RoundFailed? ==>
                Tracked(w) && FailedRightly(w, repository.Value(), lastRound + 1, r.error)
    {
      ghost var start := repository.Value();
      ghost var disciplined := Disciplined(w, env, start, Idle);
      assert disciplined ==> OnTrack(w, env, start, start, Idle);
      hide OnTrack, Disciplined, CursorsWithin, Monotone, FailedRightly, Claimed, Completed, Released;
      hide RoundComeTo, IsChanged, Still, Promising, Projected, BalancesHeld, CompletedOrLost, LiveClaim;
      ghost var job := Job(workerId, transactions, lastRound, claimTime, completeTime, turn, start);
      var claimed := ClaimRound(w, lastRound, claimTime, env, turn, start, disciplined, job);
      next := turn + 1;
      if claimed {
        r, next := FinishRound(w, transactions, lastRound, completeTime, env, turn + 1, start, disciplined, job);
      } else {
        r := NotClaimed;
      }
      EndIsExact(env, job, repository.Value(), r, next);
      if Still(env) && Promising(w, job) {
        QuietRoundCompletes(w, env, job, repository.Value(), r, next);
      }
    }

    /** Project the claimed block and complete its round; on an error release the claim. */
    method FinishRound(ghost w: World, transactions: seq<LpTransaction>, lastRound: nat, completeTime: int, env: Env, turn: nat,
                       ghost start: Db, ghost disciplined: bool, ghost job: Job)
      returns (r: RoundResult, ghost end: nat)
      requires transactions == w.block(lastRound + 1) && job.transactions == transactions
      requires job.me == workerId && job.lastRound == lastRound && job.completeTime == completeTime
      requires RoundComeTo(env, job, repository.Value(), Working(Projecting(lastRound + 1, 0, ReadState)), turn)
      requires IsChanged(env, job, {}, turn)
      requires Monotone(w, env) && CursorsWithin(w, repository.Value())
      requires disciplined ==> OnTrack(w, env, start, repository.Value(), Projecting(lastRound + 1, 0, ReadState))
      modifies repository, repository.coordinator
      ensures r != NotClaimed && RoundComeTo(env, job, repository.Value(), Over(r), end)
      ensures r == RoundCompleted ==> repository.Value().sync.lastRound == Some(lastRound + 1)
      ensures r.RoundFailed? ==> repository.Value().sync == Released(repository.Value().sync, workerId, lastRound + 1)
      ensures disciplined ==> OnTrack(w, env, start, repository.Value(), Idle)
      ensures disciplined && r.RoundFailed? ==> Tracked(w) && FailedRightly(w, repository.Value(), lastRound + 1, r.error)
    {
      hide OnTrack, Disciplined, CursorsWithin, Monotone, FailedRightly, Claimed, Completed, Released, IsChanged, RoundComeTo;
      var projected, next := UpdateLpStatesWithTransactions(w, transactions, lastRound + 1, env, turn, start, disciplined, job);
      var error := ProjectError.LostClaim;
      if projected.Success? {
        var completed := CompleteRound(w, lastRound, |transactions|, completeTime, env, next, start, disciplined, job);
        next := next + 1;
        if completed {
          return RoundCompleted, next;
        }
      } else {
        error := projected.error;
      }
      ghost var before := repository.Value();
      ReleaseAfterError(w, lastRound + 1, error, env, next, start, disciplined, job);
      ReleasedTwice(env(before, next).sync, workerId, lastRound + 1);
      return RoundFailed(error), next + 1;
    }

    /** Refresh every pool from the Indexer, one after the other, going on after a failure; the first one is reported. */
    method UpdateAllLpStatesLinear(ghost w: World, order: seq<string>, indexer: Indexer, env: Env, turn: nat,
                                   ghost start: Db, ghost disciplined: bool, ghost expected: Option<nat>, ghost least: nat)
      returns (r: Result<seq<Option<Cursor>>, SnapshotError>, next: nat)
      requires forall p | p in order :: p in w.pools
      requires disciplined ==> Truthful(w, indexer)
      requires disciplined ==> OnTrack(w, env, start, repository.Value(), Cutover(expected, order, []))
      modifies repository, repository.coordinator
      ensures r.Success? ==> |r.value| == |order|
      ensures disciplined ==>
                OnTrack(w, env, start, repository.Value(), if r.Success? then Cutover(expected, order, r.value) else Idle)
      ensures disciplined && r.Failure? ==> r.error == InvalidSnapshot && Misfit(w)
      // The cursors cover what the Indexer covers, and a snapshot leaves the checkpoint alone.
      ensures disciplined && r.Success? && AheadOf(indexer, order, least) ==> forall c | c in r.value :: CoversAll(c, least)
      ensures Still(env) ==> repository.Value().sync == old(repository.Value().sync)
    {
      hide OnTrack, Truthful, Misfit, CoversAll, StoreSnapshot, Still, AheadOf;
      var cursors: seq<Option<Cursor>> := [];
      var failure: Option<SnapshotError> := None;
      ghost var collected: seq<Option<Cursor>> := [];
      next := turn;
      for i := 0 to |order|
        invariant |collected| == i && (failure.None? ==> cursors == collected)
        invariant disciplined ==> OnTrack(w, env, start, repository.Value(), Cutover(expected, order, collected))
        invariant disciplined && failure.Some? ==> failure.value == InvalidSnapshot && Misfit(w)
        invariant disciplined && AheadOf(indexer, order, least) ==> forall c | c in cursors :: CoversAll(c, least)
        invariant Still(env) ==> repository.Value().sync == old(repository.Value().sync)
      {
        var p := order[i];
        ghost var next0 := next;
        var (balances, observed) := indexer(p, next);
        ghost var l := Holding(Cutover(expected, order, collected), balances, observed, false);
        ghost var fits := balances.InRange() && IsUint64(observed);
        if disciplined {
          Fetched(w, env, start, repository.Value(), indexer, next, l);
        }
        if Still(env) {
          StoresKeepSync(env, repository.Value(), next, l);
        }
        var replaced;
        replaced, next := repository.ReplaceSnapshot(w, p, balances, observed, env, next, start, disciplined && fits, l);
        if replaced.Success? {
          if disciplined && AheadOf(indexer, order, least) {
            ReportCovers(indexer, order, least, p, next0, replaced.value.cursor);
          }
          cursors := cursors + [replaced.value.cursor];
          collected := collected + [replaced.value.cursor];
        } else {
          failure := if failure.None? then Some(replaced.error) else failure;
          if disciplined {
            SkipPool(w, env, start, repository.Value(), l.cut);
          }
          collected := collected + [if p in repository.states then repository.states[p].cursor else None];
        }
      }
      if failure.Some? && disciplined {
        StopCutover(w, env, start, repository.Value(), Cutover(expected, order, collected));
      }
      r := if failure.None? then Success(cursors) else Failure(failure.value);
    }

    /** Move the checkpoint to the least round that the node and all collected cursors cover. */
    method AdvanceCheckpoint(ghost w: World, ghost order: seq<string>, cursors: seq<Option<Cursor>>, expected: Option<nat>,
                             nodeRound: nat, now: int, env: Env, turn: nat, ghost start: Db, ghost disciplined: bool)
      returns (r: Result<SyncState, CutoverError>)
      requires |cursors| == |order|
      requires disciplined ==> OnTrack(w, env, start, repository.Value(), Cutover(expected, order, cursors))
      modifies repository, repository.coordinator
      ensures r.Success? ==> r.value == repository.Value().sync
      ensures r.Success? ==> Success(r.value.lastRound) == MapSome(SnapshotCheckpointRound(expected, nodeRound, cursors))
      ensures r.Success? ==> r.value.lastRound.Some? && IsLeast(r.value.lastRound.value, nodeRound, cursors)
      ensures r.Failure? ==> !r.error.SnapshotFailed?
      ensures r.Failure? ==> repository.Value() == env(old(repository.Value()), turn)
      ensures var checkpoint := SnapshotCheckpointRound(expected, nodeRound, cursors);
              var db := env(old(repository.Value()), turn);
              && (r.Success? <==> checkpoint.Success? && (expected.Some? ==> expected.value <= checkpoint.value)
                                  && Advanced(db.sync, expected, checkpoint.value, now).Some?)
              && (r.Success? ==> repository.Value() == db.(sync := Advanced(db.sync, expected, checkpoint.value, now).value))
      ensures disciplined ==> OnTrack(w, env, start, repository.Value(), Idle)
    {
      ghost var l := Cutover(expected, order, cursors);
      if disciplined {
        PausedAdvance(w, env, start, repository.Value(), turn, workerId, l, nodeRound, now);
      }
      repository.Pause(env, turn);
      ghost var paused := repository.Value();
      hide OnTrack;
      var checkpoint := SnapshotCheckpointRound(expected, nodeRound, cursors);
      if checkpoint.Failure? {
        return Failure(NoCheckpoint(checkpoint.error));
      }
      var advanced := repository.coordinator.AdvanceSnapshot(expected, checkpoint.value, now);
      assert repository.Value() == paused.(sync := repository.coordinator.doc);
      if advanced.Failure? {
        return Failure(NotAdvanced);
      }
      return Success(advanced.value);
    }

    /** Snapshot every pool, then advance the checkpoint; it never moves past a cursor or backwards. */
    method ReconcileSyncCheckpoint(ghost w: World, order: seq<string>, nodeRound: nat, now: int,
                                   indexer: Indexer, env: Env, turn: nat, ghost reached: nat)
      returns (r: Result<SyncState, CutoverError>)
      requires CoversPools(w, order) && forall p | p in order :: p in w.pools
      modifies repository, repository.coordinator
      ensures r.Success? ==> r.value == repository.Value().sync
                             && r.value.lastRound.Some? && r.value.lastRound.value <= nodeRound
      ensures r.Success? && old(repository.coordinator.doc.lastRound).Some? ==>
                old(repository.coordinator.doc.lastRound).value <= r.value.lastRound.value
      ensures old(Disciplined(w, env, repository.Value(), Idle)) && Truthful(w, indexer) ==>
                && OnTrack(w, env, old(repository.Value()), repository.Value(), Idle)
                && (r.Failure? && r.error.SnapshotFailed? ==> r.error.error == InvalidSnapshot && Misfit(w))
      // Nobody disturbing it and no lease being live, the checkpoint gets as far as the node and every report of the Indexer.
      ensures old(Disciplined(w, env, repository.Value(), Idle)) && Truthful(w, indexer) && !Misfit(w) && Still(env) ==>
                var doc := old(repository.coordinator.doc);
                doc.LeaseLapsed(now) && doc.LastRoundOr0() <= reached <= nodeRound && AheadOf(indexer, order, reached) ==>
                  r.Success? && r.value.lastRound.Some? && reached <= r.value.lastRound.value
    {
      ghost var start := repository.Value();
      hide OnTrack, Disciplined, Truthful, Misfit, Still, AheadOf, CoversAll, CoversPools, LeastCovered;
      ghost var disciplined := Disciplined(w, env, start, Idle) && Truthful(w, indexer);
      var expected := repository.coordinator.doc.lastRound;
      if disciplined {
        CutoverStarts(w, env, start, expected, order);
      }
      var snapshots, next := UpdateAllLpStatesLinear(w, order, indexer, env, turn, start, disciplined, expected, reached);
      if snapshots.Failure? {
        return Failure(SnapshotFailed(snapshots.error));
      }
      if disciplined && Still(env) && start.sync.LastRoundOr0() <= reached <= nodeRound && AheadOf(indexer, order, reached) {
        CheckpointFound(expected, nodeRound, snapshots.value, reached);
        StillNow(env, repository.Value(), next);
      }
      r := AdvanceCheckpoint(w, order, snapshots.value, expected, nodeRound, now, env, next, start, disciplined);
    }
  }

  /** The Indexer has come as far as this round for every pool. */
  ghost predicate AheadOf(indexer: Indexer, order: seq<string>, least: nat) {
    forall p, n: nat | p in order :: least <= indexer(p, n).1
  }

  /** The greatest round that the node and all these cursors cover. */
  predicate IsLeast(c: nat, nodeRound: nat, cursors: seq<Option<Cursor>>) {
    && c <= nodeRound && (forall i | 0 <= i < |cursors| :: CoversAll(cursors[i], c))
    && (c == nodeRound || exists i | 0 <= i < |cursors| :: CompleteThrough(cursors[i]) == Some(c))
  }

  predicate CoversAll(c: Option<Cursor>, least: nat) {
    CompleteThrough(c).Some? && least <= CompleteThrough(c).value
  }

  lemma ReportCovers(indexer: Indexer, order: seq<string>, least: nat, p: string, n: nat, c: Option<Cursor>)
    requires AheadOf(indexer, order, least) && p in order && c.Some? && AtMost(RoundEnd(indexer(p, n).1), c.value)
    ensures CoversAll(c, least)
  {
  }

  lemma StillNow(env: Env, db: Db, n: nat)
    requires Still(env)
    ensures env(db, n) == db
  {
  }

  lemma StoresKeepSync(env: Env, db: Db, n: nat, l: Local)
    requires Still(env) && l.Holding? && l.cut.Cutover? && |l.cut.cursors| < |l.cut.order|
    ensures var (db1, l1) := StoreSnapshot(env(db, n), l);
            && env(db, n) == db && env(db, n + 1) == db && db1.sync == db.sync
            && (l1.Holding? ==> l1.cut == l.cut && StoreSnapshot(env(db1, n + 1), l1).0.sync == db.sync)
  {
    StillNow(env, db, n);
    StillNow(env, db, n + 1);
    StillNow(env, StoreSnapshot(db, l).0, n + 1);
    hide Still;
  }

  /** Cursors that all cover a round give a checkpoint at or past it. */
  lemma CheckpointFound(previous: Option<nat>, nodeRound: nat, cursors: seq<Option<Cursor>>, least: nat)
    requires least <= nodeRound && (previous.Some? ==> previous.value <= least) && forall c | c in cursors :: CoversAll(c, least)
    ensures var c := SnapshotCheckpointRound(previous, nodeRound, cursors);
            c.Success? && least <= c.value
  {
    assert forall i | 0 <= i < |cursors| :: CoversAll(cursors[i], least);
  }

  ghost function MapSome(r: Result<nat, CheckpointError>): Result<Option<nat>, CheckpointError> {
    if r.Success? then Success(Some(r.value)) else Failure(r.error)
  }

  /** Some report of the Indexer cannot be stored. */
  ghost predicate Misfit(w: World) {
    exists p: string, r: nat :: p in w.pools && !SnapshotFits(w, p, r)
  }

  /** A report that can be stored may be held; a truthful Indexer's other reports are misfits. */
  lemma Fetched(w: World, env: Env, start: Db, db: Db, indexer: Indexer, n: nat, l: Local)
    requires l.Holding? && l.cut.Cutover? && OnTrack(w, env, start, db, l.cut) && !l.missed && Truthful(w, indexer)
    requires |l.cut.cursors| < |l.cut.order| && l.cut.order[|l.cut.cursors|] in w.pools
    requires indexer(l.cut.order[|l.cut.cursors|], n) == (l.balances, l.observed)
    ensures l.balances.InRange() && IsUint64(l.observed) ==> OnTrack(w, env, start, db, l)
    ensures !(l.balances.InRange() && IsUint64(l.observed)) ==> Misfit(w)
  {
    hide OnTrack, DbInv, Tracked, DistinctIds, Evolves;
    assert l.balances == w.observed(l.cut.order[|l.cut.cursors|], l.observed);
    if l.balances.InRange() && IsUint64(l.observed) {
      TrackParts(w, env, start, db, l.cut);
      SameTrack(w, env, start, db, l.cut, l);
    } else {
      assert !SnapshotFits(w, l.cut.order[|l.cut.cursors|], l.observed);
    }
  }

  lemma CutoverStarts(w: World, env: Env, start: Db, expected: Option<nat>, order: seq<string>)
    requires Disciplined(w, env, start, Idle) && CoversPools(w, order)
    ensures OnTrack(w, env, start, start, Cutover(expected, order, []))
  {
    hide DbInv, Tracked, DistinctIds, Obeys;
  }

  /** A pool whose report was refused stays where it is. */
  lemma SkipPool(w: World, env: Env, start: Db, db: Db, cut: Local)
    requires cut.Cutover? && OnTrack(w, env, start, db, cut)
    requires |cut.cursors| < |cut.order| && cut.order[|cut.cursors|] in w.pools
    ensures var p := cut.order[|cut.cursors|];
            p in db.states && OnTrack(w, env, start, db, cut.(cursors := cut.cursors + [db.states[p].cursor]))
  {
    hide OnTrack, DbInv, Tracked, DistinctIds, Evolves, PoolSound;
    var p := cut.order[|cut.cursors|];
    TrackParts(w, env, start, db, cut);
    SoundPool(w, db, p);
    HasCursor(w, db, p);
    SameTrack(w, env, start, db, cut, cut.(cursors := cut.cursors + [db.states[p].cursor]));
  }

  lemma StopCutover(w: World, env: Env, start: Db, db: Db, l: Local)
    requires OnTrack(w, env, start, db, l)
    ensures OnTrack(w, env, start, db, Idle)
  {
    hide OnTrack, DbInv, Tracked, DistinctIds, Evolves;
    TrackParts(w, env, start, db, l);
    SameTrack(w, env, start, db, l, Idle);
  }

  /** With the same collections, only this worker's own position has to be sound. */
  lemma SameTrack(w: World, env: Env, start: Db, db: Db, l: Local, l': Local)
    requires OnTrack(w, env, start, db, l) && Tracked(w) && LocalInv(w, db, l')
    ensures OnTrack(w, env, start, db, l')
  {
    hide DbInv, Tracked, DistinctIds, Evolves, LocalInv, Obeys;
  }

  lemma PausedAdvance(w: World, env: Env, start: Db, db: Db, n: nat, me: WorkerId, l: Local, nodeRound: nat, now: int)
    requires OnTrack(w, env, start, db, l) && l.Cutover? && |l.cursors| == |l.order|
    ensures OnTrack(w, env, start, env(db, n), Idle)
    ensures var c := SnapshotCheckpointRound(l.expected, nodeRound, l.cursors);
            c.Success? && Advanced(env(db, n).sync, l.expected, c.value, now).Some? ==>
              OnTrack(w, env, start, env(db, n).(sync := Advanced(env(db, n).sync, l.expected, c.value, now).value), Idle)
  {
    var d := env(db, n);
    PauseKeeps(w, env, start, db, n, l);
    TrackParts(w, env, start, d, l);
    TrackStep(w, env, start, d, d, l, Idle);
    hide OnTrack, DbInv, ValidWorld, Evolves;
    var c := SnapshotCheckpointRound(l.expected, nodeRound, l.cursors);
    if c.Success? && Advanced(d.sync, l.expected, c.value, now).Some? {
      AdvanceKeeps(w, d, l, nodeRound, now);
      TrackStep(w, env, start, d, d.(sync := Advanced(d.sync, l.expected, c.value, now).value), l, Idle);
    }
  }

  lemma TrackParts(w: World, env: Env, start: Db, db: Db, l: Local)
    requires OnTrack(w, env, start, db, l)
    ensures ValidWorld(w) && DbInv(w, db) && LocalInv(w, db, l)
  {
  }

  lemma TrackStep(w: World, env: Env, start: Db, db: Db, db': Db, l: Local, l': Local)
    requires OnTrack(w, env, start, db, l)
    requires DbInv(w, db') && Evolves(w, db, db') && LocalInv(w, db', l')
    ensures OnTrack(w, env, start, db', l')
  {
    EvolvesTransitive(w, start, db, db');
  }

  /** A point of a disciplined run is the start of its own continuation. */
  lemma RestartTrack(w: World, env: Env, start: Db, db: Db, l: Local)
    requires OnTrack(w, env, start, db, l)
    ensures Disciplined(w, env, db, l) && Evolves(w, start, db)
  {
  }

  lemma ExtendTrack(w: World, env: Env, start: Db, middle: Db, db: Db, l: Local)
    requires Evolves(w, start, middle)
    requires OnTrack(w, env, middle, db, l)
    ensures OnTrack(w, env, start, db, l)
  {
    EvolvesTransitive(w, start, middle, db);
  }
}

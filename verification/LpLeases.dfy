/**
 * What a lease is worth (flex/db/sync_coordinator.py): as long as it lasts, nobody else touches the
 * checkpoint document.
 */
module LpLeases {
  import opened Wrappers
  import opened LpWorld
  import opened LpProtocol
  import opened LpSafety
  import opened SyncCoordinator

  /** The clock that an action has read. */
  function ClockOf(a: Action): Option<int> {
    match a
    case Claim(_, now) => Some(now)
    case Complete(now) => Some(now)
    case Advance(_, now) => Some(now)
    case _ => None
  }

  ghost predicate ClocksAdvance(schedule: seq<Step>) {
    forall i, j | 0 <= i < j < |schedule| :: InOrder(schedule, i, j)
  }

  predicate InOrder(schedule: seq<Step>, i: nat, j: nat)
    requires i < |schedule| && j < |schedule|
  {
    var a, b := ClockOf(schedule[i].action), ClockOf(schedule[j].action);
    a.Some? && b.Some? ==> a.value <= b.value
  }

  /** Step n is a claim that succeeds at this time. */
  ghost predicate ClaimsAt(w: World, s: System, schedule: seq<Step>, n: nat, now: int)
    requires Tracked(w) && n < |schedule|
  {
    && schedule[n].action.Claim? && schedule[n].action.now == now
    && Run(w, s, schedule[..n]).LocalOf(schedule[n].worker).Idle?
    && Run(w, s, schedule[..n + 1]).LocalOf(schedule[n].worker).Projecting?
  }

  /** The owner holds a lease at least until then. */
  predicate HoldsUntil(doc: SyncState, owner: WorkerId, until: int) {
    doc.leaseOwner == Some(owner) && doc.leaseUntil.Some? && doc.leaseUntil.value >= until
  }

  /** The lease is neither over nor given up between two steps. */
  ghost predicate Undisturbed(schedule: seq<Step>, owner: WorkerId, m: nat, n: nat, until: int)
    requires n <= |schedule|
  {
    forall k | m < k < n :: LeavesLease(schedule[k], owner, until)
  }

  predicate LeavesLease(step: Step, owner: WorkerId, until: int) {
    && (ClockOf(step.action).Some? ==> ClockOf(step.action).value < until)
    && (step.worker == owner ==> !step.action.Complete? && !step.action.Release?)
  }

  lemma ClaimHolds(w: World, me: WorkerId, db: Db, l: Local, a: Action)
    requires Tracked(w) && a.Claim? && l.Idle? && Act(w, me, db, l, a).1.Projecting?
    ensures HoldsUntil(Act(w, me, db, l, a).0.sync, me, a.now + LEASE_DURATION)
  {
  }

  /** While a lease lasts, a step of anybody else leaves the document as it is; its owner can only prolong it. */
  lemma LeaseStep(w: World, me: WorkerId, db: Db, l: Local, a: Action, owner: WorkerId, since: int)
    requires Tracked(w) && HoldsUntil(db.sync, owner, since + LEASE_DURATION)
    requires ClockOf(a).Some? ==> since <= ClockOf(a).value < since + LEASE_DURATION
    ensures me != owner ==> Act(w, me, db, l, a).0.sync == db.sync
    ensures me == owner && !a.Complete? && !a.Release? ==>
              HoldsUntil(Act(w, me, db, l, a).0.sync, owner, since + LEASE_DURATION)
  {
  }

  lemma {:induction false} LeaseLasts(w: World, s: System, schedule: seq<Step>, m: nat, n: nat, since: int)
    requires Tracked(w) && m < n <= |schedule| && ClocksAdvance(schedule) && ClaimsAt(w, s, schedule, m, since)
    requires Undisturbed(schedule, schedule[m].worker, m, n, since + LEASE_DURATION)
    ensures HoldsUntil(Run(w, s, schedule[..n]).db.sync, schedule[m].worker, since + LEASE_DURATION)
    decreases n
  {
    hide Run, Act;
    RunStep(w, s, schedule, n - 1);
    var before := Run(w, s, schedule[..n - 1]);
    var step := schedule[n - 1];
    if n == m + 1 {
      ClaimHolds(w, step.worker, before.db, before.LocalOf(step.worker), step.action);
    } else {
      LeaseLasts(w, s, schedule, m, n - 1, since);
      assert InOrder(schedule, m, n - 1) && LeavesLease(step, schedule[m].worker, since + LEASE_DURATION);
      LeaseStep(w, step.worker, before.db, before.LocalOf(step.worker), step.action, schedule[m].worker, since);
    }
  }

  /**
   * In every run with clocks that do not go back: from a successful claim until its lease is over, or its
   * owner completes or releases it, no step of another worker changes the checkpoint document at all.
   */
  lemma LeaseExcludesOthers(w: World, s: System, schedule: seq<Step>, m: nat, n: nat, since: int)
    requires Tracked(w) && m < n < |schedule| && ClocksAdvance(schedule) && ClaimsAt(w, s, schedule, m, since)
    requires Undisturbed(schedule, schedule[m].worker, m, n + 1, since + LEASE_DURATION)
    requires schedule[n].worker != schedule[m].worker
    ensures Run(w, s, schedule[..n + 1]).db.sync == Run(w, s, schedule[..n]).db.sync
  {
    hide Run, Act;
    LeaseLasts(w, s, schedule, m, n, since);
    RunStep(w, s, schedule, n);
    assert InOrder(schedule, m, n) && LeavesLease(schedule[n], schedule[m].worker, since + LEASE_DURATION);
    var before := Run(w, s, schedule[..n]);
    LeaseStep(w, schedule[n].worker, before.db, before.LocalOf(schedule[n].worker), schedule[n].action, schedule[m].worker, since);
  }

  /** So another worker's claim within that time fails. */
  lemma NoOtherClaim(w: World, s: System, schedule: seq<Step>, m: nat, n: nat, since: int, now: int)
    requires Tracked(w) && m < n < |schedule| && ClocksAdvance(schedule) && ClaimsAt(w, s, schedule, m, since)
    requires ClaimsAt(w, s, schedule, n, now) && schedule[n].worker != schedule[m].worker
    ensures since + LEASE_DURATION <= now
            || exists k | m < k < n :: schedule[k].worker == schedule[m].worker
                                       && (schedule[k].action.Complete? || schedule[k].action.Release?)
  {
    hide Run, Act;
    var owner := schedule[m].worker;
    if now < since + LEASE_DURATION
       && !exists k | m < k < n :: schedule[k].worker == owner && (schedule[k].action.Complete? || schedule[k].action.Release?)
    {
      forall k | m < k < n + 1 ensures LeavesLease(schedule[k], owner, since + LEASE_DURATION) {
        assert k < n ==> InOrder(schedule, k, n);
      }
      LeaseExcludesOthers(w, s, schedule, m, n, since);
      RunStep(w, s, schedule, n);
      var before := Run(w, s, schedule[..n]);
      ClaimHolds(w, schedule[n].worker, before.db, before.LocalOf(schedule[n].worker), schedule[n].action);
      LeaseLasts(w, s, schedule, m, n, since);
    }
  }
}

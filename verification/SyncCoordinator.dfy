/**
 * The checkpoint document that orders rounds between competing workers
 * (flex/db/sync_coordinator.py). Every operation is one atomic update of one document.
 */
module SyncCoordinator {
  import opened Wrappers

  type WorkerId = string

  const LEASE_DURATION: int := 120

  datatype SyncState = SyncState(
    lastRound: Option<nat>, claimedRound: Option<nat>, leaseOwner: Option<WorkerId>, leaseUntil: Option<int>)
  {
    predicate LeaseLapsed(now: int) {
      leaseUntil.None? || leaseUntil.value <= now
    }

    /** The round the checkpoint stands at, or 0 before there is one. */
    function LastRoundOr0(): nat {
      if lastRound.Some? then lastRound.value else 0
    }
  }

  datatype SyncError = RoundsMustAdvanceOnce | LostClaim | CheckpointRegresses | CheckpointChanged

  predicate IsNextRound(expected: Option<nat>, round: nat) {
    expected.None? || round == expected.value + 1
  }

  /** The document after a claim, or nothing when another worker holds the lease or the checkpoint moved. */
  function Claimed(doc: SyncState, owner: WorkerId, expected: Option<nat>, round: nat, now: int): Option<SyncState> {
    if doc.lastRound == expected && (doc.LeaseLapsed(now) || doc.leaseOwner == Some(owner)) then
      Some(SyncState(doc.lastRound, Some(round), Some(owner), Some(now + LEASE_DURATION)))
    else None
  }

  /** The document after the holder of a live claim has finished the round. */
  function Completed(doc: SyncState, owner: WorkerId, expected: Option<nat>, round: nat, now: int): Option<SyncState> {
    if doc.lastRound == expected && doc.claimedRound == Some(round) && doc.leaseOwner == Some(owner)
       && doc.leaseUntil.Some? && doc.leaseUntil.value > now
    then Some(SyncState(Some(round), None, None, None))
    else None
  }

  /** The document after an authoritative snapshot has covered a round, when no lease is live. */
  function Advanced(doc: SyncState, expected: Option<nat>, round: nat, now: int): Option<SyncState> {
    if doc.lastRound == expected && doc.LeaseLapsed(now) then Some(SyncState(Some(round), None, None, None))
    else None
  }

  function Released(doc: SyncState, owner: WorkerId, round: nat): SyncState {
    if doc.claimedRound == Some(round) && doc.leaseOwner == Some(owner) then SyncState(doc.lastRound, None, None, None)
    else doc
  }

  class MongoSyncCoordinator {
    var doc: SyncState

    constructor (initial: SyncState)
      ensures doc == initial
    {
      doc := initial;
    }

    method ClaimRound(owner: WorkerId, expectedLastRound: Option<nat>, round: nat, now: int)
      returns (r: Result<Option<SyncState>, SyncError>)
      modifies this
      ensures r.Failure? <==> !IsNextRound(expectedLastRound, round)
      ensures r.Success? && r.value.Some? ==>
                r.value.value == doc && Claimed(old(doc), owner, expectedLastRound, round, now) == Some(doc)
      ensures !(r.Success? && r.value.Some?) ==> doc == old(doc)
      ensures r == Success(None) ==> Claimed(old(doc), owner, expectedLastRound, round, now).None?
      ensures doc.lastRound == old(doc.lastRound)
      // A claim needs the expected checkpoint, and that no other worker's lease is live.
      ensures r.Success? && r.value.Some? <==>
                && (expectedLastRound.Some? ==> round == expectedLastRound.value + 1)
                && old(doc.lastRound) == expectedLastRound
                && (old(doc.leaseUntil).Some? ==> old(doc.leaseUntil).value <= now || old(doc.leaseOwner) == Some(owner))
      ensures r.Success? && r.value.Some? ==>
                doc.claimedRound == Some(round) && doc.leaseOwner == Some(owner) && doc.leaseUntil == Some(now + LEASE_DURATION)
    {
      if !IsNextRound(expectedLastRound, round) {
        return Failure(RoundsMustAdvanceOnce);
      }
      if doc.lastRound != expectedLastRound || !(doc.LeaseLapsed(now) || doc.leaseOwner == Some(owner)) {
        return Success(None);
      }
      doc := doc.(claimedRound := Some(round), leaseOwner := Some(owner), leaseUntil := Some(now + LEASE_DURATION));
      return Success(Some(doc));
    }

    method CompleteRound(owner: WorkerId, expectedLastRound: Option<nat>, round: nat, now: int)
      returns (r: Result<SyncState, SyncError>)
      modifies this
      ensures r.Success? <==> IsNextRound(expectedLastRound, round)
                              && Completed(old(doc), owner, expectedLastRound, round, now).Some?
      ensures r.Success? ==> r.value == doc && Completed(old(doc), owner, expectedLastRound, round, now) == Some(doc)
      ensures r.Success? && expectedLastRound.Some? ==>
                old(doc.lastRound) == Some(round - 1) && doc.lastRound == Some(round)
      ensures r.Failure? ==> doc == old(doc)
      // Only the holder of a live claim on this round completes it, and gives the claim up.
      ensures r.Success? <==>
                && (expectedLastRound.Some? ==> round == expectedLastRound.value + 1)
                && old(doc.lastRound) == expectedLastRound && old(doc.claimedRound) == Some(round)
                && old(doc.leaseOwner) == Some(owner) && old(doc.leaseUntil).Some? && now < old(doc.leaseUntil).value
      ensures r.Success? ==>
                doc.lastRound == Some(round) && doc.claimedRound.None? && doc.leaseOwner.None? && doc.leaseUntil.None?
    {
      if !IsNextRound(expectedLastRound, round) {
        return Failure(RoundsMustAdvanceOnce);
      }
      if doc.lastRound == expectedLastRound && doc.claimedRound == Some(round) && doc.leaseOwner == Some(owner)
         && doc.leaseUntil.Some? && doc.leaseUntil.value > now
      {
        doc := SyncState(Some(round), None, None, None);
        return Success(doc);
      }
      return Failure(LostClaim);
    }

    method AdvanceSnapshot(expectedLastRound: Option<nat>, round: nat, now: int)
      returns (r: Result<SyncState, SyncError>)
      modifies this
      ensures r.Success? <==> (expectedLastRound.Some? ==> expectedLastRound.value <= round)
                              && Advanced(old(doc), expectedLastRound, round, now).Some?
      ensures r.Success? ==> r.value == doc && Advanced(old(doc), expectedLastRound, round, now) == Some(doc)
      ensures r.Success? && old(doc.lastRound).Some? ==>
                doc.lastRound.Some? && old(doc.lastRound).value <= doc.lastRound.value
      ensures r.Failure? ==> doc == old(doc)
      // A snapshot moves the checkpoint only when nobody's lease is live, not even the caller's own.
      ensures r.Success? <==>
                && (expectedLastRound.Some? ==> expectedLastRound.value <= round)
                && old(doc.lastRound) == expectedLastRound
                && (old(doc.leaseUntil).Some? ==> old(doc.leaseUntil).value <= now)
      ensures r.Success? ==>
                doc.lastRound == Some(round) && doc.claimedRound.None? && doc.leaseOwner.None? && doc.leaseUntil.None?
    {
      if expectedLastRound.Some? && round < expectedLastRound.value {
        return Failure(CheckpointRegresses);
      }
      if doc.lastRound == expectedLastRound && doc.LeaseLapsed(now) {
        doc := SyncState(Some(round), None, None, None);
        return Success(doc);
      }
      return Failure(CheckpointChanged);
    }

    method ReleaseAfterError(owner: WorkerId, round: nat)
      modifies this
      ensures doc == Released(old(doc), owner, round)
      ensures doc.lastRound == old(doc.lastRound)
      ensures if old(doc.claimedRound) == Some(round) && old(doc.leaseOwner) == Some(owner) then
                doc.claimedRound.None? && doc.leaseOwner.None? && doc.leaseUntil.None?
              else doc == old(doc)
    {
      if doc.claimedRound == Some(round) && doc.leaseOwner == Some(owner) {
        doc := doc.(claimedRound := None, leaseOwner := None, leaseUntil := None);
      }
    }
  }
}

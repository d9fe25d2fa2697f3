/**
 * What an operation of an airdrop must lead to (flex/tools/airdrop.py): with sound collections no recipient
 * is skipped, and the only thing that can go wrong with one is the transfer itself.
 */
module AirdropProgress {
  import opened Wrappers
  import opened TransferIntents
  import opened Airdrop
  import opened Allocation
  import opened TransferProgress
  import T = AssetTransfers
  import TransferRuns

  /** Some recipient has not been served. */
  predicate Faulted(l: Local) {
    match l
    case Running(_, pc) =>
      (match pc
       case Look(_, failed) => failed
       case Backfill(_, failed, _) => failed
       case Pay(_, failed, _) => failed
       case Persist(_, failed, _) => failed
       case Mark(failed) => failed
       case _ => false)
    case Aborted(error) => error == Incomplete
    case _ => false
  }

  /** The recipient is one of the plan's, and a manifest that was seen is there. */
  ghost predicate Placed(db: Db, plan: Plan, pc: Pc) {
    match pc
    case HasManifest => plan.id in db.manifests
    case Validate(k) => k < |plan.order|
    case ValidateReward(k) => k < |plan.order|
    case _ => true
  }

  /** Someone else's manifest is stored under this airdrop ID. */
  predicate OtherManifest(db: Db, plan: Plan) {
    plan.id in db.manifests && db.manifests[plan.id].content != plan.content
  }

  /** The run goes on or is complete, or it ends because of another manifest, or incomplete and stored as such. */
  ghost predicate GoesOn(db: Db, plan: Plan, l: Local) {
    match l
    case Running(p, pc) => p == plan && Placed(db, plan, pc)
    case Complete(p) => p == plan
    case Aborted(error) =>
      || ((error == TransferConflict || error == RewardConflict || error == ManifestConflict) && OtherManifest(db, plan))
      || (error == Incomplete && plan.id in db.manifests && db.manifests[plan.id].status == ManifestPartial)
    case _ => false
  }

  lemma PlanHas(plan: Plan, k: nat)
    requires plan.Valid() && k < |plan.order|
    ensures plan.Has(k) && ValidAddress(plan.order[k])
  {
  }

  lemma RewardIsSound(db: Db, op: string)
    requires DbInv(db) && op in db.rewards
    ensures RewardSound(db, op)
  {
  }

  /** Two rewards of one recipient are one. */
  lemma AtMostOneReward(db: Db, plan: Plan, k: nat)
    requires plan.Valid() && DbInv(db) && k < |plan.order|
    ensures |ExistingRewards(db, plan.id, plan.order[k])| <= 1
  {
    hide DbInv;
    var found := ExistingRewards(db, plan.id, plan.order[k]);
    if found != {} {
      var op :| op in found;
      forall o | o in found ensures o == op {
        OneReward(db, plan, k, o);
        OneReward(db, plan, k, op);
      }
      assert found == {op};
    }
  }

  /** A recipient's reward is what the plan says, or the airdrop is another one. */
  lemma StoredRewardMatches(db: Db, plan: Plan, k: nat, reward: Reward)
    requires plan.Valid() && DbInv(db) && HasReward(db, plan, k, reward)
    ensures plan.Has(k) && plan.id in db.manifests
    ensures RewardMatches(reward, plan, plan.order[k]) || OtherManifest(db, plan)
  {
    hide DbInv, OperationId;
    PlanHas(plan, k);
    RewardIsSound(db, OperationId(plan.id, plan.order[k]));
    SameReward(db, plan, k, reward);
  }

  /** A recipient without a reward is paid, and one with a reward is looked after, whatever happened to the others. */
  lemma LookServes(db: Db, plan: Plan, k: nat, failed: bool, a: T.Answer)
    requires DbInv(db) && plan.Valid() && PcInv(db, plan, Look(k, failed))
    ensures var (db', l') := Next(db, plan, Look(k, failed), a);
            && db' == db && l'.Running? && l'.plan == plan
            && if ExistingRewards(db, plan.id, plan.order[k]) == {} then
                 l'.pc == Pay(k, failed, T.Executing(RequestFor(plan, plan.order[k]), T.Get))
               else l'.pc.Backfill? && l'.pc.k == k && l'.pc.failed == failed
  {
    hide DbInv, ExistingRewards, OperationId;
    PlanHas(plan, k);
    AtMostOneReward(db, plan, k);
    forall op | op in ExistingRewards(db, plan.id, plan.order[k])
      ensures op in db.rewards && RewardMatches(db.rewards[op], plan, plan.order[k])
    {
      FoundReward(db, plan, k, op);
      StoredRewardMatches(db, plan, k, db.rewards[op]);
    }
  }

  lemma BackfillServes(db: Db, plan: Plan, k: nat, failed: bool, reward: Reward, a: T.Answer)
    requires DbInv(db) && plan.Valid() && PcInv(db, plan, Backfill(k, failed, reward))
    ensures Next(db, plan, Backfill(k, failed, reward), a) == (db, ServeOrMark(plan, k + 1, failed))
  {
    hide DbInv, Backfilled, OperationId;
    PlanHas(plan, k);
    BackfillIsIdle(db, plan, k, reward);
  }

  /** A receipt is always recorded; a reward that is there already says the same. */
  lemma PersistServes(db: Db, plan: Plan, k: nat, failed: bool, receipt: T.Receipt, a: T.Answer)
    requires DbInv(db) && plan.Valid() && PcInv(db, plan, Persist(k, failed, receipt))
    ensures var (db', l') := Next(db, plan, Persist(k, failed, receipt), a);
            l' == ServeOrMark(plan, k + 1, failed) && OperationId(plan.id, plan.order[k]) in db'.rewards
            && db'.transfers == db.transfers
  {
    hide DbInv, OperationId;
    PlanHas(plan, k);
    var op := OperationId(plan.id, plan.order[k]);
    if op in db.rewards {
      RewardIsSound(db, op);
      StoredRewardMatches(db, plan, k, db.rewards[op]);
    }
  }

  /** Before the manifest is in place only another manifest under this ID can stop the run. */
  lemma ValidateGoesOn(db: Db, plan: Plan, pc: Pc, a: T.Answer)
    requires DbInv(db) && plan.Valid() && PcInv(db, plan, pc) && Placed(db, plan, pc)
    requires pc.Campaign? || pc.HasManifest? || pc.Validate? || pc.ValidateReward? || pc.ValidateBackfill? || pc.ReserveManifest?
    ensures var (db', l') := Next(db, plan, pc, a);
            GoesOn(db', plan, l') && !Faulted(l') && db'.transfers == db.transfers
  {
    hide DbInv, ExistingRewards, OperationId, Backfilled, Sum;
    match pc {
      case Campaign =>
        forall op | op in db.rewards && db.rewards[op].airdropId == plan.id ensures plan.id in db.manifests {
          RewardIsSound(db, op);
        }
      case Validate(k) =>
        PlanHas(plan, k);
        ConflictIsOther(db, plan, k);
      case ValidateReward(k) => ValidateRewardGoesOn(db, plan, k, a);
      case ValidateBackfill(k, reward) =>
        PlanHas(plan, k);
        BackfillIsIdle(db, plan, k, reward);
      case _ =>
    }
  }

  lemma ValidateRewardGoesOn(db: Db, plan: Plan, k: nat, a: T.Answer)
    requires DbInv(db) && plan.Valid() && k < |plan.order|
    ensures var (db', l') := Next(db, plan, ValidateReward(k), a);
            GoesOn(db', plan, l') && !Faulted(l') && db' == db
  {
    hide DbInv, ExistingRewards, OperationId, Sum;
    PlanHas(plan, k);
    AtMostOneReward(db, plan, k);
    forall op | op in ExistingRewards(db, plan.id, plan.order[k])
      ensures op in db.rewards && (RewardMatches(db.rewards[op], plan, plan.order[k]) || OtherManifest(db, plan))
    {
      FoundReward(db, plan, k, op);
      StoredRewardMatches(db, plan, k, db.rewards[op]);
    }
  }

  /** An intent for another transfer under the recipient's operation belongs to another manifest. */
  lemma ConflictIsOther(db: Db, plan: Plan, k: nat)
    requires DbInv(db) && plan.Valid() && k < |plan.order| && plan.Has(k)
    ensures var request := RequestFor(plan, plan.order[k]);
            request.operationId in db.transfers.intents && !db.transfers.intents[request.operationId].SameTransfer(request) ==>
              OtherManifest(db, plan)
  {
    hide T.SharedInv, ManifestSound, RewardSound, OperationId, Sum;
    PlanHas(plan, k);
    var op := OperationId(plan.id, plan.order[k]);
    if op in db.transfers.intents {
      assert Planned(db, op);
      assert PaysAsPlanned(db, db.transfers.intents[op], plan.id, plan.order[k]);
    }
  }

  /** The transfer of the recipient fails with this operation. */
  predicate PayFails(db: Db, pc: Pc, a: T.Answer) {
    pc.Pay? && pc.transfer.Executing? && T.ExecuteNext(db.transfers, pc.transfer.request, pc.transfer.pc, a).1.Failed?
  }

  /** A recipient is missed only when a transfer fails; with none missed the run completes. */
  lemma StepGoesOn(db: Db, plan: Plan, pc: Pc, a: T.Answer)
    requires DbInv(db) && plan.Valid() && PcInv(db, plan, pc) && Placed(db, plan, pc)
    ensures var (db', l') := Next(db, plan, pc, a);
            GoesOn(db', plan, l') && (Faulted(l') ==> Faulted(Running(plan, pc)) || PayFails(db, pc, a))
  {
    hide DbInv, T.ExecuteNext, OperationId, Sum;
    match pc {
      case Look(k, failed) => LookServes(db, plan, k, failed, a);
      case Backfill(k, failed, reward) => BackfillServes(db, plan, k, failed, reward, a);
      case Persist(k, failed, receipt) => PersistServes(db, plan, k, failed, receipt, a);
      case Pay(k, failed, transfer) => PayGoesOn(db, plan, k, failed, transfer, a);
      case Mark(failed) => MarkGoesOn(db, plan, pc, a);
      case ReadStatus => MarkGoesOn(db, plan, pc, a);
      case _ => ValidateGoesOn(db, plan, pc, a);
    }
  }

  lemma PayGoesOn(db: Db, plan: Plan, k: nat, failed: bool, transfer: T.Local, a: T.Answer)
    requires DbInv(db) && plan.Valid() && PcInv(db, plan, Pay(k, failed, transfer))
    ensures var (db', l') := Next(db, plan, Pay(k, failed, transfer), a);
            var (s, t) := T.ExecuteNext(db.transfers, transfer.request, transfer.pc, a);
            && db' == db.(transfers := s) && GoesOn(db', plan, l')
            && (Faulted(l') ==> failed || t.Failed?)
            && (l'.Running? && l'.pc.Pay? ==> l'.pc == Pay(k, failed, t))
            && (!t.Executing? && !t.Done? ==> t.Failed?)
  {
    hide DbInv, T.ExecuteNext, OperationId, Sum;
    TransferRuns.NeverReconciles(db.transfers, transfer.request, transfer.pc, a);
    EndsSomehow(db.transfers, transfer.request, transfer.pc, a);
  }

  lemma EndsSomehow(s: T.Shared, request: Request, pc: T.ExecPc, a: T.Answer)
    ensures var l' := T.ExecuteNext(s, request, pc, a).1; l'.Executing? || l'.Done? || l'.Failed?
  {
    hide T.BytesMatch, T.Sign, UpdatedNonTerminal, MarkedConfirmed, ConfirmedInstead, TransferIntents.Reserved;
  }

  lemma MarkGoesOn(db: Db, plan: Plan, pc: Pc, a: T.Answer)
    requires plan.Valid() && PcInv(db, plan, pc) && (pc.Mark? || pc.ReadStatus?)
    ensures var (db', l') := Next(db, plan, pc, a);
            GoesOn(db', plan, l') && (Faulted(l') ==> Faulted(Running(plan, pc)))
  {
  }

  /** Why the transfer of a recipient can fail: never because of a conflict. */
  lemma PayFailure(db: Db, plan: Plan, pc: Pc, a: T.Answer)
    requires DbInv(db) && plan.Valid() && PcInv(db, plan, pc) && PayFails(db, pc, a)
    ensures var (s, t) := T.ExecuteNext(db.transfers, pc.transfer.request, pc.transfer.pc, a);
            var op := OperationId(plan.id, plan.order[pc.k]);
            && t.error in {T.InvalidPrepared, T.Expired, T.Pending}
            && (t.error == T.InvalidPrepared ==> a.firstValid > a.lastValid)
            && (t.error != T.InvalidPrepared ==> op in s.intents && s.intents[op].status != StatusConfirmed)
            && (t.error == T.Pending ==> T.Given(s, op))
            && (t.error == T.Expired ==> Late(pc.transfer) && s.intents[op].lastValid == pc.transfer.pc.intent.lastValid)
  {
    hide T.SharedInv, T.ExecuteNext, T.LocalInv, ManifestSound, RewardSound, Planned, OperationId, Sum;
    var request := RequestFor(plan, plan.order[pc.k]);
    var (s, t) := T.ExecuteNext(db.transfers, request, pc.transfer.pc, a);
    FailureStep(db.transfers, request, pc.transfer.pc, a);
    LateStep(db.transfers, request, pc.transfer.pc, a);
    TransferRuns.StepServes(request, db.transfers, pc.transfer, a);
    PayStep(db, plan, pc, a);
    NotContradicted(s, t);
    OwnIntentFits(db.(transfers := s), plan, pc.k);
    if t.error == T.Expired {
      StepHolds(db.transfers, request, pc.transfer.pc, a);
    }
  }

  lemma NotContradicted(s: T.Shared, t: T.Local)
    requires T.LocalInv(s, t) && t.Failed?
    ensures t.error != T.Changed && t.error != T.MissingRound
  {
  }

  /** With this plan's manifest in place a recipient's intent is for the plan's transfer. */
  lemma OwnIntentFits(db: Db, plan: Plan, k: nat)
    requires DbInv(db) && plan.Valid() && Airdrop.Reserved(db, plan) && k < |plan.order|
    ensures plan.Has(k)
    ensures var request := RequestFor(plan, plan.order[k]);
            request.operationId in db.transfers.intents ==> db.transfers.intents[request.operationId].SameTransfer(request)
  {
    hide DbInv, OperationId;
    PlanHas(plan, k);
    ConflictIsOther(db, plan, k);
  }

  lemma StepHolds(s: T.Shared, request: Request, pc: T.ExecPc, a: T.Answer)
    requires T.SharedInv(s) && T.LocalInv(s, T.Executing(request, pc)) && Late(T.Executing(request, pc))
    ensures var s' := T.ExecuteNext(s, request, pc, a).0;
            request.operationId in s'.intents && s'.intents[request.operationId].lastValid == pc.intent.lastValid
  {
    hide T.SharedInv, T.ExecuteNext;
    T.ExecuteKeeps(s, request, pc, a);
  }

  // ---- an airdrop that comes through ----

  /** Nothing stored is in the way of this plan's transfers. */
  ghost predicate PlanFits(db: Db, plan: Plan, limit: nat) {
    !OtherManifest(db, plan) && forall k: nat | plan.Has(k) :: FitsAt(db, plan, k, limit)
  }

  predicate FitsAt(db: Db, plan: Plan, k: nat, limit: nat)
    requires plan.Has(k)
  {
    Fits(db.transfers, RequestFor(plan, plan.order[k]), limit)
  }

  /** How many recipients have been served. */
  function Served(plan: Plan, l: Local): nat {
    match l
    case Running(_, pc) =>
      (match pc
       case Look(k, _) => k
       case Backfill(k, _, _) => k
       case Pay(k, _, _) => k
       case Persist(k, _, _) => k
       case Mark(_) => |plan.order|
       case _ => 0)
    case Complete(_) => |plan.order|
    case _ => 0
  }

  ghost predicate RewardedUpTo(db: Db, plan: Plan, k: nat) {
    forall j | 0 <= j < k && j < |plan.order| :: OperationId(plan.id, plan.order[j]) in db.rewards
  }

  /** Nobody has been missed, and the transfer at work is on its way to a receipt. */
  predicate Smooth(db: Db, l: Local, limit: nat) {
    match l
    case Running(_, pc) => !Faulted(l) && !pc.ReadStatus? && (pc.Pay? ==> OnCourse(db.transfers, pc.transfer, limit))
    case Complete(_) => true
    case _ => false
  }

  /** Everybody served without a fault has a reward afterwards. */
  lemma RewardsFollow(db: Db, plan: Plan, pc: Pc, a: T.Answer)
    requires DbInv(db) && plan.Valid() && PcInv(db, plan, pc) && !pc.ReadStatus?
    requires RewardedUpTo(db, plan, Served(plan, Running(plan, pc)))
    ensures var (db', l') := Next(db, plan, pc, a);
            !Faulted(l') ==> RewardedUpTo(db', plan, Served(plan, l'))
  {
    hide DbInv, T.ExecuteNext, OperationId, Sum, ExistingRewards, RewardMatches, Backfilled;
    match pc {
      case Look(k, failed) => LookServes(db, plan, k, failed, a);
      case Backfill(k, failed, reward) => BackfillServes(db, plan, k, failed, reward, a);
      case Persist(k, failed, receipt) =>
        PersistServes(db, plan, k, failed, receipt, a);
        RewardsStay(db, plan, pc, a);
      case Pay(k, failed, transfer) => PayGoesOn(db, plan, k, failed, transfer, a);
      case _ => NobodyYet(db, plan, pc, a);
    }
  }

  lemma RewardsStay(db: Db, plan: Plan, pc: Pc, a: T.Answer)
    requires pc.Persist?
    ensures forall op | op in db.rewards :: op in Next(db, plan, pc, a).0.rewards
  {
    hide OperationId;
  }

  lemma NobodyYet(db: Db, plan: Plan, pc: Pc, a: T.Answer)
    requires !pc.Look? && !pc.Backfill? && !pc.Persist? && !pc.Pay? && !pc.ReadStatus?
    ensures var (db', l') := Next(db, plan, pc, a);
            if pc.Mark? then db'.rewards == db.rewards else Served(plan, l') == 0 || plan.order == []
  {
    hide T.ExecuteNext, OperationId, ExistingRewards, RewardMatches, Backfilled;
  }

  lemma ManifestStaysOwn(db: Db, plan: Plan, pc: Pc, a: T.Answer)
    requires !OtherManifest(db, plan)
    ensures !OtherManifest(Next(db, plan, pc, a).0, plan)
  {
    hide T.ExecuteNext, ExistingRewards, RewardMatches, ServeOrMark, ValidateOrReserve;
  }

  lemma TransfersUntouched(db: Db, plan: Plan, pc: Pc, a: T.Answer)
    requires !pc.Pay?
    ensures Next(db, plan, pc, a).0.transfers == db.transfers
  {
    hide T.ExecuteNext, ExistingRewards, RewardMatches, ServeOrMark, ValidateOrReserve;
  }

  /** The transfer of one recipient leaves the others' as they were. */
  lemma PayFits(db: Db, db1: Db, plan: Plan, pc: Pc, a: T.Answer, limit: nat)
    requires DbInv(db) && DbInv(db1) && T.Evolves(db.transfers, db1.transfers) && Confirms(db.transfers, db1.transfers)
    requires plan.Valid() && pc.Pay? && PcInv(db, plan, pc) && PcInv(db1, plan, pc)
    requires OnCourse(db.transfers, pc.transfer, limit) && Works(a, limit) && PlanFits(db1, plan, limit)
    ensures var (s, t) := T.ExecuteNext(db1.transfers, pc.transfer.request, pc.transfer.pc, a);
            OnCourse(s, t, limit) && forall k: nat | plan.Has(k) :: Fits(s, RequestFor(plan, plan.order[k]), limit)
  {
    hide T.SharedInv, T.ExecuteNext, T.ExecInv, T.Evolves, ManifestSound, RewardSound, Planned, OperationId, Sum;
    hide Fits, OnCourse, Works, Confirms;
    var request := RequestFor(plan, plan.order[pc.k]);
    var (s, t) := T.ExecuteNext(db1.transfers, request, pc.transfer.pc, a);
    assert FitsAt(db1, plan, pc.k, limit);
    CourseStep(db.transfers, db1.transfers, request, pc.transfer.pc, a, limit);
    T.ExecuteKeeps(db1.transfers, request, pc.transfer.pc, a);
    forall k: nat | plan.Has(k) ensures Fits(s, RequestFor(plan, plan.order[k]), limit) {
      assert FitsAt(db1, plan, k, limit);
      var other := RequestFor(plan, plan.order[k]);
      if other.operationId in s.intents && other.operationId !in db1.transfers.intents {
        T.OnlyOwnIntent(db1.transfers, request, pc.transfer.pc, a, other.operationId);
        OperationIdInjective(plan.id, plan.order[pc.k], plan.id, plan.order[k]);
      } else {
        FitsStays(db1.transfers, s, other, limit);
      }
    }
  }

  /** With a working gateway and a chain that confirms what was sent, nobody is missed. */
  lemma SmoothStep(db: Db, db1: Db, plan: Plan, pc: Pc, a: T.Answer, limit: nat)
    requires DbInv(db) && DbInv(db1) && T.Evolves(db.transfers, db1.transfers) && Confirms(db.transfers, db1.transfers)
    requires plan.Valid() && PcInv(db, plan, pc) && PcInv(db1, plan, pc) && Placed(db1, plan, pc)
    requires Smooth(db, Running(plan, pc), limit) && Works(a, limit) && PlanFits(db1, plan, limit)
    ensures var (db', l') := Next(db1, plan, pc, a);
            Smooth(db', l', limit) && PlanFits(db', plan, limit)
  {
    hide DbInv, PcInv, Next, T.ExecuteNext, T.Evolves, Confirms, Works, Fits, OnCourse, OperationId, Sum, OtherManifest;
    var (db', l') := Next(db1, plan, pc, a);
    StepGoesOn(db1, plan, pc, a);
    ManifestStaysOwn(db1, plan, pc, a);
    if pc.Pay? {
      PayFits(db, db1, plan, pc, a, limit);
      PaySmooth(db1, plan, pc, a, limit);
    } else {
      TransfersUntouched(db1, plan, pc, a);
      forall k: nat | plan.Has(k) ensures FitsAt(db', plan, k, limit) {
        assert FitsAt(db1, plan, k, limit);
      }
      BeginsWell(db1, plan, pc, a, limit);
    }
  }

  lemma PaySmooth(db: Db, plan: Plan, pc: Pc, a: T.Answer, limit: nat)
    requires DbInv(db) && plan.Valid() && pc.Pay? && PcInv(db, plan, pc) && !pc.failed
    requires var (s, t) := T.ExecuteNext(db.transfers, pc.transfer.request, pc.transfer.pc, a);
             OnCourse(s, t, limit) && forall k: nat | plan.Has(k) :: Fits(s, RequestFor(plan, plan.order[k]), limit)
    requires !OtherManifest(db, plan)
    ensures var (db', l') := Next(db, plan, pc, a);
            Smooth(db', l', limit) && PlanFits(db', plan, limit)
  {
    hide DbInv, T.ExecuteNext, Fits, OperationId, Sum;
    PayGoesOn(db, plan, pc.k, pc.failed, pc.transfer, a);
    NotFailed(db.transfers, pc, a, limit);
  }

  lemma NotFailed(s: T.Shared, pc: Pc, a: T.Answer, limit: nat)
    requires pc.Pay? && pc.transfer.Executing?
    requires var (s', t) := T.ExecuteNext(s, pc.transfer.request, pc.transfer.pc, a); OnCourse(s', t, limit)
    ensures !T.ExecuteNext(s, pc.transfer.request, pc.transfer.pc, a).1.Failed?
  {
    hide T.ExecuteNext;
  }

  /** A transfer begins on course, and the status is read again only after somebody was missed. */
  lemma BeginsWell(db: Db, plan: Plan, pc: Pc, a: T.Answer, limit: nat)
    requires DbInv(db) && plan.Valid() && PcInv(db, plan, pc) && !pc.Pay? && Smooth(db, Running(plan, pc), limit)
    ensures var (db', l') := Next(db, plan, pc, a);
            l'.Running? ==> !l'.pc.ReadStatus? && (l'.pc.Pay? ==> OnCourse(db'.transfers, l'.pc.transfer, limit))
  {
    hide DbInv, T.ExecuteNext, ExistingRewards, RewardMatches, Backfilled, OperationId, Sum;
  }
}

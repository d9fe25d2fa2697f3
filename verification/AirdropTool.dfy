/** `send_airdrop` step by step (flex/tools/airdrop.py). */
module AirdropTool {
  import opened Wrappers
  import opened Strings
  import opened Sorting
  import opened LpDomain
  import opened TransferIntents
  import opened Allocation
  import opened Airdrop
  import opened AirdropProgress
  import opened AirdropRuns
  import T = AssetTransfers
  import TransferRuns

  lemma OnlyOne<T>(s: set<T>, x: T)
    requires |s| <= 1 && x in s
    ensures s == {x}
  {
    if exists y :: y in s && y != x {
      var y :| y in s && y != x;
      assert {x, y} <= s;
      SubsetSize({x, y}, s);
    }
  }

  lemma {:induction false} SubsetSize<T>(a: set<T>, b: set<T>)
    requires a <= b
    ensures |a| <= |b|
  {
    if a != {} {
      var x :| x in a;
      SubsetSize(a - {x}, b - {x});
    }
  }

  lemma ExistingIsThere(db: Db, id: string, address: string, op: string)
    requires op in ExistingRewards(db, id, address)
    ensures op in db.rewards
  {
  }

  class AirdropTool {
    var transfers: T.Shared
    var manifests: map<string, Manifest>
    var rewards: map<string, Reward>

    constructor (db: Db)
      ensures Value() == db
    {
      transfers, manifests, rewards := db.transfers, db.manifests, db.rewards;
    }

    function Value(): Db
      reads this
    {
      Db(transfers, manifests, rewards)
    }

    /** Let the others run before the next operation. */
    method Yield(env: Env, ghost answers: Answers, ghost start: Db, ghost plan: Plan, ghost pc: Pc, turn: nat)
      returns (next: nat)
      requires ComeTo(env, answers, start, plan, Value(), Running(plan, pc), turn)
      modifies this
      ensures next == turn + 1 && Value() == env(old(Value()), turn)
      ensures var (db', l') := Next(Value(), plan, pc, answers(turn)); ComeTo(env, answers, start, plan, db', l', next)
    {
      Advance(env, answers, start, plan, Value(), pc, turn);
      var db := env(Value(), turn);
      transfers, manifests, rewards := db.transfers, db.manifests, db.rewards;
      next := turn + 1;
    }

    /** Write the operation ID and the confirmed round to a reward that is already there. */
    method ReconcileExistingReward(op: string, reward: Reward) returns (ok: bool)
      modifies this`rewards
      ensures ok <==> Backfilled(old(Value()), op, reward).Some?
      ensures Value() == if ok then Backfilled(old(Value()), op, reward).value else old(Value())
    {
      var matches := BackfillMatches(Value(), reward);
      if matches == {} {
        return false;
      }
      LeastExists(matches);
      var o :| o in matches && forall y <- matches :: y != o ==> Less(o, y);
      LeastIsUnique(matches, o, Least(matches));
      rewards := (rewards - {o})[op := rewards[o].(confirmedRound := reward.confirmedRound)];
      return true;
    }

    /** Reject a conflict with an intent or a reward before anything is signed; one recipient. */
    method ValidateOne(env: Env, ghost answers: Answers, ghost start: Db, plan: Plan, k: nat, turn: nat)
      returns (r: Result<(), AirdropError>, next: nat)
      requires plan.Has(k) && ComeTo(env, answers, start, plan, Value(), Running(plan, Validate(k)), turn)
      modifies this
      ensures ComeTo(env, answers, start, plan, Value(), if r.Success? then ValidateOrReserve(plan, k + 1) else Aborted(r.error), next)
      // A stored transfer of another content, two rewards, or a reward of another content stop the run before anything is written.
      ensures var db := env(old(Value()), turn);
              r == Failure(TransferConflict) <==>
                var op := OperationId(plan.id, plan.order[k]);
                op in db.transfers.intents && !db.transfers.intents[op].SameTransfer(RequestFor(plan, plan.order[k]))
      ensures r == Failure(TransferConflict) ==> Value() == env(old(Value()), turn)
      ensures var found := ExistingRewards(env(env(old(Value()), turn), turn + 1), plan.id, plan.order[k]);
              r != Failure(TransferConflict) ==>
                && (r == Failure(DuplicateRewards) <==> |found| > 1)
                && (r.Success? ==> found == {} || exists op :: found == {op})
      ensures r == Failure(DuplicateRewards) || r == Failure(RewardConflict) ==> Value() == env(env(old(Value()), turn), turn + 1)
    {
      hide ComeTo, ExistingRewards, Backfilled;
      var address := plan.order[k];
      var request := RequestFor(plan, address);
      next := Yield(env, answers, start, plan, Validate(k), turn);
      if request.operationId in transfers.intents && !transfers.intents[request.operationId].SameTransfer(request) {
        return Failure(TransferConflict), next;
      }
      next := Yield(env, answers, start, plan, ValidateReward(k), next);
      var found := ExistingRewards(Value(), plan.id, address);
      if |found| > 1 {
        return Failure(DuplicateRewards), next;
      }
      if found == {} {
        return Success(()), next;
      }
      var op :| op in found;
      OnlyOne(found, op);
      ExistingIsThere(Value(), plan.id, address, op);
      var reward := rewards[op];
      if !RewardMatches(reward, plan, address) {
        return Failure(RewardConflict), next;
      }
      next := Yield(env, answers, start, plan, ValidateBackfill(k, reward), next);
      var ok := ReconcileExistingReward(request.operationId, reward);
      r := if ok then Success(()) else Failure(BackfillFailed);
    }

    method ValidateAll(env: Env, ghost answers: Answers, ghost start: Db, plan: Plan, turn: nat)
      returns (r: Result<(), AirdropError>, next: nat)
      requires forall k: nat | k < |plan.order| :: plan.Has(k)
      requires ComeTo(env, answers, start, plan, Value(), ValidateOrReserve(plan, 0), turn)
      modifies this
      ensures ComeTo(env, answers, start, plan, Value(),
                 if r.Success? then Running(plan, ReserveManifest) else Aborted(r.error), next)
    {
      hide ComeTo;
      next := turn;
      var k := 0;
      while k < |plan.order|
        invariant k <= |plan.order|
        invariant ComeTo(env, answers, start, plan, Value(), ValidateOrReserve(plan, k), next)
      {
        r, next := ValidateOne(env, answers, start, plan, k, next);
        if r.Failure? {
          return r, next;
        }
        k := k + 1;
      }
      r := Success(());
    }

    /** A campaign with rewards must have a manifest. */
    method CheckCampaign(env: Env, ghost answers: Answers, ghost start: Db, plan: Plan, turn: nat)
      returns (r: Result<(), AirdropError>, next: nat)
      requires ComeTo(env, answers, start, plan, Value(), Running(plan, Campaign), turn)
      modifies this
      ensures ComeTo(env, answers, start, plan, Value(), if r.Success? then ValidateOrReserve(plan, 0) else Aborted(r.error), next)
      // It is refused exactly when there are rewards of the airdrop and then no manifest, and nothing is written.
      ensures var db := env(old(Value()), turn);
              var rewarded := exists op :: op in db.rewards && db.rewards[op].airdropId == plan.id;
              && Value() == (if rewarded then env(db, turn + 1) else db)
              && (r.Failure? <==> rewarded && plan.id !in Value().manifests)
      ensures r.Failure? ==> r.error == LegacyCampaign
    {
      hide ComeTo;
      next := Yield(env, answers, start, plan, Campaign, turn);
      if forall op <- rewards.Keys :: rewards[op].airdropId != plan.id {
        return Success(()), next;
      }
      next := Yield(env, answers, start, plan, HasManifest, next);
      r := if plan.id in manifests then Success(()) else Failure(LegacyCampaign);
    }

    /** Insert the manifest unless there is one, and compare what is stored then. */
    method TryReserveManifest(env: Env, ghost answers: Answers, ghost start: Db, plan: Plan, turn: nat)
      returns (r: Result<(), AirdropError>, next: nat)
      requires ComeTo(env, answers, start, plan, Value(), Running(plan, ReserveManifest), turn)
      modifies this
      ensures ComeTo(env, answers, start, plan, Value(), if r.Success? then ServeOrMark(plan, 0, false) else Aborted(r.error), next)
    {
      hide ComeTo;
      next := Yield(env, answers, start, plan, ReserveManifest, turn);
      if plan.id !in manifests {
        manifests := manifests[plan.id := Manifest(plan.content, ManifestPrepared)];
      }
      r := if manifests[plan.id].content == plan.content then Success(()) else Failure(ManifestConflict);
    }

    /** Execute the transfer of one recipient, operation by operation. */
    method Transfer(env: Env, answers: Answers, ghost start: Db, ghost plan: Plan, ghost k: nat, ghost failed: bool,
                    request: Request, turn: nat)
      returns (r: Option<T.Receipt>, next: nat)
      requires ComeTo(env, answers, start, plan, Value(), Running(plan, Pay(k, failed, T.Executing(request, T.Get))), turn)
      modifies this
      ensures ComeTo(env, answers, start, plan, Value(),
                 if r.Some? then Running(plan, Persist(k, failed, r.value)) else ServeOrMark(plan, k + 1, true), next)
    {
      hide ComeTo, T.ExecuteNext;
      next := turn;
      var t := T.Executing(request, T.Get);
      while t.Executing?
        invariant ComeTo(env, answers, start, plan, Value(),
                     if t.Executing? then Running(plan, Pay(k, failed, t))
                     else if t.Done? then Running(plan, Persist(k, failed, t.receipt))
                     else ServeOrMark(plan, k + 1, true), next)
        decreases TransferRuns.OperationsLeft(t)
      {
        next := Yield(env, answers, start, plan, Pay(k, failed, t), next);
        TransferRuns.OperationsFall(transfers, t, answers(next - 1));
        var step := T.ExecuteNext(transfers, t.request, t.pc, answers(next - 1));
        transfers, t := step.0, step.1;
      }
      r := if t.Done? then Some(t.receipt) else None;
    }

    /** Insert the reward unless there is one, and compare what is stored then. */
    method PersistReward(env: Env, ghost answers: Answers, ghost start: Db, plan: Plan, k: nat, failed: bool,
                         receipt: T.Receipt, turn: nat)
      returns (failed': bool, next: nat)
      requires plan.Has(k) && ComeTo(env, answers, start, plan, Value(), Running(plan, Persist(k, failed, receipt)), turn)
      modifies this
      ensures ComeTo(env, answers, start, plan, Value(), ServeOrMark(plan, k + 1, failed'), next)
      // The receipt is stored, or something is there already; whatever differs from it is a failure.
      ensures var db := env(old(Value()), turn);
              var op := OperationId(plan.id, plan.order[k]);
              && op in rewards && rewards == (if op in db.rewards then db.rewards else db.rewards[op := rewards[op]])
              && (failed' <==> failed || !RewardMatches(rewards[op], plan, plan.order[k])
                               || rewards[op].txid != receipt.txid || rewards[op].confirmedRound != receipt.confirmedRound)
    {
      hide ComeTo, OperationId;
      next := Yield(env, answers, start, plan, Persist(k, failed, receipt), turn);
      var address := plan.order[k];
      var op := OperationId(plan.id, address);
      failed' := failed;
      if op in rewards {
        failed' := failed || !RewardMatches(rewards[op], plan, address) || rewards[op].txid != receipt.txid
                   || rewards[op].confirmedRound != receipt.confirmedRound;
      } else {
        rewards := rewards[op := Reward(plan.id, address, plan.content.assetId, plan.content.recipients[address].amount,
                                        receipt.txid, receipt.confirmedRound)];
      }
    }

    /** Pay one recipient, unless there is a reward already. */
    method Serve(env: Env, answers: Answers, ghost start: Db, plan: Plan, k: nat, failed: bool, turn: nat)
      returns (failed': bool, next: nat)
      requires plan.Has(k) && ComeTo(env, answers, start, plan, Value(), Running(plan, Look(k, failed)), turn)
      modifies this
      ensures ComeTo(env, answers, start, plan, Value(), ServeOrMark(plan, k + 1, failed'), next)
    {
      hide ComeTo, ExistingRewards, Backfilled, ServeOrMark;
      var address := plan.order[k];
      next := Yield(env, answers, start, plan, Look(k, failed), turn);
      var found := ExistingRewards(Value(), plan.id, address);
      if |found| > 1 {
        return true, next;
      }
      if found == {} {
        var paid;
        paid, next := Transfer(env, answers, start, plan, k, failed, RequestFor(plan, address), next);
        if paid.None? {
          return true, next;
        }
        failed', next := PersistReward(env, answers, start, plan, k, failed, paid.value, next);
        return failed', next;
      }
      var op :| op in found;
      OnlyOne(found, op);
      ExistingIsThere(Value(), plan.id, address, op);
      var reward := rewards[op];
      if !RewardMatches(reward, plan, address) {
        return true, next;
      }
      next := Yield(env, answers, start, plan, Backfill(k, failed, reward), next);
      var ok := ReconcileExistingReward(OperationId(plan.id, address), reward);
      failed' := failed || !ok;
    }

    /** Every recipient in turn; a failure does not stop the others. */
    method ServeAll(env: Env, answers: Answers, ghost start: Db, plan: Plan, turn: nat)
      returns (failed: bool, next: nat)
      requires forall k: nat | k < |plan.order| :: plan.Has(k)
      requires ComeTo(env, answers, start, plan, Value(), ServeOrMark(plan, 0, false), turn)
      modifies this
      ensures ComeTo(env, answers, start, plan, Value(), Running(plan, Mark(failed)), next)
    {
      hide ComeTo;
      failed, next := false, turn;
      var k := 0;
      while k < |plan.order|
        invariant k <= |plan.order|
        invariant ComeTo(env, answers, start, plan, Value(), ServeOrMark(plan, k, failed), next)
      {
        failed, next := Serve(env, answers, start, plan, k, failed, next);
        k := k + 1;
      }
    }

    /** Complete, or partial unless another operator has completed it meanwhile. */
    method MarkManifestStatus(env: Env, ghost answers: Answers, ghost start: Db, plan: Plan, failed: bool, turn: nat)
      returns (r: Result<(), AirdropError>, next: nat)
      requires ComeTo(env, answers, start, plan, Value(), Running(plan, Mark(failed)), turn)
      modifies this
      ensures ComeTo(env, answers, start, plan, Value(), if r.Success? then Complete(plan) else Aborted(r.error), next)
    {
      hide ComeTo;
      next := Yield(env, answers, start, plan, Mark(failed), turn);
      if plan.id in manifests && !failed {
        manifests := manifests[plan.id := manifests[plan.id].(status := ManifestComplete)];
        return Success(()), next;
      }
      if plan.id in manifests && manifests[plan.id].status != ManifestComplete {
        manifests := manifests[plan.id := manifests[plan.id].(status := ManifestPartial)];
        return Failure(Incomplete), next;
      }
      next := Yield(env, answers, start, plan, ReadStatus, next);
      r := if plan.id in manifests && manifests[plan.id].status == ManifestComplete then Success(())
           else Failure(ManifestChanged);
    }

    /** Everything after the arguments have been accepted. */
    method Perform(env: Env, answers: Answers, plan: Plan) returns (r: Result<(), AirdropError>, ghost turns: nat)
      requires forall k: nat | k < |plan.order| :: plan.Has(k)
      modifies this
      ensures ComeTo(env, answers, old(Value()), plan, Value(), if r.Success? then Complete(plan) else Aborted(r.error), turns)
    {
      ghost var start := Value();
      assert ComeTo(env, answers, start, plan, Value(), Running(plan, Campaign), 0);
      hide ComeTo;
      var next;
      r, next := CheckCampaign(env, answers, start, plan, 0);
      if r.Success? {
        r, next := ValidateAll(env, answers, start, plan, next);
      }
      if r.Success? {
        r, next := TryReserveManifest(env, answers, start, plan, next);
      }
      if r.Success? {
        var failed;
        failed, next := ServeAll(env, answers, start, plan, next);
        r, next := MarkManifestStatus(env, answers, start, plan, failed, next);
      }
      turns := next;
    }

    /**
     * Execute or resume an airdrop. Refused arguments change nothing; an accepted plan has the largest-remainder
     * amounts of the arguments, and the call is exactly the run of its operations among the others'. Among operators
     * of the protocol, success means that the manifest is this plan's, complete, and that everybody has been paid.
     */
    method SendAirdrop(args: Arguments, env: Env, answers: Answers)
      returns (r: Result<(), AirdropError>, plan: Option<Plan>, ghost turns: nat)
      requires IsMapping(args.shares)
      modifies this
      ensures plan.None? ==> r.Failure? && Value() == old(Value())
      ensures plan.None? ==>
                || (r == Failure(BudgetTooLarge) && args.total > MAX_ALGORAND_UINT)
                || (Accepted(args.total, args.shares).Failure? && r == Failure(BadShares(Accepted(args.total, args.shares).error)))
                || (r == Failure(BadArguments) && exists amounts :: Allocated(args, amounts) && !Acceptable(args, amounts))
      ensures plan.Some? ==>
                && plan.value.id == args.id && plan.value.content.assetId == args.assetId
                && plan.value.content.total == args.total && plan.value.Valid()
                && Acceptable(args, map x | x in plan.value.content.recipients :: plan.value.content.recipients[x].amount)
                && Allocated(args, map x | x in plan.value.content.recipients :: plan.value.content.recipients[x].amount)
                && ComeTo(env, answers, old(Value()), plan.value, Value(),
                      if r.Success? then Complete(plan.value) else Aborted(r.error), turns)
      ensures Obeys(env) && DbInv(old(Value())) ==> DbInv(Value()) && Evolves(old(Value()), Value())
      ensures Obeys(env) && DbInv(old(Value())) && r.Success? ==>
                && plan.Some? && args.id in Value().manifests
                && Value().manifests[args.id] == Manifest(plan.value.content, ManifestComplete)
                && Moved(Payments(Value(), args.id)) == args.total
                && AllPaid(Payments(Value(), args.id), plan.value.content.recipients)
      // It fails only because of another manifest under the ID, or because the transfer of somebody failed.
      ensures Obeys(env) && DbInv(old(Value())) && plan.Some? && r.Failure? ==>
                EndsRightly(env, answers, old(Value()), plan.value, Value(), r.error, turns)
      // With a gateway that works within the window and a chain that confirms what was sent, everybody is paid and has a reward.
      ensures Obeys(env) && DbInv(old(Value())) && plan.Some? ==>
                forall limit: nat | Prompt(env, plan.value, limit) && TransferRuns.WorksAlways(answers, limit)
                                    && PlanFits(old(Value()), plan.value, limit) ::
                  && r.Success? && Moved(Payments(Value(), args.id)) == args.total
                  && RewardedUpTo(Value(), plan.value, |plan.value.order|)
    {
      hide ComeTo, Sum, DbInv, Evolves, Obeys, LargestRemainder, Payments, Moved, AllPaid;
      hide EndsRightly, Prompt, PlanFits, RewardedUpTo, TransferRuns.WorksAlways;
      ghost var start := Value();
      Evolving(start);
      plan, turns := None, 0;
      if args.total > MAX_ALGORAND_UINT {
        return Failure(BudgetTooLarge), None, 0;
      }
      var amounts := AllocateProportionally(args.total, args.shares);
      if amounts.Failure? {
        return Failure(BadShares(amounts.error)), None, 0;
      }
      assert Allocated(args, amounts.value);
      if !Acceptable(args, amounts.value) {
        return Failure(BadArguments), None, 0;
      }
      var order := Recipients(args.shares, amounts.value, args.total);
      var p := PlanFor(args, amounts.value, order);
      PlanIsValid(args, amounts.value, order);
      AllServed(p);
      assert amounts.value == map x | x in p.content.recipients :: p.content.recipients[x].amount;
      r, turns := Perform(env, answers, p);
      Conclude(env, answers, start, p, Value(), if r.Success? then Complete(p) else Aborted(r.error), turns);
      if Obeys(env) && DbInv(start) {
        RunSucceeds(env, answers, start, p, Value(), if r.Success? then Complete(p) else Aborted(r.error), turns);
      }
      plan := Some(p);
    }
  }

  lemma AllServed(plan: Plan)
    requires plan.Valid()
    ensures forall k: nat | k < |plan.order| :: plan.Has(k)
  {
  }

  lemma Evolving(db: Db)
    ensures Evolves(db, db)
  {
    SelfEvolves(db);
  }

  /** The allocation's recipients in the order of their IDs. */
  method Recipients(shares: Shares, ghost amounts: map<string, int>, ghost total: int) returns (order: seq<string>)
    requires IsMapping(shares) && total > 0 && Accepted(total, shares).Success?
    requires LargestRemainder(total, Accepted(total, shares).value, amounts)
    ensures Enumerates(order, amounts)
  {
    hide Sum, Weigh, Weigh1, Fair, FloorOrOneMore;
    var ids := seq(|shares|, i requires 0 <= i < |shares| => shares[i].0);
    ghost var sorted := SortedIds(ids);
    order := Sort(Less, ids);
    ListedKeys(shares, ids, Accepted(total, shares).value);
  }

  lemma ListedKeys(shares: Shares, ids: seq<string>, w: Weights)
    requires IsMapping(shares) && Weigh(shares) == Success(w)
    requires |ids| == |shares| && forall i | 0 <= i < |ids| :: ids[i] == shares[i].0
    ensures forall x :: x in ids <==> x in w
  {
    hide Weigh, Weigh1;
    WeighHolds(shares);
    forall x | x in ids ensures x in w {
      var i :| 0 <= i < |ids| && ids[i] == x;
      assert shares[i] in shares;
    }
    forall x | x in w ensures x in ids {
      var s :| s in shares && s.0 == x;
      var i :| 0 <= i < |shares| && shares[i] == s;
      assert ids[i] == x;
    }
  }
}

/**
 * Airdrops as a state machine: any number of operators run `send_airdrop`, with the same or with
 * different arguments, beside other outbound transfers (flex/tools/airdrop.py).
 */
module Airdrop {
  import opened Wrappers
  import opened TransferIntents
  import opened LpDomain
  import opened Strings
  import opened Allocation
  import T = AssetTransfers

  type WorkerId = string

  const ADDRESS_LENGTH := 58
  const MAX_OPERATION_ID_BYTES := 200
  const MAX_NOTE_BYTES := 1000

  /** Addresses are 58 characters of base 32; their checksum is not part of this model. */
  predicate ValidAddress(address: string) {
    |address| == ADDRESS_LENGTH && forall c <- address :: 'A' <= c <= 'Z' || '2' <= c <= '7'
  }

  const Prefix := "airdrop:"

  function OperationId(airdropId: string, address: string): string {
    Prefix + airdropId + ":" + address
  }

  predicate IsAirdropOperation(op: string) {
    |Prefix| <= |op| && op[..|Prefix|] == Prefix
  }

  datatype Payment = Payment(amount: nat, note: string)

  /** What the manifest's hash fixes: the asset, the budget, and every recipient's amount and note. */
  datatype Content = Content(assetId: nat, total: nat, recipients: map<string, Payment>)

  datatype ManifestStatus = ManifestPrepared | ManifestPartial | ManifestComplete

  datatype Manifest = Manifest(content: Content, status: ManifestStatus)

  datatype Reward = Reward(
    airdropId: string, address: string, assetId: nat, amount: nat, txid: Txid, confirmedRound: nat)

  /** The transfers and the chain, the manifests by airdrop ID, and the rewards by operation ID. */
  datatype Db = Db(transfers: T.Shared, manifests: map<string, Manifest>, rewards: map<string, Reward>)

  /** One operator's airdrop, with the recipients in the order in which they are served. */
  datatype Plan = Plan(id: string, content: Content, order: seq<string>)
  {
    predicate Has(k: nat) {
      k < |order| && order[k] in content.recipients
    }

    /** Each recipient is served once, and the amounts add up to the budget. */
    ghost predicate Valid() {
      && (forall i, j | 0 <= i < j < |order| :: order[i] != order[j])
      && (forall address :: address in content.recipients <==> address in order)
      && (forall address | address in content.recipients :: ValidAddress(address))
      && Sum(Amounts(content)) == content.total as real
    }
  }

  ghost function Amounts(c: Content): map<string, real> {
    map address | address in c.recipients :: c.recipients[address].amount as real
  }

  function RequestFor(plan: Plan, address: string): Request
    requires address in plan.content.recipients
  {
    var p := plan.content.recipients[address];
    Request(OperationId(plan.id, address), address, plan.content.assetId, p.amount, Some(p.note))
  }

  datatype Pc =
    | Campaign
    | HasManifest
    | Validate(k: nat)
    | ValidateReward(k: nat)
    | ValidateBackfill(k: nat, reward: Reward)
    | ReserveManifest
    | Look(k: nat, failed: bool)
    | Backfill(k: nat, failed: bool, reward: Reward)
    | Pay(k: nat, failed: bool, transfer: T.Local)
    | Persist(k: nat, failed: bool, receipt: T.Receipt)
    | Mark(failed: bool)
    | ReadStatus

  datatype AirdropError =
    | BudgetTooLarge | BadShares(error: AllocationError) | BadArguments
    | LegacyCampaign | TransferConflict | DuplicateRewards | RewardConflict | BackfillFailed | ManifestConflict
    | Incomplete | ManifestChanged | Interrupted

  datatype Local =
    | Idle
    | Running(plan: Plan, pc: Pc)
    | Outside(transfer: T.Local)
    | Complete(plan: Plan)
    | Aborted(error: AirdropError)

  // ---- one operation ----

  function ExistingRewards(db: Db, airdropId: string, address: string): set<string> {
    set op | op in db.rewards && db.rewards[op].airdropId == airdropId && db.rewards[op].address == address
  }

  predicate RewardMatches(r: Reward, plan: Plan, address: string)
    requires address in plan.content.recipients
  {
    r.assetId == plan.content.assetId && r.amount == plan.content.recipients[address].amount
  }

  /** Every recipient in turn, then the manifest's status. */
  function ServeOrMark(plan: Plan, k: nat, failed: bool): Local {
    Running(plan, if k < |plan.order| then Look(k, failed) else Mark(failed))
  }

  function ValidateOrReserve(plan: Plan, k: nat): Local {
    Running(plan, if k < |plan.order| then Validate(k) else ReserveManifest)
  }

  ghost predicate IsLeast(s: set<string>, x: string) {
    x in s && forall y | y in s && y != x :: Less(x, y)
  }

  lemma {:induction false} LeastExists(s: set<string>)
    requires s != {}
    ensures exists x :: IsLeast(s, x)
  {
    var y :| y in s;
    if s == {y} {
      assert IsLeast(s, y);
    } else {
      LeastExists(s - {y});
      var x :| IsLeast(s - {y}, x);
      LessTotal(x, y);
      if Less(x, y) {
        assert IsLeast(s, x);
      } else {
        forall z | z in s && z != y ensures Less(y, z) {
          if z != x {
            LessTransitive(y, x, z);
          }
        }
        assert IsLeast(s, y);
      }
    }
  }

  lemma LeastIsUnique(s: set<string>, x: string, y: string)
    requires IsLeast(s, x) && IsLeast(s, y)
    ensures x == y
  {
    if x != y {
      LessTransitive(x, y, x);
      LessIrreflexive(x);
    }
  }

  /** Of several matching documents the database may update any; there is never more than one. */
  ghost function Least(s: set<string>): (x: string)
    requires s != {}
    ensures IsLeast(s, x)
  {
    LeastExists(s);
    var x :| IsLeast(s, x);
    x
  }

  function BackfillMatches(db: Db, r: Reward): set<string> {
    set op | op in db.rewards && db.rewards[op].airdropId == r.airdropId && db.rewards[op].address == r.address
             && db.rewards[op].txid == r.txid
  }

  /** Set the operation ID and the confirmed round of the reward with this recipient and transaction. */
  ghost function Backfilled(db: Db, op: string, r: Reward): Option<Db> {
    var matches := BackfillMatches(db, r);
    if matches == {} then None
    else
      var o := Least(matches);
      Some(db.(rewards := (db.rewards - {o})[op := db.rewards[o].(confirmedRound := r.confirmedRound)]))
  }

  ghost function Next(db: Db, plan: Plan, pc: Pc, a: T.Answer): (Db, Local) {
    match pc
    case Campaign =>
      (db, if exists op :: op in db.rewards && db.rewards[op].airdropId == plan.id then Running(plan, HasManifest)
           else ValidateOrReserve(plan, 0))
    case HasManifest =>
      (db, if plan.id in db.manifests then ValidateOrReserve(plan, 0) else Aborted(LegacyCampaign))
    case Validate(k) =>
      if !plan.Has(k) then (db, Aborted(Interrupted))
      else
        var request := RequestFor(plan, plan.order[k]);
        (db, if request.operationId in db.transfers.intents
                && !db.transfers.intents[request.operationId].SameTransfer(request) then Aborted(TransferConflict)
             else Running(plan, ValidateReward(k)))
    case ValidateReward(k) =>
      if !plan.Has(k) then (db, Aborted(Interrupted))
      else
        var found := ExistingRewards(db, plan.id, plan.order[k]);
        if |found| > 1 then (db, Aborted(DuplicateRewards))
        else if found == {} then (db, ValidateOrReserve(plan, k + 1))
        else
          var op :| op in found;
          (db, if RewardMatches(db.rewards[op], plan, plan.order[k]) then Running(plan, ValidateBackfill(k, db.rewards[op]))
               else Aborted(RewardConflict))
    case ValidateBackfill(k, reward) =>
      if !plan.Has(k) then (db, Aborted(Interrupted))
      else
        (match Backfilled(db, OperationId(plan.id, plan.order[k]), reward)
         case Some(db') => (db', ValidateOrReserve(plan, k + 1))
         case None => (db, Aborted(BackfillFailed)))
    case ReserveManifest =>
      if plan.id in db.manifests then
        (db, if db.manifests[plan.id].content == plan.content then ServeOrMark(plan, 0, false) else Aborted(ManifestConflict))
      else
        (db.(manifests := db.manifests[plan.id := Manifest(plan.content, ManifestPrepared)]), ServeOrMark(plan, 0, false))
    case Look(k, failed) =>
      if !plan.Has(k) then (db, Aborted(Interrupted))
      else
        var found := ExistingRewards(db, plan.id, plan.order[k]);
        if |found| > 1 then (db, ServeOrMark(plan, k + 1, true))
        else if found == {} then (db, Running(plan, Pay(k, failed, T.Executing(RequestFor(plan, plan.order[k]), T.Get))))
        else
          var op :| op in found;
          (db, if RewardMatches(db.rewards[op], plan, plan.order[k]) then Running(plan, Backfill(k, failed, db.rewards[op]))
               else ServeOrMark(plan, k + 1, true))
    case Backfill(k, failed, reward) =>
      if !plan.Has(k) then (db, Aborted(Interrupted))
      else
        (match Backfilled(db, OperationId(plan.id, plan.order[k]), reward)
         case Some(db') => (db', ServeOrMark(plan, k + 1, failed))
         case None => (db, ServeOrMark(plan, k + 1, true)))
    case Pay(k, failed, transfer) =>
      if !transfer.Executing? then (db, Aborted(Interrupted))
      else
        var (transfers, t') := T.ExecuteNext(db.transfers, transfer.request, transfer.pc, a);
        (db.(transfers := transfers),
         if t'.Executing? then Running(plan, Pay(k, failed, t'))
         else if t'.Done? then Running(plan, Persist(k, failed, t'.receipt))
         else ServeOrMark(plan, k + 1, true))
    case Persist(k, failed, receipt) =>
      if !plan.Has(k) then (db, Aborted(Interrupted))
      else
        var address := plan.order[k];
        var reward := Reward(plan.id, address, plan.content.assetId, plan.content.recipients[address].amount,
                             receipt.txid, receipt.confirmedRound);
        var op := OperationId(plan.id, address);
        if op in db.rewards then
          (db, ServeOrMark(plan, k + 1,
                 failed || !RewardMatches(db.rewards[op], plan, address) || db.rewards[op].txid != receipt.txid
                 || db.rewards[op].confirmedRound != receipt.confirmedRound))
        else (db.(rewards := db.rewards[op := reward]), ServeOrMark(plan, k + 1, failed))
    case Mark(failed) =>
      if plan.id !in db.manifests then (db, Running(plan, ReadStatus))
      else if !failed then
        (db.(manifests := db.manifests[plan.id := db.manifests[plan.id].(status := ManifestComplete)]), Complete(plan))
      else if db.manifests[plan.id].status != ManifestComplete then
        (db.(manifests := db.manifests[plan.id := db.manifests[plan.id].(status := ManifestPartial)]), Aborted(Incomplete))
      else (db, Running(plan, ReadStatus))
    case ReadStatus =>
      (db, if plan.id in db.manifests && db.manifests[plan.id].status == ManifestComplete then Complete(plan) else Aborted(ManifestChanged))
  }

  /** An exception while a recipient is served is recorded as a failure; anywhere else it ends the run. */
  function Fault(plan: Plan, pc: Pc): Local {
    match pc
    case Look(k, _) => ServeOrMark(plan, k + 1, true)
    case Backfill(k, _, _) => ServeOrMark(plan, k + 1, true)
    case Pay(k, _, _) => ServeOrMark(plan, k + 1, true)
    case Persist(k, _, _) => ServeOrMark(plan, k + 1, true)
    case _ => Aborted(Interrupted)
  }

  /** The arguments of `send_airdrop`; `notes` are picked by a hash of the operation ID. */
  datatype Arguments = Arguments(
    id: string, assetId: nat, total: int, shares: Shares, notes: seq<string>, digest: string -> nat)

  function NoteFor(args: Arguments, address: string): string
    requires args.notes != []
  {
    args.notes[args.digest(OperationId(args.id, address)) % |args.notes|]
  }

  /** What is checked before anything is read or signed, given the allocation. */
  predicate Acceptable(args: Arguments, amounts: map<string, int>) {
    && 0 < args.total <= MAX_ALGORAND_UINT && !IsBlank(args.id)
    && args.notes != [] && (forall note <- args.notes :: Utf8Length(note) <= MAX_NOTE_BYTES)
    && (forall address <- amounts.Keys ::
          ValidAddress(address) && 0 < amounts[address] <= MAX_ALGORAND_UINT
          && Utf8Length(OperationId(args.id, address)) <= MAX_OPERATION_ID_BYTES)
    && 0 < args.assetId <= MAX_ALGORAND_UINT
  }

  /** The allocation of the arguments is the one that the largest-remainder rule gives. */
  ghost predicate Allocated(args: Arguments, amounts: map<string, int>) {
    IsMapping(args.shares) && Accepted(args.total, args.shares).Success? && args.total > 0
    && LargestRemainder(args.total, Accepted(args.total, args.shares).value, amounts)
  }

  function PlanFor(args: Arguments, amounts: map<string, int>, order: seq<string>): Plan
    requires Acceptable(args, amounts)
  {
    Plan(args.id,
         Content(args.assetId, args.total,
                 map address | address in amounts :: Payment(amounts[address], NoteFor(args, address))),
         order)
  }

  /** The allocation's own order, whatever it is, names each recipient once. */
  ghost predicate Enumerates(order: seq<string>, amounts: map<string, int>) {
    && (forall i, j | 0 <= i < j < |order| :: order[i] != order[j])
    && (forall address :: address in amounts <==> address in order)
  }

  datatype Action =
    | Start(args: Arguments, amounts: map<string, int>, order: seq<string>)
    | StartOutside(action: T.Action)
    | Operate(answer: T.Answer)
    | Raise
    | Crash
    | ConfirmOnChain(index: nat, round: nat)

  predicate Busy(l: Local) {
    l.Running? || (l.Outside? && (l.transfer.Executing? || l.transfer.Reconciling?))
  }

  /** A transfer outside the airdrops has its own operation ID, as the lottery's `nft:` ones are; anyone may reconcile. */
  predicate StartsOutside(a: T.Action) {
    a.StartReconcile? || (a.StartExecute? && !IsAirdropOperation(a.request.operationId))
  }

  ghost function Act(db: Db, l: Local, a: Action): (Db, Local) {
    match a
    case Start(args, amounts, order) =>
      (db, if Busy(l) then l
           else if Allocated(args, amounts) && Acceptable(args, amounts) && Enumerates(order, amounts) then
             Running(PlanFor(args, amounts, order), Campaign)
           else Aborted(BadArguments))
    case StartOutside(action) =>
      (db, if !Busy(l) && StartsOutside(action) then Outside(T.Act(db.transfers, T.Idle, action).1) else l)
    case Operate(answer) =>
      if l.Running? then Next(db, l.plan, l.pc, answer)
      else if l.Outside? then
        var (transfers, t') := T.Act(db.transfers, l.transfer, T.Operate(answer));
        (db.(transfers := transfers), Outside(t'))
      else (db, l)
    case Raise => (db, if l.Running? then Fault(l.plan, l.pc) else l)
    case Crash => (db, Idle)
    case ConfirmOnChain(index, round) =>
      (db.(transfers := T.Act(db.transfers, T.Idle, T.ConfirmOnChain(index, round)).0), l)
  }

  // ---- operation IDs ----

  lemma OperationIdInjective(id: string, address: string, otherId: string, other: string)
    requires ValidAddress(address) && ValidAddress(other)
    requires OperationId(id, address) == OperationId(otherId, other)
    ensures id == otherId && address == other
  {
    var op := OperationId(id, address);
    var n := |op| - ADDRESS_LENGTH;
    assert op[n..] == address && op[n..] == other;
    assert op[|Prefix|..n - 1] == id && op[|Prefix|..n - 1] == otherId;
  }

  lemma OperationIsMarked(id: string, address: string)
    ensures IsAirdropOperation(OperationId(id, address))
  {
    assert OperationId(id, address)[..|Prefix|] == Prefix;
  }

  // ---- what every step keeps ----

  ghost predicate Settled(t: T.Shared, op: string) {
    op in t.intents && t.intents[op].status == StatusConfirmed
  }

  /** The budget is exactly allocated, and a complete airdrop has been paid to everyone. */
  ghost predicate ManifestSound(db: Db, id: string)
    requires id in db.manifests
  {
    var m := db.manifests[id];
    && Sum(Amounts(m.content)) == m.content.total as real
    && (forall address | address in m.content.recipients :: ValidAddress(address))
    && (m.status == ManifestComplete ==>
          forall address | address in m.content.recipients :: Settled(db.transfers, OperationId(id, address)))
  }

  ghost predicate PaysAsPlanned(db: Db, i: Intent, id: string, address: string) {
    && id in db.manifests && address in db.manifests[id].content.recipients
    && i.receiver == address && i.assetId == db.manifests[id].content.assetId
    && i.amount == db.manifests[id].content.recipients[address].amount
    && i.note == Some(db.manifests[id].content.recipients[address].note)
  }

  /** An intent with an airdrop's operation ID pays what the manifest says. */
  ghost predicate Planned(db: Db, op: string)
    requires op in db.transfers.intents
  {
    forall id, address | ValidAddress(address) && op == OperationId(id, address) ::
      PaysAsPlanned(db, db.transfers.intents[op], id, address)
  }

  ghost predicate RewardSound(db: Db, op: string)
    requires op in db.rewards
  {
    var r := db.rewards[op];
    && op == OperationId(r.airdropId, r.address) && ValidAddress(r.address)
    && T.ReceiptSound(db.transfers, op, r.txid, r.confirmedRound)
    && r.airdropId in db.manifests && r.address in db.manifests[r.airdropId].content.recipients
    && r.assetId == db.manifests[r.airdropId].content.assetId
    && r.amount == db.manifests[r.airdropId].content.recipients[r.address].amount
  }

  ghost predicate DbInv(db: Db) {
    && T.SharedInv(db.transfers)
    && (forall id | id in db.manifests :: ManifestSound(db, id))
    && (forall op | op in db.transfers.intents :: Planned(db, op))
    && (forall op | op in db.rewards :: RewardSound(db, op))
  }

  ghost predicate Reserved(db: Db, plan: Plan) {
    plan.id in db.manifests && db.manifests[plan.id].content == plan.content
  }

  ghost predicate SettledUpTo(db: Db, plan: Plan, k: nat) {
    forall j | 0 <= j < k && j < |plan.order| :: Settled(db.transfers, OperationId(plan.id, plan.order[j]))
  }

  ghost predicate HasReward(db: Db, plan: Plan, k: nat, reward: Reward) {
    k < |plan.order|
    && OperationId(plan.id, plan.order[k]) in db.rewards && db.rewards[OperationId(plan.id, plan.order[k])] == reward
  }

  ghost predicate Serving(db: Db, plan: Plan, k: nat, failed: bool) {
    Reserved(db, plan) && k < |plan.order| && (!failed ==> SettledUpTo(db, plan, k))
  }

  ghost predicate PcInv(db: Db, plan: Plan, pc: Pc)
    requires plan.Valid()
  {
    match pc
    case ValidateBackfill(k, reward) => HasReward(db, plan, k, reward)
    case Look(k, failed) => Serving(db, plan, k, failed)
    case Backfill(k, failed, reward) => Serving(db, plan, k, failed) && HasReward(db, plan, k, reward)
    case Pay(k, failed, transfer) =>
      Serving(db, plan, k, failed) && transfer.Executing? && transfer.request == RequestFor(plan, plan.order[k])
      && T.LocalInv(db.transfers, transfer)
    case Persist(k, failed, receipt) =>
      Serving(db, plan, k, failed) && receipt.operationId == OperationId(plan.id, plan.order[k])
      && T.LocalInv(db.transfers, T.Done(receipt))
    case Mark(failed) => Reserved(db, plan) && (!failed ==> SettledUpTo(db, plan, |plan.order|))
    case ReadStatus => Reserved(db, plan) && db.manifests[plan.id].status == ManifestComplete
    case _ => true
  }

  ghost predicate LocalInv(db: Db, l: Local) {
    match l
    case Running(plan, pc) => plan.Valid() && PcInv(db, plan, pc)
    case Outside(t) => T.LocalInv(db.transfers, t) && (t.Executing? ==> !IsAirdropOperation(t.request.operationId))
    case Complete(plan) => Reserved(db, plan) && db.manifests[plan.id].status == ManifestComplete
    case _ => true
  }

  /** Manifests are immutable and stay complete; rewards and confirmed intents never change. */
  ghost predicate Evolves(db: Db, db': Db) {
    && T.Evolves(db.transfers, db'.transfers)
    && (forall id | id in db.manifests ::
          id in db'.manifests && db'.manifests[id].content == db.manifests[id].content
          && (db.manifests[id].status == ManifestComplete ==> db'.manifests[id].status == ManifestComplete))
    && (forall op | op in db.rewards :: op in db'.rewards && db'.rewards[op] == db.rewards[op])
  }

  /** An accepted plan spends the budget exactly. */
  lemma PlanIsValid(args: Arguments, amounts: map<string, int>, order: seq<string>)
    requires Allocated(args, amounts) && Acceptable(args, amounts) && Enumerates(order, amounts)
    ensures PlanFor(args, amounts, order).Valid()
  {
    hide Sum, Accepted, IsMapping, OperationId;
    assert Amounts(PlanFor(args, amounts, order).content) == AsReals(amounts);
  }

  lemma SelfEvolves(db: Db)
    ensures Evolves(db, db)
  {
    T.SelfEvolves(db.transfers);
  }

  lemma EvolvesTransitive(a: Db, b: Db, c: Db)
    requires Evolves(a, b) && Evolves(b, c)
    ensures Evolves(a, c)
  {
    hide T.Evolves;
    T.EvolvesTransitive(a.transfers, b.transfers, c.transfers);
  }

  lemma SettledStays(t: T.Shared, t': T.Shared, op: string)
    requires T.Evolves(t, t') && Settled(t, op)
    ensures Settled(t', op)
  {
  }

  lemma SettledUpToStays(db: Db, db': Db, plan: Plan, k: nat)
    requires T.Evolves(db.transfers, db'.transfers) && SettledUpTo(db, plan, k)
    ensures SettledUpTo(db', plan, k)
  {
    hide Settled, T.Evolves, OperationId;
    forall j | 0 <= j < k && j < |plan.order| ensures Settled(db'.transfers, OperationId(plan.id, plan.order[j])) {
      SettledStays(db.transfers, db'.transfers, OperationId(plan.id, plan.order[j]));
    }
  }

  lemma Stable(db: Db, db': Db, l: Local)
    requires Evolves(db, db') && LocalInv(db, l)
    ensures LocalInv(db', l)
  {
    hide T.Evolves, T.LocalInv, SettledUpTo, OperationId;
    match l {
      case Running(plan, pc) =>
        match pc {
          case Look(k, failed) => ServingStays(db, db', plan, k, failed);
          case Backfill(k, failed, _) => ServingStays(db, db', plan, k, failed);
          case Pay(k, failed, transfer) =>
            ServingStays(db, db', plan, k, failed);
            T.Stable(db.transfers, db'.transfers, transfer);
          case Persist(k, failed, receipt) =>
            ServingStays(db, db', plan, k, failed);
            T.Stable(db.transfers, db'.transfers, T.Done(receipt));
          case Mark(failed) =>
            if !failed {
              SettledUpToStays(db, db', plan, |plan.order|);
            }
          case _ =>
        }
      case Outside(t) => T.Stable(db.transfers, db'.transfers, t);
      case _ =>
    }
  }

  lemma ServingStays(db: Db, db': Db, plan: Plan, k: nat, failed: bool)
    requires Evolves(db, db') && Serving(db, plan, k, failed)
    ensures Serving(db', plan, k, failed)
  {
    hide SettledUpTo, T.Evolves;
    if !failed {
      SettledUpToStays(db, db', plan, k);
    }
  }

  // ---- steps of transfers ----

  lemma PlannedStays(db: Db, db': Db, op: string)
    requires op in db.transfers.intents && Planned(db, op)
    requires op in db'.transfers.intents && db'.transfers.intents[op].Core() == db.transfers.intents[op].Core()
    requires forall id | id in db.manifests :: id in db'.manifests && db'.manifests[id].content == db.manifests[id].content
    ensures Planned(db', op)
  {
    forall id, address | ValidAddress(address) && op == OperationId(id, address)
      ensures PaysAsPlanned(db', db'.transfers.intents[op], id, address)
    {
      assert PaysAsPlanned(db, db.transfers.intents[op], id, address);
    }
  }

  lemma ManifestStays(db: Db, db': Db, id: string)
    requires id in db.manifests && ManifestSound(db, id)
    requires T.Evolves(db.transfers, db'.transfers)
    requires id in db'.manifests && db'.manifests[id] == db.manifests[id]
    ensures ManifestSound(db', id)
  {
    hide T.Evolves, Settled, OperationId;
    if db.manifests[id].status == ManifestComplete {
      forall address | address in db.manifests[id].content.recipients
        ensures Settled(db'.transfers, OperationId(id, address))
      {
        SettledStays(db.transfers, db'.transfers, OperationId(id, address));
      }
    }
  }

  lemma RewardStays(db: Db, db': Db, op: string)
    requires op in db.rewards && RewardSound(db, op)
    requires T.Evolves(db.transfers, db'.transfers)
    requires forall id | id in db.manifests :: id in db'.manifests && db'.manifests[id].content == db.manifests[id].content
    requires op in db'.rewards && db'.rewards[op] == db.rewards[op]
    ensures RewardSound(db', op)
  {
  }

  /** Transfers may go on as long as new intents pay what a manifest says, or are not an airdrop's. */
  lemma TransfersKeep(db: Db, transfers: T.Shared)
    requires DbInv(db) && T.SharedInv(transfers) && T.Evolves(db.transfers, transfers)
    requires forall op | op in transfers.intents && op !in db.transfers.intents :: Planned(db.(transfers := transfers), op)
    ensures DbInv(db.(transfers := transfers)) && Evolves(db, db.(transfers := transfers))
  {
    hide T.SharedInv, ManifestSound, Planned, RewardSound;
    var db' := db.(transfers := transfers);
    forall id | id in db'.manifests ensures ManifestSound(db', id) {
      ManifestStays(db, db', id);
    }
    forall op | op in db'.transfers.intents ensures Planned(db', op) {
      if op in db.transfers.intents {
        PlannedStays(db, db', op);
      }
    }
    forall op | op in db'.rewards ensures RewardSound(db', op) {
      RewardStays(db, db', op);
    }
  }

  /** The request's operation is the plan's only under this airdrop and recipient. */
  lemma OwnIntentIsPlanned(db: Db, plan: Plan, address: string)
    requires plan.Valid() && Reserved(db, plan) && address in plan.content.recipients
    requires var op := OperationId(plan.id, address);
             op in db.transfers.intents && db.transfers.intents[op].SameTransfer(RequestFor(plan, address))
    ensures Planned(db, OperationId(plan.id, address))
  {
    hide Sum;
    var op := OperationId(plan.id, address);
    forall id, other | ValidAddress(other) && op == OperationId(id, other)
      ensures PaysAsPlanned(db, db.transfers.intents[op], id, other)
    {
      OperationIdInjective(plan.id, address, id, other);
    }
  }

  lemma OutsideIsUnplanned(db: Db, op: string)
    requires op in db.transfers.intents && !IsAirdropOperation(op)
    ensures Planned(db, op)
  {
    forall id, address ensures op != OperationId(id, address) {
      OperationIsMarked(id, address);
    }
  }

  ghost predicate Kept(db: Db, next: (Db, Local)) {
    DbInv(next.0) && Evolves(db, next.0) && LocalInv(next.0, next.1)
  }

  /** Going on to the next recipient, or to the status after the last one. */
  lemma GoOn(db: Db, plan: Plan, k: nat, failed: bool)
    requires plan.Valid() && Reserved(db, plan) && k <= |plan.order| && (!failed ==> SettledUpTo(db, plan, k))
    ensures LocalInv(db, ServeOrMark(plan, k, failed))
  {
    hide SettledUpTo, Sum;
  }

  lemma NextSettled(db: Db, plan: Plan, k: nat)
    requires SettledUpTo(db, plan, k) && k < |plan.order| && Settled(db.transfers, OperationId(plan.id, plan.order[k]))
    ensures SettledUpTo(db, plan, k + 1)
  {
    hide OperationId, Settled;
  }

  lemma RewardSettles(db: Db, plan: Plan, k: nat, reward: Reward)
    requires DbInv(db) && HasReward(db, plan, k, reward)
    ensures Settled(db.transfers, OperationId(plan.id, plan.order[k]))
  {
    hide T.SharedInv, ManifestSound, Planned;
    assert RewardSound(db, OperationId(plan.id, plan.order[k]));
  }

  /** A recipient's reward is the one under its operation ID. */
  lemma OneReward(db: Db, plan: Plan, k: nat, op: string)
    requires plan.Valid() && DbInv(db) && k < |plan.order| && op in ExistingRewards(db, plan.id, plan.order[k])
    ensures op == OperationId(plan.id, plan.order[k])
  {
    hide T.SharedInv, ManifestSound, Planned, OperationId;
    assert RewardSound(db, op);
  }

  /** Writing back what a reward already says changes nothing. */
  lemma BackfillIsIdle(db: Db, plan: Plan, k: nat, reward: Reward)
    requires plan.Valid() && DbInv(db) && HasReward(db, plan, k, reward)
    ensures Backfilled(db, OperationId(plan.id, plan.order[k]), reward) == Some(db)
    ensures BackfillMatches(db, reward) == {OperationId(plan.id, plan.order[k])}
  {
    hide T.SharedInv, ManifestSound, Planned, OperationId;
    var op := OperationId(plan.id, plan.order[k]);
    assert RewardSound(db, op);
    assert reward.airdropId == plan.id && reward.address == plan.order[k] by { SameReward(db, plan, k, reward); }
    forall o | o in db.rewards && db.rewards[o].airdropId == reward.airdropId && db.rewards[o].address == reward.address
      ensures o == op
    {
      assert RewardSound(db, o);
    }
    assert BackfillMatches(db, reward) == {op};
    assert (db.rewards - {op})[op := db.rewards[op].(confirmedRound := reward.confirmedRound)] == db.rewards;
  }

  lemma SameReward(db: Db, plan: Plan, k: nat, reward: Reward)
    requires plan.Valid() && DbInv(db) && HasReward(db, plan, k, reward)
    ensures reward.airdropId == plan.id && reward.address == plan.order[k]
  {
    hide T.SharedInv, ManifestSound, Planned, Sum;
    var op := OperationId(plan.id, plan.order[k]);
    assert RewardSound(db, op);
    OperationIdInjective(plan.id, plan.order[k], reward.airdropId, reward.address);
  }

  lemma ValidateKeeps(db: Db, plan: Plan, pc: Pc, a: T.Answer)
    requires DbInv(db) && plan.Valid() && PcInv(db, plan, pc)
    requires pc.Campaign? || pc.HasManifest? || pc.Validate? || pc.ValidateReward? || pc.ValidateBackfill?
    ensures Kept(db, Next(db, plan, pc, a))
  {
    hide DbInv, T.Evolves, Sum, OperationId, Backfilled, ExistingRewards;
    SelfEvolves(db);
    if pc.ValidateBackfill? {
      BackfillIsIdle(db, plan, pc.k, pc.reward);
    } else if pc.ValidateReward? && plan.Has(pc.k) {
      var found := ExistingRewards(db, plan.id, plan.order[pc.k]);
      forall op | op in found ensures op in db.rewards && HasReward(db, plan, pc.k, db.rewards[op]) {
        FoundReward(db, plan, pc.k, op);
      }
    }
  }

  lemma FoundReward(db: Db, plan: Plan, k: nat, op: string)
    requires plan.Valid() && DbInv(db) && k < |plan.order| && op in ExistingRewards(db, plan.id, plan.order[k])
    ensures op in db.rewards && HasReward(db, plan, k, db.rewards[op])
  {
    hide DbInv;
    OneReward(db, plan, k, op);
  }

  lemma LookKeeps(db: Db, plan: Plan, pc: Pc, a: T.Answer)
    requires DbInv(db) && plan.Valid() && PcInv(db, plan, pc) && pc.Look?
    ensures Kept(db, Next(db, plan, pc, a))
  {
    hide DbInv, T.Evolves, Sum, OperationId, ExistingRewards, ServeOrMark, SettledUpTo;
    SelfEvolves(db);
    GoOn(db, plan, pc.k + 1, true);
    forall op | op in ExistingRewards(db, plan.id, plan.order[pc.k])
      ensures op in db.rewards && HasReward(db, plan, pc.k, db.rewards[op])
    {
      FoundReward(db, plan, pc.k, op);
    }
  }

  lemma BackfillKeeps(db: Db, plan: Plan, pc: Pc, a: T.Answer)
    requires DbInv(db) && plan.Valid() && PcInv(db, plan, pc) && pc.Backfill?
    ensures Kept(db, Next(db, plan, pc, a))
  {
    hide DbInv, T.Evolves, Sum, OperationId, ServeOrMark, SettledUpTo, Backfilled, Settled, LocalInv;
    SelfEvolves(db);
    BackfillIsIdle(db, plan, pc.k, pc.reward);
    RewardSettles(db, plan, pc.k, pc.reward);
    if !pc.failed {
      NextSettled(db, plan, pc.k);
    }
    GoOn(db, plan, pc.k + 1, pc.failed);
  }

  /** A new manifest, or a new status of an old one. */
  lemma ManifestsKeep(db: Db, id: string, m: Manifest)
    requires DbInv(db) && ManifestSound(db.(manifests := db.manifests[id := m]), id)
    requires id in db.manifests ==>
               db.manifests[id].content == m.content
               && (db.manifests[id].status == ManifestComplete ==> m.status == ManifestComplete)
    ensures var db' := db.(manifests := db.manifests[id := m]); DbInv(db') && Evolves(db, db')
  {
    hide T.SharedInv, T.Evolves, ManifestSound, Planned, RewardSound;
    T.SelfEvolves(db.transfers);
    var db' := db.(manifests := db.manifests[id := m]);
    forall other | other in db'.manifests ensures ManifestSound(db', other) {
      if other != id {
        ManifestStays(db, db', other);
      }
    }
    forall op | op in db'.transfers.intents ensures Planned(db', op) {
      PlannedStays(db, db', op);
    }
    forall op | op in db'.rewards ensures RewardSound(db', op) {
      RewardStays(db, db', op);
    }
  }

  lemma ReserveKeeps(db: Db, plan: Plan, a: T.Answer)
    requires DbInv(db) && plan.Valid()
    ensures Kept(db, Next(db, plan, ReserveManifest, a))
  {
    hide DbInv, Evolves, Sum, OperationId, ServeOrMark;
    SelfEvolves(db);
    if plan.id in db.manifests {
      if db.manifests[plan.id].content == plan.content {
        GoOn(db, plan, 0, false);
      }
    } else {
      var m := Manifest(plan.content, ManifestPrepared);
      ManifestsKeep(db, plan.id, m);
      GoOn(db.(manifests := db.manifests[plan.id := m]), plan, 0, false);
    }
  }

  lemma PayKeeps(db: Db, plan: Plan, pc: Pc, a: T.Answer)
    requires DbInv(db) && plan.Valid() && PcInv(db, plan, pc) && pc.Pay?
    ensures Kept(db, Next(db, plan, pc, a))
  {
    hide T.SharedInv, T.Evolves, T.ExecuteNext, T.LocalInv, DbInv, Sum, ServeOrMark, SettledUpTo, OperationId, Evolves;
    var address := plan.order[pc.k];
    var next := T.ExecuteNext(db.transfers, pc.transfer.request, pc.transfer.pc, a);
    var db' := db.(transfers := next.0);
    PayStep(db, plan, pc, a);
    ServingStays(db, db', plan, pc.k, pc.failed) by {
      assert Evolves(db, db');
    }
    GoOn(db', plan, pc.k + 1, true);
    T.PayStaysOwn(db.transfers, pc.transfer.request, pc.transfer.pc, a);
  }

  lemma PayStep(db: Db, plan: Plan, pc: Pc, a: T.Answer)
    requires DbInv(db) && plan.Valid() && PcInv(db, plan, pc) && pc.Pay?
    ensures var next := T.ExecuteNext(db.transfers, pc.transfer.request, pc.transfer.pc, a);
            DbInv(db.(transfers := next.0)) && Evolves(db, db.(transfers := next.0)) && T.LocalInv(next.0, next.1)
  {
    hide T.SharedInv, T.Evolves, T.ExecuteNext, T.ExecInv, ManifestSound, Planned, RewardSound, Sum, SettledUpTo, OperationId;
    var address := plan.order[pc.k];
    var next := T.ExecuteNext(db.transfers, pc.transfer.request, pc.transfer.pc, a);
    var db' := db.(transfers := next.0);
    T.ExecuteKeeps(db.transfers, pc.transfer.request, pc.transfer.pc, a);
    forall op | op in next.0.intents && op !in db.transfers.intents ensures Planned(db', op) {
      T.OnlyOwnIntent(db.transfers, pc.transfer.request, pc.transfer.pc, a, op);
      OwnIntentIsPlanned(db', plan, address);
    }
    TransfersKeep(db, next.0);
  }

  lemma PersistKeeps(db: Db, plan: Plan, pc: Pc, a: T.Answer)
    requires DbInv(db) && plan.Valid() && PcInv(db, plan, pc) && pc.Persist?
    ensures Kept(db, Next(db, plan, pc, a))
  {
    hide DbInv, Evolves, Sum, ServeOrMark, SettledUpTo, OperationId;
    SelfEvolves(db);
    var op := OperationId(plan.id, plan.order[pc.k]);
    var db' := Next(db, plan, pc, a).0;
    assert Settled(db.transfers, op);
    if !pc.failed {
      NextSettled(db, plan, pc.k);
    }
    if op in db.rewards {
      GoOn(db, plan, pc.k + 1, pc.failed);
      GoOn(db, plan, pc.k + 1, true);
    } else {
      RewardKeeps(db, plan, pc.k, pc.receipt);
      SettledSame(db, db', plan, pc.k + 1);
      GoOn(db', plan, pc.k + 1, pc.failed);
    }
  }

  /** The reward of a receipt, where there is none yet. */
  lemma RewardKeeps(db: Db, plan: Plan, k: nat, receipt: T.Receipt)
    requires DbInv(db) && plan.Valid() && Reserved(db, plan) && k < |plan.order|
    requires OperationId(plan.id, plan.order[k]) !in db.rewards
    requires receipt.operationId == OperationId(plan.id, plan.order[k]) && T.LocalInv(db.transfers, T.Done(receipt))
    ensures var address := plan.order[k];
            var reward := Reward(plan.id, address, plan.content.assetId, plan.content.recipients[address].amount,
                                 receipt.txid, receipt.confirmedRound);
            var db' := db.(rewards := db.rewards[OperationId(plan.id, address) := reward]);
            DbInv(db') && Evolves(db, db')
  {
    hide T.SharedInv, T.Evolves, Sum, ManifestSound, Planned, OperationId;
    var address := plan.order[k];
    var op := OperationId(plan.id, address);
    var reward := Reward(plan.id, address, plan.content.assetId, plan.content.recipients[address].amount,
                         receipt.txid, receipt.confirmedRound);
    var db' := db.(rewards := db.rewards[op := reward]);
    T.SelfEvolves(db.transfers);
    forall id | id in db'.manifests ensures ManifestSound(db', id) {
      ManifestStays(db, db', id);
    }
    forall o | o in db'.transfers.intents ensures Planned(db', o) {
      PlannedStays(db, db', o);
    }
    forall o | o in db'.rewards ensures RewardSound(db', o) {
      if o != op {
        RewardStays(db, db', o);
      }
    }
  }

  lemma SettledSame(db: Db, db': Db, plan: Plan, k: nat)
    requires db'.transfers == db.transfers
    ensures SettledUpTo(db, plan, k) ==> SettledUpTo(db', plan, k)
  {
    hide Settled, OperationId;
  }

  lemma MarkKeeps(db: Db, plan: Plan, pc: Pc, a: T.Answer)
    requires DbInv(db) && plan.Valid() && PcInv(db, plan, pc) && (pc.Mark? || pc.ReadStatus?)
    ensures Kept(db, Next(db, plan, pc, a))
  {
    hide DbInv, Evolves, Sum, OperationId, Settled, SettledUpTo;
    SelfEvolves(db);
    if pc.Mark? {
      SoundManifest(db, plan.id);
      var m := db.manifests[plan.id];
      if !pc.failed {
        AllSettled(db, plan);
        ManifestsKeep(db, plan.id, m.(status := ManifestComplete));
      } else if m.status != ManifestComplete {
        ManifestsKeep(db, plan.id, m.(status := ManifestPartial));
      }
    }
  }

  lemma SoundManifest(db: Db, id: string)
    requires DbInv(db) && id in db.manifests
    ensures ManifestSound(db, id)
  {
  }

  lemma AllSettled(db: Db, plan: Plan)
    requires plan.Valid() && SettledUpTo(db, plan, |plan.order|)
    ensures forall address | address in plan.content.recipients :: Settled(db.transfers, OperationId(plan.id, address))
  {
    hide Sum, Settled, OperationId;
    forall address | address in plan.content.recipients ensures Settled(db.transfers, OperationId(plan.id, address)) {
      var j :| 0 <= j < |plan.order| && plan.order[j] == address;
    }
  }

  lemma NextKeeps(db: Db, plan: Plan, pc: Pc, a: T.Answer)
    requires DbInv(db) && plan.Valid() && PcInv(db, plan, pc)
    ensures Kept(db, Next(db, plan, pc, a))
  {
    hide DbInv, PcInv, Next, Kept;
    match pc {
      case ReserveManifest => ReserveKeeps(db, plan, a);
      case Look(_, _) => LookKeeps(db, plan, pc, a);
      case Backfill(_, _, _) => BackfillKeeps(db, plan, pc, a);
      case Pay(_, _, _) => PayKeeps(db, plan, pc, a);
      case Persist(_, _, _) => PersistKeeps(db, plan, pc, a);
      case Mark(_) => MarkKeeps(db, plan, pc, a);
      case ReadStatus => MarkKeeps(db, plan, pc, a);
      case _ => ValidateKeeps(db, plan, pc, a);
    }
  }

  lemma TransferStepKeeps(db: Db, t: T.Local, a: T.Action)
    requires DbInv(db) && T.LocalInv(db.transfers, t)
    requires t.Executing? ==> !IsAirdropOperation(t.request.operationId)
    requires a.Operate? || a.ConfirmOnChain?
    ensures var next := T.Act(db.transfers, t, a);
            var db' := db.(transfers := next.0);
            && DbInv(db') && Evolves(db, db') && T.LocalInv(next.0, next.1)
            && (next.1.Executing? ==> !IsAirdropOperation(next.1.request.operationId))
  {
    hide T.SharedInv, T.Evolves, T.ExecInv, T.ReconcileInv, ManifestSound, Planned, RewardSound;
    hide T.ExecuteNext, T.ReconcileNext, T.LocalInv, IsAirdropOperation;
    var next := T.Act(db.transfers, t, a);
    var db' := db.(transfers := next.0);
    T.StepKeeps(db.transfers, t, a);
    forall op | op in next.0.intents && op !in db.transfers.intents ensures Planned(db', op) {
      if t.Executing? && a.Operate? {
        T.OnlyOwnIntent(db.transfers, t.request, t.pc, a.answer, op);
      } else if t.Reconciling? && a.Operate? {
        T.ReconcileAddsNothing(db.transfers, t.op, t.rpc, a.answer);
      }
      OutsideIsUnplanned(db', op);
    }
    TransfersKeep(db, next.0);
    if t.Executing? && a.Operate? {
      T.PayStaysOwn(db.transfers, t.request, t.pc, a.answer);
    } else if t.Reconciling? && a.Operate? {
      T.ReconcileAddsNothing(db.transfers, t.op, t.rpc, a.answer);
    }
  }

  lemma FaultKeeps(db: Db, plan: Plan, pc: Pc)
    requires plan.Valid() && PcInv(db, plan, pc)
    ensures LocalInv(db, Fault(plan, pc))
  {
    hide ServeOrMark, SettledUpTo, Sum, LocalInv, T.LocalInv;
    match pc {
      case Look(k, _) => GoOn(db, plan, k + 1, true);
      case Backfill(k, _, _) => GoOn(db, plan, k + 1, true);
      case Pay(k, _, _) => GoOn(db, plan, k + 1, true);
      case Persist(k, _, _) => GoOn(db, plan, k + 1, true);
      case _ => AbortedIsFine(db);
    }
  }

  lemma AbortedIsFine(db: Db)
    ensures LocalInv(db, Aborted(Interrupted)) && LocalInv(db, Idle)
  {
  }

  lemma StepKeeps(db: Db, l: Local, a: Action)
    requires DbInv(db) && LocalInv(db, l)
    ensures Kept(db, Act(db, l, a))
  {
    hide DbInv, PcInv, Next, Evolves, T.Act, T.LocalInv, Fault, IsAirdropOperation, Allocated, Acceptable, Enumerates;
    hide T.SharedInv, T.Evolves;
    SelfEvolves(db);
    match a {
      case Start(args, amounts, order) =>
        if !Busy(l) && Allocated(args, amounts) && Acceptable(args, amounts) && Enumerates(order, amounts) {
          PlanIsValid(args, amounts, order);
          CampaignIsFine(db, PlanFor(args, amounts, order));
        }
      case StartOutside(action) =>
        if StartsOutside(action) {
          OutsideBegins(db, action);
        }
      case Operate(answer) =>
        if l.Running? {
          NextKeeps(db, l.plan, l.pc, answer);
        } else if l.Outside? {
          TransferStepKeeps(db, l.transfer, T.Operate(answer));
        }
      case Raise =>
        if l.Running? {
          FaultKeeps(db, l.plan, l.pc);
        }
      case Crash =>
      case ConfirmOnChain(index, round) => ChainKeeps(db, l, index, round);
    }
  }

  lemma CampaignIsFine(db: Db, plan: Plan)
    ensures PcInv(db, plan, Campaign)
    requires plan.Valid()
  {
  }

  lemma OutsideBegins(db: Db, a: T.Action)
    requires StartsOutside(a)
    ensures LocalInv(db, Outside(T.Act(db.transfers, T.Idle, a).1))
  {
  }

  lemma ChainKeeps(db: Db, l: Local, index: nat, round: nat)
    requires DbInv(db) && LocalInv(db, l)
    ensures var db' := db.(transfers := T.Act(db.transfers, T.Idle, T.ConfirmOnChain(index, round)).0);
            DbInv(db') && Evolves(db, db') && LocalInv(db', l)
  {
    hide DbInv, Evolves, T.Act, LocalInv, IsAirdropOperation;
    T.IdleIsFine(db.transfers);
    TransferStepKeeps(db, T.Idle, T.ConfirmOnChain(index, round));
    Stable(db, db.(transfers := T.Act(db.transfers, T.Idle, T.ConfirmOnChain(index, round)).0), l);
  }

  // ---- every run ----

  datatype System = System(db: Db, workers: map<WorkerId, Local>) {
    function LocalOf(me: WorkerId): Local {
      if me in workers then workers[me] else Idle
    }
  }

  datatype Step = Step(worker: WorkerId, action: Action)

  const Empty: System := System(Db(T.Empty.shared, map[], map[]), map[])

  ghost function StepTo(s: System, step: Step): System {
    var (db, l) := Act(s.db, s.LocalOf(step.worker), step.action);
    System(db, s.workers[step.worker := l])
  }

  ghost function Run(s: System, schedule: seq<Step>): System {
    if schedule == [] then s else StepTo(Run(s, schedule[..|schedule| - 1]), schedule[|schedule| - 1])
  }

  ghost predicate SystemInv(s: System) {
    DbInv(s.db) && forall me | me in s.workers :: LocalInv(s.db, s.workers[me])
  }

  lemma StepToKeeps(s: System, step: Step)
    requires SystemInv(s)
    ensures SystemInv(StepTo(s, step)) && Evolves(s.db, StepTo(s, step).db)
  {
    hide DbInv, LocalInv, Evolves, Act;
    var s' := StepTo(s, step);
    AbortedIsFine(s.db);
    StepKeeps(s.db, s.LocalOf(step.worker), step.action);
    forall me | me in s'.workers ensures LocalInv(s'.db, s'.workers[me]) {
      if me != step.worker {
        Stable(s.db, s'.db, s.workers[me]);
      }
    }
  }

  lemma {:induction false} RunKeeps(s: System, schedule: seq<Step>)
    requires SystemInv(s)
    ensures SystemInv(Run(s, schedule)) && Evolves(s.db, Run(s, schedule).db)
  {
    hide SystemInv, Evolves, StepTo;
    if schedule == [] {
      SelfEvolves(s.db);
    } else {
      var before := schedule[..|schedule| - 1];
      RunKeeps(s, before);
      StepToKeeps(Run(s, before), schedule[|schedule| - 1]);
      EvolvesTransitive(s.db, Run(s, before).db, Run(s, schedule).db);
    }
  }

  lemma {:induction false} RunSplit(s: System, schedule: seq<Step>, n: nat)
    requires n <= |schedule|
    ensures Run(s, schedule) == Run(Run(s, schedule[..n]), schedule[n..])
  {
    hide StepTo;
    if n == |schedule| {
      assert schedule[..n] == schedule && schedule[n..] == [];
    } else {
      var last := |schedule| - 1;
      RunSplit(s, schedule[..last], n);
      assert schedule[..last][..n] == schedule[..n];
      assert schedule[n..][..|schedule[n..]| - 1] == schedule[..last][n..];
    }
  }

  /** Any two points of a run, the earlier and the later. */
  lemma Along(schedule: seq<Step>, m: nat, n: nat)
    requires m <= n <= |schedule|
    ensures SystemInv(Run(Empty, schedule[..m])) && SystemInv(Run(Empty, schedule[..n]))
    ensures Evolves(Run(Empty, schedule[..m]).db, Run(Empty, schedule[..n]).db)
  {
    RunKeeps(Empty, schedule[..m]);
    RunSplit(Empty, schedule[..n], m);
    assert schedule[..n][..m] == schedule[..m];
    RunKeeps(Run(Empty, schedule[..m]), schedule[..n][m..]);
  }

  lemma Reached(schedule: seq<Step>)
    ensures SystemInv(Run(Empty, schedule))
  {
    RunKeeps(Empty, schedule);
  }

  // ---- money ----

  /** The transfers that the chain has confirmed for one airdrop. */
  ghost function Payments(db: Db, id: string): set<Txid> {
    set t | t in db.transfers.node.confirmed && ForAirdrop(t, id)
  }

  ghost predicate ForAirdrop(t: Txid, id: string) {
    exists address :: ValidAddress(address) && t.content.operationId == OperationId(id, address)
  }

  ghost function Moved(ts: set<Txid>): nat {
    if ts == {} then 0
    else
      var t :| t in ts;
      t.content.amount + Moved(ts - {t})
  }

  lemma {:induction false} MovedRemove(ts: set<Txid>, t: Txid)
    requires t in ts
    ensures Moved(ts) == t.content.amount + Moved(ts - {t})
  {
    var u :| u in ts && Moved(ts) == u.content.amount + Moved(ts - {u});
    if u != t {
      MovedRemove(ts - {u}, t);
      MovedRemove(ts - {t}, u);
      assert ts - {u} - {t} == ts - {t} - {u};
    }
  }

  /** A set of transfers that pay recipients, each at most once. */
  ghost predicate PaysOnce(ts: set<Txid>, recipients: map<string, Payment>) {
    && (forall t | t in ts ::
          t.content.receiver in recipients && t.content.amount == recipients[t.content.receiver].amount)
    && (forall t, u | t in ts && u in ts && t.content.receiver == u.content.receiver :: t == u)
  }

  ghost function AmountsOf(recipients: map<string, Payment>): map<string, real> {
    map address | address in recipients :: recipients[address].amount as real
  }

  /** Payments that pay recipients at most once come to no more than the amounts; they reach them when all are paid. */
  lemma {:induction false} PaidAtMost(ts: set<Txid>, recipients: map<string, Payment>)
    requires PaysOnce(ts, recipients)
    ensures Moved(ts) as real <= Sum(AmountsOf(recipients))
    ensures AllPaid(ts, recipients) ==> Moved(ts) as real == Sum(AmountsOf(recipients))
    decreases |recipients|
  {
    hide Sum, AllPaid, PaysOnce;
    assert ts != {} ==> recipients != map[] by { NobodyToPay(ts, recipients); }
    if recipients == map[] {
      assert ts == {};
      SumOfNone();
      assert AmountsOf(recipients) == map[];
    } else {
      var address :| address in recipients;
      var rest := recipients - {address};
      assert rest.Keys == recipients.Keys - {address};
      SumRemove(AmountsOf(recipients), address);
      assert AmountsOf(recipients) - {address} == AmountsOf(rest);
      if t :| t in ts && t.content.receiver == address {
        MovedRemove(ts, t);
        PaidStays(ts, recipients, t);
        PaidAtMost(ts - {t}, rest);
        if AllPaid(ts, recipients) {
          OthersPaid(ts, recipients, t);
        }
      } else {
        UnpaidStays(ts, recipients, address);
        PaidAtMost(ts, rest);
      }
    }
  }

  lemma NobodyToPay(ts: set<Txid>, recipients: map<string, Payment>)
    requires PaysOnce(ts, recipients)
    ensures ts != {} ==> recipients != map[]
  {
    if ts != {} {
      var t :| t in ts;
      assert t.content.receiver in recipients;
    }
  }

  lemma UnpaidStays(ts: set<Txid>, recipients: map<string, Payment>, address: string)
    requires PaysOnce(ts, recipients) && address in recipients
    requires forall t | t in ts :: t.content.receiver != address
    ensures PaysOnce(ts, recipients - {address}) && !AllPaid(ts, recipients)
  {
  }

  lemma PaidStays(ts: set<Txid>, recipients: map<string, Payment>, t: Txid)
    requires PaysOnce(ts, recipients) && t in ts
    ensures PaysOnce(ts - {t}, recipients - {t.content.receiver})
    ensures t.content.receiver in recipients && t.content.amount == recipients[t.content.receiver].amount
  {
  }

  /** Every recipient is paid by some transfer. */
  ghost predicate AllPaid(ts: set<Txid>, recipients: map<string, Payment>) {
    forall address | address in recipients :: exists t :: t in ts && t.content.receiver == address
  }

  lemma OthersPaid(ts: set<Txid>, recipients: map<string, Payment>, t: Txid)
    requires AllPaid(ts, recipients)
    ensures AllPaid(ts - {t}, recipients - {t.content.receiver})
  {
    forall a | a in recipients - {t.content.receiver} ensures exists u :: u in ts - {t} && u.content.receiver == a {
      var u :| u in ts && u.content.receiver == a;
      assert u in ts - {t};
    }
  }

  /** What the chain has confirmed for an airdrop pays its recipients as planned, each at most once. */
  lemma PaymentsAsPlanned(db: Db, id: string)
    requires DbInv(db)
    ensures forall t | t in Payments(db, id) ::
              id in db.manifests && t.content.assetId == db.manifests[id].content.assetId
              && t.content.operationId == OperationId(id, t.content.receiver)
    ensures id in db.manifests ==> PaysOnce(Payments(db, id), db.manifests[id].content.recipients)
  {
    hide DbInv, OperationId, T.ConfirmedIn;
    forall t | t in Payments(db, id)
      ensures id in db.manifests && t.content.assetId == db.manifests[id].content.assetId
      ensures t.content.operationId == OperationId(id, t.content.receiver)
      ensures id in db.manifests ==>
                t.content.receiver in db.manifests[id].content.recipients
                && t.content.amount == db.manifests[id].content.recipients[t.content.receiver].amount
    {
      PaymentAsPlanned(db, id, t);
    }
    forall t, u | t in Payments(db, id) && u in Payments(db, id) && t.content.receiver == u.content.receiver
      ensures t == u
    {
      OneIntent(db, t);
      OneIntent(db, u);
    }
  }

  lemma OneIntent(db: Db, t: Txid)
    requires DbInv(db) && t in db.transfers.node.confirmed
    ensures var op := t.content.operationId;
            op in db.transfers.intents && db.transfers.intents[op].txid == t && T.IntentSound(db.transfers, op)
            && Planned(db, op)
  {
    hide T.SharedInv, ManifestSound, Planned, RewardSound;
    T.ConfirmedIsIntended(db.transfers, t);
    T.SoundIntent(db.transfers, t.content.operationId);
  }

  lemma PaymentAsPlanned(db: Db, id: string, t: Txid)
    requires DbInv(db) && t in Payments(db, id)
    ensures id in db.manifests && t.content.assetId == db.manifests[id].content.assetId
    ensures t.content.operationId == OperationId(id, t.content.receiver)
    ensures t.content.receiver in db.manifests[id].content.recipients
    ensures t.content.amount == db.manifests[id].content.recipients[t.content.receiver].amount
  {
    hide DbInv, OperationId;
    OneIntent(db, t);
    var address :| ValidAddress(address) && t.content.operationId == OperationId(id, address);
    assert PaysAsPlanned(db, db.transfers.intents[t.content.operationId], id, address);
  }

  /** However many operators run, rerun and crash: an airdrop never moves more than its budget, of one asset. */
  lemma NeverAboveBudget(schedule: seq<Step>, id: string)
    ensures var db := Run(Empty, schedule).db;
            id in db.manifests ==>
              && Moved(Payments(db, id)) <= db.manifests[id].content.total
              && forall t | t in Payments(db, id) :: t.content.assetId == db.manifests[id].content.assetId
    ensures id !in Run(Empty, schedule).db.manifests ==> Payments(Run(Empty, schedule).db, id) == {}
  {
    hide DbInv, LocalInv, Payments, Run;
    Reached(schedule);
    var db := Run(Empty, schedule).db;
    PaymentsAsPlanned(db, id);
    if id in db.manifests {
      SoundManifest(db, id);
      PaidAtMost(Payments(db, id), db.manifests[id].content.recipients);
      assert AmountsOf(db.manifests[id].content.recipients) == Amounts(db.manifests[id].content);
    }
  }

  /** A settled recipient has been paid on chain, exactly the planned amount. */
  lemma SettledIsPaid(db: Db, id: string, address: string)
    requires DbInv(db) && ValidAddress(address) && Settled(db.transfers, OperationId(id, address))
    ensures exists t :: t in Payments(db, id) && t.content.receiver == address
  {
    hide T.SharedInv, ManifestSound, RewardSound;
    var op := OperationId(id, address);
    T.SoundIntent(db.transfers, op);
    assert PaysAsPlanned(db, db.transfers.intents[op], id, address);
    var t := db.transfers.intents[op].txid;
    assert t.content.operationId == op;
    assert ForAirdrop(t, id);
    assert t in Payments(db, id);
  }

  /** A complete airdrop has paid every recipient once, and has moved exactly its budget. */
  lemma FullyPaid(db: Db, id: string)
    requires DbInv(db) && id in db.manifests && db.manifests[id].status == ManifestComplete
    ensures PaysOnce(Payments(db, id), db.manifests[id].content.recipients)
    ensures AllPaid(Payments(db, id), db.manifests[id].content.recipients)
    ensures Moved(Payments(db, id)) == db.manifests[id].content.total
  {
    hide DbInv, Payments, OperationId, Settled;
    SoundManifest(db, id);
    PaymentsAsPlanned(db, id);
    forall address | address in db.manifests[id].content.recipients
      ensures exists t :: t in Payments(db, id) && t.content.receiver == address
    {
      SettledIsPaid(db, id, address);
    }
    PaidAtMost(Payments(db, id), db.manifests[id].content.recipients);
    assert AmountsOf(db.manifests[id].content.recipients) == Amounts(db.manifests[id].content);
  }

  /** A complete airdrop stays complete and unchanged, has paid everyone, and has moved exactly its budget. */
  lemma CompleteIsPaidInFull(schedule: seq<Step>, m: nat, n: nat, id: string)
    requires m <= n <= |schedule|
    requires var db := Run(Empty, schedule[..m]).db; id in db.manifests && db.manifests[id].status == ManifestComplete
    ensures var before, db := Run(Empty, schedule[..m]).db, Run(Empty, schedule[..n]).db;
            && id in db.manifests && db.manifests[id] == before.manifests[id]
            && PaysOnce(Payments(db, id), db.manifests[id].content.recipients)
            && AllPaid(Payments(db, id), db.manifests[id].content.recipients)
            && Moved(Payments(db, id)) == db.manifests[id].content.total
  {
    hide DbInv, LocalInv, Payments, Run, T.Evolves;
    Along(schedule, m, n);
    FullyPaid(Run(Empty, schedule[..n]).db, id);
  }

  /** Whoever is told that an airdrop is complete is told the truth about the plan it asked for. */
  lemma CompletionIsTrue(schedule: seq<Step>, me: WorkerId)
    ensures var s := Run(Empty, schedule);
            s.LocalOf(me).Complete? ==>
              var plan := s.LocalOf(me).plan;
              plan.id in s.db.manifests && s.db.manifests[plan.id] == Manifest(plan.content, ManifestComplete)
  {
    hide DbInv, Run;
    Reached(schedule);
    var s := Run(Empty, schedule);
    assert me in s.workers ==> LocalInv(s.db, s.workers[me]);
  }
}

/**
 * The staking lottery as a state machine: any number of workers draw for a wallet and send prizes, help
 * each other, crash and run late, beside other outbound transfers (api/nft_lottery.py, api/wallet.py).
 */
module StakingLottery {
  import opened Wrappers
  import opened TransferIntents
  import opened LotteryBooks
  import T = AssetTransfers

  type WorkerId = string

  datatype Db = Db(transfers: T.Shared, books: Books)

  datatype DrawPc =
    | SeedRead
    | SeedInsert(seen: bool)
    | Claim
    | Current
    | ReadDraw(held: Entitlement)
    | Repair(held: Entitlement)
    | Prepare(held: Entitlement)
    | Reread
    | Upsert(held: Entitlement)
    | Advance(held: Entitlement, draw: Draw)
    | Recheck(held: Entitlement, draw: Draw)

  datatype SendPc =
    | ReadDocument
    | ReservePayout(draw: Draw)
    | ReserveMissed(draw: Draw)
    | Pay(draw: Draw, transfer: T.Local)
    | RecordPayout(draw: Draw, receipt: T.Receipt)
    | RecordMissed(draw: Draw, receipt: T.Receipt)
    | UpdateGuard(draw: Draw, status: EntitlementStatus)
    | UpdateMissed(draw: Draw, status: EntitlementStatus)
    | LeaveOpen

  datatype LotteryError =
    | LegacyDraws | Disappeared | NoActiveDraw | NotRecoverable | OtherData | ChangedMeanwhile | Interrupted

  datatype Local =
    | Idle
    | Drawing(key: Key, now: int, pc: DrawPc)
    | Sending(id: string, spc: SendPc)
    | Outside(transfer: T.Local)
    | NoDraw
    | Drawn(id: string, draw: Draw)
    | Skipped
    | Sent(id: string)
    | LeftOpen(id: string)
    | Failed(error: LotteryError)

  /** A new draw ID, the prize that a random draw gives, and what the gateway answers. */
  datatype Answer = Answer(uuid: string, prize: Option<nat>, gateway: T.Answer)

  // ---- drawing ----

  /** With the guard in hand: draw a prize for a reservation, or go on with the prize that is stored. */
  function WithGuard(k: Key, now: int, e: Entitlement): Local {
    if e.active.None? then Failed(NoActiveDraw)
    else match e.active.value.status
      case GuardReserved => Drawing(k, now, Prepare(e))
      case GuardConfirmed => Failed(NotRecoverable)
      case GuardUnresolved => Failed(NotRecoverable)
      case _ => Drawing(k, now, Upsert(e))
  }

  function DrawNext(b: Books, k: Key, now: int, pc: DrawPc, a: Answer): (Books, Local) {
    match pc
    case SeedRead => (b, Drawing(k, now, SeedInsert(exists id :: id in b.draws && b.draws[id].key == k)))
    case SeedInsert(seen) =>
      // A guard seeded from draws that were there before is not part of this model.
      if k !in b.entitlements && seen then (b, Failed(LegacyDraws))
      else (Seeded(b, k), Drawing(k, now, Claim))
    case Claim =>
      if !Claimable(b, k, now) then (b, Drawing(k, now, Current))
      else if a.uuid in b.issued then (b, Drawing(k, now, Claim))
      else
        var b' := Claimed(b, k, a.uuid, now);
        (b', WithGuard(k, now, b'.entitlements[k]))
    case Current =>
      (b, if k !in b.entitlements then Failed(Disappeared)
          else if b.entitlements[k].active.None? then NoDraw
          else match b.entitlements[k].active.value.status
            case GuardMaterialized => Drawing(k, now, ReadDraw(b.entitlements[k]))
            case GuardUnresolved => Drawing(k, now, ReadDraw(b.entitlements[k]))
            case GuardReserved => WithGuard(k, now, b.entitlements[k])
            case GuardPrepared => WithGuard(k, now, b.entitlements[k])
            case _ => NoDraw)
    case ReadDraw(e) =>
      (b, if e.active.Some? && e.active.value.drawId in b.draws && b.draws[e.active.value.drawId].claimed
             && b.draws[e.active.value.drawId].payoutStatus == PayoutConfirmed then Drawing(k, now, Repair(e))
          else NoDraw)
    case Repair(e) =>
      if e.active.Some? && Repairable(b, k, e.generation, e.active.value.drawId, e.active.value.status) then
        (WithStatus(b, k, GuardConfirmed), Drawing(k, now, SeedRead))
      else (b, NoDraw)
    case Prepare(e) =>
      if e.active.Some? && Repairable(b, k, e.generation, e.active.value.drawId, GuardReserved) then
        var b' := PrizePrepared(b, k, a.prize);
        (b', Drawing(k, now, Upsert(b'.entitlements[k])))
      else (b, Drawing(k, now, Reread))
    case Reread =>
      (b, if k !in b.entitlements then Failed(Disappeared)
          else if b.entitlements[k].active.None? || b.entitlements[k].active.value.status == GuardReserved then
            Failed(NotRecoverable)
          else WithGuard(k, now, b.entitlements[k]))
    case Upsert(e) =>
      if e.active.None? then (b, Failed(NoActiveDraw))
      else
        var id := e.active.value.drawId;
        var d := DrawFor(k, e.generation, e.active.value);
        var b' := Upserted(b, id, d);
        (b', if b'.draws[id].Core() == d.Core() then Drawing(k, now, Advance(e, b'.draws[id])) else Failed(OtherData))
    case Advance(e, d) =>
      if e.active.None? then (b, Failed(NoActiveDraw))
      else if Advanceable(b, k, e.generation, e.active.value.drawId, MaterializedStatus(e.active.value.prize)) then
        (WithStatus(b, k, MaterializedStatus(e.active.value.prize)), Drawn(e.active.value.drawId, d))
      else (b, Drawing(k, now, Recheck(e, d)))
    case Recheck(e, d) =>
      (b, if e.active.Some? && k in b.entitlements && b.entitlements[k].active.Some?
             && b.entitlements[k].active.value.drawId == e.active.value.drawId
             && (b.entitlements[k].active.value.status == MaterializedStatus(e.active.value.prize)
                 || b.entitlements[k].active.value.status == GuardConfirmed
                 || b.entitlements[k].active.value.status == GuardUnresolved)
          then Drawn(e.active.value.drawId, d) else Failed(ChangedMeanwhile))
  }

  // ---- sending ----

  /** One NFT of the draw's prize to the draw's wallet, under a key that the draw's ID fixes. */
  function PrizeRequest(id: string, d: Draw): Request
    requires d.prize.Some?
  {
    Request(PayoutOperation(id), d.key.wallet, d.prize.value, 1, None)
  }

  function AfterUpdate(id: string, status: EntitlementStatus): Local {
    if status == GuardConfirmed then Sent(id) else Sending(id, LeaveOpen)
  }

  function SendNext(db: Db, id: string, pc: SendPc, a: Answer): (Db, Local) {
    var b := db.books;
    match pc
    case ReadDocument =>
      (db, if id !in b.draws || !b.draws[id].Outstanding() || !Payable(b.draws[id].payoutStatus) then Skipped
           else if b.draws[id].payoutOperation.Some? && b.draws[id].payoutOperation != Some(PayoutOperation(id)) then
             Sending(id, UpdateGuard(b.draws[id], GuardUnresolved))
           else Sending(id, ReservePayout(b.draws[id])))
    case ReservePayout(d) =>
      if !Preparable(b, id) || d.prize.None? then (db, Sending(id, ReserveMissed(d)))
      else (db.(books := PayoutReserved(b, id)), Sending(id, Pay(d, T.Executing(PrizeRequest(id, d), T.Get))))
    case ReserveMissed(d) =>
      (db, if id in b.draws && b.draws[id].claimed then Sending(id, UpdateGuard(b.draws[id], GuardConfirmed))
           else Sending(id, UpdateGuard(d, GuardUnresolved)))
    case Pay(d, t) =>
      if !t.Executing? then (db, Failed(Interrupted))
      else
        var (transfers, t') := T.ExecuteNext(db.transfers, t.request, t.pc, a.gateway);
        (db.(transfers := transfers),
         if t'.Executing? then Sending(id, Pay(d, t'))
         else if t'.Done? then Sending(id, RecordPayout(d, t'.receipt))
         else Sending(id, UpdateGuard(d, GuardUnresolved)))
    case RecordPayout(d, receipt) =>
      if Open(b, id, receipt.operationId) then
        var b' := PayoutRecorded(b, id, receipt.txid, receipt.confirmedRound);
        (db.(books := b'), Sending(id, UpdateGuard(b'.draws[id], GuardConfirmed)))
      else (db, Sending(id, RecordMissed(d, receipt)))
    case RecordMissed(d, receipt) =>
      (db, if id in b.draws && b.draws[id].claimed && b.draws[id].payoutTxid == Some(receipt.txid) then
             Sending(id, UpdateGuard(b.draws[id], GuardConfirmed))
           else Sending(id, UpdateGuard(d, GuardUnresolved)))
    case UpdateGuard(d, status) =>
      if Settable(b, d.key, d.generation, id, status) then
        (db.(books := WithStatus(b, d.key, status)), AfterUpdate(id, status))
      else (db, Sending(id, UpdateMissed(d, status)))
    case UpdateMissed(d, status) => (db, AfterUpdate(id, status))
    case LeaveOpen =>
      (if Open(b, id, PayoutOperation(id)) then db.(books := PayoutLeftOpen(b, id)) else db, LeftOpen(id))
  }

  /** An exception on the way to the payout leaves the draw unresolved; in the guard's update it is only logged. */
  function SendFault(id: string, pc: SendPc): Local {
    match pc
    case ReservePayout(d) => Sending(id, UpdateGuard(d, GuardUnresolved))
    case ReserveMissed(d) => Sending(id, UpdateGuard(d, GuardUnresolved))
    case Pay(d, _) => Sending(id, UpdateGuard(d, GuardUnresolved))
    case RecordPayout(d, _) => Sending(id, UpdateGuard(d, GuardUnresolved))
    case RecordMissed(d, _) => Sending(id, UpdateGuard(d, GuardUnresolved))
    case UpdateGuard(_, status) => AfterUpdate(id, status)
    case UpdateMissed(d, GuardConfirmed) => Sending(id, UpdateGuard(d, GuardUnresolved))
    case _ => Failed(Interrupted)
  }

  datatype Action =
    | StartDraw(key: Key, now: int)
    | StartSend(id: string)
    | StartOutside(action: T.Action)
    | Operate(answer: Answer)
    | Raise
    | Crash
    | ConfirmOnChain(index: nat, round: nat)

  predicate IsPrizeOperation(op: string) {
    |Prefix| <= |op| && op[..|Prefix|] == Prefix
  }

  predicate Busy(l: Local) {
    l.Drawing? || l.Sending? || (l.Outside? && (l.transfer.Executing? || l.transfer.Reconciling?))
  }

  /** Other transfers do not use the lottery's operation IDs; anyone may reconcile. */
  predicate StartsOutside(a: T.Action) {
    a.StartReconcile? || (a.StartExecute? && !IsPrizeOperation(a.request.operationId))
  }

  function Act(db: Db, l: Local, a: Action): (Db, Local) {
    match a
    case StartDraw(key, now) => (db, if Busy(l) then l else Drawing(key, now, SeedRead))
    case StartSend(id) => (db, if Busy(l) then l else Sending(id, ReadDocument))
    case StartOutside(action) =>
      (db, if !Busy(l) && StartsOutside(action) then Outside(T.Act(db.transfers, T.Idle, action).1) else l)
    case Operate(answer) =>
      (match l
       case Drawing(key, now, pc) =>
         var (books, l') := DrawNext(db.books, key, now, pc, answer);
         (db.(books := books), l')
       case Sending(id, pc) => SendNext(db, id, pc, answer)
       case Outside(t) =>
         var (transfers, t') := T.Act(db.transfers, t, T.Operate(answer.gateway));
         (db.(transfers := transfers), Outside(t'))
       case _ => (db, l))
    case Raise => (db, if l.Drawing? then Failed(Interrupted) else if l.Sending? then SendFault(l.id, l.spc) else l)
    case Crash => (db, Idle)
    case ConfirmOnChain(index, round) =>
      (db.(transfers := T.Act(db.transfers, T.Idle, T.ConfirmOnChain(index, round)).0), l)
  }

  // ---- what every step keeps ----

  /** An intent under a prize's operation ID sends that draw's prize to that draw's wallet. */
  ghost predicate Planned(db: Db, op: string)
    requires op in db.transfers.intents
  {
    forall id | op == PayoutOperation(id) :: PaysPrize(db.books, id, db.transfers.intents[op])
  }

  ghost predicate PaysPrize(b: Books, id: string, i: Intent) {
    id in b.draws && b.draws[id].prize.Some?
    && i.receiver == b.draws[id].key.wallet && i.assetId == b.draws[id].prize.value && i.amount == 1 && i.note.None?
  }

  /** A claimed draw was paid: its transaction is confirmed on chain in that round. */
  ghost predicate ClaimTrue(db: Db, id: string)
    requires id in db.books.draws
  {
    var d := db.books.draws[id];
    d.claimed ==>
      d.payoutTxid.Some? && d.confirmedRound.Some?
      && T.ReceiptSound(db.transfers, PayoutOperation(id), d.payoutTxid.value, d.confirmedRound.value)
  }

  ghost predicate DbInv(db: Db) {
    && T.SharedInv(db.transfers)
    && Sound(db.books)
    && (forall op | op in db.transfers.intents :: Planned(db, op))
    && (forall id | id in db.books.draws :: ClaimTrue(db, id))
  }

  ghost predicate DrawInv(b: Books, k: Key, pc: DrawPc) {
    match pc
    case SeedInsert(seen) => seen ==> k in b.entitlements
    case Claim => k in b.entitlements
    case ReadDraw(e) => Held(b, k, e)
    case Repair(e) =>
      Held(b, k, e) && e.active.value.drawId in b.draws && b.draws[e.active.value.drawId].claimed
    case Prepare(e) => Held(b, k, e)
    case Upsert(e) => Held(b, k, e) && e.active.value.status != GuardReserved
    case Advance(e, d) => Materialized(b, k, e, d)
    case Recheck(e, d) => Materialized(b, k, e, d)
    case _ => true
  }

  ghost predicate Materialized(b: Books, k: Key, e: Entitlement, d: Draw) {
    Held(b, k, e) && e.active.value.status != GuardReserved && HasDraw(b.draws, k, e.generation, e.active.value)
    && d.Core() == b.draws[e.active.value.drawId].Core()
  }

  /** The document that a sender has read is the stored one, up to its payout. */
  ghost predicate Known(b: Books, id: string, d: Draw) {
    id in b.draws && b.draws[id].Core() == d.Core() && d.prize.Some?
  }

  ghost predicate SendInv(db: Db, id: string, pc: SendPc) {
    match pc
    case ReadDocument => true
    case ReservePayout(d) => Known(db.books, id, d)
    case ReserveMissed(d) => Known(db.books, id, d)
    case Pay(d, t) =>
      Known(db.books, id, d) && t.Executing? && t.request == PrizeRequest(id, d) && T.LocalInv(db.transfers, t)
    case RecordPayout(d, receipt) =>
      Known(db.books, id, d) && receipt.operationId == PayoutOperation(id) && T.LocalInv(db.transfers, T.Done(receipt))
    case RecordMissed(d, receipt) =>
      Known(db.books, id, d) && receipt.operationId == PayoutOperation(id) && T.LocalInv(db.transfers, T.Done(receipt))
    case UpdateGuard(d, status) => Known(db.books, id, d) && Borne(db.books, id, status)
    case UpdateMissed(d, status) => Known(db.books, id, d) && Borne(db.books, id, status)
    case LeaveOpen => true
  }

  ghost predicate Borne(b: Books, id: string, status: EntitlementStatus) {
    status == GuardUnresolved || (status == GuardConfirmed && id in b.draws && b.draws[id].claimed)
  }

  ghost predicate LocalInv(db: Db, l: Local) {
    match l
    case Drawing(k, _, pc) => DrawInv(db.books, k, pc)
    case Sending(id, pc) => SendInv(db, id, pc)
    case Outside(t) => T.LocalInv(db.transfers, t) && (t.Executing? ==> !IsPrizeOperation(t.request.operationId))
    case Drawn(id, d) => id in db.books.draws && db.books.draws[id].Core() == d.Core()
    case Sent(id) => id in db.books.draws && db.books.draws[id].claimed
    case _ => true
  }

  ghost predicate Evolves(db: Db, db': Db) {
    T.Evolves(db.transfers, db'.transfers) && BooksEvolve(db.books, db'.books)
  }

  ghost predicate StepKept(db: Db, next: (Db, Local)) {
    DbInv(next.0) && Evolves(db, next.0) && LocalInv(next.0, next.1)
  }

  lemma SelfEvolves(db: Db)
    ensures Evolves(db, db)
  {
    T.SelfEvolves(db.transfers);
    LotteryBooks.SelfEvolves(db.books);
  }

  lemma EvolvesTransitive(a: Db, b: Db, c: Db)
    requires Evolves(a, b) && Evolves(b, c)
    ensures Evolves(a, c)
  {
    hide T.Evolves, BooksEvolve;
    T.EvolvesTransitive(a.transfers, b.transfers, c.transfers);
    LotteryBooks.EvolvesTransitive(a.books, b.books, c.books);
  }

  lemma KnownStays(b: Books, b': Books, id: string, d: Draw)
    requires BooksEvolve(b, b') && Known(b, id, d)
    ensures Known(b', id, d) && (b.draws[id].claimed ==> b'.draws[id].claimed)
  {
    assert DrawEvolves(b.draws[id], b'.draws[id]);
  }

  lemma DrawStable(b: Books, b': Books, k: Key, pc: DrawPc)
    requires BooksEvolve(b, b') && DrawInv(b, k, pc)
    ensures DrawInv(b', k, pc)
  {
    hide GuardEvolves, Held, BooksEvolve;
    if !pc.SeedRead? && !pc.SeedInsert? && !pc.Claim? && !pc.Current? && !pc.Reread? {
      HeldStays(b, b', k, pc.held);
      HeldDraw(b, k, pc.held);
      DrawsStay(b, b', pc.held.active.value.drawId);
    } else {
      GuardsStay(b, b', k);
    }
  }

  lemma HeldDraw(b: Books, k: Key, e: Entitlement)
    requires Held(b, k, e)
    ensures e.active.Some?
  {
  }

  lemma DrawsStay(b: Books, b': Books, id: string)
    requires BooksEvolve(b, b')
    ensures id in b.draws ==> id in b'.draws && b'.draws[id].Core() == b.draws[id].Core() && (b.draws[id].claimed ==> b'.draws[id].claimed)
  {
    assert id in b.draws ==> DrawEvolves(b.draws[id], b'.draws[id]);
  }

  lemma GuardsStay(b: Books, b': Books, k: Key)
    requires BooksEvolve(b, b')
    ensures k in b.entitlements ==> k in b'.entitlements
  {
  }

  lemma SendStable(db: Db, db': Db, id: string, pc: SendPc)
    requires Evolves(db, db') && SendInv(db, id, pc)
    ensures SendInv(db', id, pc)
  {
    hide T.Evolves, T.LocalInv, BooksEvolve, PayoutOperation;
    DrawsStay(db.books, db'.books, id);
    match pc {
      case Pay(_, t) => T.Stable(db.transfers, db'.transfers, t);
      case RecordPayout(_, receipt) => T.Stable(db.transfers, db'.transfers, T.Done(receipt));
      case RecordMissed(_, receipt) => T.Stable(db.transfers, db'.transfers, T.Done(receipt));
      case _ =>
    }
  }

  lemma Stable(db: Db, db': Db, l: Local)
    requires Evolves(db, db') && LocalInv(db, l)
    ensures LocalInv(db', l)
  {
    hide T.Evolves, T.LocalInv, BooksEvolve, DrawInv, SendInv, IsPrizeOperation;
    match l {
      case Drawing(k, _, pc) => DrawStable(db.books, db'.books, k, pc);
      case Sending(id, pc) => SendStable(db, db', id, pc);
      case Outside(t) => T.Stable(db.transfers, db'.transfers, t);
      case Drawn(id, _) => DrawsStay(db.books, db'.books, id);
      case Sent(id) => DrawsStay(db.books, db'.books, id);
      case _ =>
    }
  }

  // ---- steps of the books ----

  lemma PlannedStays(db: Db, db': Db, op: string)
    requires op in db.transfers.intents && Planned(db, op)
    requires op in db'.transfers.intents && db'.transfers.intents[op].Core() == db.transfers.intents[op].Core()
    requires BooksEvolve(db.books, db'.books)
    ensures Planned(db', op)
  {
    hide BooksEvolve, PayoutOperation;
    forall id | op == PayoutOperation(id) ensures PaysPrize(db'.books, id, db'.transfers.intents[op]) {
      assert PaysPrize(db.books, id, db.transfers.intents[op]);
      DrawsStay(db.books, db'.books, id);
    }
  }

  /** The books may change as long as whoever is newly claimed was paid. */
  lemma BooksKeep(db: Db, b': Books)
    requires DbInv(db) && LotteryBooks.Kept(db.books, b')
    requires forall id | id in b'.draws && b'.draws[id].claimed :: (id in db.books.draws && db.books.draws[id].claimed) || ClaimTrue(db.(books := b'), id)
    ensures DbInv(db.(books := b')) && Evolves(db, db.(books := b'))
  {
    hide T.SharedInv, T.Evolves, Sound, BooksEvolve, Planned;
    var db' := db.(books := b');
    T.SelfEvolves(db.transfers);
    forall op | op in db'.transfers.intents ensures Planned(db', op) {
      PlannedStays(db, db', op);
    }
    forall id | id in db'.books.draws ensures ClaimTrue(db', id) {
      if id in db.books.draws && db.books.draws[id].claimed {
        assert ClaimTrue(db, id);
        SameReceipt(db.books, b', id);
      }
    }
  }

  lemma SameReceipt(b: Books, b': Books, id: string)
    requires BooksEvolve(b, b') && id in b.draws && b.draws[id].claimed
    ensures id in b'.draws && b'.draws[id].payoutTxid == b.draws[id].payoutTxid && b'.draws[id].confirmedRound == b.draws[id].confirmedRound
  {
    assert DrawEvolves(b.draws[id], b'.draws[id]);
  }

  /** A stored guard with an active draw may be held. */
  lemma Hold(b: Books, k: Key)
    requires Sound(b) && k in b.entitlements && b.entitlements[k].active.Some?
    ensures Held(b, k, b.entitlements[k])
  {
    SoundAt(b, k);
  }

  /** One operation of a drawing worker on the books. */
  ghost predicate DrawKept(b: Books, k: Key, next: (Books, Local)) {
    && LotteryBooks.Kept(b, next.0)
    && (next.1.Drawing? ==> next.1.key == k && DrawInv(next.0, k, next.1.pc))
    && (next.1.Drawn? ==> next.1.id in next.0.draws && next.0.draws[next.1.id].Core() == next.1.draw.Core())
    && (next.1.Drawing? || next.1.Drawn? || next.1.NoDraw? || next.1.Failed?)
    && (forall id | id in next.0.draws && next.0.draws[id].claimed :: id in b.draws && b.draws[id].claimed)
  }

  lemma SeedStepKeeps(b: Books, k: Key, now: int, pc: DrawPc, a: Answer)
    requires Sound(b) && DrawInv(b, k, pc) && (pc.SeedRead? || pc.SeedInsert?)
    ensures DrawKept(b, k, DrawNext(b, k, now, pc, a))
  {
    hide Sound, BooksEvolve;
    LotteryBooks.SelfEvolves(b);
    if pc.SeedRead? {
      forall id | id in b.draws && b.draws[id].key == k ensures k in b.entitlements {
        DrawKeyKnown(b, id);
      }
    } else {
      SeedKeeps(b, k);
    }
  }

  lemma DrawKeyKnown(b: Books, id: string)
    requires Sound(b) && id in b.draws
    ensures b.draws[id].key in b.entitlements
  {
    assert DrawSound(b, id);
  }

  lemma ClaimStepKeeps(b: Books, k: Key, now: int, pc: DrawPc, a: Answer)
    requires Sound(b) && DrawInv(b, k, pc) && (pc.Claim? || pc.Current? || pc.Reread?)
    ensures DrawKept(b, k, DrawNext(b, k, now, pc, a))
  {
    hide Sound, BooksEvolve, Held;
    LotteryBooks.SelfEvolves(b);
    if pc.Claim? {
      if Claimable(b, k, now) && a.uuid !in b.issued {
        ClaimKeeps(b, k, a.uuid, now);
        Hold(Claimed(b, k, a.uuid, now), k);
      }
    } else if k in b.entitlements && b.entitlements[k].active.Some? {
      Hold(b, k);
    }
  }

  lemma RepairStepKeeps(b: Books, k: Key, now: int, pc: DrawPc, a: Answer)
    requires Sound(b) && DrawInv(b, k, pc) && (pc.ReadDraw? || pc.Repair?)
    ensures DrawKept(b, k, DrawNext(b, k, now, pc, a))
  {
    hide Sound, BooksEvolve, Held;
    LotteryBooks.SelfEvolves(b);
    HeldDraw(b, k, pc.held);
    if pc.Repair? {
      var active := pc.held.active.value;
      if Repairable(b, k, pc.held.generation, active.drawId, active.status) {
        ConfirmKeeps(b, k, pc.held.generation, active.drawId);
      }
    }
  }

  lemma PrepareStepKeeps(b: Books, k: Key, now: int, pc: DrawPc, a: Answer)
    requires Sound(b) && DrawInv(b, k, pc) && pc.Prepare?
    ensures DrawKept(b, k, DrawNext(b, k, now, pc, a))
  {
    hide Sound, BooksEvolve, Held;
    LotteryBooks.SelfEvolves(b);
    HeldDraw(b, k, pc.held);
    var active := pc.held.active.value;
    if Repairable(b, k, pc.held.generation, active.drawId, GuardReserved) {
      PrepareKeeps(b, k, pc.held.generation, active.drawId, a.prize);
      Hold(PrizePrepared(b, k, a.prize), k);
    }
  }

  lemma MaterializeStepKeeps(b: Books, k: Key, now: int, pc: DrawPc, a: Answer)
    requires Sound(b) && DrawInv(b, k, pc) && (pc.Upsert? || pc.Advance? || pc.Recheck?)
    ensures DrawKept(b, k, DrawNext(b, k, now, pc, a))
  {
    hide Sound, BooksEvolve, Held;
    LotteryBooks.SelfEvolves(b);
    HeldDraw(b, k, pc.held);
    var active := pc.held.active.value;
    if pc.Upsert? {
      UpsertKeeps(b, k, pc.held);
      HeldStays(b, Upserted(b, active.drawId, DrawFor(k, pc.held.generation, active)), k, pc.held);
    } else if pc.Advance? && Advanceable(b, k, pc.held.generation, active.drawId, MaterializedStatus(active.prize)) {
      AdvanceKeeps(b, k, pc.held.generation, active.drawId, active.prize);
    }
  }

  lemma DrawNextKeeps(b: Books, k: Key, now: int, pc: DrawPc, a: Answer)
    requires Sound(b) && DrawInv(b, k, pc)
    ensures DrawKept(b, k, DrawNext(b, k, now, pc, a))
  {
    hide Sound, DrawInv, DrawNext, DrawKept;
    if pc.SeedRead? || pc.SeedInsert? {
      SeedStepKeeps(b, k, now, pc, a);
    } else if pc.Claim? || pc.Current? || pc.Reread? {
      ClaimStepKeeps(b, k, now, pc, a);
    } else if pc.ReadDraw? || pc.Repair? {
      RepairStepKeeps(b, k, now, pc, a);
    } else if pc.Prepare? {
      PrepareStepKeeps(b, k, now, pc, a);
    } else {
      MaterializeStepKeeps(b, k, now, pc, a);
    }
  }

  lemma DrawStepKeeps(db: Db, k: Key, now: int, pc: DrawPc, a: Answer)
    requires DbInv(db) && DrawInv(db.books, k, pc)
    ensures StepKept(db, Act(db, Drawing(k, now, pc), Operate(a)))
  {
    hide DrawInv, DrawNext, BooksEvolve, Sound, T.SharedInv, T.Evolves;
    DrawNextKeeps(db.books, k, now, pc, a);
    BooksKeep(db, DrawNext(db.books, k, now, pc, a).0);
  }

  // ---- steps of a sender ----

  lemma ReadStepKeeps(db: Db, id: string, pc: SendPc, a: Answer)
    requires DbInv(db) && SendInv(db, id, pc)
    requires pc.ReadDocument? || pc.ReserveMissed? || pc.RecordMissed? || pc.UpdateMissed?
    ensures StepKept(db, SendNext(db, id, pc, a))
  {
    hide DbInv, Evolves, T.LocalInv, PayoutOperation;
    SelfEvolves(db);
    DrawPaysSoundly(db, id);
  }

  lemma DrawPaysSoundly(db: Db, id: string)
    requires DbInv(db)
    ensures Sound(db.books)
    ensures id in db.books.draws ==> PayoutSound(id, db.books.draws[id])
  {
    assert id in db.books.draws ==> DrawSound(db.books, id);
  }

  lemma PayoutStepKeeps(db: Db, id: string, pc: SendPc, a: Answer)
    requires DbInv(db) && SendInv(db, id, pc) && (pc.ReservePayout? || pc.LeaveOpen?)
    ensures StepKept(db, SendNext(db, id, pc, a))
  {
    hide DbInv, Evolves, Sound, T.LocalInv, PayoutOperation;
    SelfEvolves(db);
    var b := db.books;
    DrawPaysSoundly(db, id);
    if pc.ReservePayout? {
      if Preparable(b, id) {
        PayoutKeeps(b, id, PayoutReserved(b, id).draws[id]);
        BooksKeep(db, PayoutReserved(b, id));
        BeginsFine(db.transfers, PrizeRequest(id, pc.draw));
      }
    } else if Open(b, id, PayoutOperation(id)) {
      PayoutKeeps(b, id, PayoutLeftOpen(b, id).draws[id]);
      BooksKeep(db, PayoutLeftOpen(b, id));
    }
  }

  lemma BeginsFine(s: T.Shared, request: Request)
    ensures T.LocalInv(s, T.Executing(request, T.Get))
  {
  }

  lemma RecordStepKeeps(db: Db, id: string, pc: SendPc, a: Answer)
    requires DbInv(db) && SendInv(db, id, pc) && pc.RecordPayout?
    ensures StepKept(db, SendNext(db, id, pc, a))
  {
    hide DbInv, Evolves, Sound, PayoutOperation, T.ConfirmedIn;
    SelfEvolves(db);
    var b := db.books;
    DrawPaysSoundly(db, id);
    if Open(b, id, pc.receipt.operationId) {
      var b' := PayoutRecorded(b, id, pc.receipt.txid, pc.receipt.confirmedRound);
      PayoutKeeps(b, id, b'.draws[id]);
      BooksKeep(db, b');
    }
  }

  lemma GuardStepKeeps(db: Db, id: string, pc: SendPc, a: Answer)
    requires DbInv(db) && SendInv(db, id, pc) && pc.UpdateGuard?
    ensures StepKept(db, SendNext(db, id, pc, a))
  {
    hide DbInv, Evolves, Sound, PayoutOperation;
    SelfEvolves(db);
    var b := db.books;
    DrawPaysSoundly(db, id);
    if Settable(b, pc.draw.key, pc.draw.generation, id, pc.status) {
      if pc.status == GuardConfirmed {
        ConfirmKeeps(b, pc.draw.key, pc.draw.generation, id);
      } else {
        UnresolvedKeeps(b, pc.draw.key, pc.draw.generation, id);
      }
      BooksKeep(db, WithStatus(b, pc.draw.key, pc.status));
    }
  }

  // ---- steps of transfers ----

  /** Transfers may go on as long as new intents send a draw's prize, or are not a prize's. */
  lemma TransfersKeep(db: Db, transfers: T.Shared)
    requires DbInv(db) && T.SharedInv(transfers) && T.Evolves(db.transfers, transfers)
    requires forall op | op in transfers.intents && op !in db.transfers.intents :: Planned(db.(transfers := transfers), op)
    ensures DbInv(db.(transfers := transfers)) && Evolves(db, db.(transfers := transfers))
  {
    hide T.SharedInv, Sound, Planned, BooksEvolve, PayoutOperation;
    var db' := db.(transfers := transfers);
    LotteryBooks.SelfEvolves(db.books);
    forall op | op in db'.transfers.intents ensures Planned(db', op) {
      if op in db.transfers.intents {
        PlannedStays(db, db', op);
      }
    }
    forall id | id in db'.books.draws ensures ClaimTrue(db', id) {
      assert ClaimTrue(db, id);
    }
  }

  lemma OperationInjective(id: string, other: string)
    requires PayoutOperation(id) == PayoutOperation(other)
    ensures id == other
  {
    assert PayoutOperation(id)[|Prefix|..] == id && PayoutOperation(other)[|Prefix|..] == other;
  }

  lemma OwnIntentIsPlanned(db: Db, id: string, d: Draw)
    requires Known(db.books, id, d)
    requires var op := PayoutOperation(id);
             op in db.transfers.intents && db.transfers.intents[op].SameTransfer(PrizeRequest(id, d))
    ensures Planned(db, PayoutOperation(id))
  {
    hide PayoutOperation;
    var op := PayoutOperation(id);
    forall other | op == PayoutOperation(other) ensures PaysPrize(db.books, other, db.transfers.intents[op]) {
      OperationInjective(id, other);
    }
  }

  lemma OutsideIsUnplanned(db: Db, op: string)
    requires op in db.transfers.intents && !IsPrizeOperation(op)
    ensures Planned(db, op)
  {
    forall id ensures op != PayoutOperation(id) {
      assert PayoutOperation(id)[..|Prefix|] == Prefix;
    }
  }

  lemma PayStep(db: Db, id: string, pc: SendPc, a: T.Answer)
    requires DbInv(db) && SendInv(db, id, pc) && pc.Pay?
    ensures var next := T.ExecuteNext(db.transfers, pc.transfer.request, pc.transfer.pc, a);
            DbInv(db.(transfers := next.0)) && Evolves(db, db.(transfers := next.0)) && T.LocalInv(next.0, next.1)
  {
    hide T.SharedInv, T.Evolves, T.ExecuteNext, T.ExecInv, Sound, Planned, PayoutOperation;
    var next := T.ExecuteNext(db.transfers, pc.transfer.request, pc.transfer.pc, a);
    var db' := db.(transfers := next.0);
    T.ExecuteKeeps(db.transfers, pc.transfer.request, pc.transfer.pc, a);
    forall op | op in next.0.intents && op !in db.transfers.intents ensures Planned(db', op) {
      T.OnlyOwnIntent(db.transfers, pc.transfer.request, pc.transfer.pc, a, op);
      OwnIntentIsPlanned(db', id, pc.draw);
    }
    TransfersKeep(db, next.0);
  }

  lemma PayKeeps(db: Db, id: string, pc: SendPc, a: Answer)
    requires DbInv(db) && SendInv(db, id, pc) && pc.Pay?
    ensures StepKept(db, SendNext(db, id, pc, a))
  {
    hide T.SharedInv, T.Evolves, T.ExecuteNext, T.LocalInv, DbInv, Evolves, PayoutOperation;
    PayStep(db, id, pc, a.gateway);
    T.PayStaysOwn(db.transfers, pc.transfer.request, pc.transfer.pc, a.gateway);
  }

  lemma SendNextKeeps(db: Db, id: string, pc: SendPc, a: Answer)
    requires DbInv(db) && SendInv(db, id, pc)
    ensures StepKept(db, SendNext(db, id, pc, a))
  {
    hide DbInv, SendInv, SendNext, StepKept;
    match pc {
      case ReservePayout(_) => PayoutStepKeeps(db, id, pc, a);
      case LeaveOpen => PayoutStepKeeps(db, id, pc, a);
      case RecordPayout(_, _) => RecordStepKeeps(db, id, pc, a);
      case UpdateGuard(_, _) => GuardStepKeeps(db, id, pc, a);
      case Pay(_, _) => PayKeeps(db, id, pc, a);
      case _ => ReadStepKeeps(db, id, pc, a);
    }
  }

  lemma TransferStepKeeps(db: Db, t: T.Local, a: T.Action)
    requires DbInv(db) && T.LocalInv(db.transfers, t)
    requires t.Executing? ==> !IsPrizeOperation(t.request.operationId)
    requires a.Operate? || a.ConfirmOnChain?
    ensures var next := T.Act(db.transfers, t, a);
            var db' := db.(transfers := next.0);
            && DbInv(db') && Evolves(db, db') && T.LocalInv(next.0, next.1)
            && (next.1.Executing? ==> !IsPrizeOperation(next.1.request.operationId))
  {
    hide T.SharedInv, T.Evolves, T.ExecInv, T.ReconcileInv, Sound, Planned;
    hide T.ExecuteNext, T.ReconcileNext, T.LocalInv, IsPrizeOperation;
    var next := T.Act(db.transfers, t, a);
    var db' := db.(transfers := next.0);
    T.StepKeeps(db.transfers, t, a);
    if t.Executing? && a.Operate? {
      T.PayStaysOwn(db.transfers, t.request, t.pc, a.answer);
    } else if t.Reconciling? && a.Operate? {
      T.ReconcileAddsNothing(db.transfers, t.op, t.rpc, a.answer);
    }
    forall op | op in next.0.intents && op !in db.transfers.intents ensures Planned(db', op) {
      if t.Executing? && a.Operate? {
        T.OnlyOwnIntent(db.transfers, t.request, t.pc, a.answer, op);
      }
      OutsideIsUnplanned(db', op);
    }
    TransfersKeep(db, next.0);
  }

  // ---- every step ----

  lemma FaultKeeps(db: Db, id: string, pc: SendPc)
    requires DbInv(db) && SendInv(db, id, pc)
    ensures LocalInv(db, SendFault(id, pc))
  {
    hide DbInv, T.LocalInv, PayoutOperation;
  }

  lemma RestIsFine(db: Db)
    ensures LocalInv(db, Idle) && LocalInv(db, Failed(Interrupted))
  {
  }

  lemma OutsideBegins(db: Db, a: T.Action)
    requires StartsOutside(a)
    ensures LocalInv(db, Outside(T.Act(db.transfers, T.Idle, a).1))
  {
  }

  lemma ChainKeeps(db: Db, l: Local, index: nat, round: nat)
    requires DbInv(db) && LocalInv(db, l)
    ensures var db' := db.(transfers := T.Act(db.transfers, T.Idle, T.ConfirmOnChain(index, round)).0);
            DbInv(db') && Evolves(db, db') && LocalInv(db', l)
  {
    hide DbInv, Evolves, T.Act, LocalInv, IsPrizeOperation;
    T.IdleIsFine(db.transfers);
    TransferStepKeeps(db, T.Idle, T.ConfirmOnChain(index, round));
    Stable(db, db.(transfers := T.Act(db.transfers, T.Idle, T.ConfirmOnChain(index, round)).0), l);
  }

  lemma OperateKeeps(db: Db, l: Local, a: Answer)
    requires DbInv(db) && LocalInv(db, l)
    ensures StepKept(db, Act(db, l, Operate(a)))
  {
    hide DbInv, SendNext, DrawNext, DrawInv, SendInv, Evolves, T.Act, T.LocalInv, IsPrizeOperation;
    SelfEvolves(db);
    match l {
      case Drawing(k, now, pc) => DrawStepKeeps(db, k, now, pc, a);
      case Sending(id, pc) => SendNextKeeps(db, id, pc, a);
      case Outside(t) => TransferStepKeeps(db, t, T.Operate(a.gateway));
      case _ =>
    }
  }

  lemma StepKeeps(db: Db, l: Local, a: Action)
    requires DbInv(db) && LocalInv(db, l)
    ensures StepKept(db, Act(db, l, a))
  {
    hide DbInv, SendNext, DrawNext, SendInv, Evolves, T.Act, T.LocalInv, SendFault, IsPrizeOperation;
    SelfEvolves(db);
    match a {
      case StartDraw(_, _) =>
      case StartSend(id) => ReadsFirst(db, id);
      case StartOutside(action) =>
        if StartsOutside(action) {
          OutsideBegins(db, action);
        }
      case Operate(answer) => OperateKeeps(db, l, answer);
      case Raise =>
        if l.Sending? {
          FaultKeeps(db, l.id, l.spc);
        }
      case Crash =>
      case ConfirmOnChain(index, round) => ChainKeeps(db, l, index, round);
    }
  }

  lemma ReadsFirst(db: Db, id: string)
    ensures SendInv(db, id, ReadDocument)
  {
  }

  // ---- every run ----

  datatype System = System(db: Db, workers: map<WorkerId, Local>) {
    function LocalOf(me: WorkerId): Local {
      if me in workers then workers[me] else Idle
    }
  }

  datatype Step = Step(worker: WorkerId, action: Action)

  const Empty: System := System(Db(T.Empty.shared, Books(map[], map[], {})), map[])

  function Next(s: System, step: Step): System {
    var (db, l) := Act(s.db, s.LocalOf(step.worker), step.action);
    System(db, s.workers[step.worker := l])
  }

  function Run(s: System, schedule: seq<Step>): System {
    if schedule == [] then s else Next(Run(s, schedule[..|schedule| - 1]), schedule[|schedule| - 1])
  }

  ghost predicate SystemInv(s: System) {
    DbInv(s.db) && forall me | me in s.workers :: LocalInv(s.db, s.workers[me])
  }

  lemma NextKeeps(s: System, step: Step)
    requires SystemInv(s)
    ensures SystemInv(Next(s, step)) && Evolves(s.db, Next(s, step).db)
  {
    hide DbInv, LocalInv, Evolves, Act;
    var s' := Next(s, step);
    RestIsFine(s.db);
    StepKeeps(s.db, s.LocalOf(step.worker), step.action);
    forall me | me in s'.workers ensures LocalInv(s'.db, s'.workers[me]) {
      if me != step.worker {
        Stable(s.db, s'.db, s.workers[me]);
      }
    }
  }

  lemma {:induction false} RunKeeps(s: System, schedule: seq<Step>)
    requires SystemInv(s)
    ensures SystemInv(Run(s, schedule)) && Evolves(s.db, Run(s, schedule).db)
  {
    hide SystemInv, Evolves, Next;
    if schedule == [] {
      SelfEvolves(s.db);
    } else {
      var before := schedule[..|schedule| - 1];
      RunKeeps(s, before);
      NextKeeps(Run(s, before), schedule[|schedule| - 1]);
      EvolvesTransitive(s.db, Run(s, before).db, Run(s, schedule).db);
    }
  }

  lemma {:induction false} RunSplit(s: System, schedule: seq<Step>, n: nat)
    requires n <= |schedule|
    ensures Run(s, schedule) == Run(Run(s, schedule[..n]), schedule[n..])
  {
    hide Next;
    if n == |schedule| {
      assert schedule[..n] == schedule && schedule[n..] == [];
    } else {
      var last := |schedule| - 1;
      RunSplit(s, schedule[..last], n);
      assert schedule[..last][..n] == schedule[..n];
      assert schedule[n..][..|schedule[n..]| - 1] == schedule[..last][n..];
    }
  }

  lemma Begins()
    ensures SystemInv(Empty)
  {
  }

  lemma Reached(schedule: seq<Step>)
    ensures SystemInv(Run(Empty, schedule))
  {
    hide SystemInv;
    Begins();
    RunKeeps(Empty, schedule);
  }

  /** Any two points of a run, the earlier and the later. */
  lemma Along(schedule: seq<Step>, m: nat, n: nat)
    requires m <= n <= |schedule|
    ensures SystemInv(Run(Empty, schedule[..m])) && SystemInv(Run(Empty, schedule[..n]))
    ensures Evolves(Run(Empty, schedule[..m]).db, Run(Empty, schedule[..n]).db)
  {
    hide SystemInv, Evolves;
    Reached(schedule[..m]);
    RunSplit(Empty, schedule[..n], m);
    assert schedule[..n][..m] == schedule[..m];
    RunKeeps(Run(Empty, schedule[..m]), schedule[..n][m..]);
  }

  // ---- what no run can do ----

  /** At any time a wallet has at most one unclaimed prize draw of a lottery. */
  lemma OneOutstandingPrize(schedule: seq<Step>, i: string, j: string)
    requires var draws := Run(Empty, schedule).db.books.draws;
             i in draws && j in draws && draws[i].key == draws[j].key && draws[i].Outstanding() && draws[j].Outstanding()
    ensures i == j
  {
    hide Sound, T.SharedInv, Run;
    Reached(schedule);
    AtMostOneOutstanding(Run(Empty, schedule).db.books, i, j);
  }

  /** Each generation has one draw, and that draw one prize for ever, however many workers drew for it. */
  lemma OneDrawPerGeneration(schedule: seq<Step>, m: nat, n: nat, i: string, j: string)
    requires m <= n <= |schedule|
    requires var before, after := Run(Empty, schedule[..m]).db.books.draws, Run(Empty, schedule[..n]).db.books.draws;
             i in before && j in after && before[i].key == after[j].key && before[i].generation == after[j].generation
    ensures i == j
    ensures Run(Empty, schedule[..m]).db.books.draws[i].Core() == Run(Empty, schedule[..n]).db.books.draws[j].Core()
  {
    hide GuardsSound, DrawsSound, OwnIds, T.SharedInv, T.Evolves, Run;
    Along(schedule, m, n);
    var before, after := Run(Empty, schedule[..m]).db.books, Run(Empty, schedule[..n]).db.books;
    DrawsStay(before, after, i);
    assert Apart(after, i, j);
  }

  /** Draws of one wallet in one lottery were reserved at least 24 hours apart for each generation between them. */
  lemma ReservationsApart(schedule: seq<Step>, i: string, j: string)
    requires var draws := Run(Empty, schedule).db.books.draws;
             i in draws && j in draws && draws[i].key == draws[j].key && draws[i].generation < draws[j].generation
    ensures var draws := Run(Empty, schedule).db.books.draws;
            draws[i].timestamp + (draws[j].generation - draws[i].generation) * MIN_DRAW_INTERVAL <= draws[j].timestamp
  {
    hide GuardsSound, DrawsSound, OwnIds, T.SharedInv, Run;
    Reached(schedule);
    assert Apart(Run(Empty, schedule).db.books, i, j);
  }

  /** An open reservation, too, is at least the interval later than every earlier draw. */
  lemma OpenReservationApart(schedule: seq<Step>, k: Key, i: string)
    requires var b := Run(Empty, schedule).db.books;
             k in b.entitlements && i in b.draws && b.draws[i].key == k && b.draws[i].generation < b.entitlements[k].generation
    ensures var b := Run(Empty, schedule).db.books;
            && b.entitlements[k].active.Some?
            && b.draws[i].timestamp + (b.entitlements[k].generation - b.draws[i].generation) * MIN_DRAW_INTERVAL
               <= b.entitlements[k].active.value.timestamp
  {
    hide GuardsSound, AllApart, OwnIds, T.SharedInv, Run;
    Reached(schedule);
    assert DrawSound(Run(Empty, schedule).db.books, i);
  }

  /** A confirmed guard means a claimed draw, and stays confirmed for as long as its generation lasts. */
  lemma ConfirmedIsFinal(schedule: seq<Step>, m: nat, n: nat, k: Key)
    requires m <= n <= |schedule|
    requires var e := Run(Empty, schedule[..m]).db.books.entitlements;
             k in e && e[k].active.Some? && e[k].active.value.status == GuardConfirmed
    ensures var before, after := Run(Empty, schedule[..m]).db.books, Run(Empty, schedule[..n]).db.books;
            && k in after.entitlements
            && (after.entitlements[k].generation == before.entitlements[k].generation ==>
                  after.entitlements[k].active.Some? && after.entitlements[k].active.value.status == GuardConfirmed)
            && before.entitlements[k].active.value.drawId in after.draws
            && after.draws[before.entitlements[k].active.value.drawId].claimed
  {
    hide Sound, T.SharedInv, T.Evolves, Run;
    Along(schedule, m, n);
    var before, after := Run(Empty, schedule[..m]).db.books, Run(Empty, schedule[..n]).db.books;
    SoundAt(before, k);
    assert GuardEvolves(k, before.entitlements[k], after.entitlements[k], after.draws);
    DrawsStay(before, after, before.entitlements[k].active.value.drawId);
  }

  /** A draw's prize leaves at most once, to the draw's wallet, as one unit of the drawn NFT. */
  lemma PrizePaidOnce(schedule: seq<Step>, id: string, t: Txid, u: Txid)
    requires var confirmed := Run(Empty, schedule).db.transfers.node.confirmed; t in confirmed && u in confirmed
    requires t.content.operationId == PayoutOperation(id) == u.content.operationId
    ensures t == u
    ensures var draws := Run(Empty, schedule).db.books.draws;
            && id in draws && draws[id].prize == Some(t.content.assetId)
            && t.content.receiver == draws[id].key.wallet && t.content.amount == 1
  {
    hide Sound, T.SharedInv, T.ConfirmedIn, Run, PayoutOperation;
    Reached(schedule);
    var db := Run(Empty, schedule).db;
    T.ConfirmedIsIntended(db.transfers, t);
    T.ConfirmedIsIntended(db.transfers, u);
    T.SoundIntent(db.transfers, PayoutOperation(id));
    assert PaysPrize(db.books, id, db.transfers.intents[PayoutOperation(id)]);
  }

  /** A draw that is marked as claimed has been paid on chain, in the transaction and the round that it names. */
  lemma ClaimedIsPaid(schedule: seq<Step>, id: string)
    requires var draws := Run(Empty, schedule).db.books.draws; id in draws && draws[id].claimed
    ensures var db := Run(Empty, schedule).db;
            var d := db.books.draws[id];
            && d.payoutTxid.Some? && d.confirmedRound.Some?
            && d.payoutTxid.value in db.transfers.node.confirmed
            && db.transfers.node.confirmed[d.payoutTxid.value] == d.confirmedRound.value
            && d.payoutTxid.value.content.operationId == PayoutOperation(id)
            && d.payoutTxid.value.content.receiver == d.key.wallet
            && Some(d.payoutTxid.value.content.assetId) == d.prize
  {
    hide Sound, T.SharedInv, Run, PayoutOperation;
    Reached(schedule);
    var db := Run(Empty, schedule).db;
    assert ClaimTrue(db, id);
    T.SoundIntent(db.transfers, PayoutOperation(id));
    assert PaysPrize(db.books, id, db.transfers.intents[PayoutOperation(id)]);
  }
}

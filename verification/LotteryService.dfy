/** The staking lottery's own loops over its documents (api/nft_lottery.py). */
module LotteryService {
  import opened Wrappers
  import opened TransferIntents
  import opened LotteryBooks
  import opened StakingLottery
  import opened LotteryRuns
  import opened PayoutRuns
  import T = AssetTransfers
  import TransferRuns

  /** What became of one document of a payout run. */
  datatype Outcome = SentNow | AlreadyClaimed | NotPaid | NothingToDo

  datatype PayoutResult = PayoutResult(id: string, outcome: Outcome)

  /** The draws that are not claimed and have a prize. */
  function Outstanding(draws: map<string, Draw>): set<string> {
    set id | id in draws && draws[id].Outstanding()
  }

  function CountOf(results: seq<PayoutResult>, outcome: Outcome): nat {
    if results == [] then 0
    else CountOf(results[..|results| - 1], outcome) + if results[|results| - 1].outcome == outcome then 1 else 0
  }

  class StakingLotteryService {
    var transfers: T.Shared
    var entitlements: map<Key, Entitlement>
    var draws: map<string, Draw>
    var issued: set<string>

    constructor (db: Db)
      ensures Value() == db
    {
      transfers, entitlements, draws, issued := db.transfers, db.books.entitlements, db.books.draws, db.books.issued;
    }

    function Value(): Db
      reads this
    {
      Db(transfers, Books(entitlements, draws, issued))
    }

    /** Let the others run before the next operation. */
    method Yield(env: Env, ghost answers: Answers, ghost call: Call, ghost l: Local, turn: nat)
      returns (next: nat)
      requires ComeTo(env, answers, call, Value(), l, turn)
      modifies this
      ensures next == turn + 1 && Value() == env(old(Value()), turn)
      ensures var (db', l') := Act(Value(), l, Operate(answers(turn))); ComeTo(env, answers, call, db', l', next)
    {
      Proceed(env, answers, call, Value(), l, turn);
      var db := env(Value(), turn);
      transfers, entitlements, draws, issued := db.transfers, db.books.entitlements, db.books.draws, db.books.issued;
      next := turn + 1;
    }

    // ---- guarded updates of one document ----

    method SetStatus(k: Key, status: EntitlementStatus)
      requires k in entitlements && entitlements[k].active.Some?
      modifies this`entitlements
      ensures Value() == old(Value()).(books := WithStatus(old(Value()).books, k, status))
    {
      var e := entitlements[k];
      entitlements := entitlements[k := e.(active := Some(e.active.value.(status := status)))];
    }

    /** Reserve the next draw if it is due and no other is open. */
    method TryClaim(k: Key, id: string, now: int) returns (claimed: Option<Entitlement>)
      modifies this`entitlements, this`issued
      ensures if Claimable(old(Value()).books, k, now) then
                Value() == old(Value()).(books := Claimed(old(Value()).books, k, id, now))
                && k in entitlements && claimed == Some(entitlements[k])
              else Value() == old(Value()) && claimed.None?
    {
      if k in entitlements && entitlements[k].nextEligibleAt <= now {
        var e := entitlements[k];
        if e.active.None? || e.active.value.status == GuardConfirmed || e.active.value.status == GuardNoPrize {
          e := Entitlement(e.generation + 1, now + MIN_DRAW_INTERVAL, Some(Active(id, now, None, GuardReserved)));
          entitlements := entitlements[k := e];
          issued := issued + {id};
          return Some(e);
        }
      }
      return None;
    }

    // ---- drawing ----

    /** Install the guard unless it is there. */
    method SeedStakingEntitlement(env: Env, ghost answers: Answers, ghost call: Call, k: Key, ghost now: int, turn: nat)
      returns (ok: bool, next: nat)
      requires ComeTo(env, answers, call, Value(), Drawing(k, now, SeedRead), turn)
      modifies this
      ensures next == turn + 2
      // Draws without a guard are left to their migration.
      ensures var db := env(old(Value()), turn);
              ok <==> k in env(db, turn + 1).books.entitlements || forall id | id in db.books.draws :: db.books.draws[id].key != k
      ensures ComeTo(env, answers, call, Value(), if ok then Drawing(k, now, Claim) else Failed(LegacyDraws), next)
    {
      hide ComeTo;
      next := Yield(env, answers, call, Drawing(k, now, SeedRead), turn);
      var seen := exists id :: id in draws && draws[id].key == k;
      next := Yield(env, answers, call, Drawing(k, now, SeedInsert(seen)), next);
      if k !in entitlements {
        if seen {
          return false, next;
        }
        entitlements := entitlements[k := Entitlement(0, 0, None)];
      }
      ok := true;
    }

    /**
     * Reserve a draw, or return the reservation that is still to be finished; repair a guard on the way.
     * The call ends without an answer when its new draw ID is not new, or when it has repaired too often.
     */
    method ClaimStakingEntitlement(env: Env, answers: Answers, ghost call: Call, k: Key, now: int, turn: nat, depth: nat)
      returns (r: Option<Result<Option<Entitlement>, LotteryError>>, next: nat)
      requires ComeTo(env, answers, call, Value(), Drawing(k, now, SeedRead), turn)
      modifies this
      ensures if r.None? then
                || (ComeTo(env, answers, call, Value(), Drawing(k, now, SeedRead), next) && next == turn + 6 * depth)
                || (ComeTo(env, answers, call, Value(), Drawing(k, now, Claim), next) && Claimable(Value().books, k, now)
                    && turn < next && (next - turn) % 6 == 3 && answers(next - 1).uuid in issued)
              else
                ComeTo(env, answers, call, Value(),
                   if r.value.Failure? then Failed(r.value.error)
                   else if r.value.value.None? then NoDraw else WithGuard(k, now, r.value.value.value), next)
      decreases depth
    {
      hide ComeTo, Claimable;
      if depth == 0 {
        return None, turn;
      }
      var ok;
      ok, next := SeedStakingEntitlement(env, answers, call, k, now, turn);
      if !ok {
        return Some(Failure(LegacyDraws)), next;
      }
      var id := answers(next).uuid;
      next := Yield(env, answers, call, Drawing(k, now, Claim), next);
      if Claimable(Value().books, k, now) && id in issued {
        return None, next;
      }
      var claimed := TryClaim(k, id, now);
      if claimed.Some? {
        return Some(Success(claimed)), next;
      }
      r, next := HelpOrRepair(env, answers, call, k, now, next);
      if r.None? {
        r, next := ClaimStakingEntitlement(env, answers, call, k, now, next, depth - 1);
      }
    }

    /** No draw is due: take an unfinished reservation, or repair a guard that lags behind and claim again. */
    method HelpOrRepair(env: Env, ghost answers: Answers, ghost call: Call, k: Key, ghost now: int, turn: nat)
      returns (r: Option<Result<Option<Entitlement>, LotteryError>>, next: nat)
      requires ComeTo(env, answers, call, Value(), Drawing(k, now, Current), turn)
      modifies this
      ensures if r.None? then ComeTo(env, answers, call, Value(), Drawing(k, now, SeedRead), next) && next == turn + 3
              else
                ComeTo(env, answers, call, Value(),
                   if r.value.Failure? then Failed(r.value.error)
                   else if r.value.value.None? then NoDraw else WithGuard(k, now, r.value.value.value), next)
    {
      hide ComeTo;
      next := Yield(env, answers, call, Drawing(k, now, Current), turn);
      if k !in entitlements {
        return Some(Failure(Disappeared)), next;
      }
      var current := entitlements[k];
      if current.active.None? {
        return Some(Success(None)), next;
      }
      var status := current.active.value.status;
      if status == GuardReserved || status == GuardPrepared {
        return Some(Success(Some(current))), next;
      }
      if status != GuardMaterialized && status != GuardUnresolved {
        return Some(Success(None)), next;
      }
      var repaired;
      repaired, next := RepairGuard(env, answers, call, k, now, current, next);
      r := if repaired then None else Some(Success(None));
    }

    /** If the open draw was claimed after all, say so in the guard, unless that has changed. */
    method RepairGuard(env: Env, ghost answers: Answers, ghost call: Call, k: Key, ghost now: int, current: Entitlement, turn: nat)
      returns (repaired: bool, next: nat)
      requires current.active.Some?
      requires ComeTo(env, answers, call, Value(), Drawing(k, now, ReadDraw(current)), turn)
      modifies this
      ensures ComeTo(env, answers, call, Value(), if repaired then Drawing(k, now, SeedRead) else NoDraw, next)
      ensures repaired ==> next == turn + 2
    {
      hide ComeTo;
      var active := current.active.value;
      next := Yield(env, answers, call, Drawing(k, now, ReadDraw(current)), turn);
      if active.drawId !in draws || !draws[active.drawId].claimed || draws[active.drawId].payoutStatus != PayoutConfirmed {
        return false, next;
      }
      next := Yield(env, answers, call, Drawing(k, now, Repair(current)), next);
      repaired := Repairable(Value().books, k, current.generation, active.drawId, active.status);
      if repaired {
        SetStatus(k, GuardConfirmed);
      }
    }

    /** Store a prize for the reservation, or take the one that another worker has stored. */
    method PrepareStakingPrize(env: Env, answers: Answers, ghost call: Call, k: Key, ghost now: int, held: Entitlement, turn: nat)
      returns (r: Result<Entitlement, LotteryError>, next: nat)
      requires ComeTo(env, answers, call, Value(), WithGuard(k, now, held), turn)
      modifies this
      ensures ComeTo(env, answers, call, Value(),
                 if r.Success? then Drawing(k, now, Upsert(r.value)) else Failed(r.error), next)
      ensures r.Success? ==> r.value.active.Some?
    {
      hide ComeTo;
      next := turn;
      if held.active.None? {
        return Failure(NoActiveDraw), next;
      }
      var e := held;
      var active := held.active.value;
      if active.status == GuardReserved {
        var prize := answers(next).prize;
        next := Yield(env, answers, call, Drawing(k, now, Prepare(held)), next);
        if Repairable(Value().books, k, held.generation, active.drawId, GuardReserved) {
          e := entitlements[k];
          e := e.(active := Some(e.active.value.(prize := prize, status := GuardPrepared)));
          entitlements := entitlements[k := e];
          return Success(e), next;
        }
        next := Yield(env, answers, call, Drawing(k, now, Reread), next);
        if k !in entitlements {
          return Failure(Disappeared), next;
        }
        e := entitlements[k];
        if e.active.None? || e.active.value.status == GuardReserved {
          return Failure(NotRecoverable), next;
        }
      }
      if e.active.value.status == GuardConfirmed || e.active.value.status == GuardUnresolved {
        return Failure(NotRecoverable), next;
      }
      return Success(e), next;
    }

    /** Insert the draw of this generation unless it is there, and then say so in the guard. */
    method MaterializeStakingDraw(env: Env, ghost answers: Answers, ghost call: Call, k: Key, ghost now: int, held: Entitlement,
                                  turn: nat)
      returns (r: Result<Draw, LotteryError>, next: nat)
      requires held.active.Some?
      requires ComeTo(env, answers, call, Value(), Drawing(k, now, Upsert(held)), turn)
      modifies this
      ensures ComeTo(env, answers, call, Value(),
                 if r.Success? then Drawn(held.active.value.drawId, r.value) else Failed(r.error), next)
      ensures r.Success? ==> r.value.Core() == (k, held.active.value.prize, held.active.value.timestamp, held.generation)
    {
      hide ComeTo;
      var active := held.active.value;
      var id := active.drawId;
      next := Yield(env, answers, call, Drawing(k, now, Upsert(held)), turn);
      if id !in draws {
        draws := draws[id := DrawFor(k, held.generation, active)];
      }
      var document := draws[id];
      if document.Core() != (k, active.prize, active.timestamp, held.generation) {
        return Failure(OtherData), next;
      }
      var ok;
      ok, next := AdvanceGuard(env, answers, call, k, now, held, document, next);
      r := if ok then Success(document) else Failure(ChangedMeanwhile);
    }

    /** Say in the guard that the draw is there, unless the guard says more already. */
    method AdvanceGuard(env: Env, ghost answers: Answers, ghost call: Call, k: Key, ghost now: int, held: Entitlement,
                        ghost document: Draw, turn: nat)
      returns (ok: bool, next: nat)
      requires held.active.Some?
      requires ComeTo(env, answers, call, Value(), Drawing(k, now, Advance(held, document)), turn)
      modifies this
      ensures ComeTo(env, answers, call, Value(),
                 if ok then Drawn(held.active.value.drawId, document) else Failed(ChangedMeanwhile), next)
    {
      hide ComeTo;
      var id := held.active.value.drawId;
      var status := MaterializedStatus(held.active.value.prize);
      next := Yield(env, answers, call, Drawing(k, now, Advance(held, document)), turn);
      if Advanceable(Value().books, k, held.generation, id, status) {
        SetStatus(k, status);
        return true, next;
      }
      next := Yield(env, answers, call, Drawing(k, now, Recheck(held, document)), next);
      ok := k in entitlements && entitlements[k].active.Some? && entitlements[k].active.value.drawId == id
            && (entitlements[k].active.value.status == status || entitlements[k].active.value.status == GuardConfirmed
                || entitlements[k].active.value.status == GuardUnresolved);
    }

    /**
     * The wallet's draw in a lottery, if one is due or unfinished. The call is exactly the run of its
     * operations among the others'; among workers of the protocol a draw that it returns is stored as returned.
     */
    method GetOrCreateStakingDraw(env: Env, k: Key, now: int, answers: Answers, depth: nat)
      returns (r: Option<Result<Option<Draw>, LotteryError>>, ghost turns: nat)
      modifies this
      ensures var (db, l) := After(env, answers, Call(0, old(Value()), Drawing(k, now, SeedRead)), turns);
              && db == Value()
              && (if r.None? then l.Drawing?
                  else if r.value.Failure? then l == Failed(r.value.error)
                  else if r.value.value.None? then l == NoDraw
                  else l.Drawn? && l.draw == r.value.value.value)
      ensures r.Some? && r.value.Success? && r.value.value.Some? ==> r.value.value.value.key == k
      // The prize of a draw that this call has prepared itself is the one that it drew at that operation.
      ensures forall n: nat | n < turns && PreparesAt(env, answers, Call(0, old(Value()), Drawing(k, now, SeedRead)), n) ::
                r.Some? && (r.value.Success? ==> r.value.value.Some? && r.value.value.value.prize == answers(n).prize)
      // A draw that is due and that nobody disturbs is drawn and stored, with the prize that was drawn for it.
      ensures BooksStill(env) && Due(old(Value()).books, k, now) && depth >= 1
              && answers(2).uuid !in old(issued) && answers(2).uuid !in old(draws) ==>
                var b := WithDraw(old(Value()).books, k, now, answers(2).uuid, answers(3).prize);
                Value().books == b && r == Some(Success(Some(b.draws[answers(2).uuid])))
      // A reservation that somebody left unfinished is finished, with its own prize if one is stored.
      ensures BooksStill(env) && Unfinished(old(Value()).books, k) && depth >= 1 ==>
                var b := Finished(old(Value()).books, k, answers(4).prize);
                && old(Value()).books.entitlements[k].active.value.drawId in b.draws
                && Value().books == b && r == Some(Success(Some(b.draws[old(Value()).books.entitlements[k].active.value.drawId])))
      // When only the guard lags behind a draw that has been paid, it is repaired and the next draw is drawn.
      ensures BooksStill(env) && Lagging(old(Value()).books, k, now) && depth >= 2
              && answers(8).uuid !in old(issued) && answers(8).uuid !in old(draws) ==>
                var b := WithDraw(WithStatus(old(Value()).books, k, GuardConfirmed), k, now, answers(8).uuid, answers(9).prize);
                Value().books == b && r == Some(Success(Some(b.draws[answers(8).uuid])))
      ensures Obeys(env) && DbInv(old(Value())) ==> DbInv(Value()) && Evolves(old(Value()), Value())
      ensures Obeys(env) && DbInv(old(Value())) && r.Some? && r.value.Success? && r.value.value.Some? ==>
                exists id :: id in draws && draws[id].Core() == r.value.value.value.Core()
    {
      hide ComeTo, After, DbInv, Evolves, Obeys, PreparesAt, BooksStill, Due, Lagging, WithDraw;
      ghost var call := Call(0, Value(), Drawing(k, now, SeedRead));
      Starts(Value(), k, now);
      r, turns := Draw(env, answers, call, k, now, depth);
      ghost var l := After(env, answers, call, turns).1;
      Conclude(env, answers, call, Value(), l, turns);
      forall n: nat | n < turns && PreparesAt(env, answers, call, n) ensures CarriesPrize(l, answers(n).prize) {
        OwnPrizeStays(env, answers, call, n, turns);
      }
      if BooksStill(env) && Due(call.start.books, k, now) && depth >= 1
         && answers(2).uuid !in call.start.books.issued && answers(2).uuid !in call.start.books.draws
      {
        DueIsDrawn(env, answers, call, k, now, turns, depth);
      }
      if BooksStill(env) && Unfinished(call.start.books, k) && depth >= 1 {
        UnfinishedIsDrawn(env, answers, call, k, now, turns, depth);
      }
      if BooksStill(env) && Lagging(call.start.books, k, now) && depth >= 2
         && answers(8).uuid !in call.start.books.issued && answers(8).uuid !in call.start.books.draws
      {
        LaggingIsDrawn(env, answers, call, k, now, turns, depth);
      }
    }

    /** Reserve, prepare and materialize. */
    method Draw(env: Env, answers: Answers, ghost call: Call, k: Key, now: int, depth: nat)
      returns (r: Option<Result<Option<Draw>, LotteryError>>, ghost turns: nat)
      requires call == Call(0, Value(), Drawing(k, now, SeedRead))
      modifies this
      ensures var l := After(env, answers, call, turns).1;
              && ComeTo(env, answers, call, Value(), l, turns)
              && (if r.None? then l.Drawing? && StopsAt(env, answers, call, turns, depth)
                  else if r.value.Failure? then l == Failed(r.value.error)
                  else if r.value.value.None? then l == NoDraw
                  else l.Drawn? && l.draw == r.value.value.value && l.draw.key == k)
    {
      hide ComeTo, After;
      Opens(env, answers, call);
      var entitlement, next := ClaimStakingEntitlement(env, answers, call, k, now, 0, depth);
      turns := next;
      if entitlement.None? {
        if ComeTo(env, answers, call, Value(), Drawing(k, now, SeedRead), next) && next == 6 * depth {
          Arrived(env, answers, call, Value(), Drawing(k, now, SeedRead), next);
        } else {
          Arrived(env, answers, call, Value(), Drawing(k, now, Claim), next);
        }
        return None, turns;
      }
      if entitlement.value.Failure? {
        Arrived(env, answers, call, Value(), Failed(entitlement.value.error), next);
        return Some(Failure(entitlement.value.error)), turns;
      }
      if entitlement.value.value.None? {
        Arrived(env, answers, call, Value(), NoDraw, next);
        return Some(Success(None)), turns;
      }
      var prepared;
      prepared, next := PrepareStakingPrize(env, answers, call, k, now, entitlement.value.value.value, next);
      turns := next;
      if prepared.Failure? {
        Arrived(env, answers, call, Value(), Failed(prepared.error), next);
        return Some(Failure(prepared.error)), turns;
      }
      var draw;
      draw, next := MaterializeStakingDraw(env, answers, call, k, now, prepared.value, next);
      turns := next;
      Arrived(env, answers, call, Value(),
              if draw.Success? then Drawn(prepared.value.active.value.drawId, draw.value) else Failed(draw.error), next);
      r := Some(if draw.Success? then Success(Some(draw.value)) else Failure(draw.error));
    }

    // ---- sending ----

    /** Set the guard's status, unless it is confirmed or has moved on; a miss is only logged. */
    method UpdateStakingEntitlementStatus(env: Env, ghost answers: Answers, ghost call: Call, id: string, draw: Draw,
                                          status: EntitlementStatus, turn: nat)
      returns (next: nat)
      requires ComeTo(env, answers, call, Value(), Sending(id, UpdateGuard(draw, status)), turn)
      modifies this
      ensures next > turn
      ensures ComeTo(env, answers, call, Value(), AfterUpdate(id, status), next)
    {
      hide ComeTo;
      next := Yield(env, answers, call, Sending(id, UpdateGuard(draw, status)), turn);
      if Settable(Value().books, draw.key, draw.generation, id, status) {
        SetStatus(draw.key, status);
        return next;
      }
      next := Yield(env, answers, call, Sending(id, UpdateMissed(draw, status)), next);
    }

    /** The error path: the guard and the draw are left unresolved. */
    method LeaveUnresolved(env: Env, ghost answers: Answers, ghost call: Call, id: string, draw: Draw, turn: nat)
      returns (next: nat)
      requires ComeTo(env, answers, call, Value(), Sending(id, UpdateGuard(draw, GuardUnresolved)), turn)
      modifies this
      ensures next > turn
      ensures ComeTo(env, answers, call, Value(), LeftOpen(id), next)
    {
      hide ComeTo;
      next := UpdateStakingEntitlementStatus(env, answers, call, id, draw, GuardUnresolved, turn);
      next := Yield(env, answers, call, Sending(id, LeaveOpen), next);
      if Open(Value().books, id, PayoutOperation(id)) {
        draws := draws[id := draws[id].(payoutStatus := PayoutUnresolved)];
      }
    }

    /** Execute the transfer of the prize, operation by operation. */
    method SendNft(env: Env, answers: Answers, ghost call: Call, ghost id: string, ghost draw: Draw, request: Request, turn: nat)
      returns (r: Option<T.Receipt>, next: nat)
      requires ComeTo(env, answers, call, Value(), Sending(id, Pay(draw, T.Executing(request, T.Get))), turn)
      modifies this
      ensures ComeTo(env, answers, call, Value(),
                 Sending(id, if r.Some? then RecordPayout(draw, r.value) else UpdateGuard(draw, GuardUnresolved)), next)
    {
      hide ComeTo, T.ExecuteNext;
      next := turn;
      var t := T.Executing(request, T.Get);
      while t.Executing?
        invariant ComeTo(env, answers, call, Value(),
                     Sending(id, if t.Executing? then Pay(draw, t)
                                 else if t.Done? then RecordPayout(draw, t.receipt)
                                 else UpdateGuard(draw, GuardUnresolved)), next)
        decreases TransferRuns.OperationsLeft(t)
      {
        next := Yield(env, answers, call, Sending(id, Pay(draw, t)), next);
        TransferRuns.OperationsFall(transfers, t, answers(next - 1).gateway);
        var step := T.ExecuteNext(transfers, t.request, t.pc, answers(next - 1).gateway);
        transfers, t := step.0, step.1;
      }
      r := if t.Done? then Some(t.receipt) else None;
    }

    /** Record the receipt in the draw, or find that another worker has recorded the same transaction. */
    method RecordReceipt(env: Env, ghost answers: Answers, ghost call: Call, id: string, draw: Draw, receipt: T.Receipt, turn: nat)
      returns (outcome: Outcome, next: nat)
      requires ComeTo(env, answers, call, Value(), Sending(id, RecordPayout(draw, receipt)), turn)
      modifies this
      ensures outcome == SentNow <==> Open(env(old(Value()), turn).books, id, receipt.operationId)
      // Another worker's record is accepted only when it is of the same transaction.
      ensures outcome != SentNow ==>
                var b := env(env(old(Value()), turn), turn + 1).books;
                outcome == AlreadyClaimed <==> id in b.draws && b.draws[id].claimed && b.draws[id].payoutTxid == Some(receipt.txid)
      ensures outcome != NothingToDo
      ensures outcome == AlreadyClaimed ==> MissedBefore(env, answers, call, next)
      ensures ComeTo(env, answers, call, Value(), if outcome == NotPaid then LeftOpen(id) else Sent(id), next)
    {
      hide ComeTo;
      next := Yield(env, answers, call, Sending(id, RecordPayout(draw, receipt)), turn);
      if Open(Value().books, id, receipt.operationId) {
        draws := draws[id := draws[id].(claimed := true, payoutTxid := Some(receipt.txid),
                                        confirmedRound := Some(receipt.confirmedRound), payoutStatus := PayoutConfirmed)];
        next := UpdateStakingEntitlementStatus(env, answers, call, id, draws[id], GuardConfirmed, next);
        return SentNow, next;
      }
      var same;
      same, next := AcceptRecorded(env, answers, call, id, draw, receipt, next);
      outcome := if same then AlreadyClaimed else NotPaid;
    }

    /** The draw was not open: another worker has recorded the same transaction, or the draw is left unresolved. */
    method AcceptRecorded(env: Env, ghost answers: Answers, ghost call: Call, id: string, draw: Draw, receipt: T.Receipt, turn: nat)
      returns (same: bool, next: nat)
      requires ComeTo(env, answers, call, Value(), Sending(id, RecordMissed(draw, receipt)), turn)
      modifies this
      ensures var b := env(old(Value()), turn).books;
              same <==> id in b.draws && b.draws[id].claimed && b.draws[id].payoutTxid == Some(receipt.txid)
      ensures MissedBefore(env, answers, call, next)
      ensures ComeTo(env, answers, call, Value(), if same then Sent(id) else LeftOpen(id), next)
    {
      hide ComeTo;
      ghost var missed := Value();
      next := Yield(env, answers, call, Sending(id, RecordMissed(draw, receipt)), turn);
      same := id in draws && draws[id].claimed && draws[id].payoutTxid == Some(receipt.txid);
      if same {
        next := UpdateStakingEntitlementStatus(env, answers, call, id, draws[id], GuardConfirmed, next);
      } else {
        next := LeaveUnresolved(env, answers, call, id, draw, next);
      }
      Missed(env, answers, call, missed, Sending(id, RecordMissed(draw, receipt)), turn, next);
    }

    /** Pay the prize of one document that was read before. */
    method SendPrize(env: Env, answers: Answers, ghost call: Call, id: string, draw: Draw, turn: nat)
      returns (outcome: Outcome, next: nat)
      requires draw.prize.Some?
      requires ComeTo(env, answers, call, Value(), Sending(id, ReservePayout(draw)), turn)
      modifies this
      ensures outcome != NothingToDo
      ensures outcome == AlreadyClaimed ==> MissedBefore(env, answers, call, next)
      ensures ComeTo(env, answers, call, Value(), if outcome == NotPaid then LeftOpen(id) else Sent(id), next)
    {
      hide ComeTo;
      next := Yield(env, answers, call, Sending(id, ReservePayout(draw)), turn);
      if Preparable(Value().books, id) {
        draws := draws[id := draws[id].(payoutOperation := Some(PayoutOperation(id)), payoutStatus := PayoutPrepared)];
        var receipt;
        receipt, next := SendNft(env, answers, call, id, draw, PrizeRequest(id, draw), next);
        if receipt.Some? {
          outcome, next := RecordReceipt(env, answers, call, id, draw, receipt.value, next);
          return outcome, next;
        }
      } else {
        ghost var missed := Value();
        ghost var at := next;
        next := Yield(env, answers, call, Sending(id, ReserveMissed(draw)), next);
        if id in draws && draws[id].claimed {
          next := UpdateStakingEntitlementStatus(env, answers, call, id, draws[id], GuardConfirmed, next);
          Missed(env, answers, call, missed, Sending(id, ReserveMissed(draw)), at, next);
          return AlreadyClaimed, next;
        }
      }
      next := LeaveUnresolved(env, answers, call, id, draw, next);
      outcome := NotPaid;
    }

    /**
     * `send_all_prizes`, for one of the documents that it has read: nothing for a document that is claimed or cannot
     * be paid, and otherwise exactly the run of the payout's operations among the others'.
     */
    method HandleDocument(env: Env, answers: Answers, id: string, draw: Draw, turn: nat, ghost limit: nat)
      returns (outcome: Outcome, next: nat)
      modifies this
      ensures outcome == NothingToDo <==> !draw.Outstanding()
      ensures !draw.Outstanding() || !Payable(draw.payoutStatus) ==> Value() == old(Value()) && next == turn
      ensures draw.Outstanding() && !Payable(draw.payoutStatus) ==> outcome == NotPaid
      ensures draw.Outstanding() && Payable(draw.payoutStatus) ==>
                ComeTo(env, answers, Call(turn, old(Value()), PayoutStart(id, draw)), Value(),
                   if outcome == NotPaid then LeftOpen(id) else Sent(id), next)
      ensures Obeys(env) && DbInv(old(Value())) && Known(old(Value()).books, id, draw) ==>
                && DbInv(Value()) && Evolves(old(Value()), Value())
                && (outcome == SentNow || outcome == AlreadyClaimed ==> id in draws && draws[id].claimed)
      // With a gateway that works within the window and a chain that confirms what was sent, the prize is paid.
      ensures Obeys(env) && LeavesDraws(env) && Prompt(env, limit) && WorksAlways(answers, limit)
              && old(DbInv(Value()) && AsRead(Value().books, (id, draw)) && Preparable(Value().books, id) && draw.prize.Some?
                     && AllPayable(transfers, limit)) ==>
                && outcome == SentNow && PaidOut(Value().books, id)
                && AllPayable(transfers, limit) && OthersSame(old(Value()).books, Value().books, id)
    {
      hide ComeTo, DbInv, Evolves, Obeys, Known, PayoutOperation, LeavesDraws, Prompt, WorksAlways, AllPayable, OthersSame;
      hide MissedBefore, Paid, GuardSays, PayoutCall;
      StakingLottery.SelfEvolves(Value());
      if draw.claimed || draw.prize.None? {
        return NothingToDo, turn;
      }
      if !Payable(draw.payoutStatus) {
        // Only the document's error text is updated.
        return NotPaid, turn;
      }
      ghost var call := Call(turn, Value(), PayoutStart(id, draw));
      Opens(env, answers, call);
      KnownBegins(Value(), id, draw);
      if draw.payoutOperation.Some? && draw.payoutOperation != Some(PayoutOperation(id)) {
        next := LeaveUnresolved(env, answers, call, id, draw, turn);
        outcome := NotPaid;
      } else {
        outcome, next := SendPrize(env, answers, call, id, draw, turn);
      }
      Conclude(env, answers, call, Value(), if outcome == NotPaid then LeftOpen(id) else Sent(id), next);
      if Obeys(env) && LeavesDraws(env) && Prompt(env, limit) && WorksAlways(answers, limit) && DbInv(call.start)
         && AsRead(call.start.books, (id, draw)) && Preparable(call.start.books, id) && AllPayable(call.start.transfers, limit)
      {
        ReadyCall(call, id, draw);
        PayoutSucceeds(env, answers, call, id, draw, limit, Value(), if outcome == NotPaid then LeftOpen(id) else Sent(id), next);
      }
    }

    /** Read the documents of the draws that are not claimed and have a prize, each once. */
    method FindOutstanding() returns (documents: seq<(string, Draw)>)
      ensures forall d <- documents :: d.0 in draws && draws[d.0] == d.1 && d.1.Outstanding()
      ensures forall id | id in draws && draws[id].Outstanding() :: (id, draws[id]) in documents
      ensures |documents| == |Outstanding(draws)|
      ensures forall i, j | 0 <= i < j < |documents| :: documents[i].0 != documents[j].0
    {
      documents := [];
      var all := Outstanding(draws);
      var rest := all;
      while rest != {}
        invariant rest <= all && |documents| + |rest| == |all|
        invariant forall d <- documents :: d.0 in draws && draws[d.0] == d.1 && d.1.Outstanding() && d.0 !in rest
        invariant forall i, j | 0 <= i < j < |documents| :: documents[i].0 != documents[j].0
        invariant forall id | id in all :: id in rest || (id, draws[id]) in documents
        decreases rest
      {
        var id :| id in rest;
        assert forall d <- documents :: d.0 != id;
        documents := documents + [(id, draws[id])];
        rest := rest - {id};
      }
    }

    /**
     * Pay every outstanding prize, going on after failures. There is exactly one result for each, and the two counts
     * are those of the results; among workers of the protocol, every result that says so is a draw that is claimed.
     */
    method SendAllPrizes(env: Env, answers: Answers, ghost limit: nat)
      returns (sentCount: nat, errorCount: nat, results: seq<PayoutResult>)
      modifies this
      ensures sentCount == CountOf(results, SentNow) && errorCount == CountOf(results, NotPaid)
      ensures forall id | id in old(draws) && old(draws)[id].Outstanding() :: exists r :: r in results && r.id == id
      ensures forall r | r in results :: r.id in old(draws) && old(draws)[r.id].Outstanding()
      ensures |results| == |Outstanding(old(draws))|
      ensures forall i, j | 0 <= i < j < |results| :: results[i].id != results[j].id
      ensures Obeys(env) && DbInv(old(Value())) ==> DbInv(Value()) && Evolves(old(Value()), Value())
      ensures Obeys(env) && DbInv(old(Value())) ==> AllClaimed(Value(), results)
      // With a gateway that works within the window and a chain that confirms what was sent, every prize is paid.
      ensures Obeys(env) && LeavesDraws(env) && Prompt(env, limit) && WorksAlways(answers, limit)
              && old(DbInv(Value()) && AllReady(Value().books) && AllPayable(transfers, limit)) ==>
                && sentCount == |Outstanding(old(draws))| && errorCount == 0
                && forall id | id in old(draws) && old(draws)[id].Outstanding() :: PaidOut(Value().books, id)
    {
      hide ComeTo, DbInv, Evolves, Obeys, Known, CountOf, AllKnown, AllClaimed, Follows, Reports;
      hide LeavesDraws, Prompt, WorksAlways, AllPayable, OthersSame, PaidOut, PaidUpTo, AllSent, Preparable, AllReady;
      ghost var start := Value();
      ghost var disciplined := Obeys(env) && DbInv(start);
      sentCount, errorCount, results := 0, 0, [];
      NothingCounted();
      var documents := FindOutstanding();
      if disciplined {
        FollowsAtFirst(start, documents);
      }
      ReportsNothing(documents);
      ghost var quiet := disciplined && LeavesDraws(env) && Prompt(env, limit) && WorksAlways(answers, limit)
                         && AllReady(start.books) && AllPayable(start.transfers, limit);
      if quiet {
        NobodyPaidYet(start, documents, limit);
      }
      var turn := 0;
      for i := 0 to |documents|
        invariant sentCount == CountOf(results, SentNow) && errorCount == CountOf(results, NotPaid)
        invariant |results| == i && Reports(documents, results)
        invariant disciplined ==> Follows(start, Value(), documents, results)
        invariant quiet ==> PaidUpTo(Value(), documents, i, limit) && AllSent(results)
      {
        ghost var before := Value();
        var (id, draw) := documents[i];
        if disciplined {
          FollowsKnown(start, before, documents, results, i);
        }
        if quiet {
          NextIsReady(start, before, documents, i, limit);
        }
        var outcome;
        outcome, turn := HandleDocument(env, answers, id, draw, turn, limit);
        var result := PayoutResult(id, outcome);
        if disciplined {
          FollowsNext(start, before, Value(), documents, results, result);
        }
        if quiet {
          PaidNext(before, Value(), documents, i, limit);
          SentNext(results, result);
        }
        ReportsNext(documents, results, result);
        CountNext(results, result);
        results := results + [result];
        sentCount := sentCount + if outcome == SentNow then 1 else 0;
        errorCount := errorCount + if outcome == NotPaid then 1 else 0;
      }
      ReportsAll(start, documents, results);
      if disciplined {
        Followed(start, Value(), documents, results);
      }
      if quiet {
        EverybodyPaid(start, Value(), documents, limit);
        AllCounted(results);
      }
    }
  }

  /** Every result is a payment made now. */
  ghost predicate AllSent(results: seq<PayoutResult>) {
    forall r <- results :: r.outcome == SentNow
  }

  lemma SentNext(results: seq<PayoutResult>, result: PayoutResult)
    requires AllSent(results) && result.outcome == SentNow
    ensures AllSent(results + [result])
  {
  }

  lemma {:induction false} AllCounted(results: seq<PayoutResult>)
    requires AllSent(results)
    ensures CountOf(results, SentNow) == |results| && CountOf(results, NotPaid) == 0
  {
    if results != [] {
      AllCounted(results[..|results| - 1]);
    }
  }

  lemma NobodyPaidYet(db: Db, documents: seq<(string, Draw)>, limit: nat)
    requires AllPayable(db.transfers, limit)
    requires forall d <- documents :: d.0 in db.books.draws && db.books.draws[d.0] == d.1 && d.1.Outstanding()
    ensures PaidUpTo(db, documents, 0, limit) && AllSent([])
  {
    hide AllPayable;
    forall j | 0 <= j < |documents| ensures AsRead(db.books, documents[j]) {
      assert documents[j] in documents;
    }
  }

  /** The next document is still as it was read, so it can be paid. */
  lemma NextIsReady(start: Db, db: Db, documents: seq<(string, Draw)>, i: nat, limit: nat)
    requires i < |documents| && PaidUpTo(db, documents, i, limit) && AllReady(start.books)
    requires forall d <- documents :: d.0 in start.books.draws && start.books.draws[d.0] == d.1 && d.1.Outstanding()
    ensures AllPayable(db.transfers, limit) && AsRead(db.books, documents[i])
    ensures Preparable(db.books, documents[i].0) && documents[i].1.prize.Some?
  {
    hide AllPayable, PayoutOperation;
    assert documents[i] in documents;
    assert Preparable(start.books, documents[i].0);
  }

  lemma EverybodyPaid(start: Db, db: Db, documents: seq<(string, Draw)>, limit: nat)
    requires PaidUpTo(db, documents, |documents|, limit)
    requires forall id | id in start.books.draws && start.books.draws[id].Outstanding() :: (id, start.books.draws[id]) in documents
    ensures forall id | id in start.books.draws && start.books.draws[id].Outstanding() :: PaidOut(db.books, id)
  {
    hide AllPayable, PaidOut;
    forall id | id in start.books.draws && start.books.draws[id].Outstanding() ensures PaidOut(db.books, id) {
      var j :| 0 <= j < |documents| && documents[j] == (id, start.books.draws[id]);
    }
  }

  lemma ReadyCall(call: Call, id: string, draw: Draw)
    requires call.first == PayoutStart(id, draw) && DbInv(call.start) && AsRead(call.start.books, (id, draw))
    requires Preparable(call.start.books, id) && draw.prize.Some?
    ensures PayoutCall(call, id, draw)
  {
    hide DbInv, PayoutOperation;
  }

  lemma NothingCounted()
    ensures forall o: Outcome :: CountOf([], o) == 0
  {
  }

  lemma CountNext(results: seq<PayoutResult>, result: PayoutResult)
    ensures forall o: Outcome ::
              CountOf(results + [result], o) == CountOf(results, o) + if result.outcome == o then 1 else 0
  {
    assert (results + [result])[..|results|] == results;
  }

  /** The results are those of the first documents, in order. */
  ghost predicate Reports(documents: seq<(string, Draw)>, results: seq<PayoutResult>) {
    |results| <= |documents| && forall j | 0 <= j < |results| :: results[j].id == documents[j].0
  }

  lemma ReportsNothing(documents: seq<(string, Draw)>)
    ensures Reports(documents, [])
  {
  }

  lemma ReportsNext(documents: seq<(string, Draw)>, results: seq<PayoutResult>, result: PayoutResult)
    requires Reports(documents, results) && |results| < |documents| && result.id == documents[|results|].0
    ensures Reports(documents, results + [result])
  {
  }

  /** The documents were exactly the outstanding draws, so the results are one for each of them. */
  lemma ReportsAll(start: Db, documents: seq<(string, Draw)>, results: seq<PayoutResult>)
    requires Reports(documents, results) && |results| == |documents|
    requires forall d <- documents :: d.0 in start.books.draws && start.books.draws[d.0] == d.1 && d.1.Outstanding()
    requires forall id | id in start.books.draws && start.books.draws[id].Outstanding() :: (id, start.books.draws[id]) in documents
    ensures forall id | id in start.books.draws && start.books.draws[id].Outstanding() :: exists r :: r in results && r.id == id
    ensures forall r | r in results :: r.id in start.books.draws && start.books.draws[r.id].Outstanding()
    ensures (forall i, j | 0 <= i < j < |documents| :: documents[i].0 != documents[j].0) ==>
              forall i, j | 0 <= i < j < |results| :: results[i].id != results[j].id
  {
    forall id | id in start.books.draws && start.books.draws[id].Outstanding() ensures exists r :: r in results && r.id == id {
      var j :| 0 <= j < |documents| && documents[j] == (id, start.books.draws[id]);
      assert results[j] in results;
    }
    forall r | r in results ensures r.id in start.books.draws && start.books.draws[r.id].Outstanding() {
      var j :| 0 <= j < |results| && results[j] == r;
      assert documents[j] in documents;
    }
  }

  /** Among workers of the protocol: all is sound, the documents are still known, and what was reported was claimed. */
  ghost predicate Follows(start: Db, db: Db, documents: seq<(string, Draw)>, results: seq<PayoutResult>) {
    DbInv(db) && Evolves(start, db) && AllKnown(db, documents) && AllClaimed(db, results)
  }

  lemma FollowsAtFirst(db: Db, documents: seq<(string, Draw)>)
    requires DbInv(db)
    requires forall d <- documents :: d.0 in db.books.draws && db.books.draws[d.0] == d.1 && d.1.Outstanding()
    ensures Follows(db, db, documents, [])
  {
    hide DbInv;
    StakingLottery.SelfEvolves(db);
  }

  lemma FollowsKnown(start: Db, db: Db, documents: seq<(string, Draw)>, results: seq<PayoutResult>, i: nat)
    requires Follows(start, db, documents, results) && i < |documents|
    ensures DbInv(db) && Known(db.books, documents[i].0, documents[i].1)
  {
    hide DbInv, Evolves, Known;
    assert documents[i] in documents;
  }

  lemma FollowsNext(start: Db, before: Db, db: Db, documents: seq<(string, Draw)>, results: seq<PayoutResult>, r: PayoutResult)
    requires Follows(start, before, documents, results) && DbInv(db) && Evolves(before, db)
    requires r.outcome == SentNow || r.outcome == AlreadyClaimed ==> r.id in db.books.draws && db.books.draws[r.id].claimed
    ensures Follows(start, db, documents, results + [r])
  {
    hide DbInv, Evolves, AllKnown;
    StakingLottery.EvolvesTransitive(start, before, db);
    AllKnownStays(before, db, documents);
    AllClaimedStays(before, db, results);
  }

  lemma Followed(start: Db, db: Db, documents: seq<(string, Draw)>, results: seq<PayoutResult>)
    requires Follows(start, db, documents, results)
    ensures DbInv(db) && Evolves(start, db) && AllClaimed(db, results)
  {
  }

  ghost predicate AllKnown(db: Db, documents: seq<(string, Draw)>) {
    forall d <- documents :: Known(db.books, d.0, d.1)
  }

  ghost predicate AllClaimed(db: Db, results: seq<PayoutResult>) {
    forall r | r in results && (r.outcome == SentNow || r.outcome == AlreadyClaimed) ::
      r.id in db.books.draws && db.books.draws[r.id].claimed
  }

  lemma AllKnownStays(db: Db, db': Db, documents: seq<(string, Draw)>)
    requires Evolves(db, db') && AllKnown(db, documents)
    ensures AllKnown(db', documents)
  {
    hide BooksEvolve, Known, T.Evolves;
    forall d | d in documents ensures Known(db'.books, d.0, d.1) {
      KnownStays(db.books, db'.books, d.0, d.1);
    }
  }

  lemma AllClaimedStays(db: Db, db': Db, results: seq<PayoutResult>)
    requires Evolves(db, db') && AllClaimed(db, results)
    ensures AllClaimed(db', results)
  {
    hide BooksEvolve, T.Evolves;
    forall r | r in results ensures r.id in db.books.draws && db.books.draws[r.id].claimed ==>
                                      r.id in db'.books.draws && db'.books.draws[r.id].claimed {
      DrawsStay(db.books, db'.books, r.id);
    }
  }

  lemma KnownBegins(db: Db, id: string, draw: Draw)
    ensures Known(db.books, id, draw) ==> LocalInv(db, PayoutStart(id, draw))
  {
  }

  lemma Starts(db: Db, k: Key, now: int)
    ensures LocalInv(db, Drawing(k, now, SeedRead))
  {
  }
}

/**
 * The service that executes and reconciles one transfer (flex/application/asset_transfers.py), step by
 * step over the stored intents.
 */
module AssetTransferService {
  import opened Wrappers
  import opened TransferIntents
  import opened AssetTransfers
  import opened TransferProgress
  import opened TransferRuns

  /** What a caller of `Execute` gets. */
  function Returned(l: Local): Result<Receipt, TransferError> {
    match l
    case Done(receipt) => Success(receipt)
    case Failed(error) => Failure(error)
    case _ => Failure(Changed)
  }

  function ReceiptOf(op: string, i: Intent, already: bool): Result<Receipt, TransferError> {
    if i.confirmedRound.None? then Failure(MissingRound)
    else Success(Receipt(op, i.txid, i.confirmedRound.value, already))
  }

  /** What a caller of `Reconcile` gets. */
  function ReturnedReport(l: Local): Result<(Txid, Reported), TransferError> {
    match l
    case Reconciled(_, txid, reported) => Success((txid, reported))
    case Failed(error) => Failure(error)
    case _ => Failure(Changed)
  }

  function ConfirmationOf(i: Intent): Result<(Txid, Reported), TransferError> {
    if i.confirmedRound.None? then Failure(MissingRound) else Success((i.txid, ReportConfirmed(i.confirmedRound.value)))
  }

  class AssetTransferService {
    const repository: MongoAssetTransferIntentRepository
    var node: Node

    constructor (repository: MongoAssetTransferIntentRepository, node: Node)
      ensures this.repository == repository && this.node == node
    {
      this.repository := repository;
      this.node := node;
    }

    function Value(): Shared
      reads this, repository
    {
      Shared(repository.intents, node)
    }

    /** Let the others run. */
    method Pause(env: Env, n: nat)
      modifies this, repository
      ensures Value() == env(old(Value()), n)
    {
      var s := env(Value(), n);
      repository.intents := s.intents;
      node := s.node;
    }

    /** `_update_non_terminal`: update under the guard, else accept a confirmation under the same ID. */
    method UpdateNonTerminal(ghost start: Shared, request: Request, i: Intent, after: After,
                             env: Env, ghost answers: Answers, turn: nat)
      returns (r: Result<Intent, TransferError>, next: nat)
      requires Leads(env, answers, start, Executing(request, Get), 0, Value(), Executing(request, Updating(i, after, false)), turn)
      modifies this, repository
      ensures r.Failure? ==> r.error == Changed
      ensures Leads(env, answers, start, Executing(request, Get), 0, Value(),
                    if r.Success? then Continue(request, r.value, after)
                    else if after == ThenWait then Executing(request, Wait(i)) else Failed(Changed), next)
    {
      hide Leads, Completed;
      Advance(env, answers, start, Executing(request, Get), Value(), Executing(request, Updating(i, after, false)), turn);
      Pause(env, turn);
      var updated := repository.TryUpdate(request.operationId, i.txid, UpdateOf(after));
      next := turn + 1;
      if updated.Some? {
        return Success(updated.value), next;
      }
      Advance(env, answers, start, Executing(request, Get), Value(), Executing(request, Updating(i, after, true)), next);
      Pause(env, next);
      next := next + 1;
      var current := repository.Get(request.operationId);
      if current.Some? && current.value.txid == i.txid && current.value.status == StatusConfirmed {
        return Success(current.value), next;
      }
      return Failure(Changed), next;
    }

    /** Record the confirmation of an execution and issue its receipt. */
    method Confirm(ghost start: Shared, request: Request, i: Intent, round: nat, already: bool,
                   env: Env, ghost answers: Answers, turn: nat)
      returns (r: Result<Receipt, TransferError>)
      requires Leads(env, answers, start, Executing(request, Get), 0, Value(),
                     Executing(request, Confirming(i, round, already, false)), turn)
      modifies this, repository
      ensures var (s', l') := Completed(start, Executing(request, Get), env, answers, 0);
              Value() == s' && r == Returned(l')
      ensures r.Failure? ==> r.error != InvalidPrepared
    {
      hide Leads, Completed;
      var op := request.operationId;
      Advance(env, answers, start, Executing(request, Get), Value(), Executing(request, Confirming(i, round, already, false)), turn);
      Pause(env, turn);
      var updated := repository.TryConfirm(op, i.txid, round);
      if updated.Some? {
        Ends(env, answers, start, Executing(request, Get), Value(), ConfirmedReceipt(op, updated.value, already), turn + 1);
        return ReceiptOf(op, updated.value, already);
      }
      Advance(env, answers, start, Executing(request, Get), Value(), Executing(request, Confirming(i, round, already, true)), turn + 1);
      Pause(env, turn + 1);
      var current := repository.Get(op);
      if current.Some? && current.value.txid == i.txid && current.value.status == StatusConfirmed
         && current.value.confirmedRound == Some(round) {
        Ends(env, answers, start, Executing(request, Get), Value(), ConfirmedReceipt(op, current.value, already), turn + 2);
        return ReceiptOf(op, current.value, already);
      }
      Ends(env, answers, start, Executing(request, Get), Value(), Failed(Changed), turn + 2);
      return Failure(Changed);
    }

    /** Note an error on the intent; a confirmation that came first is still a success. */
    method GiveUp(ghost start: Shared, request: Request, i: Intent, after: After, env: Env, ghost answers: Answers, turn: nat)
      returns (r: Result<Receipt, TransferError>)
      requires after == ThenExpired || after == ThenPending
      requires Leads(env, answers, start, Executing(request, Get), 0, Value(), Executing(request, Updating(i, after, false)), turn)
      modifies this, repository
      ensures var (s', l') := Completed(start, Executing(request, Get), env, answers, 0);
              Value() == s' && r == Returned(l')
      ensures r.Failure? ==> r.error != InvalidPrepared
    {
      hide Leads, Completed;
      var u, next := UpdateNonTerminal(start, request, i, after, env, answers, turn);
      Ends(env, answers, start, Executing(request, Get), Value(),
           if u.Success? then Continue(request, u.value, after) else Failed(Changed), next);
      if u.Failure? {
        return Failure(u.error);
      }
      if u.value.status == StatusConfirmed {
        return ReceiptOf(request.operationId, u.value, true);
      }
      return Failure(if after == ThenExpired then Expired else Pending);
    }

    /** Past the last valid round nothing is broadcast again. */
    method ExecuteExpired(ghost start: Shared, request: Request, i: Intent, env: Env, answers: Answers, turn: nat)
      returns (r: Result<Receipt, TransferError>)
      requires Leads(env, answers, start, Executing(request, Get), 0, Value(), Executing(request, ExpiredLookup(i)), turn)
      modifies this, repository
      ensures var (s', l') := Completed(start, Executing(request, Get), env, answers, 0);
              Value() == s' && r == Returned(l')
      ensures r.Failure? ==> r.error != InvalidPrepared
    {
      hide Leads, Completed;
      Advance(env, answers, start, Executing(request, Get), Value(), Executing(request, ExpiredLookup(i)), turn);
      Pause(env, turn);
      if answers(turn).works && answers(turn).found && i.txid in node.confirmed {
        r := Confirm(start, request, i, node.confirmed[i.txid], true, env, answers, turn + 1);
      } else {
        r := GiveUp(start, request, i, ThenExpired, env, answers, turn + 1);
      }
    }

    /** Hand the stored bytes to the node unless they do not say what the intent says. */
    method Broadcast(request: Request, i: Intent, works: bool) returns (ok: bool)
      modifies this
      ensures repository.intents == old(repository.intents)
      ensures node == if BytesMatch(request, i) then
                        old(node).(sent := old(node).sent + [AssetTransfers.Broadcast(request.operationId, i.signed, i.txid)])
                      else old(node)
      ensures ok == (works && BytesMatch(request, i))
    {
      if !BytesMatch(request, i) {
        return false;
      }
      node := node.(sent := node.sent + [AssetTransfers.Broadcast(request.operationId, i.signed, i.txid)]);
      return works;
    }

    /** Attempt, broadcast, mark, wait, confirm. */
    method ExecuteLive(ghost start: Shared, request: Request, i: Intent, env: Env, answers: Answers, turn: nat)
      returns (r: Result<Receipt, TransferError>)
      requires Leads(env, answers, start, Executing(request, Get), 0, Value(),
                     Executing(request, Updating(i, ThenSend, false)), turn)
      modifies this, repository
      ensures var (s', l') := Completed(start, Executing(request, Get), env, answers, 0);
              Value() == s' && r == Returned(l')
      ensures r.Failure? ==> r.error != InvalidPrepared
    {
      hide Leads, Completed, BytesMatch;
      var op := request.operationId;
      var u, next := UpdateNonTerminal(start, request, i, ThenSend, env, answers, turn);
      if u.Failure? {
        Ends(env, answers, start, Executing(request, Get), Value(), Failed(Changed), next);
        return Failure(u.error);
      }
      var intent := u.value;
      if intent.status == StatusConfirmed {
        Ends(env, answers, start, Executing(request, Get), Value(), ConfirmedReceipt(op, intent, true), next);
        return ReceiptOf(op, intent, true);
      }
      Advance(env, answers, start, Executing(request, Get), Value(), Executing(request, Send(intent)), next);
      Pause(env, next);
      var sent := Broadcast(request, intent, answers(next).works);
      next := next + 1;
      if sent {
        u, next := UpdateNonTerminal(start, request, intent, ThenWait, env, answers, next);
        // A failed update leaves the intent as it was.
        if u.Success? {
          intent := u.value;
        }
        if u.Success? && intent.status == StatusConfirmed {
          Ends(env, answers, start, Executing(request, Get), Value(), ConfirmedReceipt(op, intent, true), next);
          return ReceiptOf(op, intent, true);
        }
      }
      r := AwaitConfirmation(start, request, intent, env, answers, next);
    }

    /** The persisted transaction ID decides, whatever the broadcast reported. */
    method AwaitConfirmation(ghost start: Shared, request: Request, i: Intent, env: Env, answers: Answers, turn: nat)
      returns (r: Result<Receipt, TransferError>)
      requires Leads(env, answers, start, Executing(request, Get), 0, Value(), Executing(request, Wait(i)), turn)
      modifies this, repository
      ensures var (s', l') := Completed(start, Executing(request, Get), env, answers, 0);
              Value() == s' && r == Returned(l')
      ensures r.Failure? ==> r.error != InvalidPrepared
    {
      hide Leads, Completed;
      Advance(env, answers, start, Executing(request, Get), Value(), Executing(request, Wait(i)), turn);
      Pause(env, turn);
      if answers(turn).works && i.txid in node.confirmed {
        r := Confirm(start, request, i, node.confirmed[i.txid], false, env, answers, turn + 1);
      } else {
        r := GiveUp(start, request, i, ThenPending, env, answers, turn + 1);
      }
    }

    /** Find the intent of the operation, or prepare and reserve one. */
    method Obtain(ghost start: Shared, request: Request, env: Env, answers: Answers)
      returns (r: Result<Intent, TransferError>, next: nat)
      requires start == Value()
      modifies this, repository
      ensures Leads(env, answers, start, Executing(request, Get), 0, Value(),
                    if r.Success? then WithIntent(request, r.value) else Failed(r.error), next)
      ensures r.Failure? ==> r.error == InvalidPrepared && answers(1).firstValid > answers(1).lastValid
    {
      hide Completed;
      Advance(env, answers, start, Executing(request, Get), Value(), Executing(request, Get), 0);
      hide Leads;
      Pause(env, 0);
      var found := repository.Get(request.operationId);
      if found.Some? {
        return Success(found.value), 1;
      }
      Advance(env, answers, start, Executing(request, Get), Value(), Executing(request, Prepare), 1);
      Pause(env, 1);
      if answers(1).firstValid > answers(1).lastValid {
        return Failure(InvalidPrepared), 2;
      }
      var prepared := Sign(request, answers(1));
      Advance(env, answers, start, Executing(request, Get), Value(), Executing(request, Reserve(prepared)), 2);
      Pause(env, 2);
      var reserved := repository.Reserve(request.operationId, NewIntent(request, prepared));
      return Success(reserved), 3;
    }

    /**
     * Execute a transfer. The call is exactly the run of its operations among the others', and among
     * callers of the protocol a receipt is for this very transfer, confirmed on chain in that round.
     */
    method Execute(request: Request, env: Env, answers: Answers) returns (r: Result<Receipt, TransferError>)
      modifies this, repository
      ensures var (s', l') := Completed(old(Value()), Executing(request, Get), env, answers, 0);
              Value() == s' && r == Returned(l')
      ensures Obeys(env) && SharedInv(old(Value())) ==> SharedInv(Value()) && Evolves(old(Value()), Value())
      ensures Obeys(env) && SharedInv(old(Value())) && r.Success? ==>
                && r.value.operationId == request.operationId
                && ReceiptSound(Value(), request.operationId, r.value.txid, r.value.confirmedRound)
                && Value().intents[request.operationId].SameTransfer(request)
      // Whatever the collections hold, the call broadcasts nothing but the requested transfer.
      ensures SendsOnlyRequested(env, answers, old(Value()), request)
      // A receipt or a pending transfer: the stored bytes have been given to the network.
      ensures Obeys(env) && SharedInv(old(Value())) && (r.Success? || r.error == Pending) ==> Given(Value(), request.operationId)
      // Expired: a round past the stored intent's window was read.
      ensures Obeys(env) && SharedInv(old(Value())) && r == Failure(Expired) ==>
                exists n: nat :: ExpiredRightly(env, answers, old(Value()), request, Value(), n)
      // The round that is read decides: past the window nothing is sent, and within it the stored bytes are.
      ensures Obeys(env) && SharedInv(old(Value())) ==>
                forall n: nat | RoundReadAt(env, answers, old(Value()), request, n) ::
                  && request.operationId in Value().intents
                  && if answers(n).round > Value().intents[request.operationId].lastValid then
                       SendsNothing(env, answers, old(Value()), request) && (r.Success? || r.error == Expired)
                     else Given(Value(), request.operationId) && (r.Success? || r.error == Pending)
      // A gateway that works within the window and a chain that confirms what was sent: the result is a receipt.
      ensures Obeys(env) && SharedInv(old(Value())) ==>
                forall limit: nat | Prompt(env, request, limit) && WorksAlways(answers, limit) && Fits(old(Value()), request, limit) ::
                  r.Success?
      // So it is for a transaction that the chain has confirmed, when a lookup answers, past the window too.
      ensures Obeys(env) && SharedInv(old(Value())) && OnChain(old(Value()), request) && FindsAlways(answers) ==> r.Success?
      ensures Obeys(env) && SharedInv(old(Value())) && r.Failure? ==>
                && r.error in {InvalidPrepared, Conflict, Expired, Pending}
                && (r.error == InvalidPrepared ==> answers(1).firstValid > answers(1).lastValid)
                && (r.error == Conflict ==>
                      request.operationId in Value().intents
                      && !Value().intents[request.operationId].SameTransfer(request))
                && (r.error == Pending || r.error == Expired ==>
                      request.operationId in Value().intents
                      && Value().intents[request.operationId].SameTransfer(request)
                      && Value().intents[request.operationId].status != StatusConfirmed)
    {
      hide Completed, SharedInv, Evolves, Obeys, Leads, Given, SendsNothing, RoundReadAt, ExpiredRightly;
      hide Prompt, WorksAlways, Fits, OnChain, FindsAlways, SendsOnlyRequested;
      ghost var start := Value();
      CallSendsRequested(env, answers, start, request);
      if Obeys(env) && SharedInv(start) {
        CallMeans(env, answers, start, request);
      }
      var obtained, next := Obtain(start, request, env, answers);
      if obtained.Failure? {
        Ends(env, answers, start, Executing(request, Get), Value(), Failed(obtained.error), next);
        return Failure(obtained.error);
      }
      var i := obtained.value;
      if !i.SameTransfer(request) {
        Ends(env, answers, start, Executing(request, Get), Value(), Failed(Conflict), next);
        return Failure(Conflict);
      }
      if i.status == StatusConfirmed {
        Ends(env, answers, start, Executing(request, Get), Value(), ConfirmedReceipt(request.operationId, i, true), next);
        return ReceiptOf(request.operationId, i, true);
      }
      Advance(env, answers, start, Executing(request, Get), Value(), Executing(request, CheckRound(i)), next);
      Pause(env, next);
      if answers(next).round > i.lastValid {
        r := ExecuteExpired(start, request, i, env, answers, next + 1);
      } else {
        r := ExecuteLive(start, request, i, env, answers, next + 1);
      }
    }

    /** Record a confirmation that the lookup has found. */
    method ConfirmReconciled(ghost start: Shared, op: string, i: Intent, round: nat, env: Env, ghost answers: Answers, turn: nat)
      returns (r: Result<(Txid, Reported), TransferError>)
      requires Leads(env, answers, start, Reconciling(op, ReconcileGet), 0, Value(),
                     Reconciling(op, ReconcileConfirming(i, round, false)), turn)
      modifies this, repository
      ensures var (s', l') := Completed(start, Reconciling(op, ReconcileGet), env, answers, 0);
              Value() == s' && r == ReturnedReport(l')
    {
      hide Leads, Completed;
      ghost var first := Reconciling(op, ReconcileGet);
      Advance(env, answers, start, first, Value(), Reconciling(op, ReconcileConfirming(i, round, false)), turn);
      Pause(env, turn);
      var updated := repository.TryConfirm(op, i.txid, round);
      if updated.Some? {
        Ends(env, answers, start, first, Value(), Reconciled(op, i.txid, ReportConfirmed(round)), turn + 1);
        return Success((updated.value.txid, ReportConfirmed(round)));
      }
      Advance(env, answers, start, first, Value(), Reconciling(op, ReconcileConfirming(i, round, true)), turn + 1);
      Pause(env, turn + 1);
      var current := repository.Get(op);
      if current.Some? && current.value.txid == i.txid && current.value.status == StatusConfirmed
         && current.value.confirmedRound == Some(round) {
        Ends(env, answers, start, first, Value(), Reconciled(op, i.txid, ReportConfirmed(round)), turn + 2);
        return Success((current.value.txid, ReportConfirmed(round)));
      }
      Ends(env, answers, start, first, Value(), Failed(Changed), turn + 2);
      return Failure(Changed);
    }

    /** After reading the current round, read the intent again: it may have been confirmed meanwhile. */
    method ReloadAndReport(ghost start: Shared, op: string, i: Intent, env: Env, answers: Answers, turn: nat)
      returns (r: Result<(Txid, Reported), TransferError>)
      requires Leads(env, answers, start, Reconciling(op, ReconcileGet), 0, Value(), Reconciling(op, ReconcileRound(i)), turn)
      modifies this, repository
      ensures var (s', l') := Completed(start, Reconciling(op, ReconcileGet), env, answers, 0);
              Value() == s' && r == ReturnedReport(l')
    {
      hide Leads, Completed;
      ghost var first := Reconciling(op, ReconcileGet);
      Advance(env, answers, start, first, Value(), Reconciling(op, ReconcileRound(i)), turn);
      Pause(env, turn);
      var currentRound := answers(turn).round;
      Advance(env, answers, start, first, Value(), Reconciling(op, ReconcileReload(i, currentRound)), turn + 1);
      Pause(env, turn + 1);
      ghost var end := ReconcileNext(Value(), op, ReconcileReload(i, currentRound), answers(turn + 1)).1;
      Ends(env, answers, start, first, Value(), end, turn + 2);
      var current := repository.Get(op);
      if current.None? {
        return Failure(Unknown);
      }
      if current.value.txid != i.txid {
        return Failure(Conflict);
      }
      if current.value.status == StatusConfirmed {
        return ConfirmationOf(current.value);
      }
      return Success((current.value.txid,
                      if currentRound > current.value.lastValid then ReportExpired else ReportStatus(current.value.status)));
    }

    /** Ask the chain about a transfer without sending anything; a confirmation that is reported is sound. */
    method Reconcile(op: string, env: Env, answers: Answers) returns (r: Result<(Txid, Reported), TransferError>)
      modifies this, repository
      ensures var (s', l') := Completed(old(Value()), Reconciling(op, ReconcileGet), env, answers, 0);
              Value() == s' && r == ReturnedReport(l')
      ensures Obeys(env) && SharedInv(old(Value())) ==> SharedInv(Value()) && Evolves(old(Value()), Value())
      ensures Obeys(env) && SharedInv(old(Value())) && r.Success? && r.value.1.ReportConfirmed? ==>
                ReceiptSound(Value(), op, r.value.0, r.value.1.round)
      // It fails exactly when there was no intent, or when the lookup did not answer.
      ensures Obeys(env) && SharedInv(old(Value())) && r.Failure? ==>
                (r.error == Unknown && op !in old(Value()).intents) || (r.error == LookupUnavailable && !answers(1).works)
      // Not confirmed is reported only of an intent that is not, and as expired exactly past its window.
      ensures Obeys(env) && SharedInv(old(Value())) && r.Success? && !r.value.1.ReportConfirmed? ==>
                ReportedRightly(answers, old(Value()), Value(), op, r.value.0, r.value.1)
      // A working lookup that finds the transaction leads to its confirmation.
      ensures Obeys(env) && SharedInv(old(Value())) && FoundBefore(answers, old(Value()), op) ==>
                r.Success? && r.value.1.ReportConfirmed?
    {
      hide Completed, SharedInv, Evolves, Obeys, Leads;
      ghost var start := Value();
      ghost var first := Reconciling(op, ReconcileGet);
      if Obeys(env) && SharedInv(start) {
        CallKeeps(start, first, env, answers, 0);
        CallReports(op, start, first, env, answers, 0);
        ReconcileReports(env, answers, start, op);
      }
      StartsHere(env, answers, start, first);
      Advance(env, answers, start, first, Value(), first, 0);
      Pause(env, 0);
      var found := repository.Get(op);
      if found.None? {
        Ends(env, answers, start, first, Value(), Failed(Unknown), 1);
        return Failure(Unknown);
      }
      var i := found.value;
      if i.status == StatusConfirmed {
        Ends(env, answers, start, first, Value(), ReportOr(op, i, first), 1);
        return ConfirmationOf(i);
      }
      Advance(env, answers, start, first, Value(), Reconciling(op, ReconcileLookup(i)), 1);
      Pause(env, 1);
      if !answers(1).works {
        Ends(env, answers, start, first, Value(), Failed(LookupUnavailable), 2);
        return Failure(LookupUnavailable);
      }
      if answers(1).found && i.txid in node.confirmed {
        r := ConfirmReconciled(start, op, i, node.confirmed[i.txid], env, answers, 2);
      } else {
        r := ReloadAndReport(start, op, i, env, answers, 2);
      }
    }
  }
}

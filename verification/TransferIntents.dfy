/**
 * The persisted intent of an outbound transfer and its guarded updates
 * (flex/db/asset_transfer_intents.py). Each update is one atomic operation on one document.
 */
module TransferIntents {
  import opened Wrappers
  import opened LpDomain

  /** A transfer that a caller asks for under an idempotency key. */
  datatype Request = Request(operationId: string, receiver: string, assetId: nat, amount: nat, note: Option<string>)

  /** What a signed transaction says; its lease is derived from the operation ID. */
  datatype SignedTxn = SignedTxn(
    operationId: string, receiver: string, assetId: nat, amount: nat, note: Option<string>,
    firstValid: nat, lastValid: nat, salt: nat)

  /** A transaction ID is an injective hash of the signed content. */
  datatype Txid = Txid(content: SignedTxn)

  datatype Prepared = Prepared(signed: SignedTxn, txid: Txid, firstValid: nat, lastValid: nat)

  datatype Status = StatusPrepared | StatusSubmitted | StatusConfirmed

  datatype Intent = Intent(
    receiver: string, assetId: nat, amount: nat, note: Option<string>,
    signed: SignedTxn, txid: Txid, firstValid: nat, lastValid: nat,
    status: Status, confirmedRound: Option<nat>, attempts: nat)
  {
    /** The part of an intent that no operation may change. */
    function Core(): (string, nat, nat, Option<string>, SignedTxn, Txid, nat, nat) {
      (receiver, assetId, amount, note, signed, txid, firstValid, lastValid)
    }

    predicate SameTransfer(request: Request) {
      receiver == request.receiver && assetId == request.assetId && amount == request.amount && note == request.note
    }
  }

  function NewIntent(request: Request, prepared: Prepared): Intent {
    Intent(request.receiver, request.assetId, request.amount, request.note,
           prepared.signed, prepared.txid, prepared.firstValid, prepared.lastValid, StatusPrepared, None, 0)
  }

  datatype Update = RecordAttempt | MarkSubmitted | RecordError

  datatype PersistenceError = IntentChanged | CannotConfirm | InvalidConfirmedRound

  function Updated(i: Intent, u: Update): Intent {
    match u
    case RecordAttempt => i.(attempts := i.attempts + 1)
    case MarkSubmitted => i.(status := StatusSubmitted)
    case RecordError => i
  }

  type Intents = map<string, Intent>

  /** Insert an intent unless its operation already has one. */
  function Reserved(intents: Intents, op: string, i: Intent): Intents {
    if op in intents then intents else intents[op := i]
  }

  predicate NonTerminal(intents: Intents, op: string, txid: Txid) {
    op in intents && intents[op].txid == txid && intents[op].status != StatusConfirmed
  }

  /** The update of an intent that is not confirmed yet; None when the guard misses. */
  function UpdatedNonTerminal(intents: Intents, op: string, txid: Txid, u: Update): Option<Intents> {
    if NonTerminal(intents, op, txid) then Some(intents[op := Updated(intents[op], u)]) else None
  }

  /** After a miss, only an intent that is confirmed under the same transaction is an answer. */
  function ConfirmedInstead(intents: Intents, op: string, txid: Txid): Option<Intent> {
    if op in intents && intents[op].txid == txid && intents[op].status == StatusConfirmed then Some(intents[op]) else None
  }

  function MarkedConfirmed(intents: Intents, op: string, txid: Txid, round: nat): Option<Intents> {
    if NonTerminal(intents, op, txid) then
      Some(intents[op := intents[op].(status := StatusConfirmed, confirmedRound := Some(round))])
    else None
  }

  /** The immutable parts of two collections agree, and a confirmed intent is the same in both. */
  ghost predicate IntentsEvolve(a: Intents, b: Intents) {
    forall op | op in a ::
      op in b && b[op].Core() == a[op].Core() && (a[op].status == StatusConfirmed ==> b[op] == a[op])
  }

  class MongoAssetTransferIntentRepository {
    var intents: Intents

    constructor ()
      ensures intents == map[]
    {
      intents := map[];
    }

    method Get(op: string) returns (r: Option<Intent>)
      ensures r == if op in intents then Some(intents[op]) else None
    {
      r := if op in intents then Some(intents[op]) else None;
    }

    method Reserve(op: string, intent: Intent) returns (reserved: Intent)
      modifies this
      ensures intents == Reserved(old(intents), op, intent) && op in intents && reserved == intents[op]
      ensures reserved == if op in old(intents) then old(intents)[op] else intent
      ensures forall other | other != op :: other in intents <==> other in old(intents)
      ensures forall other | other in old(intents) :: intents[other] == old(intents)[other]
      ensures IntentsEvolve(old(intents), intents)
    {
      if op !in intents {
        intents := intents[op := intent];
      }
      reserved := intents[op];
    }

    /** The guarded update; the answer is the new document, or nothing when the guard missed. */
    method TryUpdate(op: string, txid: Txid, u: Update) returns (r: Option<Intent>)
      modifies this
      // Exactly an unconfirmed intent of this transaction is updated, in the one field that the update is about.
      ensures r.Some? <==> op in old(intents) && old(intents)[op].txid == txid && old(intents)[op].status != StatusConfirmed
      ensures r.Some? ==>
                && r.value.Core() == old(intents)[op].Core() && r.value.confirmedRound == old(intents)[op].confirmedRound
                && r.value.attempts == old(intents)[op].attempts + (if u.RecordAttempt? then 1 else 0)
                && r.value.status == (if u.MarkSubmitted? then StatusSubmitted else old(intents)[op].status)
      ensures forall other | other != op :: other in intents <==> other in old(intents)
      ensures forall other | other in old(intents) && other != op :: intents[other] == old(intents)[other]
      ensures var after := UpdatedNonTerminal(old(intents), op, txid, u);
              if after.Some? then intents == after.value && op in intents && r == Some(intents[op])
              else intents == old(intents) && r.None?
      ensures IntentsEvolve(old(intents), intents)
    {
      if op in intents && intents[op].txid == txid && intents[op].status != StatusConfirmed {
        var i := intents[op];
        match u {
          case RecordAttempt => i := i.(attempts := i.attempts + 1);
          case MarkSubmitted => i := i.(status := StatusSubmitted);
          case RecordError =>
        }
        intents := intents[op := i];
        return Some(i);
      }
      return None;
    }

    method TryConfirm(op: string, txid: Txid, round: nat) returns (r: Option<Intent>)
      modifies this
      // Exactly an unconfirmed intent of this transaction is confirmed, once and in this round.
      ensures r.Some? <==> op in old(intents) && old(intents)[op].txid == txid && old(intents)[op].status != StatusConfirmed
      ensures r.Some? ==>
                && r.value.Core() == old(intents)[op].Core() && r.value.attempts == old(intents)[op].attempts
                && r.value.status == StatusConfirmed && r.value.confirmedRound == Some(round)
      ensures forall other | other != op :: other in intents <==> other in old(intents)
      ensures forall other | other in old(intents) && other != op :: intents[other] == old(intents)[other]
      ensures var after := MarkedConfirmed(old(intents), op, txid, round);
              if after.Some? then intents == after.value && op in intents && r == Some(intents[op])
              else intents == old(intents) && r.None?
      ensures IntentsEvolve(old(intents), intents)
    {
      if op in intents && intents[op].txid == txid && intents[op].status != StatusConfirmed {
        var i := intents[op].(status := StatusConfirmed, confirmedRound := Some(round));
        intents := intents[op := i];
        return Some(i);
      }
      return None;
    }
  }
}

/**
 * What an operation of a transfer must lead to, and not only what it must not do: which side of the
 * validity window leads where, that the stored bytes are handed to the node, and that a transfer whose
 * broadcast is confirmed in time ends with a receipt (flex/application/asset_transfers.py).
 */
module TransferProgress {
  import opened TransferIntents
  import opened AssetTransfers

  /** The call is about to learn the current round. */
  predicate ReadsRound(l: Local) {
    l.Executing? && l.pc.CheckRound?
  }

  /** The round is not known yet. */
  predicate Early(l: Local) {
    l.Executing? && (l.pc.Get? || l.pc.Prepare? || l.pc.Reserve? || l.pc.CheckRound?)
  }

  /** The round was past the last valid one: look the transaction up, and never broadcast it again. */
  predicate Late(l: Local) {
    match l
    case Executing(_, pc) =>
      pc.ExpiredLookup? || (pc.Updating? && pc.after == ThenExpired) || (pc.Confirming? && pc.already)
    case Done(_) => true
    case Failed(error) => error == Expired || error == Changed || error == MissingRound
    case _ => false
  }

  /** The round was within the window: attempt, broadcast, wait. */
  predicate InTime(l: Local) {
    match l
    case Executing(_, pc) =>
      pc.Send? || pc.Wait? || (pc.Updating? && pc.after != ThenExpired) || (pc.Confirming? && !pc.already)
    case Done(_) => true
    case Failed(error) => error == Pending || error == Changed || error == MissingRound
    case _ => false
  }

  /** The round that is read decides, and the call then stays on its side; only within the window is anything sent. */
  lemma WindowStep(s: Shared, request: Request, pc: ExecPc, a: Answer)
    ensures var l := Executing(request, pc);
            var (s', l') := ExecuteNext(s, request, pc, a);
            && (ReadsRound(l) ==> l'.Executing? && if a.round > pc.intent.lastValid then Late(l') else InTime(l'))
            && (Early(l') ==> Early(l) && !ReadsRound(l))
            && (Early(l) && !ReadsRound(l) && l'.Executing? ==> Early(l'))
            && (Early(l) && l'.Failed? ==> l'.error != Expired && l'.error != Pending)
            && (Late(l) ==> Late(l')) && (InTime(l) ==> InTime(l'))
            && (s'.node.sent != s.node.sent ==> InTime(l))
  {
    hide BytesMatch, Sign, UpdatedNonTerminal, MarkedConfirmed, ConfirmedInstead, Reserved;
  }

  /** A call that goes the way of an expired transaction has the intent in hand whose window the round is past. */
  lemma LateStep(s: Shared, request: Request, pc: ExecPc, a: Answer)
    ensures var l := Executing(request, pc);
            var l' := ExecuteNext(s, request, pc, a).1;
            && (l'.Executing? && Late(l') ==>
                  && (Late(l) || (ReadsRound(l) && a.round > pc.intent.lastValid))
                  && l'.pc.intent == pc.intent)
            && (l' == Failed(Expired) ==> Late(l))
  {
    hide BytesMatch, Sign, UpdatedNonTerminal, MarkedConfirmed, ConfirmedInstead, Reserved;
  }

  /** How a transfer can fail at all. */
  lemma FailureStep(s: Shared, request: Request, pc: ExecPc, a: Answer)
    ensures var l' := ExecuteNext(s, request, pc, a).1;
            l'.Failed? ==>
              && l'.error in {InvalidPrepared, Conflict, Changed, Expired, Pending, MissingRound}
              && (l'.error == InvalidPrepared ==> a.firstValid > a.lastValid)
  {
    hide BytesMatch, Sign, UpdatedNonTerminal, MarkedConfirmed, ConfirmedInstead, Reserved;
  }

  /** Whatever an operation gives to the network says what the request says, whatever the stored intent looks like. */
  lemma SentMatchesRequest(s: Shared, request: Request, pc: ExecPc, a: Answer)
    ensures var s' := ExecuteNext(s, request, pc, a).0;
            s'.node.sent == s.node.sent || (exists b :: s'.node.sent == s.node.sent + [b] && Says(b, request))
  {
    hide Sign, UpdatedNonTerminal, MarkedConfirmed, ConfirmedInstead, Reserved;
    var s' := ExecuteNext(s, request, pc, a).0;
    if s'.node.sent != s.node.sent {
      var b := Broadcast(request.operationId, pc.intent.signed, pc.intent.txid);
      assert s'.node.sent == s.node.sent + [b] && Says(b, request);
    }
  }

  /** A broadcast of exactly the requested transfer, under its own transaction ID. */
  predicate Says(b: Broadcast, request: Request) {
    && b.operationId == request.operationId && b.signed.operationId == request.operationId && b.txid == Txid(b.signed)
    && b.signed.receiver == request.receiver && b.signed.assetId == request.assetId
    && b.signed.amount == request.amount && b.signed.note == request.note
  }

  lemma Sides(l: Local)
    requires l.Executing?
    ensures Early(l) || Late(l) || InTime(l)
    ensures !(Early(l) && Late(l)) && !(Early(l) && InTime(l)) && !(Late(l) && InTime(l))
  {
  }

  /** What is confirmed has been given to the network, and as the stored bytes. */
  lemma ConfirmedIsGiven(s: Shared, op: string)
    requires SharedInv(s) && op in s.intents && s.intents[op].status == StatusConfirmed
    ensures Given(s, op)
  {
    SoundIntent(s, op);
    assert WasSent(s, s.intents[op].txid);
    var b :| b in s.node.sent && b.txid == s.intents[op].txid;
    assert BroadcastSound(s, b);
    SoundIntent(s, b.operationId);
    assert b.operationId == op;
    assert b == Broadcast(op, s.intents[op].signed, s.intents[op].txid);
  }

  // ---- a transfer that comes through ----

  /** The gateway does what it is asked, at a round up to the limit; what it signs is valid at least until then. */
  predicate Works(a: Answer, limit: nat) {
    a.works && a.found && a.firstValid <= a.lastValid && a.round <= limit <= a.lastValid
  }

  /** Between two moments everything that had been sent was confirmed. */
  ghost predicate Confirms(s: Shared, s': Shared) {
    forall b | b in s.node.sent :: b.txid in s'.node.confirmed
  }

  /** The transaction can still be confirmed, or it is already. */
  predicate Payable(s: Shared, i: Intent, limit: nat) {
    limit <= i.lastValid || i.txid in s.node.confirmed
  }

  /** A stored intent of the operation is for this transfer, and valid for long enough or confirmed on chain. */
  predicate Fits(s: Shared, request: Request, limit: nat) {
    request.operationId in s.intents ==>
      s.intents[request.operationId].SameTransfer(request) && Payable(s, s.intents[request.operationId], limit)
  }

  /** What fits for one operation is not touched by the transfer of another. */
  lemma FitsStays(s: Shared, s': Shared, request: Request, limit: nat)
    requires Evolves(s, s') && Fits(s, request, limit)
    requires request.operationId in s'.intents ==> request.operationId in s.intents
    ensures Fits(s', request, limit)
  {
  }

  /** The call is on the way to a receipt, or has one. */
  predicate OnCourse(s: Shared, l: Local, limit: nat) {
    match l
    case Executing(_, pc) =>
      (match pc
       case Reserve(prepared) => limit <= prepared.lastValid
       case CheckRound(i) => Payable(s, i, limit)
       case ExpiredLookup(i) => i.txid in s.node.confirmed
       case Updating(_, after, _) => after == ThenSend || after == ThenWait
       case _ => true)
    case Done(_) => true
    case _ => false
  }

  /** With a working gateway and a chain that confirms what was sent, every operation leads on towards the receipt. */
  lemma CourseStep(s: Shared, s1: Shared, request: Request, pc: ExecPc, a: Answer, limit: nat)
    requires SharedInv(s) && SharedInv(s1) && Evolves(s, s1) && Confirms(s, s1)
    requires ExecInv(s, request, pc) && ExecInv(s1, request, pc)
    requires Works(a, limit) && OnCourse(s, Executing(request, pc), limit)
    requires Fits(s1, request, limit)
    ensures OnCourse(ExecuteNext(s1, request, pc, a).0, ExecuteNext(s1, request, pc, a).1, limit)
    ensures Fits(ExecuteNext(s1, request, pc, a).0, request, limit)
  {
    hide SharedInv, BytesMatch, Evolves;
    if request.operationId in s1.intents {
      SoundIntent(s1, request.operationId);
    }
    match pc {
      case Wait(i) => WaitFinds(s, s1, request, i);
      case CheckRound(i) => StaysConfirmed(s, s1, i.txid);
      case ExpiredLookup(i) => StaysConfirmed(s, s1, i.txid);
      case _ =>
    }
  }

  lemma StaysConfirmed(s: Shared, s': Shared, txid: Txid)
    requires Evolves(s, s')
    ensures txid in s.node.confirmed ==> txid in s'.node.confirmed
  {
  }

  lemma WaitFinds(s: Shared, s1: Shared, request: Request, i: Intent)
    requires Evolves(s, s1) && Confirms(s, s1) && ExecInv(s, request, Wait(i))
    ensures i.txid in s1.node.confirmed
  {
  }

  // ---- a transfer that the chain has confirmed already ----

  /** The operation's stored transaction, of this transfer, is confirmed on chain, whatever the store knows. */
  predicate OnChain(s: Shared, request: Request) {
    var op := request.operationId;
    op in s.intents && s.intents[op].SameTransfer(request) && s.intents[op].txid in s.node.confirmed
  }

  predicate Finds(a: Answer) {
    a.works && a.found
  }

  predicate FoundCourse(l: Local) {
    match l
    case Executing(_, pc) =>
      !pc.Prepare? && !pc.Reserve? && (pc.Updating? ==> pc.after == ThenSend || pc.after == ThenWait)
    case Done(_) => true
    case _ => false
  }

  /** On either side of the window a lookup that answers leads on towards the receipt. */
  lemma FoundStep(s: Shared, request: Request, pc: ExecPc, a: Answer)
    requires SharedInv(s) && ExecInv(s, request, pc) && OnChain(s, request)
    requires Finds(a) && FoundCourse(Executing(request, pc))
    ensures FoundCourse(ExecuteNext(s, request, pc, a).1)
  {
    hide SharedInv, BytesMatch;
    SoundIntent(s, request.operationId);
  }

  lemma StaysOnChain(s: Shared, s': Shared, request: Request)
    requires Evolves(s, s') && OnChain(s, request)
    ensures OnChain(s', request)
  {
  }
}

/**
 * Outbound transfers as a state machine: any number of callers in `execute` and `reconcile`,
 * the intents they share, and a chain that confirms a broadcast transaction at most once
 * (flex/application/asset_transfers.py).
 */
module AssetTransfers {
  import opened Wrappers
  import opened TransferIntents

  type WorkerId = string

  datatype Broadcast = Broadcast(operationId: string, signed: SignedTxn, txid: Txid)

  /** What the network has been given, and what it has confirmed in which round. */
  datatype Node = Node(sent: seq<Broadcast>, confirmed: map<Txid, nat>)

  datatype Shared = Shared(intents: Intents, node: Node)

  datatype Receipt = Receipt(operationId: string, txid: Txid, confirmedRound: nat, alreadyConfirmed: bool)

  datatype TransferError =
    | InvalidPrepared | Conflict | Changed | Expired | Pending | Unknown | LookupUnavailable | MissingRound

  /** What the gateway answers at one call; every answer is possible, but confirmations are truthful. */
  datatype Answer = Answer(firstValid: nat, lastValid: nat, salt: nat, round: nat, found: bool, works: bool, accepted: bool)

  /** What a caller goes on to after an update of its intent. */
  datatype After = ThenSend | ThenWait | ThenExpired | ThenPending

  datatype ExecPc =
    | Get
    | Prepare
    | Reserve(prepared: Prepared)
    | CheckRound(intent: Intent)
    | ExpiredLookup(intent: Intent)
    | Updating(intent: Intent, after: After, missed: bool)
    | Send(intent: Intent)
    | Wait(intent: Intent)
    | Confirming(intent: Intent, round: nat, already: bool, missed: bool)

  datatype ReconcilePc =
    | ReconcileGet
    | ReconcileLookup(intent: Intent)
    | ReconcileConfirming(intent: Intent, round: nat, missed: bool)
    | ReconcileRound(intent: Intent)
    | ReconcileReload(intent: Intent, current: nat)

  datatype Reported = ReportConfirmed(round: nat) | ReportExpired | ReportStatus(status: Status)

  datatype Local =
    | Idle
    | Executing(request: Request, pc: ExecPc)
    | Reconciling(op: string, rpc: ReconcilePc)
    | Done(receipt: Receipt)
    | Reconciled(op: string, txid: Txid, reported: Reported)
    | Failed(error: TransferError)

  function UpdateOf(after: After): Update {
    match after
    case ThenSend => RecordAttempt
    case ThenWait => MarkSubmitted
    case _ => RecordError
  }

  function ConfirmedReceipt(op: string, i: Intent, already: bool): Local {
    if i.confirmedRound.None? then Failed(MissingRound) else Done(Receipt(op, i.txid, i.confirmedRound.value, already))
  }

  /** With the intent in hand: reject another transfer, return a confirmed one, else look at the clock. */
  function WithIntent(request: Request, i: Intent): Local {
    if !i.SameTransfer(request) then Failed(Conflict)
    else if i.status == StatusConfirmed then ConfirmedReceipt(request.operationId, i, true)
    else Executing(request, CheckRound(i))
  }

  /** After an update has answered with an intent. */
  function Continue(request: Request, i: Intent, after: After): Local {
    if i.status == StatusConfirmed then ConfirmedReceipt(request.operationId, i, true)
    else match after
      case ThenSend => Executing(request, Send(i))
      case ThenWait => Executing(request, Wait(i))
      case ThenExpired => Failed(Expired)
      case ThenPending => Failed(Pending)
  }

  /** The gateway signs what it is asked to send. */
  function Sign(request: Request, a: Answer): Prepared {
    var signed := SignedTxn(request.operationId, request.receiver, request.assetId, request.amount, request.note,
                            a.firstValid, a.lastValid, a.salt);
    Prepared(signed, Txid(signed), a.firstValid, a.lastValid)
  }

  /** The gateway refuses to broadcast bytes that do not say what the request and the intent say. */
  predicate BytesMatch(request: Request, i: Intent) {
    && i.signed.receiver == request.receiver && i.signed.assetId == request.assetId && i.signed.amount == request.amount
    && i.signed.note == request.note && i.signed.operationId == request.operationId
    && i.signed.firstValid == i.firstValid && i.signed.lastValid == i.lastValid && Txid(i.signed) == i.txid
  }

  /** One operation of `execute`. */
  function ExecuteNext(s: Shared, request: Request, pc: ExecPc, a: Answer): (Shared, Local) {
    var op := request.operationId;
    match pc
    case Get =>
      (s, if op in s.intents then WithIntent(request, s.intents[op]) else Executing(request, Prepare))
    case Prepare =>
      (s, if a.firstValid > a.lastValid then Failed(InvalidPrepared) else Executing(request, Reserve(Sign(request, a))))
    case Reserve(prepared) =>
      var intents := Reserved(s.intents, op, NewIntent(request, prepared));
      (s.(intents := intents), WithIntent(request, intents[op]))
    case CheckRound(i) =>
      (s, if a.round > i.lastValid then Executing(request, ExpiredLookup(i))
          else Executing(request, Updating(i, ThenSend, false)))
    case ExpiredLookup(i) =>
      (s, if !a.works then Executing(request, Updating(i, ThenExpired, false))
          else if a.found && i.txid in s.node.confirmed then
            Executing(request, Confirming(i, s.node.confirmed[i.txid], true, false))
          else Executing(request, Updating(i, ThenExpired, false)))
    case Updating(i, after, missed) =>
      if !missed then
        match UpdatedNonTerminal(s.intents, op, i.txid, UpdateOf(after))
        case Some(intents) => (s.(intents := intents), Continue(request, intents[op], after))
        case None => (s, Executing(request, Updating(i, after, true)))
      else
        (match ConfirmedInstead(s.intents, op, i.txid)
         case Some(current) => (s, Continue(request, current, after))
         // An error while marking the submission is caught; the confirmation still decides.
         case None => (s, if after == ThenWait then Executing(request, Wait(i)) else Failed(Changed)))
    case Send(i) =>
      if !BytesMatch(request, i) then (s, Executing(request, Wait(i)))
      else
        var node := s.node.(sent := s.node.sent + [Broadcast(op, i.signed, i.txid)]);
        (s.(node := node),
         // A failure can be reported although the node accepted the transaction.
         if a.works then Executing(request, Updating(i, ThenWait, false)) else Executing(request, Wait(i)))
    case Wait(i) =>
      (s, if a.works && i.txid in s.node.confirmed then
            Executing(request, Confirming(i, s.node.confirmed[i.txid], false, false))
          else Executing(request, Updating(i, ThenPending, false)))
    case Confirming(i, round, already, missed) =>
      if !missed then
        match MarkedConfirmed(s.intents, op, i.txid, round)
        case Some(intents) => (s.(intents := intents), ConfirmedReceipt(op, intents[op], already))
        case None => (s, Executing(request, Confirming(i, round, already, true)))
      else
        (match ConfirmedInstead(s.intents, op, i.txid)
         case Some(current) =>
           (s, if current.confirmedRound == Some(round) then ConfirmedReceipt(op, current, already) else Failed(Changed))
         case None => (s, Failed(Changed)))
  }

  /** One operation of `reconcile`. */
  function ReconcileNext(s: Shared, op: string, pc: ReconcilePc, a: Answer): (Shared, Local) {
    match pc
    case ReconcileGet =>
      (s, if op !in s.intents then Failed(Unknown) else ReportOr(op, s.intents[op], Reconciling(op, ReconcileLookup(s.intents[op]))))
    case ReconcileLookup(i) =>
      (s, if !a.works then Failed(LookupUnavailable)
          else if a.found && i.txid in s.node.confirmed then
            Reconciling(op, ReconcileConfirming(i, s.node.confirmed[i.txid], false))
          else Reconciling(op, ReconcileRound(i)))
    case ReconcileConfirming(i, round, missed) =>
      if !missed then
        match MarkedConfirmed(s.intents, op, i.txid, round)
        case Some(intents) => (s.(intents := intents), Reconciled(op, i.txid, ReportConfirmed(round)))
        case None => (s, Reconciling(op, ReconcileConfirming(i, round, true)))
      else
        (match ConfirmedInstead(s.intents, op, i.txid)
         case Some(current) =>
           (s, if current.confirmedRound == Some(round) then Reconciled(op, current.txid, ReportConfirmed(round)) else Failed(Changed))
         case None => (s, Failed(Changed)))
    case ReconcileRound(i) => (s, Reconciling(op, ReconcileReload(i, a.round)))
    case ReconcileReload(i, current) =>
      (s, if op !in s.intents then Failed(Unknown)
          else if s.intents[op].txid != i.txid then Failed(Conflict)
          else
            var latest := s.intents[op];
            ReportOr(op, latest, Reconciled(op, latest.txid,
              if current > latest.lastValid then ReportExpired else ReportStatus(latest.status))))
  }

  function ReportOr(op: string, i: Intent, otherwise: Local): Local {
    if i.status != StatusConfirmed then otherwise
    else if i.confirmedRound.None? then Failed(MissingRound)
    else Reconciled(op, i.txid, ReportConfirmed(i.confirmedRound.value))
  }

  datatype Action =
    | StartExecute(request: Request)
    | StartReconcile(op: string)
    | Operate(answer: Answer)
    | Crash
    | ConfirmOnChain(index: nat, round: nat)

  /** One step: of a caller, or of the chain, which confirms something that was broadcast. */
  function Act(s: Shared, l: Local, a: Action): (Shared, Local) {
    match a
    case StartExecute(request) => (s, if l.Executing? || l.Reconciling? then l else Executing(request, Get))
    case StartReconcile(op) => (s, if l.Executing? || l.Reconciling? then l else Reconciling(op, ReconcileGet))
    case Operate(answer) =>
      if l.Executing? then ExecuteNext(s, l.request, l.pc, answer)
      else if l.Reconciling? then ReconcileNext(s, l.op, l.rpc, answer)
      else (s, l)
    case Crash => (s, Idle)
    case ConfirmOnChain(index, round) =>
      if index < |s.node.sent| && s.node.sent[index].txid !in s.node.confirmed then
        (s.(node := s.node.(confirmed := s.node.confirmed[s.node.sent[index].txid := round])), l)
      else (s, l)
  }

  // ---- what every step keeps ----

  /** An intent says what its signed bytes say, and a confirmed one agrees with the chain. */
  ghost predicate IntentSound(s: Shared, op: string)
    requires op in s.intents
  {
    var i := s.intents[op];
    && BytesMatch(Request(op, i.receiver, i.assetId, i.amount, i.note), i)
    && (if i.status == StatusConfirmed then
          i.confirmedRound.Some? && i.txid in s.node.confirmed && s.node.confirmed[i.txid] == i.confirmedRound.value
        else i.confirmedRound.None?)
  }

  /** Whatever was given to the network is the one intent's transaction, bytes and ID. */
  ghost predicate BroadcastSound(s: Shared, b: Broadcast) {
    b.operationId in s.intents && b.signed == s.intents[b.operationId].signed && b.txid == s.intents[b.operationId].txid
  }

  ghost predicate WasSent(s: Shared, txid: Txid) {
    exists b | b in s.node.sent :: b.txid == txid
  }

  ghost predicate SharedInv(s: Shared) {
    && (forall op | op in s.intents :: IntentSound(s, op))
    && (forall b | b in s.node.sent :: BroadcastSound(s, b))
    && (forall txid | txid in s.node.confirmed :: WasSent(s, txid))
  }

  /** An intent that a caller holds is the stored one, up to what others may have added since. */
  ghost predicate Held(s: Shared, op: string, i: Intent) {
    op in s.intents && s.intents[op].Core() == i.Core() && (i.status == StatusConfirmed ==> s.intents[op] == i)
  }

  /** The stored bytes of the operation have been given to the network. */
  ghost predicate Given(s: Shared, op: string) {
    op in s.intents && Broadcast(op, s.intents[op].signed, s.intents[op].txid) in s.node.sent
  }

  ghost predicate ConfirmedIn(s: Shared, txid: Txid, round: nat) {
    txid in s.node.confirmed && s.node.confirmed[txid] == round
  }

  ghost predicate ExecInv(s: Shared, request: Request, pc: ExecPc) {
    var op := request.operationId;
    match pc
    case Get => true
    case Prepare => true
    case Reserve(prepared) => exists a: Answer :: prepared == Sign(request, a)
    case Confirming(i, round, _, missed) =>
      Held(s, op, i) && i.SameTransfer(request) && ConfirmedIn(s, i.txid, round)
      && (missed ==> s.intents[op].status == StatusConfirmed)
    case Updating(i, after, missed) =>
      Held(s, op, i) && i.SameTransfer(request) && (missed ==> s.intents[op].status == StatusConfirmed)
      && (after == ThenWait || after == ThenPending ==> Given(s, op))
    case Wait(i) => Held(s, op, i) && i.SameTransfer(request) && Given(s, op)
    case _ => Held(s, op, pc.intent) && pc.intent.SameTransfer(request)
  }

  ghost predicate ReconcileInv(s: Shared, op: string, pc: ReconcilePc) {
    match pc
    case ReconcileGet => true
    case ReconcileConfirming(i, round, missed) =>
      Held(s, op, i) && ConfirmedIn(s, i.txid, round) && (missed ==> s.intents[op].status == StatusConfirmed)
    case _ => Held(s, op, pc.intent)
  }

  /** A receipt names the intent's transaction and the round in which the chain confirmed it. */
  ghost predicate ReceiptSound(s: Shared, op: string, txid: Txid, round: nat) {
    op in s.intents && s.intents[op].status == StatusConfirmed && s.intents[op].txid == txid
    && s.intents[op].confirmedRound == Some(round) && ConfirmedIn(s, txid, round)
  }

  ghost predicate LocalInv(s: Shared, l: Local) {
    match l
    case Idle => true
    case Executing(request, pc) => ExecInv(s, request, pc)
    case Reconciling(op, pc) => ReconcileInv(s, op, pc)
    case Done(receipt) => ReceiptSound(s, receipt.operationId, receipt.txid, receipt.confirmedRound)
    case Reconciled(op, txid, reported) => reported.ReportConfirmed? ==> ReceiptSound(s, op, txid, reported.round)
    // The store never contradicts a caller.
    case Failed(error) => error != Changed && error != MissingRound
  }

  /** Intents keep their immutable part, confirmations and broadcasts only accumulate. */
  ghost predicate Evolves(s: Shared, s': Shared) {
    && IntentsEvolve(s.intents, s'.intents)
    && |s.node.sent| <= |s'.node.sent| && s'.node.sent[..|s.node.sent|] == s.node.sent
    && (forall txid | txid in s.node.confirmed ::
          txid in s'.node.confirmed && s'.node.confirmed[txid] == s.node.confirmed[txid])
  }

  lemma EvolvesTransitive(a: Shared, b: Shared, c: Shared)
    requires Evolves(a, b) && Evolves(b, c)
    ensures Evolves(a, c)
  {
    assert c.node.sent[..|a.node.sent|] == c.node.sent[..|b.node.sent|][..|a.node.sent|];
  }

  lemma Stable(s: Shared, s': Shared, l: Local)
    requires Evolves(s, s') && LocalInv(s, l)
    ensures LocalInv(s', l)
  {
  }

  /** Changing intents only keeps the rest sound. */
  lemma IntentsKeep(s: Shared, intents: Intents, op: string)
    requires SharedInv(s) && IntentsEvolve(s.intents, intents) && op in intents
    requires intents == s.intents[op := intents[op]]
    requires IntentSound(s.(intents := intents), op)
    ensures SharedInv(s.(intents := intents)) && Evolves(s, s.(intents := intents))
  {
    var s' := s.(intents := intents);
    forall o | o in s'.intents ensures IntentSound(s', o) {
      if o != op {
        assert IntentSound(s, o);
      }
    }
    forall b | b in s'.node.sent ensures BroadcastSound(s', b) {
      assert BroadcastSound(s, b);
    }
    forall txid | txid in s'.node.confirmed ensures WasSent(s', txid) {
      assert WasSent(s, txid);
    }
  }

  lemma ReserveKeeps(s: Shared, request: Request, prepared: Prepared)
    requires SharedInv(s) && ExecInv(s, request, Reserve(prepared))
    ensures var intents := Reserved(s.intents, request.operationId, NewIntent(request, prepared));
            SharedInv(s.(intents := intents)) && Evolves(s, s.(intents := intents))
  {
    var op := request.operationId;
    if op !in s.intents {
      var intents := Reserved(s.intents, op, NewIntent(request, prepared));
      assert BytesMatch(request, NewIntent(request, prepared));
      IntentsKeep(s, intents, op);
    } else {
      assert s.(intents := s.intents) == s;
    }
  }

  lemma UpdateKeeps(s: Shared, op: string, txid: Txid, u: Update)
    requires SharedInv(s) && UpdatedNonTerminal(s.intents, op, txid, u).Some?
    ensures var s' := s.(intents := UpdatedNonTerminal(s.intents, op, txid, u).value);
            SharedInv(s') && Evolves(s, s')
  {
    assert IntentSound(s, op);
    IntentsKeep(s, UpdatedNonTerminal(s.intents, op, txid, u).value, op);
  }

  lemma ConfirmKeeps(s: Shared, op: string, txid: Txid, round: nat)
    requires SharedInv(s) && MarkedConfirmed(s.intents, op, txid, round).Some? && ConfirmedIn(s, txid, round)
    ensures var s' := s.(intents := MarkedConfirmed(s.intents, op, txid, round).value);
            SharedInv(s') && Evolves(s, s') && ReceiptSound(s', op, txid, round)
  {
    assert IntentSound(s, op);
    IntentsKeep(s, MarkedConfirmed(s.intents, op, txid, round).value, op);
  }

  lemma SendKeeps(s: Shared, op: string, i: Intent)
    requires SharedInv(s) && Held(s, op, i)
    ensures var s' := s.(node := s.node.(sent := s.node.sent + [Broadcast(op, i.signed, i.txid)]));
            SharedInv(s') && Evolves(s, s')
  {
    var s' := s.(node := s.node.(sent := s.node.sent + [Broadcast(op, i.signed, i.txid)]));
    forall o | o in s'.intents ensures IntentSound(s', o) {
      assert IntentSound(s, o);
    }
    forall b | b in s'.node.sent ensures BroadcastSound(s', b) {
      if b in s.node.sent {
        assert BroadcastSound(s, b);
      }
    }
    forall txid | txid in s'.node.confirmed ensures WasSent(s', txid) {
      assert WasSent(s, txid);
      var b :| b in s.node.sent && b.txid == txid;
      assert b in s'.node.sent;
    }
  }

  lemma SoundIntent(s: Shared, op: string)
    requires SharedInv(s) && op in s.intents
    ensures IntentSound(s, op)
  {
  }

  ghost predicate Kept(s: Shared, next: (Shared, Local)) {
    SharedInv(next.0) && Evolves(s, next.0) && LocalInv(next.0, next.1)
  }

  lemma ReadKeeps(s: Shared, request: Request, pc: ExecPc, a: Answer)
    requires SharedInv(s) && ExecInv(s, request, pc)
    requires pc.Get? || pc.Prepare? || pc.CheckRound? || pc.ExpiredLookup? || pc.Wait?
    ensures Kept(s, ExecuteNext(s, request, pc, a))
  {
    hide SharedInv, Evolves;
    SelfEvolves(s);
    if request.operationId in s.intents {
      SoundIntent(s, request.operationId);
    }
  }

  lemma ReserveStepKeeps(s: Shared, request: Request, pc: ExecPc, a: Answer)
    requires SharedInv(s) && ExecInv(s, request, pc) && pc.Reserve?
    ensures Kept(s, ExecuteNext(s, request, pc, a))
  {
    hide SharedInv, Evolves, Sign, BytesMatch;
    ReserveKeeps(s, request, pc.prepared);
    SoundIntent(s.(intents := Reserved(s.intents, request.operationId, NewIntent(request, pc.prepared))), request.operationId);
  }

  lemma UpdatingKeeps(s: Shared, request: Request, pc: ExecPc, a: Answer)
    requires SharedInv(s) && ExecInv(s, request, pc) && pc.Updating?
    ensures Kept(s, ExecuteNext(s, request, pc, a))
  {
    hide SharedInv, Evolves, BytesMatch;
    var op := request.operationId;
    SelfEvolves(s);
    SoundIntent(s, op);
    if !pc.missed && NonTerminal(s.intents, op, pc.intent.txid) {
      UpdateKeeps(s, op, pc.intent.txid, UpdateOf(pc.after));
    }
  }

  /** The gateway's own check never stands in the way of a stored intent. */
  lemma StoredBytesMatch(s: Shared, request: Request, i: Intent)
    requires SharedInv(s) && Held(s, request.operationId, i) && i.SameTransfer(request)
    ensures BytesMatch(request, i)
  {
    SoundIntent(s, request.operationId);
  }

  lemma SendStepKeeps(s: Shared, request: Request, pc: ExecPc, a: Answer)
    requires SharedInv(s) && ExecInv(s, request, pc) && pc.Send?
    ensures Kept(s, ExecuteNext(s, request, pc, a))
  {
    hide SharedInv, Evolves;
    StoredBytesMatch(s, request, pc.intent);
    SendKeeps(s, request.operationId, pc.intent);
  }

  lemma ConfirmingKeeps(s: Shared, request: Request, pc: ExecPc, a: Answer)
    requires SharedInv(s) && ExecInv(s, request, pc) && pc.Confirming?
    ensures Kept(s, ExecuteNext(s, request, pc, a))
  {
    hide SharedInv, Evolves, BytesMatch;
    var op := request.operationId;
    SelfEvolves(s);
    SoundIntent(s, op);
    if !pc.missed && NonTerminal(s.intents, op, pc.intent.txid) {
      ConfirmKeeps(s, op, pc.intent.txid, pc.round);
    }
  }

  lemma ExecuteKeeps(s: Shared, request: Request, pc: ExecPc, a: Answer)
    requires SharedInv(s) && ExecInv(s, request, pc)
    ensures Kept(s, ExecuteNext(s, request, pc, a))
  {
    hide SharedInv, Evolves, LocalInv, ExecuteNext, ExecInv, Kept;
    match pc {
      case Reserve(_) => ReserveStepKeeps(s, request, pc, a);
      case Updating(_, _, _) => UpdatingKeeps(s, request, pc, a);
      case Send(_) => SendStepKeeps(s, request, pc, a);
      case Confirming(_, _, _, _) => ConfirmingKeeps(s, request, pc, a);
      case _ => ReadKeeps(s, request, pc, a);
    }
  }

  lemma ReconcileKeeps(s: Shared, op: string, pc: ReconcilePc, a: Answer)
    requires SharedInv(s) && ReconcileInv(s, op, pc)
    ensures var (s', l') := ReconcileNext(s, op, pc, a);
            SharedInv(s') && Evolves(s, s') && LocalInv(s', l')
  {
    if op in s.intents {
      assert IntentSound(s, op);
    }
    if pc.ReconcileConfirming? && !pc.missed && NonTerminal(s.intents, op, pc.intent.txid) {
      ConfirmKeeps(s, op, pc.intent.txid, pc.round);
    }
  }

  /** One operation of a transfer creates an intent only for its own request. */
  lemma OnlyOwnIntent(s: Shared, request: Request, pc: ExecPc, a: Answer, op: string)
    requires var s' := ExecuteNext(s, request, pc, a).0; op in s'.intents && op !in s.intents
    ensures op == request.operationId
    ensures ExecuteNext(s, request, pc, a).0.intents[op].SameTransfer(request)
  {
    hide BytesMatch, Sign;
  }

  /** A transfer goes on with its own request, and its receipt names its own operation. */
  lemma PayStaysOwn(s: Shared, request: Request, pc: ExecPc, a: Answer)
    ensures var l' := ExecuteNext(s, request, pc, a).1;
            (l'.Executing? ==> l'.request == request) && (l'.Done? ==> l'.receipt.operationId == request.operationId)
  {
    hide BytesMatch, Sign, UpdatedNonTerminal, MarkedConfirmed, ConfirmedInstead, Reserved;
  }

  lemma ReconcileAddsNothing(s: Shared, op: string, pc: ReconcilePc, a: Answer)
    ensures ReconcileNext(s, op, pc, a).0.intents.Keys == s.intents.Keys
    ensures !ReconcileNext(s, op, pc, a).1.Executing?
  {
  }

  lemma ChainKeeps(s: Shared, index: nat, round: nat)
    requires SharedInv(s) && index < |s.node.sent| && s.node.sent[index].txid !in s.node.confirmed
    ensures var s' := s.(node := s.node.(confirmed := s.node.confirmed[s.node.sent[index].txid := round]));
            SharedInv(s') && Evolves(s, s')
  {
    var s' := s.(node := s.node.(confirmed := s.node.confirmed[s.node.sent[index].txid := round]));
    forall o | o in s'.intents ensures IntentSound(s', o) {
      assert IntentSound(s, o);
    }
    forall b | b in s'.node.sent ensures BroadcastSound(s', b) {
      assert BroadcastSound(s, b);
    }
    forall txid | txid in s'.node.confirmed ensures WasSent(s', txid) {
      assert s.node.sent[index] in s'.node.sent;
      assert txid in s.node.confirmed ==> WasSent(s, txid);
    }
  }

  lemma StepKeeps(s: Shared, l: Local, a: Action)
    requires SharedInv(s) && LocalInv(s, l)
    ensures var (s', l') := Act(s, l, a);
            SharedInv(s') && Evolves(s, s') && LocalInv(s', l')
  {
    hide SharedInv, Evolves;
    SelfEvolves(s);
    match a
    case Operate(answer) =>
      if l.Executing? {
        ExecuteKeeps(s, l.request, l.pc, answer);
      } else if l.Reconciling? {
        ReconcileKeeps(s, l.op, l.rpc, answer);
      }
    case ConfirmOnChain(index, round) =>
      if index < |s.node.sent| && s.node.sent[index].txid !in s.node.confirmed {
        ChainKeeps(s, index, round);
        Stable(s, Act(s, l, a).0, l);
      }
    case _ =>
  }

  lemma SelfEvolves(s: Shared)
    ensures Evolves(s, s)
  {
  }

  // ---- every run ----

  datatype System = System(shared: Shared, workers: map<WorkerId, Local>) {
    function LocalOf(me: WorkerId): Local {
      if me in workers then workers[me] else Idle
    }
  }

  datatype Step = Step(worker: WorkerId, action: Action)

  const Empty: System := System(Shared(map[], Node([], map[])), map[])

  function Next(s: System, step: Step): System {
    var (shared, l) := Act(s.shared, s.LocalOf(step.worker), step.action);
    System(shared, s.workers[step.worker := l])
  }

  function Run(s: System, schedule: seq<Step>): System {
    if schedule == [] then s else Next(Run(s, schedule[..|schedule| - 1]), schedule[|schedule| - 1])
  }

  ghost predicate SystemInv(s: System) {
    SharedInv(s.shared) && forall me | me in s.workers :: LocalInv(s.shared, s.workers[me])
  }

  lemma NextKeeps(s: System, step: Step)
    requires SystemInv(s)
    ensures SystemInv(Next(s, step)) && Evolves(s.shared, Next(s, step).shared)
  {
    hide SharedInv, LocalInv, Evolves, Act;
    var s' := Next(s, step);
    IdleIsFine(s.shared);
    StepKeeps(s.shared, s.LocalOf(step.worker), step.action);
    forall me | me in s'.workers ensures LocalInv(s'.shared, s'.workers[me]) {
      if me != step.worker {
        Stable(s.shared, s'.shared, s.workers[me]);
      }
    }
  }

  lemma IdleIsFine(s: Shared)
    ensures LocalInv(s, Idle)
  {
  }

  lemma {:induction false} RunKeeps(s: System, schedule: seq<Step>)
    requires SystemInv(s)
    ensures SystemInv(Run(s, schedule)) && Evolves(s.shared, Run(s, schedule).shared)
  {
    hide SystemInv, Evolves;
    if schedule == [] {
      SelfEvolves(s.shared);
    } else {
      var before := schedule[..|schedule| - 1];
      RunKeeps(s, before);
      NextKeeps(Run(s, before), schedule[|schedule| - 1]);
      EvolvesTransitive(s.shared, Run(s, before).shared, Run(s, schedule).shared);
    }
  }

  lemma {:induction false} RunSplit(s: System, schedule: seq<Step>, n: nat)
    requires n <= |schedule|
    ensures Run(s, schedule) == Run(Run(s, schedule[..n]), schedule[n..])
  {
    hide Next;
    if n == |schedule| {
      assert schedule[..n] == schedule && schedule[n..] == [];
    } else {
      var last := |schedule| - 1;
      RunSplit(s, schedule[..last], n);
      assert schedule[..last][..n] == schedule[..n];
      assert schedule[n..][..|schedule[n..]| - 1] == schedule[..last][n..];
    }
  }

  /** Any two points of a run, the earlier and the later. */
  lemma Along(schedule: seq<Step>, m: nat, n: nat)
    requires m <= n <= |schedule|
    ensures SystemInv(Run(Empty, schedule[..m])) && SystemInv(Run(Empty, schedule[..n]))
    ensures Evolves(Run(Empty, schedule[..m]).shared, Run(Empty, schedule[..n]).shared)
  {
    RunKeeps(Empty, schedule[..m]);
    RunSplit(Empty, schedule[..n], m);
    assert schedule[..n][..m] == schedule[..m];
    RunKeeps(Run(Empty, schedule[..m]), schedule[..n][m..]);
  }

  /** Every broadcast carries the bytes and the ID of the first intent that was reserved. */
  lemma BroadcastsCarryTheFirstIntent(schedule: seq<Step>, m: nat, n: nat, b: Broadcast)
    requires m <= n <= |schedule|
    requires b in Run(Empty, schedule[..n]).shared.node.sent
    ensures b.operationId in Run(Empty, schedule[..n]).shared.intents
    ensures b.operationId in Run(Empty, schedule[..m]).shared.intents ==>
              var first := Run(Empty, schedule[..m]).shared.intents[b.operationId];
              b.signed == first.signed && b.txid == first.txid
  {
    Along(schedule, m, n);
    assert BroadcastSound(Run(Empty, schedule[..n]).shared, b);
  }

  /** A preparer that lost the reservation never has its own transaction broadcast by anyone. */
  lemma LosersAreNeverBroadcast(schedule: seq<Step>, m: nat, n: nat, me: WorkerId)
    requires m <= n <= |schedule|
    requires var s := Run(Empty, schedule[..m]);
             var l := s.LocalOf(me);
             && l.Executing? && l.pc.Reserve? && l.request.operationId in s.shared.intents
             && s.shared.intents[l.request.operationId].txid != l.pc.prepared.txid
    ensures var lost := Run(Empty, schedule[..m]).LocalOf(me).pc.prepared.txid;
            forall b | b in Run(Empty, schedule[..n]).shared.node.sent :: b.txid != lost
  {
    Along(schedule, m, n);
    var s, s' := Run(Empty, schedule[..m]).shared, Run(Empty, schedule[..n]).shared;
    var l := Run(Empty, schedule[..m]).LocalOf(me);
    var op := l.request.operationId;
    assert LocalInv(s, l);
    assert l.pc.prepared.txid.content.operationId == op;
    forall b | b in s'.node.sent ensures b.txid != l.pc.prepared.txid {
      assert BroadcastSound(s', b) && IntentSound(s', b.operationId);
    }
  }

  /** A confirmed intent never changes again. */
  lemma ConfirmedIsFinal(schedule: seq<Step>, m: nat, n: nat, op: string)
    requires m <= n <= |schedule|
    requires var intents := Run(Empty, schedule[..m]).shared.intents; op in intents && intents[op].status == StatusConfirmed
    ensures var later := Run(Empty, schedule[..n]).shared.intents;
            op in later && later[op] == Run(Empty, schedule[..m]).shared.intents[op]
  {
    Along(schedule, m, n);
  }

  /** All receipts for one operation name the same transaction and the same round. */
  lemma ReceiptsAgree(schedule: seq<Step>, m: nat, n: nat, me: WorkerId, other: WorkerId)
    requires m <= n <= |schedule|
    requires var a, b := Run(Empty, schedule[..m]).LocalOf(me), Run(Empty, schedule[..n]).LocalOf(other);
             a.Done? && b.Done? && a.receipt.operationId == b.receipt.operationId
    ensures var a, b := Run(Empty, schedule[..m]).LocalOf(me), Run(Empty, schedule[..n]).LocalOf(other);
            a.receipt.txid == b.receipt.txid && a.receipt.confirmedRound == b.receipt.confirmedRound
  {
    Along(schedule, m, n);
    assert LocalInv(Run(Empty, schedule[..m]).shared, Run(Empty, schedule[..m]).LocalOf(me));
    assert LocalInv(Run(Empty, schedule[..n]).shared, Run(Empty, schedule[..n]).LocalOf(other));
  }

  /** At most one transaction of an operation is ever confirmed on chain. */
  lemma OneConfirmationPerOperation(schedule: seq<Step>, t: Txid, u: Txid)
    requires var confirmed := Run(Empty, schedule).shared.node.confirmed; t in confirmed && u in confirmed
    requires t.content.operationId == u.content.operationId
    ensures t == u
  {
    RunKeeps(Empty, schedule);
    var s := Run(Empty, schedule).shared;
    ConfirmedIsIntended(s, t);
    ConfirmedIsIntended(s, u);
  }

  lemma ConfirmedIsIntended(s: Shared, t: Txid)
    requires SharedInv(s) && t in s.node.confirmed
    ensures var op := t.content.operationId; op in s.intents && s.intents[op].txid == t
  {
    assert WasSent(s, t);
    var b :| b in s.node.sent && b.txid == t;
    assert BroadcastSound(s, b) && IntentSound(s, b.operationId);
  }

  /** No caller is ever told that the store contradicts it. */
  lemma StoreNeverContradicts(schedule: seq<Step>, me: WorkerId)
    ensures var l := Run(Empty, schedule).LocalOf(me);
            l.Failed? ==> l.error != Changed && l.error != MissingRound
  {
    RunKeeps(Empty, schedule);
    var s := Run(Empty, schedule);
    assert me in s.workers ==> LocalInv(s.shared, s.workers[me]);
  }
}

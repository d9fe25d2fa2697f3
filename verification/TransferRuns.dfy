/**
 * One call of the transfer service from beginning to end (flex/application/asset_transfers.py). Before each
 * operation the other callers and the chain may do what `env` says, and `answers` says what the gateway
 * answers at each operation.
 */
module TransferRuns {
  import opened TransferIntents
  import opened AssetTransfers
  import opened TransferProgress

  type Env = (Shared, nat) -> Shared
  type Answers = nat -> Answer

  /** The others are callers of the same protocol: what they do is what `AssetTransfers.StepKeeps` allows. */
  ghost predicate Obeys(env: Env) {
    forall s: Shared, n: nat | SharedInv(s) :: SharedInv(env(s, n)) && Evolves(s, env(s, n))
  }

  predicate Running(l: Local) {
    l.Executing? || l.Reconciling?
  }

  /** An upper bound on the operations that a call still makes. */
  function OperationsLeft(l: Local): nat {
    match l
    case Executing(_, pc) =>
      (match pc
       case Get => 16
       case Prepare => 15
       case Reserve(_) => 14
       case CheckRound(_) => 13
       case Updating(_, ThenSend, missed) => if missed then 11 else 12
       case Send(_) => 10
       case Updating(_, ThenWait, missed) => if missed then 8 else 9
       case Wait(_) => 7
       case ExpiredLookup(_) => 6
       case Updating(_, _, missed) => if missed then 4 else 5
       case Confirming(_, _, _, missed) => if missed then 1 else 2)
    case Reconciling(_, rpc) =>
      (match rpc
       case ReconcileGet => 6
       case ReconcileLookup(_) => 5
       case ReconcileRound(_) => 4
       case ReconcileReload(_, _) => 3
       case ReconcileConfirming(_, _, missed) => if missed then 1 else 2)
    case _ => 0
  }

  /** Every operation uses one up, whatever the others and the gateway do. */
  lemma OperationsFall(s: Shared, l: Local, a: Answer)
    requires Running(l)
    ensures OperationsLeft(Act(s, l, Operate(a)).1) < OperationsLeft(l)
  {
    hide BytesMatch, Sign, UpdatedNonTerminal, MarkedConfirmed, ConfirmedInstead, Reserved;
  }

  /** A call carried to its end: the others move, then the call makes its next operation. */
  function Completed(s: Shared, l: Local, env: Env, answers: Answers, n: nat): (Shared, Local)
    decreases OperationsLeft(l)
  {
    if Running(l) then
      OperationsFall(env(s, n), l, answers(n));
      var (s', l') := Act(env(s, n), l, Operate(answers(n)));
      Completed(s', l', env, answers, n + 1)
    else (s, l)
  }

  /** A call that is at `l` in `s` ends as one that is at `l'` in `s'`. */
  ghost predicate Leads(env: Env, answers: Answers, s: Shared, l: Local, n: nat, s': Shared, l': Local, n': nat) {
    Completed(s, l, env, answers, n) == Completed(s', l', env, answers, n')
  }

  /** One operation of a call that has come from `start`. */
  lemma Advance(env: Env, answers: Answers, start: Shared, first: Local, s: Shared, l: Local, n: nat)
    requires Leads(env, answers, start, first, 0, s, l, n) && Running(l)
    ensures var (s', l') := Act(env(s, n), l, Operate(answers(n)));
            Leads(env, answers, start, first, 0, s', l', n + 1)
  {
  }

  lemma Ends(env: Env, answers: Answers, start: Shared, first: Local, s: Shared, l: Local, n: nat)
    requires Leads(env, answers, start, first, 0, s, l, n) && !Running(l)
    ensures Completed(start, first, env, answers, 0) == (s, l)
  {
  }

  /** A whole call keeps what single steps keep, and its outcome is sound. */
  lemma {:induction false} CallKeeps(s: Shared, l: Local, env: Env, answers: Answers, n: nat)
    requires Obeys(env) && SharedInv(s) && LocalInv(s, l)
    ensures var (s', l') := Completed(s, l, env, answers, n);
            SharedInv(s') && Evolves(s, s') && LocalInv(s', l') && !Running(l')
    decreases OperationsLeft(l)
  {
    hide SharedInv, LocalInv, Evolves, Act, OperationsLeft;
    SelfEvolves(s);
    if Running(l) {
      var s1 := env(s, n);
      Stable(s, s1, l);
      StepKeeps(s1, l, Operate(answers(n)));
      OperationsFall(s1, l, answers(n));
      var (s2, l2) := Act(s1, l, Operate(answers(n)));
      CallKeeps(s2, l2, env, answers, n + 1);
      var s3 := Completed(s2, l2, env, answers, n + 1).0;
      EvolvesTransitive(s, s1, s2);
      EvolvesTransitive(s, s2, s3);
    }
  }

  /** The request that a call works for, as far as its state still names it. */
  ghost predicate Serves(request: Request, s: Shared, l: Local) {
    match l
    case Executing(r, pc) => r == request
    case Done(receipt) =>
      receipt.operationId == request.operationId && request.operationId in s.intents
      && s.intents[request.operationId].SameTransfer(request)
    case Failed(error) =>
      && (error == Conflict ==> request.operationId in s.intents && !s.intents[request.operationId].SameTransfer(request))
      && (error == Pending || error == Expired ==>
            request.operationId in s.intents && s.intents[request.operationId].SameTransfer(request)
            && s.intents[request.operationId].status != StatusConfirmed)
      && (error == Pending ==> Given(s, request.operationId))
      && error != Unknown && error != LookupUnavailable
    case _ => false
  }

  lemma StepServes(request: Request, s: Shared, l: Local, a: Answer)
    requires SharedInv(s) && l.Executing? && LocalInv(s, l) && Serves(request, s, l)
    ensures var (s', l') := Act(s, l, Operate(a)); Serves(request, s', l')
  {
    hide SharedInv, BytesMatch, Sign;
    if request.operationId in s.intents {
      SoundIntent(s, request.operationId);
    }
  }

  /** A receipt is for the transfer that was asked for; a conflict is never reported for the same transfer. */
  lemma {:induction false} CallServes(request: Request, s: Shared, l: Local, env: Env, answers: Answers, n: nat)
    requires Obeys(env) && SharedInv(s) && LocalInv(s, l) && Serves(request, s, l)
    ensures var (s', l') := Completed(s, l, env, answers, n); Serves(request, s', l')
    decreases OperationsLeft(l)
  {
    hide SharedInv, LocalInv, Evolves, Act, OperationsLeft;
    if Running(l) {
      var s1 := env(s, n);
      Stable(s, s1, l);
      StepServes(request, s1, l, answers(n));
      StepKeeps(s1, l, Operate(answers(n)));
      OperationsFall(s1, l, answers(n));
      var (s2, l2) := Act(s1, l, Operate(answers(n)));
      CallServes(request, s2, l2, env, answers, n + 1);
    }
  }

  /** The operation that a reconciliation works for. */
  ghost predicate Reports(op: string, l: Local) {
    match l
    case Reconciling(o, _) => o == op
    case Reconciled(o, _, _) => o == op
    case Failed(error) => error == Unknown || error == LookupUnavailable
    case _ => false
  }

  lemma StepReports(op: string, s: Shared, l: Local, a: Answer)
    requires SharedInv(s) && l.Reconciling? && LocalInv(s, l) && Reports(op, l)
    ensures Reports(op, Act(s, l, Operate(a)).1)
  {
    hide SharedInv, BytesMatch;
    if op in s.intents {
      SoundIntent(s, op);
    }
  }

  /** A reconciliation fails only when there is no such intent or the lookup does not answer. */
  lemma {:induction false} CallReports(op: string, s: Shared, l: Local, env: Env, answers: Answers, n: nat)
    requires Obeys(env) && SharedInv(s) && LocalInv(s, l) && Reports(op, l)
    ensures Reports(op, Completed(s, l, env, answers, n).1)
    decreases OperationsLeft(l)
  {
    hide SharedInv, LocalInv, Evolves, Act, OperationsLeft;
    if Running(l) {
      var s1 := env(s, n);
      Stable(s, s1, l);
      StepReports(op, s1, l, answers(n));
      StepKeeps(s1, l, Operate(answers(n)));
      OperationsFall(s1, l, answers(n));
      var (s2, l2) := Act(s1, l, Operate(answers(n)));
      CallReports(op, s2, l2, env, answers, n + 1);
    }
  }

  lemma StartsHere(env: Env, answers: Answers, s: Shared, l: Local)
    ensures Leads(env, answers, s, l, 0, s, l, 0)
  {
  }

  // ---- a call operation by operation ----

  /** The collections and the call after its first `n` operations. */
  ghost function Trace(env: Env, answers: Answers, start: Shared, first: Local, n: nat): (Shared, Local) {
    if n == 0 then (start, first)
    else
      var (s, l) := Trace(env, answers, start, first, n - 1);
      if Running(l) then Act(env(s, n - 1), l, Operate(answers(n - 1))) else (s, l)
  }

  /** From any of its operations on, the call comes to the end it has. */
  lemma {:induction false} TraceEnds(env: Env, answers: Answers, start: Shared, first: Local, n: nat) returns (m: nat)
    ensures n <= m && !Running(Trace(env, answers, start, first, m).1)
    ensures var (s, l) := Trace(env, answers, start, first, n);
            Completed(s, l, env, answers, n) == Trace(env, answers, start, first, m)
    decreases OperationsLeft(Trace(env, answers, start, first, n).1)
  {
    hide Act, OperationsLeft;
    var (s, l) := Trace(env, answers, start, first, n);
    if Running(l) {
      OperationsFall(env(s, n), l, answers(n));
      m := TraceEnds(env, answers, start, first, n + 1);
    } else {
      m := n;
    }
  }

  lemma {:induction false} TraceKeeps(env: Env, answers: Answers, start: Shared, first: Local, n: nat)
    requires Obeys(env) && SharedInv(start) && LocalInv(start, first)
    ensures var (s, l) := Trace(env, answers, start, first, n);
            SharedInv(s) && LocalInv(s, l) && Evolves(start, s)
  {
    hide SharedInv, LocalInv, Evolves, Act;
    SelfEvolves(start);
    if n > 0 {
      TraceKeeps(env, answers, start, first, n - 1);
      var (s, l) := Trace(env, answers, start, first, n - 1);
      if Running(l) {
        var s1 := env(s, n - 1);
        Stable(s, s1, l);
        StepKeeps(s1, l, Operate(answers(n - 1)));
        EvolvesTransitive(start, s, s1);
        EvolvesTransitive(start, s1, Act(s1, l, Operate(answers(n - 1))).0);
      }
    }
  }

  lemma {:induction false} TraceEvolves(env: Env, answers: Answers, start: Shared, first: Local, m: nat, n: nat)
    requires Obeys(env) && SharedInv(start) && LocalInv(start, first) && m <= n
    ensures Evolves(Trace(env, answers, start, first, m).0, Trace(env, answers, start, first, n).0)
    decreases n
  {
    hide SharedInv, LocalInv, Evolves, Act;
    SelfEvolves(Trace(env, answers, start, first, m).0);
    if m < n {
      TraceEvolves(env, answers, start, first, m, n - 1);
      TraceKeeps(env, answers, start, first, n - 1);
      var (s, l) := Trace(env, answers, start, first, n - 1);
      if Running(l) {
        var s1 := env(s, n - 1);
        Stable(s, s1, l);
        StepKeeps(s1, l, Operate(answers(n - 1)));
        EvolvesTransitive(Trace(env, answers, start, first, m).0, s, s1);
        EvolvesTransitive(Trace(env, answers, start, first, m).0, s1, Act(s1, l, Operate(answers(n - 1))).0);
      }
    }
  }

  // ---- the validity window ----

  ghost function Execution(env: Env, answers: Answers, start: Shared, request: Request, n: nat): (Shared, Local) {
    Trace(env, answers, start, Executing(request, Get), n)
  }

  /** Operation `n` of the call reads the current round. */
  ghost predicate RoundReadAt(env: Env, answers: Answers, start: Shared, request: Request, n: nat) {
    ReadsRound(Execution(env, answers, start, request, n).1)
  }

  /** The round that was read is past the last valid round of the intent in hand. */
  ghost predicate PastAt(env: Env, answers: Answers, start: Shared, request: Request, n: nat)
    requires RoundReadAt(env, answers, start, request, n)
  {
    answers(n).round > Execution(env, answers, start, request, n).1.pc.intent.lastValid
  }

  /** None of the call's own operations has given anything to the network. */
  ghost predicate SendsNothing(env: Env, answers: Answers, start: Shared, request: Request) {
    forall n: nat :: SentNothingAt(env, answers, start, request, n)
  }

  ghost predicate SentNothingAt(env: Env, answers: Answers, start: Shared, request: Request, n: nat) {
    var (s, l) := Execution(env, answers, start, request, n);
    Running(l) ==> Execution(env, answers, start, request, n + 1).0.node.sent == env(s, n).node.sent
  }

  /** What the call's operation `n` gives to the network says what the request says. */
  ghost predicate SendsOnlyRequested(env: Env, answers: Answers, start: Shared, request: Request) {
    forall n: nat :: SentRequestedAt(env, answers, start, request, n)
  }

  ghost predicate SentRequestedAt(env: Env, answers: Answers, start: Shared, request: Request, n: nat) {
    var (s, l) := Execution(env, answers, start, request, n);
    Running(l) ==>
      || Execution(env, answers, start, request, n + 1).0.node.sent == env(s, n).node.sent
      || exists b :: Execution(env, answers, start, request, n + 1).0.node.sent == env(s, n).node.sent + [b] && Says(b, request)
  }

  /** In any environment, sound or not, a call broadcasts nothing but the transfer it was asked for. */
  lemma CallSendsRequested(env: Env, answers: Answers, start: Shared, request: Request)
    ensures SendsOnlyRequested(env, answers, start, request)
  {
    hide ExecuteNext;
    forall n: nat ensures SentRequestedAt(env, answers, start, request, n) {
      var (s, l) := Execution(env, answers, start, request, n);
      StaysExecuting(env, answers, start, request, n);
      KeepsRequest(env, answers, start, request, n);
      if Running(l) {
        SentMatchesRequest(env(s, n), request, l.pc, answers(n));
      }
    }
  }

  lemma {:induction false} KeepsRequest(env: Env, answers: Answers, start: Shared, request: Request, n: nat)
    ensures var l := Execution(env, answers, start, request, n).1; l.Executing? ==> l.request == request
  {
    hide ExecuteNext;
    if n > 0 {
      KeepsRequest(env, answers, start, request, n - 1);
      StaysExecuting(env, answers, start, request, n - 1);
      var (s, l) := Execution(env, answers, start, request, n - 1);
      if Running(l) {
        PayStaysOwn(env(s, n - 1), request, l.pc, answers(n - 1));
      }
    }
  }

  lemma {:induction false} StaysExecuting(env: Env, answers: Answers, start: Shared, request: Request, n: nat)
    ensures var l := Execution(env, answers, start, request, n).1;
            Running(l) ==> l.Executing?
  {
    hide ExecuteNext;
    if n > 0 {
      StaysExecuting(env, answers, start, request, n - 1);
      var (s, l) := Execution(env, answers, start, request, n - 1);
      if Running(l) {
        NeverReconciles(env(s, n - 1), l.request, l.pc, answers(n - 1));
      }
    }
  }

  lemma NeverReconciles(s: Shared, request: Request, pc: ExecPc, a: Answer)
    ensures !ExecuteNext(s, request, pc, a).1.Reconciling?
  {
    hide BytesMatch, Sign, UpdatedNonTerminal, MarkedConfirmed, ConfirmedInstead, Reserved;
  }

  /** After the round is read the call stays on its side of the window. */
  lemma {:induction false} SideKept(env: Env, answers: Answers, start: Shared, request: Request, m: nat, n: nat)
    requires m < n && RoundReadAt(env, answers, start, request, m)
    ensures var l := Execution(env, answers, start, request, n).1;
            if PastAt(env, answers, start, request, m) then Late(l) else InTime(l)
    decreases n
  {
    hide ExecuteNext;
    var (s, l) := Execution(env, answers, start, request, n - 1);
    StaysExecuting(env, answers, start, request, n - 1);
    if m < n - 1 {
      SideKept(env, answers, start, request, m, n - 1);
    }
    if Running(l) {
      WindowStep(env(s, n - 1), l.request, l.pc, answers(n - 1));
    }
  }

  /** Before the round is read the call is early. */
  lemma {:induction false} EarlyBefore(env: Env, answers: Answers, start: Shared, request: Request, m: nat, n: nat)
    requires m <= n && Early(Execution(env, answers, start, request, n).1)
    ensures Early(Execution(env, answers, start, request, m).1)
    decreases n
  {
    hide ExecuteNext;
    if m < n {
      var (s, l) := Execution(env, answers, start, request, n - 1);
      StaysExecuting(env, answers, start, request, n - 1);
      if Running(l) {
        WindowStep(env(s, n - 1), l.request, l.pc, answers(n - 1));
      }
      EarlyBefore(env, answers, start, request, m, n - 1);
    }
  }

  /** A call that finds itself past the window gives nothing to the network, neither before nor after. */
  lemma LateSendsNothing(env: Env, answers: Answers, start: Shared, request: Request, m: nat)
    requires RoundReadAt(env, answers, start, request, m) && PastAt(env, answers, start, request, m)
    ensures SendsNothing(env, answers, start, request)
  {
    hide ExecuteNext;
    forall n: nat ensures SentNothingAt(env, answers, start, request, n) {
      var (s, l) := Execution(env, answers, start, request, n);
      StaysExecuting(env, answers, start, request, n);
      if Running(l) {
        if m < n {
          SideKept(env, answers, start, request, m, n);
        } else {
          EarlyBefore(env, answers, start, request, n, m);
        }
        Sides(l);
        WindowStep(env(s, n), l.request, l.pc, answers(n));
      }
    }
  }

  /** A call that goes the way of an expired transaction has read a round past the window. */
  lemma {:induction false} LateHasRead(env: Env, answers: Answers, start: Shared, request: Request, n: nat) returns (m: nat)
    requires var l := Execution(env, answers, start, request, n).1; Late(l) && (l.Executing? || l == Failed(Expired))
    ensures m < n && RoundReadAt(env, answers, start, request, m) && PastAt(env, answers, start, request, m)
  {
    hide ExecuteNext;
    var (s, l) := Execution(env, answers, start, request, n - 1);
    StaysExecuting(env, answers, start, request, n - 1);
    if Running(l) {
      WindowStep(env(s, n - 1), l.request, l.pc, answers(n - 1));
      Sides(l);
      if ReadsRound(l) {
        m := n - 1;
        var l' := Execution(env, answers, start, request, n).1;
        if !PastAt(env, answers, start, request, m) {
          Sides(l');
          assert false;
        }
        return;
      }
    }
    m := LateHasRead(env, answers, start, request, n - 1);
  }

  /** The intent in hand is valid as long as the stored one. */
  lemma HeldWindow(env: Env, answers: Answers, start: Shared, request: Request, m: nat, n: nat)
    requires Obeys(env) && SharedInv(start) && m <= n && RoundReadAt(env, answers, start, request, m)
    ensures var s := Execution(env, answers, start, request, n).0;
            && request.operationId in s.intents
            && s.intents[request.operationId].lastValid == Execution(env, answers, start, request, m).1.pc.intent.lastValid
  {
    hide SharedInv, Act;
    TraceKeeps(env, answers, start, Executing(request, Get), m);
    TraceEvolves(env, answers, start, Executing(request, Get), m, n);
    TraceServes(env, answers, start, request, m);
  }

  lemma {:induction false} TraceServes(env: Env, answers: Answers, start: Shared, request: Request, n: nat)
    requires Obeys(env) && SharedInv(start)
    ensures var (s, l) := Execution(env, answers, start, request, n); Serves(request, s, l)
  {
    hide SharedInv, LocalInv, Evolves, Act;
    if n > 0 {
      TraceServes(env, answers, start, request, n - 1);
      GetIsFine(start, request);
      TraceKeeps(env, answers, start, Executing(request, Get), n - 1);
      var (s, l) := Execution(env, answers, start, request, n - 1);
      if Running(l) {
        Stable(s, env(s, n - 1), l);
        StepServes(request, env(s, n - 1), l, answers(n - 1));
      }
    }
  }

  lemma GetIsFine(s: Shared, request: Request)
    ensures LocalInv(s, Executing(request, Get))
  {
  }

  /** Which side of the window a call was on when it ended in this state, and what it means for the outcome. */
  ghost predicate Decided(env: Env, answers: Answers, start: Shared, request: Request, s: Shared, l: Local, n: nat) {
    && request.operationId in s.intents
    && if answers(n).round > s.intents[request.operationId].lastValid then
         SendsNothing(env, answers, start, request) && (l.Done? || l == Failed(Expired))
       else Given(s, request.operationId) && (l.Done? || l == Failed(Pending))
  }

  ghost predicate ExpiredRightly(env: Env, answers: Answers, start: Shared, request: Request, s: Shared, n: nat) {
    && RoundReadAt(env, answers, start, request, n) && request.operationId in s.intents
    && answers(n).round > s.intents[request.operationId].lastValid
  }

  /**
   * The round decides: past the stored intent's window nothing is sent, and within it the stored bytes are
   * given to the network; a receipt or a pending transfer means that they were, and a transfer is
   * reported as expired only after a round past its window was read.
   */
  lemma CallDecides(env: Env, answers: Answers, start: Shared, request: Request)
    requires Obeys(env) && SharedInv(start)
    ensures var (s, l) := Completed(start, Executing(request, Get), env, answers, 0);
            && (l.Done? || l == Failed(Pending) ==> Given(s, request.operationId))
            && (l == Failed(Expired) ==> exists n: nat :: ExpiredRightly(env, answers, start, request, s, n))
            && (forall n: nat | RoundReadAt(env, answers, start, request, n) :: Decided(env, answers, start, request, s, l, n))
  {
    hide SharedInv, Evolves, Act, Completed, SendsNothing, Obeys, Given;
    var end := TraceEnds(env, answers, start, Executing(request, Get), 0);
    var (s, l) := Execution(env, answers, start, request, end);
    TraceKeeps(env, answers, start, Executing(request, Get), end);
    TraceServes(env, answers, start, request, end);
    if l.Done? {
      ConfirmedIsGiven(s, request.operationId);
    }
    if l == Failed(Expired) {
      var n := LateHasRead(env, answers, start, request, end);
      HeldWindow(env, answers, start, request, n, end);
      assert ExpiredRightly(env, answers, start, request, s, n);
    }
    forall n: nat | RoundReadAt(env, answers, start, request, n) ensures Decided(env, answers, start, request, s, l, n) {
      EndsLater(env, answers, start, request, n, end);
      HeldWindow(env, answers, start, request, n, end);
      SideKept(env, answers, start, request, n, end);
      if PastAt(env, answers, start, request, n) {
        LateSendsNothing(env, answers, start, request, n);
      }
    }
  }

  /** A call that is over has read its round before. */
  lemma EndsLater(env: Env, answers: Answers, start: Shared, request: Request, n: nat, end: nat)
    requires Running(Execution(env, answers, start, request, n).1) && !Running(Execution(env, answers, start, request, end).1)
    ensures n < end
  {
    if end <= n {
      StaysOver(env, answers, start, Executing(request, Get), end, n);
    }
  }

  lemma {:induction false} StaysOver(env: Env, answers: Answers, start: Shared, first: Local, m: nat, n: nat)
    requires m <= n && !Running(Trace(env, answers, start, first, m).1)
    ensures Trace(env, answers, start, first, n) == Trace(env, answers, start, first, m)
    decreases n
  {
    hide Act;
    if m < n {
      StaysOver(env, answers, start, first, m, n - 1);
    }
  }

  // ---- a transfer that comes through ----

  /** The chain confirms what has been sent, and nobody reserves another transfer, or a shorter one, for the operation. */
  ghost predicate Prompt(env: Env, request: Request, limit: nat) {
    forall s: Shared, n: nat | SharedInv(s) ::
      Confirms(s, env(s, n)) && (Fits(s, request, limit) ==> Fits(env(s, n), request, limit))
  }

  ghost predicate WorksAlways(answers: Answers, limit: nat) {
    forall n: nat :: Works(answers(n), limit)
  }

  lemma {:induction false} TraceOnCourse(env: Env, answers: Answers, start: Shared, request: Request, limit: nat, n: nat)
    requires Obeys(env) && SharedInv(start) && Prompt(env, request, limit) && WorksAlways(answers, limit) && Fits(start, request, limit)
    ensures var (s, l) := Execution(env, answers, start, request, n);
            OnCourse(s, l, limit) && Fits(s, request, limit)
  {
    hide SharedInv, Evolves, ExecuteNext, Confirms, Fits, Works;
    if n > 0 {
      TraceOnCourse(env, answers, start, request, limit, n - 1);
      GetIsFine(start, request);
      TraceKeeps(env, answers, start, Executing(request, Get), n - 1);
      TraceServes(env, answers, start, request, n - 1);
      var (s, l) := Execution(env, answers, start, request, n - 1);
      if Running(l) {
        var s1 := env(s, n - 1);
        Stable(s, s1, l);
        CourseStep(s, s1, request, l.pc, answers(n - 1), limit);
      }
    }
  }

  /** A transfer whose broadcast is confirmed, with a gateway that works within the window, ends with a receipt. */
  lemma CallSucceeds(env: Env, answers: Answers, start: Shared, request: Request, limit: nat)
    requires Obeys(env) && SharedInv(start) && Prompt(env, request, limit) && WorksAlways(answers, limit) && Fits(start, request, limit)
    ensures Completed(start, Executing(request, Get), env, answers, 0).1.Done?
  {
    hide SharedInv, Evolves, Act, Obeys, Prompt, WorksAlways, Fits;
    var end := TraceEnds(env, answers, start, Executing(request, Get), 0);
    TraceOnCourse(env, answers, start, request, limit, end);
  }

  ghost predicate FindsAlways(answers: Answers) {
    forall n: nat :: Finds(answers(n))
  }

  lemma {:induction false} TraceFinds(env: Env, answers: Answers, start: Shared, request: Request, n: nat)
    requires Obeys(env) && SharedInv(start) && OnChain(start, request) && FindsAlways(answers)
    ensures FoundCourse(Execution(env, answers, start, request, n).1)
  {
    hide SharedInv, Evolves, ExecuteNext, OnChain, Finds;
    if n > 0 {
      TraceFinds(env, answers, start, request, n - 1);
      GetIsFine(start, request);
      TraceKeeps(env, answers, start, Executing(request, Get), n - 1);
      TraceServes(env, answers, start, request, n - 1);
      var (s, l) := Execution(env, answers, start, request, n - 1);
      if Running(l) {
        var s1 := env(s, n - 1);
        Stable(s, s1, l);
        EvolvesTransitive(start, s, s1);
        StaysOnChain(start, s1, request);
        FoundStep(s1, request, l.pc, answers(n - 1));
      }
    }
  }

  /** A transfer that the chain has confirmed gets its receipt, also past the window, once a lookup answers. */
  lemma CallFinds(env: Env, answers: Answers, start: Shared, request: Request)
    requires Obeys(env) && SharedInv(start) && OnChain(start, request) && FindsAlways(answers)
    ensures Completed(start, Executing(request, Get), env, answers, 0).1.Done?
  {
    hide SharedInv, Evolves, Act, Obeys, OnChain, FindsAlways;
    var end := TraceEnds(env, answers, start, Executing(request, Get), 0);
    TraceFinds(env, answers, start, request, end);
  }

  /** All that is promised of a call to `execute`, in terms of how it ends. */
  lemma CallMeans(env: Env, answers: Answers, start: Shared, request: Request)
    requires Obeys(env) && SharedInv(start)
    ensures var (s, l) := Completed(start, Executing(request, Get), env, answers, 0);
            && SharedInv(s) && Evolves(start, s) && LocalInv(s, l) && Serves(request, s, l) && !Running(l)
            && (l.Done? || l == Failed(Pending) ==> Given(s, request.operationId))
            && (l == Failed(Expired) ==> exists n: nat :: ExpiredRightly(env, answers, start, request, s, n))
            && (forall n: nat | RoundReadAt(env, answers, start, request, n) :: Decided(env, answers, start, request, s, l, n))
            && (forall limit: nat | Prompt(env, request, limit) && WorksAlways(answers, limit) && Fits(start, request, limit) :: l.Done?)
            && (OnChain(start, request) && FindsAlways(answers) ==> l.Done?)
  {
    hide Completed, SharedInv, Evolves, Obeys, LocalInv, Serves, Given, RoundReadAt, ExpiredRightly, Decided, Prompt, WorksAlways,
         Fits, OnChain, FindsAlways;
    GetIsFine(start, request);
    GetServes(start, request);
    CallKeeps(start, Executing(request, Get), env, answers, 0);
    CallServes(request, start, Executing(request, Get), env, answers, 0);
    CallDecides(env, answers, start, request);
    forall limit: nat | Prompt(env, request, limit) && WorksAlways(answers, limit) && Fits(start, request, limit)
      ensures Completed(start, Executing(request, Get), env, answers, 0).1.Done?
    {
      CallSucceeds(env, answers, start, request, limit);
    }
    if OnChain(start, request) && FindsAlways(answers) {
      CallFinds(env, answers, start, request);
    }
  }

  lemma GetServes(s: Shared, request: Request)
    ensures Serves(request, s, Executing(request, Get))
  {
  }

  // ---- what a reconciliation reports ----

  ghost function Reconciliation(env: Env, answers: Answers, start: Shared, op: string, n: nat): (Shared, Local) {
    Trace(env, answers, start, Reconciling(op, ReconcileGet), n)
  }

  /** The lookup answers that the transaction was confirmed before the call. */
  predicate FoundBefore(answers: Answers, start: Shared, op: string) {
    op in start.intents && answers(1).works && answers(1).found && start.intents[op].txid in start.node.confirmed
  }

  /** What is reported of an intent that nobody has confirmed yet: the second operation looks it up, the third reads the round. */
  predicate ReportedRightly(answers: Answers, start: Shared, s: Shared, op: string, txid: Txid, reported: Reported) {
    && !FoundBefore(answers, start, op) && answers(1).works
    && op in s.intents && s.intents[op].txid == txid && s.intents[op].status != StatusConfirmed
    && reported == if answers(2).round > s.intents[op].lastValid then ReportExpired else ReportStatus(s.intents[op].status)
  }

  /** Where a reconciliation is after n operations, and what it knows. */
  ghost predicate Reconciles(answers: Answers, start: Shared, s: Shared, l: Local, op: string, n: nat) {
    match l
    case Reconciling(o, rpc) =>
      o == op &&
      (match rpc
       case ReconcileGet => n == 0
       case ReconcileLookup(_) => n == 1
       case ReconcileRound(_) => n == 2 && answers(1).works && !FoundBefore(answers, start, op)
       case ReconcileReload(_, current) => n == 3 && answers(1).works && !FoundBefore(answers, start, op) && current == answers(2).round
       case ReconcileConfirming(_, _, _) => true)
    case Reconciled(o, txid, reported) =>
      o == op && (!reported.ReportConfirmed? ==> ReportedRightly(answers, start, s, op, txid, reported))
    case Failed(error) =>
      (error == Unknown && op !in start.intents) || (error == LookupUnavailable && !answers(1).works)
    case _ => false
  }

  lemma StepReconciles(answers: Answers, start: Shared, s: Shared, l: Local, op: string, n: nat)
    requires SharedInv(s) && l.Reconciling? && LocalInv(s, l) && Evolves(start, s) && Reconciles(answers, start, s, l, op, n)
    ensures var (s', l') := Act(s, l, Operate(answers(n)));
            Reconciles(answers, start, s', l', op, n + 1)
  {
    hide SharedInv, BytesMatch;
    if op in s.intents {
      SoundIntent(s, op);
    }
  }

  lemma {:induction false} TraceReconciles(env: Env, answers: Answers, start: Shared, op: string, n: nat)
    requires Obeys(env) && SharedInv(start)
    ensures var (s, l) := Reconciliation(env, answers, start, op, n);
            exists m: nat :: Reconciles(answers, start, s, l, op, m) && (Running(l) ==> m == n)
  {
    hide SharedInv, LocalInv, Evolves, Act, Reconciles;
    var first := Reconciling(op, ReconcileGet);
    ReconcileStarts(answers, start, op);
    if n > 0 {
      TraceReconciles(env, answers, start, op, n - 1);
      TraceKeeps(env, answers, start, first, n - 1);
      var (s, l) := Reconciliation(env, answers, start, op, n - 1);
      var m: nat :| Reconciles(answers, start, s, l, op, m) && (Running(l) ==> m == n - 1);
      if Running(l) {
        var s1 := env(s, n - 1);
        Stable(s, s1, l);
        EvolvesTransitive(start, s, s1);
        NotExecuting(answers, start, s, l, op, n - 1);
        SameReconciling(answers, start, s, s1, l, op, n - 1);
        StepReconciles(answers, start, s1, l, op, n - 1);
        m := n;
      }
      var (s', l') := Reconciliation(env, answers, start, op, n);
      assert Reconciles(answers, start, s', l', op, m);
    } else {
      var (s', l') := Reconciliation(env, answers, start, op, n);
      assert s' == start && l' == first;
      assert Reconciles(answers, start, s', l', op, n);
    }
  }

  lemma ReconcileStarts(answers: Answers, start: Shared, op: string)
    ensures Reconciles(answers, start, start, Reconciling(op, ReconcileGet), op, 0)
    ensures LocalInv(start, Reconciling(op, ReconcileGet))
  {
  }

  lemma NotExecuting(answers: Answers, start: Shared, s: Shared, l: Local, op: string, n: nat)
    requires Reconciles(answers, start, s, l, op, n)
    ensures !l.Executing?
  {
  }

  lemma SameReconciling(answers: Answers, start: Shared, s: Shared, s1: Shared, l: Local, op: string, n: nat)
    requires Reconciles(answers, start, s, l, op, n) && l.Reconciling?
    ensures Reconciles(answers, start, s1, l, op, n)
  {
  }

  /** What a whole reconciliation comes to. */
  lemma ReconcileReports(env: Env, answers: Answers, start: Shared, op: string)
    requires Obeys(env) && SharedInv(start)
    ensures var (s, l) := Completed(start, Reconciling(op, ReconcileGet), env, answers, 0);
            !Running(l) && exists m: nat :: Reconciles(answers, start, s, l, op, m)
  {
    hide SharedInv, Evolves, Act, Obeys, Reconciles;
    var end := TraceEnds(env, answers, start, Reconciling(op, ReconcileGet), 0);
    TraceReconciles(env, answers, start, op, end);
  }
}

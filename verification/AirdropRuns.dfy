/**
 * One operator's airdrop from beginning to end (flex/tools/airdrop.py). Before each operation on the
 * collections the other operators, the other transfers and the chain may do what `env` says.
 */
module AirdropRuns {
  import opened Wrappers
  import opened TransferIntents
  import opened Allocation
  import opened Airdrop
  import opened AirdropProgress
  import opened TransferProgress
  import T = AssetTransfers
  import TransferRuns

  type Env = (Db, nat) -> Db
  type Answers = nat -> T.Answer

  /** The others follow the protocol: what they do is what `Airdrop.StepKeeps` allows. */
  ghost predicate Obeys(env: Env) {
    forall db: Db, n: nat | DbInv(db) :: DbInv(env(db, n)) && Evolves(db, env(db, n))
  }

  /** The collections and this operator after its first `n` operations, each after a move of the others. */
  ghost function After(env: Env, answers: Answers, start: Db, plan: Plan, n: nat): (Db, Local) {
    if n == 0 then (start, Running(plan, Campaign))
    else
      var (db, l) := After(env, answers, start, plan, n - 1);
      if l.Running? then Next(env(db, n - 1), l.plan, l.pc, answers(n - 1)) else (db, l)
  }

  /** This operator has come to exactly here. */
  ghost predicate ComeTo(env: Env, answers: Answers, start: Db, plan: Plan, db: Db, l: Local, n: nat) {
    After(env, answers, start, plan, n) == (db, l)
  }

  /** The others move, and then this operator makes its next operation. */
  lemma Advance(env: Env, answers: Answers, start: Db, plan: Plan, db: Db, pc: Pc, n: nat)
    requires ComeTo(env, answers, start, plan, db, Running(plan, pc), n)
    ensures var (db', l') := Next(env(db, n), plan, pc, answers(n)); ComeTo(env, answers, start, plan, db', l', n + 1)
  {
    hide Next;
  }

  /** Among operators of the protocol, all of this keeps what single steps keep. */
  lemma {:induction false} AfterKeeps(env: Env, answers: Answers, start: Db, plan: Plan, n: nat)
    requires Obeys(env) && DbInv(start) && plan.Valid()
    ensures var (db, l) := After(env, answers, start, plan, n); DbInv(db) && LocalInv(db, l) && Evolves(start, db)
  {
    hide DbInv, Evolves, Next, PcInv;
    SelfEvolves(start);
    if n > 0 {
      AfterKeeps(env, answers, start, plan, n - 1);
      var (db, l) := After(env, answers, start, plan, n - 1);
      if l.Running? {
        var paused := env(db, n - 1);
        Stable(db, paused, l);
        NextKeeps(paused, l.plan, l.pc, answers(n - 1));
        EvolvesTransitive(start, db, paused);
        EvolvesTransitive(start, paused, Next(paused, l.plan, l.pc, answers(n - 1)).0);
      }
    } else {
      CampaignIsFine(start, plan);
    }
  }

  /** What an operator among operators of the protocol can be sure of. */
  lemma Conclude(env: Env, answers: Answers, start: Db, plan: Plan, db: Db, l: Local, n: nat)
    requires ComeTo(env, answers, start, plan, db, l, n) && plan.Valid()
    ensures Obeys(env) && DbInv(start) ==> DbInv(db) && Evolves(start, db)
    ensures Obeys(env) && DbInv(start) && l == Complete(plan) ==>
              && plan.id in db.manifests && db.manifests[plan.id] == Manifest(plan.content, ManifestComplete)
              && Moved(Payments(db, plan.id)) == plan.content.total
              && AllPaid(Payments(db, plan.id), plan.content.recipients)
  {
    hide DbInv, Evolves, Obeys, After;
    if Obeys(env) && DbInv(start) {
      AfterKeeps(env, answers, start, plan, n);
      if l == Complete(plan) {
        FullyPaid(db, plan.id);
      }
    }
  }

  // ---- what a run comes to ----

  /** While serving recipient k, operation `m` of the run read a round past this one. */
  ghost predicate PastAt(env: Env, answers: Answers, start: Db, plan: Plan, k: nat, lastValid: nat, m: nat) {
    var l := After(env, answers, start, plan, m).1;
    && l.Running? && l.pc.Pay? && l.pc.k == k && ReadsRound(l.pc.transfer)
    && answers(m).round > lastValid
  }

  ghost predicate PastBefore(env: Env, answers: Answers, start: Db, plan: Plan, k: nat, lastValid: nat, n: nat) {
    exists m: nat :: m < n && PastAt(env, answers, start, plan, k, lastValid, m)
  }

  /** Where in the plan the airdrop's operation `n` serves recipient k. */
  ghost predicate Paying(env: Env, answers: Answers, start: Db, plan: Plan, k: nat, n: nat) {
    var l := After(env, answers, start, plan, n).1;
    l.Running? && l.plan == plan && l.pc.Pay? && l.pc.k == k && k < |plan.order| && l.pc.transfer.Executing?
  }

  /** The transfers after operation `n`, and where the recipient's transfer stands. */
  ghost function PaidBy(env: Env, answers: Answers, start: Db, plan: Plan, n: nat): (T.Shared, T.Local)
    requires exists k: nat :: Paying(env, answers, start, plan, k, n)
  {
    var (db, l) := After(env, answers, start, plan, n);
    T.ExecuteNext(env(db, n).transfers, l.pc.transfer.request, l.pc.transfer.pc, answers(n))
  }

  /**
   * Operation `n` left recipient k unpaid: the gateway prepared a transfer that is never valid, or the
   * intent is unconfirmed after a round past its window was read, or after its bytes were given to the node.
   */
  ghost predicate Unpaid(env: Env, answers: Answers, start: Db, plan: Plan, k: nat, n: nat) {
    Paying(env, answers, start, plan, k, n) &&
    var (s, t) := PaidBy(env, answers, start, plan, n);
    var op := OperationId(plan.id, plan.order[k]);
    t.Failed? &&
    match t.error
    case InvalidPrepared => answers(n).firstValid > answers(n).lastValid
    case Pending => T.Given(s, op) && s.intents[op].status != StatusConfirmed
    case Expired =>
      op in s.intents && s.intents[op].status != StatusConfirmed
      && PastBefore(env, answers, start, plan, k, s.intents[op].lastValid, n)
    case _ => false
  }

  ghost predicate SomeoneUnpaid(env: Env, answers: Answers, start: Db, plan: Plan, n: nat) {
    exists k: nat, m: nat :: m < n && Unpaid(env, answers, start, plan, k, m)
  }

  lemma {:induction false} StaysOwn(env: Env, answers: Answers, start: Db, plan: Plan, n: nat)
    requires Obeys(env) && DbInv(start) && plan.Valid()
    ensures var (db, l) := After(env, answers, start, plan, n);
            GoesOn(db, plan, l)
  {
    hide DbInv, Evolves, Next, PcInv, Obeys;
    if n > 0 {
      StaysOwn(env, answers, start, plan, n - 1);
      var (db, l) := After(env, answers, start, plan, n - 1);
      if l.Running? {
        var paused := env(db, n - 1);
        AfterPaused(env, answers, start, plan, n - 1);
        StepGoesOn(paused, plan, l.pc, answers(n - 1));
      }
    }
  }

  /** After a move of the others everything is as it should be before the next operation. */
  lemma AfterPaused(env: Env, answers: Answers, start: Db, plan: Plan, n: nat)
    requires Obeys(env) && DbInv(start) && plan.Valid()
    requires var (db, l) := After(env, answers, start, plan, n); l.Running? && l.plan == plan && Placed(db, plan, l.pc)
    ensures var (db, l) := After(env, answers, start, plan, n);
            && DbInv(db) && PcInv(db, plan, l.pc) && DbInv(env(db, n)) && Evolves(db, env(db, n))
            && PcInv(env(db, n), plan, l.pc) && Placed(env(db, n), plan, l.pc)
  {
    hide DbInv, After, PcInv, T.Evolves;
    AfterKeeps(env, answers, start, plan, n);
    var (db, l) := After(env, answers, start, plan, n);
    Stable(db, env(db, n), l);
  }

  /** A transfer that goes the way of an expired one has seen a round past its window. */
  lemma {:induction false} LateHasRead(env: Env, answers: Answers, start: Db, plan: Plan, n: nat)
    ensures var l := After(env, answers, start, plan, n).1;
            l.Running? && l.pc.Pay? && l.pc.transfer.Executing? && Late(l.pc.transfer) ==>
              PastBefore(env, answers, start, plan, l.pc.k, l.pc.transfer.pc.intent.lastValid, n)
  {
    hide Next;
    if n > 0 {
      LateHasRead(env, answers, start, plan, n - 1);
      var (db, l) := After(env, answers, start, plan, n - 1);
      var l' := After(env, answers, start, plan, n).1;
      if l'.Running? && l'.pc.Pay? && l'.pc.transfer.Executing? && Late(l'.pc.transfer) && l.Running? {
        LatePay(env(db, n - 1), l.plan, l.pc, answers(n - 1));
        if Late(l.pc.transfer) {
          var m: nat :| m < n - 1 && PastAt(env, answers, start, plan, l.pc.k, l.pc.transfer.pc.intent.lastValid, m);
          assert PastAt(env, answers, start, plan, l'.pc.k, l'.pc.transfer.pc.intent.lastValid, m);
        } else {
          assert PastAt(env, answers, start, plan, l'.pc.k, l'.pc.transfer.pc.intent.lastValid, n - 1);
        }
      }
    }
  }

  lemma LatePay(db: Db, plan: Plan, pc: Pc, a: T.Answer)
    requires var l' := Next(db, plan, pc, a).1; l'.Running? && l'.pc.Pay? && l'.pc.transfer.Executing? && Late(l'.pc.transfer)
    ensures var l' := Next(db, plan, pc, a).1;
            && pc.Pay? && pc.transfer.Executing? && pc.k == l'.pc.k && pc.transfer.pc.intent == l'.pc.transfer.pc.intent
            && (Late(pc.transfer) || (ReadsRound(pc.transfer) && a.round > l'.pc.transfer.pc.intent.lastValid))
  {
    hide T.ExecuteNext, ExistingRewards, RewardMatches, Backfilled, OperationId;
    if pc.Pay? && pc.transfer.Executing? {
      LateStep(db.transfers, pc.transfer.request, pc.transfer.pc, a);
    }
  }

  /** Whoever was missed was not paid because of his own transfer. */
  lemma {:induction false} MissedIsUnpaid(env: Env, answers: Answers, start: Db, plan: Plan, n: nat)
    requires Obeys(env) && DbInv(start) && plan.Valid()
    ensures Faulted(After(env, answers, start, plan, n).1) ==> SomeoneUnpaid(env, answers, start, plan, n)
  {
    hide DbInv, Evolves, Next, PcInv, Obeys, Unpaid, T.ExecuteNext;
    if n > 0 {
      MissedIsUnpaid(env, answers, start, plan, n - 1);
      var (db, l) := After(env, answers, start, plan, n - 1);
      if Faulted(l) {
        var k: nat, m: nat :| m < n - 1 && Unpaid(env, answers, start, plan, k, m);
        assert SomeoneUnpaid(env, answers, start, plan, n);
      } else if l.Running? {
        StaysOwn(env, answers, start, plan, n - 1);
        AfterPaused(env, answers, start, plan, n - 1);
        StepGoesOn(env(db, n - 1), plan, l.pc, answers(n - 1));
        if PayFails(env(db, n - 1), l.pc, answers(n - 1)) {
          FailureIsUnpaid(env, answers, start, plan, n - 1);
          assert Unpaid(env, answers, start, plan, l.pc.k, n - 1);
        }
      }
    }
  }

  lemma FailureIsUnpaid(env: Env, answers: Answers, start: Db, plan: Plan, n: nat)
    requires Obeys(env) && DbInv(start) && plan.Valid()
    requires var (db, l) := After(env, answers, start, plan, n);
             l.Running? && l.plan == plan && Placed(db, plan, l.pc) && PayFails(env(db, n), l.pc, answers(n))
    ensures Unpaid(env, answers, start, plan, After(env, answers, start, plan, n).1.pc.k, n)
  {
    hide DbInv, After, Next, Obeys, OperationId, T.ExecuteNext, T.LocalInv;
    var (db, l) := After(env, answers, start, plan, n);
    AfterPaused(env, answers, start, plan, n);
    assert Paying(env, answers, start, plan, l.pc.k, n);
    PayFailure(env(db, n), plan, l.pc, answers(n));
    LateHasRead(env, answers, start, plan, n);
  }

  /** The chain confirms what has been sent, and nobody stores anything that is in the way of this plan. */
  ghost predicate Prompt(env: Env, plan: Plan, limit: nat) {
    forall db: Db, n: nat | DbInv(db) ::
      Confirms(db.transfers, env(db, n).transfers) && (PlanFits(db, plan, limit) ==> PlanFits(env(db, n), plan, limit))
  }

  lemma {:induction false} StaysSmooth(env: Env, answers: Answers, start: Db, plan: Plan, limit: nat, n: nat)
    requires Obeys(env) && DbInv(start) && plan.Valid()
    requires Prompt(env, plan, limit) && TransferRuns.WorksAlways(answers, limit) && PlanFits(start, plan, limit)
    ensures var (db, l) := After(env, answers, start, plan, n);
            Smooth(db, l, limit) && PlanFits(db, plan, limit) && RewardedUpTo(db, plan, Served(plan, l))
  {
    hide DbInv, Evolves, Next, PcInv, Obeys, PlanFits, Works, Confirms, OperationId, RewardedUpTo;
    NoneServed(start, plan);
    if n > 0 {
      StaysSmooth(env, answers, start, plan, limit, n - 1);
      var (db, l) := After(env, answers, start, plan, n - 1);
      if l.Running? {
        StaysOwn(env, answers, start, plan, n - 1);
        AfterPaused(env, answers, start, plan, n - 1);
        TransfersEvolve(db, env(db, n - 1));
        SmoothStep(db, env(db, n - 1), plan, l.pc, answers(n - 1), limit);
        RewardsKept(db, env(db, n - 1), plan, Served(plan, l));
        RewardsFollow(env(db, n - 1), plan, l.pc, answers(n - 1));
      }
    }
  }

  lemma NoneServed(db: Db, plan: Plan)
    ensures RewardedUpTo(db, plan, 0)
  {
  }

  lemma RewardsKept(db: Db, db': Db, plan: Plan, k: nat)
    requires Evolves(db, db') && RewardedUpTo(db, plan, k)
    ensures RewardedUpTo(db', plan, k)
  {
    hide OperationId, T.Evolves;
  }

  lemma TransfersEvolve(db: Db, db': Db)
    requires Evolves(db, db')
    ensures T.Evolves(db.transfers, db'.transfers)
  {
  }

  /** How a whole run ends: complete, or because of another manifest, or with someone unpaid. */
  ghost predicate EndsRightly(env: Env, answers: Answers, start: Db, plan: Plan, db: Db, error: AirdropError, n: nat) {
    || ((error == TransferConflict || error == RewardConflict || error == ManifestConflict) && OtherManifest(db, plan))
    || (error == Incomplete && plan.id in db.manifests && db.manifests[plan.id].status == ManifestPartial
        && SomeoneUnpaid(env, answers, start, plan, n))
  }

  /**
   * Among operators of the protocol a run fails only because of another manifest under its ID, or because
   * somebody's own transfer failed. With a gateway that works within the window and a chain that confirms
   * what was sent, it completes.
   */
  lemma RunSucceeds(env: Env, answers: Answers, start: Db, plan: Plan, db: Db, l: Local, n: nat)
    requires ComeTo(env, answers, start, plan, db, l, n) && plan.Valid() && !l.Running?
    requires Obeys(env) && DbInv(start)
    ensures l == Complete(plan) || (l.Aborted? && EndsRightly(env, answers, start, plan, db, l.error, n))
    ensures forall limit: nat | Prompt(env, plan, limit) && TransferRuns.WorksAlways(answers, limit) && PlanFits(start, plan, limit) ::
              l == Complete(plan) && RewardedUpTo(db, plan, |plan.order|)
  {
    hide DbInv, Obeys, RewardedUpTo, Prompt, PlanFits, SomeoneUnpaid, After, TransferRuns.WorksAlways;
    StaysOwn(env, answers, start, plan, n);
    MissedIsUnpaid(env, answers, start, plan, n);
    forall limit: nat | Prompt(env, plan, limit) && TransferRuns.WorksAlways(answers, limit) && PlanFits(start, plan, limit)
      ensures l == Complete(plan) && RewardedUpTo(db, plan, |plan.order|)
    {
      StaysSmooth(env, answers, start, plan, limit, n);
    }
  }
}

/**
 * Where a prize comes from (api/nft_lottery.py): in every run, the prize of a draw is the one that the
 * random draw gave at the operation that took the guard out of its reservation.
 */
module LotteryPrizes {
  import opened Wrappers
  import opened LotteryBooks
  import opened StakingLottery
  import T = AssetTransfers

  /** The guard of a key is past its reservation, with this draw and this prize. */
  predicate HasPrize(b: Books, k: Key, id: string, prize: Option<nat>) {
    k in b.entitlements && b.entitlements[k].active.Some? && b.entitlements[k].active.value.status != GuardReserved
    && b.entitlements[k].active.value.drawId == id && b.entitlements[k].active.value.prize == prize
  }

  predicate IsReserved(b: Books, k: Key, id: string) {
    k in b.entitlements && b.entitlements[k].active.Some? && b.entitlements[k].active.value.status == GuardReserved
    && b.entitlements[k].active.value.drawId == id
  }

  /** An operation with this answer takes the guard out of its reservation and stores this prize. */
  predicate Prepares(b: Books, a: Action, b': Books, k: Key, id: string, prize: Option<nat>) {
    IsReserved(b, k, id) && HasPrize(b', k, id, prize) && b'.entitlements[k].active.value.status == GuardPrepared
    && a.Operate? && a.answer.prize == prize
  }

  /** What one step may do to guards and draws as far as prizes go. */
  ghost predicate GuardsFollow(b: Books, a: Action, b': Books) {
    forall k, id, prize :: HasPrize(b', k, id, prize) ==> HasPrize(b, k, id, prize) || Prepares(b, a, b', k, id, prize)
  }

  ghost predicate DrawsFollow(b: Books, b': Books) {
    forall id | id in b'.draws ::
      || (id in b.draws && b'.draws[id].key == b.draws[id].key && b'.draws[id].prize == b.draws[id].prize)
      || HasPrize(b, b'.draws[id].key, id, b'.draws[id].prize)
  }

  ghost predicate Follows(b: Books, a: Action, b': Books) {
    GuardsFollow(b, a, b') && DrawsFollow(b, b')
  }

  lemma DrawFollows(b: Books, k: Key, now: int, pc: DrawPc, a: Answer)
    requires Sound(b) && DrawInv(b, k, pc)
    ensures Follows(b, Operate(a), DrawNext(b, k, now, pc, a).0)
  {
    hide Sound, BooksEvolve, GuardEvolves, Materialized;
    match pc {
      case Claim =>
      case Repair(e) => RepairFollows(b, k, e);
      case Prepare(e) =>
      case Upsert(e) => UpsertFollows(b, k, e);
      case Advance(e, _) =>
      case _ =>
    }
  }

  /** Setting a status does not touch a guard that is still reserved. */
  lemma StatusFollows(b: Books, k: Key, status: EntitlementStatus, a: Action)
    requires k in b.entitlements && b.entitlements[k].active.Some? && b.entitlements[k].active.value.status != GuardReserved
    ensures Follows(b, a, WithStatus(b, k, status))
  {
  }

  lemma RepairFollows(b: Books, k: Key, e: Entitlement)
    requires Sound(b) && DrawInv(b, k, Repair(e))
    ensures Repairable(b, k, e.generation, e.active.value.drawId, e.active.value.status) ==>
              b.entitlements[k].active.value.status != GuardReserved
  {
    hide DrawsSound, AllApart, OwnIds, GuardEvolves;
    assert k in b.entitlements ==> EntitlementSound(b, k);
  }

  /** A new draw is the current one of its guard. */
  lemma UpsertFollows(b: Books, k: Key, e: Entitlement)
    requires Sound(b) && Held(b, k, e) && e.active.value.status != GuardReserved
    ensures e.active.value.drawId !in b.draws ==> HasPrize(b, k, e.active.value.drawId, e.active.value.prize)
  {
    hide Sound;
  }

  lemma SendFollows(db: Db, id: string, pc: SendPc, a: Answer)
    requires DbInv(db) && SendInv(db, id, pc)
    ensures Follows(db.books, Operate(a), SendNext(db, id, pc, a).0.books)
  {
    hide DbInv, T.LocalInv, T.ExecuteNext, PayoutOperation, GuardEvolves;
    if pc.UpdateGuard? && Settable(db.books, pc.draw.key, pc.draw.generation, id, pc.status) {
      PaidIsNotReserved(db, id, pc.draw.key);
      StatusFollows(db.books, pc.draw.key, pc.status, Operate(a));
    }
  }

  lemma PaidIsNotReserved(db: Db, id: string, k: Key)
    requires DbInv(db) && id in db.books.draws
    ensures !IsReserved(db.books, k, id)
  {
    hide DrawsSound, AllApart, OwnIds, T.SharedInv, Planned;
    assert k in db.books.entitlements ==> EntitlementSound(db.books, k);
  }

  lemma SameFollows(b: Books, a: Action)
    ensures Follows(b, a, b)
  {
  }

  lemma StepFollows(db: Db, l: Local, a: Action)
    requires DbInv(db) && LocalInv(db, l)
    ensures Follows(db.books, a, Act(db, l, a).0.books)
  {
    hide SendNext, DrawNext, SendInv, DrawInv, Follows, Sound, T.Act, T.SharedInv, T.LocalInv, SendFault, IsPrizeOperation;
    SameFollows(db.books, a);
    if a.Operate? {
      match l {
        case Drawing(k, now, pc) => DrawFollows(db.books, k, now, pc, a.answer);
        case Sending(id, pc) => SendFollows(db, id, pc, a.answer);
        case _ =>
      }
    }
  }

  // ---- over runs ----

  /** Step `n` of the schedule takes the guard out of its reservation, with the prize of its answer. */
  predicate AnsweredAt(schedule: seq<Step>, n: nat, k: Key, id: string, prize: Option<nat>)
    requires n < |schedule|
  {
    Prepares(Run(Empty, schedule[..n]).db.books, schedule[n].action, Run(Empty, schedule[..n + 1]).db.books, k, id, prize)
  }

  ghost predicate Answered(schedule: seq<Step>, k: Key, id: string, prize: Option<nat>) {
    exists n: nat :: n < |schedule| && AnsweredAt(schedule, n, k, id, prize)
  }

  lemma AnsweredLater(schedule: seq<Step>, k: Key, id: string, prize: Option<nat>)
    requires schedule != [] && Answered(schedule[..|schedule| - 1], k, id, prize)
    ensures Answered(schedule, k, id, prize)
  {
    hide Prepares, Run;
    var before := schedule[..|schedule| - 1];
    var n: nat :| n < |before| && AnsweredAt(before, n, k, id, prize);
    assert before[..n] == schedule[..n] && before[..n + 1] == schedule[..n + 1];
    assert AnsweredAt(schedule, n, k, id, prize);
  }

  lemma AnsweredNow(schedule: seq<Step>, k: Key, id: string, prize: Option<nat>)
    requires schedule != []
    requires var last := |schedule| - 1;
             Prepares(Run(Empty, schedule[..last]).db.books, schedule[last].action, Run(Empty, schedule).db.books, k, id, prize)
    ensures Answered(schedule, k, id, prize)
  {
    hide Prepares, Run;
    assert schedule[..|schedule|] == schedule;
    assert AnsweredAt(schedule, |schedule| - 1, k, id, prize);
  }

  lemma {:induction false} AllAnswered(schedule: seq<Step>)
    ensures var b := Run(Empty, schedule).db.books;
            && (forall k, id, prize | HasPrize(b, k, id, prize) :: Answered(schedule, k, id, prize))
            && (forall id | id in b.draws :: Answered(schedule, b.draws[id].key, id, b.draws[id].prize))
  {
    hide DbInv, LocalInv, HasPrize, Prepares, Answered, Act;
    var b := Run(Empty, schedule).db.books;
    if schedule == [] {
      NobodyHasPrize();
    } else {
      var before := schedule[..|schedule| - 1];
      AllAnswered(before);
      LastFollows(schedule);
      var b0 := Run(Empty, before).db.books;
      forall k, id, prize | HasPrize(b0, k, id, prize) ensures Answered(schedule, k, id, prize) {
        AnsweredLater(schedule, k, id, prize);
      }
      forall k, id, prize | HasPrize(b, k, id, prize) ensures Answered(schedule, k, id, prize) {
        if !HasPrize(b0, k, id, prize) {
          AnsweredNow(schedule, k, id, prize);
        }
      }
      forall id | id in b.draws ensures Answered(schedule, b.draws[id].key, id, b.draws[id].prize) {
        if !HasPrize(b0, b.draws[id].key, id, b.draws[id].prize) {
          AnsweredLater(schedule, b.draws[id].key, id, b.draws[id].prize);
        }
      }
    }
  }

  lemma NobodyHasPrize()
    ensures forall k, id, prize :: !HasPrize(Run(Empty, []).db.books, k, id, prize)
    ensures Run(Empty, []).db.books.draws == map[]
  {
  }

  lemma LastFollows(schedule: seq<Step>)
    requires schedule != []
    ensures Follows(Run(Empty, schedule[..|schedule| - 1]).db.books, schedule[|schedule| - 1].action, Run(Empty, schedule).db.books)
  {
    hide DbInv, LocalInv, Follows, Act;
    var s := Run(Empty, schedule[..|schedule| - 1]);
    var step := schedule[|schedule| - 1];
    Reached(schedule[..|schedule| - 1]);
    RestIsFine(s.db);
    StepFollows(s.db, s.LocalOf(step.worker), step.action);
  }

  /**
   * A step that takes a guard out of its reservation is the preparation, and stores exactly the prize that
   * was drawn at that step.
   */
  lemma LeavingStoresTheAnswer(schedule: seq<Step>, n: nat, k: Key, id: string, prize: Option<nat>)
    requires n < |schedule|
    requires IsReserved(Run(Empty, schedule[..n]).db.books, k, id) && HasPrize(Run(Empty, schedule[..n + 1]).db.books, k, id, prize)
    ensures schedule[n].action.Operate? && schedule[n].action.answer.prize == prize
    ensures Run(Empty, schedule[..n + 1]).db.books.entitlements[k].active.value.status == GuardPrepared
  {
    hide Run;
    LastFollows(schedule[..n + 1]);
    assert schedule[..n + 1][..n] == schedule[..n];
  }

  /** The prize of every draw is the one that was drawn when its reservation was prepared. */
  lemma PrizeIsTheOneDrawn(schedule: seq<Step>, id: string)
    requires id in Run(Empty, schedule).db.books.draws
    ensures var d := Run(Empty, schedule).db.books.draws[id];
            exists n: nat :: n < |schedule| && AnsweredAt(schedule, n, d.key, id, d.prize)
  {
    hide Run, AnsweredAt;
    AllAnswered(schedule);
  }

  /** It was drawn once: no draw's reservation is prepared twice, whoever helps. */
  lemma PreparedOnce(schedule: seq<Step>, m: nat, n: nat, k: Key, id: string, p: Option<nat>, q: Option<nat>)
    requires m < |schedule| && n < |schedule|
    requires AnsweredAt(schedule, m, k, id, p) && AnsweredAt(schedule, n, k, id, q)
    ensures m == n && p == q
  {
    hide Run, AnsweredAt;
    if m < n {
      NotReservedAgain(schedule, m, n, k, id, p);
      SecondNeedsReservation(schedule, n, k, id, q);
    } else if n < m {
      NotReservedAgain(schedule, n, m, k, id, q);
      SecondNeedsReservation(schedule, m, k, id, p);
    } else {
      OnePrize(schedule, m, k, id, p, q);
    }
  }

  lemma OnePrize(schedule: seq<Step>, n: nat, k: Key, id: string, p: Option<nat>, q: Option<nat>)
    requires n < |schedule| && AnsweredAt(schedule, n, k, id, p) && AnsweredAt(schedule, n, k, id, q)
    ensures p == q
  {
    hide Run;
  }

  lemma SecondNeedsReservation(schedule: seq<Step>, n: nat, k: Key, id: string, q: Option<nat>)
    requires n < |schedule| && AnsweredAt(schedule, n, k, id, q)
    ensures IsReserved(Run(Empty, schedule[..n]).db.books, k, id)
  {
    hide Run;
  }

  lemma NotReservedAgain(schedule: seq<Step>, m: nat, n: nat, k: Key, id: string, p: Option<nat>)
    requires m < n < |schedule| && AnsweredAt(schedule, m, k, id, p)
    ensures !IsReserved(Run(Empty, schedule[..n]).db.books, k, id)
  {
    hide Run, Sound, T.SharedInv, T.Evolves;
    Along(schedule, m + 1, n);
    var before, after := Run(Empty, schedule[..m + 1]).db, Run(Empty, schedule[..n]).db;
    assert GuardEvolves(k, before.books.entitlements[k], after.books.entitlements[k], after.books.draws);
    if IsReserved(after.books, k, id) && id in after.books.draws {
      PaidIsNotReserved(after, id, k);
    }
  }
}

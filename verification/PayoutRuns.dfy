/**
 * What the payout of a prize must come to (api/nft_lottery.py): with a gateway that works within the
 * validity window and a chain that confirms what was sent, the draw is claimed and its guard confirmed.
 */
module PayoutRuns {
  import opened Wrappers
  import opened TransferIntents
  import opened LotteryBooks
  import opened StakingLottery
  import opened LotteryRuns
  import T = AssetTransfers
  import P = TransferProgress

  /** Nobody else writes to a draw that is there. */
  ghost predicate LeavesDraws(env: Env) {
    forall db: Db, n: nat, id | id in db.books.draws :: SameDraw(db.books, env(db, n).books, id)
  }

  predicate SameDraw(b: Books, b': Books, id: string)
    requires id in b.draws
  {
    id in b'.draws && b'.draws[id] == b.draws[id]
  }

  /** No stored transfer expires unconfirmed before the limit. */
  ghost predicate AllPayable(s: T.Shared, limit: nat) {
    forall op | op in s.intents :: P.Payable(s, s.intents[op], limit)
  }

  /** The chain confirms what has been sent, and nobody stores a transfer that expires before the limit. */
  ghost predicate Prompt(env: Env, limit: nat) {
    forall db: Db, n: nat | DbInv(db) ::
      P.Confirms(db.transfers, env(db, n).transfers)
      && (AllPayable(db.transfers, limit) ==> AllPayable(env(db, n).transfers, limit))
  }

  ghost predicate WorksAlways(answers: Answers, limit: nat) {
    forall n: nat :: P.Works(answers(n).gateway, limit)
  }

  /** The guard of the draw is confirmed, or it has moved on to another generation. */
  predicate GuardSays(b: Books, id: string)
    requires id in b.draws
  {
    At(b, b.draws[id].key, b.draws[id].generation, id) ==>
      b.entitlements[b.draws[id].key].active.value.status == GuardConfirmed
  }

  /** The draw is paid: claimed, with its receipt. */
  predicate Paid(b: Books, id: string) {
    id in b.draws && b.draws[id].claimed && b.draws[id].payoutStatus == PayoutConfirmed
    && b.draws[id].payoutTxid.Some? && b.draws[id].confirmedRound.Some?
  }

  /** The payout is on its way, or done. */
  predicate Smooth(db: Db, id: string, l: Local, limit: nat) {
    match l
    case Sending(i, pc) =>
      i == id &&
      (match pc
       case ReservePayout(d) => Preparable(db.books, id) && d.prize.Some?
       case Pay(_, t) => Open(db.books, id, PayoutOperation(id)) && P.OnCourse(db.transfers, t, limit)
       case RecordPayout(_, receipt) => Open(db.books, id, PayoutOperation(id)) && receipt.operationId == PayoutOperation(id)
       case UpdateGuard(d, status) => status == GuardConfirmed && Paid(db.books, id) && d.key == db.books.draws[id].key
                                      && d.generation == db.books.draws[id].generation
       case UpdateMissed(_, status) => status == GuardConfirmed && Paid(db.books, id)
                                       && !At(db.books, db.books.draws[id].key, db.books.draws[id].generation, id)
       case _ => false)
    case Sent(i) => i == id && Paid(db.books, id) && GuardSays(db.books, id)
    case _ => false
  }

  /** A guard that has moved on from a draw never comes back to it. */
  lemma MovedOnStays(b: Books, b': Books, id: string)
    requires Sound(b) && BooksEvolve(b, b') && id in b.draws && SameDraw(b, b', id)
    requires !At(b, b.draws[id].key, b.draws[id].generation, id)
    ensures !At(b', b.draws[id].key, b.draws[id].generation, id)
  {
    hide GuardsSound, AllApart, OwnIds;
    assert DrawSound(b, id);
    var k := b.draws[id].key;
    assert GuardEvolves(k, b.entitlements[k], b'.entitlements[k], b'.draws);
  }

  /** A move of the others leaves a payout on its way. */
  lemma SmoothPause(db: Db, db1: Db, id: string, l: Local, limit: nat)
    requires DbInv(db) && Evolves(db, db1) && l.Sending? && !l.spc.Pay?
    requires id in db.books.draws && SameDraw(db.books, db1.books, id) && Smooth(db, id, l, limit)
    ensures Smooth(db1, id, l, limit)
  {
    hide Sound, T.Evolves, BooksEvolve, T.SharedInv, PayoutOperation;
    if l.spc.UpdateMissed? {
      MovedOnStays(db.books, db1.books, id);
    }
  }

  /** The operations on the draw and its guard. */
  lemma BookStep(db: Db, id: string, pc: SendPc, a: Answer, limit: nat)
    requires !pc.Pay? && Smooth(db, id, Sending(id, pc), limit) && AllPayable(db.transfers, limit)
    ensures var (db', l') := SendNext(db, id, pc, a);
            Smooth(db', id, l', limit) && db'.transfers == db.transfers
  {
    hide PayoutOperation, AllPayable, P.Payable;
  }

  lemma OwnFits(db: Db, id: string, d: Draw, limit: nat)
    requires DbInv(db) && Known(db.books, id, d) && AllPayable(db.transfers, limit)
    ensures P.Fits(db.transfers, PrizeRequest(id, d), limit)
  {
    hide T.SharedInv, Sound, PayoutOperation;
    var op := PayoutOperation(id);
    if op in db.transfers.intents {
      assert Planned(db, op);
      assert PaysPrize(db.books, id, db.transfers.intents[op]);
    }
  }

  /** The transfer's own operations. */
  lemma PayStepSmooth(db: Db, db1: Db, id: string, pc: SendPc, a: Answer, limit: nat)
    requires DbInv(db) && DbInv(db1) && T.Evolves(db.transfers, db1.transfers) && P.Confirms(db.transfers, db1.transfers)
    requires pc.Pay? && SendInv(db, id, pc) && SendInv(db1, id, pc) && P.OnCourse(db.transfers, pc.transfer, limit)
    requires Open(db1.books, id, PayoutOperation(id)) && P.Works(a.gateway, limit) && AllPayable(db1.transfers, limit)
    ensures var (db', l') := SendNext(db1, id, pc, a);
            Smooth(db', id, l', limit) && AllPayable(db'.transfers, limit) && db'.books == db1.books
  {
    hide DbInv, T.Evolves, T.ExecuteNext, T.ExecInv, PayoutOperation, P.Fits, P.OnCourse, P.Works, P.Confirms, AllPayable;
    var request := PrizeRequest(id, pc.draw);
    var (s, t) := T.ExecuteNext(db1.transfers, request, pc.transfer.pc, a.gateway);
    SharedIsSound(db);
    SharedIsSound(db1);
    OwnFits(db1, id, pc.draw, limit);
    P.CourseStep(db.transfers, db1.transfers, request, pc.transfer.pc, a.gateway, limit);
    T.ExecuteKeeps(db1.transfers, request, pc.transfer.pc, a.gateway);
    T.PayStaysOwn(db1.transfers, request, pc.transfer.pc, a.gateway);
    OthersPayable(db1.transfers, s, request, pc.transfer.pc, a.gateway, limit);
    OnCourseEnds(s, t, limit);
  }

  lemma SharedIsSound(db: Db)
    requires DbInv(db)
    ensures T.SharedInv(db.transfers)
  {
  }

  lemma OnCourseEnds(s: T.Shared, t: T.Local, limit: nat)
    requires P.OnCourse(s, t, limit)
    ensures t.Executing? || t.Done?
  {
  }

  /** One operation of a transfer leaves the other transfers as payable as they were. */
  lemma OthersPayable(s: T.Shared, s': T.Shared, request: Request, pc: T.ExecPc, a: T.Answer, limit: nat)
    requires s' == T.ExecuteNext(s, request, pc, a).0 && T.Evolves(s, s')
    requires AllPayable(s, limit) && P.Fits(s', request, limit)
    ensures AllPayable(s', limit)
  {
    hide T.ExecuteNext;
    forall op | op in s'.intents ensures P.Payable(s', s'.intents[op], limit) {
      if op in s.intents {
        assert P.Payable(s, s.intents[op], limit);
      } else {
        T.OnlyOwnIntent(s, request, pc, a, op);
      }
    }
  }

  // ---- whole payouts ----

  /** Other draws are not touched by the payout of one. */
  ghost predicate OthersSame(b: Books, b': Books, id: string) {
    forall other | other in b.draws && other != id :: SameDraw(b, b', other)
  }

  lemma SendTouchesOne(db: Db, id: string, pc: SendPc, a: Answer)
    ensures OthersSame(db.books, SendNext(db, id, pc, a).0.books, id)
    ensures var l' := SendNext(db, id, pc, a).1; l'.Sending? ==> l'.id == id
  {
    hide T.ExecuteNext, PayoutOperation, Preparable, Open, Settable;
  }

  /** The call is the payout of one document that can be paid. */
  ghost predicate PayoutCall(call: Call, id: string, d: Draw) {
    && call.first == Sending(id, ReservePayout(d)) && d.prize.Some?
    && DbInv(call.start) && Known(call.start.books, id, d) && Preparable(call.start.books, id)
  }

  lemma {:induction false} SmoothAfter(env: Env, answers: Answers, call: Call, id: string, d: Draw, limit: nat, n: nat)
    requires Obeys(env) && LeavesDraws(env) && Prompt(env, limit) && WorksAlways(answers, limit)
    requires PayoutCall(call, id, d) && AllPayable(call.start.transfers, limit)
    ensures var (db, l) := After(env, answers, call, n);
            Smooth(db, id, l, limit) && AllPayable(db.transfers, limit) && OthersSame(call.start.books, db.books, id)
  {
    hide DbInv, Evolves, SendNext, Smooth, AllPayable, P.Works, P.Confirms, Obeys, LocalInv, Preparable;
    KnownStarts(call, id, d, limit);
    if n > 0 {
      SmoothAfter(env, answers, call, id, d, limit, n - 1);
      AfterKeeps(env, answers, call, n - 1);
      var (db, l) := After(env, answers, call, n - 1);
      var turn := call.base + n - 1;
      PausedSmooth(env, answers, call.start, db, l, id, limit, turn);
    }
  }

  lemma KnownStarts(call: Call, id: string, d: Draw, limit: nat)
    requires PayoutCall(call, id, d)
    ensures LocalInv(call.start, call.first) && Smooth(call.start, id, call.first, limit)
    ensures OthersSame(call.start.books, call.start.books, id)
  {
    hide DbInv;
  }

  /** A move of the others, and the next operation of the payout. */
  lemma PausedSmooth(env: Env, answers: Answers, start: Db, db: Db, l: Local, id: string, limit: nat, turn: nat)
    requires Obeys(env) && LeavesDraws(env) && Prompt(env, limit) && WorksAlways(answers, limit)
    requires DbInv(db) && LocalInv(db, l) && Smooth(db, id, l, limit) && AllPayable(db.transfers, limit)
    requires OthersSame(start.books, db.books, id)
    ensures var (db', l') := Act(env(db, turn), l, Operate(answers(turn)));
            Smooth(db', id, l', limit) && AllPayable(db'.transfers, limit) && OthersSame(start.books, db'.books, id)
  {
    hide DbInv, SendNext, AllPayable, P.Works, P.Confirms, SendInv, PayoutOperation;
    var db1 := env(db, turn);
    assert DbInv(db1) && Evolves(db, db1) && AllPayable(db1.transfers, limit) && P.Confirms(db.transfers, db1.transfers);
    Stable(db, db1, l);
    OthersStill(env, start, db, id, turn);
    SmoothIsKnown(db, id, l, limit);
    assert SameDraw(db.books, db1.books, id);
    match l {
      case Sending(i, pc) =>
        var next := SendNext(db1, id, pc, answers(turn));
        SendTouchesOne(db1, id, pc, answers(turn));
        OthersChain(start.books, db1.books, next.0.books, id);
        if pc.Pay? {
          PayStepSmooth(db, db1, id, pc, answers(turn), limit);
        } else {
          SmoothPause(db, db1, id, l, limit);
          BookStep(db1, id, pc, answers(turn), limit);
        }
      case Sent(i) => SentStays(db, db1, id, limit);
    }
  }

  lemma SmoothIsKnown(db: Db, id: string, l: Local, limit: nat)
    requires Smooth(db, id, l, limit)
    ensures id in db.books.draws && ((l.Sending? && l.id == id) || l == Sent(id))
  {
  }

  lemma OthersStill(env: Env, start: Db, db: Db, id: string, turn: nat)
    requires LeavesDraws(env) && OthersSame(start.books, db.books, id)
    ensures OthersSame(start.books, env(db, turn).books, id)
  {
    forall other | other in start.books.draws && other != id ensures SameDraw(start.books, env(db, turn).books, other) {
      assert SameDraw(start.books, db.books, other);
      assert SameDraw(db.books, env(db, turn).books, other);
    }
  }

  lemma OthersChain(a: Books, b: Books, c: Books, id: string)
    requires OthersSame(a, b, id) && OthersSame(b, c, id)
    ensures OthersSame(a, c, id)
  {
    forall other | other in a.draws && other != id ensures SameDraw(a, c, other) {
      assert SameDraw(a, b, other) && SameDraw(b, c, other);
    }
  }

  /** A confirmed guard stays confirmed while it is at the draw. */
  lemma SentStays(db: Db, db1: Db, id: string, limit: nat)
    requires DbInv(db) && Evolves(db, db1) && Smooth(db, id, Sent(id), limit) && SameDraw(db.books, db1.books, id)
    ensures Smooth(db1, id, Sent(id), limit)
  {
    hide T.Evolves, T.SharedInv, Sound;
    var k := db.books.draws[id].key;
    if At(db.books, k, db.books.draws[id].generation, id) {
      assert GuardEvolves(k, db.books.entitlements[k], db1.books.entitlements[k], db1.books.draws);
    } else {
      MovedOnStays(db.books, db1.books, id);
    }
  }

  /** The others turn out to have changed the draw: an update of it missed. */
  predicate IsMissed(l: Local) {
    l.Sending? && (l.spc.ReserveMissed? || l.spc.RecordMissed?)
  }

  ghost predicate MissedBefore(env: Env, answers: Answers, call: Call, turn: nat) {
    exists n: nat :: call.base + n < turn && IsMissed(After(env, answers, call, n).1)
  }

  lemma Missed(env: Env, answers: Answers, call: Call, db: Db, l: Local, turn: nat, later: nat)
    requires ComeTo(env, answers, call, db, l, turn) && IsMissed(l) && turn < later
    ensures MissedBefore(env, answers, call, later)
  {
    assert IsMissed(After(env, answers, call, turn - call.base).1);
  }

  /** A payout that nobody disturbs misses nothing and ends with the draw paid. */
  lemma PayoutSucceeds(env: Env, answers: Answers, call: Call, id: string, d: Draw, limit: nat, db: Db, l: Local, turn: nat)
    requires Obeys(env) && LeavesDraws(env) && Prompt(env, limit) && WorksAlways(answers, limit)
    requires PayoutCall(call, id, d) && AllPayable(call.start.transfers, limit)
    requires ComeTo(env, answers, call, db, l, turn) && !l.Sending?
    ensures !MissedBefore(env, answers, call, turn)
    ensures l == Sent(id) && Paid(db.books, id) && GuardSays(db.books, id)
    ensures AllPayable(db.transfers, limit) && OthersSame(call.start.books, db.books, id)
  {
    hide After, Obeys, LeavesDraws, Prompt, WorksAlways, PayoutCall, AllPayable, OthersSame;
    SmoothAfter(env, answers, call, id, d, limit, turn - call.base);
    forall n: nat ensures !IsMissed(After(env, answers, call, n).1) {
      SmoothAfter(env, answers, call, id, d, limit, n);
    }
  }

  // ---- all payouts of one run ----

  /** Every draw with an unclaimed prize can be paid. */
  ghost predicate AllReady(b: Books) {
    forall id | id in b.draws && b.draws[id].Outstanding() :: Preparable(b, id)
  }

  predicate PaidOut(b: Books, id: string) {
    Paid(b, id) && GuardSays(b, id)
  }

  /** The draw is still as it was read. */
  predicate AsRead(b: Books, document: (string, Draw)) {
    document.0 in b.draws && b.draws[document.0] == document.1
  }

  /** The first n documents are paid, and the others are as they were read. */
  ghost predicate PaidUpTo(db: Db, documents: seq<(string, Draw)>, n: nat, limit: nat) {
    && AllPayable(db.transfers, limit)
    && (forall j | 0 <= j < n && j < |documents| :: PaidOut(db.books, documents[j].0))
    && (forall j | n <= j < |documents| :: AsRead(db.books, documents[j]))
  }

  lemma PaidNext(db: Db, db': Db, documents: seq<(string, Draw)>, n: nat, limit: nat)
    requires PaidUpTo(db, documents, n, limit) && n < |documents| && DbInv(db) && Evolves(db, db')
    requires forall i, j | 0 <= i < j < |documents| :: documents[i].0 != documents[j].0
    requires OthersSame(db.books, db'.books, documents[n].0) && PaidOut(db'.books, documents[n].0) && AllPayable(db'.transfers, limit)
    ensures PaidUpTo(db', documents, n + 1, limit)
  {
    hide DbInv, Evolves, AllPayable;
    forall j | 0 <= j < |documents| && j != n
      ensures documents[j].0 in db.books.draws && SameDraw(db.books, db'.books, documents[j].0)
      ensures j < n ==> PaidOut(db'.books, documents[j].0)
    {
      assert documents[j].0 != documents[n].0;
      assert j < n ==> PaidOut(db.books, documents[j].0);
      assert j > n ==> AsRead(db.books, documents[j]);
      if j < n {
        PaidStays(db, db', documents[j].0, limit);
      }
    }
  }

  lemma PaidStays(db: Db, db': Db, id: string, limit: nat)
    requires DbInv(db) && Evolves(db, db') && PaidOut(db.books, id) && SameDraw(db.books, db'.books, id)
    ensures PaidOut(db'.books, id)
  {
    hide DbInv, Evolves;
    SentStays(db, db', id, limit);
  }
}

/**
 * One call of a lottery worker from beginning to end (api/nft_lottery.py). Before each operation on the
 * collections the other workers and the chain may do what `env` says.
 */
module LotteryRuns {
  import opened Wrappers
  import opened TransferIntents
  import opened LotteryBooks
  import opened StakingLottery
  import T = AssetTransfers

  type Env = (Db, nat) -> Db
  type Answers = nat -> Answer

  /** The others follow the protocol: what they do is what `StakingLottery.StepKeeps` allows. */
  ghost predicate Obeys(env: Env) {
    forall db: Db, n: nat | DbInv(db) :: DbInv(env(db, n)) && Evolves(db, env(db, n))
  }

  /** A call of this worker: at which turn, in which state and where it began. */
  datatype Call = Call(base: nat, start: Db, first: Local)

  /** The collections and this worker after the call's first `n` operations, each after a move of the others. */
  ghost function After(env: Env, answers: Answers, call: Call, n: nat): (Db, Local) {
    if n == 0 then (call.start, call.first)
    else
      var (db, l) := After(env, answers, call, n - 1);
      Act(env(db, call.base + n - 1), l, Operate(answers(call.base + n - 1)))
  }

  /** The call has come to exactly here. */
  ghost predicate ComeTo(env: Env, answers: Answers, call: Call, db: Db, l: Local, turn: nat) {
    call.base <= turn && After(env, answers, call, turn - call.base) == (db, l)
  }

  /** The others move, and then this worker makes its next operation. */
  lemma Proceed(env: Env, answers: Answers, call: Call, db: Db, l: Local, turn: nat)
    requires ComeTo(env, answers, call, db, l, turn)
    ensures var (db', l') := Act(env(db, turn), l, Operate(answers(turn))); ComeTo(env, answers, call, db', l', turn + 1)
  {
    hide Act;
  }

  /** Among workers of the protocol, all of this keeps what single steps keep. */
  lemma {:induction false} AfterKeeps(env: Env, answers: Answers, call: Call, n: nat)
    requires Obeys(env) && DbInv(call.start) && LocalInv(call.start, call.first)
    ensures var (db, l) := After(env, answers, call, n); DbInv(db) && LocalInv(db, l) && Evolves(call.start, db)
  {
    hide DbInv, LocalInv, Evolves, Act;
    StakingLottery.SelfEvolves(call.start);
    if n > 0 {
      AfterKeeps(env, answers, call, n - 1);
      var (db, l) := After(env, answers, call, n - 1);
      var paused := env(db, call.base + n - 1);
      Stable(db, paused, l);
      StepKeeps(paused, l, Operate(answers(call.base + n - 1)));
      StakingLottery.EvolvesTransitive(call.start, db, paused);
      StakingLottery.EvolvesTransitive(call.start, paused, Act(paused, l, Operate(answers(call.base + n - 1))).0);
    }
  }

  /** What a worker among workers of the protocol can be sure of. */
  lemma Conclude(env: Env, answers: Answers, call: Call, db: Db, l: Local, turn: nat)
    requires ComeTo(env, answers, call, db, l, turn)
    ensures call.base <= turn && After(env, answers, call, turn - call.base) == (db, l)
    ensures Obeys(env) && DbInv(call.start) && LocalInv(call.start, call.first) ==>
              && DbInv(db) && Evolves(call.start, db)
              && (l.Drawn? ==> l.id in db.books.draws && db.books.draws[l.id].Core() == l.draw.Core())
              && (l.Sent? ==> l.id in db.books.draws && db.books.draws[l.id].claimed)
  {
    hide DbInv, Evolves, Obeys, After;
    if Obeys(env) && DbInv(call.start) && LocalInv(call.start, call.first) {
      AfterKeeps(env, answers, call, turn - call.base);
    }
  }

  lemma Arrived(env: Env, answers: Answers, call: Call, db: Db, l: Local, turn: nat)
    requires ComeTo(env, answers, call, db, l, turn)
    ensures call.base <= turn && After(env, answers, call, turn - call.base) == (db, l)
  {
  }

  lemma Opens(env: Env, answers: Answers, call: Call)
    ensures ComeTo(env, answers, call, call.start, call.first, call.base)
  {
  }

  /** Where the payout of a document begins; a draw of another operation is an error at once. */
  function PayoutStart(id: string, draw: Draw): Local {
    Sending(id, if draw.payoutOperation.Some? && draw.payoutOperation != Some(PayoutOperation(id))
                then UpdateGuard(draw, GuardUnresolved) else ReservePayout(draw))
  }

  // ---- this worker's own prize ----

  /** Operation `n` of the call stores the prize of a reservation. */
  ghost predicate PreparesAt(env: Env, answers: Answers, call: Call, n: nat) {
    var (db, l) := After(env, answers, call, n);
    && l.Drawing? && l.pc.Prepare? && l.pc.held.active.Some?
    && Repairable(env(db, call.base + n).books, l.key, l.pc.held.generation, l.pc.held.active.value.drawId, GuardReserved)
  }

  /** The call goes on with this prize, and ends with it. */
  predicate CarriesPrize(l: Local, prize: Option<nat>) {
    match l
    case Drawing(_, _, pc) =>
      (match pc
       case Upsert(e) => e.active.Some? && e.active.value.prize == prize
       case Advance(_, d) => d.prize == prize
       case Recheck(_, d) => d.prize == prize
       case _ => false)
    case Drawn(_, d) => d.prize == prize
    case Failed(_) => true
    case _ => false
  }

  lemma PrizeCarried(db: Db, l: Local, a: Answer, prize: Option<nat>)
    requires CarriesPrize(l, prize)
    ensures CarriesPrize(Act(db, l, Operate(a)).1, prize)
  {
    hide SendNext, Advanceable, MaterializedStatus;
  }

  /** What a call has prepared itself it ends with: the prize of its answer at that operation. */
  lemma {:induction false} OwnPrizeStays(env: Env, answers: Answers, call: Call, m: nat, n: nat)
    requires m < n && PreparesAt(env, answers, call, m)
    ensures CarriesPrize(After(env, answers, call, n).1, answers(call.base + m).prize)
    decreases n
  {
    hide Act, Repairable;
    var (db, l) := After(env, answers, call, n - 1);
    if m < n - 1 {
      OwnPrizeStays(env, answers, call, m, n - 1);
      PrizeCarried(env(db, call.base + n - 1), l, answers(call.base + n - 1), answers(call.base + m).prize);
    } else {
      OwnPrizeStored(env(db, call.base + m), l, answers(call.base + m));
    }
  }

  lemma OwnPrizeStored(db: Db, l: Local, a: Answer)
    requires l.Drawing? && l.pc.Prepare? && l.pc.held.active.Some?
    requires Repairable(db.books, l.key, l.pc.held.generation, l.pc.held.active.value.drawId, GuardReserved)
    ensures CarriesPrize(Act(db, l, Operate(a)).1, a.prize)
  {
  }

  /** What is over stays as it is. */
  lemma {:induction false} OverStays(env: Env, answers: Answers, call: Call, m: nat, n: nat)
    requires m <= n
    requires var l := After(env, answers, call, m).1; l.Drawn? || l.Failed? || l.NoDraw? || l.Sent? || l.LeftOpen?
    ensures After(env, answers, call, n).1 == After(env, answers, call, m).1
    decreases n
  {
    if m < n {
      OverStays(env, answers, call, m, n - 1);
      hide DrawNext, SendNext;
    }
  }

  // ---- a draw that nobody disturbs ----

  /** Nobody else writes to the lottery's documents. */
  ghost predicate BooksStill(env: Env) {
    forall db: Db, n: nat :: env(db, n).books == db.books
  }

  /** A draw is due: the wallet has no guard and no draws yet, or its guard is at rest and the interval is over. */
  ghost predicate Due(b: Books, k: Key, now: int) {
    if k in b.entitlements then Claimable(b, k, now)
    else now >= 0 && forall id | id in b.draws :: b.draws[id].key != k
  }

  function GenerationOf(b: Books, k: Key): nat {
    if k in b.entitlements then b.entitlements[k].generation else 0
  }

  /** The books with the next draw of the key, and its guard saying so. */
  function WithDraw(b: Books, k: Key, now: int, id: string, prize: Option<nat>): Books {
    var g := GenerationOf(b, k) + 1;
    Books(b.entitlements[k := Entitlement(g, now + MIN_DRAW_INTERVAL, Some(Active(id, now, prize, MaterializedStatus(prize))))],
          b.draws[id := Draw(k, prize, now, g, false, None, None, None, Pending)], b.issued + {id})
  }

  lemma StillNext(env: Env, answers: Answers, call: Call, n: nat)
    requires BooksStill(env)
    ensures var (db, l) := After(env, answers, call, n);
            env(db, call.base + n).books == db.books
    ensures var (db, l) := After(env, answers, call, n);
            After(env, answers, call, n + 1) == Act(env(db, call.base + n), l, Operate(answers(call.base + n)))
  {
    hide Act;
    var (db, l) := After(env, answers, call, n);
    assert env(db, call.base + n).books == db.books;
  }

  /** How far an undisturbed draw has come; 9 is anywhere else. */
  function StageOf(l: Local): nat {
    match l
    case Drawing(_, _, SeedRead) => 0
    case Drawing(_, _, SeedInsert(_)) => 1
    case Drawing(_, _, Claim) => 2
    case Drawing(_, _, Prepare(_)) => 3
    case Drawing(_, _, Upsert(_)) => 4
    case Drawing(_, _, Advance(_, _)) => 5
    case Drawn(_, _) => 6
    case _ => 9
  }

  ghost function StageAt(env: Env, answers: Answers, call: Call, n: nat): nat {
    StageOf(After(env, answers, call, n).1)
  }

  ghost function BooksAt(env: Env, answers: Answers, call: Call, n: nat): Books {
    After(env, answers, call, n).0.books
  }

  /** The first three operations of a draw: look for old draws, seed, claim. */
  lemma DueClaims(env: Env, answers: Answers, call: Call, k: Key, now: int, m: nat)
    requires BooksStill(env) && After(env, answers, call, m).1 == Drawing(k, now, SeedRead)
    requires Due(BooksAt(env, answers, call, m), k, now) && answers(call.base + m + 2).uuid !in BooksAt(env, answers, call, m).issued
    ensures StageAt(env, answers, call, m + 1) == 1 && StageAt(env, answers, call, m + 2) == 2
    ensures Claimable(Seeded(BooksAt(env, answers, call, m), k), k, now)
    ensures var b := Claimed(Seeded(BooksAt(env, answers, call, m), k), k, answers(call.base + m + 2).uuid, now);
            BooksAt(env, answers, call, m + 3) == b && After(env, answers, call, m + 3).1 == Drawing(k, now, Prepare(b.entitlements[k]))
  {
    hide After, BooksStill;
    StillNext(env, answers, call, m);
    StillNext(env, answers, call, m + 1);
    StillNext(env, answers, call, m + 2);
  }

  /** The other three: store the prize, insert the draw, and mark the guard. */
  lemma ClaimedDraws(env: Env, answers: Answers, call: Call, k: Key, now: int, m: nat, e: Entitlement)
    requires BooksStill(env) && After(env, answers, call, m).1 == Drawing(k, now, Prepare(e))
    requires var b := BooksAt(env, answers, call, m);
             k in b.entitlements && b.entitlements[k] == e && e.active.Some? && e.active.value.status == GuardReserved
             && e.active.value.drawId !in b.draws
    ensures StageAt(env, answers, call, m + 1) == 4 && StageAt(env, answers, call, m + 2) == 5
    ensures var b := BooksAt(env, answers, call, m);
            var a := e.active.value.(prize := answers(call.base + m).prize, status := MaterializedStatus(answers(call.base + m).prize));
            var d := DrawFor(k, e.generation, a);
            && BooksAt(env, answers, call, m + 3) == Books(b.entitlements[k := e.(active := Some(a))], b.draws[a.drawId := d], b.issued)
            && After(env, answers, call, m + 3).1 == Drawn(a.drawId, d)
  {
    hide After, BooksStill;
    StillNext(env, answers, call, m);
    StillNext(env, answers, call, m + 1);
    StillNext(env, answers, call, m + 2);
  }

  /** A draw that is due is drawn in six operations, with the prize that the fourth of them was given. */
  lemma DueDraws(env: Env, answers: Answers, call: Call, k: Key, now: int, m: nat)
    requires BooksStill(env) && After(env, answers, call, m).1 == Drawing(k, now, SeedRead)
    requires var b := BooksAt(env, answers, call, m);
             Due(b, k, now) && answers(call.base + m + 2).uuid !in b.issued && answers(call.base + m + 2).uuid !in b.draws
    ensures forall n: nat | m < n < m + 6 :: StageAt(env, answers, call, n) == n - m
    ensures var id := answers(call.base + m + 2).uuid;
            var b := WithDraw(BooksAt(env, answers, call, m), k, now, id, answers(call.base + m + 3).prize);
            BooksAt(env, answers, call, m + 6) == b && After(env, answers, call, m + 6).1 == Drawn(id, b.draws[id])
  {
    hide After, BooksStill, Due;
    var b := BooksAt(env, answers, call, m);
    DueClaims(env, answers, call, k, now, m);
    var b3 := Claimed(Seeded(b, k), k, answers(call.base + m + 2).uuid, now);
    ClaimedDraws(env, answers, call, k, now, m + 3, b3.entitlements[k]);
    assert BooksAt(env, answers, call, m + 6).entitlements
        == WithDraw(b, k, now, answers(call.base + m + 2).uuid, answers(call.base + m + 3).prize).entitlements;
    forall n: nat | m < n < m + 6 ensures StageAt(env, answers, call, n) == n - m {
      assert n == m + 1 || n == m + 2 || n == m + 3 || n == m + 4 || n == m + 5;
    }
  }

  /** The guard of a draw that was claimed in the meantime lags behind, and the next draw is due. */
  predicate Lagging(b: Books, k: Key, now: int) {
    k in b.entitlements && b.entitlements[k].nextEligibleAt <= now && b.entitlements[k].active.Some? &&
    var a := b.entitlements[k].active.value;
    && (a.status == GuardMaterialized || a.status == GuardUnresolved)
    && a.drawId in b.draws && b.draws[a.drawId].claimed && b.draws[a.drawId].payoutStatus == PayoutConfirmed
  }

  /** A guard that lags behind is repaired in six operations, and then the next draw is due. */
  lemma LaggingIsRepaired(env: Env, answers: Answers, call: Call, k: Key, now: int, m: nat)
    requires BooksStill(env) && After(env, answers, call, m).1 == Drawing(k, now, SeedRead)
    requires Lagging(BooksAt(env, answers, call, m), k, now)
    ensures forall n: nat | m < n < m + 6 :: After(env, answers, call, n).1.Drawing? && (StageAt(env, answers, call, n) in {1, 2, 9})
    ensures StageAt(env, answers, call, m + 1) == 1 && StageAt(env, answers, call, m + 2) == 2 && StageAt(env, answers, call, m + 3) == 9
    ensures StageAt(env, answers, call, m + 4) == 9 && StageAt(env, answers, call, m + 5) == 9
    ensures After(env, answers, call, m + 6).1 == Drawing(k, now, SeedRead)
    ensures BooksAt(env, answers, call, m + 6) == WithStatus(BooksAt(env, answers, call, m), k, GuardConfirmed)
    ensures Due(BooksAt(env, answers, call, m + 6), k, now)
  {
    hide After, BooksStill;
    StillNext(env, answers, call, m);
    StillNext(env, answers, call, m + 1);
    StillNext(env, answers, call, m + 2);
    var b := BooksAt(env, answers, call, m);
    var e := b.entitlements[k];
    assert After(env, answers, call, m + 3).1 == Drawing(k, now, Current) && BooksAt(env, answers, call, m + 3) == b;
    LaggingIsFound(env, answers, call, k, now, m + 3);
    forall n: nat | m < n < m + 6
      ensures After(env, answers, call, n).1.Drawing? && (StageAt(env, answers, call, n) in {1, 2, 9})
    {
      assert n == m + 1 || n == m + 2 || n == m + 3 || n == m + 4 || n == m + 5;
    }
  }

  lemma LaggingIsFound(env: Env, answers: Answers, call: Call, k: Key, now: int, m: nat)
    requires BooksStill(env) && After(env, answers, call, m).1 == Drawing(k, now, Current)
    requires Lagging(BooksAt(env, answers, call, m), k, now)
    ensures After(env, answers, call, m + 1).1.Drawing? && After(env, answers, call, m + 2).1.Drawing?
    ensures StageAt(env, answers, call, m + 1) == 9 && StageAt(env, answers, call, m + 2) == 9
    ensures After(env, answers, call, m + 3).1 == Drawing(k, now, SeedRead)
    ensures BooksAt(env, answers, call, m + 3) == WithStatus(BooksAt(env, answers, call, m), k, GuardConfirmed)
  {
    hide After, BooksStill;
    StillNext(env, answers, call, m);
    StillNext(env, answers, call, m + 1);
    StillNext(env, answers, call, m + 2);
  }

  /** Where a call stops without an answer: it has repaired as often as it may, or its new draw ID was not new. */
  ghost predicate StopsAt(env: Env, answers: Answers, call: Call, n: nat, depth: nat) {
    (StageAt(env, answers, call, n) == 0 && n == 6 * depth) || (StageAt(env, answers, call, n) == 2 && n % 6 == 3)
  }

  /** A draw that is due is what the call ends with. */
  lemma DueIsDrawn(env: Env, answers: Answers, call: Call, k: Key, now: int, n: nat, depth: nat)
    requires BooksStill(env) && call == Call(0, call.start, Drawing(k, now, SeedRead)) && depth >= 1
    requires Due(call.start.books, k, now)
    requires answers(2).uuid !in call.start.books.issued && answers(2).uuid !in call.start.books.draws
    requires var l := After(env, answers, call, n).1; !l.Drawing? || StopsAt(env, answers, call, n, depth)
    ensures var b := WithDraw(call.start.books, k, now, answers(2).uuid, answers(3).prize);
            BooksAt(env, answers, call, n) == b && After(env, answers, call, n).1 == Drawn(answers(2).uuid, b.draws[answers(2).uuid])
  {
    hide Act, BooksStill, Due, WithDraw, StageOf;
    StartsThere(env, answers, call);
    DueDraws(env, answers, call, k, now, 0);
    Stages();
    var stage := StageAt(env, answers, call, n);
    assert 0 < n < 6 ==> stage == n;
    if n >= 6 {
      BooksStay(env, answers, call, 6, n);
    }
  }

  /** And so it is after a repair, when the call may repair once. */
  lemma LaggingIsDrawn(env: Env, answers: Answers, call: Call, k: Key, now: int, n: nat, depth: nat)
    requires BooksStill(env) && call == Call(0, call.start, Drawing(k, now, SeedRead)) && depth >= 2
    requires Lagging(call.start.books, k, now)
    requires answers(8).uuid !in call.start.books.issued && answers(8).uuid !in call.start.books.draws
    requires var l := After(env, answers, call, n).1; !l.Drawing? || StopsAt(env, answers, call, n, depth)
    ensures var b := WithDraw(WithStatus(call.start.books, k, GuardConfirmed), k, now, answers(8).uuid, answers(9).prize);
            BooksAt(env, answers, call, n) == b && After(env, answers, call, n).1 == Drawn(answers(8).uuid, b.draws[answers(8).uuid])
  {
    hide Act, BooksStill, Due, WithDraw, StageOf;
    StartsThere(env, answers, call);
    LaggingIsRepaired(env, answers, call, k, now, 0);
    DueDraws(env, answers, call, k, now, 6);
    Stages();
    var stage := StageAt(env, answers, call, n);
    assert 6 < n < 12 ==> stage == n - 6;
    assert 0 < n < 6 ==> stage in {1, 2, 9};
    if n >= 12 {
      BooksStay(env, answers, call, 12, n);
    }
  }

  /** A reservation that somebody left unfinished. */
  predicate Unfinished(b: Books, k: Key) {
    k in b.entitlements && b.entitlements[k].active.Some? &&
    var a := b.entitlements[k].active.value;
    || (a.status == GuardReserved && a.drawId !in b.draws)
    || (a.status == GuardPrepared && (a.drawId in b.draws ==>
          b.draws[a.drawId].Core() == (k, a.prize, a.timestamp, b.entitlements[k].generation)))
  }

  /** The books with that reservation finished: the prize that is stored, or the one drawn now. */
  function Finished(b: Books, k: Key, drawn: Option<nat>): Books
    requires k in b.entitlements && b.entitlements[k].active.Some?
  {
    var e := b.entitlements[k];
    var prize := if e.active.value.status == GuardReserved then drawn else e.active.value.prize;
    var a := e.active.value.(prize := prize, status := MaterializedStatus(prize));
    Books(b.entitlements[k := e.(active := Some(a))],
          if a.drawId in b.draws then b.draws else b.draws[a.drawId := DrawFor(k, e.generation, a)], b.issued)
  }

  /** A stored prize is materialized in two operations. */
  lemma PreparedDraws(env: Env, answers: Answers, call: Call, k: Key, now: int, m: nat, e: Entitlement)
    requires BooksStill(env) && After(env, answers, call, m).1 == Drawing(k, now, Upsert(e))
    requires var b := BooksAt(env, answers, call, m);
             Unfinished(b, k) && b.entitlements[k] == e && e.active.value.status == GuardPrepared
    ensures StageAt(env, answers, call, m + 1) == 5
    ensures var b := Finished(BooksAt(env, answers, call, m), k, None);
            BooksAt(env, answers, call, m + 2) == b
            && After(env, answers, call, m + 2).1 == Drawn(e.active.value.drawId, b.draws[e.active.value.drawId])
  {
    hide After, BooksStill;
    StillNext(env, answers, call, m);
    StillNext(env, answers, call, m + 1);
  }

  /** The fourth operation finds the unfinished reservation. */
  lemma UnfinishedIsFound(env: Env, answers: Answers, call: Call, k: Key, now: int)
    requires BooksStill(env) && call.base == 0 && call.first == Drawing(k, now, SeedRead) && Unfinished(call.start.books, k)
    ensures StageAt(env, answers, call, 1) == 1 && StageAt(env, answers, call, 2) == 2 && StageAt(env, answers, call, 3) == 9
    ensures After(env, answers, call, 3).1.Drawing? && BooksAt(env, answers, call, 4) == call.start.books
    ensures var e := call.start.books.entitlements[k];
            After(env, answers, call, 4).1 == Drawing(k, now, if e.active.value.status == GuardReserved then Prepare(e) else Upsert(e))
  {
    hide After, BooksStill;
    StartsThere(env, answers, call);
    StillNext(env, answers, call, 0);
    StillNext(env, answers, call, 1);
    StillNext(env, answers, call, 2);
    StillNext(env, answers, call, 3);
  }

  /** A reservation that somebody left unfinished is finished by the next call, with the prize that is stored if there is one. */
  lemma UnfinishedIsDrawn(env: Env, answers: Answers, call: Call, k: Key, now: int, n: nat, depth: nat)
    requires BooksStill(env) && call == Call(0, call.start, Drawing(k, now, SeedRead)) && depth >= 1
    requires Unfinished(call.start.books, k)
    requires var l := After(env, answers, call, n).1; !l.Drawing? || StopsAt(env, answers, call, n, depth)
    ensures var id := call.start.books.entitlements[k].active.value.drawId;
            var b := Finished(call.start.books, k, answers(4).prize);
            BooksAt(env, answers, call, n) == b && After(env, answers, call, n).1 == Drawn(id, b.draws[id])
  {
    hide Act, BooksStill, StageOf, After;
    StartsThere(env, answers, call);
    UnfinishedIsFound(env, answers, call, k, now);
    Stages();
    var e := call.start.books.entitlements[k];
    var last := if e.active.value.status == GuardReserved then 7 else 6;
    if e.active.value.status == GuardReserved {
      ClaimedDraws(env, answers, call, k, now, 4, e);
      assert StageAt(env, answers, call, 4) == 3 by { StageOfPrepare(k, now, e); }
    } else {
      PreparedDraws(env, answers, call, k, now, 4, e);
      assert StageAt(env, answers, call, 4) == 4 by { StageOfPrepare(k, now, e); }
    }
    var stage := StageAt(env, answers, call, n);
    assert n == 1 || n == 2 || n == 3 || n == 4 || n == 5 || (n == 6 && last == 7) ==> stage == n || stage in {3, 4, 5, 9};
    if n >= last {
      BooksStay(env, answers, call, last, n);
    }
  }

  lemma StageOfPrepare(k: Key, now: int, e: Entitlement)
    ensures StageOf(Drawing(k, now, Prepare(e))) == 3 && StageOf(Drawing(k, now, Upsert(e))) == 4
  {
  }

  lemma StartsThere(env: Env, answers: Answers, call: Call)
    ensures After(env, answers, call, 0) == (call.start, call.first)
  {
  }

  lemma Stages()
    ensures forall l: Local :: StageOf(l) < 6 ==> l.Drawing?
    ensures forall k, now :: StageOf(Drawing(k, now, SeedRead)) == 0
    ensures forall id, d :: StageOf(Drawn(id, d)) == 6
  {
  }

  lemma {:induction false} BooksStay(env: Env, answers: Answers, call: Call, m: nat, n: nat)
    requires BooksStill(env) && m <= n && After(env, answers, call, m).1.Drawn?
    ensures After(env, answers, call, n).1 == After(env, answers, call, m).1
    ensures BooksAt(env, answers, call, n) == BooksAt(env, answers, call, m)
    decreases n
  {
    hide DrawNext, SendNext;
    if m < n {
      BooksStay(env, answers, call, m, n - 1);
      StillNext(env, answers, call, n - 1);
    }
  }
}

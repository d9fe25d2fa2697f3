/**
 * The documents of the staking lottery: one guard per lottery and wallet, and the draws. Every
 * update is one atomic operation on one document (api/nft_lottery.py).
 */
module LotteryBooks {
  import opened Wrappers
  import opened TransferIntents

  /** 24 hours, in seconds. */
  const MIN_DRAW_INTERVAL: nat := 60 * 60 * 24

  /** A guard's identity is an injective hash of the lottery's name and the wallet. */
  datatype Key = Key(lottery: string, wallet: string)

  datatype EntitlementStatus =
    | GuardReserved | GuardPrepared | GuardMaterialized | GuardConfirmed | GuardNoPrize | GuardUnresolved

  datatype Active = Active(drawId: string, timestamp: int, prize: Option<nat>, status: EntitlementStatus)

  datatype Entitlement = Entitlement(generation: nat, nextEligibleAt: int, active: Option<Active>)

  datatype PayoutStatus = Pending | PayoutPrepared | PayoutConfirmed | PayoutUnresolved | ReconciliationRequired

  datatype Draw = Draw(
    key: Key, prize: Option<nat>, timestamp: int, generation: nat,
    claimed: bool, payoutOperation: Option<string>, payoutTxid: Option<Txid>, confirmedRound: Option<nat>,
    payoutStatus: PayoutStatus)
  {
    /** What never changes once the draw is there. */
    function Core(): (Key, Option<nat>, int, nat) {
      (key, prize, timestamp, generation)
    }

    predicate Outstanding() {
      prize.Some? && !claimed
    }
  }

  const Prefix := "nft:lottery:"

  function PayoutOperation(drawId: string): string {
    Prefix + drawId
  }

  /** `issued` collects the draw IDs that were ever generated; it only says that `uuid4` does not repeat. */
  datatype Books = Books(entitlements: map<Key, Entitlement>, draws: map<string, Draw>, issued: set<string>)

  // ---- the guarded updates ----

  const Unclaimed: Entitlement := Entitlement(0, 0, None)

  /** Install the guard unless it is there. */
  function Seeded(b: Books, k: Key): Books {
    if k in b.entitlements then b else b.(entitlements := b.entitlements[k := Unclaimed])
  }

  predicate Claimable(b: Books, k: Key, now: int) {
    k in b.entitlements && b.entitlements[k].nextEligibleAt <= now
    && (b.entitlements[k].active.None?
        || b.entitlements[k].active.value.status == GuardConfirmed || b.entitlements[k].active.value.status == GuardNoPrize)
  }

  /** Reserve the next draw of a key, not before its time and not while another draw is open. */
  function Claimed(b: Books, k: Key, id: string, now: int): Books
    requires Claimable(b, k, now)
  {
    var e := b.entitlements[k];
    b.(entitlements := b.entitlements[k := Entitlement(e.generation + 1, now + MIN_DRAW_INTERVAL,
                                                        Some(Active(id, now, None, GuardReserved)))],
       issued := b.issued + {id})
  }

  /** The guard is still in this generation, with this draw. */
  predicate At(b: Books, k: Key, generation: nat, id: string) {
    k in b.entitlements && b.entitlements[k].generation == generation
    && b.entitlements[k].active.Some? && b.entitlements[k].active.value.drawId == id
  }

  function WithStatus(b: Books, k: Key, status: EntitlementStatus): Books
    requires k in b.entitlements && b.entitlements[k].active.Some?
  {
    var e := b.entitlements[k];
    b.(entitlements := b.entitlements[k := e.(active := Some(e.active.value.(status := status)))])
  }

  predicate Repairable(b: Books, k: Key, generation: nat, id: string, status: EntitlementStatus) {
    At(b, k, generation, id) && b.entitlements[k].active.value.status == status
  }

  /** The first prize that is stored for a reservation is the prize. */
  function PrizePrepared(b: Books, k: Key, prize: Option<nat>): Books
    requires k in b.entitlements && b.entitlements[k].active.Some?
  {
    var e := b.entitlements[k];
    b.(entitlements := b.entitlements[k := e.(active := Some(e.active.value.(prize := prize, status := GuardPrepared)))])
  }

  function DrawFor(k: Key, generation: nat, active: Active): Draw {
    Draw(k, active.prize, active.timestamp, generation, false, None, None, None, Pending)
  }

  /** Insert a draw unless its ID is there. */
  function Upserted(b: Books, id: string, d: Draw): Books {
    if id in b.draws then b else b.(draws := b.draws[id := d])
  }

  function MaterializedStatus(prize: Option<nat>): EntitlementStatus {
    if prize.None? then GuardNoPrize else GuardMaterialized
  }

  predicate Advanceable(b: Books, k: Key, generation: nat, id: string, status: EntitlementStatus) {
    At(b, k, generation, id)
    && (b.entitlements[k].active.value.status == GuardPrepared || b.entitlements[k].active.value.status == status)
  }

  /** Confirmation overrides everything; nothing overrides confirmation. */
  predicate Settable(b: Books, k: Key, generation: nat, id: string, status: EntitlementStatus) {
    At(b, k, generation, id)
    && (status == GuardConfirmed || b.entitlements[k].active.value.status != GuardConfirmed)
  }

  predicate Payable(s: PayoutStatus) {
    s == Pending || s == PayoutPrepared || s == PayoutUnresolved
  }

  predicate Preparable(b: Books, id: string) {
    id in b.draws && !b.draws[id].claimed && Payable(b.draws[id].payoutStatus)
    && (b.draws[id].payoutOperation.None? || b.draws[id].payoutOperation == Some(PayoutOperation(id)))
  }

  function PayoutReserved(b: Books, id: string): Books
    requires id in b.draws
  {
    b.(draws := b.draws[id := b.draws[id].(payoutOperation := Some(PayoutOperation(id)), payoutStatus := PayoutPrepared)])
  }

  predicate Open(b: Books, id: string, operation: string) {
    id in b.draws && !b.draws[id].claimed && b.draws[id].payoutOperation == Some(operation)
    && b.draws[id].payoutStatus != ReconciliationRequired
  }

  function PayoutRecorded(b: Books, id: string, txid: Txid, round: nat): Books
    requires id in b.draws
  {
    b.(draws := b.draws[id := b.draws[id].(claimed := true, payoutTxid := Some(txid), confirmedRound := Some(round),
                                           payoutStatus := PayoutConfirmed)])
  }

  function PayoutLeftOpen(b: Books, id: string): Books
    requires id in b.draws
  {
    b.(draws := b.draws[id := b.draws[id].(payoutStatus := PayoutUnresolved)])
  }

  // ---- what every update keeps ----

  /** The draw of this generation is there, as the guard describes it. */
  ghost predicate HasDraw(draws: map<string, Draw>, k: Key, generation: nat, active: Active) {
    active.drawId in draws && draws[active.drawId].Core() == (k, active.prize, active.timestamp, generation)
  }

  ghost predicate EntitlementSound(b: Books, k: Key)
    requires k in b.entitlements
  {
    var e := b.entitlements[k];
    if e.active.None? then
      e.generation == 0
    else
      var a := e.active.value;
      && e.generation > 0
      && a.drawId in b.issued
      && e.nextEligibleAt == a.timestamp + MIN_DRAW_INTERVAL
      && (match a.status
          case GuardReserved => a.prize.None? && a.drawId !in b.draws
          case GuardPrepared => a.drawId in b.draws ==> HasDraw(b.draws, k, e.generation, a)
          case GuardMaterialized => a.prize.Some? && HasDraw(b.draws, k, e.generation, a)
          case GuardNoPrize => a.prize.None? && HasDraw(b.draws, k, e.generation, a)
          case GuardConfirmed => a.prize.Some? && HasDraw(b.draws, k, e.generation, a) && b.draws[a.drawId].claimed
          case GuardUnresolved => a.prize.Some? && HasDraw(b.draws, k, e.generation, a))
  }

  /** A draw belongs to its key's current generation, or to an earlier one that is settled and long enough ago. */
  ghost predicate DrawSound(b: Books, id: string)
    requires id in b.draws
  {
    var d := b.draws[id];
    && id in b.issued
    && d.key in b.entitlements && b.entitlements[d.key].active.Some?
    && (var e := b.entitlements[d.key];
        if d.generation == e.generation then
          id == e.active.value.drawId
        else
          && d.generation < e.generation && id != e.active.value.drawId && !d.Outstanding()
          && d.timestamp + (e.generation - d.generation) * MIN_DRAW_INTERVAL <= e.active.value.timestamp)
    && PayoutSound(id, d)
  }

  /** Two draws of one key are of different generations, at least the interval apart for each generation between. */
  ghost predicate Apart(b: Books, i: string, j: string)
    requires i in b.draws && j in b.draws
  {
    var c, d := b.draws[i], b.draws[j];
    c.key == d.key ==>
      && (c.generation == d.generation ==> i == j)
      && (c.generation < d.generation ==> c.timestamp + (d.generation - c.generation) * MIN_DRAW_INTERVAL <= d.timestamp)
  }

  /** A draw ID belongs to one key. */
  ghost predicate OwnId(b: Books, k: Key, l: Key)
    requires k in b.entitlements && l in b.entitlements
  {
    k != l && b.entitlements[k].active.Some? && b.entitlements[l].active.Some? ==>
      b.entitlements[k].active.value.drawId != b.entitlements[l].active.value.drawId
  }

  ghost predicate GuardsSound(b: Books) {
    forall k | k in b.entitlements :: EntitlementSound(b, k)
  }

  ghost predicate DrawsSound(b: Books) {
    forall id | id in b.draws :: DrawSound(b, id)
  }

  ghost predicate AllApart(b: Books) {
    forall i, j | i in b.draws && j in b.draws :: Apart(b, i, j)
  }

  ghost predicate OwnIds(b: Books) {
    forall k, l | k in b.entitlements && l in b.entitlements :: OwnId(b, k, l)
  }

  ghost predicate Sound(b: Books) {
    GuardsSound(b) && DrawsSound(b) && AllApart(b) && OwnIds(b)
  }

  /** How a guard may change: within a generation only its status, once the prize is stored, and never from confirmed. */
  ghost predicate GuardEvolves(k: Key, e: Entitlement, e': Entitlement, draws': map<string, Draw>) {
    e.generation <= e'.generation
    && (e.active.Some? ==> e'.active.Some?)
    && (e.active.Some? && e'.generation == e.generation ==>
          var a, a' := e.active.value, e'.active.value;
          && a'.drawId == a.drawId && a'.timestamp == a.timestamp
          && (a.status != GuardReserved ==> a'.prize == a.prize && a'.status != GuardReserved)
          && (a.status == GuardConfirmed ==> a'.status == GuardConfirmed))
    && (e.active.Some? && e'.generation > e.generation ==>
          var a := e.active.value;
          && a.drawId in draws' && draws'[a.drawId].key == k && draws'[a.drawId].timestamp == a.timestamp
          && draws'[a.drawId].generation == e.generation
          && (a.status != GuardReserved ==> draws'[a.drawId].prize == a.prize))
  }

  /** A draw keeps its identity, and a claimed draw its receipt. */
  ghost predicate DrawEvolves(d: Draw, d': Draw) {
    d'.Core() == d.Core()
    && (d.claimed ==> d'.claimed && d'.payoutTxid == d.payoutTxid && d'.confirmedRound == d.confirmedRound)
    && (d.payoutOperation.Some? ==> d'.payoutOperation == d.payoutOperation)
  }

  ghost predicate BooksEvolve(b: Books, b': Books) {
    && (forall k | k in b.entitlements ::
          k in b'.entitlements && GuardEvolves(k, b.entitlements[k], b'.entitlements[k], b'.draws))
    && (forall id | id in b.draws :: id in b'.draws && DrawEvolves(b.draws[id], b'.draws[id]))
    && b.issued <= b'.issued
  }

  ghost predicate Kept(b: Books, b': Books) {
    Sound(b') && BooksEvolve(b, b')
  }

  lemma SelfEvolves(b: Books)
    ensures BooksEvolve(b, b)
  {
  }

  lemma EvolvesTransitive(a: Books, b: Books, c: Books)
    requires BooksEvolve(a, b) && BooksEvolve(b, c)
    ensures BooksEvolve(a, c)
  {
    forall k | k in a.entitlements
      ensures k in c.entitlements && GuardEvolves(k, a.entitlements[k], c.entitlements[k], c.draws)
    {
      assert GuardEvolves(k, a.entitlements[k], b.entitlements[k], b.draws);
      assert GuardEvolves(k, b.entitlements[k], c.entitlements[k], c.draws);
    }
    forall id | id in a.draws ensures id in c.draws && DrawEvolves(a.draws[id], c.draws[id]) {
      assert DrawEvolves(a.draws[id], b.draws[id]) && DrawEvolves(b.draws[id], c.draws[id]);
    }
  }

  lemma ApartStays(b: Books, b': Books)
    requires AllApart(b)
    requires forall id | id in b'.draws :: id in b.draws && b'.draws[id].Core() == b.draws[id].Core()
    ensures AllApart(b')
  {
    forall i, j | i in b'.draws && j in b'.draws ensures Apart(b', i, j) {
      assert Apart(b, i, j);
    }
  }

  lemma OwnIdsStay(b: Books, b': Books)
    requires OwnIds(b) && b'.entitlements.Keys == b.entitlements.Keys
    requires forall k | k in b.entitlements && b'.entitlements[k].active.Some? ::
               b.entitlements[k].active.Some?
               && b'.entitlements[k].active.value.drawId == b.entitlements[k].active.value.drawId
    ensures OwnIds(b')
  {
    forall k, l | k in b'.entitlements && l in b'.entitlements ensures OwnId(b', k, l) {
      assert OwnId(b, k, l);
    }
  }

  /** The draw of a key with the same guard, up to its status. */
  lemma DrawStays(b: Books, b': Books, id: string)
    requires id in b.draws && DrawSound(b, id) && id in b'.draws && b'.draws[id] == b.draws[id] && b.issued <= b'.issued
    requires var k := b.draws[id].key;
             && k in b'.entitlements && b'.entitlements[k].generation == b.entitlements[k].generation
             && b'.entitlements[k].active.Some?
             && b'.entitlements[k].active.value.drawId == b.entitlements[k].active.value.drawId
             && b'.entitlements[k].active.value.timestamp == b.entitlements[k].active.value.timestamp
    ensures DrawSound(b', id)
  {
  }

  lemma SeedKeeps(b: Books, k: Key)
    requires Sound(b)
    ensures Kept(b, Seeded(b, k))
  {
    hide EntitlementSound, DrawSound, AllApart;
    var b' := Seeded(b, k);
    if k in b.entitlements {
      SelfEvolves(b);
    } else {
      ApartStays(b, b');
      forall l | l in b'.entitlements ensures EntitlementSound(b', l) {
        SeededGuard(b, k, l);
      }
      forall id | id in b'.draws ensures DrawSound(b', id) {
        SeededDraw(b, k, id);
      }
      forall i, j | i in b'.entitlements && j in b'.entitlements ensures OwnId(b', i, j) {
        assert i in b.entitlements && j in b.entitlements ==> OwnId(b, i, j);
      }
    }
  }

  lemma SeededGuard(b: Books, k: Key, l: Key)
    requires k !in b.entitlements && (l in b.entitlements ==> EntitlementSound(b, l)) && (l == k || l in b.entitlements)
    ensures EntitlementSound(Seeded(b, k), l)
  {
  }

  lemma SeededDraw(b: Books, k: Key, id: string)
    requires k !in b.entitlements && id in b.draws && DrawSound(b, id)
    ensures DrawSound(Seeded(b, k), id)
  {
  }

  lemma ClaimKeeps(b: Books, k: Key, id: string, now: int)
    requires Sound(b) && Claimable(b, k, now) && id !in b.issued
    ensures Kept(b, Claimed(b, k, id, now))
  {
    hide EntitlementSound, DrawSound, AllApart, OwnId, GuardEvolves;
    var b' := Claimed(b, k, id, now);
    ApartStays(b, b');
    forall l | l in b'.entitlements ensures EntitlementSound(b', l) {
      ClaimedGuard(b, k, id, now, l);
    }
    forall i | i in b'.draws ensures DrawSound(b', i) {
      ClaimedDraw(b, k, id, now, i);
    }
    forall i, j | i in b'.entitlements && j in b'.entitlements ensures OwnId(b', i, j) {
      ClaimedIds(b, k, id, now, i, j);
    }
    forall l | l in b.entitlements ensures GuardEvolves(l, b.entitlements[l], b'.entitlements[l], b'.draws) {
      ClaimedEvolves(b, k, id, now, l);
    }
  }

  lemma ClaimedGuard(b: Books, k: Key, id: string, now: int, l: Key)
    requires GuardsSound(b) && DrawsSound(b) && Claimable(b, k, now) && id !in b.issued && l in b.entitlements
    ensures EntitlementSound(Claimed(b, k, id, now), l)
  {
    assert EntitlementSound(b, l);
    assert id in b.draws ==> DrawSound(b, id);
  }

  lemma ClaimedDraw(b: Books, k: Key, id: string, now: int, i: string)
    requires GuardsSound(b) && Claimable(b, k, now) && id !in b.issued && i in b.draws && DrawSound(b, i)
    ensures DrawSound(Claimed(b, k, id, now), i)
  {
    assert EntitlementSound(b, k);
  }

  lemma ClaimedIds(b: Books, k: Key, id: string, now: int, i: Key, j: Key)
    requires GuardsSound(b) && OwnIds(b) && Claimable(b, k, now) && id !in b.issued && i in b.entitlements && j in b.entitlements
    ensures OwnId(Claimed(b, k, id, now), i, j)
  {
    assert OwnId(b, i, j) && EntitlementSound(b, i) && EntitlementSound(b, j);
  }

  lemma ClaimedEvolves(b: Books, k: Key, id: string, now: int, l: Key)
    requires GuardsSound(b) && Claimable(b, k, now) && l in b.entitlements
    ensures var b' := Claimed(b, k, id, now); GuardEvolves(l, b.entitlements[l], b'.entitlements[l], b'.draws)
  {
    assert EntitlementSound(b, k);
  }

  /** A new status of the current draw keeps the books if the draw bears it out. */
  lemma StatusKeeps(b: Books, k: Key, e: Entitlement)
    requires Sound(b) && k in b.entitlements && b.entitlements[k].active.Some? && e.active.Some?
    requires var stored := b.entitlements[k];
             && e.generation == stored.generation && e.nextEligibleAt == stored.nextEligibleAt
             && e.active.value.drawId == stored.active.value.drawId
             && e.active.value.timestamp == stored.active.value.timestamp
    requires GuardEvolves(k, b.entitlements[k], e, b.draws)
    requires EntitlementSound(b.(entitlements := b.entitlements[k := e]), k)
    ensures Kept(b, b.(entitlements := b.entitlements[k := e]))
  {
    hide DrawSound, AllApart, OwnIds, GuardEvolves;
    var b' := b.(entitlements := b.entitlements[k := e]);
    ApartStays(b, b');
    OwnIdsStay(b, b');
    forall l | l in b'.entitlements ensures EntitlementSound(b', l) {
      assert EntitlementSound(b, l);
    }
    forall i | i in b'.draws ensures DrawSound(b', i) {
      KeyOfDraw(b, i);
      DrawStays(b, b', i);
    }
    forall l | l in b.entitlements ensures GuardEvolves(l, b.entitlements[l], b'.entitlements[l], b'.draws) {
      GuardSame(l, b.entitlements[l], b.draws);
    }
  }

  lemma KeyOfDraw(b: Books, id: string)
    requires id in b.draws && DrawSound(b, id)
    ensures b.draws[id].key in b.entitlements && b.entitlements[b.draws[id].key].active.Some? && id in b.issued
  {
  }

  lemma GuardSame(k: Key, e: Entitlement, draws: map<string, Draw>)
    ensures GuardEvolves(k, e, e, draws)
  {
  }

  lemma PrepareKeeps(b: Books, k: Key, generation: nat, id: string, prize: Option<nat>)
    requires Sound(b) && Repairable(b, k, generation, id, GuardReserved)
    ensures Kept(b, PrizePrepared(b, k, prize))
  {
    hide Sound, Kept;
    SoundAt(b, k);
    StatusKeeps(b, k, PrizePrepared(b, k, prize).entitlements[k]);
  }

  lemma SoundAt(b: Books, k: Key)
    requires Sound(b) && k in b.entitlements
    ensures EntitlementSound(b, k)
    ensures b.entitlements[k].active.Some? && b.entitlements[k].active.value.drawId in b.draws ==>
              DrawSound(b, b.entitlements[k].active.value.drawId)
              && b.draws[b.entitlements[k].active.value.drawId].generation == b.entitlements[k].generation
              && b.draws[b.entitlements[k].active.value.drawId].key == k
  {
    if b.entitlements[k].active.Some? && b.entitlements[k].active.value.drawId in b.draws {
      var id := b.entitlements[k].active.value.drawId;
      assert DrawSound(b, id);
      assert EntitlementSound(b, k);
    }
  }

  /** A confirmed draw may be recorded as such in the guard. */
  lemma ConfirmKeeps(b: Books, k: Key, generation: nat, id: string)
    requires Sound(b) && At(b, k, generation, id) && id in b.draws && b.draws[id].claimed
    ensures Kept(b, WithStatus(b, k, GuardConfirmed))
  {
    hide Sound, Kept;
    SoundAt(b, k);
    StatusKeeps(b, k, WithStatus(b, k, GuardConfirmed).entitlements[k]);
  }

  lemma UnresolvedKeeps(b: Books, k: Key, generation: nat, id: string)
    requires Sound(b) && Settable(b, k, generation, id, GuardUnresolved)
    requires id in b.draws && b.draws[id].prize.Some?
    ensures Kept(b, WithStatus(b, k, GuardUnresolved))
  {
    hide Sound, Kept;
    SoundAt(b, k);
    StatusKeeps(b, k, WithStatus(b, k, GuardUnresolved).entitlements[k]);
  }

  lemma AdvanceKeeps(b: Books, k: Key, generation: nat, id: string, prize: Option<nat>)
    requires Sound(b) && Advanceable(b, k, generation, id, MaterializedStatus(prize))
    requires id in b.draws && b.draws[id].prize == prize
    ensures Kept(b, WithStatus(b, k, MaterializedStatus(prize)))
  {
    hide Sound, Kept;
    SoundAt(b, k);
    StatusKeeps(b, k, WithStatus(b, k, MaterializedStatus(prize)).entitlements[k]);
  }

  /** A guard that a worker holds is the stored one, up to what has happened since. */
  ghost predicate Held(b: Books, k: Key, e: Entitlement) {
    k in b.entitlements && e.active.Some? && e.active.value.drawId in b.issued
    && GuardEvolves(k, e, b.entitlements[k], b.draws)
  }

  lemma HeldStays(b: Books, b': Books, k: Key, e: Entitlement)
    requires Held(b, k, e) && BooksEvolve(b, b')
    ensures Held(b', k, e)
  {
    assert GuardEvolves(k, b.entitlements[k], b'.entitlements[k], b'.draws);
    assert forall id | id in b.draws :: DrawEvolves(b.draws[id], b'.draws[id]);
  }

  /** Whoever materializes a stored prize inserts the one draw of that generation, or finds it there. */
  lemma UpsertKeeps(b: Books, k: Key, e: Entitlement)
    requires Sound(b) && Held(b, k, e) && e.active.value.status != GuardReserved
    ensures var b' := Upserted(b, e.active.value.drawId, DrawFor(k, e.generation, e.active.value));
            Kept(b, b') && HasDraw(b'.draws, k, e.generation, e.active.value)
  {
    hide GuardsSound, DrawsSound, AllApart, OwnIds, GuardEvolves;
    var id := e.active.value.drawId;
    var d := DrawFor(k, e.generation, e.active.value);
    var b' := Upserted(b, id, d);
    if id in b.draws {
      SelfEvolves(b);
      FoundDraw(b, k, e);
    } else {
      NewDraw(b, k, e);
      UpsertedGuards(b, k, e);
      UpsertedDraws(b, k, e);
      UpsertedApart(b, k, e);
      OwnIdsStay(b, b');
      forall l | l in b.entitlements ensures GuardEvolves(l, b.entitlements[l], b'.entitlements[l], b'.draws) {
        GuardSame(l, b.entitlements[l], b'.draws);
      }
    }
  }

  lemma FoundDraw(b: Books, k: Key, e: Entitlement)
    requires Sound(b) && Held(b, k, e) && e.active.value.status != GuardReserved && e.active.value.drawId in b.draws
    ensures HasDraw(b.draws, k, e.generation, e.active.value)
  {
    hide AllApart, OwnIds;
    SoundAt(b, k);
    assert DrawSound(b, e.active.value.drawId);
  }

  /** A draw that is not there yet is the current one. */
  lemma NewDraw(b: Books, k: Key, e: Entitlement)
    requires Held(b, k, e) && e.active.value.status != GuardReserved && e.active.value.drawId !in b.draws
    ensures var stored := b.entitlements[k];
            && stored.generation == e.generation && stored.active.Some? && stored.active.value.drawId == e.active.value.drawId
            && stored.active.value.timestamp == e.active.value.timestamp && stored.active.value.prize == e.active.value.prize
            && stored.active.value.status != GuardReserved
  {
  }

  lemma UpsertedGuards(b: Books, k: Key, e: Entitlement)
    requires Sound(b) && Held(b, k, e) && e.active.value.status != GuardReserved && e.active.value.drawId !in b.draws
    ensures GuardsSound(Upserted(b, e.active.value.drawId, DrawFor(k, e.generation, e.active.value)))
  {
    hide DrawsSound, AllApart, GuardEvolves;
    NewDraw(b, k, e);
    var b' := Upserted(b, e.active.value.drawId, DrawFor(k, e.generation, e.active.value));
    forall l | l in b'.entitlements ensures EntitlementSound(b', l) {
      assert EntitlementSound(b, l) && OwnId(b, k, l);
    }
  }

  lemma UpsertedDraws(b: Books, k: Key, e: Entitlement)
    requires Sound(b) && Held(b, k, e) && e.active.value.status != GuardReserved && e.active.value.drawId !in b.draws
    ensures DrawsSound(Upserted(b, e.active.value.drawId, DrawFor(k, e.generation, e.active.value)))
  {
    hide GuardsSound, AllApart, OwnIds, GuardEvolves;
    NewDraw(b, k, e);
    var id := e.active.value.drawId;
    var b' := Upserted(b, id, DrawFor(k, e.generation, e.active.value));
    forall i | i in b'.draws ensures DrawSound(b', i) {
      if i != id {
        DrawStays(b, b', i);
      }
    }
  }

  lemma UpsertedApart(b: Books, k: Key, e: Entitlement)
    requires Sound(b) && Held(b, k, e) && e.active.value.status != GuardReserved && e.active.value.drawId !in b.draws
    ensures AllApart(Upserted(b, e.active.value.drawId, DrawFor(k, e.generation, e.active.value)))
  {
    hide GuardsSound, OwnIds, GuardEvolves;
    NewDraw(b, k, e);
    var id := e.active.value.drawId;
    var b' := Upserted(b, id, DrawFor(k, e.generation, e.active.value));
    forall i, j | i in b'.draws && j in b'.draws ensures Apart(b', i, j) {
      assert i != id ==> DrawSound(b, i);
      assert j != id ==> DrawSound(b, j);
      assert i != id && j != id ==> Apart(b, i, j);
    }
  }

  ghost predicate PayoutSound(id: string, d: Draw) {
    && (d.claimed ==> d.prize.Some? && d.payoutStatus == PayoutConfirmed && d.payoutTxid.Some? && d.confirmedRound.Some?
                      && d.payoutOperation == Some(PayoutOperation(id)))
    && (!d.claimed ==> Payable(d.payoutStatus))
    && (d.payoutOperation.None? || d.payoutOperation == Some(PayoutOperation(id)))
  }

  /** A change of a draw's payout, while it is not claimed, keeps the books. */
  lemma PayoutKeeps(b: Books, id: string, d: Draw)
    requires Sound(b) && id in b.draws && DrawEvolves(b.draws[id], d) && PayoutSound(id, d)
    ensures Kept(b, b.(draws := b.draws[id := d]))
  {
    hide AllApart, OwnIds, GuardEvolves, PayoutSound, GuardsSound;
    var b' := b.(draws := b.draws[id := d]);
    ApartStays(b, b');
    OwnIdsStay(b, b');
    PaidGuards(b, id, d);
    forall i | i in b'.draws ensures DrawSound(b', i) {
      if i == id {
        PaidDraw(b, id, d);
      } else {
        KeyOfDraw(b, i);
        DrawStays(b, b', i);
      }
    }
    forall l | l in b.entitlements ensures GuardEvolves(l, b.entitlements[l], b'.entitlements[l], b'.draws) {
      GuardSame(l, b.entitlements[l], b'.draws);
    }
  }

  lemma PaidGuards(b: Books, id: string, d: Draw)
    requires GuardsSound(b) && id in b.draws && DrawEvolves(b.draws[id], d)
    ensures GuardsSound(b.(draws := b.draws[id := d]))
  {
    var b' := b.(draws := b.draws[id := d]);
    forall k | k in b'.entitlements ensures EntitlementSound(b', k) {
      assert EntitlementSound(b, k);
    }
  }

  lemma PaidDraw(b: Books, id: string, d: Draw)
    requires id in b.draws && DrawSound(b, id) && DrawEvolves(b.draws[id], d) && PayoutSound(id, d)
    ensures DrawSound(b.(draws := b.draws[id := d]), id)
  {
  }

  // ---- what sound books say ----

  /** Of one lottery and wallet, at most one draw with a prize is not claimed. */
  lemma AtMostOneOutstanding(b: Books, i: string, j: string)
    requires Sound(b) && i in b.draws && j in b.draws && b.draws[i].key == b.draws[j].key
    requires b.draws[i].Outstanding() && b.draws[j].Outstanding()
    ensures i == j
  {
    assert DrawSound(b, i) && DrawSound(b, j);
  }
}

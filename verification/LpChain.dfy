/**
 * From raw blocks to the projector's world: the blocks that processing and preflight leave
 * satisfy everything the protocol assumes of them, and the truth that the protocol keeps is
 * the pool's view of the full account ledger.
 */
module LpChain {
  import opened Wrappers
  import opened LpDomain
  import opened LpWorld
  import opened EventIds
  import opened ChainBlocks
  import opened BlockProjection
  import LpCursorCodec
  import Sorting

  datatype Chain = Chain(pools: PoolMap, supply: map<string, int>, genesis: Ledger, block: nat -> seq<RootTxn>)

  ghost predicate SameRoot(c: Chain, r: nat, i: nat, r': nat, i': nat) {
    i < |c.block(r)| && i' < |c.block(r')| && c.block(r)[i].id == c.block(r')[i'].id
  }

  /** Transaction IDs are plain text and unique over the whole chain; every block was accepted. */
  ghost predicate ValidChain(c: Chain) {
    && c.supply.Keys == c.pools.Keys
    && (forall p | p in c.pools :: c.pools[p].Valid())
    && (forall r: nat, i: nat | i < |c.block(r)| :: PlainId(c.block(r)[i].id))
    && (forall r: nat, i: nat, r': nat, i': nat | SameRoot(c, r, i, r', i') :: r == r' && i == i')
    && (forall r: nat :: Accepted(c, r))
  }

  ghost predicate Accepted(c: Chain, r: nat) {
    && (forall f | f in Flatten(c.block(r)) :: f.txn.Moves() && WellFormed(f.txn))
    && Process(c.pools, Flatten(c.block(r)), r).Success?
  }

  /** A pool's balances as its account holdings and the supply of its token show them. */
  function View(info: PoolInfo, supply: int, l: Ledger, p: string): Balances {
    Balances(
      Holding(l, p, info.asset1Id),
      Holding(l, p, info.asset2Id),
      supply - Holding(l, p, info.tokenId),
      if info.asset1Id == 0 || info.asset2Id == 0 then 0 else Holding(l, p, 0))
  }

  /** The world of the projector: its genesis is the ledger's, its blocks are preflighted, and the Indexer shows the ledger. */
  ghost predicate Projects(c: Chain, w: World) {
    && w.pools == c.pools
    && w.genesis.Keys == c.pools.Keys
    && (forall p | p in c.pools && p in c.supply :: w.genesis[p] == View(c.pools[p], c.supply[p], c.genesis, p))
    && (forall r: nat :: PreflightedBlock(c, w, r))
    && (forall p, r: nat | p in c.pools && p in c.supply ::
          w.observed(p, r) == View(c.pools[p], c.supply[p], LedgerAfter(c, r), p))
  }

  ghost predicate PreflightedBlock(c: Chain, w: World, r: nat) {
    Accepted(c, r) ==>
      Sorting.Sorted(OrderLess, w.block(r))
      && multiset(w.block(r)) == multiset(Process(c.pools, Flatten(c.block(r)), r).value)
  }

  /** The ledger after all rounds up to and including r. */
  ghost function LedgerAfter(c: Chain, r: nat): Ledger {
    ExecuteBlock(if r == 0 then c.genesis else LedgerAfter(c, r - 1), c.block(r))
  }

  /** Fees a pool paid up to round r for transactions that move nothing. */
  ghost function UnseenFeesUpTo(c: Chain, p: string, r: nat): int {
    BlockUnseenFees(c.block(r), p) + if r == 0 then 0 else UnseenFeesUpTo(c, p, r - 1)
  }

  // ---- the world is a valid one ----

  lemma ChainRoots(c: Chain, r: nat)
    requires ValidChain(c)
    ensures DistinctRoots(c.block(r))
    ensures UniquePlaces(Flatten(c.block(r)))
    ensures forall f | f in Flatten(c.block(r)) :: f.txn.Moves() && PlainId(f.rootId)
  {
    forall i, j | 0 <= i < j < |c.block(r)| ensures c.block(r)[i].id != c.block(r)[j].id {
      assert !SameRoot(c, r, i, r, j);
    }
    FlattenPlaces(c.block(r));
  }

  /** Everything known about an event of the world. */
  lemma EventOrigin(c: Chain, w: World, r: nat, k: nat) returns (f: FlatTxn, i: nat)
    requires ValidChain(c) && Projects(c, w) && IsEvent(w, r, k)
    ensures GoodEvent(c.pools, w.block(r)[k], f, r, w.block(r)[k].eventPosition)
    ensures PlainId(f.rootId) && i < |c.block(r)| && c.block(r)[i].id == f.rootId
  {
    var e := w.block(r)[k];
    var s := Flatten(c.block(r));
    ChainRoots(c, r);
    assert Accepted(c, r) && PreflightedBlock(c, w, r);
    ProcessOrigin(c.pools, s, r);
    var evs := Process(c.pools, s, r).value;
    assert e in multiset(w.block(r));
    Sorting.InMultiset(evs, e);
    f := s[e.eventPosition];
    assert f in s;
    FlattenPlaces(c.block(r));
    i :| 0 <= i < |c.block(r)| && f.rootId == c.block(r)[i].id;
  }

  lemma EventsOfWorld(c: Chain, w: World, r: nat, k: nat)
    requires ValidChain(c) && Projects(c, w) && IsEvent(w, r, k)
    ensures var e := w.block(r)[k];
            && e.confirmedRound == r && e.poolAddress in w.pools
            && LpBalanceDelta(w.pools[e.poolAddress], e.asaId, e.delta).Success?
            && LpCursorCodec.LpEventOrder(r, e.id, e.eventPosition).Success?
            && PROJECTION_SEPARATOR in e.id
  {
    var f, i := EventOrigin(c, w, r, k);
    var e := w.block(r)[k];
    var fee :| ComesFrom(e, f, e.eventPosition, fee);
    assert e.id[|LegEventId(f.rootId, f.path, fee)|] == PROJECTION_SEPARATOR;
  }

  lemma SameNameSameRound(c: Chain, w: World, r: nat, k: nat, r': nat, k': nat)
    requires ValidChain(c) && Projects(c, w) && SameId(w, r, k, r', k')
    ensures r == r'
  {
    var f, i := EventOrigin(c, w, r, k);
    var g, j := EventOrigin(c, w, r', k');
    var d, e := w.block(r)[k], w.block(r')[k'];
    var fee :| ComesFrom(d, f, d.eventPosition, fee);
    var fee' :| ComesFrom(e, g, e.eventPosition, fee');
    ScopedIdInjective(f.rootId, f.path, fee, d.poolAddress, g.rootId, g.path, fee', e.poolAddress);
    assert SameRoot(c, r, i, r', j);
  }

  lemma SameNameSameRank(c: Chain, w: World, r: nat, k: nat, k': nat)
    requires ValidChain(c) && Projects(c, w) && SameId(w, r, k, r, k')
    ensures k == k'
  {
    var s := Flatten(c.block(r));
    ChainRoots(c, r);
    assert Accepted(c, r) && PreflightedBlock(c, w, r);
    ProcessOrigin(c.pools, s, r);
    var evs := Process(c.pools, s, r).value;
    forall e | e in evs ensures BlockProjection.Printable(e) {
    }
    SortedNames(evs, w.block(r));
  }

  /** Event names are unique over the whole chain, and no marker is another event's legacy alias. */
  lemma ChainDistinctIds(c: Chain, w: World)
    requires ValidChain(c) && Projects(c, w)
    ensures DistinctIds(w)
  {
    forall r: nat, k: nat, r': nat, k': nat | SameId(w, r, k, r', k') ensures r == r' && k == k' {
      SameNameSameRound(c, w, r, k, r', k');
      SameNameSameRank(c, w, r, k, k');
    }
    forall r: nat, k: nat, a: string | IsEvent(w, r, k) && a in LegacyAliases(w.block(r)[k].id) ensures !IsEventId(w, a) {
      forall q: nat, j: nat | IsEvent(w, q, j) ensures w.block(q)[j].id != a {
        EventsOfWorld(c, w, q, j);
      }
    }
  }

  lemma ChainTracked(c: Chain, w: World)
    requires ValidChain(c) && Projects(c, w)
    ensures Tracked(w)
  {
    forall r: nat, k: nat | IsEvent(w, r, k)
      ensures var e := w.block(r)[k];
              e.confirmedRound == r && e.poolAddress in w.pools
              && LpBalanceDelta(w.pools[e.poolAddress], e.asaId, e.delta).Success?
    {
      EventsOfWorld(c, w, r, k);
    }
  }

  /** The stored cursors of the world sort as the protocol's cursors do. */
  lemma ChainSortedBlocks(c: Chain, w: World)
    requires ValidChain(c) && Projects(c, w) && forall r: nat | w.block(r) != [] :: IsUint64(r)
    ensures LpCursorCodec.SortedBlocks(w)
  {
    forall r: nat, k: nat | IsEvent(w, r, k)
      ensures IsUint64(r) && LpCursorCodec.LpEventOrder(r, w.block(r)[k].id, w.block(r)[k].eventPosition).Success?
    {
      EventsOfWorld(c, w, r, k);
    }
    forall r: nat, j: nat, k: nat | j < k && IsEvent(w, r, j) && IsEvent(w, r, k)
      ensures LpCursorCodec.PrintedBefore(w, r, j, k)
    {
      EventsOfWorld(c, w, r, j);
      EventsOfWorld(c, w, r, k);
      assert Accepted(c, r) && PreflightedBlock(c, w, r);
      assert OrderLess(w.block(r)[j], w.block(r)[k]);
    }
  }

  // ---- the truth is the ledger ----

  /** What the net movements of a pool's assets do to its balances. */
  ghost function AddNet(info: PoolInfo, b: Balances, token: int, a1: int, a2: int, algo: int): Balances {
    Balances(b.asset1 + a1, b.asset2 + a2, b.issued - token, b.operationalAlgo + if info.asset2Id == 0 then 0 else algo)
  }

  ghost function NetBalances(info: PoolInfo, b: Balances, evs: seq<LpTransaction>, p: string): Balances {
    AddNet(info, b, Net(evs, p, info.tokenId), Net(evs, p, info.asset1Id), Net(evs, p, info.asset2Id), Net(evs, p, 0))
  }

  lemma {:induction false} BlockBalance(w: World, p: string, r: nat, n: nat)
    requires Tracked(w) && p in w.pools && w.pools[p].Valid() && n <= |w.block(r)|
    ensures Balance(w, p, r, n) == NetBalances(w.pools[p], Balance(w, p, r, 0), w.block(r)[..n], p)
  {
    if n > 0 {
      var e := w.block(r)[n - 1];
      BlockBalance(w, p, r, n - 1);
      assert w.block(r)[..n][..n - 1] == w.block(r)[..n - 1];
      assert IsEvent(w, r, n - 1);
      OneEvent(w, p, Balance(w, p, r, n - 1), e);
    }
  }

  /** One event changes exactly the balance of its asset. */
  lemma OneEvent(w: World, p: string, b: Balances, e: LpTransaction)
    requires p in w.pools && w.pools[p].Valid() && e.poolAddress in w.pools
    requires LpBalanceDelta(w.pools[e.poolAddress], e.asaId, e.delta).Success?
    ensures var info := w.pools[p];
            (if e.poolAddress == p then b.Add(DeltaOf(w, e)) else b)
            == AddNet(info, b, NetOne(e, p, info.tokenId), NetOne(e, p, info.asset1Id), NetOne(e, p, info.asset2Id),
                      NetOne(e, p, 0))
  {
  }

  /** The balance field that holds a pool's ALGO. */
  function AlgoField(info: PoolInfo): Field {
    if info.asset2Id == 0 then Asset2Reserve else OperationalAlgo
  }

  lemma BlockNet(c: Chain, w: World, r: nat, p: string, asset: nat, l: Ledger)
    requires ValidChain(c) && Projects(c, w) && p in c.pools && c.pools[p].Tracks(asset)
    ensures Net(w.block(r), p, asset)
            == Holding(ExecuteBlock(l, c.block(r)), p, asset) - Holding(l, p, asset)
               + if asset == 0 then BlockUnseenFees(c.block(r), p) else 0
  {
    var s := Flatten(c.block(r));
    assert Accepted(c, r) && PreflightedBlock(c, w, r);
    NetPermutation(w.block(r), Process(c.pools, s, r).value, p, asset);
    ProcessMatchesLedger(c.pools, s, r, p, asset);
    BlockExecutes(l, c.block(r), p, asset);
  }

  /** A view that is short of the given ALGO. */
  ghost predicate ViewPlus(info: PoolInfo, supply: int, l: Ledger, p: string, unseen: int, b: Balances) {
    b == View(info, supply, l, p).Add(BalanceDelta(AlgoField(info), unseen))
  }

  lemma BlockRefinesLedger(c: Chain, w: World, r: nat, p: string, l: Ledger, unseen: int)
    requires ValidChain(c) && Projects(c, w) && Tracked(w) && p in c.pools && p in c.supply
    requires ViewPlus(c.pools[p], c.supply[p], l, p, unseen, Balance(w, p, r, 0))
    ensures ViewPlus(c.pools[p], c.supply[p], ExecuteBlock(l, c.block(r)), p, unseen + BlockUnseenFees(c.block(r), p),
                     Balance(w, p, r, |w.block(r)|))
  {
    hide ValidChain, Projects, Tracked, ExecuteBlock, Net, Balance, BlockUnseenFees, Holding;
    var info := c.pools[p];
    WorldPools(c, w, p);
    BlockBalance(w, p, r, |w.block(r)|);
    assert w.block(r)[..|w.block(r)|] == w.block(r);
    BlockNet(c, w, r, p, info.tokenId, l);
    BlockNet(c, w, r, p, info.asset1Id, l);
    BlockNet(c, w, r, p, info.asset2Id, l);
    BlockNet(c, w, r, p, 0, l);
  }

  lemma WorldPools(c: Chain, w: World, p: string)
    requires ValidChain(c) && Projects(c, w) && p in c.pools
    ensures p in w.pools && w.pools[p] == c.pools[p] && c.pools[p].Valid() && p in c.supply
    ensures p in w.genesis && w.genesis[p] == View(c.pools[p], c.supply[p], c.genesis, p)
  {
  }

  lemma GenesisView(c: Chain, w: World, p: string)
    requires ValidChain(c) && Projects(c, w) && Tracked(w) && p in c.pools && p in c.supply
    ensures p in w.pools && ViewPlus(c.pools[p], c.supply[p], c.genesis, p, 0, Balance(w, p, 0, 0))
  {
  }

  lemma {:induction false} TruthPlusUnseen(c: Chain, w: World, p: string, r: nat)
    requires ValidChain(c) && Projects(c, w) && Tracked(w) && p in c.pools && p in c.supply
    ensures ViewPlus(c.pools[p], c.supply[p], LedgerAfter(c, r), p, UnseenFeesUpTo(c, p, r), Truth(w, p, RoundEnd(r)))
  {
    hide ValidChain, Projects, Tracked, ViewPlus;
    if r == 0 {
      GenesisView(c, w, p);
      BlockRefinesLedger(c, w, 0, p, c.genesis, 0);
    } else {
      TruthPlusUnseen(c, w, p, r - 1);
      BlockRefinesLedger(c, w, r, p, LedgerAfter(c, r - 1), UnseenFeesUpTo(c, p, r - 1));
    }
  }

  /**
   * Folding all projected events up to the end of a round gives the pool's view of the full
   * account ledger after that round, exactly when the pool has paid no fee for a transaction
   * that moves nothing; otherwise its ALGO balance is too high by those fees.
   */
  lemma TruthIsTheLedger(c: Chain, w: World, p: string, r: nat)
    requires ValidChain(c) && Projects(c, w) && Tracked(w) && p in c.pools && p in c.supply
    ensures Truth(w, p, RoundEnd(r)) == View(c.pools[p], c.supply[p], LedgerAfter(c, r), p)
            <==> UnseenFeesUpTo(c, p, r) == 0
    ensures var shown, held := Truth(w, p, RoundEnd(r)), View(c.pools[p], c.supply[p], LedgerAfter(c, r), p);
            forall f: Field :: shown.Get(f) == held.Get(f) + if f == AlgoField(c.pools[p]) then UnseenFeesUpTo(c, p, r) else 0
  {
    TruthPlusUnseen(c, w, p, r);
  }

  /** Issued tokens and the tokens the pool holds itself always add up to the supply. */
  lemma IssuedPlusHeldIsSupply(c: Chain, w: World, p: string, r: nat)
    requires ValidChain(c) && Projects(c, w) && Tracked(w) && p in c.pools && p in c.supply
    ensures Truth(w, p, RoundEnd(r)).issued + Holding(LedgerAfter(c, r), p, c.pools[p].tokenId) == c.supply[p]
  {
    TruthPlusUnseen(c, w, p, r);
    WorldPools(c, w, p);
  }

  /** A pool account that signs an application call pays a fee of which no event is ever emitted. */
  lemma UnseenFeeExample(pools: PoolMap, info: PoolInfo, supply: int, l: Ledger)
    requires info.Valid()
    ensures var call := RootTxn("TX", Txn("POOL", 1000, AppCall([])));
            && Flatten([call]) == [] && Process(pools, [], 1) == Success([])
            && BlockUnseenFees([call], "POOL") == 1000
            && View(info, supply, ExecuteBlock(l, [call]), "POOL") != View(info, supply, l, "POOL")
  {
    var call := RootTxn("TX", Txn("POOL", 1000, AppCall([])));
    assert [call][..0] == [];
    assert FlattenRoot(call) == [];
    assert Flatten([call]) == [];
    var l' := Post(l, "POOL", 0, -1000);
    assert ExecuteBlock(l, [call]) == Execute(l, call.txn) == ExecuteAll(l', []) == l';
    assert Holding(l', "POOL", 0) == Holding(l, "POOL", 0) - 1000;
  }
}

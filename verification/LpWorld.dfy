/**
 * The chain as the projector sees it, and the balances it implies: one deterministic block
 * of events per round, a fixed set of pools, and what the Indexer reports of a pool at the
 * end of each round.
 */
module LpWorld {
  import opened Wrappers
  import opened LpDomain
  import EventIds

  /**
   * A pool's cursor: the last event applied to it, or the end of the round of its last
   * snapshot. An event is named by its round and its rank in the sorted block.
   */
  datatype Cursor = AtEvent(round: nat, rank: nat) | RoundEnd(round: nat)

  predicate Before(c: Cursor, d: Cursor) {
    c.round < d.round
    || (c.round == d.round && c.AtEvent? && (d.RoundEnd? || c.rank < d.rank))
  }

  predicate AtMost(c: Cursor, d: Cursor) {
    c == d || Before(c, d)
  }

  datatype World = World(
    pools: map<string, PoolInfo>,
    genesis: map<string, Balances>,
    block: nat -> seq<LpTransaction>,
    observed: (string, nat) -> Balances)

  ghost predicate IsEvent(w: World, r: nat, k: nat) {
    k < |w.block(r)|
  }

  ghost predicate IsPoolEvent(w: World, p: string, r: nat, k: nat) {
    IsEvent(w, r, k) && w.block(r)[k].poolAddress == p
  }

  ghost function DeltaOf(w: World, e: LpTransaction): BalanceDelta
    requires e.poolAddress in w.pools && LpBalanceDelta(w.pools[e.poolAddress], e.asaId, e.delta).Success?
  {
    LpBalanceDelta(w.pools[e.poolAddress], e.asaId, e.delta).value
  }

  /** Every event belongs to its block's round, to a tracked pool, and to an asset of that pool. */
  ghost predicate Tracked(w: World) {
    && w.genesis.Keys == w.pools.Keys
    && forall r: nat, k: nat | IsEvent(w, r, k) ::
         var e := w.block(r)[k];
         e.confirmedRound == r && e.poolAddress in w.pools
         && LpBalanceDelta(w.pools[e.poolAddress], e.asaId, e.delta).Success?
  }

  ghost predicate IsEventId(w: World, id: string) {
    exists r: nat, k: nat :: IsEvent(w, r, k) && w.block(r)[k].id == id
  }

  ghost predicate SameId(w: World, r: nat, k: nat, r': nat, k': nat) {
    IsEvent(w, r, k) && IsEvent(w, r', k') && w.block(r)[k].id == w.block(r')[k'].id
  }

  /** No two events share an ID, and no event's ID is a legacy alias of another's. */
  ghost predicate DistinctIds(w: World) {
    && (forall r: nat, k: nat, r': nat, k': nat | SameId(w, r, k, r', k') :: r == r' && k == k')
    && (forall r: nat, k: nat, a: string | IsEvent(w, r, k) && a in EventIds.LegacyAliases(w.block(r)[k].id) ::
          !IsEventId(w, a))
  }

  /** The true balances of a pool after the first n events of round r. */
  ghost function Balance(w: World, p: string, r: nat, n: nat): Balances
    requires Tracked(w) && p in w.pools && n <= |w.block(r)|
    decreases r, n
  {
    if n > 0 then
      var e := w.block(r)[n - 1];
      var b := Balance(w, p, r, n - 1);
      assert IsEvent(w, r, n - 1);
      if e.poolAddress == p then b.Add(DeltaOf(w, e)) else b
    else if r > 0 then Balance(w, p, r - 1, |w.block(r - 1)|)
    else w.genesis[p]
  }

  ghost predicate IsCursor(w: World, p: string, c: Cursor) {
    c.AtEvent? ==> IsPoolEvent(w, p, c.round, c.rank)
  }

  /** The initial balances plus the deltas of all events up to the cursor. */
  ghost function Truth(w: World, p: string, c: Cursor): Balances
    requires Tracked(w) && p in w.pools && IsCursor(w, p, c)
  {
    if c.AtEvent? then Balance(w, p, c.round, c.rank + 1) else Balance(w, p, c.round + 1, 0)
  }

  /** Snapshots that report exactly the initial balances plus the deltas of all events. */
  ghost predicate ExactSnapshots(w: World)
    requires Tracked(w)
  {
    forall p: string, r: nat | p in w.pools :: w.observed(p, r) == Truth(w, p, RoundEnd(r))
  }

  /** What a pool holds at a cursor when its last snapshot was at the end of round b: that snapshot, and every event since. */
  ghost function Held(w: World, p: string, b: nat, c: Cursor): Balances
    requires Tracked(w) && p in w.pools && IsCursor(w, p, c)
  {
    w.observed(p, b).Plus(Truth(w, p, c).Minus(Truth(w, p, RoundEnd(b))))
  }

  /** Applying this event leaves its pool within the uint64 range, whichever earlier snapshot the pool builds on. */
  ghost predicate EventFits(w: World, r: nat, k: nat)
    requires Tracked(w) && IsEvent(w, r, k)
  {
    forall b: nat | b < r :: Held(w, w.block(r)[k].poolAddress, b, AtEvent(r, k)).InRange()
  }

  ghost predicate RoundFits(w: World, r: nat)
    requires Tracked(w)
  {
    forall k: nat | IsEvent(w, r, k) :: EventFits(w, r, k)
  }

  /** The Indexer reports numbers that can be stored. */
  ghost predicate SnapshotFits(w: World, p: string, r: nat) {
    w.observed(p, r).InRange() && IsUint64(r)
  }

  ghost predicate ValidWorld(w: World) {
    Tracked(w) && DistinctIds(w)
  }

  /** Between two points of the chain without an event of the pool, its balances stand still. */
  lemma {:induction false} QuietStretch(w: World, p: string, r: nat, n: nat, r': nat, n': nat)
    requires Tracked(w) && p in w.pools && n <= |w.block(r)| && n' <= |w.block(r')|
    requires r < r' || (r == r' && n <= n')
    requires forall q: nat, j: nat | IsPoolEvent(w, p, q, j) ::
               q < r || (q == r && j < n) || q > r' || (q == r' && j >= n')
    ensures Balance(w, p, r, n) == Balance(w, p, r', n')
    decreases r', n'
  {
    if r == r' && n == n' {
    } else if n' > 0 {
      assert w.block(r')[n' - 1].poolAddress != p by {
        if w.block(r')[n' - 1].poolAddress == p {
          assert IsPoolEvent(w, p, r', n' - 1);
        }
      }
      QuietStretch(w, p, r, n, r', n' - 1);
    } else {
      QuietStretch(w, p, r, n, r' - 1, |w.block(r' - 1)|);
    }
  }

  /**
   * Moving a cursor to an event of its pool is right exactly when it skips nothing: with no
   * event of the pool strictly between, the truth changes by the delta of that one event.
   */
  lemma NextEventTruth(w: World, p: string, c: Cursor, r: nat, k: nat)
    requires Tracked(w) && p in w.pools && IsCursor(w, p, c) && IsPoolEvent(w, p, r, k)
    requires Before(c, AtEvent(r, k))
    requires forall q: nat, j: nat | IsPoolEvent(w, p, q, j) && Before(AtEvent(q, j), AtEvent(r, k)) ::
               AtMost(AtEvent(q, j), c)
    ensures Truth(w, p, AtEvent(r, k)) == Truth(w, p, c).Add(DeltaOf(w, w.block(r)[k]))
  {
    if c.AtEvent? {
      QuietStretch(w, p, c.round, c.rank + 1, r, k);
    } else {
      QuietStretch(w, p, c.round + 1, 0, r, k);
    }
  }

  /** The same step on top of a snapshot. */
  lemma NextEventHeld(w: World, p: string, b: nat, c: Cursor, r: nat, k: nat)
    requires Tracked(w) && p in w.pools && IsCursor(w, p, c) && IsPoolEvent(w, p, r, k)
    requires Before(c, AtEvent(r, k))
    requires forall q: nat, j: nat | IsPoolEvent(w, p, q, j) && Before(AtEvent(q, j), AtEvent(r, k)) ::
               AtMost(AtEvent(q, j), c)
    ensures Held(w, p, b, AtEvent(r, k)) == Held(w, p, b, c).Add(DeltaOf(w, w.block(r)[k]))
  {
    NextEventTruth(w, p, c, r, k);
    hide Truth;
    SameFields(Held(w, p, b, AtEvent(r, k)), Held(w, p, b, c).Add(DeltaOf(w, w.block(r)[k])));
  }

  lemma SameFields(a: Balances, b: Balances)
    requires forall f: Field :: a.Get(f) == b.Get(f)
    ensures a == b
  {
    assert a.Get(Asset1Reserve) == b.Get(Asset1Reserve) && a.Get(Asset2Reserve) == b.Get(Asset2Reserve);
    assert a.Get(TotalTokens) == b.Get(TotalTokens) && a.Get(OperationalAlgo) == b.Get(OperationalAlgo);
  }

  /** A snapshot alone is what it reports; exact snapshots make no difference to the truth. */
  lemma HeldAtSnapshot(w: World, p: string, b: nat, c: Cursor)
    requires Tracked(w) && p in w.pools && IsCursor(w, p, c)
    ensures Held(w, p, b, RoundEnd(b)) == w.observed(p, b)
    ensures ExactSnapshots(w) ==> Held(w, p, b, c) == Truth(w, p, c)
  {
    hide Truth;
    SameFields(Held(w, p, b, RoundEnd(b)), w.observed(p, b));
    if ExactSnapshots(w) {
      SameFields(Held(w, p, b, c), Truth(w, p, c));
    }
  }

  lemma BeforeTransitive(a: Cursor, b: Cursor, c: Cursor)
    requires AtMost(a, b) && AtMost(b, c)
    ensures AtMost(a, c) && (Before(a, b) || Before(b, c) ==> Before(a, c))
  {
  }
}

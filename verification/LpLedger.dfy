/**
 * What the projector stores, measured against the ledger: over every run of every worker, with
 * snapshots of the ledger at any rounds.
 */
module LpLedger {
  import opened LpDomain
  import opened LpWorld
  import opened LpSafety
  import opened ChainBlocks
  import opened LpChain

  /** Every event of the pool up to the end of round r is at or behind the cursor, and the cursor is not past it. */
  ghost predicate UpTo(w: World, p: string, c: Cursor, r: nat) {
    AtMost(c, RoundEnd(r)) && forall q: nat, j: nat | IsPoolEvent(w, p, q, j) && q <= r :: AtMost(AtEvent(q, j), c)
  }

  lemma UpToRoundEnd(w: World, p: string, c: Cursor, r: nat)
    requires Tracked(w) && p in w.pools && IsCursor(w, p, c) && UpTo(w, p, c, r)
    ensures Truth(w, p, c) == Truth(w, p, RoundEnd(r))
  {
    if c.AtEvent? {
      QuietStretch(w, p, c.round, c.rank + 1, r + 1, 0);
    } else {
      QuietStretch(w, p, c.round + 1, 0, r + 1, 0);
    }
  }

  /**
   * What is stored, in every reachable state: for a pool that is projected up to the end of a round,
   * the stored balances are the pool's view of the ledger after that round exactly when the pool has
   * paid no fee for a transaction that moves nothing since its last snapshot; otherwise its stored
   * ALGO is too high by exactly those fees.
   */
  lemma StoredIsTheLedger(c: Chain, w: World, s: System, schedule: seq<Step>, p: string, r: nat)
    requires ValidChain(c) && Projects(c, w) && Tracked(w) && Start(w, s) && p in c.pools && p in c.supply
    requires var db := Run(w, s, schedule).db;
             p in db.states && db.states[p].cursor.Some? ==> UpTo(w, p, db.states[p].cursor.value, r)
    ensures p in Run(w, s, schedule).db.states
    ensures var state := Run(w, s, schedule).db.states[p];
            var unseen := UnseenFeesUpTo(c, p, r) - UnseenFeesUpTo(c, p, state.snapshotRound);
            var view := View(c.pools[p], c.supply[p], LedgerAfter(c, r), p);
            && (state.balances == view <==> unseen == 0)
            && forall f: Field :: state.balances.Get(f) == view.Get(f) + if f == AlgoField(c.pools[p]) then unseen else 0
  {
    hide ValidChain, Projects, Tracked, DistinctIds, Run, Start, LedgerAfter, View, UnseenFeesUpTo, Truth, UpTo;
    ChainDistinctIds(c, w);
    WorldPools(c, w, p);
    BalancesAreTrue(w, s, schedule, p);
    var state := Run(w, s, schedule).db.states[p];
    UpToRoundEnd(w, p, state.cursor.value, r);
    TruthPlusUnseen(c, w, p, r);
    TruthPlusUnseen(c, w, p, state.snapshotRound);
    ObservedView(c, w, p, state.snapshotRound);
    var unseen := UnseenFeesUpTo(c, p, r) - UnseenFeesUpTo(c, p, state.snapshotRound);
    var view := View(c.pools[p], c.supply[p], LedgerAfter(c, r), p);
    SameFields(state.balances, view.Add(BalanceDelta(AlgoField(c.pools[p]), unseen)));
  }

  lemma ObservedView(c: Chain, w: World, p: string, r: nat)
    requires Projects(c, w) && p in c.pools && p in c.supply
    ensures w.observed(p, r) == View(c.pools[p], c.supply[p], LedgerAfter(c, r), p)
  {
  }
}

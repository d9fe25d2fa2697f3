/**
 * From flattened transfers to signed per-pool events (flex/sync_pools.py), checked and
 * sorted before anything is written (flex/data/lp_states.py).
 */
module BlockProjection {
  import opened Wrappers
  import opened Strings
  import opened LpDomain
  import opened EventIds
  import opened ChainBlocks
  import opened LpCursorCodec
  import opened Sorting

  datatype ProcessError =
    | BadRound | BadAsset | BadAmount | BadFee | UnsupportedClawbackOrClose | UnsupportedClose | BadEventId | BadEvent

  type PoolMap = map<string, PoolInfo>

  predicate TracksAsset(pools: PoolMap, account: string, asset: int) {
    account in pools && asset >= 0 && pools[account].Tracks(asset)
  }

  /** Build one event; the model object refuses IDs and positions that have no cursor. */
  function NewEvent(eventId: string, pool: string, user: string, asset: int, delta: int, round: int, position: nat)
    : (r: Result<LpTransaction, ProcessError>)
    ensures r.Success? ==>
              && 0 <= asset && 0 <= round
              && r.value.poolAddress == pool && r.value.asaId == asset && r.value.delta == delta
              && r.value.confirmedRound == round && r.value.eventPosition == position
              && ProjectionEventId(eventId, pool) == Success(r.value.id)
              && LpEventOrder(round, r.value.id, position).Success?
              && -MAX_ALGORAND_UINT <= delta <= MAX_ALGORAND_UINT
  {
    var id := ProjectionEventId(eventId, pool);
    if id.Failure? then Failure(BadEventId)
    else if !IsUint64(asset) || !IsUint64(round) || !(-MAX_ALGORAND_UINT <= delta <= MAX_ALGORAND_UINT) then
      Failure(BadEvent)
    else if LpEventOrder(round, id.value, position).Failure? then Failure(BadEvent)
    else Success(LpTransaction(id.value, pool, user, asset, delta, round, position))
  }

  function Optional(condition: bool, e: Result<LpTransaction, ProcessError>): Result<seq<LpTransaction>, ProcessError> {
    if !condition then Success([])
    else if e.Success? then Success([e.value])
    else Failure(e.error)
  }

  /** The accounts a transfer names, sender and receiver first. */
  function Affected(t: Txn): seq<string>
    requires t.Moves()
  {
    match t.body
    case AssetTransfer(receiver, _, _, clawback, closeTo, _, _) =>
      [t.sender, receiver] + (if clawback != "" then [clawback] else []) + (if closeTo != "" then [closeTo] else [])
    case Payment(receiver, _, closeTo, _, _) =>
      [t.sender, receiver] + (if closeTo != "" then [closeTo] else [])
  }

  predicate TouchesPool(pools: PoolMap, accounts: seq<string>) {
    exists a | a in accounts :: a in pools
  }

  function AssetOf(t: Txn): int
    requires t.Moves()
  {
    if t.body.AssetTransfer? then t.body.assetId else 0
  }

  /** The checks before any event is built; None means that the transfer concerns no pool. */
  function Accept(pools: PoolMap, t: Txn, round: int): Result<bool, ProcessError>
    requires t.Moves()
  {
    if !IsUint64(round) then Failure(BadRound)
    else if t.body.AssetTransfer? && !(IsUint64(t.body.assetId) && t.body.assetId > 0) then Failure(BadAsset)
    else if t.body.AssetTransfer? && !IsUint64(t.body.amount) then Failure(BadAmount)
    else if !TouchesPool(pools, Affected(t)) then Success(false)
    else if t.body.closing then
      if t.body.Payment? then Failure(UnsupportedClose)
      else if exists a | a in Affected(t) :: TracksAsset(pools, a, t.body.assetId) then Failure(UnsupportedClawbackOrClose)
      else if !IsUint64(t.fee) then Failure(BadFee)
      else Success(true)
    else if t.body.Payment? && !IsUint64(t.body.amount) then Failure(BadAmount)
    else if !IsUint64(t.fee) then Failure(BadFee)
    else Success(true)
  }

  /** The events of one transfer: the sender's leg, the receiver's leg, the sender's fee. */
  function Legs(pools: PoolMap, f: FlatTxn, round: int, position: nat): Result<seq<LpTransaction>, ProcessError>
    requires f.txn.Moves()
  {
    var t := f.txn;
    var relevant :- Accept(pools, t, round);
    if !relevant then Success([])
    else
      var eventId := EventIdOf(f);
      var receiver := t.body.receiver;
      var asset := AssetOf(t);
      var senderTracks := TracksAsset(pools, t.sender, asset);
      var self := t.sender == receiver && senderTracks;
      var debit :- Optional(senderTracks && !self,
                            NewEvent(eventId, t.sender, receiver, asset, -t.body.amount, round, position));
      var credit :- Optional(!self && TracksAsset(pools, receiver, asset),
                             NewEvent(eventId, receiver, t.sender, asset, t.body.amount, round, position));
      var fee :- Optional(t.sender in pools && t.fee != 0,
                          NewEvent(eventId + "#fee", t.sender, t.sender, 0, -t.fee, round, position));
      Success(debit + credit + fee)
  }

  /** All events of a block; the position of a transfer is its index after flattening. */
  function Process(pools: PoolMap, s: seq<FlatTxn>, round: int): Result<seq<LpTransaction>, ProcessError>
    requires forall f | f in s :: f.txn.Moves()
  {
    if s == [] then Success([])
    else
      var front := s[..|s| - 1];
      assert (forall f | f in front :: f in s) && s[|s| - 1] in s;
      var before :- Process(pools, front, round);
      var legs :- Legs(pools, s[|s| - 1], round, |s| - 1);
      Success(before + legs)
  }

  method ProcessLpTransactions(pools: PoolMap, transactions: seq<FlatTxn>, round: int)
    returns (r: Result<seq<LpTransaction>, ProcessError>)
    requires forall f | f in transactions :: f.txn.Moves()
    ensures r.Success? <==> Process(pools, transactions, round).Success?
    ensures r.Success? ==> r == Process(pools, transactions, round)
  {
    var lpTransactions: seq<LpTransaction> := [];
    for position := 0 to |transactions|
      invariant forall f | f in transactions[..position] :: f.txn.Moves()
      invariant Process(pools, transactions[..position], round) == Success(lpTransactions)
    {
      var f := transactions[position];
      assert transactions[..position + 1][..position] == transactions[..position];
      assert f in transactions;
      var legs := Legs(pools, f, round, position);
      if legs.Failure? {
        ProcessPrefixFails(pools, transactions, round, position + 1);
        return Failure(legs.error);
      }
      lpTransactions := lpTransactions + legs.value;
    }
    assert transactions[..|transactions|] == transactions;
    return Success(lpTransactions);
  }

  lemma {:induction false} ProcessPrefixFails(pools: PoolMap, s: seq<FlatTxn>, round: int, n: nat)
    requires (forall f | f in s :: f.txn.Moves()) && n <= |s|
    requires (forall f | f in s[..n] :: f.txn.Moves()) && Process(pools, s[..n], round).Failure?
    ensures Process(pools, s, round).Failure?
    decreases |s|
  {
    if n == |s| {
      assert s[..n] == s;
    } else {
      var front := s[..|s| - 1];
      assert forall f | f in front :: f in s;
      assert front[..n] == s[..n];
      ProcessPrefixFails(pools, front, round, n);
    }
  }

  // ---- what the events add up to ----

  /** The sum of the event deltas on one asset of one pool. */
  function Net(evs: seq<LpTransaction>, p: string, asset: int): int {
    if evs == [] then 0
    else Net(evs[..|evs| - 1], p, asset) + NetOne(evs[|evs| - 1], p, asset)
  }

  function NetOne(e: LpTransaction, p: string, asset: int): int {
    if e.poolAddress == p && e.asaId == asset then e.delta else 0
  }

  lemma {:induction false} NetAppend(a: seq<LpTransaction>, b: seq<LpTransaction>, p: string, asset: int)
    ensures Net(a + b, p, asset) == Net(a, p, asset) + Net(b, p, asset)
  {
    if b == [] {
      assert a + b == a;
    } else {
      NetAppend(a, b[..|b| - 1], p, asset);
      assert (a + b)[..|a + b| - 1] == a + b[..|b| - 1];
    }
  }

  lemma NetLeg(condition: bool, e: Result<LpTransaction, ProcessError>, account: string, x: int, delta: int,
               p: string, asset: int)
    requires Optional(condition, e).Success?
    requires e.Success? ==> e.value.poolAddress == account && e.value.asaId == x && e.value.delta == delta
    ensures Net(Optional(condition, e).value, p, asset) == if condition then Gain(account, x, delta, p, asset) else 0
  {
    if condition {
      assert [e.value][..0] == [];
    }
  }

  /** Leaving out legs that no pool tracks, and both legs of a self-transfer, loses nothing a pool tracks. */
  lemma LegsSuffice(pools: PoolMap, sender: string, receiver: string, x: int, amount: int, fee: int, p: string, asset: int)
    requires TracksAsset(pools, p, asset)
    ensures var tracks := TracksAsset(pools, sender, x);
            var self := sender == receiver && tracks;
            (if tracks && !self then Gain(sender, x, -amount, p, asset) else 0)
            + (if !self && TracksAsset(pools, receiver, x) then Gain(receiver, x, amount, p, asset) else 0)
            + (if sender in pools && fee != 0 then Gain(sender, 0, -fee, p, asset) else 0)
            == Gain(sender, 0, -fee, p, asset) + Gain(sender, x, -amount, p, asset) + Gain(receiver, x, amount, p, asset)
  {
  }

  /** The events of a transfer move a tracked holding by exactly what the chain moves it. */
  lemma LegsMatchLedger(pools: PoolMap, f: FlatTxn, round: int, position: nat, p: string, asset: int)
    requires f.txn.Moves() && Legs(pools, f, round, position).Success?
    requires TracksAsset(pools, p, asset)
    requires WellFormed(f.txn)
    ensures Net(Legs(pools, f, round, position).value, p, asset) == MoveEffect(f.txn, p, asset)
  {
    var t := f.txn;
    if !Accept(pools, t, round).value {
      UntouchedPool(pools, t, p, asset);
    } else {
      LegsNet(pools, f, round, position, p, asset);
      AcceptedIsPlain(pools, t, round);
      hide TracksAsset, Legs, MoveEffect, WellFormed, Gain, Accept;
      LegsSuffice(pools, t.sender, t.body.receiver, AssetOf(t), t.body.amount, t.fee, p, asset);
      PlainMove(pools, t, p, asset);
    }
  }

  lemma AcceptedIsPlain(pools: PoolMap, t: Txn, round: int)
    requires t.Moves() && Accept(pools, t, round) == Success(true)
    ensures t.body.closing ==> t.body.AssetTransfer? && forall a | a in Affected(t) :: !TracksAsset(pools, a, t.body.assetId)
  {
  }

  lemma LegsNet(pools: PoolMap, f: FlatTxn, round: int, position: nat, p: string, asset: int)
    requires f.txn.Moves() && Legs(pools, f, round, position).Success? && Accept(pools, f.txn, round) == Success(true)
    ensures var (sender, receiver, x) := (f.txn.sender, f.txn.body.receiver, AssetOf(f.txn));
            var tracks := TracksAsset(pools, sender, x);
            var self := sender == receiver && tracks;
            Net(Legs(pools, f, round, position).value, p, asset)
            == (if tracks && !self then Gain(sender, x, -f.txn.body.amount, p, asset) else 0)
               + (if !self && TracksAsset(pools, receiver, x) then Gain(receiver, x, f.txn.body.amount, p, asset) else 0)
               + (if sender in pools && f.txn.fee != 0 then Gain(sender, 0, -f.txn.fee, p, asset) else 0)
  {
    hide NewEvent, Optional, TracksAsset, Accept, Net, Gain;
    var t := f.txn;
    var eventId := EventIdOf(f);
    var receiver := t.body.receiver;
    var x := AssetOf(t);
    var tracks := TracksAsset(pools, t.sender, x);
    var self := t.sender == receiver && tracks;
    var debit := NewEvent(eventId, t.sender, receiver, x, -t.body.amount, round, position);
    var credit := NewEvent(eventId, receiver, t.sender, x, t.body.amount, round, position);
    var fee := NewEvent(eventId + "#fee", t.sender, t.sender, 0, -t.fee, round, position);
    var a := Optional(tracks && !self, debit);
    var b := Optional(!self && TracksAsset(pools, receiver, x), credit);
    var c := Optional(t.sender in pools && t.fee != 0, fee);
    NetLeg(tracks && !self, debit, t.sender, x, -t.body.amount, p, asset);
    NetLeg(!self && TracksAsset(pools, receiver, x), credit, receiver, x, t.body.amount, p, asset);
    NetLeg(t.sender in pools && t.fee != 0, fee, t.sender, 0, -t.fee, p, asset);
    NetAppend(a.value, b.value, p, asset);
    NetAppend(a.value + b.value, c.value, p, asset);
  }

  /** Clawback and close fields are only ever present together with the flag that announces them. */
  predicate WellFormed(t: Txn)
    requires t.Moves()
  {
    match t.body
    case AssetTransfer(_, _, _, clawback, closeTo, _, closing) => (clawback != "" || closeTo != "") ==> closing
    case Payment(_, _, closeTo, _, closing) => closeTo != "" ==> closing
  }

  /** A transfer that names no pool does nothing to a pool. */
  lemma UntouchedPool(pools: PoolMap, t: Txn, p: string, asset: int)
    requires t.Moves() && p in pools && !TouchesPool(pools, Affected(t))
    ensures MoveEffect(t, p, asset) == 0
  {
    assert p !in Affected(t);
    assert Affected(t)[0] == t.sender && Affected(t)[1] == t.body.receiver;
  }

  /** An accepted transfer does to a tracked holding what a plain one does: fee, debit, credit. */
  lemma PlainMove(pools: PoolMap, t: Txn, p: string, asset: int)
    requires t.Moves() && WellFormed(t) && TracksAsset(pools, p, asset)
    requires t.body.closing ==> t.body.AssetTransfer? && forall a | a in Affected(t) :: !TracksAsset(pools, a, t.body.assetId)
    ensures MoveEffect(t, p, asset)
            == Gain(t.sender, 0, -t.fee, p, asset)
               + Gain(t.sender, AssetOf(t), -t.body.amount, p, asset)
               + Gain(t.body.receiver, AssetOf(t), t.body.amount, p, asset)
  {
    if t.body.closing && asset == t.body.assetId {
      assert p !in Affected(t);
      assert Affected(t)[0] == t.sender && Affected(t)[1] == t.body.receiver;
    }
  }

  lemma {:induction false} ProcessMatchesLedger(pools: PoolMap, s: seq<FlatTxn>, round: int, p: string, asset: int)
    requires (forall f | f in s :: f.txn.Moves() && WellFormed(f.txn)) && Process(pools, s, round).Success?
    requires TracksAsset(pools, p, asset)
    ensures Net(Process(pools, s, round).value, p, asset) == FlatEffect(s, p, asset)
  {
    hide Legs, MoveEffect, WellFormed, TracksAsset;
    if s != [] {
      var front, last := s[..|s| - 1], s[|s| - 1];
      assert (forall f | f in front :: f in s) && last in s;
      ProcessMatchesLedger(pools, front, round, p, asset);
      LegsMatchLedger(pools, last, round, |s| - 1, p, asset);
      NetAppend(Process(pools, front, round).value, Legs(pools, last, round, |s| - 1).value, p, asset);
      assert s == front + [last];
      FlatEffectAppend(front, [last], p, asset);
    }
  }

  // ---- the events have distinct names ----

  /** Where an event comes from: a transfer, by its position, and one of its legs. */
  ghost predicate ComesFrom(e: LpTransaction, f: FlatTxn, position: nat, fee: bool) {
    e.eventPosition == position
    && ProjectionEventId(LegEventId(f.rootId, f.path, fee), e.poolAddress) == Success(e.id)
  }

  ghost predicate HasOrigin(e: LpTransaction, f: FlatTxn, position: nat) {
    exists fee :: ComesFrom(e, f, position, fee)
  }

  /** What one built event is good for. */
  ghost predicate GoodEvent(pools: PoolMap, e: LpTransaction, f: FlatTxn, round: int, position: nat) {
    && HasOrigin(e, f, position) && e.confirmedRound == round && e.poolAddress in pools
    && LpBalanceDelta(pools[e.poolAddress], e.asaId, e.delta).Success?
    && LpEventOrder(round, e.id, e.eventPosition).Success?
  }

  lemma BuiltIsGood(pools: PoolMap, f: FlatTxn, fee: bool, account: string, user: string, asset: int, delta: int,
                    round: int, position: nat)
    requires var e := NewEvent(EventIdOf(f) + if fee then "#fee" else "", account, user, asset, delta, round, position);
             e.Success?
    requires TracksAsset(pools, account, asset)
    ensures var e := NewEvent(EventIdOf(f) + if fee then "#fee" else "", account, user, asset, delta, round, position).value;
            GoodEvent(pools, e, f, round, position) && ComesFrom(e, f, position, fee)
  {
    var e := NewEvent(EventIdOf(f) + if fee then "#fee" else "", account, user, asset, delta, round, position).value;
    assert ComesFrom(e, f, position, fee);
  }

  ghost predicate DistinctEventIds(evs: seq<LpTransaction>) {
    forall i, j | 0 <= i < j < |evs| :: evs[i].id != evs[j].id
  }

  /** An optional leg, when it is there, is a good event of the kind it should be. */
  lemma OptionalLeg(pools: PoolMap, f: FlatTxn, fee: bool, condition: bool, account: string, user: string, asset: int,
                    delta: int, round: int, position: nat)
    requires condition ==> TracksAsset(pools, account, asset)
    requires var e := NewEvent(EventIdOf(f) + if fee then "#fee" else "", account, user, asset, delta, round, position);
             Optional(condition, e).Success?
    ensures var e := NewEvent(EventIdOf(f) + if fee then "#fee" else "", account, user, asset, delta, round, position);
            var leg := Optional(condition, e).value;
            && |leg| <= 1
            && forall x | x in leg :: GoodEvent(pools, x, f, round, position) && ComesFrom(x, f, position, fee)
                                      && x.poolAddress == account
  {
    if condition {
      BuiltIsGood(pools, f, fee, account, user, asset, delta, round, position);
    }
  }

  lemma LegsOrigin(pools: PoolMap, f: FlatTxn, round: int, position: nat)
    requires f.txn.Moves() && Legs(pools, f, round, position).Success? && PlainId(f.rootId)
    ensures var legs := Legs(pools, f, round, position).value;
            && (forall e | e in legs :: GoodEvent(pools, e, f, round, position))
            && DistinctEventIds(legs)
  {
    hide NewEvent, TracksAsset, Accept, GoodEvent, ComesFrom, EventIdOf, AssetOf, PlainId, Optional, DistinctEventIds;
    var t := f.txn;
    if Accept(pools, t, round).value {
      var eventId := EventIdOf(f);
      assert eventId + "" == eventId;
      var receiver := t.body.receiver;
      var x := AssetOf(t);
      var tracks := TracksAsset(pools, t.sender, x);
      var self := t.sender == receiver && tracks;
      if t.sender in pools {
        AlgoIsTracked(pools, t.sender);
      }
      OptionalLeg(pools, f, false, tracks && !self, t.sender, receiver, x, -t.body.amount, round, position);
      OptionalLeg(pools, f, false, !self && TracksAsset(pools, receiver, x), receiver, t.sender, x, t.body.amount,
                  round, position);
      OptionalLeg(pools, f, true, t.sender in pools && t.fee != 0, t.sender, t.sender, 0, -t.fee, round, position);
      var a := Optional(tracks && !self, NewEvent(eventId, t.sender, receiver, x, -t.body.amount, round, position)).value;
      var b := Optional(!self && TracksAsset(pools, receiver, x),
                        NewEvent(eventId, receiver, t.sender, x, t.body.amount, round, position)).value;
      var c := Optional(t.sender in pools && t.fee != 0,
                        NewEvent(eventId + "#fee", t.sender, t.sender, 0, -t.fee, round, position)).value;
      assert a == [] || t.sender != receiver by { EmptyUnless(tracks && !self, NewEvent(eventId, t.sender, receiver, x, -t.body.amount, round, position)); }
      ThreeLegNames(a, b, c, f, position);
    } else {
      assert DistinctEventIds([]) by { NoNames(); }
    }
  }

  lemma NoNames()
    ensures DistinctEventIds([])
  {
  }

  lemma EmptyUnless(condition: bool, e: Result<LpTransaction, ProcessError>)
    requires Optional(condition, e).Success?
    ensures condition || Optional(condition, e).value == []
  {
  }

  /** The debit, the credit and the fee of one transfer never share a name. */
  lemma ThreeLegNames(a: seq<LpTransaction>, b: seq<LpTransaction>, c: seq<LpTransaction>, f: FlatTxn, position: nat)
    requires PlainId(f.rootId) && |a| <= 1 && |b| <= 1 && |c| <= 1
    requires (forall x | x in a :: ComesFrom(x, f, position, false)) && (forall x | x in b :: ComesFrom(x, f, position, false))
    requires forall x | x in c :: ComesFrom(x, f, position, true)
    requires forall x, y | x in a && y in b :: x.poolAddress != y.poolAddress
    ensures DistinctEventIds(a + b + c)
  {
    if |a| == 1 && |b| == 1 {
      LegIdsDiffer(a[0], b[0], f, position, false, false);
    }
    if |a| == 1 && |c| == 1 {
      LegIdsDiffer(a[0], c[0], f, position, false, true);
    }
    if |b| == 1 && |c| == 1 {
      LegIdsDiffer(b[0], c[0], f, position, false, true);
    }
  }

  lemma AlgoIsTracked(pools: PoolMap, account: string)
    requires account in pools
    ensures TracksAsset(pools, account, 0)
  {
  }

  lemma LegIdsDiffer(a: LpTransaction, b: LpTransaction, f: FlatTxn, position: nat, fee: bool, fee': bool)
    requires PlainId(f.rootId) && ComesFrom(a, f, position, fee) && ComesFrom(b, f, position, fee')
    requires fee != fee' || a.poolAddress != b.poolAddress
    ensures a.id != b.id
  {
    if a.id == b.id {
      ScopedIdInjective(f.rootId, f.path, fee, a.poolAddress, f.rootId, f.path, fee', b.poolAddress);
    }
  }

  lemma PlacesDiffer(a: LpTransaction, b: LpTransaction, f: FlatTxn, g: FlatTxn, i: nat, j: nat)
    requires PlainId(f.rootId) && PlainId(g.rootId) && (f.rootId != g.rootId || f.path != g.path)
    requires HasOrigin(a, f, i) && HasOrigin(b, g, j)
    ensures a.id != b.id
  {
    var fee :| ComesFrom(a, f, i, fee);
    var fee' :| ComesFrom(b, g, j, fee');
    if a.id == b.id {
      ScopedIdInjective(f.rootId, f.path, fee, a.poolAddress, g.rootId, g.path, fee', b.poolAddress);
    }
  }

  /** Every event of a block leads back to its transfer, and no two events share a name. */
  lemma {:induction false} ProcessOrigin(pools: PoolMap, s: seq<FlatTxn>, round: int)
    requires (forall f | f in s :: f.txn.Moves() && PlainId(f.rootId)) && UniquePlaces(s)
    requires Process(pools, s, round).Success?
    ensures var evs := Process(pools, s, round).value;
            && (forall e | e in evs :: e.eventPosition < |s| && GoodEvent(pools, e, s[e.eventPosition], round, e.eventPosition))
            && DistinctEventIds(evs)
  {
    if s != [] {
      hide GoodEvent, Legs, DistinctEventIds, HasOrigin;
      var front, last := s[..|s| - 1], s[|s| - 1];
      assert (forall f | f in front :: f in s) && last in s;
      ProcessOrigin(pools, front, round);
      LegsOrigin(pools, last, round, |s| - 1);
      var a := Process(pools, front, round).value;
      var b := Legs(pools, last, round, |s| - 1).value;
      forall e: LpTransaction | e in a + b
        ensures e.eventPosition < |s| && GoodEvent(pools, e, s[e.eventPosition], round, e.eventPosition)
      {
        if e in b {
          GoodOrigin(pools, e, last, round, |s| - 1);
        }
      }
      forall i, j | 0 <= i < |a| && 0 <= j < |b| ensures a[i].id != b[j].id {
        assert a[i] in a && b[j] in b;
        CrossNames(pools, a[i], b[j], s, round);
      }
      AppendNames(a, b);
    }
  }

  lemma CrossNames(pools: PoolMap, a: LpTransaction, b: LpTransaction, s: seq<FlatTxn>, round: int)
    requires s != [] && UniquePlaces(s) && forall f | f in s :: PlainId(f.rootId)
    requires a.eventPosition < |s| - 1 && GoodEvent(pools, a, s[a.eventPosition], round, a.eventPosition)
    requires GoodEvent(pools, b, s[|s| - 1], round, |s| - 1)
    ensures a.id != b.id
  {
    hide LpEventOrder, LpBalanceDelta;
    PlacesDiffer(a, b, s[a.eventPosition], s[|s| - 1], a.eventPosition, |s| - 1);
  }

  lemma AppendNames(a: seq<LpTransaction>, b: seq<LpTransaction>)
    requires DistinctEventIds(a) && DistinctEventIds(b)
    requires forall i, j | 0 <= i < |a| && 0 <= j < |b| :: a[i].id != b[j].id
    ensures DistinctEventIds(a + b)
  {
  }

  lemma GoodOrigin(pools: PoolMap, e: LpTransaction, f: FlatTxn, round: int, position: nat)
    requires GoodEvent(pools, e, f, round, position)
    ensures HasOrigin(e, f, position) && e.eventPosition == position
  {
  }

  /** A transfer between two pools that both track the asset moves it from one to the other; in ALGO the fee is lost on the way. */
  lemma PoolToPoolCancels(pools: PoolMap, f: FlatTxn, round: int, position: nat)
    requires f.txn.Moves() && Legs(pools, f, round, position).Success? && Accept(pools, f.txn, round) == Success(true)
    requires TracksAsset(pools, f.txn.sender, AssetOf(f.txn)) && TracksAsset(pools, f.txn.body.receiver, AssetOf(f.txn))
    requires f.txn.sender != f.txn.body.receiver
    ensures var legs := Legs(pools, f, round, position).value;
            Net(legs, f.txn.sender, AssetOf(f.txn)) + Net(legs, f.txn.body.receiver, AssetOf(f.txn))
            == if AssetOf(f.txn) == 0 then -f.txn.fee else 0
  {
    LegsNet(pools, f, round, position, f.txn.sender, AssetOf(f.txn));
    LegsNet(pools, f, round, position, f.txn.body.receiver, AssetOf(f.txn));
  }

  /** A transfer from a pool to itself leaves only the fee, whether the pool tracks the asset or not. */
  lemma SelfTransferLeavesFee(pools: PoolMap, f: FlatTxn, round: int, position: nat)
    requires f.txn.Moves() && Legs(pools, f, round, position).Success? && Accept(pools, f.txn, round) == Success(true)
    requires f.txn.sender == f.txn.body.receiver && f.txn.sender in pools
    ensures var legs := Legs(pools, f, round, position).value;
            if f.txn.fee == 0 then legs == []
            else |legs| == 1 && legs[0].asaId == 0 && legs[0].delta == -f.txn.fee && legs[0].poolAddress == f.txn.sender
  {
  }

  // ---- the preflight ----

  datatype PreflightError = WrongRound | ConflictingData

  ghost predicate Printable(e: LpTransaction) {
    LpEventOrder(e.confirmedRound, e.id, e.eventPosition).Success?
  }

  function OrderText(e: LpTransaction): string {
    match LpEventOrder(e.confirmedRound, e.id, e.eventPosition)
    case Success(text) => text
    case Failure(_) => ""
  }

  predicate OrderLess(a: LpTransaction, b: LpTransaction) {
    Less(OrderText(a), OrderText(b))
  }

  lemma EventsAreOrdered(evs: seq<LpTransaction>)
    requires DistinctEventIds(evs) && forall e | e in evs :: Printable(e)
    ensures OrdersAll(OrderLess, evs) && Distinct(evs) && Asymmetric(OrderLess, evs)
  {
    forall a, b | a in evs && b in evs && a != b ensures OrderLess(a, b) || OrderLess(b, a) {
      var i :| 0 <= i < |evs| && evs[i] == a;
      var j :| 0 <= j < |evs| && evs[j] == b;
      EventCursorOrder(a.confirmedRound, a.id, a.eventPosition, b.confirmedRound, b.id, b.eventPosition);
      LessTotal(OrderText(a), OrderText(b));
    }
    forall a, b, c | a in evs && b in evs && c in evs && OrderLess(a, b) && OrderLess(b, c) ensures OrderLess(a, c) {
      LessTransitive(OrderText(a), OrderText(b), OrderText(c));
    }
    forall a, b | a in evs && b in evs && OrderLess(a, b) ensures !OrderLess(b, a) {
      AsymmetricLess(OrderText(a), OrderText(b));
    }
  }

  ghost predicate NoConflict(evs: seq<LpTransaction>) {
    forall a, b | a in evs && b in evs && a.id == b.id :: a == b
  }

  /** The map of events seen so far and the list of them name the same events, each once. */
  ghost predicate Canonical(byId: map<string, LpTransaction>, kept: seq<LpTransaction>) {
    && DistinctEventIds(kept)
    && (forall e | e in kept :: e.id in byId && byId[e.id] == e)
    && (forall id | id in byId :: byId[id] in kept && byId[id].id == id)
  }

  lemma ExtendCanonical(byId: map<string, LpTransaction>, kept: seq<LpTransaction>, t: LpTransaction)
    requires Canonical(byId, kept) && t.id !in byId
    ensures Canonical(byId[t.id := t], kept + [t])
  {
    forall i | 0 <= i < |kept| ensures kept[i].id != t.id {
      assert kept[i] in kept;
    }
  }

  /** Validate and canonicalize a whole block batch before any write. */
  method PreflightLpTransactions(transactions: seq<LpTransaction>, expectedRound: int)
    returns (r: Result<seq<LpTransaction>, PreflightError>)
    requires forall t | t in transactions :: Printable(t)
    ensures r.Success? <==> (forall t | t in transactions :: t.confirmedRound == expectedRound) && NoConflict(transactions)
    ensures r.Success? ==> Sorted(OrderLess, r.value) && DistinctEventIds(r.value)
    ensures r.Success? ==> forall t :: t in r.value <==> t in transactions
    ensures r.Success? && DistinctEventIds(transactions) ==> multiset(r.value) == multiset(transactions)
  {
    var canonicalById: map<string, LpTransaction> := map[];
    var kept: seq<LpTransaction> := [];
    for i := 0 to |transactions|
      invariant forall t | t in transactions[..i] :: t.confirmedRound == expectedRound
      invariant Canonical(canonicalById, kept)
      invariant forall t :: t in kept <==> t in transactions[..i]
      invariant DistinctEventIds(transactions) ==> kept == transactions[..i]
      invariant NoConflict(transactions[..i])
    {
      var t := transactions[i];
      assert transactions[..i + 1] == transactions[..i] + [t];
      assert t in transactions;
      if t.confirmedRound != expectedRound {
        return Failure(WrongRound);
      }
      if t.id !in canonicalById {
        ExtendCanonical(canonicalById, kept, t);
        canonicalById := canonicalById[t.id := t];
        kept := kept + [t];
      } else if canonicalById[t.id] != t {
        assert canonicalById[t.id] in kept && canonicalById[t.id] in transactions;
        return Failure(ConflictingData);
      }
    }
    assert transactions[..|transactions|] == transactions;
    EventsAreOrdered(kept);
    SortSorted(OrderLess, kept);
    var sorted := Sort(OrderLess, kept);
    SortedNames(kept, sorted);
    return Success(sorted);
  }

  lemma SortedNames(kept: seq<LpTransaction>, sorted: seq<LpTransaction>)
    requires DistinctEventIds(kept) && multiset(sorted) == multiset(kept)
    requires (forall e | e in kept :: Printable(e)) && Sorted(OrderLess, sorted)
    ensures DistinctEventIds(sorted)
    ensures forall t :: t in sorted <==> t in kept
  {
    forall t ensures t in sorted <==> t in kept {
      InMultiset(sorted, t);
      InMultiset(kept, t);
    }
    EventsAreOrdered(kept);
    forall i, j | 0 <= i < j < |sorted| ensures sorted[i].id != sorted[j].id {
      assert OrderLess(sorted[i], sorted[j]) && sorted[i] in kept && sorted[j] in kept;
      var m :| 0 <= m < |kept| && kept[m] == sorted[i];
      var n :| 0 <= n < |kept| && kept[n] == sorted[j];
      LessIrreflexive(OrderText(sorted[i]));
    }
  }

  lemma NetRemove(b: seq<LpTransaction>, i: nat, p: string, asset: int)
    requires i < |b|
    ensures Net(b, p, asset) == Net(b[..i] + b[i + 1..], p, asset) + NetOne(b[i], p, asset)
  {
    assert b == b[..i + 1] + b[i + 1..] && b[..i + 1][..i] == b[..i];
    NetAppend(b[..i + 1], b[i + 1..], p, asset);
    NetAppend(b[..i], b[i + 1..], p, asset);
  }

  /** What the events add up to does not depend on their order. */
  lemma {:induction false} NetPermutation(a: seq<LpTransaction>, b: seq<LpTransaction>, p: string, asset: int)
    requires multiset(a) == multiset(b)
    ensures Net(a, p, asset) == Net(b, p, asset)
  {
    assert |multiset(a)| == |a| && |multiset(b)| == |b|;
    if a != [] {
      var n := |a| - 1;
      InMultiset(b, a[n]);
      assert a[n] in multiset(a);
      var i :| 0 <= i < |b| && b[i] == a[n];
      WithoutAt(a, n);
      WithoutAt(b, i);
      assert a[..n] + a[n + 1..] == a[..n];
      NetPermutation(a[..n], b[..i] + b[i + 1..], p, asset);
      NetRemove(b, i, p, asset);
    }
  }
}

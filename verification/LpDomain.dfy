/** The liquidity-pool aggregate and the events that move it (flex/domain/lp_projection.py). */
module LpDomain {
  import opened Wrappers

  const MAX_ALGORAND_UINT: int := 0xFFFF_FFFF_FFFF_FFFF

  predicate IsUint64(n: int) {
    0 <= n <= MAX_ALGORAND_UINT
  }

  datatype Field = Asset1Reserve | Asset2Reserve | TotalTokens | OperationalAlgo

  /** The four integer balances of a pool. */
  datatype Balances = Balances(asset1: int, asset2: int, issued: int, operationalAlgo: int) {

    function Get(f: Field): int {
      match f
      case Asset1Reserve => asset1
      case Asset2Reserve => asset2
      case TotalTokens => issued
      case OperationalAlgo => operationalAlgo
    }

    function Add(d: BalanceDelta): (b: Balances)
      ensures forall f: Field :: b.Get(f) == Get(f) + if f == d.field then d.amount else 0
    {
      match d.field
      case Asset1Reserve => this.(asset1 := asset1 + d.amount)
      case Asset2Reserve => this.(asset2 := asset2 + d.amount)
      case TotalTokens => this.(issued := issued + d.amount)
      case OperationalAlgo => this.(operationalAlgo := operationalAlgo + d.amount)
    }

    /** Field by field. */
    function Plus(b: Balances): (r: Balances)
      ensures forall f: Field :: r.Get(f) == Get(f) + b.Get(f)
    {
      Balances(asset1 + b.asset1, asset2 + b.asset2, issued + b.issued, operationalAlgo + b.operationalAlgo)
    }

    function Minus(b: Balances): (r: Balances)
      ensures forall f: Field :: r.Get(f) == Get(f) - b.Get(f)
    {
      Balances(asset1 - b.asset1, asset2 - b.asset2, issued - b.issued, operationalAlgo - b.operationalAlgo)
    }

    predicate InRange() {
      IsUint64(asset1) && IsUint64(asset2) && IsUint64(issued) && IsUint64(operationalAlgo)
    }
  }

  datatype BalanceDelta = BalanceDelta(field: Field, amount: int)

  /** The identity of a pool; it never changes after the pool is created. */
  datatype PoolInfo = PoolInfo(tokenId: nat, asset1Id: nat, asset2Id: nat) {

    /** The assets whose movements are projected for this pool. */
    predicate Tracks(assetId: nat) {
      assetId in {0, asset1Id, asset2Id, tokenId}
    }

    /** The asset whose amount a balance field follows. */
    function AssetOf(f: Field): nat {
      match f
      case Asset1Reserve => asset1Id
      case Asset2Reserve => asset2Id
      case TotalTokens => tokenId
      case OperationalAlgo => 0
    }

    /** The pool token and the two pooled assets are different assets, and only the second may be ALGO. */
    predicate Valid() {
      tokenId != 0 && asset1Id != 0 && asset1Id != asset2Id && tokenId != asset1Id && tokenId != asset2Id
    }
  }

  /** One movement on a pool account: a transfer leg, or a fee the pool paid. */
  datatype LpTransaction = LpTransaction(
    id: string, poolAddress: string, userAddress: string, asaId: nat,
    delta: int, confirmedRound: nat, eventPosition: nat)

  datatype DomainError = DeltaOutOfRange | ForeignAsset

  /** Which balance a movement of an asset on the pool account changes, and by how much. */
  function LpBalanceDelta(pool: PoolInfo, assetId: nat, delta: int): (r: Result<BalanceDelta, DomainError>)
    ensures r.Success? <==> -MAX_ALGORAND_UINT <= delta <= MAX_ALGORAND_UINT && pool.Tracks(assetId)
    ensures r.Success? ==> pool.AssetOf(r.value.field) == assetId
    // ALGO is operational only in a pool that does not trade it.
    ensures r.Success? && r.value.field == OperationalAlgo ==> assetId !in {pool.tokenId, pool.asset1Id, pool.asset2Id}
    ensures r.Success? ==> r.value.amount == if r.value.field == TotalTokens then -delta else delta
  {
    if !(-MAX_ALGORAND_UINT <= delta <= MAX_ALGORAND_UINT) then Failure(DeltaOutOfRange)
    else if assetId == pool.tokenId then Success(BalanceDelta(TotalTokens, -delta))
    else if assetId == pool.asset1Id then Success(BalanceDelta(Asset1Reserve, delta))
    else if assetId == pool.asset2Id then Success(BalanceDelta(Asset2Reserve, delta))
    else if assetId == 0 then Success(BalanceDelta(OperationalAlgo, delta))
    else Failure(ForeignAsset)
  }
}

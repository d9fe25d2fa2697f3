/**
 * Block transactions: their nesting, their flattening into uniquely named transfers
 * (flex/domain/transactions.py), and what they do to a full account ledger.
 */
module ChainBlocks {
  import opened Wrappers
  import opened EventIds

  datatype Body =
    | AssetTransfer(receiver: string, assetId: int, amount: int,
                    clawbackFrom: string, closeTo: string, closeAmount: int, closing: bool)
    | Payment(receiver: string, amount: int, closeTo: string, closeAmount: int, closing: bool)
    | AppCall(inner: seq<Txn>)
    | OtherTxn

  /** Inside a transfer, an empty `clawbackFrom` or `closeTo` is an absent field. */
  datatype Txn = Txn(sender: string, fee: int, body: Body) {

    predicate Moves() {
      body.AssetTransfer? || body.Payment?
    }
  }

  datatype RootTxn = RootTxn(id: string, txn: Txn)

  /** A transfer or payment with its place in the block: the root transaction and the nesting path. */
  datatype FlatTxn = FlatTxn(rootId: string, path: seq<nat>, txn: Txn)

  function EventIdOf(f: FlatTxn): string {
    ChainEventId(f.rootId, f.path)
  }

  /** All inner transactions that move assets, in the order the walk visits them. */
  function WalkInner(inner: seq<Txn>, rootId: string, path: seq<nat>, index: nat): seq<FlatTxn>
    decreases inner
  {
    if inner == [] then []
    else
      var here := path + [index];
      (if inner[0].Moves() then [FlatTxn(rootId, here, inner[0])] else [])
      + (if inner[0].body.AppCall? then WalkInner(inner[0].body.inner, rootId, here, 0) else [])
      + WalkInner(inner[1..], rootId, path, index + 1)
  }

  function FlattenRoot(root: RootTxn): seq<FlatTxn> {
    if root.txn.Moves() then [FlatTxn(root.id, [], root.txn)]
    else if root.txn.body.AppCall? then WalkInner(root.txn.body.inner, root.id, [], 0)
    else []
  }

  function Flatten(roots: seq<RootTxn>): seq<FlatTxn> {
    if roots == [] then [] else Flatten(roots[..|roots| - 1]) + FlattenRoot(roots[|roots| - 1])
  }

  /** The events of a block, unless a top-level transaction has no ID. */
  method FlattenTransferPayments(transactions: seq<RootTxn>) returns (r: Result<seq<FlatTxn>, ShapeError>)
    ensures r.Success? <==> forall root | root in transactions :: root.id != ""
    ensures r.Success? ==> r.value == Flatten(transactions)
  {
    var flattened: seq<FlatTxn> := [];
    for i := 0 to |transactions|
      invariant flattened == Flatten(transactions[..i])
      invariant forall root | root in transactions[..i] :: root.id != ""
    {
      var root := transactions[i];
      if root.id == "" {
        return Failure(EmptyId);
      }
      if root.txn.Moves() {
        flattened := flattened + [FlatTxn(root.id, [], root.txn)];
      } else if root.txn.body.AppCall? {
        flattened := flattened + WalkInner(root.txn.body.inner, root.id, [], 0);
      }
      assert transactions[..i + 1][..i] == transactions[..i];
      assert transactions[..i + 1] == transactions[..i] + [root];
    }
    assert transactions[..|transactions|] == transactions;
    return Success(flattened);
  }

  // ---- places in a block are unique ----

  /** Walked places extend the path by an index no smaller than the first one, and no two are equal. */
  ghost predicate PlacesFrom(s: seq<FlatTxn>, rootId: string, path: seq<nat>, index: nat) {
    && (forall i | 0 <= i < |s| ::
          s[i].rootId == rootId && |s[i].path| > |path| && s[i].path[..|path|] == path && s[i].path[|path|] >= index)
    && (forall i, j | 0 <= i < j < |s| :: s[i].path != s[j].path)
  }

  lemma {:induction false} WalkPlaces(inner: seq<Txn>, rootId: string, path: seq<nat>, index: nat)
    ensures PlacesFrom(WalkInner(inner, rootId, path, index), rootId, path, index)
    decreases inner
  {
    if inner != [] {
      var here := path + [index];
      var first := if inner[0].Moves() then [FlatTxn(rootId, here, inner[0])] else [];
      var below := if inner[0].body.AppCall? then WalkInner(inner[0].body.inner, rootId, here, 0) else [];
      var after := WalkInner(inner[1..], rootId, path, index + 1);
      if inner[0].body.AppCall? {
        WalkPlaces(inner[0].body.inner, rootId, here, 0);
      }
      WalkPlaces(inner[1..], rootId, path, index + 1);
      assert PlacesFrom(below, rootId, here, 0);
      JoinPlaces(first, below, after, rootId, path, index);
    }
  }

  lemma JoinPlaces(first: seq<FlatTxn>, below: seq<FlatTxn>, after: seq<FlatTxn>, rootId: string, path: seq<nat>, index: nat)
    requires |first| <= 1 && (first != [] ==> first[0].rootId == rootId && first[0].path == path + [index])
    requires PlacesFrom(below, rootId, path + [index], 0) && PlacesFrom(after, rootId, path, index + 1)
    ensures PlacesFrom(first + below + after, rootId, path, index)
  {
    var here := path + [index];
    forall i | 0 <= i < |below|
      ensures below[i].path[..|path|] == path && below[i].path[|path|] == index && |below[i].path| > |here|
    {
      assert below[i].path[..|here|] == here;
      assert below[i].path[..|path|] == here[..|path|];
      assert below[i].path[|path|] == below[i].path[..|here|][|path|];
    }
  }

  /** No two flattened transactions share both root and path. */
  ghost predicate UniquePlaces(s: seq<FlatTxn>) {
    forall i, j | 0 <= i < j < |s| :: s[i].rootId != s[j].rootId || s[i].path != s[j].path
  }

  ghost predicate DistinctRoots(roots: seq<RootTxn>) {
    forall i, j | 0 <= i < j < |roots| :: roots[i].id != roots[j].id
  }

  lemma RootPlaces(root: RootTxn)
    ensures UniquePlaces(FlattenRoot(root))
    ensures forall f | f in FlattenRoot(root) :: f.rootId == root.id
  {
    if !root.txn.Moves() && root.txn.body.AppCall? {
      WalkPlaces(root.txn.body.inner, root.id, [], 0);
    }
  }

  lemma {:induction false} FlattenPlaces(roots: seq<RootTxn>)
    requires DistinctRoots(roots)
    ensures UniquePlaces(Flatten(roots))
    ensures forall f | f in Flatten(roots) :: exists i | 0 <= i < |roots| :: f.rootId == roots[i].id
    ensures forall f | f in Flatten(roots) :: f.txn.Moves()
  {
    if roots != [] {
      var front, last := roots[..|roots| - 1], roots[|roots| - 1];
      FlattenPlaces(front);
      RootPlaces(last);
      RootMoves(last);
      var a: seq<FlatTxn>, b: seq<FlatTxn> := Flatten(front), FlattenRoot(last);
      forall i, j | 0 <= i < j < |a + b|
        ensures var c := a + b; c[i].rootId != c[j].rootId || c[i].path != c[j].path
      {
        if i < |a| <= j {
          assert a[i] in a && b[j - |a|] in b;
        }
      }
    }
  }

  lemma {:induction false} WalkMoves(inner: seq<Txn>, rootId: string, path: seq<nat>, index: nat)
    ensures forall f | f in WalkInner(inner, rootId, path, index) :: f.txn.Moves()
    decreases inner
  {
    if inner != [] {
      if inner[0].body.AppCall? {
        WalkMoves(inner[0].body.inner, rootId, path + [index], 0);
      }
      WalkMoves(inner[1..], rootId, path, index + 1);
    }
  }

  lemma RootMoves(root: RootTxn)
    ensures forall f | f in FlattenRoot(root) :: f.txn.Moves()
  {
    if !root.txn.Moves() && root.txn.body.AppCall? {
      WalkMoves(root.txn.body.inner, root.id, [], 0);
    }
  }

  // ---- the full ledger ----

  /** Holdings of every account in every asset; asset 0 is ALGO. */
  type Ledger = map<(string, int), int>

  function Holding(l: Ledger, account: string, asset: int): int {
    if (account, asset) in l then l[(account, asset)] else 0
  }

  function Post(l: Ledger, account: string, asset: int, amount: int): Ledger {
    l[(account, asset) := Holding(l, account, asset) + amount]
  }

  /** What a posting to one holding means for another. */
  function Gain(account: string, asset: int, amount: int, a: string, x: int): int {
    if a == account && x == asset then amount else 0
  }

  lemma PostAt(l: Ledger, account: string, asset: int, amount: int, a: string, x: int)
    ensures Holding(Post(l, account, asset, amount), a, x) == Holding(l, a, x) + Gain(account, asset, amount, a, x)
  {
  }

  function Move(l: Ledger, from: string, to: string, asset: int, amount: int): Ledger {
    Post(Post(l, from, asset, -amount), to, asset, amount)
  }

  /** One transfer or payment as the chain executes it: the fee, the amount, the closing remainder. */
  function ExecuteMove(l: Ledger, t: Txn): Ledger
    requires t.Moves()
  {
    var paid := Post(l, t.sender, 0, -t.fee);
    match t.body
    case AssetTransfer(receiver, asset, amount, clawback, closeTo, closeAmount, _) =>
      var from := if clawback != "" then clawback else t.sender;
      var moved := Move(paid, from, receiver, asset, amount);
      if closeTo != "" then Move(moved, from, closeTo, asset, closeAmount) else moved
    case Payment(receiver, amount, closeTo, closeAmount, _) =>
      var moved := Move(paid, t.sender, receiver, 0, amount);
      if closeTo != "" then Move(moved, t.sender, closeTo, 0, closeAmount) else moved
  }

  /** Any transaction: an application call pays its fee and then runs its inner transactions. */
  function Execute(l: Ledger, t: Txn): Ledger
    decreases t
  {
    match t.body
    case AppCall(inner) => ExecuteAll(Post(l, t.sender, 0, -t.fee), inner)
    case OtherTxn => Post(l, t.sender, 0, -t.fee)
    case _ => ExecuteMove(l, t)
  }

  function ExecuteAll(l: Ledger, ts: seq<Txn>): Ledger
    decreases ts
  {
    if ts == [] then l else ExecuteAll(Execute(l, ts[0]), ts[1..])
  }

  function ExecuteBlock(l: Ledger, roots: seq<RootTxn>): Ledger {
    if roots == [] then l else Execute(ExecuteBlock(l, roots[..|roots| - 1]), roots[|roots| - 1].txn)
  }

  function MoveGain(from: string, to: string, asset: int, amount: int, a: string, x: int): int {
    Gain(from, asset, -amount, a, x) + Gain(to, asset, amount, a, x)
  }

  lemma MoveAt(l: Ledger, from: string, to: string, asset: int, amount: int, a: string, x: int)
    ensures Holding(Move(l, from, to, asset, amount), a, x) == Holding(l, a, x) + MoveGain(from, to, asset, amount, a, x)
  {
    hide Post, Gain;
    PostAt(l, from, asset, -amount, a, x);
    PostAt(Post(l, from, asset, -amount), to, asset, amount, a, x);
  }

  /** What one transfer does to one holding. */
  function MoveEffect(t: Txn, a: string, x: int): int
    requires t.Moves()
  {
    Gain(t.sender, 0, -t.fee, a, x)
    + match t.body
      case AssetTransfer(receiver, asset, amount, clawback, closeTo, closeAmount, _) =>
        var from := if clawback != "" then clawback else t.sender;
        MoveGain(from, receiver, asset, amount, a, x)
        + if closeTo != "" then MoveGain(from, closeTo, asset, closeAmount, a, x) else 0
      case Payment(receiver, amount, closeTo, closeAmount, _) =>
        MoveGain(t.sender, receiver, 0, amount, a, x)
        + if closeTo != "" then MoveGain(t.sender, closeTo, 0, closeAmount, a, x) else 0
  }

  /** The fees an account pays for transactions that move nothing; flattening does not show them. */
  function UnseenFees(t: Txn, account: string): int
    decreases t
  {
    match t.body
    case AppCall(inner) => (if t.sender == account then t.fee else 0) + UnseenFeesIn(inner, account)
    case OtherTxn => if t.sender == account then t.fee else 0
    case _ => 0
  }

  function UnseenFeesIn(ts: seq<Txn>, account: string): int
    decreases ts
  {
    if ts == [] then 0 else UnseenFees(ts[0], account) + UnseenFeesIn(ts[1..], account)
  }

  function BlockUnseenFees(roots: seq<RootTxn>, account: string): int {
    if roots == [] then 0
    else BlockUnseenFees(roots[..|roots| - 1], account) + UnseenFees(roots[|roots| - 1].txn, account)
  }

  /** What a list of flattened transfers does to one holding. */
  function FlatEffect(s: seq<FlatTxn>, account: string, asset: int): int
    requires forall f | f in s :: f.txn.Moves()
  {
    if s == [] then 0
    else
      assert s[0] in s && forall f | f in s[1..] :: f in s;
      MoveEffect(s[0].txn, account, asset) + FlatEffect(s[1..], account, asset)
  }

  lemma {:induction false} FlatEffectAppend(a: seq<FlatTxn>, b: seq<FlatTxn>, account: string, asset: int)
    requires (forall f | f in a :: f.txn.Moves()) && (forall f | f in b :: f.txn.Moves())
    ensures forall f | f in a + b :: f.txn.Moves()
    ensures FlatEffect(a + b, account, asset) == FlatEffect(a, account, asset) + FlatEffect(b, account, asset)
  {
    if a == [] {
      assert a + b == b;
    } else {
      assert a[0] in a && forall f | f in a[1..] :: f in a;
      FlatEffectAppend(a[1..], b, account, asset);
      assert (a + b)[1..] == a[1..] + b;
    }
  }

  lemma ExecuteMoveEffect(l: Ledger, t: Txn, account: string, asset: int)
    requires t.Moves()
    ensures Holding(ExecuteMove(l, t), account, asset) == Holding(l, account, asset) + MoveEffect(t, account, asset)
  {
    hide Post, Gain, Move, MoveGain, Holding;
    var paid := Post(l, t.sender, 0, -t.fee);
    PostAt(l, t.sender, 0, -t.fee, account, asset);
    match t.body
    case AssetTransfer(receiver, x, amount, clawback, closeTo, closeAmount, _) =>
      var from := if clawback != "" then clawback else t.sender;
      MoveAt(paid, from, receiver, x, amount, account, asset);
      MoveAt(Move(paid, from, receiver, x, amount), from, closeTo, x, closeAmount, account, asset);
    case Payment(receiver, amount, closeTo, closeAmount, _) =>
      MoveAt(paid, t.sender, receiver, 0, amount, account, asset);
      MoveAt(Move(paid, t.sender, receiver, 0, amount), t.sender, closeTo, 0, closeAmount, account, asset);
  }

  /** Running a nested transaction list is running its flattened transfers, plus the fees flattening drops. */
  lemma {:induction false} WalkExecutes(l: Ledger, ts: seq<Txn>, rootId: string, path: seq<nat>, index: nat,
                                        account: string, asset: int)
    ensures forall f | f in WalkInner(ts, rootId, path, index) :: f.txn.Moves()
    ensures Holding(ExecuteAll(l, ts), account, asset)
            == Holding(l, account, asset) + FlatEffect(WalkInner(ts, rootId, path, index), account, asset)
               - if asset == 0 then UnseenFeesIn(ts, account) else 0
    decreases ts, 0
  {
    WalkMoves(ts, rootId, path, index);
    if ts != [] {
      WalkExecutes(Execute(l, ts[0]), ts[1..], rootId, path, index + 1, account, asset);
      WalkExecutesOne(l, ts[0], rootId, path + [index], account, asset);
      FlatEffectAppend(WalkOne(ts[0], rootId, path + [index]), WalkInner(ts[1..], rootId, path, index + 1), account, asset);
    }
  }

  /** The part of a walk that belongs to one transaction. */
  function WalkOne(t: Txn, rootId: string, here: seq<nat>): seq<FlatTxn> {
    (if t.Moves() then [FlatTxn(rootId, here, t)] else [])
    + (if t.body.AppCall? then WalkInner(t.body.inner, rootId, here, 0) else [])
  }

  lemma {:induction false} WalkExecutesOne(l: Ledger, t: Txn, rootId: string, here: seq<nat>, account: string, asset: int)
    ensures forall f | f in WalkOne(t, rootId, here) :: f.txn.Moves()
    ensures Holding(Execute(l, t), account, asset)
            == Holding(l, account, asset) + FlatEffect(WalkOne(t, rootId, here), account, asset)
               - if asset == 0 then UnseenFees(t, account) else 0
    decreases t, 1
  {
    hide Gain, Holding, MoveEffect, ExecuteMove;
    if t.body.AppCall? {
      var inner := WalkInner(t.body.inner, rootId, here, 0);
      assert WalkOne(t, rootId, here) == inner;
      WalkExecutes(Post(l, t.sender, 0, -t.fee), t.body.inner, rootId, here, 0, account, asset);
      FeeAt(l, t, account, asset);
    } else if t.Moves() {
      assert WalkOne(t, rootId, here) == [FlatTxn(rootId, here, t)];
      ExecuteMoveEffect(l, t, account, asset);
    } else {
      FeeAt(l, t, account, asset);
    }
  }

  lemma FeeAt(l: Ledger, t: Txn, account: string, asset: int)
    ensures Holding(Post(l, t.sender, 0, -t.fee), account, asset)
            == Holding(l, account, asset) - if asset == 0 && t.sender == account then t.fee else 0
  {
    PostAt(l, t.sender, 0, -t.fee, account, asset);
  }

  lemma RootExecutes(l: Ledger, root: RootTxn, account: string, asset: int)
    ensures forall f | f in FlattenRoot(root) :: f.txn.Moves()
    ensures Holding(Execute(l, root.txn), account, asset)
            == Holding(l, account, asset) + FlatEffect(FlattenRoot(root), account, asset)
               - if asset == 0 then UnseenFees(root.txn, account) else 0
  {
    hide Gain, Holding, MoveEffect, ExecuteMove;
    WalkExecutesOne(l, root.txn, root.id, [], account, asset);
    assert FlattenRoot(root) == WalkOne(root.txn, root.id, []);
  }

  /** Over a whole block, flattening keeps every effect except the fees of transactions that move nothing. */
  lemma {:induction false} BlockExecutes(l: Ledger, roots: seq<RootTxn>, account: string, asset: int)
    ensures forall f | f in Flatten(roots) :: f.txn.Moves()
    ensures Holding(ExecuteBlock(l, roots), account, asset)
            == Holding(l, account, asset) + FlatEffect(Flatten(roots), account, asset)
               - if asset == 0 then BlockUnseenFees(roots, account) else 0
  {
    if roots != [] {
      var front, last := roots[..|roots| - 1], roots[|roots| - 1];
      BlockExecutes(l, front, account, asset);
      RootExecutes(ExecuteBlock(l, front), last, account, asset);
      FlatEffectAppend(Flatten(front), FlattenRoot(last), account, asset);
    }
  }
}

/**
 * Flattening of application transactions into uniquely named events
 * (flex/domain/transactions.py).
 */
module EventIds {
  import opened Wrappers
  import opened Strings

  const PATH_SEPARATOR: char := '#'
  const PROJECTION_SEPARATOR: char := '@'

  datatype ShapeError = EmptyId | EmptyScope | ReservedSeparator

  /** `a` is the text of `id` before its first `sep`. */
  predicate IsBefore(a: string, sep: char, id: string) {
    |a| < |id| && id[..|a|] == a && id[|a|] == sep && sep !in a
  }

  /** The chain's ID of a projected event: what stands before the projection. */
  predicate IsChainId(a: string, id: string) {
    IsBefore(a, PROJECTION_SEPARATOR, id)
  }

  /** The root of a nested event: what stands before the path, if that comes before any projection. */
  predicate IsRootId(a: string, id: string) {
    IsBefore(a, PATH_SEPARATOR, id) && PROJECTION_SEPARATOR !in a
  }

  lemma PartitionIsBefore(a: string, sep: char, id: string)
    ensures IsBefore(a, sep, id) <==> Partition(id, sep).1 && Partition(id, sep).0 == a
  {
    if IsBefore(a, sep, id) {
      assert id == a + [sep] + id[|a| + 1..];
      PartitionOf(a, sep, id[|a| + 1..]);
    }
  }

  /** A root before the projection is the root of the chain's ID. */
  lemma RootOfChainId(a: string, id: string)
    ensures var chainId := Partition(id, PROJECTION_SEPARATOR).0;
            IsRootId(a, id) <==> Partition(chainId, PATH_SEPARATOR).1 && Partition(chainId, PATH_SEPARATOR).0 == a
  {
    var chainId := Partition(id, PROJECTION_SEPARATOR).0;
    PartitionIsBefore(a, PATH_SEPARATOR, chainId);
    if IsBefore(a, PATH_SEPARATOR, chainId) {
      assert id[..|a|] == chainId[..|a|];
      assert PROJECTION_SEPARATOR !in a;
    }
    if IsRootId(a, id) {
      assert Partition(id, PROJECTION_SEPARATOR).1 ==> |chainId| < |id| && id[|chainId|] == PROJECTION_SEPARATOR;
      assert forall i | 0 <= i < |a| :: a[i] == id[i];
      assert |a| < |chainId|;
      assert id[..|chainId|] == chainId;
      assert chainId[..|a|] == id[..|a|] && chainId[|a|] == id[|a|];
    }
  }

  lemma PartsNamed(id: string)
    ensures forall a :: IsChainId(a, id) <==> Partition(id, PROJECTION_SEPARATOR).1 && Partition(id, PROJECTION_SEPARATOR).0 == a
    ensures var chainId := Partition(id, PROJECTION_SEPARATOR).0;
            forall a :: IsRootId(a, id) <==> Partition(chainId, PATH_SEPARATOR).1 && Partition(chainId, PATH_SEPARATOR).0 == a
  {
    forall a
      ensures IsChainId(a, id) <==> Partition(id, PROJECTION_SEPARATOR).1 && Partition(id, PROJECTION_SEPARATOR).0 == a
    {
      PartitionIsBefore(a, PROJECTION_SEPARATOR, id);
    }
    forall a
      ensures IsRootId(a, id)
              <==> Partition(Partition(id, PROJECTION_SEPARATOR).0, PATH_SEPARATOR).1
                   && Partition(Partition(id, PROJECTION_SEPARATOR).0, PATH_SEPARATOR).0 == a
    {
      RootOfChainId(a, id);
    }
  }

  /** The canonical ID of an event, followed by the legacy IDs it may have been stored under. */
  function EventIdAliases(eventId: string): (r: Result<seq<string>, ShapeError>)
    ensures r.Success? <==> eventId != ""
    ensures r.Success? ==> |r.value| >= 1 && r.value[0] == eventId
    ensures r.Success? ==> forall i | 1 <= i < |r.value| :: PROJECTION_SEPARATOR !in r.value[i]
    ensures r.Success? ==> forall a :: a in r.value <==> a == eventId || IsChainId(a, eventId) || IsRootId(a, eventId)
  {
    if eventId == "" then Failure(EmptyId)
    else
      PartsNamed(eventId);
      var (chainId, projected, _) := Partition(eventId, PROJECTION_SEPARATOR);
      var (rootId, nested, _) := Partition(chainId, PATH_SEPARATOR);
      var own := [eventId] + (if projected then [chainId] else []);
      if nested then
        assert chainId == rootId + [PATH_SEPARATOR] + Partition(chainId, PATH_SEPARATOR).2;
        assert forall c <- rootId :: c in chainId;
        Success(if rootId !in own then own + [rootId] else own)
      else
        Success(own)
  }

  /** The aliases under which an older marker of the same event would be ambiguous. */
  function LegacyAliases(eventId: string): (r: seq<string>)
    ensures forall a <- r :: a != eventId && PROJECTION_SEPARATOR !in a
    ensures forall a :: a in r <==> eventId != "" && (IsChainId(a, eventId) || IsRootId(a, eventId))
  {
    match EventIdAliases(eventId)
    case Failure(_) => []
    case Success(aliases) => Others(aliases[1..], eventId)
  }

  function Others(aliases: seq<string>, eventId: string): (r: seq<string>)
    ensures forall a :: a in r <==> a in aliases && a != eventId
  {
    if aliases == [] then []
    else (if aliases[0] == eventId then [] else [aliases[0]]) + Others(aliases[1..], eventId)
  }

  /** Name one event for one aggregate it is projected into. */
  function ProjectionEventId(eventId: string, scope: string): (r: Result<string, ShapeError>)
    ensures r.Success? <==> eventId != "" && scope != ""
                            && PROJECTION_SEPARATOR !in eventId && PROJECTION_SEPARATOR !in scope
    ensures r.Success? ==> Partition(r.value, PROJECTION_SEPARATOR) == (eventId, true, scope)
  {
    if eventId == "" then Failure(EmptyId)
    else if scope == "" then Failure(EmptyScope)
    else if PROJECTION_SEPARATOR in eventId || PROJECTION_SEPARATOR in scope then Failure(ReservedSeparator)
    else
      PartitionOf(eventId, PROJECTION_SEPARATOR, scope);
      Success(eventId + [PROJECTION_SEPARATOR] + scope)
  }

  /** The parts of a chain event ID: the root and the decimal index at every nesting level. */
  function PathParts(rootId: string, path: seq<nat>): (parts: seq<string>)
    ensures |parts| == |path| + 1 && parts[0] == rootId
    ensures forall i | 0 <= i < |path| :: parts[i + 1] == Decimal(path[i])
  {
    [rootId] + seq(|path|, i requires 0 <= i < |path| => Decimal(path[i]))
  }

  function ChainEventId(rootId: string, path: seq<nat>): string {
    Join(PathParts(rootId, path), PATH_SEPARATOR)
  }

  /** The event name of a transfer leg, or of the fee leg beside it. */
  function LegEventId(rootId: string, path: seq<nat>, fee: bool): string {
    ChainEventId(rootId, path) + (if fee then "#fee" else "")
  }

  /** Transaction IDs are base32 text, so they hold no separator. */
  predicate PlainId(s: string) {
    s != "" && PATH_SEPARATOR !in s && PROJECTION_SEPARATOR !in s && ':' !in s
  }

  function LegParts(rootId: string, path: seq<nat>, fee: bool): (parts: seq<string>)
    ensures parts != []
  {
    PathParts(rootId, path) + (if fee then ["fee"] else [])
  }

  lemma LegIsJoin(rootId: string, path: seq<nat>, fee: bool)
    ensures LegEventId(rootId, path, fee) == Join(LegParts(rootId, path, fee), PATH_SEPARATOR)
  {
    var parts := PathParts(rootId, path);
    if fee {
      JoinExtend(parts, "fee", PATH_SEPARATOR);
      assert "#fee" == [PATH_SEPARATOR] + "fee";
    } else {
      assert LegParts(rootId, path, fee) == parts;
    }
  }

  lemma DigitsAvoid(n: nat, c: char)
    requires !('0' <= c <= '9')
    ensures c !in Decimal(n)
  {
  }

  lemma LegPartsFree(rootId: string, path: seq<nat>, fee: bool)
    requires PlainId(rootId)
    ensures FreeOf(LegParts(rootId, path, fee), PATH_SEPARATOR)
    ensures FreeOf(LegParts(rootId, path, fee), PROJECTION_SEPARATOR)
    ensures FreeOf(LegParts(rootId, path, fee), ':')
  {
    forall part | part in LegParts(rootId, path, fee)
      ensures PATH_SEPARATOR !in part && PROJECTION_SEPARATOR !in part && ':' !in part
    {
      if part != rootId && part != "fee" {
        var i :| 0 <= i < |path| && part == Decimal(path[i]);
        DigitsAvoid(path[i], PATH_SEPARATOR);
        DigitsAvoid(path[i], PROJECTION_SEPARATOR);
        DigitsAvoid(path[i], ':');
      }
    }
  }

  lemma LegIdAvoids(rootId: string, path: seq<nat>, fee: bool)
    requires PlainId(rootId)
    ensures LegEventId(rootId, path, fee) != ""
    ensures PROJECTION_SEPARATOR !in LegEventId(rootId, path, fee)
    ensures ':' !in LegEventId(rootId, path, fee)
  {
    LegIsJoin(rootId, path, fee);
    LegPartsFree(rootId, path, fee);
    JoinAvoids(LegParts(rootId, path, fee), PATH_SEPARATOR, PROJECTION_SEPARATOR);
    JoinAvoids(LegParts(rootId, path, fee), PATH_SEPARATOR, ':');
    var parts := LegParts(rootId, path, fee);
    assert parts[0] == rootId;
  }

  /**
   * A scoped event ID names one leg of one transaction in one aggregate: from the text
   * alone the root transaction, the nesting path, the leg and the aggregate are recovered.
   */
  lemma ScopedIdInjective(root: string, path: seq<nat>, fee: bool, scope: string,
                          root': string, path': seq<nat>, fee': bool, scope': string)
    requires PlainId(root) && PlainId(root')
    requires ProjectionEventId(LegEventId(root, path, fee), scope).Success?
    requires ProjectionEventId(LegEventId(root, path, fee), scope)
             == ProjectionEventId(LegEventId(root', path', fee'), scope')
    ensures root == root' && path == path' && fee == fee' && scope == scope'
  {
    LegIdAvoids(root, path, fee);
    LegIdAvoids(root', path', fee');
    var a, b := LegParts(root, path, fee), LegParts(root', path', fee');
    LegIsJoin(root, path, fee);
    LegIsJoin(root', path', fee');
    LegPartsFree(root, path, fee);
    LegPartsFree(root', path', fee');
    JoinInjective(a, b, PATH_SEPARATOR);
    assert root == a[0] == b[0] == root';
    assert fee <==> |a| > 1 && a[|a| - 1] == "fee" by { FeeIsLast(root, path, fee); }
    assert fee' <==> |b| > 1 && b[|b| - 1] == "fee" by { FeeIsLast(root', path', fee'); }
    assert |path| == |path'|;
    forall i | 0 <= i < |path| ensures path[i] == path'[i] {
      assert Decimal(path[i]) == a[i + 1] == b[i + 1] == Decimal(path'[i]);
      assert ToNat(Decimal(path[i])) == path[i] && ToNat(Decimal(path'[i])) == path'[i];
    }
  }

  lemma FeeIsLast(root: string, path: seq<nat>, fee: bool)
    ensures var parts := LegParts(root, path, fee);
            fee <==> |parts| > 1 && parts[|parts| - 1] == "fee"
  {
    var parts := LegParts(root, path, fee);
    if !fee && |path| > 0 {
      assert parts[|parts| - 1] == Decimal(path[|path| - 1]);
      DigitsAvoid(path[|path| - 1], 'f');
      assert 'f' in "fee" by { assert "fee"[0] == 'f'; }
    }
  }

  /** A projected leg was once stored under the chain's ID of the leg, and anything below the root under the root's. */
  lemma LegacyIdsOfLeg(root: string, path: seq<nat>, fee: bool, scope: string)
    requires PlainId(root) && ProjectionEventId(LegEventId(root, path, fee), scope).Success?
    ensures var id := ProjectionEventId(LegEventId(root, path, fee), scope).value;
            forall a :: a in LegacyAliases(id) <==>
              a == LegEventId(root, path, fee) || (a == root && (path != [] || fee))
  {
    var leg := LegEventId(root, path, fee);
    var id := ProjectionEventId(leg, scope).value;
    PartsNamed(id);
    LegPartsFree(root, path, fee);
    LegIsJoin(root, path, fee);
    JoinHead(LegParts(root, path, fee), PATH_SEPARATOR);
    forall a ensures a in LegacyAliases(id) <==> a == leg || (a == root && (path != [] || fee)) {
    }
  }
}

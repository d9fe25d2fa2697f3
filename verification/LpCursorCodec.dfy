/**
 * The stored form of a cursor: a string that sorts like (round, position, event ID), with a
 * sentinel for the end of a round (flex/domain/lp_projection.py).
 */
module LpCursorCodec {
  import opened Wrappers
  import opened Strings
  import opened LpDomain
  import opened LpWorld
  import LpProtocol

  const EVENT_ROUND_WIDTH: nat := 20
  const ROUND_END_SUFFIX: string := "~"

  datatype CodecError = InvalidRound | InvalidEventId | InvalidPosition | InvalidCursor | NothingCovered

  lemma {:induction false} Pow10Adds(m: nat, n: nat)
    ensures Pow10(m + n) == Pow10(m) * Pow10(n)
  {
    if m > 0 {
      Pow10Adds(m - 1, n);
    }
  }

  lemma Uint64Fits(n: int)
    requires IsUint64(n)
    ensures n < Pow10(EVENT_ROUND_WIDTH)
  {
    Pow10Adds(10, 10);
    Pow10Adds(5, 5);
    assert Pow10(3) == 1_000 && Pow10(5) == 100_000;
  }

  function RoundText(n: nat): (s: string)
    requires IsUint64(n)
    ensures |s| == EVENT_ROUND_WIDTH && IsDigits(s) && ToNat(s) == n
  {
    Uint64Fits(n);
    Padded(n, EVENT_ROUND_WIDTH)
  }

  /** `<round>:<position>:<event id>`, with both numbers zero-padded. */
  function LpEventOrder(round: int, eventId: string, position: int): (r: Result<string, CodecError>)
    ensures r.Success? <==> IsUint64(round) && IsUint64(position) && eventId != "" && ':' !in eventId
  {
    if !IsUint64(round) then Failure(InvalidRound)
    else if eventId == "" || ':' in eventId then Failure(InvalidEventId)
    else if !IsUint64(position) then Failure(InvalidPosition)
    else Success(RoundText(round) + ":" + RoundText(position) + ":" + eventId)
  }

  /** `<round>:~`, the cursor of a snapshot taken after the whole round. */
  function LpRoundEndOrder(round: int): (r: Result<string, CodecError>)
    ensures r.Success? <==> IsUint64(round)
  {
    var event :- LpEventOrder(round, "snapshot", 0);
    Success(Partition(event, ':').0 + ":" + ROUND_END_SUFFIX)
  }

  function SnapshotCoversEvent(cursor: string, round: nat): bool {
    var (prefix, found, suffix) := Partition(cursor, ':');
    found && suffix == ROUND_END_SUFFIX && |prefix| == EVENT_ROUND_WIDTH && IsDigits(prefix) && ToNat(prefix) >= round
  }

  function LpCursorCompleteThrough(cursor: Option<string>): Result<nat, CodecError> {
    if cursor.None? then Failure(InvalidCursor)
    else
      var (prefix, found, suffix) := Partition(cursor.value, ':');
      if !found || |prefix| != EVENT_ROUND_WIDTH || !IsDigits(prefix) || suffix == "" then Failure(InvalidCursor)
      else if suffix == ROUND_END_SUFFIX then Success(ToNat(prefix))
      else if ToNat(prefix) == 0 then Failure(NothingCovered)
      else Success(ToNat(prefix) - 1)
  }

  lemma DigitsHaveNoColon(s: string)
    requires IsDigits(s)
    ensures ':' !in s
  {
  }

  lemma RoundEndText(round: int)
    requires IsUint64(round)
    ensures LpRoundEndOrder(round) == Success(RoundText(round) + ":" + ROUND_END_SUFFIX)
  {
    DigitsHaveNoColon(RoundText(round));
    var tail := RoundText(0) + ":" + "snapshot";
    assert RoundText(round) + ":" + RoundText(0) + ":" + "snapshot" == RoundText(round) + [':'] + tail;
    PartitionOf(RoundText(round), ':', tail);
  }

  lemma RoundTextOrder(a: nat, b: nat)
    requires IsUint64(a) && IsUint64(b)
    ensures Less(RoundText(a), RoundText(b)) <==> a < b
    ensures RoundText(a) == RoundText(b) <==> a == b
  {
    Uint64Fits(a);
    Uint64Fits(b);
    PaddedOrder(a, b, EVENT_ROUND_WIDTH);
  }

  /** A numeric field followed by anything: the field decides, and only on a tie the rest. */
  lemma FieldOrder(a: nat, b: nat, s: string, t: string)
    requires IsUint64(a) && IsUint64(b)
    ensures Less(RoundText(a) + ":" + s, RoundText(b) + ":" + t) <==> a < b || (a == b && Less(s, t))
  {
    RoundTextOrder(a, b);
    assert RoundText(a) + ":" + s == RoundText(a) + (":" + s) && RoundText(b) + ":" + t == RoundText(b) + (":" + t);
    if a == b {
      LessAfterPrefix(RoundText(a), ":" + s, ":" + t);
      LessAfterPrefix(":", s, t);
    } else {
      LessByPrefix(RoundText(a), RoundText(b), ":" + s, ":" + t);
    }
  }

  /** Event cursors compare as (round, position, event ID) over the whole uint64 domain. */
  lemma EventCursorOrder(r: int, id: string, p: int, r': int, id': string, p': int)
    requires LpEventOrder(r, id, p).Success? && LpEventOrder(r', id', p').Success?
    ensures var a, b := LpEventOrder(r, id, p).value, LpEventOrder(r', id', p').value;
            && (Less(a, b) <==> r < r' || (r == r' && (p < p' || (p == p' && Less(id, id')))))
            && (a == b <==> r == r' && p == p' && id == id')
  {
    var a, b := LpEventOrder(r, id, p).value, LpEventOrder(r', id', p').value;
    var s, t := RoundText(p) + ":" + id, RoundText(p') + ":" + id';
    assert a == RoundText(r) + ":" + s && b == RoundText(r') + ":" + t;
    FieldOrder(r, r', s, t);
    FieldOrder(p, p', id, id');
    FieldOrder(r', r, t, s);
    FieldOrder(p', p, id', id);
    LessIrreflexive(a);
    LessTotal(id, id');
  }

  /** The round-end sentinel lies above every event of its round and below every event of the next. */
  lemma RoundEndCursorOrder(r: int, id: string, p: int, end: int)
    requires LpEventOrder(r, id, p).Success? && IsUint64(end)
    ensures var a, e := LpEventOrder(r, id, p).value, LpRoundEndOrder(end).value;
            (Less(a, e) <==> r <= end) && (Less(e, a) <==> end < r)
  {
    var a := LpEventOrder(r, id, p).value;
    var s := RoundText(p) + ":" + id;
    assert a == RoundText(r) + ":" + s;
    RoundEndText(end);
    FieldOrder(r, end, s, ROUND_END_SUFFIX);
    FieldOrder(end, r, ROUND_END_SUFFIX, s);
    assert s[0] == RoundText(p)[0];
    assert '0' <= s[0] <= '9' < ROUND_END_SUFFIX[0];
  }

  lemma RoundEndsOrder(r: int, end: int)
    requires IsUint64(r) && IsUint64(end)
    ensures Less(LpRoundEndOrder(r).value, LpRoundEndOrder(end).value) <==> r < end
    ensures LpRoundEndOrder(r) == LpRoundEndOrder(end) <==> r == end
  {
    RoundEndText(r);
    RoundEndText(end);
    FieldOrder(r, end, ROUND_END_SUFFIX, ROUND_END_SUFFIX);
    FieldOrder(end, r, ROUND_END_SUFFIX, ROUND_END_SUFFIX);
    LessIrreflexive(ROUND_END_SUFFIX);
    LessIrreflexive(LpRoundEndOrder(r).value);
  }

  /** Reading a printed event cursor: it is no snapshot, and it covers the rounds before its own. */
  lemma EventCursorRead(r: int, id: string, p: int, round: nat)
    requires LpEventOrder(r, id, p).Success?
    ensures var a := LpEventOrder(r, id, p).value;
            && !SnapshotCoversEvent(a, round)
            && LpCursorCompleteThrough(Some(a)) == if r == 0 then Failure(NothingCovered) else Success(r - 1)
  {
    var a := LpEventOrder(r, id, p).value;
    var s := RoundText(p) + ":" + id;
    assert a == RoundText(r) + [':'] + s;
    DigitsHaveNoColon(RoundText(r));
    PartitionOf(RoundText(r), ':', s);
    assert |s| > 20;
  }

  /** Reading a printed round-end cursor: it covers exactly the events up to its round. */
  lemma RoundEndCursorRead(r: int, round: nat)
    requires IsUint64(r)
    ensures var e := LpRoundEndOrder(r).value;
            (SnapshotCoversEvent(e, round) <==> round <= r) && LpCursorCompleteThrough(Some(e)) == Success(r)
  {
    RoundEndText(r);
    assert LpRoundEndOrder(r).value == RoundText(r) + [':'] + ROUND_END_SUFFIX;
    DigitsHaveNoColon(RoundText(r));
    PartitionOf(RoundText(r), ':', ROUND_END_SUFFIX);
  }

  // ---- the codec refines the protocol's cursors ----

  /** The blocks are as the preflight leaves them: printable and strictly sorted. */
  ghost predicate SortedBlocks(w: World) {
    && (forall r: nat, k: nat | IsEvent(w, r, k) ::
          IsUint64(r) && LpEventOrder(r, w.block(r)[k].id, w.block(r)[k].eventPosition).Success?)
    && (forall r: nat, j: nat, k: nat | j < k && IsEvent(w, r, j) && IsEvent(w, r, k) :: PrintedBefore(w, r, j, k))
  }

  ghost predicate PrintedBefore(w: World, r: nat, j: nat, k: nat)
    requires IsEvent(w, r, j) && IsEvent(w, r, k)
  {
    var a := LpEventOrder(r, w.block(r)[j].id, w.block(r)[j].eventPosition);
    var b := LpEventOrder(r, w.block(r)[k].id, w.block(r)[k].eventPosition);
    a.Success? && b.Success? && Less(a.value, b.value)
  }

  ghost predicate Printable(w: World, c: Cursor) {
    if c.AtEvent? then IsEvent(w, c.round, c.rank) else IsUint64(c.round)
  }

  /** The string that stands for a cursor of the protocol. */
  ghost function Print(w: World, c: Cursor): string
    requires SortedBlocks(w) && Printable(w, c)
  {
    if c.RoundEnd? then LpRoundEndOrder(c.round).value
    else LpEventOrder(c.round, w.block(c.round)[c.rank].id, w.block(c.round)[c.rank].eventPosition).value
  }

  /** Comparing stored strings is comparing cursors, and equal strings are equal cursors. */
  lemma CodecRefinesOrder(w: World, c: Cursor, d: Cursor)
    requires SortedBlocks(w) && Printable(w, c) && Printable(w, d)
    ensures Less(Print(w, c), Print(w, d)) <==> Before(c, d)
    ensures Print(w, c) == Print(w, d) <==> c == d
  {
    if c.AtEvent? && d.AtEvent? {
      var e, f := w.block(c.round)[c.rank], w.block(d.round)[d.rank];
      EventCursorOrder(c.round, e.id, e.eventPosition, d.round, f.id, f.eventPosition);
      LessIrreflexive(Print(w, c));
      if c.round == d.round && c.rank < d.rank {
        assert PrintedBefore(w, c.round, c.rank, d.rank);
      } else if c.round == d.round && d.rank < c.rank {
        assert PrintedBefore(w, c.round, d.rank, c.rank);
        AsymmetricLess(Print(w, d), Print(w, c));
      }
    } else if c.AtEvent? {
      var e := w.block(c.round)[c.rank];
      RoundEndCursorOrder(c.round, e.id, e.eventPosition, d.round);
      LessIrreflexive(Print(w, c));
    } else if d.AtEvent? {
      var f := w.block(d.round)[d.rank];
      RoundEndCursorOrder(d.round, f.id, f.eventPosition, c.round);
      LessIrreflexive(Print(w, c));
    } else {
      RoundEndsOrder(c.round, d.round);
    }
  }

  lemma AsymmetricLess(a: string, b: string)
    requires Less(a, b)
    ensures !Less(b, a)
  {
    if Less(b, a) {
      LessTransitive(a, b, a);
      LessIrreflexive(a);
    }
  }

  /** Reading a stored cursor answers as the protocol does. */
  lemma CodecRefinesReading(w: World, c: Cursor, round: nat)
    requires SortedBlocks(w) && Printable(w, c)
    ensures SnapshotCoversEvent(Print(w, c), round) <==> LpProtocol.SnapshotCovers(c, round)
    ensures var read := LpCursorCompleteThrough(Some(Print(w, c)));
            LpProtocol.CompleteThrough(Some(c)) == if read.Success? then Some(read.value) else None
  {
    if c.AtEvent? {
      var e := w.block(c.round)[c.rank];
      EventCursorRead(c.round, e.id, e.eventPosition, round);
    } else {
      RoundEndCursorRead(c.round, round);
    }
  }
}

/**
 * The decoder of Reach state vectors (flex/blockchain/contract_state.py) and the reader of its big
 * numbers (core/util.py). Entries are as they are after base 64 has been decoded.
 */
module ContractState {
  import opened Wrappers
  import opened Strings

  type Byte = n: nat | n < 256
  type Bytes = seq<Byte>

  const CURRENT_REACH_STEP := 4
  const LOCAL_MAP_BYTES := 60

  /** What is under the value of an entry. */
  datatype EntryValue = NotAByteSlice | WithoutBytes | BadBytes | Slice(bytes: Bytes)

  /** A key that is not base 64 has no bytes. */
  datatype Entry = Entry(key: Option<Bytes>, value: EntryValue)

  datatype DecodeError =
    | UnsupportedContract | InvalidKey | ValueNotAByteSlice | NoByteValue | InvalidBytes
    | MetadataMissing | UnsupportedStep | ChunkMissing | WrongSize | FieldOutside | InvalidMaybeTag

  // ---- numbers as bytes ----

  function BigEndian(b: Bytes): nat {
    if b == [] then 0 else 256 * BigEndian(b[..|b| - 1]) + b[|b| - 1]
  }

  function PowerOf256(n: nat): (p: nat)
    ensures p > 0
  {
    if n == 0 then 1 else 256 * PowerOf256(n - 1)
  }

  function ToBytes(value: nat, size: nat): (b: Bytes)
    ensures |b| == size
  {
    if size == 0 then [] else ToBytes(value / 256, size - 1) + [value % 256]
  }

  lemma {:induction false} BytesRoundTrip(value: nat, size: nat)
    requires value < PowerOf256(size)
    ensures BigEndian(ToBytes(value, size)) == value
  {
    if size > 0 {
      var b := ToBytes(value, size);
      assert b[..size - 1] == ToBytes(value / 256, size - 1);
      BytesRoundTrip(value / 256, size - 1);
    }
  }

  // ---- the printer and the reader of big numbers ----

  const HEX_DIGITS := "0123456789abcdef"

  /** `f"{value:x}"` */
  function Hex(value: nat): (s: string)
    ensures |s| > 0
  {
    if value < 16 then [HEX_DIGITS[value]] else Hex(value / 16) + [HEX_DIGITS[value % 16]]
  }

  /** What `parse_bignum` is given. */
  datatype Parsable = Missing | Text(text: string) | Whole(value: int) | BigNumber(hex: string) | Other

  function ToBignum(value: nat): Parsable {
    var digits := Hex(value);
    BigNumber("0x" + if |digits| % 2 == 1 then "0" + digits else digits)
  }

  function HexDigitValue(c: char): (v: Option<nat>)
    ensures v.Some? ==> v.value < 16
  {
    if '0' <= c <= '9' then Some((c - '0') as nat)
    else if 'a' <= c <= 'f' then Some(10 + (c - 'a') as nat)
    else if 'A' <= c <= 'F' then Some(10 + (c - 'A') as nat)
    else None
  }

  /** Digits in a base, most significant first; signs, blanks and underscores are not part of this model. */
  function ParseDigits(s: string, base: nat): Option<nat> {
    if s == "" then None
    else
      var last := HexDigitValue(s[|s| - 1]);
      if last.None? || last.value >= base then None
      else if |s| == 1 then Some(last.value)
      else
        var front := ParseDigits(s[..|s| - 1], base);
        if front.None? then None else Some(front.value * base + last.value)
  }

  predicate HasHexPrefix(s: string) {
    |s| >= 2 && s[..2] == "0x"
  }

  /** `int(s, 16)`, with or without the prefix. */
  function ParseHex(s: string): Option<nat> {
    ParseDigits(if HasHexPrefix(s) then s[2..] else s, 16)
  }

  function ParseBignum(obj: Parsable): Option<int> {
    match obj
    case Missing => Some(0)
    case Text(text) => if HasHexPrefix(text) then ParseHex(text) else ParseDigits(text, 10)
    case Whole(value) => Some(value)
    case BigNumber(hex) => ParseHex(hex)
    case Other => None
  }

  lemma HexDigitOf(d: nat)
    requires d < 16
    ensures HexDigitValue(HEX_DIGITS[d]) == Some(d)
  {
  }

  /** Reading one more hexadecimal digit. */
  lemma OneMoreDigit(s: string, d: nat)
    requires s != "" && d < 16 && ParseDigits(s, 16).Some?
    ensures ParseDigits(s + [HEX_DIGITS[d]], 16) == Some(ParseDigits(s, 16).value * 16 + d)
  {
    HexDigitOf(d);
    assert (s + [HEX_DIGITS[d]])[..|s|] == s;
  }

  lemma OneDigit(d: nat)
    requires d < 16
    ensures ParseDigits([HEX_DIGITS[d]], 16) == Some(d) && ParseDigits("0", 16) == Some(0)
  {
    HexDigitOf(d);
  }

  lemma {:induction false} HexReads(value: nat)
    ensures ParseDigits(Hex(value), 16) == Some(value)
    ensures ParseDigits("0" + Hex(value), 16) == Some(value)
  {
    hide ParseDigits;
    if value >= 16 {
      HexReads(value / 16);
      OneMoreDigit(Hex(value / 16), value % 16);
      OneMoreDigit("0" + Hex(value / 16), value % 16);
      assert "0" + Hex(value) == "0" + Hex(value / 16) + [HEX_DIGITS[value % 16]];
    } else {
      OneDigit(value);
      OneMoreDigit("0", value);
    }
  }

  lemma PrefixedReads(digits: string)
    ensures ParseHex("0x" + digits) == ParseDigits(digits, 16)
  {
    hide ParseDigits;
    assert ("0x" + digits)[..2] == "0x" && ("0x" + digits)[2..] == digits;
  }

  /** Reading a printed number gives it back, and it is printed as whole bytes. */
  lemma BignumRoundTrip(value: nat)
    ensures ParseBignum(ToBignum(value)) == Some(value)
    ensures |ToBignum(value).hex| % 2 == 0
  {
    hide ParseDigits, Hex, ParseHex;
    HexReads(value);
    PrefixedReads(Hex(value));
    PrefixedReads("0" + Hex(value));
  }

  // ---- layouts ----

  /** Where the fields of a contract version are in its state vector. */
  datatype Layout = Layout(
    stateKeys: nat, stateSize: nat,
    initialUints: seq<(string, nat)>, globalUints: seq<(string, nat)>, globalUint256s: seq<(string, nat)>)

  const Farm4: Layout := Layout(2, 226,
    [("creationFee", 32), ("flatAlgoCreationFee", 40), ("stakeToken", 48), ("rewardToken", 56), ("beginBlock", 64),
     ("endBlock", 72), ("rewardPerBlock", 80), ("extraAlgoRewardPerBlock", 88), ("lockLengthBlocks", 96)],
    [("lastUpdateBlock", 128), ("totalStaked", 176)],
    [("rewardPerTokenStored", 136)])

  const Farm5: Layout := Layout(3, 282,
    [("creationFee", 32), ("flatAlgoCreationFee", 40), ("stakeToken", 48), ("rewardToken", 56), ("beginBlock", 64),
     ("endBlock", 72), ("totalRewardAmount", 80), ("totalAlgoRewardAmount", 88), ("lockLengthBlocks", 96)],
    [("lastUpdateBlock", 144), ("totalStaked", 232)],
    [("rewardPerTokenStored", 192)])

  const Distribution4: Layout := Layout(2, 226,
    [("creationFee", 32), ("flatAlgoCreationFee", 40), ("token", 48), ("beginBlock", 56),
     ("endBlock", 64), ("rewardPerBlock", 72), ("extraAlgoRewardPerBlock", 80), ("lockLengthBlocks", 88)],
    [("lastUpdateBlock", 120), ("totalStaked", 168)],
    [("rewardPerTokenStored", 128)])

  const Distribution5: Layout := Layout(3, 282,
    [("creationFee", 32), ("flatAlgoCreationFee", 40), ("token", 48), ("beginBlock", 56),
     ("endBlock", 64), ("totalRewardAmount", 72), ("totalAlgoRewardAmount", 80), ("lockLengthBlocks", 88)],
    [("lastUpdateBlock", 136), ("totalStaked", 224)],
    [("rewardPerTokenStored", 184)])

  predicate TableAscending(table: seq<(string, nat)>, size: nat, start: nat, end: nat) {
    && start <= (if table == [] then end else table[0].1)
    && (forall i | 0 <= i < |table| :: TableClears(table, i, size, end))
  }

  predicate TableClears(table: seq<(string, nat)>, i: nat, size: nat, end: nat)
    requires i < |table|
  {
    table[i].1 + size <= if i + 1 < |table| then table[i + 1].1 else end
  }

  /** The beneficiary, then the tables one after another. */
  predicate LayoutOrdered(layout: Layout) {
    && |layout.globalUints| == 2 && |layout.globalUint256s| == 1 && layout.stateKeys <= 256
    && TableAscending(layout.initialUints, 8, 32, layout.globalUints[0].1)
    && layout.globalUints[0].1 + 8 <= layout.globalUint256s[0].1
    && layout.globalUint256s[0].1 + 32 <= layout.globalUints[1].1
    && layout.globalUints[1].1 + 8 <= layout.stateSize
  }

  lemma LayoutsAreOrdered()
    ensures LayoutOrdered(Farm4) && LayoutOrdered(Farm5) && LayoutOrdered(Distribution4) && LayoutOrdered(Distribution5)
  {
  }

  /** `version.removeprefix("^")` */
  function StripVersion(version: string): string {
    if version != "" && version[0] == '^' then version[1..] else version
  }

  function LayoutFor(contractType: string, version: string): (r: Result<Layout, DecodeError>)
    ensures r.Success? ==> LayoutOrdered(r.value) && r.value.stateKeys <= 256
  {
    LayoutsAreOrdered();
    var v := StripVersion(version);
    if contractType == "farm" && v == "17.2.4" then Success(Farm4)
    else if contractType == "farm" && v == "17.2.5" then Success(Farm5)
    else if contractType == "distribution" && v == "17.0.4" then Success(Distribution4)
    else if contractType == "distribution" && v == "17.0.5" then Success(Distribution5)
    else Failure(UnsupportedContract)
  }

  // ---- reading entries ----

  function ByteSlice(v: EntryValue): Result<Bytes, DecodeError> {
    match v
    case NotAByteSlice => Failure(ValueNotAByteSlice)
    case WithoutBytes => Failure(NoByteValue)
    case BadBytes => Failure(InvalidBytes)
    case Slice(bytes) => Success(bytes)
  }

  /** The bytes of the first entry with this key. A key before it that is no base 64 is an error. */
  function EntryBytes(entries: seq<Entry>, key: Bytes): Result<Option<Bytes>, DecodeError> {
    if entries == [] then Success(None)
    else if entries[0].key.None? then Failure(InvalidKey)
    else if entries[0].key.value != key then EntryBytes(entries[1..], key)
    else
      var bytes :- ByteSlice(entries[0].value);
      Success(Some(bytes))
  }

  method StateEntryBytes(entries: seq<Entry>, key: Bytes) returns (r: Result<Option<Bytes>, DecodeError>)
    ensures r == EntryBytes(entries, key)
  {
    var i := 0;
    while i < |entries|
      invariant 0 <= i <= |entries|
      invariant EntryBytes(entries, key) == EntryBytes(entries[i..], key)
    {
      if entries[i].key.None? {
        return Failure(InvalidKey);
      }
      if entries[i].key.value == key {
        var bytes :- ByteSlice(entries[i].value);
        return Success(Some(bytes));
      }
      i := i + 1;
    }
    return Success(None);
  }

  function Uint(data: Bytes, offset: nat, size: nat): Result<nat, DecodeError> {
    if offset + size > |data| then Failure(FieldOutside) else Success(BigEndian(data[offset..offset + size]))
  }

  /** The chunks from one index on, in the order of their keys. */
  function Chunks(entries: seq<Entry>, index: nat, stateKeys: nat): Result<Bytes, DecodeError>
    requires index <= stateKeys <= 256
    decreases stateKeys - index
  {
    if index == stateKeys then Success([])
    else
      var chunk :- EntryBytes(entries, [index]);
      if chunk.None? then Failure(ChunkMissing)
      else
        var rest :- Chunks(entries, index + 1, stateKeys);
        Success(chunk.value + rest)
  }

  function GlobalVector(entries: seq<Entry>, layout: Layout): Result<Bytes, DecodeError>
    requires layout.stateKeys <= 256
  {
    var metadata :- EntryBytes(entries, []);
    if metadata.None? || |metadata.value| < 8 then Failure(MetadataMissing)
    else if BigEndian(metadata.value[..8]) != CURRENT_REACH_STEP then Failure(UnsupportedStep)
    else
      var state :- Chunks(entries, 0, layout.stateKeys);
      if |state| != layout.stateSize then Failure(WrongSize) else Success(state)
  }

  method RecoverGlobalVector(entries: seq<Entry>, layout: Layout) returns (r: Result<Bytes, DecodeError>)
    requires layout.stateKeys <= 256
    ensures r == GlobalVector(entries, layout)
  {
    var metadata :- StateEntryBytes(entries, []);
    if metadata.None? || |metadata.value| < 8 {
      return Failure(MetadataMissing);
    }
    var step := Uint(metadata.value, 0, 8);
    if step != Success(CURRENT_REACH_STEP) {
      return Failure(UnsupportedStep);
    }
    var state := [];
    var index := 0;
    AfterNothing(Chunks(entries, 0, layout.stateKeys));
    while index < layout.stateKeys
      invariant 0 <= index <= layout.stateKeys
      invariant Chunks(entries, 0, layout.stateKeys) == After(state, Chunks(entries, index, layout.stateKeys))
    {
      var chunk :- StateEntryBytes(entries, [index]);
      if chunk.None? {
        return Failure(ChunkMissing);
      }
      AfterMore(state, chunk.value, Chunks(entries, index + 1, layout.stateKeys));
      state := state + chunk.value;
      index := index + 1;
    }
    assert state + [] == state;
    if |state| != layout.stateSize {
      return Failure(WrongSize);
    }
    return Success(state);
  }

  /** What is read so far and then the rest, or the error of the rest. */
  ghost function After(state: Bytes, rest: Result<Bytes, DecodeError>): Result<Bytes, DecodeError> {
    if rest.Failure? then rest else Success(state + rest.value)
  }

  lemma AfterNothing(rest: Result<Bytes, DecodeError>)
    ensures After([], rest) == rest
  {
    if rest.Success? {
      assert [] + rest.value == rest.value;
    }
  }

  lemma AfterMore(state: Bytes, chunk: Bytes, rest: Result<Bytes, DecodeError>)
    ensures After(state, After(chunk, rest)) == After(state + chunk, rest)
  {
    if rest.Success? {
      assert state + (chunk + rest.value) == (state + chunk) + rest.value;
    }
  }

  // ---- decoding ----

  function HexOfBytes(b: Bytes): (s: string)
    ensures |s| == 2 * |b|
  {
    if b == [] then ""
    else HexOfBytes(b[..|b| - 1]) + [HEX_DIGITS[b[|b| - 1] / 16], HEX_DIGITS[b[|b| - 1] % 16]]
  }

  type BignumView = map<string, Parsable>

  datatype Views = Views(beneficiary: string, initial: BignumView, global: BignumView)

  /** Each field of a table, read at its offset. */
  function DecodeFields(state: Bytes, fields: seq<(string, nat)>, size: nat): Result<BignumView, DecodeError> {
    if fields == [] then Success(map[])
    else
      var before :- DecodeFields(state, fields[..|fields| - 1], size);
      var last := fields[|fields| - 1];
      var value :- Uint(state, last.1, size);
      Success(before[last.0 := ToBignum(value)])
  }

  function Decoded(state: Bytes, layout: Layout): Result<Views, DecodeError>
    requires |state| >= 32
  {
    var initial :- DecodeFields(state, layout.initialUints, 8);
    var uints :- DecodeFields(state, layout.globalUints, 8);
    var uint256s :- DecodeFields(state, layout.globalUint256s, 32);
    Success(Views("0x" + HexOfBytes(state[..32]), initial, uints + uint256s))
  }

  function DecodeContractViews(entries: seq<Entry>, contractType: string, version: string): Result<Views, DecodeError> {
    var layout :- LayoutFor(contractType, version);
    var state :- GlobalVector(entries, layout);
    Decoded(state, layout)
  }

  /** An optional number: a tag byte and then the number, which is there only under tag 1. */
  function OptionalUint(data: Bytes, offset: nat, size: nat): Result<nat, DecodeError>
    requires offset < |data|
  {
    if data[offset] == 0 then Success(0)
    else if data[offset] != 1 then Failure(InvalidMaybeTag)
    else Uint(data, offset + 1, size)
  }

  datatype LocalView = LocalView(staked: Parsable, reward: Parsable, lockTimestamp: Parsable, rewardPerTokenPaid: Parsable)

  function DecodeLocalView(entries: seq<Entry>): Result<LocalView, DecodeError> {
    var encoded :- EntryBytes(entries, [0]);
    var state := if encoded.None? then ToBytes(0, LOCAL_MAP_BYTES) else encoded.value;
    if |state| != LOCAL_MAP_BYTES then Failure(WrongSize)
    else
      var staked :- OptionalUint(state, 0, 8);
      var reward :- OptionalUint(state, 9, 8);
      var lockTimestamp :- OptionalUint(state, 18, 8);
      var rewardPerTokenPaid :- OptionalUint(state, 27, 32);
      Success(LocalView(ToBignum(staked), ToBignum(reward), ToBignum(lockTimestamp), ToBignum(rewardPerTokenPaid)))
  }

  // ---- packing ----

  /** A field to be packed: where it goes and what it says. */
  datatype Field = Field(name: string, offset: nat, size: nat, value: nat)

  predicate Fits(f: Field) {
    f.value < PowerOf256(f.size)
  }

  function Overlay(base: Bytes, offset: nat, b: Bytes): (r: Bytes)
    requires offset + |b| <= |base|
    ensures |r| == |base| && r[offset..offset + |b|] == b
    ensures forall i | 0 <= i < |base| && !(offset <= i < offset + |b|) :: r[i] == base[i]
  {
    base[..offset] + b + base[offset + |b|..]
  }

  /** Fields in the order of their offsets, none into the next, all after `start` and within `end`. */
  predicate Ascending(fields: seq<Field>, start: nat, end: nat) {
    && start <= (if fields == [] then end else fields[0].offset)
    && (forall i | 0 <= i < |fields| :: Clears(fields, i, end))
  }

  predicate Clears(fields: seq<Field>, i: nat, end: nat)
    requires i < |fields|
  {
    fields[i].offset + fields[i].size <= if i + 1 < |fields| then fields[i + 1].offset else end
  }

  lemma AscendingTail(fields: seq<Field>, start: nat, end: nat)
    requires fields != [] && Ascending(fields, start, end)
    ensures Ascending(fields[1..], fields[0].offset + fields[0].size, end)
  {
    var rest := fields[1..];
    assert Clears(fields, 0, end);
    forall i | 0 <= i < |rest| ensures Clears(rest, i, end) {
      assert Clears(fields, i + 1, end);
    }
  }

  lemma AscendingJoin(a: seq<Field>, b: seq<Field>, start: nat, middle: nat, end: nat)
    requires Ascending(a, start, middle) && Ascending(b, middle, end)
    ensures Ascending(a + b, start, end)
  {
    AscendingWithin(b, middle, end);
    var all := a + b;
    forall i | 0 <= i < |all| ensures Clears(all, i, end) {
      if i < |a| {
        assert Clears(a, i, middle);
      } else {
        assert Clears(b, i - |a|, end);
      }
    }
    if a == [] {
      AscendingWithin(a, start, middle);
    }
  }

  lemma {:induction false} AscendingWithin(fields: seq<Field>, start: nat, end: nat)
    requires Ascending(fields, start, end)
    ensures start <= end
    ensures fields != [] ==> fields[0].offset + fields[0].size <= end
    decreases |fields|
  {
    if fields != [] {
      AscendingTail(fields, start, end);
      AscendingWithin(fields[1..], fields[0].offset + fields[0].size, end);
    }
  }

  /** Write the fields into a vector that holds anything else. */
  function Pack(base: Bytes, fields: seq<Field>, start: nat): (r: Bytes)
    requires Ascending(fields, start, |base|)
    ensures |r| == |base|
    decreases |fields|
  {
    if fields == [] then base
    else
      AscendingWithin(fields, start, |base|);
      AscendingTail(fields, start, |base|);
      Pack(Overlay(base, fields[0].offset, ToBytes(fields[0].value, fields[0].size)), fields[1..],
           fields[0].offset + fields[0].size)
  }

  /** Packing leaves what is before the first field. */
  lemma {:induction false} PackLeaves(base: Bytes, fields: seq<Field>, start: nat)
    requires Ascending(fields, start, |base|)
    ensures start <= |base| && Pack(base, fields, start)[..start] == base[..start]
    decreases |fields|
  {
    AscendingWithin(fields, start, |base|);
    if fields != [] {
      AscendingTail(fields, start, |base|);
      var f := fields[0];
      var next := Overlay(base, f.offset, ToBytes(f.value, f.size));
      PackLeaves(next, fields[1..], f.offset + f.size);
      var packed := Pack(base, fields, start);
      forall i | 0 <= i < start ensures packed[i] == base[i] {
        assert packed[i] == packed[..f.offset + f.size][i];
        assert next[i] == next[..f.offset + f.size][i];
      }
    }
  }

  /** A field that was packed is where it belongs. */
  ghost predicate Holds(state: Bytes, f: Field) {
    f.offset + f.size <= |state| && state[f.offset..f.offset + f.size] == ToBytes(f.value, f.size)
  }

  lemma {:induction false} PackHolds(base: Bytes, fields: seq<Field>, start: nat, k: nat)
    requires Ascending(fields, start, |base|) && k < |fields|
    ensures Holds(Pack(base, fields, start), fields[k])
    decreases |fields|
  {
    AscendingWithin(fields, start, |base|);
    AscendingTail(fields, start, |base|);
    var f := fields[0];
    var next := Overlay(base, f.offset, ToBytes(f.value, f.size));
    if k == 0 {
      PackLeaves(next, fields[1..], f.offset + f.size);
      var packed := Pack(next, fields[1..], f.offset + f.size);
      assert packed[f.offset..f.offset + f.size] == packed[..f.offset + f.size][f.offset..];
      assert next[f.offset..f.offset + f.size] == next[..f.offset + f.size][f.offset..];
    } else {
      PackHolds(next, fields[1..], f.offset + f.size, k - 1);
    }
  }

  lemma HeldReads(state: Bytes, f: Field)
    requires Holds(state, f) && Fits(f)
    ensures Uint(state, f.offset, f.size) == Success(f.value)
  {
    BytesRoundTrip(f.value, f.size);
  }

  // ---- the round trip ----

  function TableFields(table: seq<(string, nat)>, size: nat, values: map<string, nat>): (fields: seq<Field>)
    requires forall t <- table :: t.0 in values
  {
    seq(|table|, i requires 0 <= i < |table| => Field(table[i].0, table[i].1, size, values[table[i].0]))
  }

  predicate Named(layout: Layout, values: map<string, nat>) {
    && (forall t <- layout.initialUints :: t.0 in values)
    && (forall t <- layout.globalUints :: t.0 in values)
    && (forall t <- layout.globalUint256s :: t.0 in values)
  }

  /** All fields of a layout; the 256-bit ones come after the first of the global ones. */
  function LayoutFields(layout: Layout, values: map<string, nat>): seq<Field>
    requires Named(layout, values) && |layout.globalUints| == 2
  {
    TableFields(layout.initialUints, 8, values) + TableFields(layout.globalUints[..1], 8, values)
    + TableFields(layout.globalUint256s, 32, values) + TableFields(layout.globalUints[1..], 8, values)
  }

  lemma TableIsAscending(table: seq<(string, nat)>, size: nat, values: map<string, nat>, start: nat, end: nat)
    requires TableAscending(table, size, start, end) && forall t <- table :: t.0 in values
    ensures Ascending(TableFields(table, size, values), start, end)
  {
    var fields := TableFields(table, size, values);
    forall i | 0 <= i < |fields| ensures Clears(fields, i, end) {
      assert TableClears(table, i, size, end);
    }
  }

  lemma LayoutIsAscending(layout: Layout, values: map<string, nat>)
    requires LayoutOrdered(layout) && Named(layout, values)
    ensures Ascending(LayoutFields(layout, values), 32, layout.stateSize)
  {
    hide Ascending;
    var g0, u, g1 := layout.globalUints[0].1, layout.globalUint256s[0].1, layout.globalUints[1].1;
    assert layout.globalUints[..1] == [layout.globalUints[0]] && layout.globalUints[1..] == [layout.globalUints[1]];
    TableIsAscending(layout.initialUints, 8, values, 32, g0);
    TableIsAscending(layout.globalUints[..1], 8, values, g0, u);
    TableIsAscending(layout.globalUint256s, 32, values, u, g1);
    TableIsAscending(layout.globalUints[1..], 8, values, g1, layout.stateSize);
    var a, b := TableFields(layout.initialUints, 8, values), TableFields(layout.globalUints[..1], 8, values);
    var c, d := TableFields(layout.globalUint256s, 32, values), TableFields(layout.globalUints[1..], 8, values);
    AscendingJoin(a, b, 32, g0, u);
    AscendingJoin(a + b, c, 32, u, g1);
    AscendingJoin(a + b + c, d, 32, g1, layout.stateSize);
  }

  /** A state vector in which the fields have these values, over whatever `base` holds elsewhere. */
  function PackedState(layout: Layout, base: Bytes, values: map<string, nat>): (state: Bytes)
    requires LayoutOrdered(layout) && Named(layout, values) && |base| == layout.stateSize
    ensures |state| == layout.stateSize
  {
    LayoutIsAscending(layout, values);
    Pack(base, LayoutFields(layout, values), 32)
  }

  /** Every field's value fits its width. */
  predicate InRange(layout: Layout, values: map<string, nat>)
    requires Named(layout, values)
  {
    && (forall t <- layout.initialUints :: values[t.0] < PowerOf256(8))
    && (forall t <- layout.globalUints :: values[t.0] < PowerOf256(8))
    && (forall t <- layout.globalUint256s :: values[t.0] < PowerOf256(32))
  }

  ghost predicate TableHeld(state: Bytes, table: seq<(string, nat)>, size: nat, values: map<string, nat>)
    requires forall t <- table :: t.0 in values
  {
    forall t <- table :: Holds(state, Field(t.0, t.1, size, values[t.0]))
  }

  lemma TablePacked(state: Bytes, before: seq<Field>, table: seq<(string, nat)>, size: nat, values: map<string, nat>,
                    after: seq<Field>)
    requires forall t <- table :: t.0 in values
    requires forall f <- before + TableFields(table, size, values) + after :: Holds(state, f)
    ensures TableHeld(state, table, size, values)
  {
    hide Holds;
    forall t | t in table ensures Holds(state, Field(t.0, t.1, size, values[t.0])) {
      var i :| 0 <= i < |table| && table[i] == t;
      assert TableFields(table, size, values)[i] in before + TableFields(table, size, values) + after;
    }
  }

  lemma StateHolds(layout: Layout, base: Bytes, values: map<string, nat>)
    requires LayoutOrdered(layout) && Named(layout, values) && |base| == layout.stateSize
    ensures var state := PackedState(layout, base, values);
            && TableHeld(state, layout.initialUints, 8, values) && TableHeld(state, layout.globalUints, 8, values)
            && TableHeld(state, layout.globalUint256s, 32, values)
            && |state| >= 32 && state[..32] == base[..32]
  {
    hide Holds, Ascending, Pack, TableFields;
    LayoutIsAscending(layout, values);
    var state := PackedState(layout, base, values);
    var fields := LayoutFields(layout, values);
    PackLeaves(base, fields, 32);
    forall f | f in fields ensures Holds(state, f) {
      var k :| 0 <= k < |fields| && fields[k] == f;
      PackHolds(base, fields, 32, k);
    }
    var a, b := TableFields(layout.initialUints, 8, values), TableFields(layout.globalUints[..1], 8, values);
    var c, d := TableFields(layout.globalUint256s, 32, values), TableFields(layout.globalUints[1..], 8, values);
    assert fields == [] + a + (b + c + d) && fields == a + b + (c + d) && fields == a + b + c + d
        && fields == a + b + c + d + [];
    TablePacked(state, [], layout.initialUints, 8, values, b + c + d);
    TablePacked(state, a, layout.globalUints[..1], 8, values, c + d);
    TablePacked(state, a + b, layout.globalUint256s, 32, values, d);
    TablePacked(state, a + b + c, layout.globalUints[1..], 8, values, []);
    assert layout.globalUints == layout.globalUints[..1] + layout.globalUints[1..];
  }

  /** A view shows exactly the fields of a table, each with its value. */
  ghost predicate Shows(view: BignumView, table: seq<(string, nat)>, values: map<string, nat>) {
    && (forall t <- table :: t.0 in view)
    && (forall name | name in view :: name in values && view[name] == ToBignum(values[name]))
  }

  lemma {:induction false} TableReads(state: Bytes, table: seq<(string, nat)>, size: nat, values: map<string, nat>)
    requires forall t <- table :: t.0 in values && values[t.0] < PowerOf256(size)
    requires TableHeld(state, table, size, values)
    ensures var r := DecodeFields(state, table, size); r.Success? && Shows(r.value, table, values)
  {
    if table != [] {
      var front, last := table[..|table| - 1], table[|table| - 1];
      assert table == front + [last];
      TableReads(state, front, size, values);
      assert last in table;
      HeldReads(state, Field(last.0, last.1, size, values[last.0]));
    }
  }

  lemma StateReads(layout: Layout, base: Bytes, values: map<string, nat>)
    requires LayoutOrdered(layout) && Named(layout, values) && InRange(layout, values) && |base| == layout.stateSize
    ensures var state := PackedState(layout, base, values);
            && |state| >= 32
            && var r := Decoded(state, layout);
               && r.Success? && r.value.beneficiary == "0x" + HexOfBytes(base[..32])
               && Shows(r.value.initial, layout.initialUints, values)
               && Shows(r.value.global, layout.globalUints + layout.globalUint256s, values)
  {
    hide PackedState, TableHeld, DecodeFields, LayoutOrdered, ToBignum, HexOfBytes, PowerOf256;
    StateHolds(layout, base, values);
    var state := PackedState(layout, base, values);
    TableReads(state, layout.initialUints, 8, values);
    TableReads(state, layout.globalUints, 8, values);
    TableReads(state, layout.globalUint256s, 32, values);
  }

  // ---- entries in any order ----

  function Joined(chunks: seq<Bytes>): Bytes {
    if chunks == [] then [] else chunks[0] + Joined(chunks[1..])
  }

  function StateEntries(metadata: Bytes, chunks: seq<Bytes>): seq<Entry>
    requires |chunks| <= 256
  {
    [Entry(Some([]), Slice(metadata))]
    + seq(|chunks|, i requires 0 <= i < |chunks| => Entry(Some([i as Byte]), Slice(chunks[i])))
  }

  predicate IsStateKey(key: Bytes, stateKeys: nat) {
    key == [] || (|key| == 1 && key[0] < stateKeys)
  }

  /** Entries of other keys; their values may be anything. */
  predicate Foreign(entries: seq<Entry>, stateKeys: nat) {
    forall e <- entries :: e.key.Some? && !IsStateKey(e.key.value, stateKeys)
  }

  /** What is under one key, when that key is there once. */
  ghost predicate Stored(entries: seq<Entry>, key: Bytes, bytes: Bytes) {
    && (forall e | e in entries :: e.key.Some? && (e.key.value == key ==> e.value == Slice(bytes)))
    && Entry(Some(key), Slice(bytes)) in entries
  }

  lemma {:induction false} StoredIsFound(entries: seq<Entry>, key: Bytes, bytes: Bytes)
    requires Stored(entries, key, bytes)
    ensures EntryBytes(entries, key) == Success(Some(bytes))
  {
    assert entries[0] in entries;
    if entries[0].key.value != key {
      assert entries == [entries[0]] + entries[1..];
      StoredIsFound(entries[1..], key, bytes);
    }
  }

  lemma SameElements(a: seq<Entry>, b: seq<Entry>)
    requires multiset(a) == multiset(b)
    ensures forall e :: e in a <==> e in b
  {
    forall e | true ensures e in a <==> e in b {
      assert e in a <==> e in multiset(a);
      assert e in b <==> e in multiset(b);
    }
  }

  lemma PermutedAreStored(entries: seq<Entry>, metadata: Bytes, chunks: seq<Bytes>, foreign: seq<Entry>)
    requires |chunks| <= 256 && Foreign(foreign, |chunks|)
    requires multiset(entries) == multiset(StateEntries(metadata, chunks) + foreign)
    ensures Stored(entries, [], metadata)
    ensures forall i | 0 <= i < |chunks| :: Stored(entries, [i], chunks[i])
  {
    var own := StateEntries(metadata, chunks);
    SameElements(entries, own + foreign);
    assert own[0] in own + foreign;
    forall e | e in entries
      ensures e.key.Some? && (e.key.value == [] ==> e.value == Slice(metadata))
      ensures forall i | 0 <= i < |chunks| :: e.key.value == [i] ==> e.value == Slice(chunks[i])
    {
      if e in foreign {
      } else {
        var j :| 0 <= j < |own| && own[j] == e;
      }
    }
    forall i | 0 <= i < |chunks| ensures Stored(entries, [i], chunks[i]) {
      assert own[i + 1] == Entry(Some([i]), Slice(chunks[i]));
      assert own[i + 1] in own + foreign;
    }
  }

  lemma {:induction false} ChunksFound(entries: seq<Entry>, chunks: seq<Bytes>, index: nat)
    requires index <= |chunks| <= 256
    requires forall i | 0 <= i < |chunks| :: Stored(entries, [i], chunks[i])
    ensures Chunks(entries, index, |chunks|) == Success(Joined(chunks[index..]))
    decreases |chunks| - index
  {
    hide Stored;
    if index < |chunks| {
      StoredIsFound(entries, [index], chunks[index]);
      ChunksFound(entries, chunks, index + 1);
      assert chunks[index..][1..] == chunks[index + 1..];
    }
  }

  /**
   * Pack any values, split the vector over the keys at any places, put the entries in any order among
   * others: decoding and reading the big numbers gives the values back.
   */
  lemma ContractRoundTrip(contractType: string, version: string, layout: Layout, base: Bytes, values: map<string, nat>,
                          metadata: Bytes, chunks: seq<Bytes>, foreign: seq<Entry>, entries: seq<Entry>)
    requires LayoutFor(contractType, version) == Success(layout)
    requires Named(layout, values) && InRange(layout, values) && |base| == layout.stateSize
    requires |chunks| == layout.stateKeys && Joined(chunks) == PackedState(layout, base, values)
    requires |metadata| >= 8 && BigEndian(metadata[..8]) == CURRENT_REACH_STEP
    requires Foreign(foreign, layout.stateKeys)
    requires multiset(entries) == multiset(StateEntries(metadata, chunks) + foreign)
    ensures var r := DecodeContractViews(entries, contractType, version);
            && r.Success?
            && r.value.beneficiary == "0x" + HexOfBytes(base[..32])
            && (forall t <- layout.initialUints ::
                  t.0 in r.value.initial && ParseBignum(r.value.initial[t.0]) == Some(values[t.0]))
            && (forall t <- layout.globalUints + layout.globalUint256s ::
                  t.0 in r.value.global && ParseBignum(r.value.global[t.0]) == Some(values[t.0]))
  {
    hide PackedState, Decoded, GlobalVector, ParseBignum, Joined, HexOfBytes, StateEntries, Foreign, InRange, LayoutOrdered, Named, Shows;
    hide BigEndian, LayoutFor;
    VectorRecovered(layout, PackedState(layout, base, values), metadata, chunks, foreign, entries);
    StateReads(layout, base, values);
    var views := Decoded(PackedState(layout, base, values), layout).value;
    ShownReads(views.initial, layout.initialUints, values);
    ShownReads(views.global, layout.globalUints + layout.globalUint256s, values);
  }

  lemma VectorRecovered(layout: Layout, state: Bytes, metadata: Bytes, chunks: seq<Bytes>, foreign: seq<Entry>, entries: seq<Entry>)
    requires |chunks| == layout.stateKeys <= 256 && Joined(chunks) == state && |state| == layout.stateSize
    requires |metadata| >= 8 && BigEndian(metadata[..8]) == CURRENT_REACH_STEP
    requires Foreign(foreign, layout.stateKeys)
    requires multiset(entries) == multiset(StateEntries(metadata, chunks) + foreign)
    ensures GlobalVector(entries, layout) == Success(state)
  {
    hide Stored, StateEntries, Foreign, BigEndian, Joined, EntryBytes;
    PermutedAreStored(entries, metadata, chunks, foreign);
    StoredIsFound(entries, [], metadata);
    ChunksFound(entries, chunks, 0);
    assert chunks[0..] == chunks;
  }

  lemma ShownReads(view: BignumView, table: seq<(string, nat)>, values: map<string, nat>)
    requires Shows(view, table, values)
    ensures forall t <- table :: t.0 in view && t.0 in values && ParseBignum(view[t.0]) == Some(values[t.0])
  {
    hide ParseBignum, ToBignum;
    forall t | t in table ensures t.0 in view && t.0 in values && ParseBignum(view[t.0]) == Some(values[t.0]) {
      BignumRoundTrip(values[t.0]);
    }
  }

  // ---- the local map ----

  /** An optional number and what stands in its place when there is none. */
  datatype Maybe = Maybe(value: Option<nat>, filler: Bytes)

  predicate MaybeFits(m: Maybe, size: nat) {
    |m.filler| == size && (m.value.Some? ==> m.value.value < PowerOf256(size))
  }

  function MaybeBytes(m: Maybe, size: nat): (b: Bytes)
    requires MaybeFits(m, size)
    ensures |b| == size + 1
  {
    if m.value.Some? then [1] + ToBytes(m.value.value, size) else [0] + m.filler
  }

  function ValueOrZero(m: Maybe): nat {
    if m.value.Some? then m.value.value else 0
  }

  lemma MaybeReads(before: Bytes, m: Maybe, size: nat, after: Bytes)
    requires MaybeFits(m, size)
    ensures OptionalUint(before + MaybeBytes(m, size) + after, |before|, size) == Success(ValueOrZero(m))
  {
    var b := MaybeBytes(m, size);
    var state := before + b + after;
    assert state[|before|] == b[0];
    if m.value.Some? {
      assert state[|before| + 1..|before| + 1 + size] == ToBytes(m.value.value, size);
      BytesRoundTrip(m.value.value, size);
    }
  }

  function PackedLocal(staked: Maybe, reward: Maybe, lock: Maybe, paid: Maybe): (state: Bytes)
    requires MaybeFits(staked, 8) && MaybeFits(reward, 8) && MaybeFits(lock, 8) && MaybeFits(paid, 32)
    ensures |state| == LOCAL_MAP_BYTES
  {
    MaybeBytes(staked, 8) + MaybeBytes(reward, 8) + MaybeBytes(lock, 8) + MaybeBytes(paid, 32)
  }

  /** The four maps of an account come back, with 0 for what is not there, whatever else is stored. */
  lemma LocalRoundTrip(staked: Maybe, reward: Maybe, lock: Maybe, paid: Maybe, foreign: seq<Entry>, entries: seq<Entry>)
    requires MaybeFits(staked, 8) && MaybeFits(reward, 8) && MaybeFits(lock, 8) && MaybeFits(paid, 32)
    requires forall e <- foreign :: e.key.Some? && e.key.value != [0]
    requires multiset(entries) == multiset([Entry(Some([0]), Slice(PackedLocal(staked, reward, lock, paid)))] + foreign)
    ensures var r := DecodeLocalView(entries);
            && r.Success?
            && ParseBignum(r.value.staked) == Some(ValueOrZero(staked))
            && ParseBignum(r.value.reward) == Some(ValueOrZero(reward))
            && ParseBignum(r.value.lockTimestamp) == Some(ValueOrZero(lock))
            && ParseBignum(r.value.rewardPerTokenPaid) == Some(ValueOrZero(paid))
  {
    hide ParseBignum, ToBignum, OptionalUint, MaybeBytes, MaybeFits;
    var own := [Entry(Some([0]), Slice(PackedLocal(staked, reward, lock, paid)))];
    var state := PackedLocal(staked, reward, lock, paid);
    SameElements(entries, own + foreign);
    assert own[0] in own + foreign;
    StoredIsFound(entries, [0], state);
    LocalReads(staked, reward, lock, paid);
    BignumRoundTrip(ValueOrZero(staked));
    BignumRoundTrip(ValueOrZero(reward));
    BignumRoundTrip(ValueOrZero(lock));
    BignumRoundTrip(ValueOrZero(paid));
  }

  lemma LocalReads(staked: Maybe, reward: Maybe, lock: Maybe, paid: Maybe)
    requires MaybeFits(staked, 8) && MaybeFits(reward, 8) && MaybeFits(lock, 8) && MaybeFits(paid, 32)
    ensures var state := PackedLocal(staked, reward, lock, paid);
            && OptionalUint(state, 0, 8) == Success(ValueOrZero(staked))
            && OptionalUint(state, 9, 8) == Success(ValueOrZero(reward))
            && OptionalUint(state, 18, 8) == Success(ValueOrZero(lock))
            && OptionalUint(state, 27, 32) == Success(ValueOrZero(paid))
  {
    hide OptionalUint, MaybeBytes, MaybeFits;
    var a, b, c, d := MaybeBytes(staked, 8), MaybeBytes(reward, 8), MaybeBytes(lock, 8), MaybeBytes(paid, 32);
    var state := PackedLocal(staked, reward, lock, paid);
    assert state == [] + a + (b + c + d) && state == a + b + (c + d) && state == a + b + c + d && state == a + b + c + d + [];
    MaybeReads([], staked, 8, b + c + d);
    MaybeReads(a, reward, 8, c + d);
    MaybeReads(a + b, lock, 8, d);
    MaybeReads(a + b + c, paid, 32, []);
  }

  /** An account that has not opted in reads as zeros. */
  lemma NoLocalState(entries: seq<Entry>)
    requires EntryBytes(entries, [0]) == Success(None)
    ensures DecodeLocalView(entries)
            == Success(LocalView(ToBignum(0), ToBignum(0), ToBignum(0), ToBignum(0)))
    ensures ParseBignum(ToBignum(0)) == Some(0)
  {
    hide ToBignum, ParseBignum;
    BignumRoundTrip(0);
    ZeroBytes(LOCAL_MAP_BYTES, 0);
    ZeroBytes(LOCAL_MAP_BYTES, 9);
    ZeroBytes(LOCAL_MAP_BYTES, 18);
    ZeroBytes(LOCAL_MAP_BYTES, 27);
  }

  lemma {:induction false} ZeroBytes(size: nat, i: nat)
    requires i < size
    ensures ToBytes(0, size)[i] == 0
  {
    if i < size - 1 {
      ZeroBytes(size - 1, i);
    }
  }

  predicate ValidTag(b: Byte) {
    b == 0 || b == 1
  }

  /** A local state is accepted exactly when it has 60 bytes and every tag is 0 or 1. */
  lemma LocalStateAccepted(entries: seq<Entry>, b: Bytes)
    requires EntryBytes(entries, [0]) == Success(Some(b))
    ensures DecodeLocalView(entries).Success? <==>
              |b| == LOCAL_MAP_BYTES && ValidTag(b[0]) && ValidTag(b[9]) && ValidTag(b[18]) && ValidTag(b[27])
  {
    hide ToBignum, BigEndian;
  }
}

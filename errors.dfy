/** The error section at the end of a packet: a fixed number of three-byte entries that starts
    at an offset depending on the message type. Each entry holds a 7-bit error code with a
    priority bit, an error location and a timestamp offset counted in time buckets before the
    packet's own timestamp. */
module Errors {
  import opened Wrappers
  import opened Bits
  import opened Hex
  import opened Calibration
  import opened Values

  /** The message type names the error tables know: written with underscores. */
  const ErrorTableTypes: set<string> := {"IDLE", "ATTITUDE", "FLASH_BURST", "FLASH_CMP", "LOW_POWER"}

  /** getErrorStartByte: the hex offset of the first error entry. Any other name falls through
      the if-chain, and the function returns None. */
  function ErrorStartByte(mt: string): (r: Option<nat>)
    ensures r.Some? <==> mt in ErrorTableTypes
  {
    if mt == "IDLE" then Some(190 * 2)
    else if mt == "ATTITUDE" then Some(194 * 2)
    else if mt == "FLASH_BURST" then Some(180 * 2)
    else if mt == "FLASH_CMP" then Some(179 * 2)
    else if mt == "LOW_POWER" then Some(179 * 2)
    else None
  }

  /** getNumErrorsInPacket: how many entries the packet carries, None for any other name. */
  function NumErrorsInPacket(mt: string): (r: Option<nat>)
    ensures r.Some? <==> mt in ErrorTableTypes
  {
    if mt == "IDLE" then Some(11)
    else if mt == "ATTITUDE" then Some(9)
    else if mt == "FLASH_BURST" then Some(14)
    else if mt == "FLASH_CMP" then Some(14)
    else if mt == "LOW_POWER" then Some(14)
    else None
  }

  /** Where the error entries of a message type end. */
  function ErrorSectionEnd(mt: string): nat
    requires mt in ErrorTableTypes
  {
    ErrorStartByte(mt).value + 6 * NumErrorsInPacket(mt).value
  }

  /** Every error table ends inside the shorter packet length, 446 hex digits, and the idle
      table ends exactly there: 446, 442, 444, 442 and 442. */
  lemma ErrorSectionsFit(mt: string)
    requires mt in ErrorTableTypes
    ensures ErrorSectionEnd(mt) <= 446
    ensures ErrorSectionEnd(mt) == 446 <==> mt == "IDLE"
  {
  }

  /** convert_error_timestamp: the packet timestamp minus `ERROR_TIME_BUCKET_SIZE` times the
      number of buckets the entry records. With a positive bucket size, the error timestamp lies
      a whole number of buckets before the packet timestamp (never after it), and that number is
      the one the entry recorded. */
  function ConvertErrorTimestamp(buckets: int, packetTimestamp: int, t: Table): (r: int)
    ensures t.errorTimeBucketSize > 0 && buckets >= 0 ==>
      (r <= packetTimestamp
       && (packetTimestamp - r) % t.errorTimeBucketSize == 0
       && (packetTimestamp - r) / t.errorTimeBucketSize == buckets)
  {
    var d := t.errorTimeBucketSize;
    var r := packetTimestamp - d * buckets;
    if d > 0 && buckets >= 0 then
      DivModUnique(d * buckets, d, buckets, 0);
      MulMonotone(d, 0, buckets);
      r
    else
      r
  }

  /** The keys of one error entry. */
  const ErrorEntryKeys: set<Key> :=
    {error_code, priority_bit, error_location, timestamp, error_code_name, error_location_name, data_hash}

  /** The entry read from the six hex digits at ps[i:i+6]. */
  function ErrorEntry(ps: string, i: nat, packetTimestamp: int, t: Table): (e: Fields)
    requires IsHexString(ps) && i + 6 <= |ps|
    ensures e.Keys == ErrorEntryKeys
    ensures e[error_code].IntVal? && 0 <= e[error_code].i < 128
    ensures e[error_location] == IntVal(HexByteAt(ps, i + 2))
    ensures e[timestamp] == IntVal(ConvertErrorTimestamp(HexByteAt(ps, i + 4), packetTimestamp, t))
    ensures e[error_code_name] == StrVal(t.ecodeName(e[error_code].i))
    ensures e[error_location_name] == StrVal(t.elocName(HexByteAt(ps, i + 2)))
  {
    var raw := HexByteAt(ps, i);
    var code := raw % 128;
    var location := HexByteAt(ps, i + 2);
    var ts := ConvertErrorTimestamp(HexByteAt(ps, i + 4), packetTimestamp, t);
    map[error_code := IntVal(code),
        priority_bit := BoolVal(raw >= 128),
        error_location := IntVal(location),
        timestamp := IntVal(ts),
        error_code_name := StrVal(t.ecodeName(code)),
        error_location_name := StrVal(t.elocName(location)),
        data_hash := StrVal(ps[i..i + 4] + IntToHex(ts))]
  }

  /** The low seven bits of a byte are its remainder modulo 128, `b & 0x7F`, and bit 7 is set
      exactly when the byte is at least 128. */
  lemma CodeByteSplit(b: nat)
    requires b < 256
    ensures b % 128 == BitField(b, 0, 7) == And(b, 0x7F)
    ensures GetBit(b, 7) == (b >= 128)
    ensures b == b % 128 + (if b >= 128 then 128 else 0)
  {
    BitFieldIsMask(b, 0, 7);
    assert Pow2(0) == 1 && Pow2(7) == 128;
    assert ShiftRight(b, 0) == b;
    TopBitsOfByte(b);
    var hi := if b >= 128 then 1 else 0;
    DivModUnique(b, 128, hi, b - 128 * hi);
  }

  /** The code byte of an entry splits into its error code, `raw & 0x7F`, and its priority bit,
      `get_bit(raw, 7)`: the byte is the code plus 128 for a priority error. */
  lemma ErrorCodeSplit(ps: string, i: nat, packetTimestamp: int, t: Table)
    requires IsHexString(ps) && i + 6 <= |ps|
    ensures var e, raw := ErrorEntry(ps, i, packetTimestamp, t), HexByteAt(ps, i);
      && e[error_code] == IntVal(And(raw, 0x7F)) && e[priority_bit] == BoolVal(GetBit(raw, 7))
      && 0 <= e[error_code].i < 128
      && raw == e[error_code].i + (if e[priority_bit].b then 128 else 0)
  {
    var e, raw := ErrorEntry(ps, i, packetTimestamp, t), HexByteAt(ps, i);
    assert e[error_code] == IntVal(raw % 128) && e[priority_bit] == BoolVal(raw >= 128);
    CodeByteSplit(raw);
  }

  /** The entry's data_hash is its first four hex digits followed by the digits of its full
      timestamp: lower-case hex without leading zeros, or, for a negative timestamp, an 'x'
      and the digits of its magnitude, as `hex(v)[2:]` leaves them. */
  lemma ErrorDataHash(ps: string, i: nat, packetTimestamp: int, t: Table)
    requires IsHexString(ps) && i + 6 <= |ps|
    ensures var e := ErrorEntry(ps, i, packetTimestamp, t);
      && e[timestamp].IntVal? && e[data_hash].StrVal?
      && var h, ts := e[data_hash].s, e[timestamp].i;
      && |h| > 4 && h[..4] == ps[i..i + 4]
      && (ts >= 0 ==> IsLowerHexString(h[4..]) && IsHexString(h[4..]) && HexValue(h[4..]) == ts
                      && (h[4] == '0' ==> |h| == 5))
      && (ts < 0 ==> h[4] == 'x' && IsLowerHexString(h[5..]) && IsHexString(h[5..]) && HexValue(h[5..]) == -ts
                     && h[5] != '0')
  {
    var ts := ConvertErrorTimestamp(HexByteAt(ps, i + 4), packetTimestamp, t);
    var h := ps[i..i + 4] + IntToHex(ts);
    assert h[4..] == IntToHex(ts);
    assert h[5..] == IntToHex(ts)[1..];
  }

  /** The count entries read at start, start + 6, start + 12, ... */
  function EntriesFrom(ps: string, start: nat, count: nat, packetTimestamp: int, t: Table): (r: seq<Fields>)
    requires IsHexString(ps) && start + 6 * count <= |ps|
    ensures |r| == count
  {
    seq(count, k requires 0 <= k < count => ErrorEntry(ps, start + 6 * k, packetTimestamp, t))
  }

  /** What parse_errors returns for a message type: `range(0, None)` raises TypeError for a name
      the tables do not know; otherwise the entries of its table. */
  function ErrorList(ps: string, mt: string, packetTimestamp: int, t: Table): (r: PyResult<seq<Fields>>)
    requires IsHexString(ps)
    requires mt in ErrorTableTypes ==> ErrorSectionEnd(mt) <= |ps|
    ensures r.Raise? <==> mt !in ErrorTableTypes
    ensures r.Raise? ==> r.error == TypeError
    ensures r.Ok? ==> |r.value| == NumErrorsInPacket(mt).value
  {
    if NumErrorsInPacket(mt).None? then Raise(TypeError)
    else Ok(EntriesFrom(ps, ErrorStartByte(mt).value, NumErrorsInPacket(mt).value, packetTimestamp, t))
  }

  /** Entry k of the error list is the entry read at the start offset plus 6k. */
  lemma ErrorAt(ps: string, mt: string, packetTimestamp: int, t: Table, k: nat)
    requires IsHexString(ps) && mt in ErrorTableTypes && ErrorSectionEnd(mt) <= |ps|
    requires k < NumErrorsInPacket(mt).value
    ensures var i := ErrorStartByte(mt).value + 6 * k;
      && i + 6 <= ErrorSectionEnd(mt)
      && ErrorList(ps, mt, packetTimestamp, t).value[k] == ErrorEntry(ps, i, packetTimestamp, t)
  {
  }

  /** The loop of parse_errors: the cursor starts at start and advances by six after every
      entry. */
  method CollectErrors(ps: string, start: nat, count: nat, packetTimestamp: int, t: Table) returns (errors: seq<Fields>)
    requires IsHexString(ps) && start + 6 * count <= |ps|
    ensures errors == EntriesFrom(ps, start, count, packetTimestamp, t)
  {
    errors := [];
    var cursor := start;
    for i := 0 to count
      invariant cursor == start + 6 * i
      invariant errors == EntriesFrom(ps, start, count, packetTimestamp, t)[..i]
    {
      var cur := ErrorEntry(ps, cursor, packetTimestamp, t);
      PrefixExtend(EntriesFrom(ps, start, count, packetTimestamp, t), i, errors, cur);
      errors := errors + [cur];
      cursor := cursor + 6;
    }
    assert EntriesFrom(ps, start, count, packetTimestamp, t)[..count] == EntriesFrom(ps, start, count, packetTimestamp, t);
  }

  /** parse_errors: a name without a table raises before the loop runs. */
  method ParseErrors(ps: string, mt: string, packetTimestamp: int, t: Table) returns (r: PyResult<seq<Fields>>)
    requires IsHexString(ps)
    requires mt in ErrorTableTypes ==> ErrorSectionEnd(mt) <= |ps|
    ensures r == ErrorList(ps, mt, packetTimestamp, t)
  {
    var start := ErrorStartByte(mt);
    var count := NumErrorsInPacket(mt);
    if count.None? {
      return Raise(TypeError);
    }
    var errors := CollectErrors(ps, start.value, count.value, packetTimestamp, t);
    r := Ok(errors);
  }
}

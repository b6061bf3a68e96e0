/** The two fixed-offset blocks at the head of every packet: the preamble (hex offsets 0-26) and
    the current-info block (hex offsets 26-58). */
module Preamble {
  import opened Wrappers
  import opened Bits
  import opened Hex
  import opened Calibration
  import opened Values
  import opened Common

  /** `msg_op_states & 0x07`: the low three bits of the flag byte. */
  function MessageTypeCode(b: nat): (c: nat)
    ensures c == And(b, 0x07)
    ensures c == b % 8 && c < 8
  {
    assert Pow2(3) == 8;
    AndLowMask(b, 3);
    BitField(b, 0, 3)
  }

  /** `(msg_op_states >> 3) & 0x07`: bits 3-5 of the flag byte. */
  function SatStateCode(b: nat): (c: nat)
    ensures c == And(ShiftRight(b, 3), 0x07)
    ensures c == (b / 8) % 8 && c < 8
  {
    assert Pow2(3) == 8;
    BitFieldIsMask(b, 3, 3);
    BitField(b, 3, 3)
  }

  /** `ps[0:12].decode("hex")`: the six callsign bytes, one character each. */
  function Callsign(ps: string): (s: string)
    requires IsHexString(ps) && |ps| >= 12
    ensures |s| == 6
    ensures forall k :: 0 <= k < 6 ==> s[k] as int == HexByteAt(ps, 2 * k)
  {
    var bytes := Unhexlify(ps[..12]);
    assert forall k :: 0 <= k < 6 ==> bytes[k] == HexByteAt(ps, 2 * k) by {
      forall k | 0 <= k < 6 ensures bytes[k] == HexByteAt(ps, 2 * k) {
        HexByteAtSlice(ps, 0, 12, 2 * k);
        assert ps[..12] == ps[0..12];
      }
    }
    seq(6, k requires 0 <= k < 6 => bytes[k] as char)
  }

  /** parse_preamble. Both lookups raise `KeyError` on a code outside their table. The two
      `int(..., 16)` calls guarded by `except ValueError` cannot fail on a hex packet of at least
      26 digits, so their -1 fallback does not arise here. */
  function ParsePreamble(ps: string): (r: PyResult<Fields>)
    requires IsHexString(ps) && |ps| >= 26
    ensures r.Ok? <==> HexByteAt(ps, 20) % 8 <= 4 && (HexByteAt(ps, 20) / 8) % 8 <= 5
    ensures r.Raise? ==> r.error == KeyError
  {
    var b := HexByteAt(ps, 20);
    var mt := GetMessageType(MessageTypeCode(b));
    var st := GetSatState(SatStateCode(b));
    if mt.None? || st.None? then Raise(KeyError)
    else
      Ok(map[
        callsign := StrVal(Callsign(ps)),
        timestamp := IntVal(Le32At(ps, 12)),
        message_type := StrVal(mt.value),
        satellite_state := StrVal(st.value),
        FLASH_KILLED := BoolVal(GetBit(b, 6)),
        MRAM_CPY := BoolVal(GetBit(b, 7)),
        bytes_of_data := IntVal(HexByteAt(ps, 22)),
        num_errors := IntVal(HexByteAt(ps, 24))])
  }

  /** A decoded preamble holds exactly its eight entries. */
  lemma PreambleKeys(ps: string)
    requires IsHexString(ps) && |ps| >= 26 && ParsePreamble(ps).Ok?
    ensures ParsePreamble(ps).value.Keys == {callsign, timestamp, message_type, satellite_state,
                                             FLASH_KILLED, MRAM_CPY, bytes_of_data, num_errors}
  {
  }

  /** The message type and satellite state of a decoded preamble are the table entries of the
      low three bits and of bits 3-5 of the flag byte at hex offset 20. */
  lemma PreambleStates(ps: string)
    requires IsHexString(ps) && |ps| >= 26 && ParsePreamble(ps).Ok?
    ensures var p, b := ParsePreamble(ps).value, HexByteAt(ps, 20);
      && message_type in p && p[message_type] == StrVal(MessageTypes[b % 8])
      && satellite_state in p && p[satellite_state] == StrVal(SatStates[(b / 8) % 8])
  {
  }

  /** FLASH_KILLED is bit 6 and MRAM_CPY is bit 7 of the flag byte at hex offset 20. */
  lemma PreambleFlagBits(ps: string)
    requires IsHexString(ps) && |ps| >= 26 && ParsePreamble(ps).Ok?
    ensures var p, b := ParsePreamble(ps).value, HexByteAt(ps, 20);
      && FLASH_KILLED in p && p[FLASH_KILLED] == BoolVal((b / 64) % 2 == 1)
      && MRAM_CPY in p && p[MRAM_CPY] == BoolVal(b >= 128)
  {
    TopBitsOfByte(HexByteAt(ps, 20));
  }

  /** The counters of a decoded preamble: the timestamp is the little-endian word at hex offset
      12, and the data and error counts are the bytes at 22 and 24. */
  lemma PreambleCounters(ps: string)
    requires IsHexString(ps) && |ps| >= 26 && ParsePreamble(ps).Ok?
    ensures var p := ParsePreamble(ps).value;
      && timestamp in p && p[timestamp] == IntVal(HexToIntLe(ps[12..20]).value)
      && bytes_of_data in p && p[bytes_of_data] == IntVal(HexValue(ps[22..24]))
      && num_errors in p && p[num_errors] == IntVal(HexValue(ps[24..26]))
  {
    Le32AtIsHexToIntLe(ps, 12);
  }

  /** parse_current_info: two counters, the battery block at offset 30 and four LiFePO4
      reference voltages. The block carries no timestamp of its own. */
  function CurrentInfo(ps: string, t: Table): Fields
    requires IsHexString(ps) && |ps| >= 58 && SlopesNonzero(t)
  {
    var head := map[time_to_flash := IntVal(HexByteAt(ps, 26)), boot_count := IntVal(HexByteAt(ps, 28))];
    WithBatteryBlock(head, ps, 30, t)
      [LF1REF := IntVal(Untruncate(HexByteAt(ps, 50), LfVolt, t))]
      [LF2REF := IntVal(Untruncate(HexByteAt(ps, 52), LfVolt, t))]
      [LF3REF := IntVal(Untruncate(HexByteAt(ps, 54), LfVolt, t))]
      [LF4REF := IntVal(Untruncate(HexByteAt(ps, 56), LfVolt, t))]
  }

  /** parse_current_info, filling its dictionary step by step. */
  method ParseCurrentInfo(ps: string, t: Table) returns (info: Fields)
    requires IsHexString(ps) && |ps| >= 58 && SlopesNonzero(t)
    ensures info == CurrentInfo(ps, t)
  {
    var cur := new Dict();
    cur.fields := cur.fields[time_to_flash := IntVal(HexByteAt(ps, 26))];
    cur.fields := cur.fields[boot_count := IntVal(HexByteAt(ps, 28))];
    ParseBatteryBlock(ps, 30, t, cur);
    cur.fields := cur.fields[LF1REF := IntVal(Untruncate(HexByteAt(ps, 50), LfVolt, t))];
    cur.fields := cur.fields[LF2REF := IntVal(Untruncate(HexByteAt(ps, 52), LfVolt, t))];
    cur.fields := cur.fields[LF3REF := IntVal(Untruncate(HexByteAt(ps, 54), LfVolt, t))];
    cur.fields := cur.fields[LF4REF := IntVal(Untruncate(HexByteAt(ps, 56), LfVolt, t))];
    info := cur.fields;
  }

  /** The thirty entries of the current-info block. */
  const CurrentInfoKeySet: set<Key> := {
    time_to_flash, boot_count,
    L1_REF, L2_REF, L1_SNS, L2_SNS, L1_TEMP, L2_TEMP, PANELREF, L_REF,
    L1_RUN_CHG, L2_RUN_CHG, LF_B1_RUN_CHG, LF_B2_RUN_CHG, LF_B2_CHGN, LF_B2_FAULTN, LF_B1_FAULTN, LF_B1_CHGN,
    L2_ST, L1_ST, L1_DISG, L2_DISG, L1_CHGN, L1_FAULTN, L2_CHGN, L2_FAULTN,
    LF1REF, LF2REF, LF3REF, LF4REF}

  /** The entries of the current-info block: the two counters, the battery block and the four
      reference voltages, and nothing else: in particular no timestamp, which only the
      preamble carries. */
  lemma CurrentInfoKeys(ps: string, t: Table)
    requires IsHexString(ps) && |ps| >= 58 && SlopesNonzero(t)
    ensures CurrentInfo(ps, t).Keys == CurrentInfoKeySet
  {
    var head := map[time_to_flash := IntVal(HexByteAt(ps, 26)), boot_count := IntVal(HexByteAt(ps, 28))];
    BatteryBlockKeys(head, ps, 30, t);
  }
}

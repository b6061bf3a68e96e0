/** The lookups of the preamble codes, the two status-byte parsers that several decoders share
    (event history, digital signals) and the battery block that current info, idle batches and
    low-power batches all carry. */
module Common {
  import opened Wrappers
  import opened Bits
  import opened Hex
  import opened Calibration
  import opened Values

  /** get_sat_state's dictionary. */
  const SatStates: map<int, string> := map[
    0 := "INITIAL", 1 := "ANTENNA DEPLOY", 2 := "HELLO WORLD",
    3 := "IDLE NO FLASH", 4 := "IDLE FLASH", 5 := "LOW POWER"]

  /** get_message_type's dictionary; three of its names are written with a space. */
  const MessageTypes: map<int, string> := map[
    0 := "IDLE", 1 := "ATTITUDE", 2 := "FLASH BURST", 3 := "FLASH CMP", 4 := "LOW POWER"]

  /** get_sat_state: a dictionary lookup, which raises `KeyError` (None here) outside 0..5. */
  function GetSatState(code: int): (r: Option<string>)
    ensures r.Some? <==> 0 <= code <= 5
  {
    if code in SatStates then Some(SatStates[code]) else None
  }

  /** get_message_type: a dictionary lookup, which raises `KeyError` (None here) outside 0..4. */
  function GetMessageType(code: int): (r: Option<string>)
    ensures r.Some? <==> 0 <= code <= 4
  {
    if code in MessageTypes then Some(MessageTypes[code]) else None
  }

  /** Distinct codes give distinct names, so the decoder can tell the types apart by name. */
  lemma NamesDistinct(c1: int, c2: int)
    requires c1 != c2
    ensures 0 <= c1 <= 4 && 0 <= c2 <= 4 ==> GetMessageType(c1) != GetMessageType(c2)
    ensures 0 <= c1 <= 5 && 0 <= c2 <= 5 ==> GetSatState(c1) != GetSatState(c2)
  {
  }

  /** parse_event_history writes bit i+1 of the byte under the i-th of these keys. */
  const EventHistoryKeys: seq<Key> := [
    ANTENNA_DEPLOYED, LION_1_CHARGED, LION_2_CHARGED, LIFEPO4_B1_CHARGED,
    LIFEPO4_B2_CHARGED, FIRST_FLASH, PROG_MEM_REWRITTEN]

  const EventHistoryKeySet: set<Key> := {
    ANTENNA_DEPLOYED, LION_1_CHARGED, LION_2_CHARGED, LIFEPO4_B1_CHARGED,
    LIFEPO4_B2_CHARGED, FIRST_FLASH, PROG_MEM_REWRITTEN}

  /** The dictionary after parse_event_history(eh, obj). */
  function WithEventHistory(obj: Fields, eh: nat): Fields
  {
    obj[ANTENNA_DEPLOYED := BoolVal(GetBit(eh, 1))]
       [LION_1_CHARGED := BoolVal(GetBit(eh, 2))]
       [LION_2_CHARGED := BoolVal(GetBit(eh, 3))]
       [LIFEPO4_B1_CHARGED := BoolVal(GetBit(eh, 4))]
       [LIFEPO4_B2_CHARGED := BoolVal(GetBit(eh, 5))]
       [FIRST_FLASH := BoolVal(GetBit(eh, 6))]
       [PROG_MEM_REWRITTEN := BoolVal(GetBit(eh, 7))]
  }

  /** parse_event_history adds exactly the seven event keys. */
  lemma EventHistoryKeysAdded(obj: Fields, eh: nat)
    ensures WithEventHistory(obj, eh).Keys == obj.Keys + EventHistoryKeySet
  {
  }

  /** Flag i of the event history is bit i + 1 of the byte (bit 0 is not reported). */
  lemma EventHistoryStored(obj: Fields, eh: nat)
    ensures var r := WithEventHistory(obj, eh);
      forall i :: 0 <= i < 7 ==> EventHistoryKeys[i] in r && r[EventHistoryKeys[i]] == BoolVal(GetBit(eh, i + 1))
  {
  }

  /** Every other entry of the caller's dictionary is left as it was. */
  lemma EventHistoryKeepsOthers(obj: Fields, eh: nat)
    ensures var r := WithEventHistory(obj, eh);
      forall k :: k in obj && k !in EventHistoryKeySet ==> k in r && r[k] == obj[k]
  {
  }

  /** parse_event_history: writes the seven event flags into the caller's dictionary. */
  method ParseEventHistory(eh: nat, obj: Dict)
    modifies obj
    ensures obj.fields == WithEventHistory(old(obj.fields), eh)
  {
    obj.fields := obj.fields[ANTENNA_DEPLOYED := BoolVal(GetBit(eh, 1))];
    obj.fields := obj.fields[LION_1_CHARGED := BoolVal(GetBit(eh, 2))];
    obj.fields := obj.fields[LION_2_CHARGED := BoolVal(GetBit(eh, 3))];
    obj.fields := obj.fields[LIFEPO4_B1_CHARGED := BoolVal(GetBit(eh, 4))];
    obj.fields := obj.fields[LIFEPO4_B2_CHARGED := BoolVal(GetBit(eh, 5))];
    obj.fields := obj.fields[FIRST_FLASH := BoolVal(GetBit(eh, 6))];
    obj.fields := obj.fields[PROG_MEM_REWRITTEN := BoolVal(GetBit(eh, 7))];
  }

  /** parse_dig_sigs writes bit i of the first byte under the i-th of these keys ... */
  const DigSigKeys1: seq<Key> := [
    L1_RUN_CHG, L2_RUN_CHG, LF_B1_RUN_CHG, LF_B2_RUN_CHG,
    LF_B2_CHGN, LF_B2_FAULTN, LF_B1_FAULTN, LF_B1_CHGN]

  const DigSigKeySet1: set<Key> := {
    L1_RUN_CHG, L2_RUN_CHG, LF_B1_RUN_CHG, LF_B2_RUN_CHG,
    LF_B2_CHGN, LF_B2_FAULTN, LF_B1_FAULTN, LF_B1_CHGN}

  /** ... and bit i of the second byte under the i-th of these. */
  const DigSigKeys2: seq<Key> := [
    L2_ST, L1_ST, L1_DISG, L2_DISG, L1_CHGN, L1_FAULTN, L2_CHGN, L2_FAULTN]

  const DigSigKeySet2: set<Key> := {
    L2_ST, L1_ST, L1_DISG, L2_DISG, L1_CHGN, L1_FAULTN, L2_CHGN, L2_FAULTN}

  /** The dictionary after parse_dig_sigs(b1, b2, obj): bits 0-3 of the first byte and bits 0-1
      of the second are stored as they are; the other ten signals are active low and stored
      negated. */
  function WithDigSigs(obj: Fields, b1: nat, b2: nat): Fields
  {
    WithSecondSigByte(WithFirstSigByte(obj, b1), b2)
  }

  /** The eight signals of parse_dig_sigs's first byte. */
  function WithFirstSigByte(obj: Fields, b1: nat): Fields
  {
    obj[L1_RUN_CHG := BoolVal(GetBit(b1, 0))]
       [L2_RUN_CHG := BoolVal(GetBit(b1, 1))]
       [LF_B1_RUN_CHG := BoolVal(GetBit(b1, 2))]
       [LF_B2_RUN_CHG := BoolVal(GetBit(b1, 3))]
       [LF_B2_CHGN := BoolVal(!GetBit(b1, 4))]
       [LF_B2_FAULTN := BoolVal(!GetBit(b1, 5))]
       [LF_B1_FAULTN := BoolVal(!GetBit(b1, 6))]
       [LF_B1_CHGN := BoolVal(!GetBit(b1, 7))]
  }

  /** The eight signals of parse_dig_sigs's second byte. */
  function WithSecondSigByte(obj: Fields, b2: nat): Fields
  {
    obj[L2_ST := BoolVal(GetBit(b2, 0))]
       [L1_ST := BoolVal(GetBit(b2, 1))]
       [L1_DISG := BoolVal(!GetBit(b2, 2))]
       [L2_DISG := BoolVal(!GetBit(b2, 3))]
       [L1_CHGN := BoolVal(!GetBit(b2, 4))]
       [L1_FAULTN := BoolVal(!GetBit(b2, 5))]
       [L2_CHGN := BoolVal(!GetBit(b2, 6))]
       [L2_FAULTN := BoolVal(!GetBit(b2, 7))]
  }

  /** parse_dig_sigs adds exactly the sixteen signal keys. */
  lemma DigSigKeysAdded(obj: Fields, b1: nat, b2: nat)
    ensures WithDigSigs(obj, b1, b2).Keys == obj.Keys + DigSigKeySet1 + DigSigKeySet2
  {
    var r1 := WithFirstSigByte(obj, b1);
    assert r1.Keys == obj.Keys + DigSigKeySet1;
    assert WithSecondSigByte(r1, b2).Keys == r1.Keys + DigSigKeySet2;
  }

  /** The first byte: signals 0-3 as they are, 4-7 negated. */
  lemma DigSigsFirstByte(obj: Fields, b1: nat, b2: nat)
    ensures var r := WithDigSigs(obj, b1, b2);
      forall i :: 0 <= i < 8 ==> DigSigKeys1[i] in r && r[DigSigKeys1[i]] == BoolVal(if i < 4 then GetBit(b1, i) else !GetBit(b1, i))
  {
  }

  /** The second byte: signals 0-1 as they are, 2-7 negated. */
  lemma DigSigsSecondByte(obj: Fields, b1: nat, b2: nat)
    ensures var r := WithDigSigs(obj, b1, b2);
      forall i :: 0 <= i < 8 ==> DigSigKeys2[i] in r && r[DigSigKeys2[i]] == BoolVal(if i < 2 then GetBit(b2, i) else !GetBit(b2, i))
  {
  }

  /** Every other entry of the caller's dictionary is left as it was. */
  lemma DigSigsKeepOthers(obj: Fields, b1: nat, b2: nat)
    ensures var r := WithDigSigs(obj, b1, b2);
      forall k :: k in obj && k !in DigSigKeySet1 && k !in DigSigKeySet2 ==> k in r && r[k] == obj[k]
  {
  }

  /** parse_dig_sigs: writes the sixteen battery signals into the caller's dictionary. */
  method ParseDigSigs(b1: nat, b2: nat, obj: Dict)
    modifies obj
    ensures obj.fields == WithDigSigs(old(obj.fields), b1, b2)
  {
    obj.fields := obj.fields[L1_RUN_CHG := BoolVal(GetBit(b1, 0))];
    obj.fields := obj.fields[L2_RUN_CHG := BoolVal(GetBit(b1, 1))];
    obj.fields := obj.fields[LF_B1_RUN_CHG := BoolVal(GetBit(b1, 2))];
    obj.fields := obj.fields[LF_B2_RUN_CHG := BoolVal(GetBit(b1, 3))];
    obj.fields := obj.fields[LF_B2_CHGN := BoolVal(!GetBit(b1, 4))];
    obj.fields := obj.fields[LF_B2_FAULTN := BoolVal(!GetBit(b1, 5))];
    obj.fields := obj.fields[LF_B1_FAULTN := BoolVal(!GetBit(b1, 6))];
    obj.fields := obj.fields[LF_B1_CHGN := BoolVal(!GetBit(b1, 7))];

    obj.fields := obj.fields[L2_ST := BoolVal(GetBit(b2, 0))];
    obj.fields := obj.fields[L1_ST := BoolVal(GetBit(b2, 1))];
    obj.fields := obj.fields[L1_DISG := BoolVal(!GetBit(b2, 2))];
    obj.fields := obj.fields[L2_DISG := BoolVal(!GetBit(b2, 3))];
    obj.fields := obj.fields[L1_CHGN := BoolVal(!GetBit(b2, 4))];
    obj.fields := obj.fields[L1_FAULTN := BoolVal(!GetBit(b2, 5))];
    obj.fields := obj.fields[L2_CHGN := BoolVal(!GetBit(b2, 6))];
    obj.fields := obj.fields[L2_FAULTN := BoolVal(!GetBit(b2, 7))];
  }

  /** The battery block at hex offset i, written the same way by parse_current_info (i = 30),
      parse_idle_data and parse_low_power_data (i = start + 2): eight readings, then the two
      digital-signal bytes at i + 16 and i + 18. */
  function WithBatteryBlock(obj: Fields, ps: string, i: nat, t: Table): Fields
    requires IsHexString(ps) && i + 20 <= |ps| && SlopesNonzero(t)
  {
    WithDigSigs(BatteryReadings(obj, ps, i, t), HexByteAt(ps, i + 16), HexByteAt(ps, i + 18))
  }

  /** The eight readings of the battery block at hex offset i. */
  function BatteryReadings(obj: Fields, ps: string, i: nat, t: Table): Fields
    requires IsHexString(ps) && i + 16 <= |ps| && SlopesNonzero(t)
  {
    obj[L1_REF := IntVal(Untruncate(HexByteAt(ps, i), LRef, t))]
       [L2_REF := IntVal(Untruncate(HexByteAt(ps, i + 2), LRef, t))]
       [L1_SNS := FloatVal(Converted(LSnsMvToMa, Untruncate(SignedByteAt(ps, i + 4), LSns, t)))]
       [L2_SNS := FloatVal(Converted(LSnsMvToMa, Untruncate(SignedByteAt(ps, i + 6), LSns, t)))]
       [L1_TEMP := FloatVal(Converted(Ad590MvToC, Untruncate(SignedByteAt(ps, i + 8), LTemp, t)))]
       [L2_TEMP := FloatVal(Converted(Ad590MvToC, Untruncate(SignedByteAt(ps, i + 10), LTemp, t)))]
       [PANELREF := IntVal(PanelRefReading(Untruncate(HexByteAt(ps, i + 12), PanelRef, t)))]
       [L_REF := IntVal(LRefReading(Untruncate(HexByteAt(ps, i + 14), LRef, t)))]
  }

  const BatteryKeySet: set<Key> := {L1_REF, L2_REF, L1_SNS, L2_SNS, L1_TEMP, L2_TEMP, PANELREF, L_REF}

  /** The battery block adds its eight readings and the sixteen digital signals. */
  lemma BatteryBlockKeys(obj: Fields, ps: string, i: nat, t: Table)
    requires IsHexString(ps) && i + 20 <= |ps| && SlopesNonzero(t)
    ensures WithBatteryBlock(obj, ps, i, t).Keys == obj.Keys + BatteryKeySet + DigSigKeySet1 + DigSigKeySet2
  {
    var readings := BatteryReadings(obj, ps, i, t);
    assert readings.Keys == obj.Keys + BatteryKeySet;
    DigSigKeysAdded(readings, HexByteAt(ps, i + 16), HexByteAt(ps, i + 18));
  }

  /** The battery block as the three decoders write it: eight readings, then parse_dig_sigs. */
  method ParseBatteryBlock(ps: string, i: nat, t: Table, obj: Dict)
    requires IsHexString(ps) && i + 20 <= |ps| && SlopesNonzero(t)
    modifies obj
    ensures obj.fields == WithBatteryBlock(old(obj.fields), ps, i, t)
  {
    obj.fields := obj.fields[L1_REF := IntVal(Untruncate(HexByteAt(ps, i), LRef, t))];
    obj.fields := obj.fields[L2_REF := IntVal(Untruncate(HexByteAt(ps, i + 2), LRef, t))];
    obj.fields := obj.fields[L1_SNS := FloatVal(Converted(LSnsMvToMa, Untruncate(SignedByteAt(ps, i + 4), LSns, t)))];
    obj.fields := obj.fields[L2_SNS := FloatVal(Converted(LSnsMvToMa, Untruncate(SignedByteAt(ps, i + 6), LSns, t)))];
    obj.fields := obj.fields[L1_TEMP := FloatVal(Converted(Ad590MvToC, Untruncate(SignedByteAt(ps, i + 8), LTemp, t)))];
    obj.fields := obj.fields[L2_TEMP := FloatVal(Converted(Ad590MvToC, Untruncate(SignedByteAt(ps, i + 10), LTemp, t)))];
    obj.fields := obj.fields[PANELREF := IntVal(PanelRefReading(Untruncate(HexByteAt(ps, i + 12), PanelRef, t)))];
    obj.fields := obj.fields[L_REF := IntVal(LRefReading(Untruncate(HexByteAt(ps, i + 14), LRef, t)))];
    var digSigs1 := HexByteAt(ps, i + 16);
    var digSigs2 := HexByteAt(ps, i + 18);
    ParseDigSigs(digSigs1, digSigs2, obj);
  }

  /** The battery block leaves every entry outside its twenty-four keys as it was. */
  lemma BatteryBlockKeepsOthers(obj: Fields, ps: string, i: nat, t: Table)
    requires IsHexString(ps) && i + 20 <= |ps| && SlopesNonzero(t)
    ensures var r := WithBatteryBlock(obj, ps, i, t);
      forall k :: k in obj && k !in BatteryKeySet && k !in DigSigKeySet1 && k !in DigSigKeySet2 ==>
        k in r && r[k] == obj[k]
  {
    var readings := BatteryReadings(obj, ps, i, t);
    assert forall k :: k in obj && k !in BatteryKeySet ==> k in readings && readings[k] == obj[k];
    DigSigsKeepOthers(readings, HexByteAt(ps, i + 16), HexByteAt(ps, i + 18));
  }
}

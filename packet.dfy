/** The top level of the decoder: the dispatch from a message type name to its data-section
    decoder, and the decoding of one whole packet. */
module Packet {
  import opened Wrappers
  import opened Hex
  import opened Calibration
  import opened Values
  import opened Common
  import opened Preamble
  import opened DataSection
  import opened FlashBurst
  import opened Errors

  /** PARSE_ERROR.WRONG_SIZE */
  const WrongSize: string := "wrong size packet"

  /** The two packet lengths the decoder accepts, in hex digits. */
  predicate RightSize(n: nat)
  {
    n == 510 || n == 446
  }

  /** Every data-section layout fits in a packet of n hex digits. */
  predicate LayoutsFit(t: Table, n: nat)
  {
    Fits(Idle, t, n) && Fits(Attitude, t, n) && Fits(FlashCmp, t, n) && Fits(LowPower, t, n)
      && BurstFits(t, n)
  }

  /** What fits in the shorter packet fits in the longer one. */
  lemma LayoutsFitLonger(t: Table, n: nat, m: nat)
    requires LayoutsFit(t, n) && n <= m
    ensures LayoutsFit(t, m)
  {
  }

  /** The fixed-stride layout a dispatch name selects, if any. */
  function LayoutOf(mt: string): Option<Layout>
  {
    if mt == "IDLE" then Some(Idle)
    else if mt == "ATTITUDE" then Some(Attitude)
    else if mt == "FLASH_CMP" then Some(FlashCmp)
    else if mt == "LOW_POWER" then Some(LowPower)
    else None
  }

  /** parse_data_section: the list of batch records of a fixed-stride layout, the flash-burst
      dictionary, or, for a name none of its branches tests, None. It knows the same five names
      as the error tables. */
  function DataSectionOf(mt: string, ps: string, t: Table): (v: Value)
    requires IsHexString(ps) && SlopesNonzero(t) && LayoutsFit(t, |ps|)
    ensures v.NoneVal? <==> mt !in ErrorTableTypes
    ensures LayoutOf(mt).Some? ==> v == DictList(Batches(LayoutOf(mt).value, ps, t))
    ensures LayoutOf(mt).Some? ==> |v.items| == BatchCount(LayoutOf(mt).value, t)
    ensures mt == "FLASH_BURST" ==> v == DictVal(FlashBurstData(ps, t))
  {
    if mt == "IDLE" then DictList(Batches(Idle, ps, t))
    else if mt == "ATTITUDE" then DictList(Batches(Attitude, ps, t))
    else if mt == "FLASH_BURST" then DictVal(FlashBurstData(ps, t))
    else if mt == "FLASH_CMP" then DictList(Batches(FlashCmp, ps, t))
    else if mt == "LOW_POWER" then DictList(Batches(LowPower, ps, t))
    else NoneVal
  }

  method ParseDataSection(mt: string, ps: string, t: Table) returns (v: Value)
    requires IsHexString(ps) && SlopesNonzero(t) && LayoutsFit(t, |ps|)
    ensures v == DataSectionOf(mt, ps, t)
  {
    if mt == "IDLE" {
      var records := ParseBatches(Idle, ps, t);
      v := DictList(records);
    } else if mt == "ATTITUDE" {
      var records := ParseBatches(Attitude, ps, t);
      v := DictList(records);
    } else if mt == "FLASH_BURST" {
      var d := ParseFlashBurstData(ps, t);
      v := DictVal(d);
    } else if mt == "FLASH_CMP" {
      var records := ParseBatches(FlashCmp, ps, t);
      v := DictList(records);
    } else if mt == "LOW_POWER" {
      var records := ParseBatches(LowPower, ps, t);
      v := DictList(records);
    } else {
      v := NoneVal;
    }
  }

  /** The packet dictionary of a decoded packet. */
  function PacketFields(pre: Fields, info: Fields, d: Value, errs: seq<Fields>): Fields
  {
    map[preamble := DictVal(pre), current_info := DictVal(info), data := d, errors := DictList(errs)]
  }

  /** parse_packet: a packet of the wrong length gives `({}, WRONG_SIZE)`; otherwise the preamble,
      the current-info block, the data section and the error list. The message type and timestamp
      passed on are the ones read back out of the decoded preamble. An exception from
      parse_preamble or parse_errors propagates. */
  function Decode(ps: string, t: Table): PyResult<(Fields, Option<string>)>
    requires (RightSize(|ps|) ==> IsHexString(ps)) && SlopesNonzero(t) && LayoutsFit(t, 446)
  {
    if !RightSize(|ps|) then Ok((map[], Some(WrongSize)))
    else
      LayoutsFitLonger(t, 446, |ps|);
      match ParsePreamble(ps)
      case Raise(e) => Raise(e)
      case Ok(pre) =>
        PreambleStates(ps);
        PreambleCounters(ps);
        var mt, ts := pre[message_type].s, pre[timestamp].i;
        ErrorTableEnds(mt);
        match ErrorList(ps, mt, ts, t)
        case Raise(e) => Raise(e)
        case Ok(errs) => Ok((PacketFields(pre, CurrentInfo(ps, t), DataSectionOf(mt, ps, t), errs), None))
  }

  /** Where a known error table ends, it ends inside the shorter packet. */
  lemma ErrorTableEnds(mt: string)
    ensures mt in ErrorTableTypes ==> ErrorSectionEnd(mt) <= 446
  {
    if mt in ErrorTableTypes {
      ErrorSectionsFit(mt);
    }
  }

  method ParsePacket(ps: string, t: Table) returns (r: PyResult<(Fields, Option<string>)>)
    requires (RightSize(|ps|) ==> IsHexString(ps)) && SlopesNonzero(t) && LayoutsFit(t, 446)
    ensures r == Decode(ps, t)
  {
    if |ps| != 510 && |ps| != 446 {
      return Ok((map[], Some(WrongSize)));
    }
    var pre := ParsePreamble(ps);
    if pre.Raise? {
      return Raise(pre.error);
    }
    var info := ParseCurrentInfo(ps, t);
    PreambleStates(ps);
    PreambleCounters(ps);
    var mt := pre.value[message_type].s;
    var d := ParseDataSection(mt, ps, t);
    ErrorTableEnds(mt);
    var errs := ParseErrors(ps, mt, pre.value[timestamp].i, t);
    if errs.Raise? {
      return Raise(errs.error);
    }
    r := Ok((PacketFields(pre.value, info, d, errs.value), None));
  }

  /** The length guard, both ways: exactly the packets of a wrong length yield the WRONG_SIZE
      diagnostic, and with an empty packet; a packet of the right length never yields it. */
  lemma LengthGuard(ps: string, t: Table)
    requires (RightSize(|ps|) ==> IsHexString(ps)) && SlopesNonzero(t) && LayoutsFit(t, 446)
    ensures !RightSize(|ps|) ==> Decode(ps, t) == Ok((map[], Some(WrongSize)))
    ensures RightSize(|ps|) && Decode(ps, t).Ok? ==> Decode(ps, t).value.1 == None
  {
  }

  /** Of the names get_message_type produces, only "IDLE" and "ATTITUDE" are names the dispatch
      and the error tables test for; the other three are written with a space. */
  lemma MessageTypeNamesDispatch(code: int)
    requires 0 <= code <= 4
    ensures MessageTypes[code] in ErrorTableTypes <==> code <= 1
  {
  }

  /** Which right-size packets decode: the flag byte at hex offset 20 must carry the message type
      code 0 or 1 and a valid satellite state. A bad code raises KeyError in the preamble; a
      valid type code of 2, 3 or 4 raises TypeError in parse_errors. */
  lemma DecodeOutcome(ps: string, t: Table)
    requires IsHexString(ps) && SlopesNonzero(t) && LayoutsFit(t, 446) && RightSize(|ps|)
    ensures var b := HexByteAt(ps, 20);
      && (Decode(ps, t).Ok? <==> b % 8 <= 1 && (b / 8) % 8 <= 5)
      && (b % 8 > 4 || (b / 8) % 8 > 5 ==> Decode(ps, t) == Raise(KeyError))
      && (2 <= b % 8 <= 4 && (b / 8) % 8 <= 5 ==> Decode(ps, t) == Raise(TypeError))
  {
    var b := HexByteAt(ps, 20);
    if ParsePreamble(ps).Ok? {
      PreambleStates(ps);
      MessageTypeNamesDispatch(b % 8);
    }
  }

  /** A decoded packet is the packet dictionary of the preamble, the current-info block, and the
      data section and error list of the preamble's message type and timestamp. */
  lemma DecodedFields(ps: string, t: Table)
    requires IsHexString(ps) && SlopesNonzero(t) && LayoutsFit(t, 446) && RightSize(|ps|)
    requires Decode(ps, t).Ok?
    ensures ParsePreamble(ps).Ok? && HexByteAt(ps, 20) % 8 <= 1
    ensures var mt, ts := MessageTypes[HexByteAt(ps, 20) % 8], HexToIntLe(ps[12..20]).value;
      && mt in ErrorTableTypes && ErrorList(ps, mt, ts, t).Ok?
      && Decode(ps, t).value.0 ==
           PacketFields(ParsePreamble(ps).value, CurrentInfo(ps, t), DataSectionOf(mt, ps, t), ErrorList(ps, mt, ts, t).value)
  {
    DecodeOutcome(ps, t);
    PreambleStates(ps);
    PreambleCounters(ps);
  }

  /** A decoded packet of type code 0 holds the decoded preamble and current-info block, the
      idle batch records and the idle error list, read with the preamble's timestamp. */
  lemma DecodedIdlePacket(ps: string, t: Table)
    requires IsHexString(ps) && SlopesNonzero(t) && LayoutsFit(t, 446) && RightSize(|ps|)
    requires Decode(ps, t).Ok? && HexByteAt(ps, 20) % 8 == 0
    ensures ParsePreamble(ps).Ok?
    ensures Decode(ps, t).value.0 ==
      PacketFields(ParsePreamble(ps).value, CurrentInfo(ps, t), DictList(Batches(Idle, ps, t)),
                   ErrorList(ps, "IDLE", HexToIntLe(ps[12..20]).value, t).value)
  {
    DecodedFields(ps, t);
    assert MessageTypes[0] == "IDLE";
  }

  /** A decoded packet of type code 1 holds the decoded preamble and current-info block, the
      attitude batch records and the attitude error list, read with the preamble's timestamp. */
  lemma DecodedAttitudePacket(ps: string, t: Table)
    requires IsHexString(ps) && SlopesNonzero(t) && LayoutsFit(t, 446) && RightSize(|ps|)
    requires Decode(ps, t).Ok? && HexByteAt(ps, 20) % 8 == 1
    ensures ParsePreamble(ps).Ok?
    ensures Decode(ps, t).value.0 ==
      PacketFields(ParsePreamble(ps).value, CurrentInfo(ps, t), DictList(Batches(Attitude, ps, t)),
                   ErrorList(ps, "ATTITUDE", HexToIntLe(ps[12..20]).value, t).value)
  {
    DecodedFields(ps, t);
    assert MessageTypes[1] == "ATTITUDE";
  }

  // ---------------------------------------------------------------------------------------
  // The dispatch with the names get_message_type produces

  /** A message type name with every space written as an underscore: the spelling the data
      section dispatch and the error tables test for. */
  function Underscored(name: string): string
  {
    seq(|name|, k requires 0 <= k < |name| => if name[k] == ' ' then '_' else name[k])
  }

  /** Every name get_message_type produces, once underscored, is one the dispatch knows, and
      distinct codes still give distinct dispatch names. */
  lemma UnderscoredTypes(code: int)
    requires 0 <= code <= 4
    ensures Underscored(MessageTypes[code]) in ErrorTableTypes
    ensures Underscored(MessageTypes[code]) == ["IDLE", "ATTITUDE", "FLASH_BURST", "FLASH_CMP", "LOW_POWER"][code]
  {
    var names := ["IDLE", "ATTITUDE", "FLASH_BURST", "FLASH_CMP", "LOW_POWER"];
    assert Underscored(MessageTypes[code]) == names[code];
  }

  /** parse_packet with the preamble's message type underscored before it selects the data
      section decoder and the error table. */
  function DecodeFixed(ps: string, t: Table): PyResult<(Fields, Option<string>)>
    requires (RightSize(|ps|) ==> IsHexString(ps)) && SlopesNonzero(t) && LayoutsFit(t, 446)
  {
    if !RightSize(|ps|) then Ok((map[], Some(WrongSize)))
    else
      LayoutsFitLonger(t, 446, |ps|);
      match ParsePreamble(ps)
      case Raise(e) => Raise(e)
      case Ok(pre) =>
        PreambleStates(ps);
        PreambleCounters(ps);
        var mt, ts := Underscored(pre[message_type].s), pre[timestamp].i;
        ErrorTableEnds(mt);
        match ErrorList(ps, mt, ts, t)
        case Raise(e) => Raise(e)
        case Ok(errs) => Ok((PacketFields(pre, CurrentInfo(ps, t), DataSectionOf(mt, ps, t), errs), None))
  }

  /** With the names underscored, every right-size packet whose preamble decodes decodes as a
      whole, with the data section of its message type: a flash-burst packet (type code 2)
      carries the flash-burst dictionary. */
  lemma DecodeFixedOutcome(ps: string, t: Table)
    requires IsHexString(ps) && SlopesNonzero(t) && LayoutsFit(t, 446) && RightSize(|ps|)
    ensures var b := HexByteAt(ps, 20);
      && (DecodeFixed(ps, t).Ok? <==> b % 8 <= 4 && (b / 8) % 8 <= 5)
      && (DecodeFixed(ps, t).Raise? ==> DecodeFixed(ps, t).error == KeyError)
      && (DecodeFixed(ps, t).Ok? ==> DecodeFixed(ps, t).value.1 == None)
      && (DecodeFixed(ps, t).Ok? && b % 8 == 2 ==>
            DecodeFixed(ps, t).value.0[data] == DictVal(FlashBurstData(ps, t)))
  {
    if ParsePreamble(ps).Ok? {
      PreambleStates(ps);
      UnderscoredTypes(HexByteAt(ps, 20) % 8);
    }
  }
}

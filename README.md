# EQUiSat packet decoder, modelled in Dafny

This project models `packetparse.py`, the ground-station decoder for EQUiSat telemetry
packets. A packet is a string of 510 or 446 hex digits. The decoder splits it into:

- a **preamble**: callsign, little-endian timestamp, a flag byte holding the message type,
  the satellite state and two flags, and two counters;
- a **current-info** block: battery readings, sixteen digital signals and four LiFePO4
  references;
- a **data section**, whose layout depends on the message type:
  - idle, attitude, flash-compare and low-power batches, each read at a fixed stride;
  - or the flash burst, written pass by pass;
- an **error section**: three-byte entries holding an error code, a priority bit, a location
  and a timestamp counted in buckets before the packet timestamp.

The model follows the decoder's own structure, one module per part:

| module | contents |
|---|---|
| `Wrappers` | `Option`, and `PyResult`: a value, or a raised `KeyError`, `TypeError` or `struct.error` |
| `Bits` | `<<`, `>>` and `&` on non-negative integers, and `get_bit` |
| `Hex` | hex digits, `int(s, 16)`, `unhexlify`, `hex_to_int_le` (little-endian two's-complement word), `int_to_hex`, `hex_string_byte_to_signed_int` |
| `Calibration` | the constants the decoder imports, as one `Table` value; `untruncate` with Python 2's flooring `/`; the floating-point conversions as symbolic terms |
| `Values` | Python values: dictionaries (`map<Key, Value>`), lists, integers, booleans, strings, floats; a `Dict` class for dictionaries a callee fills in place |
| `Common` | `get_sat_state` and `get_message_type`; `parse_event_history` and `parse_dig_sigs`, which write into the caller's dictionary; the battery block of three decoders |
| `Preamble` | `parse_preamble` and `parse_current_info` |
| `DataSection` | the four fixed-stride batch decoders, each a loop advancing a cursor, proved against a list-valued specification |
| `FlashBurst` | `parse_flash_burst_data`: six passes over an array of entries |
| `Errors` | `getErrorStartByte`, `getNumErrorsInPacket`, `convert_error_timestamp` and `parse_errors` |
| `Packet` | `parse_data_section`, `parse_packet`, and the corrected dispatch described under Findings |

Code that works step by step is modelled as methods:

- the batch loops;
- the flash-burst passes;
- the error loop;
- the in-place dictionary writers.

Each method is proved equal to a specification function, and the properties are proved as
lemmas about those functions. The lookups, bit tests and conversions are functions.

Python exceptions are values. A missing dictionary key, an unpack of the wrong width and
`range(0, None)` each become `PyResult.Raise`, and raises propagate the way they do in the
decoder. The decoder really raises in these cases. It does not record soft diagnostics with
INVALID markers, and it does not return -1 for every malformed field. The model follows the
code:

- an unknown message-type or satellite-state code raises `KeyError`;
- a message type without an error table raises `TypeError`;
- only `hex_to_int_le`'s odd-length or non-hex path returns -1.

## Model

| member | source | states |
|---|---|---|
| Bits.And | packetparse.py:19 | `a & b` never exceeds either operand |
| Bits.GetBitIsMaskTest | packetparse.py:18-19 | GetBit, get_bit's mask test `byte & (1<<i) > 0`, holds exactly when bit i of the byte is set, i.e. when `(b / 2^i) % 2 == 1` |
| Bits.BitField | packetparse.py:91-92 | a field of w bits is below 2^w |
| Bits.BitFieldIsMask | packetparse.py:91-92 | `(b >> s) & (2^w - 1)` extracts bits s..s+w-1 of b |
| Bits.AndLowMask | packetparse.py:91-92 | masking with 2^k - 1 is the remainder modulo 2^k |
| Bits.AndPow2 | packetparse.py:18-19 | `a & 2^i` is non-zero exactly when bit i of a is set |
| Bits.TopBitsOfByte | packetparse.py:94-95 | of a byte, bit 6 is the parity of b / 64 and bit 7 is set exactly when b >= 128 |
| Bits.TwoBitField | packetparse.py:148-153 | `(b >> s) & 0x03` is a two-bit field in 0..3 |
| Hex.DigitValue | packetparse.py:90 | a hex digit's value is below 16 |
| Hex.LowerDigit | packetparse.py:28 | the lower-case digit written for d is a hex digit whose value is d |
| Hex.HexValueBound | packetparse.py:90 | HexValue, `int(s, 16)` on hex digits, gives a number below 16^k for k digits |
| Hex.HexValueConcat | packetparse.py:34 | the value of s + t is value(s) * 16^len(t) + value(t) |
| Hex.HexByteAtDigits | packetparse.py:90 | HexByteAt, `int(ps[i:i+2], 16)`, is 16 times the first digit plus the second |
| Hex.HexByteAtSlice | packetparse.py:138-176 | reading a byte at offset j of a window reads the packet at window start + j |
| Hex.Unhexlify | packetparse.py:23 | unhexlify halves the number of digits |
| Hex.HexPair | packetparse.py:23 | the two-digit form of a byte reads back as that byte |
| Hex.HexToIntLe | packetparse.py:21-25 | odd length or a non-hex digit gives -1; an even-length hex string of other than 8 digits raises struct.error; 8 hex digits give a value in [-2^31, 2^31) |
| Hex.HexToIntLeIsSwappedHex | packetparse.py:21-25 | on 8 digits the result agrees, modulo 2^32, with the digit pairs read in reverse order as one number |
| Hex.LittleEndianIsSwapped | packetparse.py:21-25 | reading the digit pairs in reverse order assembles the bytes least significant first |
| Hex.EncodeLe32 | packetparse.py:21-25 | the encoding of a 32-bit value is 8 hex digits |
| Hex.LeRoundTrip | packetparse.py:21-25 | hex_to_int_le decodes the little-endian encoding of every signed 32-bit value back to that value |
| Hex.EncodeLe32Bytes | packetparse.py:23 | unhexlifying the encoding gives back its four bytes |
| Hex.Int32OfBytes | packetparse.py:23 | the four bytes of v mod 2^32, reassembled and read as two's complement, give v back |
| Hex.HexToIntLeOfBytes | packetparse.py:21-25 | on 8 digits, hex_to_int_le is the two's-complement value of the bytes read least significant first; the step Hex.LeRoundTrip is proved from |
| Hex.Le32AtIsHexToIntLe | packetparse.py:88 | the word at an offset is hex_to_int_le of its 8 digits, a signed 32-bit value |
| Hex.Le16PaddedAtIsHexToIntLe | packetparse.py:138-143 | 4 digits padded with `'0000'` give an unsigned 16-bit value in [0, 65535] |
| Hex.Le16PaddedAtBytes | packetparse.py:138-143 | that value is the first byte plus 256 times the second |
| Hex.HexByteToSignedInt | packetparse.py:33-34 | `int(byte + '000000', 16) >> 24` equals the value of the hex digits; on two digits it is in 0..255 |
| Hex.ShiftUndoesPadding | packetparse.py:34 | shifting right by 24 undoes the six zero digits appended |
| Hex.SignedByteAt | packetparse.py:115-118 | the signed-byte reading at an offset is `int(ps[i:i+2], 16)` |
| Hex.HexDigits | packetparse.py:27-28 | the digits of n are lower-case hex digits, read back as n, with no leading zero |
| Hex.HexValuePositive | packetparse.py:27-28 | a digit string that does not start with 0 is worth at least 1 |
| Hex.HexDigitsUnique | packetparse.py:27-28 | any lower-case digit string without a leading zero is exactly the digits HexDigits writes for its value, so `hex(n)` is fixed character by character |
| Hex.IntToHex | packetparse.py:27-28 | `hex(v)[2:]`: for v >= 0 the lower-case digits of v with no leading zero; for v < 0 an 'x' and the lower-case digits of -v, the first of them not 0 |
| Calibration.FloorDivBounds | packetparse.py:16 | Python 2 `/` rounds toward minus infinity for either sign of the divisor |
| Calibration.FloorDivUnique | packetparse.py:16 | the floor quotient is the only q with q*d within one divisor of a, on a's side |
| Calibration.Untruncate | packetparse.py:14-16 | `m * (untruncate(v) + b)` lies within one slope of `v << 8`, below it for a positive slope and above it for a negative one, so the result is the floor of `((v << 8) - b*m) / m` |
| Calibration.PanelRefReading | packetparse.py:119 | the PANELREF reading r is the floor of `(v - 130) * 5580 / 1000`: `1000r <= (v-130)*5580 < 1000r + 1000` |
| Calibration.LRefReading | packetparse.py:120 | the L_REF reading r is the floor of `(v - 50) * 2717 / 1000` |
| Calibration.RadTempReading | packetparse.py:203 | the RAD_TEMP reading r is the floor of `v / 10` |
| Calibration.UntruncateSubtractFirst | packetparse.py:14-16 | with integer coefficients, subtracting the intercept before dividing gives the same value |
| Common.GetSatState | packetparse.py:58-66 | the lookup succeeds exactly for codes 0..5 |
| Common.GetMessageType | packetparse.py:68-75 | the lookup succeeds exactly for codes 0..4 |
| Common.NamesDistinct | packetparse.py:58-75 | distinct codes give distinct names, so a name identifies its code |
| Common.EventHistoryKeysAdded | packetparse.py:349-356 | parse_event_history adds exactly its seven keys |
| Common.EventHistoryStored | packetparse.py:349-356 | flag i is bit i + 1 of the byte |
| Common.EventHistoryKeepsOthers | packetparse.py:349-356 | every other entry of the caller's dictionary is unchanged |
| Common.ParseEventHistory | packetparse.py:349-356 | the caller's dictionary becomes its old contents with the seven flags written |
| Common.DigSigKeysAdded | packetparse.py:359-377 | parse_dig_sigs adds exactly its sixteen keys |
| Common.DigSigsFirstByte | packetparse.py:361-368 | first byte: signals 0-3 are their bits, signals 4-7 the negated bits |
| Common.DigSigsSecondByte | packetparse.py:370-377 | second byte: signals 0-1 are their bits, signals 2-7 the negated bits |
| Common.DigSigsKeepOthers | packetparse.py:359-377 | every other entry of the caller's dictionary is unchanged |
| Common.ParseDigSigs | packetparse.py:359-377 | the caller's dictionary becomes its old contents with the sixteen signals written |
| Common.BatteryBlockKeys | packetparse.py:190-201 | the battery block adds its eight readings and the sixteen signals |
| Common.ParseBatteryBlock | packetparse.py:190-201 | the dictionary becomes its old contents with the battery block written |
| Common.BatteryBlockKeepsOthers | packetparse.py:190-201 | entries outside the block's twenty-four keys are unchanged |
| Preamble.MessageTypeCode | packetparse.py:91 | the code is the mask `b & 0x07`, which is b mod 8 and below 8 |
| Preamble.SatStateCode | packetparse.py:92 | the code is the shift-and-mask `(b >> 3) & 0x07`, which is (b / 8) mod 8 and below 8 |
| Preamble.Callsign | packetparse.py:87 | six characters, character k being the byte at hex offset 2k |
| Preamble.ParsePreamble | packetparse.py:85-107 | succeeds exactly when the flag byte's message-type code is at most 4 and its state code at most 5; otherwise KeyError |
| Preamble.PreambleKeys | packetparse.py:85-107 | a decoded preamble holds exactly its eight keys |
| Preamble.PreambleStates | packetparse.py:90-92 | message_type and satellite_state are the table entries of the flag byte's low three bits and bits 3-5 |
| Preamble.PreambleFlagBits | packetparse.py:94-95 | FLASH_KILLED is bit 6 and MRAM_CPY bit 7 of the flag byte |
| Preamble.PreambleCounters | packetparse.py:88-105 | the timestamp is the little-endian word at hex 12; the data and error counts are the bytes at 22 and 24 |
| Preamble.ParseCurrentInfo | packetparse.py:109-131 | returns the current-info dictionary of the packet |
| Preamble.CurrentInfoKeys | packetparse.py:109-131 | the block holds exactly its counters, battery readings, signals and four references |
| DataSection.IrObjectFields | packetparse.py:138-143 | the six IR object readings are hex_to_int_le of successive 4-digit groups padded with `'0000'` |
| DataSection.ParseIrObjects | packetparse.py:138-143 | writes those six readings into the record |
| DataSection.StampFields | packetparse.py:175-176 | timestamp is the window's last eight digits read little-endian; data_hash is the window |
| DataSection.ParseLedTemps | packetparse.py:274-277 | writes the four LED temperatures |
| DataSection.ParseLfTemps | packetparse.py:278-279 | writes the two LiFePO4 temperatures |
| DataSection.ParseLfbSense | packetparse.py:281-284 | writes the four LiFePO4 sense currents |
| DataSection.ParseLfRefs | packetparse.py:286-289 | writes the four LiFePO4 references |
| DataSection.ParseLedSense | packetparse.py:291-294 | writes the four LED currents |
| DataSection.ParsePhotodiodes | packetparse.py:145-153 | writes the six photodiode fields |
| DataSection.PhotodiodeMasks | packetparse.py:148-153 | each photodiode field is its shift-and-mask of pd_1 or pd_2 |
| DataSection.PhotodiodeRange | packetparse.py:148-153 | every photodiode reading the photodiode block writes is in 0..3 |
| DataSection.ParseAxes | packetparse.py:155-173 | writes one three-axis sensor read in X, Z, Y order, X and Z negated |
| DataSection.ParseInertial | packetparse.py:155-173 | writes the two accelerometers, the gyroscope and the two magnetometers |
| DataSection.ParseIdleSensors | packetparse.py:203-211 | writes the radio and IMU temperatures and the six IR ambient readings |
| DataSection.BatchInPacket | packetparse.py:136-179 | batch i of a layout that fits ends inside the packet |
| DataSection.Window | packetparse.py:176 | every batch window is exactly one stride long |
| DataSection.RecordStamp | packetparse.py:133-346 | every record's timestamp is its window's last eight digits, and its data_hash is the window |
| DataSection.WindowSlices | packetparse.py:135-179 | window i is `ps[S+i*k : S+(i+1)*k]` for stride k |
| DataSection.BatchStamp | packetparse.py:133-346 | batch i's data_hash is window i, and its timestamp is that window's last eight digits |
| DataSection.ParseStamp | packetparse.py:175-176 | writes the timestamp and data_hash |
| DataSection.ParseIdleBatch | packetparse.py:186-214 | builds the idle record of a 46-digit window |
| DataSection.IdleRecordKeys | packetparse.py:186-214 | an idle record holds exactly the event-history flags, the battery block, both digital-signal groups, the eight idle readings, timestamp and data_hash |
| DataSection.ParseAttitudeBatch | packetparse.py:137-176 | builds the attitude record of a 66-digit window |
| DataSection.AttitudeRecordKeys | packetparse.py:137-176 | an attitude record holds exactly the six IR object readings, the six photodiodes, the fifteen inertial axes, timestamp and data_hash |
| DataSection.AttitudeRecordPhotodiodes | packetparse.py:145-176 | in a finished attitude record each photodiode is still its shift-and-mask of the bytes at 24 and 26: the inertial block and the stamp written after it leave it alone |
| DataSection.AttitudeRecordPhotodiodeRange | packetparse.py:145-176 | every photodiode reading of a finished attitude record is in 0..3 |
| DataSection.AttitudeBatchPhotodiodes | packetparse.py:133-179 | every photodiode reading of every batch parse_attitude_data returns is in 0..3 |
| DataSection.InertialKeepsOthers | packetparse.py:155-173 | the inertial block changes no entry outside its fifteen keys |
| DataSection.ParseFlashCmpBatch | packetparse.py:273-302 | builds the flash-compare record of a 50-digit window |
| DataSection.FlashCmpRecordKeys | packetparse.py:273-302 | a flash-compare record holds exactly the eighteen flash readings, timestamp and data_hash; the magnetometer it reads is not stored |
| DataSection.ParseLowPowerBatch | packetparse.py:311-342 | builds the low-power record of a 60-digit window |
| DataSection.LowPowerRecordKeys | packetparse.py:311-342 | a low-power record holds exactly the event-history flags, the battery block, both digital-signal groups, the six IR object readings, the gyroscope dictionary, timestamp and data_hash |
| DataSection.ParseBatch | packetparse.py:136-179 | one loop iteration builds the record of its layout |
| DataSection.BatchesExtend | packetparse.py:178 | appending record i to the first i records gives the first i + 1 |
| DataSection.ParseBatches | packetparse.py:133-346 | returns exactly the batch count of records, record i read from `[S+i*k, S+(i+1)*k)` with k = 66, 46, 50 or 60 |
| FlashBurst.PassesChain | packetparse.py:225-266 | each pass ends where the next begins, and the last ends where the timestamp begins |
| FlashBurst.PassInRegion | packetparse.py:225-264 | every read of every pass lies in `[S, S+42n)` |
| FlashBurst.PassesDisjoint | packetparse.py:225-264 | no two reads of distinct entries or passes overlap |
| FlashBurst.StageKeys | packetparse.py:225-264 | after k passes an entry holds exactly the keys those passes write |
| FlashBurst.BurstEntryKeys | packetparse.py:226-263 | a finished entry holds exactly its nineteen keys, with no timestamp or data_hash |
| FlashBurst.AllPassKeys | packetparse.py:225-264 | the six passes together write the nineteen keys of a burst entry |
| FlashBurst.FlashBurstShape | packetparse.py:220-267 | the result holds data_hash, burst and timestamp; burst has n entries; the timestamp is read at S + 42n; data_hash is the 302 digits at S |
| FlashBurst.LedTempsStep | packetparse.py:225-230 | pass 1 writes the LED temperatures at stride 8; FlashBurst.LedTempsPass hands it to the loop invariant of FlashBurst.RunPass |
| FlashBurst.LfTempsStep | packetparse.py:232-235 | pass 2 writes the LiFePO4 temperatures at stride 4; FlashBurst.LfTempsPass hands it to the loop invariant of FlashBurst.RunPass |
| FlashBurst.LfbSenseStep | packetparse.py:237-242 | pass 3 writes the sense currents at stride 8; FlashBurst.LfbSensePass hands it to the loop invariant of FlashBurst.RunPass |
| FlashBurst.LfRefsStep | packetparse.py:244-249 | pass 4 writes the references at stride 8; FlashBurst.LfRefsPass hands it to the loop invariant of FlashBurst.RunPass |
| FlashBurst.LedSenseStep | packetparse.py:251-256 | pass 5 writes the LED currents at stride 8; FlashBurst.LedSensePass hands it to the loop invariant of FlashBurst.RunPass |
| FlashBurst.GyroscopeStep | packetparse.py:258-264 | pass 6 adds the gyroscope dictionary at stride 6; FlashBurst.GyroscopePass hands it to the loop invariant of FlashBurst.RunPass |
| FlashBurst.RunPass | packetparse.py:225-264 | a pass updates every entry and leaves the cursor after its last read |
| FlashBurst.LedTempsPass | packetparse.py:225-230 | after pass 1 every entry is at stage 1 |
| FlashBurst.LfTempsPass | packetparse.py:232-235 | after pass 2 every entry is at stage 2 |
| FlashBurst.LfbSensePass | packetparse.py:237-242 | after pass 3 every entry is at stage 3 |
| FlashBurst.LfRefsPass | packetparse.py:244-249 | after pass 4 every entry is at stage 4 |
| FlashBurst.LedSensePass | packetparse.py:251-256 | after pass 5 every entry is at stage 5 |
| FlashBurst.GyroscopePass | packetparse.py:258-264 | after pass 6 every entry is finished |
| FlashBurst.RunPasses | packetparse.py:225-264 | after the six passes every entry is finished and the cursor stands at the timestamp, S + 42n |
| FlashBurst.ParseFlashBurstData | packetparse.py:220-267 | returns the flash-burst dictionary of the packet |
| Errors.ErrorStartByte | packetparse.py:379-389 | an offset exists exactly for the five underscored type names |
| Errors.NumErrorsInPacket | packetparse.py:391-401 | a count exists exactly for the five underscored type names |
| Errors.ErrorSectionsFit | packetparse.py:379-401 | every error table ends within 446 digits, and exactly at 446 for IDLE |
| Errors.ConvertErrorTimestamp | packetparse.py:403-405 | with a positive bucket size and a non-negative count, the error timestamp lies a whole number of buckets before the packet's, that number being the recorded count |
| Errors.CodeByteSplit | packetparse.py:413-414 | `raw & 0x7F` is raw mod 128, bit 7 is raw >= 128, and raw is their sum |
| Errors.ErrorCodeSplit | packetparse.py:413-414 | error_code is `raw & 0x7F`, in 0..127; priority_bit is `get_bit(raw, 7)`; raw = error_code + 128 * priority |
| Errors.ErrorEntry | packetparse.py:412-420 | an error entry holds exactly its seven keys; error_code is in 0..127; the location is the byte at offset 2; the timestamp is the converted bucket count of the byte at offset 4; both names come from the code tables |
| Errors.ErrorDataHash | packetparse.py:420 | data_hash is the entry's first four digits, then the timestamp in lower-case hex without leading zeros, or an 'x' and the magnitude, whose first digit is not 0, when negative |
| Errors.EntriesFrom | packetparse.py:411-422 | there are exactly count entries |
| Errors.ErrorList | packetparse.py:407-423 | raises TypeError exactly when the type name has no table; otherwise exactly getNumErrorsInPacket entries |
| Errors.ErrorAt | packetparse.py:409-422 | entry k is read from the 6 digits at the start offset + 6k, inside the table |
| Errors.CollectErrors | packetparse.py:411-422 | the loop returns the entries read at start, start + 6, ... |
| Errors.ParseErrors | packetparse.py:407-423 | returns the error list of the packet, or raises TypeError |
| Packet.DataSectionOf | packetparse.py:425-435 | None exactly for a name outside the five; the batch list (one record per batch) for the four layouts; the flash-burst dictionary for FLASH_BURST |
| Packet.ParseDataSection | packetparse.py:425-435 | returns the data section of the message type |
| Packet.ErrorTableEnds | packetparse.py:379-401 | every error table fits in the shorter packet |
| Packet.ParsePacket | packetparse.py:438-450 | returns the decoded packet, or the raised error |
| Packet.LengthGuard | packetparse.py:440-450 | a length other than 510 or 446 gives exactly `({}, "wrong size packet")`; otherwise a decoded packet carries no error |
| Packet.MessageTypeNamesDispatch | packetparse.py:425-435 | of the names get_message_type returns, only the codes 0 and 1 match a dispatch name |
| Packet.DecodeOutcome | packetparse.py:438-450 | a right-size packet decodes exactly when its type code is 0 or 1 and its state code at most 5; codes above range raise KeyError; codes 2-4 raise TypeError |
| Packet.DecodedFields | packetparse.py:443-450 | a decoded packet is preamble, current info, data section and error list of its message type and timestamp |
| Packet.DecodedIdlePacket | packetparse.py:443-450 | an idle packet's data is its idle batch list, and its errors the IDLE table |
| Packet.DecodedAttitudePacket | packetparse.py:443-450 | an attitude packet's data is its attitude batch list, and its errors the ATTITUDE table |
| Packet.UnderscoredTypes | packetparse.py:379-401 | with spaces replaced by underscores, every message-type name is the name the tables expect |
| Packet.DecodeFixedOutcome | packetparse.py:438-450 | the corrected decoder succeeds for every type code 0-4 with a state code 0-5 and otherwise raises KeyError; a FLASH_BURST packet's data is its flash-burst dictionary |

## Left out

- find_packets (packetparse.py:452-456) is not modelled: file reading and a regular-expression search.
- main (packetparse.py:460-477) is not modelled: argument handling, JSON output and sample strings.
- The floating-point conversions (packetparse.py:36-56, 204) are not computed. `mag_raw_to_uT`, `acc_raw_to_g`, `ir_raw_to_C`, `/ 333.87 + 21` and the others use floats and `round`, so each is a symbolic term over the exact integer it is applied to, and `* -1` is a symbolic negation.
- The constants module is a parameter. That module is generated from a data file that is not part of this model. The offsets, batch counts, bucket size, slopes, intercepts and the `get_ECODE_name`/`get_ELOC_name` tables are fields of `Calibration.Table`.
- The slopes and intercepts are taken to be integers. The constants module could make them floats, and Python 2's `/` would then be a float division, not the floor division modelled. This concerns Calibration.Untruncate and every reading built on it: the battery block, the current-info references, PanelRefReading, LRefReading, RadTempReading, and the untruncated field of every batch and burst record.
- Decode and the data-section members require every slope to be non-zero. The decoder would raise ZeroDivisionError otherwise.
- Decode and the data-section members require the layouts to fit in the packet. A slice past the end is shortened by Python, and the model does not follow that.
- is_hex_str (packetparse.py:77-83) is unused by the decoder and is not modelled.
- A packet of the accepted lengths is taken to be all hex digits; a packet of any other length may be any string, since the length guard answers before a digit is read. The leniency of `int(s, 16)` towards signs, whitespace and `0x` prefixes is not modelled, nor the ValueError fallbacks of packetparse.py:99-100 and 104-105, which such input could reach.
- Preamble.Callsign: `.decode("hex")` is modelled as one character per byte, with no text encoding.
- left_shift_8 (packetparse.py:30-31) is unused and not modelled.
- The flash-compare magnetometer (packetparse.py:296-299) is computed but never stored, so it is not modelled.
- The `num_errors` read in parse_packet (packetparse.py:448) is unused and not modelled.
- Dictionary key order is not modelled: Python 2 dictionaries have no defined key order, and neither do the maps that model them.
- Hex.IntToHex, Errors.ErrorDataHash: Python 2's `hex()` appends an 'L' to a `long`, and the model never does. A packet timestamp read by hex_to_int_le lies in the signed 32-bit range, but an error timestamp `packet_timestamp - ERROR_TIME_BUCKET_SIZE*timestamp_data` (packetparse.py:405, 416, 420) can fall below it, and on a platform whose `int` is 32 bits wide that value is a `long`, so its data_hash would end in 'L'.
- The flash-burst `burst` list is an array of records. Aliasing between its dictionaries is not modelled, because each is a fresh `dict()`.

## Findings

| source | as written | input that shows it | evidently intended | confidence | as-written member | corrected member |
|---|---|---|---|---|---|---|
| packetparse.py:68-75, 379-401, 425-435 | get_message_type names types 2-4 `'FLASH BURST'`, `'FLASH CMP'` and `'LOW POWER'`, with spaces. The data-section dispatch and both error tables compare against `'FLASH_BURST'`, `'FLASH_CMP'` and `'LOW_POWER'`, so for these types the data is None and parse_errors calls `range(0, None)`, raising TypeError | any 446- or 510-digit hex packet whose flag byte (hex offset 20) has low three bits 2, 3 or 4, e.g. flag byte `22` | flash-burst, flash-compare and low-power packets decode with their data section and error table | not executed | Packet.DecodeOutcome | Packet.DecodeFixedOutcome |

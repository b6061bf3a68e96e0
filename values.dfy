/** Python values as the decoder builds them: dictionaries with a fixed set of keys, lists,
    integers, booleans, strings and floats. */
module Values {
  import opened Calibration

  /** Every dictionary key the decoder writes, spelled as in the decoder. */
  datatype Key =
    // packet, preamble
    | preamble | current_info | data | errors
    | callsign | timestamp | message_type | satellite_state | FLASH_KILLED | MRAM_CPY
    | bytes_of_data | num_errors
    // current info and the battery block of the idle and low-power batches
    | time_to_flash | boot_count | L1_REF | L2_REF | L1_SNS | L2_SNS | L1_TEMP | L2_TEMP
    | PANELREF | L_REF | LF1REF | LF2REF | LF3REF | LF4REF
    // digital signals
    | L1_RUN_CHG | L2_RUN_CHG | LF_B1_RUN_CHG | LF_B2_RUN_CHG | LF_B2_CHGN | LF_B2_FAULTN
    | LF_B1_FAULTN | LF_B1_CHGN | L2_ST | L1_ST | L1_DISG | L2_DISG | L1_CHGN | L1_FAULTN
    | L2_CHGN | L2_FAULTN
    // event history
    | ANTENNA_DEPLOYED | LION_1_CHARGED | LION_2_CHARGED | LIFEPO4_B1_CHARGED
    | LIFEPO4_B2_CHARGED | FIRST_FLASH | PROG_MEM_REWRITTEN
    // attitude, idle and low-power batches
    | IR_FLASH_OBJ | IR_SIDE1_OBJ | IR_SIDE2_OBJ | IR_RBF_OBJ | IR_ACCESS_OBJ | IR_TOP1_OBJ
    | PD_FLASH | PD_SIDE1 | PD_SIDE2 | PD_ACCESS | PD_TOP1 | PD_TOP2
    | accelerometer1X | accelerometer1Z | accelerometer1Y
    | accelerometer2X | accelerometer2Z | accelerometer2Y
    | gyroscopeX | gyroscopeZ | gyroscopeY
    | magnetometer1X | magnetometer1Z | magnetometer1Y
    | magnetometer2X | magnetometer2Z | magnetometer2Y
    | RAD_TEMP | IMU_TEMP
    | IR_FLASH_AMB | IR_SIDE1_AMB | IR_SIDE2_AMB | IR_RBF_AMB | IR_ACCESS_AMB | IR_TOP1_AMB
    | gyroscope | x | y | z
    // flash burst and flash compare
    | burst | LED1TEMP | LED2TEMP | LED3TEMP | LED4TEMP | LF1_TEMP | LF3_TEMP
    | LFB1SNS | LFB1OSNS | LFB2SNS | LFB2OSNS | LED1SNS | LED2SNS | LED3SNS | LED4SNS
    // errors
    | error_code | priority_bit | error_location | error_code_name | error_location_name
    | data_hash

  datatype Value =
    | IntVal(i: int)
    | BoolVal(b: bool)
    | StrVal(s: string)
    | FloatVal(f: FloatTerm)
    | DictVal(fields: Fields)
    | ListVal(items: seq<Value>)
    | NoneVal

  type Fields = map<Key, Value>

  /** A dictionary that the decoder fills in place. */
  class Dict {
    var fields: Fields

    constructor ()
      ensures fields == map[]
    {
      fields := map[];
    }
  }

  /** A list of dictionaries as a Python value. */
  function DictList(records: seq<Fields>): (v: Value)
    ensures v.ListVal? && |v.items| == |records|
    ensures forall k :: 0 <= k < |records| ==> v.items[k] == DictVal(records[k])
  {
    ListVal(seq(|records|, k requires 0 <= k < |records| => DictVal(records[k])))
  }

  /** Appending element i to the first i elements of a list gives its first i + 1. */
  lemma PrefixExtend<T>(all: seq<T>, i: nat, prefix: seq<T>, next: T)
    requires i < |all| && prefix == all[..i] && next == all[i]
    ensures prefix + [next] == all[..i + 1]
  {
  }
}

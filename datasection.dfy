/** The data section: the four fixed-stride batch layouts (idle, attitude, flash compare, low
    power) and the flash-burst layout, which stores its fields pass by pass. Every batch record
    is specified over its window w, the hex digits ps[start:start+k] of that batch. */
module DataSection {
  import opened Bits
  import opened Hex
  import opened Calibration
  import opened Values
  import opened Common

  // ---------------------------------------------------------------------------------------
  // Blocks shared by several layouts

  /** The six infrared object temperatures, each a padded 16-bit little-endian word, at
      w[i:i+4], w[i+4:i+8], ..., w[i+20:i+24]. */
  function WithIrObjects(obj: Fields, w: string, i: nat): Fields
    requires IsHexString(w) && i + 24 <= |w|
  {
    obj[IR_FLASH_OBJ := FloatVal(Converted(IrRawToC, Le16PaddedAt(w, i)))]
       [IR_SIDE1_OBJ := FloatVal(Converted(IrRawToC, Le16PaddedAt(w, i + 4)))]
       [IR_SIDE2_OBJ := FloatVal(Converted(IrRawToC, Le16PaddedAt(w, i + 8)))]
       [IR_RBF_OBJ := FloatVal(Converted(IrRawToC, Le16PaddedAt(w, i + 12)))]
       [IR_ACCESS_OBJ := FloatVal(Converted(IrRawToC, Le16PaddedAt(w, i + 16)))]
       [IR_TOP1_OBJ := FloatVal(Converted(IrRawToC, Le16PaddedAt(w, i + 20)))]
  }

  /** Each infrared object temperature converts `hex_to_int_le(w[j:j+4] + '0000')`, the
      unsigned little-endian 16-bit word at its offset j. */
  lemma IrObjectFields(obj: Fields, w: string, i: nat)
    requires IsHexString(w) && i + 24 <= |w|
    ensures var r := WithIrObjects(obj, w, i);
      && IR_FLASH_OBJ in r && r[IR_FLASH_OBJ] == FloatVal(Converted(IrRawToC, HexToIntLe(w[i..i + 4] + "0000").value))
      && IR_SIDE1_OBJ in r && r[IR_SIDE1_OBJ] == FloatVal(Converted(IrRawToC, HexToIntLe(w[i + 4..i + 8] + "0000").value))
      && IR_SIDE2_OBJ in r && r[IR_SIDE2_OBJ] == FloatVal(Converted(IrRawToC, HexToIntLe(w[i + 8..i + 12] + "0000").value))
      && IR_RBF_OBJ in r && r[IR_RBF_OBJ] == FloatVal(Converted(IrRawToC, HexToIntLe(w[i + 12..i + 16] + "0000").value))
      && IR_ACCESS_OBJ in r && r[IR_ACCESS_OBJ] == FloatVal(Converted(IrRawToC, HexToIntLe(w[i + 16..i + 20] + "0000").value))
      && IR_TOP1_OBJ in r && r[IR_TOP1_OBJ] == FloatVal(Converted(IrRawToC, HexToIntLe(w[i + 20..i + 24] + "0000").value))
  {
    Le16PaddedAtIsHexToIntLe(w, i);
    Le16PaddedAtIsHexToIntLe(w, i + 4);
    Le16PaddedAtIsHexToIntLe(w, i + 8);
    Le16PaddedAtIsHexToIntLe(w, i + 12);
    Le16PaddedAtIsHexToIntLe(w, i + 16);
    Le16PaddedAtIsHexToIntLe(w, i + 20);
  }

  method ParseIrObjects(w: string, i: nat, cur: Dict)
    requires IsHexString(w) && i + 24 <= |w|
    modifies cur
    ensures cur.fields == WithIrObjects(old(cur.fields), w, i)
  {
    cur.fields := cur.fields[IR_FLASH_OBJ := FloatVal(Converted(IrRawToC, Le16PaddedAt(w, i)))];
    cur.fields := cur.fields[IR_SIDE1_OBJ := FloatVal(Converted(IrRawToC, Le16PaddedAt(w, i + 4)))];
    cur.fields := cur.fields[IR_SIDE2_OBJ := FloatVal(Converted(IrRawToC, Le16PaddedAt(w, i + 8)))];
    cur.fields := cur.fields[IR_RBF_OBJ := FloatVal(Converted(IrRawToC, Le16PaddedAt(w, i + 12)))];
    cur.fields := cur.fields[IR_ACCESS_OBJ := FloatVal(Converted(IrRawToC, Le16PaddedAt(w, i + 16)))];
    cur.fields := cur.fields[IR_TOP1_OBJ := FloatVal(Converted(IrRawToC, Le16PaddedAt(w, i + 20)))];
  }

  /** The gyroscope sub-dictionary of the low-power and flash-burst layouts: x, y and z at
      ps[i:i+2], ps[i+2:i+4] and ps[i+4:i+6], none of them negated. */
  function Gyroscope(ps: string, i: nat, t: Table): Fields
    requires IsHexString(ps) && i + 6 <= |ps| && SlopesNonzero(t)
  {
    map[x := FloatVal(Converted(GyroRawToDps, Untruncate(HexByteAt(ps, i), Gyro, t))),
        y := FloatVal(Converted(GyroRawToDps, Untruncate(HexByteAt(ps, i + 2), Gyro, t))),
        z := FloatVal(Converted(GyroRawToDps, Untruncate(HexByteAt(ps, i + 4), Gyro, t)))]
  }

  /** The last two entries of every batch record: the little-endian timestamp in the window's
      last eight hex digits, and the window itself as data_hash. */
  function WithStamp(obj: Fields, w: string): Fields
    requires IsHexString(w) && |w| >= 8
  {
    obj[timestamp := IntVal(Le32At(w, |w| - 8))][data_hash := StrVal(w)]
  }

  /** The last eight digits of the window are read as parse_packet reads a little-endian word,
      and the window is kept verbatim. */
  lemma StampFields(obj: Fields, w: string)
    requires IsHexString(w) && |w| >= 8
    ensures var r := WithStamp(obj, w);
      && timestamp in r && r[timestamp] == IntVal(HexToIntLe(w[|w| - 8..]).value)
      && data_hash in r && r[data_hash] == StrVal(w)
  {
    assert w[|w| - 8..] == w[|w| - 8..|w|];
    Le32AtIsHexToIntLe(w, |w| - 8);
  }

  // ---------------------------------------------------------------------------------------
  // Flash-compare blocks; the flash-burst passes write the same fields

  /** The four LED temperatures at ps[i], ps[i+2], ps[i+4], ps[i+6]. */
  function WithLedTemps(obj: Fields, ps: string, i: nat, t: Table): Fields
    requires IsHexString(ps) && i + 8 <= |ps| && SlopesNonzero(t)
  {
    obj[LED1TEMP := FloatVal(Converted(Ad590MvToC, Untruncate(SignedByteAt(ps, i), LedTempFlash, t)))]
       [LED2TEMP := FloatVal(Converted(Ad590MvToC, Untruncate(SignedByteAt(ps, i + 2), LedTempFlash, t)))]
       [LED3TEMP := FloatVal(Converted(Ad590MvToC, Untruncate(SignedByteAt(ps, i + 4), LedTempFlash, t)))]
       [LED4TEMP := FloatVal(Converted(Ad590MvToC, Untruncate(SignedByteAt(ps, i + 6), LedTempFlash, t)))]
  }

  method ParseLedTemps(ps: string, i: nat, t: Table, cur: Dict)
    requires IsHexString(ps) && i + 8 <= |ps| && SlopesNonzero(t)
    modifies cur
    ensures cur.fields == WithLedTemps(old(cur.fields), ps, i, t)
  {
    cur.fields := cur.fields[LED1TEMP := FloatVal(Converted(Ad590MvToC, Untruncate(SignedByteAt(ps, i), LedTempFlash, t)))];
    cur.fields := cur.fields[LED2TEMP := FloatVal(Converted(Ad590MvToC, Untruncate(SignedByteAt(ps, i + 2), LedTempFlash, t)))];
    cur.fields := cur.fields[LED3TEMP := FloatVal(Converted(Ad590MvToC, Untruncate(SignedByteAt(ps, i + 4), LedTempFlash, t)))];
    cur.fields := cur.fields[LED4TEMP := FloatVal(Converted(Ad590MvToC, Untruncate(SignedByteAt(ps, i + 6), LedTempFlash, t)))];
  }

  /** The two LiFePO4 temperatures at ps[i] and ps[i+2]. */
  function WithLfTemps(obj: Fields, ps: string, i: nat, t: Table): Fields
    requires IsHexString(ps) && i + 4 <= |ps| && SlopesNonzero(t)
  {
    obj[LF1_TEMP := FloatVal(Converted(Ad590MvToC, Untruncate(SignedByteAt(ps, i), LfTemp, t)))]
       [LF3_TEMP := FloatVal(Converted(Ad590MvToC, Untruncate(SignedByteAt(ps, i + 2), LfTemp, t)))]
  }

  method ParseLfTemps(ps: string, i: nat, t: Table, cur: Dict)
    requires IsHexString(ps) && i + 4 <= |ps| && SlopesNonzero(t)
    modifies cur
    ensures cur.fields == WithLfTemps(old(cur.fields), ps, i, t)
  {
    cur.fields := cur.fields[LF1_TEMP := FloatVal(Converted(Ad590MvToC, Untruncate(SignedByteAt(ps, i), LfTemp, t)))];
    cur.fields := cur.fields[LF3_TEMP := FloatVal(Converted(Ad590MvToC, Untruncate(SignedByteAt(ps, i + 2), LfTemp, t)))];
  }

  /** The four LiFePO4 bank currents at ps[i], ..., ps[i+6]: sense, output sense, sense, output sense. */
  function WithLfbSense(obj: Fields, ps: string, i: nat, t: Table): Fields
    requires IsHexString(ps) && i + 8 <= |ps| && SlopesNonzero(t)
  {
    obj[LFB1SNS := FloatVal(Converted(LfbSnsMvToMa, Untruncate(SignedByteAt(ps, i), LfSnsFlash, t)))]
       [LFB1OSNS := FloatVal(Converted(LfboSnsMvToMa, Untruncate(SignedByteAt(ps, i + 2), LfOsnsFlash, t)))]
       [LFB2SNS := FloatVal(Converted(LfbSnsMvToMa, Untruncate(SignedByteAt(ps, i + 4), LfSnsFlash, t)))]
       [LFB2OSNS := FloatVal(Converted(LfboSnsMvToMa, Untruncate(SignedByteAt(ps, i + 6), LfOsnsFlash, t)))]
  }

  method ParseLfbSense(ps: string, i: nat, t: Table, cur: Dict)
    requires IsHexString(ps) && i + 8 <= |ps| && SlopesNonzero(t)
    modifies cur
    ensures cur.fields == WithLfbSense(old(cur.fields), ps, i, t)
  {
    cur.fields := cur.fields[LFB1SNS := FloatVal(Converted(LfbSnsMvToMa, Untruncate(SignedByteAt(ps, i), LfSnsFlash, t)))];
    cur.fields := cur.fields[LFB1OSNS := FloatVal(Converted(LfboSnsMvToMa, Untruncate(SignedByteAt(ps, i + 2), LfOsnsFlash, t)))];
    cur.fields := cur.fields[LFB2SNS := FloatVal(Converted(LfbSnsMvToMa, Untruncate(SignedByteAt(ps, i + 4), LfSnsFlash, t)))];
    cur.fields := cur.fields[LFB2OSNS := FloatVal(Converted(LfboSnsMvToMa, Untruncate(SignedByteAt(ps, i + 6), LfOsnsFlash, t)))];
  }

  /** The four LiFePO4 reference voltages at ps[i], ..., ps[i+6], as integers. */
  function WithLfRefs(obj: Fields, ps: string, i: nat, t: Table): Fields
    requires IsHexString(ps) && i + 8 <= |ps| && SlopesNonzero(t)
  {
    obj[LF1REF := IntVal(Untruncate(SignedByteAt(ps, i), LfVolt, t))]
       [LF2REF := IntVal(Untruncate(SignedByteAt(ps, i + 2), LfVolt, t))]
       [LF3REF := IntVal(Untruncate(SignedByteAt(ps, i + 4), LfVolt, t))]
       [LF4REF := IntVal(Untruncate(SignedByteAt(ps, i + 6), LfVolt, t))]
  }

  method ParseLfRefs(ps: string, i: nat, t: Table, cur: Dict)
    requires IsHexString(ps) && i + 8 <= |ps| && SlopesNonzero(t)
    modifies cur
    ensures cur.fields == WithLfRefs(old(cur.fields), ps, i, t)
  {
    cur.fields := cur.fields[LF1REF := IntVal(Untruncate(SignedByteAt(ps, i), LfVolt, t))];
    cur.fields := cur.fields[LF2REF := IntVal(Untruncate(SignedByteAt(ps, i + 2), LfVolt, t))];
    cur.fields := cur.fields[LF3REF := IntVal(Untruncate(SignedByteAt(ps, i + 4), LfVolt, t))];
    cur.fields := cur.fields[LF4REF := IntVal(Untruncate(SignedByteAt(ps, i + 6), LfVolt, t))];
  }

  /** The four LED currents at ps[i], ..., ps[i+6]. */
  function WithLedSense(obj: Fields, ps: string, i: nat, t: Table): Fields
    requires IsHexString(ps) && i + 8 <= |ps| && SlopesNonzero(t)
  {
    obj[LED1SNS := FloatVal(Converted(LedSnsMvToMa, Untruncate(SignedByteAt(ps, i), LedSns, t)))]
       [LED2SNS := FloatVal(Converted(LedSnsMvToMa, Untruncate(SignedByteAt(ps, i + 2), LedSns, t)))]
       [LED3SNS := FloatVal(Converted(LedSnsMvToMa, Untruncate(SignedByteAt(ps, i + 4), LedSns, t)))]
       [LED4SNS := FloatVal(Converted(LedSnsMvToMa, Untruncate(SignedByteAt(ps, i + 6), LedSns, t)))]
  }

  method ParseLedSense(ps: string, i: nat, t: Table, cur: Dict)
    requires IsHexString(ps) && i + 8 <= |ps| && SlopesNonzero(t)
    modifies cur
    ensures cur.fields == WithLedSense(old(cur.fields), ps, i, t)
  {
    cur.fields := cur.fields[LED1SNS := FloatVal(Converted(LedSnsMvToMa, Untruncate(SignedByteAt(ps, i), LedSns, t)))];
    cur.fields := cur.fields[LED2SNS := FloatVal(Converted(LedSnsMvToMa, Untruncate(SignedByteAt(ps, i + 2), LedSns, t)))];
    cur.fields := cur.fields[LED3SNS := FloatVal(Converted(LedSnsMvToMa, Untruncate(SignedByteAt(ps, i + 4), LedSns, t)))];
    cur.fields := cur.fields[LED4SNS := FloatVal(Converted(LedSnsMvToMa, Untruncate(SignedByteAt(ps, i + 6), LedSns, t)))];
  }

  // ---------------------------------------------------------------------------------------
  // Blocks of the attitude and idle layouts

  /** The six photodiode readings: the 2-bit fields at bits 6-7, 4-5, 2-3 and 0-1 of pd1 and at
      bits 6-7 and 4-5 of pd2. */
  function WithPhotodiodes(obj: Fields, pd1: nat, pd2: nat): Fields
  {
    obj[PD_FLASH := IntVal(BitField(pd1, 6, 2))]
       [PD_SIDE1 := IntVal(BitField(pd1, 4, 2))]
       [PD_SIDE2 := IntVal(BitField(pd1, 2, 2))]
       [PD_ACCESS := IntVal(BitField(pd1, 0, 2))]
       [PD_TOP1 := IntVal(BitField(pd2, 6, 2))]
       [PD_TOP2 := IntVal(BitField(pd2, 4, 2))]
  }

  method ParsePhotodiodes(pd1: nat, pd2: nat, cur: Dict)
    modifies cur
    ensures cur.fields == WithPhotodiodes(old(cur.fields), pd1, pd2)
  {
    cur.fields := cur.fields[PD_FLASH := IntVal(BitField(pd1, 6, 2))];
    cur.fields := cur.fields[PD_SIDE1 := IntVal(BitField(pd1, 4, 2))];
    cur.fields := cur.fields[PD_SIDE2 := IntVal(BitField(pd1, 2, 2))];
    cur.fields := cur.fields[PD_ACCESS := IntVal(BitField(pd1, 0, 2))];
    cur.fields := cur.fields[PD_TOP1 := IntVal(BitField(pd2, 6, 2))];
    cur.fields := cur.fields[PD_TOP2 := IntVal(BitField(pd2, 4, 2))];
  }

  const PhotodiodeKeys: set<Key> := {PD_FLASH, PD_SIDE1, PD_SIDE2, PD_ACCESS, PD_TOP1, PD_TOP2}

  /** Each photodiode reading is the decoder's `(pd >> s) & 0x03` of its byte. */
  lemma PhotodiodeMasks(obj: Fields, pd1: nat, pd2: nat)
    ensures var r := WithPhotodiodes(obj, pd1, pd2);
      && PD_FLASH in r && r[PD_FLASH] == IntVal(And(ShiftRight(pd1, 6), 3))
      && PD_SIDE1 in r && r[PD_SIDE1] == IntVal(And(ShiftRight(pd1, 4), 3))
      && PD_SIDE2 in r && r[PD_SIDE2] == IntVal(And(ShiftRight(pd1, 2), 3))
      && PD_ACCESS in r && r[PD_ACCESS] == IntVal(And(ShiftRight(pd1, 0), 3))
      && PD_TOP1 in r && r[PD_TOP1] == IntVal(And(ShiftRight(pd2, 6), 3))
      && PD_TOP2 in r && r[PD_TOP2] == IntVal(And(ShiftRight(pd2, 4), 3))
  {
    TwoBitField(pd1, 6);
    TwoBitField(pd1, 4);
    TwoBitField(pd1, 2);
    TwoBitField(pd1, 0);
    TwoBitField(pd2, 6);
    TwoBitField(pd2, 4);
  }

  /** Every photodiode reading is a two-bit value, in 0..3. */
  lemma PhotodiodeRange(obj: Fields, pd1: nat, pd2: nat)
    ensures var r := WithPhotodiodes(obj, pd1, pd2);
      forall k :: k in PhotodiodeKeys ==> k in r && r[k].IntVal? && 0 <= r[k].i <= 3
  {
    assert Pow2(2) == 4;
  }

  /** One three-axis sensor of the attitude layout, read from w[i], w[i+2] and w[i+4] in the
      order X, Z, Y; X and Z are stored negated (`* -1`), Y as read. */
  function WithAxes(obj: Fields, w: string, i: nat, conv: Conversion, sig: Signal, t: Table,
                    kx: Key, kz: Key, ky: Key): Fields
    requires IsHexString(w) && i + 6 <= |w| && SlopesNonzero(t)
  {
    obj[kx := FloatVal(Negated(Converted(conv, Untruncate(HexByteAt(w, i), sig, t))))]
       [kz := FloatVal(Negated(Converted(conv, Untruncate(HexByteAt(w, i + 2), sig, t))))]
       [ky := FloatVal(Converted(conv, Untruncate(HexByteAt(w, i + 4), sig, t)))]
  }

  method ParseAxes(w: string, i: nat, conv: Conversion, sig: Signal, t: Table,
                   kx: Key, kz: Key, ky: Key, cur: Dict)
    requires IsHexString(w) && i + 6 <= |w| && SlopesNonzero(t)
    modifies cur
    ensures cur.fields == WithAxes(old(cur.fields), w, i, conv, sig, t, kx, kz, ky)
  {
    cur.fields := cur.fields[kx := FloatVal(Negated(Converted(conv, Untruncate(HexByteAt(w, i), sig, t))))];
    cur.fields := cur.fields[kz := FloatVal(Negated(Converted(conv, Untruncate(HexByteAt(w, i + 2), sig, t))))];
    cur.fields := cur.fields[ky := FloatVal(Converted(conv, Untruncate(HexByteAt(w, i + 4), sig, t)))];
  }

  /** The five sensors of an attitude batch at w[28:58]: two accelerometers, the gyroscope and
      two magnetometers. */
  function WithInertial(obj: Fields, w: string, t: Table): Fields
    requires IsHexString(w) && |w| >= 58 && SlopesNonzero(t)
  {
    var acc1 := WithAxes(obj, w, 28, AccRawToG, Accel, t, accelerometer1X, accelerometer1Z, accelerometer1Y);
    var acc2 := WithAxes(acc1, w, 34, AccRawToG, Accel, t, accelerometer2X, accelerometer2Z, accelerometer2Y);
    var gyro := WithAxes(acc2, w, 40, GyroRawToDps, Gyro, t, gyroscopeX, gyroscopeZ, gyroscopeY);
    var mag1 := WithAxes(gyro, w, 46, MagRawToUT, Mag, t, magnetometer1X, magnetometer1Z, magnetometer1Y);
    WithAxes(mag1, w, 52, MagRawToUT, Mag, t, magnetometer2X, magnetometer2Z, magnetometer2Y)
  }

  method ParseInertial(w: string, t: Table, cur: Dict)
    requires IsHexString(w) && |w| >= 58 && SlopesNonzero(t)
    modifies cur
    ensures cur.fields == WithInertial(old(cur.fields), w, t)
  {
    ParseAxes(w, 28, AccRawToG, Accel, t, accelerometer1X, accelerometer1Z, accelerometer1Y, cur);
    ParseAxes(w, 34, AccRawToG, Accel, t, accelerometer2X, accelerometer2Z, accelerometer2Y, cur);
    ParseAxes(w, 40, GyroRawToDps, Gyro, t, gyroscopeX, gyroscopeZ, gyroscopeY, cur);
    ParseAxes(w, 46, MagRawToUT, Mag, t, magnetometer1X, magnetometer1Z, magnetometer1Y, cur);
    ParseAxes(w, 52, MagRawToUT, Mag, t, magnetometer2X, magnetometer2Z, magnetometer2Y, cur);
  }

  /** The idle batch's radio and IMU temperatures at w[22] and w[24], then the six infrared
      ambient temperatures at w[26], ..., w[36]. */
  function WithIdleSensors(obj: Fields, w: string, t: Table): Fields
    requires IsHexString(w) && |w| >= 38 && SlopesNonzero(t)
  {
    obj[RAD_TEMP := IntVal(RadTempReading(Untruncate(HexByteAt(w, 22), RadTemp, t)))]
       [IMU_TEMP := FloatVal(Converted(ImuTempToC, Untruncate(HexByteAt(w, 24), ImuTemp, t)))]
       [IR_FLASH_AMB := FloatVal(Converted(IrRawToC, Untruncate(HexByteAt(w, 26), IrAmb, t)))]
       [IR_SIDE1_AMB := FloatVal(Converted(IrRawToC, Untruncate(HexByteAt(w, 28), IrAmb, t)))]
       [IR_SIDE2_AMB := FloatVal(Converted(IrRawToC, Untruncate(HexByteAt(w, 30), IrAmb, t)))]
       [IR_RBF_AMB := FloatVal(Converted(IrRawToC, Untruncate(HexByteAt(w, 32), IrAmb, t)))]
       [IR_ACCESS_AMB := FloatVal(Converted(IrRawToC, Untruncate(HexByteAt(w, 34), IrAmb, t)))]
       [IR_TOP1_AMB := FloatVal(Converted(IrRawToC, Untruncate(HexByteAt(w, 36), IrAmb, t)))]
  }

  method ParseIdleSensors(w: string, t: Table, cur: Dict)
    requires IsHexString(w) && |w| >= 38 && SlopesNonzero(t)
    modifies cur
    ensures cur.fields == WithIdleSensors(old(cur.fields), w, t)
  {
    cur.fields := cur.fields[RAD_TEMP := IntVal(RadTempReading(Untruncate(HexByteAt(w, 22), RadTemp, t)))];
    cur.fields := cur.fields[IMU_TEMP := FloatVal(Converted(ImuTempToC, Untruncate(HexByteAt(w, 24), ImuTemp, t)))];
    cur.fields := cur.fields[IR_FLASH_AMB := FloatVal(Converted(IrRawToC, Untruncate(HexByteAt(w, 26), IrAmb, t)))];
    cur.fields := cur.fields[IR_SIDE1_AMB := FloatVal(Converted(IrRawToC, Untruncate(HexByteAt(w, 28), IrAmb, t)))];
    cur.fields := cur.fields[IR_SIDE2_AMB := FloatVal(Converted(IrRawToC, Untruncate(HexByteAt(w, 30), IrAmb, t)))];
    cur.fields := cur.fields[IR_RBF_AMB := FloatVal(Converted(IrRawToC, Untruncate(HexByteAt(w, 32), IrAmb, t)))];
    cur.fields := cur.fields[IR_ACCESS_AMB := FloatVal(Converted(IrRawToC, Untruncate(HexByteAt(w, 34), IrAmb, t)))];
    cur.fields := cur.fields[IR_TOP1_AMB := FloatVal(Converted(IrRawToC, Untruncate(HexByteAt(w, 36), IrAmb, t)))];
  }

  // ---------------------------------------------------------------------------------------
  // The four fixed-stride layouts

  datatype Layout = Idle | Attitude | FlashCmp | LowPower

  /** Hex digits per batch: `start += 46`, `66`, `50`, `60`. */
  function Stride(l: Layout): nat
  {
    match l
    case Idle => 46
    case Attitude => 66
    case FlashCmp => 50
    case LowPower => 60
  }

  /** The `*_BATCHES_PER_PACKET` constant of the layout. */
  function BatchCount(l: Layout, t: Table): nat
  {
    match l
    case Idle => t.idleBatches
    case Attitude => t.attitudeBatches
    case FlashCmp => t.flashCmpBatches
    case LowPower => t.lowPowerBatches
  }

  /** A batch record without its timestamp and data_hash, in the order the decoder writes it. */
  function RecordBody(l: Layout, w: string, t: Table): Fields
    requires IsHexString(w) && |w| == Stride(l) && SlopesNonzero(t)
  {
    match l
    case Idle =>
      WithIdleSensors(WithBatteryBlock(WithEventHistory(map[], HexByteAt(w, 0)), w, 2, t), w, t)
    case Attitude =>
      WithInertial(WithPhotodiodes(WithIrObjects(map[], w, 0), HexByteAt(w, 24), HexByteAt(w, 26)), w, t)
    case FlashCmp =>
      WithLedSense(WithLfRefs(WithLfbSense(WithLfTemps(WithLedTemps(map[], w, 0, t), w, 8, t), w, 12, t), w, 20, t), w, 28, t)
    case LowPower =>
      WithIrObjects(WithBatteryBlock(WithEventHistory(map[], HexByteAt(w, 0)), w, 2, t), w, 22)
        [gyroscope := DictVal(Gyroscope(w, 46, t))]
  }

  /** The record one loop iteration of parse_idle_data, parse_attitude_data,
      parse_flash_cmp_data or parse_low_power_data appends for the window w. */
  function Record(l: Layout, w: string, t: Table): Fields
    requires IsHexString(w) && |w| == Stride(l) && SlopesNonzero(t)
  {
    WithStamp(RecordBody(l, w, t), w)
  }

  /** The batches fit in a packet of n hex digits. */
  predicate Fits(l: Layout, t: Table, n: nat)
  {
    t.dataSectionStart + BatchCount(l, t) * Stride(l) <= n
  }

  /** Batch i of a layout that fits ends inside the packet. */
  lemma BatchInPacket(l: Layout, t: Table, n: nat, i: nat)
    requires Fits(l, t, n) && i < BatchCount(l, t)
    ensures t.dataSectionStart + i * Stride(l) + Stride(l) <= n
  {
    MulMonotone(Stride(l), i + 1, BatchCount(l, t));
  }

  /** The hex digits of batch i: `ps[start:start+k]` with `start = S + i*k`. */
  function Window(l: Layout, ps: string, t: Table, i: nat): (w: string)
    requires Fits(l, t, |ps|) && i < BatchCount(l, t)
    ensures |w| == Stride(l)
  {
    BatchInPacket(l, t, |ps|, i);
    var start := t.dataSectionStart + i * Stride(l);
    ps[start..start + Stride(l)]
  }

  /** The list a fixed-stride decoder returns: one record per batch, each over its window. */
  function Batches(l: Layout, ps: string, t: Table): seq<Fields>
    requires IsHexString(ps) && SlopesNonzero(t) && Fits(l, t, |ps|)
  {
    seq(BatchCount(l, t), i requires 0 <= i < BatchCount(l, t) => Record(l, Window(l, ps, t, i), t))
  }

  /** Batch i is the record of window i. */
  lemma BatchIsRecord(l: Layout, ps: string, t: Table, i: nat)
    requires IsHexString(ps) && SlopesNonzero(t) && Fits(l, t, |ps|) && i < BatchCount(l, t)
    ensures IsHexString(Window(l, ps, t, i))
    ensures Batches(l, ps, t)[i] == Record(l, Window(l, ps, t, i), t)
  {
  }

  /** Every record ends with the timestamp in its window's last eight digits and the window. */
  lemma RecordStamp(l: Layout, w: string, t: Table)
    requires IsHexString(w) && |w| == Stride(l) && SlopesNonzero(t)
    ensures var r := Record(l, w, t);
      && timestamp in r && r[timestamp] == IntVal(HexToIntLe(w[|w| - 8..]).value)
      && data_hash in r && r[data_hash] == StrVal(w)
  {
    StampFields(RecordBody(l, w, t), w);
  }

  /** Window i is ps[S+i*k, S+(i+1)*k) for the stride k, and its last eight digits end there. */
  lemma WindowSlices(l: Layout, ps: string, t: Table, i: nat)
    requires Fits(l, t, |ps|) && i < BatchCount(l, t)
    ensures var s, k := t.dataSectionStart + i * Stride(l), Stride(l);
      && s + k <= |ps|
      && Window(l, ps, t, i) == ps[s..s + k]
      && Window(l, ps, t, i)[k - 8..] == ps[s + k - 8..s + k]
  {
    BatchInPacket(l, t, |ps|, i);
  }

  /** Batch i of a fitting layout is the record of window i (WindowSlices places it): its
      data_hash is the window and its timestamp the window's last eight digits read
      little-endian. */
  lemma BatchStamp(l: Layout, ps: string, t: Table, i: nat)
    requires IsHexString(ps) && SlopesNonzero(t) && Fits(l, t, |ps|) && i < BatchCount(l, t)
    ensures var r, w := Batches(l, ps, t)[i], Window(l, ps, t, i);
      && data_hash in r && r[data_hash] == StrVal(w)
      && timestamp in r && r[timestamp] == IntVal(HexToIntLe(w[|w| - 8..]).value)
  {
    BatchIsRecord(l, ps, t, i);
    RecordStamp(l, Window(l, ps, t, i), t);
  }

  // ---------------------------------------------------------------------------------------
  // What each record holds

  const IrObjectKeySet: set<Key> := {IR_FLASH_OBJ, IR_SIDE1_OBJ, IR_SIDE2_OBJ, IR_RBF_OBJ, IR_ACCESS_OBJ, IR_TOP1_OBJ}
  const InertialKeySet: set<Key> := {
    accelerometer1X, accelerometer1Z, accelerometer1Y, accelerometer2X, accelerometer2Z, accelerometer2Y,
    gyroscopeX, gyroscopeZ, gyroscopeY,
    magnetometer1X, magnetometer1Z, magnetometer1Y, magnetometer2X, magnetometer2Z, magnetometer2Y}
  const IdleSensorKeySet: set<Key> := {
    RAD_TEMP, IMU_TEMP, IR_FLASH_AMB, IR_SIDE1_AMB, IR_SIDE2_AMB, IR_RBF_AMB, IR_ACCESS_AMB, IR_TOP1_AMB}
  const FlashBlockKeySet: set<Key> := {
    LED1TEMP, LED2TEMP, LED3TEMP, LED4TEMP, LF1_TEMP, LF3_TEMP, LFB1SNS, LFB1OSNS, LFB2SNS, LFB2OSNS,
    LF1REF, LF2REF, LF3REF, LF4REF, LED1SNS, LED2SNS, LED3SNS, LED4SNS}
  const StampKeySet: set<Key> := {timestamp, data_hash}

  /** The infrared block writes its six object temperatures. */
  lemma IrObjectKeys(obj: Fields, w: string, i: nat)
    requires IsHexString(w) && i + 24 <= |w|
    ensures WithIrObjects(obj, w, i).Keys == obj.Keys + IrObjectKeySet
  {
  }

  /** The inertial block writes its fifteen axis readings. */
  lemma InertialKeys(obj: Fields, w: string, t: Table)
    requires IsHexString(w) && |w| >= 58 && SlopesNonzero(t)
    ensures WithInertial(obj, w, t).Keys == obj.Keys + InertialKeySet
  {
  }

  /** The idle sensors write their eight readings. */
  lemma IdleSensorKeys(obj: Fields, w: string, t: Table)
    requires IsHexString(w) && |w| >= 38 && SlopesNonzero(t)
    ensures WithIdleSensors(obj, w, t).Keys == obj.Keys + IdleSensorKeySet
  {
  }

  /** The stamp writes timestamp and data_hash. */
  lemma StampKeys(obj: Fields, w: string)
    requires IsHexString(w) && |w| >= 8
    ensures WithStamp(obj, w).Keys == obj.Keys + StampKeySet
  {
  }

  /** Storing under a key adds that key and no other. */
  lemma AddedKey(obj: Fields, k: Key, v: Value)
    ensures obj[k := v].Keys == obj.Keys + {k}
  {
  }

  /** The inertial block leaves every entry outside its fifteen keys as it was. */
  lemma InertialKeepsOthers(obj: Fields, w: string, t: Table)
    requires IsHexString(w) && |w| >= 58 && SlopesNonzero(t)
    ensures var r := WithInertial(obj, w, t);
      forall k :: k in obj && k !in InertialKeySet ==> k in r && r[k] == obj[k]
  {
  }

  /** The inertial block leaves the photodiode entries alone. */
  lemma InertialKeepsPhotodiodes(obj: Fields, w: string, t: Table)
    requires IsHexString(w) && |w| >= 58 && SlopesNonzero(t)
    ensures var r := WithInertial(obj, w, t);
      forall k :: k in PhotodiodeKeys && k in obj ==> k in r && r[k] == obj[k]
  {
    assert PhotodiodeKeys !! InertialKeySet;
    InertialKeepsOthers(obj, w, t);
  }

  /** The stamp leaves the photodiode entries alone. */
  lemma StampKeepsPhotodiodes(obj: Fields, w: string)
    requires IsHexString(w) && |w| >= 8
    ensures var r := WithStamp(obj, w);
      forall k :: k in PhotodiodeKeys && k in obj ==> k in r && r[k] == obj[k]
  {
  }

  /** The body of an idle record, block by block as parse_idle_data writes it. */
  lemma IdleBody(w: string, t: Table)
    requires IsHexString(w) && |w| == 46 && SlopesNonzero(t)
    ensures RecordBody(Idle, w, t)
      == WithIdleSensors(WithBatteryBlock(WithEventHistory(map[], HexByteAt(w, 0)), w, 2, t), w, t)
  {
  }

  /** The body of an attitude record, block by block as parse_attitude_data writes it. */
  lemma AttitudeBody(w: string, t: Table)
    requires IsHexString(w) && |w| == 66 && SlopesNonzero(t)
    ensures RecordBody(Attitude, w, t)
      == WithInertial(WithPhotodiodes(WithIrObjects(map[], w, 0), HexByteAt(w, 24), HexByteAt(w, 26)), w, t)
  {
  }

  /** The body of a flash-compare record, block by block as parse_flash_cmp_data writes it. */
  lemma FlashCmpBody(w: string, t: Table)
    requires IsHexString(w) && |w| == 50 && SlopesNonzero(t)
    ensures RecordBody(FlashCmp, w, t)
      == WithLedSense(WithLfRefs(WithLfbSense(WithLfTemps(WithLedTemps(map[], w, 0, t), w, 8, t), w, 12, t), w, 20, t), w, 28, t)
  {
  }

  /** The body of a low-power record, block by block as parse_low_power_data writes it. */
  lemma LowPowerBody(w: string, t: Table)
    requires IsHexString(w) && |w| == 60 && SlopesNonzero(t)
    ensures RecordBody(LowPower, w, t)
      == WithIrObjects(WithBatteryBlock(WithEventHistory(map[], HexByteAt(w, 0)), w, 2, t), w, 22)
           [gyroscope := DictVal(Gyroscope(w, 46, t))]
  {
  }

  /** Every record is its body with timestamp and data_hash added. */
  lemma RecordKeys(l: Layout, w: string, t: Table)
    requires IsHexString(w) && |w| == Stride(l) && SlopesNonzero(t)
    ensures Record(l, w, t).Keys == RecordBody(l, w, t).Keys + StampKeySet
  {
    StampKeys(RecordBody(l, w, t), w);
  }

  /** The event history and the battery block, as the idle and low-power records begin. */
  lemma HistoryAndBatteryKeys(w: string, t: Table)
    requires IsHexString(w) && |w| >= 22 && SlopesNonzero(t)
    ensures WithBatteryBlock(WithEventHistory(map[], HexByteAt(w, 0)), w, 2, t).Keys
      == EventHistoryKeySet + BatteryKeySet + DigSigKeySet1 + DigSigKeySet2
  {
    EventHistoryKeysAdded(map[], HexByteAt(w, 0));
    BatteryBlockKeys(WithEventHistory(map[], HexByteAt(w, 0)), w, 2, t);
  }

  /** An idle record holds the event history, the battery block, the idle sensors and the
      stamp, and nothing else. */
  lemma IdleRecordKeys(w: string, t: Table)
    requires IsHexString(w) && |w| == 46 && SlopesNonzero(t)
    ensures Record(Idle, w, t).Keys
      == EventHistoryKeySet + BatteryKeySet + DigSigKeySet1 + DigSigKeySet2 + IdleSensorKeySet + StampKeySet
  {
    var bb := WithBatteryBlock(WithEventHistory(map[], HexByteAt(w, 0)), w, 2, t);
    IdleBody(w, t);
    HistoryAndBatteryKeys(w, t);
    IdleSensorKeys(bb, w, t);
    RecordKeys(Idle, w, t);
  }

  /** An attitude record holds the infrared objects, the photodiodes, the inertial block and the
      stamp, and nothing else. */
  lemma AttitudeRecordKeys(w: string, t: Table)
    requires IsHexString(w) && |w| == 66 && SlopesNonzero(t)
    ensures Record(Attitude, w, t).Keys == IrObjectKeySet + PhotodiodeKeys + InertialKeySet + StampKeySet
  {
    var pd := WithPhotodiodes(WithIrObjects(map[], w, 0), HexByteAt(w, 24), HexByteAt(w, 26));
    assert pd.Keys == IrObjectKeySet + PhotodiodeKeys;
    InertialKeys(pd, w, t);
  }

  /** A flash-compare record holds the five flash blocks and the stamp, and nothing else; the
      magnetometer the decoder reads is not among them. */
  lemma FlashCmpRecordKeys(w: string, t: Table)
    requires IsHexString(w) && |w| == 50 && SlopesNonzero(t)
    ensures Record(FlashCmp, w, t).Keys == FlashBlockKeySet + StampKeySet
  {
  }

  /** The body of a low-power record: the event history, the battery block, the infrared
      objects at 22 and the gyroscope dictionary. */
  lemma LowPowerBodyKeys(w: string, t: Table)
    requires IsHexString(w) && |w| == 60 && SlopesNonzero(t)
    ensures RecordBody(LowPower, w, t).Keys
      == EventHistoryKeySet + BatteryKeySet + DigSigKeySet1 + DigSigKeySet2 + IrObjectKeySet + {gyroscope}
  {
    var bb := WithBatteryBlock(WithEventHistory(map[], HexByteAt(w, 0)), w, 2, t);
    var ir := WithIrObjects(bb, w, 22);
    var g := DictVal(Gyroscope(w, 46, t));
    LowPowerBody(w, t);
    HistoryAndBatteryKeys(w, t);
    IrObjectKeys(bb, w, 22);
    AddedKey(ir, gyroscope, g);
  }

  /** A low-power record holds the event history, the battery block, the infrared objects, the
      gyroscope dictionary and the stamp, and nothing else. */
  lemma LowPowerRecordKeys(w: string, t: Table)
    requires IsHexString(w) && |w| == 60 && SlopesNonzero(t)
    ensures Record(LowPower, w, t).Keys
      == EventHistoryKeySet + BatteryKeySet + DigSigKeySet1 + DigSigKeySet2 + IrObjectKeySet + {gyroscope} + StampKeySet
  {
    RecordKeys(LowPower, w, t);
    LowPowerBodyKeys(w, t);
  }

  /** The inertial block written after the photodiodes leaves them alone. */
  lemma AttitudeBodyPhotodiodes(w: string, t: Table)
    requires IsHexString(w) && |w| == 66 && SlopesNonzero(t)
    ensures var b, pd := RecordBody(Attitude, w, t),
                         WithPhotodiodes(WithIrObjects(map[], w, 0), HexByteAt(w, 24), HexByteAt(w, 26));
      forall k :: k in PhotodiodeKeys ==> k in pd && k in b && b[k] == pd[k]
  {
    var pd := WithPhotodiodes(WithIrObjects(map[], w, 0), HexByteAt(w, 24), HexByteAt(w, 26));
    AttitudeBody(w, t);
    InertialKeepsPhotodiodes(pd, w, t);
  }

  /** The photodiode entries of an attitude record are those its photodiode block wrote. */
  lemma AttitudeRecordKeepsPhotodiodes(w: string, t: Table)
    requires IsHexString(w) && |w| == 66 && SlopesNonzero(t)
    ensures var r, pd := Record(Attitude, w, t),
                         WithPhotodiodes(WithIrObjects(map[], w, 0), HexByteAt(w, 24), HexByteAt(w, 26));
      forall k :: k in PhotodiodeKeys ==> k in pd && k in r && r[k] == pd[k]
  {
    AttitudeBodyPhotodiodes(w, t);
    StampKeepsPhotodiodes(RecordBody(Attitude, w, t), w);
  }

  /** The photodiode readings of an attitude record are the decoder's `(pd >> s) & 0x03` of the
      bytes at 24 and 26 of its window: the inertial block and the stamp written after them
      leave them alone. */
  lemma AttitudeRecordPhotodiodes(w: string, t: Table)
    requires IsHexString(w) && |w| == 66 && SlopesNonzero(t)
    ensures var r, pd1, pd2 := Record(Attitude, w, t), HexByteAt(w, 24), HexByteAt(w, 26);
      && PD_FLASH in r && r[PD_FLASH] == IntVal(And(ShiftRight(pd1, 6), 3))
      && PD_SIDE1 in r && r[PD_SIDE1] == IntVal(And(ShiftRight(pd1, 4), 3))
      && PD_SIDE2 in r && r[PD_SIDE2] == IntVal(And(ShiftRight(pd1, 2), 3))
      && PD_ACCESS in r && r[PD_ACCESS] == IntVal(And(ShiftRight(pd1, 0), 3))
      && PD_TOP1 in r && r[PD_TOP1] == IntVal(And(ShiftRight(pd2, 6), 3))
      && PD_TOP2 in r && r[PD_TOP2] == IntVal(And(ShiftRight(pd2, 4), 3))
  {
    PhotodiodeMasks(WithIrObjects(map[], w, 0), HexByteAt(w, 24), HexByteAt(w, 26));
    AttitudeRecordKeepsPhotodiodes(w, t);
  }

  /** Every photodiode reading of an attitude record is in 0..3. */
  lemma AttitudeRecordPhotodiodeRange(w: string, t: Table)
    requires IsHexString(w) && |w| == 66 && SlopesNonzero(t)
    ensures var r := Record(Attitude, w, t);
      forall k :: k in PhotodiodeKeys ==> k in r && r[k].IntVal? && 0 <= r[k].i <= 3
  {
    PhotodiodeRange(WithIrObjects(map[], w, 0), HexByteAt(w, 24), HexByteAt(w, 26));
    AttitudeRecordKeepsPhotodiodes(w, t);
  }

  /** Every photodiode reading of every attitude batch the decoder returns is in 0..3. */
  lemma AttitudeBatchPhotodiodes(ps: string, t: Table, i: nat)
    requires IsHexString(ps) && SlopesNonzero(t) && Fits(Attitude, t, |ps|) && i < BatchCount(Attitude, t)
    ensures var r := Batches(Attitude, ps, t)[i];
      forall k :: k in PhotodiodeKeys ==> k in r && r[k].IntVal? && 0 <= r[k].i <= 3
  {
    BatchIsRecord(Attitude, ps, t, i);
    AttitudeRecordPhotodiodeRange(Window(Attitude, ps, t, i), t);
  }

  // ---------------------------------------------------------------------------------------
  // The decoders

  /** The timestamp and data_hash the decoders write last. */
  method ParseStamp(w: string, cur: Dict)
    requires IsHexString(w) && |w| >= 8
    modifies cur
    ensures cur.fields == WithStamp(old(cur.fields), w)
  {
    cur.fields := cur.fields[timestamp := IntVal(Le32At(w, |w| - 8))];
    cur.fields := cur.fields[data_hash := StrVal(w)];
  }

  /** One iteration of parse_idle_data on the 46 hex digits w of a batch. */
  method ParseIdleBatch(w: string, t: Table) returns (r: Fields)
    requires IsHexString(w) && |w| == 46 && SlopesNonzero(t)
    ensures r == Record(Idle, w, t)
  {
    var cur := new Dict();
    ParseEventHistory(HexByteAt(w, 0), cur);
    ParseBatteryBlock(w, 2, t, cur);
    ParseIdleSensors(w, t, cur);
    ParseStamp(w, cur);
    r := cur.fields;
    IdleBody(w, t);
  }

  /** One iteration of parse_attitude_data on the 66 hex digits w of a batch. */
  method ParseAttitudeBatch(w: string, t: Table) returns (r: Fields)
    requires IsHexString(w) && |w| == 66 && SlopesNonzero(t)
    ensures r == Record(Attitude, w, t)
  {
    var cur := new Dict();
    ParseIrObjects(w, 0, cur);
    ParsePhotodiodes(HexByteAt(w, 24), HexByteAt(w, 26), cur);
    ParseInertial(w, t, cur);
    ParseStamp(w, cur);
    r := cur.fields;
    AttitudeBody(w, t);
  }

  /** One iteration of parse_flash_cmp_data on the 50 hex digits w of a batch. The magnetometer
      dictionary the decoder fills from w[36:42] is never stored, so it is not computed here. */
  method ParseFlashCmpBatch(w: string, t: Table) returns (r: Fields)
    requires IsHexString(w) && |w| == 50 && SlopesNonzero(t)
    ensures r == Record(FlashCmp, w, t)
  {
    var cur := new Dict();
    ParseLedTemps(w, 0, t, cur);
    ParseLfTemps(w, 8, t, cur);
    ParseLfbSense(w, 12, t, cur);
    ParseLfRefs(w, 20, t, cur);
    ParseLedSense(w, 28, t, cur);
    ParseStamp(w, cur);
    r := cur.fields;
    FlashCmpBody(w, t);
  }

  /** One iteration of parse_low_power_data on the 60 hex digits w of a batch. */
  method ParseLowPowerBatch(w: string, t: Table) returns (r: Fields)
    requires IsHexString(w) && |w| == 60 && SlopesNonzero(t)
    ensures r == Record(LowPower, w, t)
  {
    var cur := new Dict();
    ParseEventHistory(HexByteAt(w, 0), cur);
    ParseBatteryBlock(w, 2, t, cur);
    ParseIrObjects(w, 22, cur);
    cur.fields := cur.fields[gyroscope := DictVal(Gyroscope(w, 46, t))];
    ParseStamp(w, cur);
    r := cur.fields;
    LowPowerBody(w, t);
  }

  /** One loop iteration of the layout's decoder. */
  method ParseBatch(l: Layout, w: string, t: Table) returns (r: Fields)
    requires IsHexString(w) && |w| == Stride(l) && SlopesNonzero(t)
    ensures r == Record(l, w, t)
  {
    match l
    case Idle => r := ParseIdleBatch(w, t);
    case Attitude => r := ParseAttitudeBatch(w, t);
    case FlashCmp => r := ParseFlashCmpBatch(w, t);
    case LowPower => r := ParseLowPowerBatch(w, t);
  }

  /** Appending the record of batch i extends the first i batches by one. */
  lemma BatchesExtend(l: Layout, ps: string, t: Table, i: nat, records: seq<Fields>, cur: Fields)
    requires IsHexString(ps) && SlopesNonzero(t) && Fits(l, t, |ps|) && i < BatchCount(l, t)
    requires records == Batches(l, ps, t)[..i]
    requires cur == Record(l, Window(l, ps, t, i), t)
    ensures records + [cur] == Batches(l, ps, t)[..i + 1]
  {
    PrefixExtend(Batches(l, ps, t), i, records, cur);
  }

  /** parse_idle_data, parse_attitude_data, parse_flash_cmp_data and parse_low_power_data: the
      cursor starts at the data section and advances by the stride after every batch. */
  method ParseBatches(l: Layout, ps: string, t: Table) returns (records: seq<Fields>)
    requires IsHexString(ps) && SlopesNonzero(t) && Fits(l, t, |ps|)
    ensures records == Batches(l, ps, t)
    ensures |records| == BatchCount(l, t)
  {
    records := [];
    var start := t.dataSectionStart;
    for i := 0 to BatchCount(l, t)
      invariant start == t.dataSectionStart + i * Stride(l)
      invariant records == Batches(l, ps, t)[..i]
    {
      BatchInPacket(l, t, |ps|, i);
      var w := ps[start..start + Stride(l)];
      assert w == Window(l, ps, t, i);
      var cur := ParseBatch(l, w, t);
      BatchesExtend(l, ps, t, i, records, cur);
      records := records + [cur];
      start := start + Stride(l);
    }
  }
}

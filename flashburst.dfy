/** parse_flash_burst_data: n burst entries whose fields the decoder stores pass by pass. Pass p
    writes one block into every entry, entry j reading the packet at the pass's base plus j times
    the pass's width. The widths are 8, 4, 8, 8, 8 and 6 hex digits, so with S the data-section
    start the passes begin at S, S+8n, S+12n, S+20n, S+28n and S+36n, and the timestamp follows
    at S+42n. */
module FlashBurst {
  import opened Hex
  import opened Calibration
  import opened Values
  import opened DataSection

  /** The six passes and the timestamp after them fit in a packet of len hex digits. */
  predicate BurstFits(t: Table, len: nat)
  {
    t.dataSectionStart + 42 * t.flashBurstBatches + 8 <= len
  }

  /** Hex digits one entry takes in pass p: `start += 8`, `4`, `8`, `8`, `8`, `6`. */
  function PassWidth(p: nat): nat
    requires p < 6
  {
    match p
    case 0 => 8
    case 1 => 4
    case 2 => 8
    case 3 => 8
    case 4 => 8
    case 5 => 6
  }

  /** Where pass p reads entry j: the cursor after all earlier passes and j steps of this one. */
  function PassOffset(t: Table, p: nat, j: nat): nat
    requires p < 6
  {
    var s, n := t.dataSectionStart, t.flashBurstBatches;
    match p
    case 0 => s + 8 * j
    case 1 => s + 8 * n + 4 * j
    case 2 => s + 12 * n + 8 * j
    case 3 => s + 20 * n + 8 * j
    case 4 => s + 28 * n + 8 * j
    case 5 => s + 36 * n + 6 * j
  }

  /** `hex_to_int_le(ps[start:start+8])` after the last pass. */
  function TimestampOffset(t: Table): nat
  {
    t.dataSectionStart + 42 * t.flashBurstBatches
  }

  /** Each pass ends where the next begins, and the last one where the timestamp begins. */
  lemma PassesChain(t: Table, p: nat)
    requires p < 6
    ensures PassOffset(t, p, t.flashBurstBatches)
         == if p < 5 then PassOffset(t, p + 1, 0) else TimestampOffset(t)
  {
  }

  /** Every read of every pass lies in [S, S+42n), the region before the timestamp. */
  lemma PassInRegion(t: Table, p: nat, j: nat)
    requires p < 6 && j < t.flashBurstBatches
    ensures t.dataSectionStart <= PassOffset(t, p, j)
    ensures PassOffset(t, p, j) + PassWidth(p) <= TimestampOffset(t)
  {
  }

  /** No two reads overlap: distinct (pass, entry) pairs read disjoint digits. */
  lemma PassesDisjoint(t: Table, p: nat, j: nat, q: nat, k: nat)
    requires p < 6 && q < 6 && j < t.flashBurstBatches && k < t.flashBurstBatches
    requires p != q || j != k
    ensures PassOffset(t, p, j) + PassWidth(p) <= PassOffset(t, q, k)
         || PassOffset(t, q, k) + PassWidth(q) <= PassOffset(t, p, j)
  {
  }

  // Burst entry j after each pass: the five flash-compare blocks, then the gyroscope

  /** Burst entry j once the first k passes have run. */
  function Stage(ps: string, t: Table, k: nat, j: nat): Fields
    requires IsHexString(ps) && SlopesNonzero(t) && BurstFits(t, |ps|)
    requires k <= 6 && j < t.flashBurstBatches
  {
    if k == 0 then map[]
    else
      PassInRegion(t, k - 1, j);
      var prev, i := Stage(ps, t, k - 1, j), PassOffset(t, k - 1, j);
      if k == 1 then WithLedTemps(prev, ps, i, t)
      else if k == 2 then WithLfTemps(prev, ps, i, t)
      else if k == 3 then WithLfbSense(prev, ps, i, t)
      else if k == 4 then WithLfRefs(prev, ps, i, t)
      else if k == 5 then WithLedSense(prev, ps, i, t)
      else prev[gyroscope := DictVal(Gyroscope(ps, i, t))]
  }

  /** Burst entry j as the decoder returns it, after the gyroscope pass. */
  function BurstEntry(ps: string, t: Table, j: nat): Fields
    requires IsHexString(ps) && SlopesNonzero(t) && BurstFits(t, |ps|) && j < t.flashBurstBatches
  {
    Stage(ps, t, 6, j)
  }

  function BurstEntries(ps: string, t: Table): seq<Fields>
    requires IsHexString(ps) && SlopesNonzero(t) && BurstFits(t, |ps|)
  {
    seq(t.flashBurstBatches, j requires 0 <= j < t.flashBurstBatches => BurstEntry(ps, t, j))
  }

  function Min(a: int, b: int): int
  {
    if a <= b then a else b
  }

  /** The dictionary parse_flash_burst_data returns. Its data_hash is the slice
      `ps[start:start+302]`, which Python cuts short at the end of the packet. */
  function FlashBurstData(ps: string, t: Table): Fields
    requires IsHexString(ps) && SlopesNonzero(t) && BurstFits(t, |ps|)
  {
    var s := t.dataSectionStart;
    map[data_hash := StrVal(ps[s..Min(s + 302, |ps|)]),
        burst := DictList(BurstEntries(ps, t)),
        timestamp := IntVal(Le32At(ps, TimestampOffset(t)))]
  }

  /** The keys pass p writes into every entry. */
  function PassKeys(p: nat): set<Key>
    requires p < 6
  {
    match p
    case 0 => {LED1TEMP, LED2TEMP, LED3TEMP, LED4TEMP}
    case 1 => {LF1_TEMP, LF3_TEMP}
    case 2 => {LFB1SNS, LFB1OSNS, LFB2SNS, LFB2OSNS}
    case 3 => {LF1REF, LF2REF, LF3REF, LF4REF}
    case 4 => {LED1SNS, LED2SNS, LED3SNS, LED4SNS}
    case 5 => {gyroscope}
  }

  /** The keys of the first k passes together. */
  function KeysBefore(k: nat): set<Key>
    requires k <= 6
  {
    if k == 0 then {} else KeysBefore(k - 1) + PassKeys(k - 1)
  }

  /** After k passes an entry holds exactly the keys those passes write. */
  lemma {:induction false} StageKeys(ps: string, t: Table, k: nat, j: nat)
    requires IsHexString(ps) && SlopesNonzero(t) && BurstFits(t, |ps|)
    requires k <= 6 && j < t.flashBurstBatches
    ensures Stage(ps, t, k, j).Keys == KeysBefore(k)
  {
    if k > 0 {
      StageKeys(ps, t, k - 1, j);
    }
  }

  /** The nineteen entries of a burst record. */
  const BurstEntryKeySet: set<Key> := {
    LED1TEMP, LED2TEMP, LED3TEMP, LED4TEMP, LF1_TEMP, LF3_TEMP,
    LFB1SNS, LFB1OSNS, LFB2SNS, LFB2OSNS, LF1REF, LF2REF, LF3REF, LF4REF,
    LED1SNS, LED2SNS, LED3SNS, LED4SNS, gyroscope}

  /** A burst entry holds the five flash blocks and the gyroscope and nothing else: no timestamp
      and no data_hash, which the flash-burst data carries once for the whole burst. */
  lemma BurstEntryKeys(ps: string, t: Table, j: nat)
    requires IsHexString(ps) && SlopesNonzero(t) && BurstFits(t, |ps|) && j < t.flashBurstBatches
    ensures BurstEntry(ps, t, j).Keys == BurstEntryKeySet
  {
    StageKeys(ps, t, 6, j);
    AllPassKeys();
  }

  /** The six passes together write the nineteen keys of a burst record. */
  lemma AllPassKeys()
    ensures KeysBefore(6) == BurstEntryKeySet
  {
    assert KeysBefore(2) == {LED1TEMP, LED2TEMP, LED3TEMP, LED4TEMP, LF1_TEMP, LF3_TEMP};
    assert KeysBefore(4) == KeysBefore(2) + {LFB1SNS, LFB1OSNS, LFB2SNS, LFB2OSNS, LF1REF, LF2REF, LF3REF, LF4REF};
  }

  /** The flash-burst data holds the slice of 302 digits at S, the n entries in order and the
      timestamp read little-endian at S+42n. With n = 7 the slice is exactly the six passes and
      the timestamp, since 42 * 7 + 8 = 302. */
  lemma FlashBurstShape(ps: string, t: Table)
    requires IsHexString(ps) && SlopesNonzero(t) && BurstFits(t, |ps|)
    ensures var d, s, n := FlashBurstData(ps, t), t.dataSectionStart, t.flashBurstBatches;
      && d.Keys == {data_hash, burst, timestamp}
      && d[burst].ListVal? && |d[burst].items| == n
      && (forall j :: 0 <= j < n ==> d[burst].items[j] == DictVal(BurstEntry(ps, t, j)))
      && d[timestamp] == IntVal(HexToIntLe(ps[s + 42 * n..s + 42 * n + 8]).value)
      && (s + 302 <= |ps| ==> d[data_hash] == StrVal(ps[s..s + 302]))
      && (n == 7 ==> d[data_hash] == StrVal(ps[s..TimestampOffset(t) + 8]))
  {
    Le32AtIsHexToIntLe(ps, TimestampOffset(t));
  }

  // Each pass takes an entry from one stage to the next

  lemma LedTempsStep(ps: string, t: Table, j: nat)
    requires IsHexString(ps) && SlopesNonzero(t) && BurstFits(t, |ps|) && j < t.flashBurstBatches
    ensures PassOffset(t, 0, j) + 8 <= |ps|
    ensures Stage(ps, t, 1, j) == WithLedTemps(map[], ps, PassOffset(t, 0, j), t)
  {
    PassInRegion(t, 0, j);
  }

  lemma LfTempsStep(ps: string, t: Table, j: nat)
    requires IsHexString(ps) && SlopesNonzero(t) && BurstFits(t, |ps|) && j < t.flashBurstBatches
    ensures PassOffset(t, 1, j) + 4 <= |ps|
    ensures Stage(ps, t, 2, j) == WithLfTemps(Stage(ps, t, 1, j), ps, PassOffset(t, 1, j), t)
  {
    PassInRegion(t, 1, j);
  }

  lemma LfbSenseStep(ps: string, t: Table, j: nat)
    requires IsHexString(ps) && SlopesNonzero(t) && BurstFits(t, |ps|) && j < t.flashBurstBatches
    ensures PassOffset(t, 2, j) + 8 <= |ps|
    ensures Stage(ps, t, 3, j) == WithLfbSense(Stage(ps, t, 2, j), ps, PassOffset(t, 2, j), t)
  {
    PassInRegion(t, 2, j);
  }

  lemma LfRefsStep(ps: string, t: Table, j: nat)
    requires IsHexString(ps) && SlopesNonzero(t) && BurstFits(t, |ps|) && j < t.flashBurstBatches
    ensures PassOffset(t, 3, j) + 8 <= |ps|
    ensures Stage(ps, t, 4, j) == WithLfRefs(Stage(ps, t, 3, j), ps, PassOffset(t, 3, j), t)
  {
    PassInRegion(t, 3, j);
  }

  lemma LedSenseStep(ps: string, t: Table, j: nat)
    requires IsHexString(ps) && SlopesNonzero(t) && BurstFits(t, |ps|) && j < t.flashBurstBatches
    ensures PassOffset(t, 4, j) + 8 <= |ps|
    ensures Stage(ps, t, 5, j) == WithLedSense(Stage(ps, t, 4, j), ps, PassOffset(t, 4, j), t)
  {
    PassInRegion(t, 4, j);
  }

  lemma GyroscopeStep(ps: string, t: Table, j: nat)
    requires IsHexString(ps) && SlopesNonzero(t) && BurstFits(t, |ps|) && j < t.flashBurstBatches
    ensures PassOffset(t, 5, j) + 6 <= |ps|
    ensures BurstEntry(ps, t, j) == Stage(ps, t, 5, j)[gyroscope := DictVal(Gyroscope(ps, PassOffset(t, 5, j), t))]
  {
    PassInRegion(t, 5, j);
  }

  /** One of the six loops of parse_flash_burst_data. Pass p writes `block` into every entry i,
      in order, reading at the cursor, and advances the cursor by the pass's width. The states
      `before` and `after` of each entry, with after(j) the block applied to before(j) at entry
      j's offset, let the caller say what the pass achieves. */
  method RunPass(p: nat, t: Table, entries: array<Fields>, start0: nat, block: (Fields, nat) --> Fields,
                 ghost before: nat --> Fields, ghost after: nat --> Fields) returns (start: nat)
    requires p < 6 && entries.Length == t.flashBurstBatches && start0 == PassOffset(t, p, 0)
    requires forall j :: 0 <= j < entries.Length ==>
      && before.requires(j) && after.requires(j) && block.requires(before(j), PassOffset(t, p, j))
      && after(j) == block(before(j), PassOffset(t, p, j))
    requires forall j :: 0 <= j < entries.Length ==> entries[j] == before(j)
    modifies entries
    ensures start == PassOffset(t, p, entries.Length)
    ensures forall j :: 0 <= j < entries.Length ==> entries[j] == after(j)
  {
    start := start0;
    for i := 0 to entries.Length
      invariant start == PassOffset(t, p, i)
      invariant forall j :: 0 <= j < i ==> entries[j] == after(j)
      invariant forall j :: i <= j < entries.Length ==> entries[j] == before(j)
    {
      entries[i] := block(entries[i], start);
      start := start + PassWidth(p);
    }
  }

  /** The burst list holds n entries, each as it stands after the first k passes. */
  ghost predicate PassesDone(ps: string, t: Table, k: nat, entries: array<Fields>)
    reads entries
  {
    && IsHexString(ps) && SlopesNonzero(t) && BurstFits(t, |ps|) && k <= 6
    && entries.Length == t.flashBurstBatches
    && forall j :: 0 <= j < entries.Length ==> entries[j] == Stage(ps, t, k, j)
  }

  /** The first loop: the LED temperatures of entry i at S + 8i. */
  method LedTempsPass(ps: string, t: Table, entries: array<Fields>, start0: nat) returns (start: nat)
    requires PassesDone(ps, t, 0, entries) && start0 == PassOffset(t, 0, 0)
    modifies entries
    ensures PassesDone(ps, t, 1, entries)
    ensures start == PassOffset(t, 0, entries.Length)
  {
    var n := t.flashBurstBatches;
    forall j | 0 <= j < n
      ensures PassOffset(t, 0, j) + 8 <= |ps| && Stage(ps, t, 1, j) == WithLedTemps(map[], ps, PassOffset(t, 0, j), t)
    {
      LedTempsStep(ps, t, j);
    }
    start := RunPass(0, t, entries, start0,
      (obj: Fields, i: nat) requires i + 8 <= |ps| => WithLedTemps(obj, ps, i, t),
      (j: nat) => map[],
      (j: nat) requires j < n => Stage(ps, t, 1, j));
  }

  /** The second loop: the LiFePO4 temperatures of entry i at S + 8n + 4i. */
  method LfTempsPass(ps: string, t: Table, entries: array<Fields>, start0: nat) returns (start: nat)
    requires PassesDone(ps, t, 1, entries) && start0 == PassOffset(t, 1, 0)
    modifies entries
    ensures PassesDone(ps, t, 2, entries)
    ensures start == PassOffset(t, 1, entries.Length)
  {
    var n := t.flashBurstBatches;
    forall j | 0 <= j < n
      ensures PassOffset(t, 1, j) + 4 <= |ps| && Stage(ps, t, 2, j) == WithLfTemps(Stage(ps, t, 1, j), ps, PassOffset(t, 1, j), t)
    {
      LfTempsStep(ps, t, j);
    }
    start := RunPass(1, t, entries, start0,
      (obj: Fields, i: nat) requires i + 4 <= |ps| => WithLfTemps(obj, ps, i, t),
      (j: nat) requires j < n => Stage(ps, t, 1, j),
      (j: nat) requires j < n => Stage(ps, t, 2, j));
  }

  /** The third loop: the bank currents of entry i at S + 12n + 8i. */
  method LfbSensePass(ps: string, t: Table, entries: array<Fields>, start0: nat) returns (start: nat)
    requires PassesDone(ps, t, 2, entries) && start0 == PassOffset(t, 2, 0)
    modifies entries
    ensures PassesDone(ps, t, 3, entries)
    ensures start == PassOffset(t, 2, entries.Length)
  {
    var n := t.flashBurstBatches;
    forall j | 0 <= j < n
      ensures PassOffset(t, 2, j) + 8 <= |ps| && Stage(ps, t, 3, j) == WithLfbSense(Stage(ps, t, 2, j), ps, PassOffset(t, 2, j), t)
    {
      LfbSenseStep(ps, t, j);
    }
    start := RunPass(2, t, entries, start0,
      (obj: Fields, i: nat) requires i + 8 <= |ps| => WithLfbSense(obj, ps, i, t),
      (j: nat) requires j < n => Stage(ps, t, 2, j),
      (j: nat) requires j < n => Stage(ps, t, 3, j));
  }

  /** The fourth loop: the reference voltages of entry i at S + 20n + 8i. */
  method LfRefsPass(ps: string, t: Table, entries: array<Fields>, start0: nat) returns (start: nat)
    requires PassesDone(ps, t, 3, entries) && start0 == PassOffset(t, 3, 0)
    modifies entries
    ensures PassesDone(ps, t, 4, entries)
    ensures start == PassOffset(t, 3, entries.Length)
  {
    var n := t.flashBurstBatches;
    forall j | 0 <= j < n
      ensures PassOffset(t, 3, j) + 8 <= |ps| && Stage(ps, t, 4, j) == WithLfRefs(Stage(ps, t, 3, j), ps, PassOffset(t, 3, j), t)
    {
      LfRefsStep(ps, t, j);
    }
    start := RunPass(3, t, entries, start0,
      (obj: Fields, i: nat) requires i + 8 <= |ps| => WithLfRefs(obj, ps, i, t),
      (j: nat) requires j < n => Stage(ps, t, 3, j),
      (j: nat) requires j < n => Stage(ps, t, 4, j));
  }

  /** The fifth loop: the LED currents of entry i at S + 28n + 8i. */
  method LedSensePass(ps: string, t: Table, entries: array<Fields>, start0: nat) returns (start: nat)
    requires PassesDone(ps, t, 4, entries) && start0 == PassOffset(t, 4, 0)
    modifies entries
    ensures PassesDone(ps, t, 5, entries)
    ensures start == PassOffset(t, 4, entries.Length)
  {
    var n := t.flashBurstBatches;
    forall j | 0 <= j < n
      ensures PassOffset(t, 4, j) + 8 <= |ps| && Stage(ps, t, 5, j) == WithLedSense(Stage(ps, t, 4, j), ps, PassOffset(t, 4, j), t)
    {
      LedSenseStep(ps, t, j);
    }
    start := RunPass(4, t, entries, start0,
      (obj: Fields, i: nat) requires i + 8 <= |ps| => WithLedSense(obj, ps, i, t),
      (j: nat) requires j < n => Stage(ps, t, 4, j),
      (j: nat) requires j < n => Stage(ps, t, 5, j));
  }

  /** The sixth loop: a gyroscope dictionary for entry i from S + 36n + 6i. */
  method GyroscopePass(ps: string, t: Table, entries: array<Fields>, start0: nat) returns (start: nat)
    requires PassesDone(ps, t, 5, entries) && start0 == PassOffset(t, 5, 0)
    modifies entries
    ensures PassesDone(ps, t, 6, entries)
    ensures start == PassOffset(t, 5, entries.Length)
  {
    var n := t.flashBurstBatches;
    forall j | 0 <= j < n
      ensures PassOffset(t, 5, j) + 6 <= |ps| && BurstEntry(ps, t, j) == Stage(ps, t, 5, j)[gyroscope := DictVal(Gyroscope(ps, PassOffset(t, 5, j), t))]
    {
      GyroscopeStep(ps, t, j);
    }
    start := RunPass(5, t, entries, start0,
      (obj: Fields, i: nat) requires i + 6 <= |ps| => obj[gyroscope := DictVal(Gyroscope(ps, i, t))],
      (j: nat) requires j < n => Stage(ps, t, 5, j),
      (j: nat) requires j < n => BurstEntry(ps, t, j));
  }

  /** parse_flash_burst_data: the list of n empty dictionaries, the data_hash, the six passes and
      the timestamp at the cursor they leave behind. */
  method ParseFlashBurstData(ps: string, t: Table) returns (data: Fields)
    requires IsHexString(ps) && SlopesNonzero(t) && BurstFits(t, |ps|)
    ensures data == FlashBurstData(ps, t)
  {
    var entries := new Fields[t.flashBurstBatches](_ => map[]);
    var start := t.dataSectionStart;
    data := map[data_hash := StrVal(ps[start..Min(start + 302, |ps|)])];
    start := RunPasses(ps, t, entries);
    data := data[burst := DictList(entries[..])];
    data := data[timestamp := IntVal(Le32At(ps, start))];
  }

  /** The six loops in turn, each starting at the cursor the previous one leaves behind. */
  method RunPasses(ps: string, t: Table, entries: array<Fields>) returns (start: nat)
    requires PassesDone(ps, t, 0, entries)
    modifies entries
    ensures entries[..] == BurstEntries(ps, t)
    ensures start == TimestampOffset(t)
  {
    start := LedTempsPass(ps, t, entries, t.dataSectionStart);
    start := LfTempsPass(ps, t, entries, start);
    start := LfbSensePass(ps, t, entries, start);
    start := LfRefsPass(ps, t, entries, start);
    start := LedSensePass(ps, t, entries, start);
    start := GyroscopePass(ps, t, entries, start);
  }
}

// The empirical frequency-to-pressure table and its nearest-match lookup.
module CalibrationTable {

  /** One measured point: a tyre pressure and the knock frequency heard at it. */
  datatype CalibrationPoint = CalibrationPoint(psi: int, freq: real)

  /** `psiData`, in the order the table lists it (the order decides ties). */
  const PsiData: seq<CalibrationPoint> := [
    CalibrationPoint(105, 98.0),
    CalibrationPoint(100, 95.2), CalibrationPoint(95, 92.2), CalibrationPoint(90, 88.0),
    CalibrationPoint(85, 85.0), CalibrationPoint(80, 84.2), CalibrationPoint(75, 82.8),
    CalibrationPoint(70, 82.2), CalibrationPoint(65, 82.0), CalibrationPoint(60, 79.8),
    CalibrationPoint(55, 77.2), CalibrationPoint(50, 73.0), CalibrationPoint(45, 70.0),
    CalibrationPoint(40, 67.6), CalibrationPoint(35, 65.4), CalibrationPoint(30, 64.0),
    CalibrationPoint(25, 64.0), CalibrationPoint(20, 64.0)
  ]

  /** `Math.abs(p.freq - f)`. */
  function Distance(p: CalibrationPoint, f: real): real
  {
    if p.freq >= f then p.freq - f else f - p.freq
  }

  /**
   * Position k holds the first entry of `table` that is closest to `f`:
   * no entry is strictly closer, and every earlier entry is strictly farther.
   */
  ghost predicate IsFirstNearest(table: seq<CalibrationPoint>, f: real, k: int)
  {
    && 0 <= k < |table|
    && (forall j :: 0 <= j < |table| ==> Distance(table[k], f) <= Distance(table[j], f))
    && (forall j :: 0 <= j < k ==> Distance(table[k], f) < Distance(table[j], f))
  }

  /**
   * The `reduce` of `findNearestPSI` from position `i` on, with the position
   * `prev` of the accumulated entry: the current entry replaces the
   * accumulator only when it is strictly closer.
   */
  function ReduceNearest(table: seq<CalibrationPoint>, f: real, prev: nat, i: nat): (k: nat)
    requires prev < i <= |table|
    requires IsFirstNearest(table[..i], f, prev)
    ensures IsFirstNearest(table, f, k)
    decreases |table| - i
  {
    if i == |table| then
      assert table[..i] == table;
      prev
    else
      var next := if Distance(table[i], f) < Distance(table[prev], f) then i else prev;
      assert table[..i + 1] == table[..i] + [table[i]];
      ReduceNearest(table, f, next, i + 1)
  }

  /**
   * The entry `reduce` settles on: it starts from the first entry (a `reduce`
   * without an initial value), so the table must not be empty.
   */
  function NearestIndex(table: seq<CalibrationPoint>, f: real): (k: nat)
    requires |table| > 0
    ensures IsFirstNearest(table, f, k)
  {
    ReduceNearest(table, f, 0, 1)
  }

  /** `findNearestPSI(freq)`: the pressure of the first closest entry of `psiData`. */
  function FindNearestPsi(f: real): (psi: int)
    ensures exists k :: IsFirstNearest(PsiData, f, k) && psi == PsiData[k].psi
    ensures 20 <= psi <= 105
  {
    var k := NearestIndex(PsiData, f);
    assert PsiData[k] in PsiData;
    PsiData[k].psi
  }

  /** The first nearest entry comes no later than any entry equally close. */
  lemma FirstNearestPrecedesTies(table: seq<CalibrationPoint>, f: real, k: int, j: int)
    requires IsFirstNearest(table, f, k)
    requires 0 <= j < |table| && Distance(table[j], f) == Distance(table[k], f)
    ensures k <= j
  {
  }

  /** At most one position is the first nearest one: the lookup is deterministic. */
  lemma FirstNearestUnique(table: seq<CalibrationPoint>, f: real, k1: int, k2: int)
    requires IsFirstNearest(table, f, k1) && IsFirstNearest(table, f, k2)
    ensures k1 == k2
  {
    // Each is as close as the other, and a strictly earlier one would be strictly closer.
    assert Distance(table[k1], f) <= Distance(table[k2], f);
    assert Distance(table[k2], f) <= Distance(table[k1], f);
  }

  /** Entry `j` is strictly closer to `f` than every entry before position `hi`. */
  ghost predicate BeatsBefore(table: seq<CalibrationPoint>, f: real, j: int, hi: int)
    requires 0 <= j < |table|
  {
    forall m :: 0 <= m < hi && m < |table| ==> Distance(table[j], f) < Distance(table[m], f)
  }

  /** Entry `j` is strictly closer to `f` than every entry from position `lo` on. */
  ghost predicate BeatsFrom(table: seq<CalibrationPoint>, f: real, j: int, lo: int)
    requires 0 <= j < |table|
  {
    forall m :: 0 <= m < |table| && lo <= m ==> Distance(table[j], f) < Distance(table[m], f)
  }

  /** The first nearest entry lies before any suffix that entry `j` strictly beats. */
  lemma NearestBefore(table: seq<CalibrationPoint>, f: real, k: int, j: int, lo: int)
    requires IsFirstNearest(table, f, k) && 0 <= j < |table| && 0 <= lo
    requires BeatsFrom(table, f, j, lo)
    ensures k < lo
  {
    assert Distance(table[k], f) <= Distance(table[j], f);
  }

  /** The first nearest entry lies after any prefix that entry `j` strictly beats. */
  lemma NearestAfter(table: seq<CalibrationPoint>, f: real, k: int, j: int, hi: int)
    requires IsFirstNearest(table, f, k) && 0 <= j < |table|
    requires BeatsBefore(table, f, j, hi)
    ensures hi <= k
  {
    assert Distance(table[k], f) <= Distance(table[j], f);
  }

  // Facts read off the table, each kept apart from the lookup's own contract.

  /** The entries the proofs below single out. */
  lemma NamedEntries()
    ensures |PsiData| == 18
    ensures PsiData[0] == CalibrationPoint(105, 98.0) && PsiData[1] == CalibrationPoint(100, 95.2)
    ensures PsiData[6] == CalibrationPoint(75, 82.8) && PsiData[15] == CalibrationPoint(30, 64.0)
  {
  }

  /** Every frequency of the table is at least 64 Hz, and only the last three are exactly 64 Hz. */
  lemma FrequenciesFrom64()
    ensures forall j :: 0 <= j < |PsiData| ==> PsiData[j].freq >= 64.0
    ensures forall j :: 0 <= j < 15 ==> PsiData[j].freq > 64.0
  {
  }

  /** The six first entries sit at 84.2 Hz or above, the rest at 82.8 Hz or below. */
  lemma FrequenciesAround83()
    ensures forall m :: 0 <= m <= 5 ==> PsiData[m].freq >= 84.2
    ensures forall m :: 6 <= m < |PsiData| ==> PsiData[m].freq <= 82.8
    ensures forall m :: 2 <= m < |PsiData| ==> PsiData[m].freq <= 92.2
  {
  }

  /** The entries at positions 1 to 5 are the ones of 80 to 100 PSI. */
  lemma NormalEntries(k: nat)
    requires k < |PsiData|
    ensures 80 <= PsiData[k].psi <= 100 <==> 1 <= k <= 5
  {
  }

  /** Only the first entry of the table reads more than 100 PSI. */
  lemma OnlyFirstEntryAbove100(k: nat)
    requires k < |PsiData|
    ensures PsiData[k].psi > 100 <==> k == 0
  {
  }

  /** Below 96.6 Hz the 95.2 Hz entry is strictly closer than the 98 Hz one. */
  lemma SecondBeatsFirst(f: real)
    requires f < 96.6
    ensures |PsiData| == 18 && BeatsBefore(PsiData, f, 1, 1)
  {
    NamedEntries();
  }

  /** From 94.5 to 95.5 Hz the 95.2 Hz entry is strictly closer than every later one. */
  lemma SecondBeatsLater(f: real)
    requires 94.5 <= f < 95.5
    ensures |PsiData| == 18 && BeatsFrom(PsiData, f, 1, 2)
  {
    NamedEntries();
    FrequenciesAround83();
  }

  /** At or below 64 Hz the first 64 Hz entry is strictly closer than every earlier one. */
  lemma FirstLowestBeatsBefore(f: real)
    requires f <= 64.0
    ensures |PsiData| == 18 && BeatsBefore(PsiData, f, 15, 15)
  {
    NamedEntries();
    FrequenciesFrom64();
  }

  /** Up to 83 Hz the 82.8 Hz entry is strictly closer than every entry above it. */
  lemma Entry83BeatsBefore(f: int)
    requires f <= 83
    ensures |PsiData| == 18 && BeatsBefore(PsiData, f as real, 6, 6)
  {
    NamedEntries();
    FrequenciesAround83();
  }

  /**
   * Below 96.6 Hz the 95.2 Hz entry is strictly closer than the 98 Hz one, so
   * the lookup never answers 105 PSI there.
   */
  lemma NeverAbove100Below96(f: real)
    requires f < 96.6
    ensures NearestIndex(PsiData, f) != 0
    ensures FindNearestPsi(f) <= 100
  {
    var k := NearestIndex(PsiData, f);
    SecondBeatsFirst(f);
    NearestAfter(PsiData, f, k, 1, 1);
    OnlyFirstEntryAbove100(k);
  }

  /**
   * At or below 64 Hz the three 64 Hz entries are the closest, and the first
   * of them (30 PSI) wins the tie.
   */
  lemma LowFrequencyIs30(f: real)
    requires f <= 64.0
    ensures NearestIndex(PsiData, f) == 15
    ensures FindNearestPsi(f) == 30
  {
    var k := NearestIndex(PsiData, f);
    FirstLowestBeatsBefore(f);
    NearestAfter(PsiData, f, k, 15, 15);
    NamedEntries();
    FrequenciesFrom64();
    // k is no farther than entry 15, and every entry is at least that far.
    assert Distance(PsiData[k], f) == Distance(PsiData[15], f);
    FirstNearestPrecedesTies(PsiData, f, k, 15);
  }

  /** Around 95 Hz the 95.2 Hz entry is the closest: the lookup answers 100 PSI. */
  lemma NearestAround95(f: real)
    requires 94.5 <= f < 95.5
    ensures FindNearestPsi(f) == 100
  {
    var k := NearestIndex(PsiData, f);
    SecondBeatsFirst(f);
    SecondBeatsLater(f);
    NearestAfter(PsiData, f, k, 1, 1);
    NearestBefore(PsiData, f, k, 1, 2);
    NamedEntries();
  }

  /** Up to 83 Hz the 82.8 Hz entry (75 PSI) beats every entry of 80 PSI or more. */
  lemma UnderinflatedBelow84(f: int)
    requires f <= 83
    ensures FindNearestPsi(f as real) < 80
  {
    var x := f as real;
    var k := NearestIndex(PsiData, x);
    Entry83BeatsBefore(f);
    NearestAfter(PsiData, x, k, 6, 6);
    NormalEntries(k);
    OnlyFirstEntryAbove100(k);
  }

  /**
   * From 84 to 95 Hz, an entry of 80 to 100 PSI that is strictly closer than
   * every entry at 82.8 Hz or below.
   */
  lemma CloseNormalEntry(f: int) returns (j: nat)
    requires 84 <= f <= 95
    ensures 1 <= j <= 5 && |PsiData| == 18 && BeatsFrom(PsiData, f as real, j, 6)
  {
    NamedEntries();
    FrequenciesAround83();
    j := if f <= 84 then 5 else if f <= 86 then 4 else if f <= 90 then 3 else if f <= 93 then 2 else 1;
  }

  /**
   * From 84 to 95 Hz one of the entries 84.2 to 95.2 Hz (80 to 100 PSI) is
   * strictly closer than every entry at 82.8 Hz or below.
   */
  lemma NormalFrom84To95(f: int)
    requires 84 <= f <= 95
    ensures 80 <= FindNearestPsi(f as real) <= 100
  {
    var x := f as real;
    var k := NearestIndex(PsiData, x);
    NeverAbove100Below96(x);
    var j := CloseNormalEntry(f);
    NearestBefore(PsiData, x, k, j, 6);
    NormalEntries(k);
  }

  /**
   * For a whole number of hertz up to 95, the lookup answers between 80 and
   * 100 PSI exactly from 84 Hz on.
   */
  lemma NormalBandOfTable(f: int)
    requires f <= 95
    ensures 80 <= FindNearestPsi(f as real) <= 100 <==> 84 <= f
  {
    if f <= 83 {
      UnderinflatedBelow84(f);
    } else {
      NormalFrom84To95(f);
    }
  }
}

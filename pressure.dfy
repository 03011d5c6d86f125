// The branch structure of `displayResult`: how a peak frequency becomes the
// status, frequency and pressure the page shows.
module Pressure {
  import opened CalibrationTable

  /** `MAX_FREQ_LIMIT`: above this many hertz the knock is asked again. */
  const MaxFreqLimit: int := 125

  /**
   * `Math.round(x)`: the nearest integer, halves rounded up (towards
   * positive infinity, so -2.5 becomes -2).
   */
  function RoundHalfUp(x: real): (n: int)
    ensures n as real - 0.5 <= x < n as real + 0.5
  {
    (x + 0.5).Floor
  }

  /** What the pressure field shows: '-', '> 100 PSI' or a number of PSI. */
  datatype PsiText = Dash | Over100 | Psi(value: int)

  /** The four outcomes: remeasure, hard ('> 100 PSI'), normal, underinflated. */
  datatype Status = Remeasure | Hard | Normal | Underinflated

  /** The rounded frequency, the pressure text and the status of one knock. */
  datatype Display = Display(freq: int, psiText: PsiText, status: Status)

  /**
   * `displayResult(frequency)`: round the frequency, look up the nearest
   * pressure, then decide in this order: out of range, hard, normal, soft.
   */
  function DisplayResult(frequency: real): (d: Display)
    ensures d.freq == RoundHalfUp(frequency)
    ensures d.status == Remeasure <==> d.psiText == Dash
    ensures d.status == Hard <==> d.psiText == Over100
    ensures d.psiText.Psi? ==> d.psiText.value == FindNearestPsi(d.freq as real)
    ensures d.psiText.Psi? ==> 20 <= d.psiText.value <= 100
    ensures d.status == Normal ==> 80 <= d.psiText.value <= 100
    ensures d.status == Underinflated ==> d.psiText.value < 80
  {
    var freq := RoundHalfUp(frequency);
    var psi := FindNearestPsi(freq as real);
    if freq > MaxFreqLimit then Display(freq, Dash, Remeasure)
    else if freq as real > 95.2 || psi > 100 then Display(freq, Over100, Hard)
    else if psi >= 80 && psi <= 100 then Display(freq, Psi(psi), Normal)
    else Display(freq, Psi(psi), Underinflated)
  }

  /**
   * With this table the status depends on the rounded frequency alone:
   * above 125 Hz remeasure, 96 to 125 Hz hard, 84 to 95 Hz normal, and
   * 83 Hz or less underinflated.
   */
  lemma StatusByFrequency(frequency: real)
    ensures var freq := RoundHalfUp(frequency);
      && (DisplayResult(frequency).status == Remeasure <==> freq > 125)
      && (DisplayResult(frequency).status == Hard <==> 96 <= freq <= 125)
      && (DisplayResult(frequency).status == Normal <==> 84 <= freq <= 95)
      && (DisplayResult(frequency).status == Underinflated <==> freq <= 83)
  {
    var freq := RoundHalfUp(frequency);
    if freq <= 95 {
      NeverAbove100Below96(freq as real);
      NormalBandOfTable(freq);
    }
  }

  /**
   * Rounding comes first, so the boundaries sit at half hertz: 125.0 and
   * 125.1 Hz still read '> 100 PSI', 125.5 Hz asks to remeasure, and
   * 95.2 and 95.3 Hz round to 95 Hz, which reads 100 PSI, normal.
   */
  lemma BoundaryCases()
    ensures DisplayResult(125.0).status == Hard
    ensures DisplayResult(125.1).status == Hard
    ensures DisplayResult(125.5).status == Remeasure
    ensures DisplayResult(95.2) == Display(95, Psi(100), Normal)
    ensures DisplayResult(95.3) == Display(95, Psi(100), Normal)
    ensures DisplayResult(95.5).status == Hard
  {
    StatusByFrequency(125.0);
    StatusByFrequency(125.1);
    StatusByFrequency(125.5);
    StatusByFrequency(95.5);
    NearestAround95(95.0);
  }

  /**
   * Any frequency that rounds to 64 Hz or less, negative ones included,
   * reads 30 PSI, underinflated.
   */
  lemma LowFrequencyReads30(frequency: real)
    requires RoundHalfUp(frequency) <= 64
    ensures DisplayResult(frequency) == Display(RoundHalfUp(frequency), Psi(30), Underinflated)
  {
    LowFrequencyIs30(RoundHalfUp(frequency) as real);
  }
}

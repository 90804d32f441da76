/** The steps every disease page of the application shares: the base risk
    taken from the classifier, the override floor, the severity band and the
    low-confidence flag. Risks are percentages, modelled as exact reals. */
module Scoring {
  import opened Wrappers

  /** The three severity bands the pages display. */
  datatype Band = Low | Moderate | High

  /** What a page shows after the button is pressed: the risk score, its band
      and whether the low-confidence notice is displayed. */
  datatype Assessment = Assessment(risk: real, band: Band, lowConfidence: bool)

  /** A probability as the classifier's probability estimate returns it. */
  predicate IsProbability(p: real) {
    0.0 <= p <= 1.0
  }

  /** The probability step is well behaved when it is either absent or a
      probability. */
  predicate ValidEstimate(estimate: Option<real>) {
    estimate.Some? ==> IsProbability(estimate.value)
  }

  /** Base risk: the positive-class probability as a percentage, or, when no
      probability is available, the two-point fallback taken from the binary
      prediction. */
  function BaseRisk(prediction: int, estimate: Option<real>): (r: real)
    ensures estimate.Some? ==> r == estimate.value * 100.0
    ensures estimate.None? ==> (r == 100.0 <==> prediction == 1)
    ensures estimate.None? ==> (r == 0.0 <==> prediction != 1)
    ensures ValidEstimate(estimate) ==> 0.0 <= r <= 100.0
  {
    match estimate
    case Some(p) => p * 100.0
    case None => if prediction == 1 then 100.0 else 0.0
  }

  /** The hybrid override: when the trigger holds, the risk is raised to at
      least the floor; it is never lowered, and at most one floor is used. */
  function RaiseToFloor(risk: real, triggered: bool, floor: real): (r: real)
    ensures r >= risk
    ensures triggered ==> r >= floor
    ensures !triggered ==> r == risk
    ensures r == risk || (triggered && r == floor)
  {
    if triggered && floor > risk then floor else risk
  }

  /** Severity banding: above 60 is high, above 30 is moderate, the rest low. */
  function BandOf(risk: real): (b: Band)
    ensures b == High <==> risk > 60.0
    ensures b == Moderate <==> 30.0 < risk <= 60.0
    ensures b == Low <==> risk <= 30.0
  {
    if risk > 60.0 then High
    else if risk > 30.0 then Moderate
    else Low
  }

  /** The low-confidence notice is shown below 50, whatever the band. */
  predicate LowConfidence(risk: real) {
    risk < 50.0
  }

  /** The bands in increasing severity. */
  function Severity(b: Band): nat {
    match b
    case Low => 0
    case Moderate => 1
    case High => 2
  }

  /** Everything a page derives from the final risk score. */
  function Classify(risk: real): (a: Assessment)
    ensures a.risk == risk
    ensures a.band == BandOf(risk)
    ensures a.lowConfidence <==> risk < 50.0
  {
    Assessment(risk, BandOf(risk), LowConfidence(risk))
  }

  /** A higher risk never lands in a less severe band. */
  lemma BandMonotone(r1: real, r2: real)
    requires r1 <= r2
    ensures Severity(BandOf(r1)) <= Severity(BandOf(r2))
  {
  }

  /** The flag and the band are separate readings of the risk: a high band is
      never flagged, a low band always is, and a moderate band can be either. */
  lemma FlagAgainstBand(risk: real)
    ensures BandOf(risk) == High ==> !LowConfidence(risk)
    ensures BandOf(risk) == Low ==> LowConfidence(risk)
    ensures 30.0 < risk < 50.0 ==> BandOf(risk) == Moderate && LowConfidence(risk)
    ensures 50.0 <= risk <= 60.0 ==> BandOf(risk) == Moderate && !LowConfidence(risk)
  {
  }

  /** Raising to a floor keeps the order of two risks. */
  lemma RaiseToFloorMonotone(r1: real, r2: real, triggered: bool, floor: real)
    requires r1 <= r2
    ensures RaiseToFloor(r1, triggered, floor) <= RaiseToFloor(r2, triggered, floor)
  {
  }
}

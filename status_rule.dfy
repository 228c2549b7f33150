/** The appointment status rule: an additive no-show probability built from
    the lead time and the patient's insurance, distance and age and the
    appointment type, then one uniform draw compared against two cut points.
    Probabilities are exact reals here; the script adds binary floats. */
module StatusRule {
  import opened Categories

  /** The base no-show probability. */
  const BASE_NO_SHOW: real := 0.15
  /** The width of the cancellation band above the no-show cut point. */
  const CANCEL_PROB: real := 0.08

  /** The inputs the rule reads: the drawn lead time and appointment type,
      and the looked-up patient's insurance type, distance and age. */
  datatype RiskFactors = RiskFactors(
    leadTime: int,
    insurance: InsuranceType,
    distanceMiles: real,
    age: int,
    apptType: AppointmentType)

  function LeadTimeAdjustment(leadTime: int): real {
    if leadTime > 20 then 0.08 else if leadTime > 10 then 0.03 else 0.0
  }

  function InsuranceAdjustment(insurance: InsuranceType): real {
    if insurance == Uninsured then 0.10 else if insurance == Medicaid then 0.05 else 0.0
  }

  function DistanceAdjustment(distanceMiles: real): real {
    if distanceMiles > 15.0 then 0.07 else 0.0
  }

  function AgeAdjustment(age: int): real {
    if age < 30 then 0.05 else 0.0
  }

  function TypeAdjustment(apptType: AppointmentType): real {
    if apptType == UrgentCare then -0.10 else 0.0
  }

  /** The no-show probability: the base rate plus one contribution per
      factor. Whatever the factors, it lies between 0.05 (urgent care with no
      other risk) and 0.45 (every risk and not urgent care). */
  function NoShowProb(f: RiskFactors): (p: real)
    ensures 0.05 <= p <= 0.45
  {
    BASE_NO_SHOW
      + LeadTimeAdjustment(f.leadTime)
      + InsuranceAdjustment(f.insurance)
      + DistanceAdjustment(f.distanceMiles)
      + AgeAdjustment(f.age)
      + TypeAdjustment(f.apptType)
  }

  /** The script's computation: the base rate, then one in-place increase or
      decrease per factor that applies. */
  method ComputeNoShowProb(f: RiskFactors) returns (p: real)
    ensures p == NoShowProb(f)
    ensures 0.05 <= p <= 0.45
  {
    p := BASE_NO_SHOW;
    if f.leadTime > 20 {
      p := p + 0.08;
    } else if f.leadTime > 10 {
      p := p + 0.03;
    }
    if f.insurance == Uninsured {
      p := p + 0.10;
    } else if f.insurance == Medicaid {
      p := p + 0.05;
    }
    if f.distanceMiles > 15.0 {
      p := p + 0.07;
    }
    if f.age < 30 {
      p := p + 0.05;
    }
    if f.apptType == UrgentCare {
      p := p - 0.10;
    }
  }

  /** The status for a draw `r`: no-show below `p`, cancelled in the next
      band of width CANCEL_PROB, completed from there on. */
  function Classify(p: real, r: real): (s: Status)
    ensures s == NoShow <==> r < p
    ensures s == Cancelled <==> p <= r < p + CANCEL_PROB
    ensures s == Completed <==> p + CANCEL_PROB <= r
  {
    if r < p then NoShow
    else if r < p + CANCEL_PROB then Cancelled
    else Completed
  }

  /** The status of an appointment with these factors and draw: no-show
      below the factors' no-show probability, completed from that
      probability plus the cancellation band on, cancelled in between. */
  function StatusOf(f: RiskFactors, r: real): (s: Status)
    ensures s == NoShow <==> r < NoShowProb(f)
    ensures s == Cancelled <==> NoShowProb(f) <= r < NoShowProb(f) + CANCEL_PROB
    ensures s == Completed <==> NoShowProb(f) + CANCEL_PROB <= r
  {
    Classify(NoShowProb(f), r)
  }

  /** Position along no_show, cancelled, completed. */
  function Rank(s: Status): nat {
    match s
    case NoShow => 0
    case Cancelled => 1
    case Completed => 2
  }

  /** A larger draw never moves the status back towards no_show. */
  lemma StatusMonotoneInDraw(f: RiskFactors, r1: real, r2: real)
    requires r1 <= r2
    ensures Rank(StatusOf(f, r1)) <= Rank(StatusOf(f, r2))
  {
  }

  /** Since p + 0.08 is at most 0.53, every status has draws in [0, 1) that
      produce it, for every combination of factors. */
  lemma EveryStatusReachable(f: RiskFactors)
    ensures var p := NoShowProb(f);
      0.0 <= p && p + CANCEL_PROB <= 0.53 &&
      StatusOf(f, 0.0) == NoShow &&
      StatusOf(f, p) == Cancelled &&
      StatusOf(f, p + CANCEL_PROB) == Completed
  {
  }

  /** Both bounds of the no-show probability are reached: urgent care with
      no other risk gives 0.05, every risk and another type gives 0.45, and
      then the cancellation band ends at 0.53. */
  lemma NoShowProbExtremes()
    ensures NoShowProb(RiskFactors(1, Private, 1.0, 84, UrgentCare)) == 0.05
    ensures NoShowProb(RiskFactors(25, Uninsured, 20.0, 20, Specialist)) == 0.45
    ensures NoShowProb(RiskFactors(25, Uninsured, 20.0, 20, Specialist)) + CANCEL_PROB == 0.53
  {
  }

  /** Lead time: more than 20 days adds exactly 0.08, 11 to 20 days exactly
      0.03, and 10 days or fewer nothing, relative to a same-day booking. */
  lemma LeadTimeContribution(f: RiskFactors)
    ensures var p, p0 := NoShowProb(f), NoShowProb(f.(leadTime := 0));
      (f.leadTime > 20 ==> p == p0 + 0.08) &&
      (10 < f.leadTime <= 20 ==> p == p0 + 0.03) &&
      (f.leadTime <= 10 ==> p == p0)
  {
  }

  /** Insurance: uninsured adds exactly 0.10, medicaid exactly 0.05, and
      private or medicare nothing, relative to private insurance. */
  lemma InsuranceContribution(f: RiskFactors)
    ensures var p, p0 := NoShowProb(f), NoShowProb(f.(insurance := Private));
      (f.insurance == Uninsured ==> p == p0 + 0.10) &&
      (f.insurance == Medicaid ==> p == p0 + 0.05) &&
      (f.insurance in {Private, Medicare} ==> p == p0)
  {
  }

  /** An urgent care appointment has a no-show probability exactly 0.10 lower
      than the same appointment of any other type. */
  lemma UrgentCareLowersByTenth(f: RiskFactors, other: AppointmentType)
    requires other != UrgentCare
    ensures NoShowProb(f.(apptType := UrgentCare)) == NoShowProb(f.(apptType := other)) - 0.10
  {
  }

  /** Each risk grows with its factor: a longer lead time, a greater distance
      or a younger age never lowers the no-show probability. */
  lemma NoShowProbMonotone(f: RiskFactors, g: RiskFactors)
    requires f.insurance == g.insurance && f.apptType == g.apptType
    requires f.leadTime <= g.leadTime && f.distanceMiles <= g.distanceMiles && f.age >= g.age
    ensures NoShowProb(f) <= NoShowProb(g)
  {
  }
}

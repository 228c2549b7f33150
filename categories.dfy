/** The categorical values of the generator (insurance types, appointment
    types, statuses), the type-to-duration table, and the first-match search
    the script uses both for the type-to-position lookup and for the patient
    row lookup. */
module Categories {

  /** The four insurance types: private, medicare, medicaid, uninsured. */
  datatype InsuranceType = Private | Medicare | Medicaid | Uninsured

  /** The five appointment types: general checkup, follow-up, specialist,
      urgent care, preventive. */
  datatype AppointmentType = GeneralCheckup | FollowUp | Specialist | UrgentCare | Preventive

  /** The three appointment statuses: completed, no-show, cancelled. */
  datatype Status = Completed | NoShow | Cancelled

  const APPOINTMENT_TYPES: seq<AppointmentType> := [GeneralCheckup, FollowUp, Specialist, UrgentCare, Preventive]
  /** Durations in minutes, parallel to APPOINTMENT_TYPES. */
  const DURATIONS: seq<nat> := [30, 30, 45, 60, 30]

  /** The position of the first occurrence of `x` in `xs`, as Python's list
      index method finds it; the script only asks for values that are present. */
  function FirstIndexOf<T(==)>(xs: seq<T>, x: T): (i: nat)
    requires x in xs
    ensures i < |xs| && xs[i] == x
    ensures forall j :: 0 <= j < i ==> xs[j] != x
  {
    if xs[0] == x then 0 else 1 + FirstIndexOf(xs[1..], x)
  }

  /** In a sequence without repetitions the first occurrence of an element is
      its only position. */
  lemma FirstIndexOfDistinct<T>(xs: seq<T>, k: nat)
    requires k < |xs|
    requires forall i, j :: 0 <= i < j < |xs| ==> xs[i] != xs[j]
    ensures FirstIndexOf(xs, xs[k]) == k
  {
  }

  /** The duration listed at the type's position: the duration depends on
      the type alone; specialist visits take 45 minutes, urgent care 60, and
      the three other types 30. */
  function Duration(t: AppointmentType): (minutes: nat)
    ensures t == Specialist ==> minutes == 45
    ensures t == UrgentCare ==> minutes == 60
    ensures t in {GeneralCheckup, FollowUp, Preventive} ==> minutes == 30
  {
    var listed := match t
      case GeneralCheckup => 0 case FollowUp => 1 case Specialist => 2
      case UrgentCare => 3 case Preventive => 4;
    assert APPOINTMENT_TYPES[listed] == t;
    DURATIONS[FirstIndexOf(APPOINTMENT_TYPES, t)]
  }
}

/** The generated identifiers (`C01`, `P1001`, `A00001`) and the
    `HH:MM:00` appointment time strings. */
module Identifiers {
  import opened DecimalText

  const CLINIC_ID_WIDTH: nat := 2
  const PATIENT_ID_WIDTH: nat := 4
  const APPOINTMENT_ID_WIDTH: nat := 5
  /** Patient numbers run from here to 1000 plus the number of patients. */
  const FIRST_PATIENT_NUMBER: nat := 1001

  /** A one-letter tag followed by `n` zero-padded to `width` digits. */
  function TaggedId(tag: char, n: nat, width: nat): (id: string)
    ensures |id| >= 1 + width && id[0] == tag
    ensures AllDigits(id[1..]) && Value(id[1..]) == n
    ensures 1 <= width && n < Pow10(width) ==> |id| == 1 + width
  {
    var digits := ZeroPadded(n, width);
    assert ([tag] + digits)[1..] == digits;
    [tag] + digits
  }

  /** Identifiers of one tag and width are ordered as strings like their
      numbers, as long as the numbers fit the width. */
  lemma TaggedIdIncreasing(tag: char, a: nat, b: nat, width: nat)
    requires a < b < Pow10(width)
    ensures LexLess(TaggedId(tag, a, width), TaggedId(tag, b, width))
  {
    ZeroPaddedIncreasing(a, b, width);
    LexLessPrefix([tag], ZeroPadded(a, width), ZeroPadded(b, width));
  }

  /** Clinic identifier: C and the number in two digits. */
  function ClinicId(i: nat): string {
    TaggedId('C', i, CLINIC_ID_WIDTH)
  }

  /** Patient identifier: P and the number in four digits. */
  function PatientId(i: nat): string {
    TaggedId('P', i, PATIENT_ID_WIDTH)
  }

  /** Appointment identifier: A and the number in five digits; iteration i
      uses the number i + 1. */
  function AppointmentId(n: nat): string {
    TaggedId('A', n, APPOINTMENT_ID_WIDTH)
  }

  /** The identifier column for `count` consecutive numbers from `first`:
      pairwise distinct, each the tag and the digits of its own number, and,
      while every number fits the width, all of one length and strictly
      increasing in string order. */
  function TaggedIds(tag: char, first: nat, count: nat, width: nat): (ids: seq<string>)
    ensures |ids| == count
    ensures forall k :: 0 <= k < count ==> ids[k] == TaggedId(tag, first + k, width)
    ensures forall k :: 0 <= k < count ==> |ids[k]| >= 1 + width && ids[k][0] == tag && AllDigits(ids[k][1..]) && Value(ids[k][1..]) == first + k
    ensures forall j, k :: 0 <= j < k < count ==> ids[j] != ids[k]
    ensures 1 <= width && first + count <= Pow10(width) ==>
      (forall k :: 0 <= k < count ==> |ids[k]| == 1 + width) &&
      (forall j, k :: 0 <= j < k < count ==> LexLess(ids[j], ids[k]))
  {
    var ids := seq(count, k requires 0 <= k < count => TaggedId(tag, first + k, width));
    assert forall k :: 0 <= k < count ==> ids[k] == TaggedId(tag, first + k, width);
    assert first + count <= Pow10(width) ==> forall j, k :: 0 <= j < k < count ==> LexLess(ids[j], ids[k]) by {
      if first + count <= Pow10(width) { TaggedIdsIncreasing(ids, tag, first, width); }
    }
    ids
  }

  lemma TaggedIdsIncreasing(ids: seq<string>, tag: char, first: nat, width: nat)
    requires forall k :: 0 <= k < |ids| ==> ids[k] == TaggedId(tag, first + k, width)
    requires first + |ids| <= Pow10(width)
    ensures forall j, k :: 0 <= j < k < |ids| ==> LexLess(ids[j], ids[k])
  {
    forall j, k | 0 <= j < k < |ids| ensures LexLess(ids[j], ids[k]) {
      TaggedIdPairIncreasing(ids[j], ids[k], tag, first + j, first + k, width);
    }
  }

  lemma TaggedIdPairIncreasing(x: string, y: string, tag: char, a: nat, b: nat, width: nat)
    requires x == TaggedId(tag, a, width) && y == TaggedId(tag, b, width)
    requires a < b < Pow10(width)
    ensures LexLess(x, y)
  {
    TaggedIdIncreasing(tag, a, b, width);
  }

  /** The clinic identifier column for clinics 1 to n: entry k is clinic
      k + 1's identifier, and up to 99 clinics the column strictly increases. */
  function ClinicIds(n: nat): (ids: seq<string>)
    ensures |ids| == n && forall k :: 0 <= k < n ==> ids[k] == ClinicId(k + 1)
    ensures n <= 99 ==> forall j, k :: 0 <= j < k < n ==> LexLess(ids[j], ids[k])
  {
    assert Pow10(CLINIC_ID_WIDTH) == 100;
    TaggedIds('C', 1, n, CLINIC_ID_WIDTH)
  }

  /** The patient identifier column for patients 1001 to 1000 + n: entry k is
      patient 1001 + k's identifier, and up to 8999 patients the column
      strictly increases. */
  function PatientIds(n: nat): (ids: seq<string>)
    ensures |ids| == n && forall k :: 0 <= k < n ==> ids[k] == PatientId(FIRST_PATIENT_NUMBER + k)
    ensures n <= 8999 ==> forall j, k :: 0 <= j < k < n ==> LexLess(ids[j], ids[k])
  {
    assert Pow10(PATIENT_ID_WIDTH) == 10000;
    TaggedIds('P', FIRST_PATIENT_NUMBER, n, PATIENT_ID_WIDTH)
  }

  /** The appointment time: hour and minute each in two digits, then zero
      seconds. For an hour and a minute below 100 the result has the shape
      `HH:MM:00`: eight characters with colons at positions 2 and 5. */
  function TimeString(hour: nat, minute: nat): (t: string)
    ensures hour < 100 && minute < 100 ==>
      |t| == 8 && t[2] == ':' && t[5] == ':' && t[6..] == "00"
  {
    assert Pow10(2) == 100;
    ZeroPadded(hour, 2) + ":" + ZeroPadded(minute, 2) + ":00"
  }

  /** The two fields of a time string read back as the hour and the minute. */
  lemma TimeStringFields(hour: nat, minute: nat)
    requires hour < 100 && minute < 100
    ensures var t := TimeString(hour, minute);
      AllDigits(t[..2]) && Value(t[..2]) == hour &&
      AllDigits(t[3..5]) && Value(t[3..5]) == minute
  {
    var hh, mm := ZeroPadded(hour, 2), ZeroPadded(minute, 2);
    assert Pow10(2) == 100;
    var t := TimeString(hour, minute);
    assert t == hh + ":" + mm + ":00";
    assert t[..2] == hh && t[3..5] == mm;
  }

  /** The first and last clinic identifiers. */
  lemma ClinicIdBounds()
    ensures ClinicId(1) == "C01" && ClinicId(5) == "C05"
  {
  }

  /** The first patient identifier: the four-digit padding adds no zero. */
  lemma FirstPatientId()
    ensures PatientId(1001) == "P1001"
  {
  }

  /** The last patient identifier. */
  lemma LastPatientId()
    ensures PatientId(1500) == "P1500"
  {
  }

  /** The first appointment identifier. */
  lemma FirstAppointmentId()
    ensures AppointmentId(1) == "A00001"
  {
  }

  /** The last appointment identifier. */
  lemma LastAppointmentId()
    ensures AppointmentId(10000) == "A10000"
  {
  }

  /** The earliest slot of the day. */
  lemma EarliestTimeString()
    ensures TimeString(8, 0) == "08:00:00"
  {
  }

  /** A half-hour slot. */
  lemma HalfHourTimeString()
    ensures TimeString(16, 30) == "16:30:00"
  {
  }
}

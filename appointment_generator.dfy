/** The appointment-building loop, with every random draw given as input.
    Dates are day numbers counted from START_DATE (2023-07-01 is day 0). */
module AppointmentGenerator {
  import opened DecimalText
  import opened Identifiers
  import opened Categories
  import opened StatusRule
  import opened ReferenceData

  const NUM_APPOINTMENTS: nat := 10000
  /** Days from START_DATE (2023-07-01) to END_DATE (2024-12-31): 366 days
      to 2024-07-01 (2024 is a leap year) and 183 more. */
  const DAYS_DIFF: nat := 549
  const MIN_LEAD_TIME: nat := 1
  const MAX_LEAD_TIME: nat := 30
  /** Business hours the appointment hour is chosen from. */
  const HOURS: seq<nat> := [8, 9, 10, 11, 13, 14, 15, 16]
  const MINUTES: seq<nat> := [0, 30]

  /** The values one loop iteration draws: the day offset (0 to DAYS_DIFF),
      the lead time (1 to 30), the hour and the minute, the appointment type,
      the positions picked in the patient-id and clinic-id lists, and the
      uniform value in [0, 1) that decides the status. */
  datatype Draw = Draw(
    dayOffset: int,
    leadTime: int,
    hour: nat,
    minute: nat,
    apptType: AppointmentType,
    patientIndex: int,
    clinicIndex: int,
    r: real)

  /** One row of the appointments table. */
  datatype Appointment = Appointment(
    id: string,
    patientId: string,
    clinicId: string,
    appointmentDay: int,
    time: string,
    scheduledDay: int,
    status: Status,
    apptType: AppointmentType,
    durationMinutes: nat)

  /** The ranges the random sources produce. */
  predicate DrawInRange(d: Draw, numPatients: nat, numClinics: nat) {
    && 0 <= d.patientIndex < numPatients
    && 0 <= d.clinicIndex < numClinics
    && 0 <= d.dayOffset <= DAYS_DIFF
    && MIN_LEAD_TIME <= d.leadTime <= MAX_LEAD_TIME
    && d.hour in HOURS
    && d.minute in MINUTES
    && 0.0 <= d.r < 1.0
  }

  /** `HH:MM:00` with HH one of the business hours and MM 00 or 30. */
  predicate IsBusinessTime(t: string) {
    && |t| == 8 && t[2] == ':' && t[5] == ':' && t[6..] == "00"
    && AllDigits(t[..2]) && Value(t[..2]) in HOURS
    && AllDigits(t[3..5]) && Value(t[3..5]) in MINUTES
  }

  /** The time string for a drawn hour and minute, and the numbers it shows. */
  lemma BusinessTimeFormat(hour: nat, minute: nat)
    requires hour in HOURS && minute in MINUTES
    ensures var t := TimeString(hour, minute);
      IsBusinessTime(t) && Value(t[..2]) == hour && Value(t[3..5]) == minute
  {
  }

  /** The factors the status rule reads, for a draw and the patient row found
      for it. */
  function FactorsOf(d: Draw, info: Patient): RiskFactors {
    RiskFactors(d.leadTime, info.insurance, info.distanceMiles, info.age, d.apptType)
  }

  /** The record iteration `i` appends for draw `d`. Its appointment day
      lies in [0, DAYS_DIFF], within the date range, and it was scheduled
      exactly the drawn lead time, so 1 to 30 days, before. */
  function AppointmentFor(i: nat, d: Draw, patients: seq<Patient>, clinics: seq<Clinic>): (a: Appointment)
    requires DrawInRange(d, |patients|, |clinics|)
    ensures 0 <= a.appointmentDay <= DAYS_DIFF
    ensures a.appointmentDay - MAX_LEAD_TIME <= a.scheduledDay < a.appointmentDay
    ensures a.appointmentDay - a.scheduledDay == d.leadTime
  {
    var patientId := IdColumnOfPatients(patients)[d.patientIndex];
    var info := LookupPatient(patients, patientId);
    Appointment(
      AppointmentId(i + 1),
      patientId,
      IdColumnOfClinics(clinics)[d.clinicIndex],
      d.dayOffset,
      TimeString(d.hour, d.minute),
      d.dayOffset - d.leadTime,
      StatusOf(FactorsOf(d, info), d.r),
      d.apptType,
      Duration(d.apptType))
  }

  /** What every generated record satisfies. Its identifier is A followed by
      i + 1; its patient and clinic identifiers are those of the drawn rows of
      the reference tables; its time is `HH:MM:00` with a
      business hour and minute 0 or 30; its duration is its type's; and its
      status is the status rule applied to the patient row its patient
      identifier names. */
  lemma AppointmentForFacts(i: nat, d: Draw, patients: seq<Patient>, clinics: seq<Clinic>)
    requires DrawInRange(d, |patients|, |clinics|)
    ensures var a := AppointmentFor(i, d, patients, clinics);
      && a.id == AppointmentId(i + 1)
      && a.patientId == patients[d.patientIndex].id && a.patientId in IdColumnOfPatients(patients)
      && a.clinicId == clinics[d.clinicIndex].id && a.clinicId in IdColumnOfClinics(clinics)
      && IsBusinessTime(a.time)
      && a.apptType == d.apptType && a.durationMinutes == Duration(a.apptType)
      && a.status == StatusOf(FactorsOf(d, LookupPatient(patients, a.patientId)), d.r)
  {
  }

  /** Records whose identifiers are A00001, A00002, ... in order have
      strictly increasing, hence distinct, identifiers. */
  lemma {:induction false} IdsIncreasing(appointments: seq<Appointment>)
    requires |appointments| < Pow10(APPOINTMENT_ID_WIDTH)
    requires forall k :: 0 <= k < |appointments| ==> appointments[k].id == AppointmentId(k + 1)
    ensures forall j, k :: 0 <= j < k < |appointments| ==> LexLess(appointments[j].id, appointments[k].id)
    ensures forall j, k :: 0 <= j < k < |appointments| ==> appointments[j].id != appointments[k].id
  {
    forall j, k | 0 <= j < k < |appointments|
      ensures LexLess(appointments[j].id, appointments[k].id)
      ensures appointments[j].id != appointments[k].id
    {
      TaggedIdIncreasing('A', j + 1, k + 1, APPOINTMENT_ID_WIDTH);
      var a, b := AppointmentId(j + 1), AppointmentId(k + 1);
      assert Value(a[1..]) != Value(b[1..]);
    }
  }

  /** The no-show probability and the status for one appointment. */
  method DecideStatus(f: RiskFactors, r: real) returns (status: Status)
    ensures status == StatusOf(f, r)
  {
    var noShowProb := ComputeNoShowProb(f);
    var cancelProb := CANCEL_PROB;
    if r < noShowProb {
      status := NoShow;
    } else if r < noShowProb + cancelProb {
      status := Cancelled;
    } else {
      status := Completed;
    }
  }

  /** One iteration's work: the dates, the time string, the duration, the
      drawn patient and clinic, the patient row lookup, the no-show
      probability and the status, assembled into the record. */
  method BuildAppointment(i: nat, d: Draw, patients: seq<Patient>, clinics: seq<Clinic>)
    returns (record: Appointment)
    requires DrawInRange(d, |patients|, |clinics|)
    ensures record == AppointmentFor(i, d, patients, clinics)
  {
    var appointmentDay := d.dayOffset;
    var scheduledDay := appointmentDay - d.leadTime;
    var time := TimeString(d.hour, d.minute);
    var duration := Duration(d.apptType);
    var patientId := IdColumnOfPatients(patients)[d.patientIndex];
    var clinicId := IdColumnOfClinics(clinics)[d.clinicIndex];
    var info := LookupPatient(patients, patientId);
    var status := DecideStatus(FactorsOf(d, info), d.r);
    record := Appointment(
      AppointmentId(i + 1), patientId, clinicId, appointmentDay, time,
      scheduledDay, status, d.apptType, duration);
  }

  /** Appending record i to the records built from draws 0 to i - 1 gives the
      records built from draws 0 to i. */
  lemma AppendRecord(built: seq<Appointment>, record: Appointment, draws: seq<Draw>,
                     patients: seq<Patient>, clinics: seq<Clinic>)
    requires |built| < |draws|
    requires forall k :: 0 <= k < |draws| ==> DrawInRange(draws[k], |patients|, |clinics|)
    requires forall k :: 0 <= k < |built| ==> built[k] == AppointmentFor(k, draws[k], patients, clinics)
    requires record == AppointmentFor(|built|, draws[|built|], patients, clinics)
    ensures forall k :: 0 <= k <= |built| ==> (built + [record])[k] == AppointmentFor(k, draws[k], patients, clinics)
  {
  }

  /** The appointment loop: exactly NUM_APPOINTMENTS
      records, record i built from draw i, with identifiers A00001 to A10000
      strictly increasing. */
  method GenerateAppointments(patients: seq<Patient>, clinics: seq<Clinic>, draws: seq<Draw>)
    returns (appointments: seq<Appointment>)
    requires |draws| == NUM_APPOINTMENTS
    requires forall k :: 0 <= k < |draws| ==> DrawInRange(draws[k], |patients|, |clinics|)
    ensures |appointments| == NUM_APPOINTMENTS
    ensures forall k :: 0 <= k < NUM_APPOINTMENTS ==>
      appointments[k] == AppointmentFor(k, draws[k], patients, clinics)
    ensures forall j, k :: 0 <= j < k < NUM_APPOINTMENTS ==>
      LexLess(appointments[j].id, appointments[k].id) && appointments[j].id != appointments[k].id
  {
    appointments := [];
    for i := 0 to NUM_APPOINTMENTS
      invariant |appointments| == i
      invariant forall k :: 0 <= k < i ==> appointments[k] == AppointmentFor(k, draws[k], patients, clinics)
    {
      var record := BuildAppointment(i, draws[i], patients, clinics);
      AppendRecord(appointments, record, draws, patients, clinics);
      appointments := appointments + [record];
    }
    assert NUM_APPOINTMENTS < Pow10(APPOINTMENT_ID_WIDTH);
    IdsIncreasing(appointments);
  }

  /** With distinct patient identifiers the lookup by identifier finds the
      drawn row itself, so the status rule sees the drawn patient's
      insurance, distance and age. */
  lemma StatusUsesDrawnPatient(i: nat, d: Draw, patients: seq<Patient>, clinics: seq<Clinic>)
    requires DrawInRange(d, |patients|, |clinics|)
    requires forall j, k :: 0 <= j < k < |patients| ==> patients[j].id != patients[k].id
    ensures AppointmentFor(i, d, patients, clinics).status == StatusOf(FactorsOf(d, patients[d.patientIndex]), d.r)
  {
    LookupPatientFindsRow(patients, d.patientIndex);
  }

  /** The whole script: the clinics table, the patients table built from the
      patient draws, and the appointments built from the appointment draws,
      record k from draw k, with strictly increasing identifiers. Every
      patient row lies in the sampled ranges, every appointment names the
      drawn patient and clinic rows, and its status is the rule applied to
      that patient's attributes. */
  method GenerateDataset(patientDraws: seq<PatientDraw>, draws: seq<Draw>)
    returns (clinics: seq<Clinic>, patients: seq<Patient>, appointments: seq<Appointment>)
    requires |patientDraws| == NUM_PATIENTS
    requires forall k :: 0 <= k < |patientDraws| ==> PatientDrawInRange(patientDraws[k])
    requires |draws| == NUM_APPOINTMENTS
    requires forall k :: 0 <= k < |draws| ==> DrawInRange(draws[k], NUM_PATIENTS, NUM_CLINICS)
    ensures clinics == ClinicTable() && patients == BuildPatients(patientDraws)
    ensures |clinics| == NUM_CLINICS && |patients| == NUM_PATIENTS && |appointments| == NUM_APPOINTMENTS
    ensures forall k :: 0 <= k < NUM_PATIENTS ==> PatientInRange(patients[k])
    ensures forall k :: 0 <= k < NUM_APPOINTMENTS ==>
      DrawInRange(draws[k], |patients|, |clinics|) &&
      appointments[k] == AppointmentFor(k, draws[k], patients, clinics)
    ensures forall j, k :: 0 <= j < k < NUM_APPOINTMENTS ==>
      LexLess(appointments[j].id, appointments[k].id)
    ensures forall k :: 0 <= k < NUM_APPOINTMENTS ==>
      DrawInRange(draws[k], |patients|, |clinics|) &&
      appointments[k].patientId == patients[draws[k].patientIndex].id == PatientIds(NUM_PATIENTS)[draws[k].patientIndex] &&
      appointments[k].clinicId == clinics[draws[k].clinicIndex].id == ClinicIds(NUM_CLINICS)[draws[k].clinicIndex] &&
      appointments[k].status == StatusOf(FactorsOf(draws[k], patients[draws[k].patientIndex]), draws[k].r)
  {
    clinics := ClinicTable();
    patients := BuildPatients(patientDraws);
    PatientsInRange(patientDraws);
    appointments := GenerateAppointments(patients, clinics, draws);
    forall k | 0 <= k < NUM_APPOINTMENTS
      ensures appointments[k].status == StatusOf(FactorsOf(draws[k], patients[draws[k].patientIndex]), draws[k].r)
    {
      StatusUsesDrawnPatient(k, draws[k], patients, clinics);
    }
  }

  /** The status column of the appointments table. */
  function StatusColumn(appointments: seq<Appointment>): seq<Status> {
    seq(|appointments|, k requires 0 <= k < |appointments| => appointments[k].status)
  }

  /** How many records carry status `s` (one entry of the status breakdown):
      the number of times `s` occurs in the status column. */
  function CountStatus(appointments: seq<Appointment>, s: Status): (n: nat)
    ensures n <= |appointments|
    ensures n == multiset(StatusColumn(appointments))[s]
  {
    if appointments == [] then 0
    else
      var rest := CountStatus(appointments[1..], s);
      assert StatusColumn(appointments) == [appointments[0].status] + StatusColumn(appointments[1..]);
      (if appointments[0].status == s then 1 else 0) + rest
  }

  /** Every record has exactly one of the three statuses, so the three counts
      add up to the number of records. */
  lemma {:induction false} StatusCountsPartition(appointments: seq<Appointment>)
    ensures CountStatus(appointments, NoShow) + CountStatus(appointments, Cancelled)
      + CountStatus(appointments, Completed) == |appointments|
  {
    if appointments != [] {
      StatusCountsPartition(appointments[1..]);
    }
  }
}

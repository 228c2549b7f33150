/** The clinic and patient tables the appointments refer to. The clinic
    table is fixed; the patient table zips the identifier column with drawn
    attribute columns. */
module ReferenceData {
  import opened DecimalText
  import opened Identifiers
  import opened Categories

  const NUM_PATIENTS: nat := 500
  const NUM_CLINICS: nat := 5

  datatype Clinic = Clinic(
    id: string,
    name: string,
    city: string,
    state: string,
    totalProviders: nat,
    specialtiesOffered: string)

  datatype Patient = Patient(
    id: string,
    age: int,
    gender: string,
    zipCode: string,
    insurance: InsuranceType,
    chronicConditions: int,
    distanceMiles: real)

  /** One patient's drawn attributes (age, gender, zip code, insurance type,
      chronic condition count, distance), as the sampling produced them. */
  datatype PatientDraw = PatientDraw(
    age: int,
    gender: string,
    zipCode: string,
    insurance: InsuranceType,
    chronicConditions: int,
    distanceMiles: real)

  /** The zip codes a patient's zip code is chosen from. */
  const ZIP_CODES: seq<string> := ["75020", "75021", "75023", "75034", "75035", "75074", "75075"]
  const GENDERS: seq<string> := ["M", "F"]

  /** The ranges the patient samplers produce: an age from 18 to 84, gender M
      or F, one of the listed zip codes, 0 to 3 chronic conditions, and a
      distance drawn from [1, 25) and rounded to one decimal, so in [1, 25]. */
  predicate PatientDrawInRange(d: PatientDraw) {
    && 18 <= d.age <= 84
    && d.gender in GENDERS
    && d.zipCode in ZIP_CODES
    && 0 <= d.chronicConditions <= 3
    && 1.0 <= d.distanceMiles <= 25.0
  }

  /** The same ranges for a row of the patients table: its attributes are
      those of an in-range draw. */
  predicate PatientInRange(p: Patient) {
    PatientDrawInRange(PatientDraw(p.age, p.gender, p.zipCode, p.insurance, p.chronicConditions, p.distanceMiles))
  }

  const CLINIC_NAMES: seq<string> := [
    "North Dallas Family Clinic",
    "Plano Specialist Center",
    "McKinney Urgent Care",
    "Frisco Medical Group",
    "Allen Health Center"]
  const CLINIC_CITIES: seq<string> := ["Dallas", "Plano", "McKinney", "Frisco", "Allen"]
  const CLINIC_STATE: string := "TX"
  const TOTAL_PROVIDERS: seq<nat> := [8, 12, 5, 10, 7]
  const SPECIALTIES_OFFERED: seq<string> := [
    "general|pediatrics",
    "cardiology|orthopedics|neurology",
    "urgent_care|general",
    "general|dermatology|pediatrics",
    "general|womens_health"]

  function IdColumnOfClinics(clinics: seq<Clinic>): seq<string> {
    seq(|clinics|, k requires 0 <= k < |clinics| => clinics[k].id)
  }

  function IdColumnOfPatients(patients: seq<Patient>): seq<string> {
    seq(|patients|, k requires 0 <= k < |patients| => patients[k].id)
  }

  /** The clinics table: five rows in Texas, with identifiers C01 to C05 in
      row order, pairwise distinct and increasing, each row carrying the
      listed name, city, provider count and specialties. */
  function ClinicTable(): (clinics: seq<Clinic>)
    ensures |clinics| == NUM_CLINICS
    ensures forall k :: 0 <= k < NUM_CLINICS ==>
      clinics[k].id == ClinicIds(NUM_CLINICS)[k] && |clinics[k].id| == 3 &&
      clinics[k].name == CLINIC_NAMES[k] && clinics[k].city == CLINIC_CITIES[k] &&
      clinics[k].state == CLINIC_STATE && clinics[k].totalProviders == TOTAL_PROVIDERS[k] &&
      clinics[k].specialtiesOffered == SPECIALTIES_OFFERED[k]
    ensures forall j, k :: 0 <= j < k < NUM_CLINICS ==> LexLess(clinics[j].id, clinics[k].id)
  {
    var ids := ClinicIds(NUM_CLINICS);
    assert Pow10(CLINIC_ID_WIDTH) == 100;
    seq(NUM_CLINICS, k requires 0 <= k < NUM_CLINICS =>
      Clinic(ids[k], CLINIC_NAMES[k], CLINIC_CITIES[k], CLINIC_STATE, TOTAL_PROVIDERS[k], SPECIALTIES_OFFERED[k]))
  }

  /** The patients table: row k carries identifier P(1001 + k) and the k-th
      draw's attributes; the identifiers are pairwise distinct. */
  function BuildPatients(draws: seq<PatientDraw>): (patients: seq<Patient>)
    ensures |patients| == |draws|
    ensures forall k :: 0 <= k < |draws| ==>
      patients[k].id == PatientIds(|draws|)[k] &&
      patients[k].age == draws[k].age && patients[k].gender == draws[k].gender &&
      patients[k].zipCode == draws[k].zipCode && patients[k].insurance == draws[k].insurance &&
      patients[k].chronicConditions == draws[k].chronicConditions &&
      patients[k].distanceMiles == draws[k].distanceMiles
    ensures forall j, k :: 0 <= j < k < |draws| ==> patients[j].id != patients[k].id
  {
    var ids := PatientIds(|draws|);
    seq(|draws|, k requires 0 <= k < |draws| =>
      Patient(ids[k], draws[k].age, draws[k].gender, draws[k].zipCode,
              draws[k].insurance, draws[k].chronicConditions, draws[k].distanceMiles))
  }

  /** Rows built from in-range draws are in range: every patient is an adult
      under 85, has a listed zip code, and lives 1 to 25 miles away. */
  lemma PatientsInRange(draws: seq<PatientDraw>)
    requires forall k :: 0 <= k < |draws| ==> PatientDrawInRange(draws[k])
    ensures forall k :: 0 <= k < |draws| ==> PatientInRange(BuildPatients(draws)[k])
  {
  }

  /** The first table row whose identifier is `id`: the script filters the
      patient table on the identifier column and takes the first match. */
  function LookupPatient(patients: seq<Patient>, id: string): (row: Patient)
    requires id in IdColumnOfPatients(patients)
    ensures row in patients && row.id == id
  {
    patients[FirstIndexOf(IdColumnOfPatients(patients), id)]
  }

  /** When the identifiers are distinct, looking up row k's identifier gives
      row k back. */
  lemma LookupPatientFindsRow(patients: seq<Patient>, k: nat)
    requires k < |patients|
    requires forall i, j :: 0 <= i < j < |patients| ==> patients[i].id != patients[j].id
    ensures patients[k].id in IdColumnOfPatients(patients)
    ensures LookupPatient(patients, patients[k].id) == patients[k]
  {
    var column := IdColumnOfPatients(patients);
    assert column[k] == patients[k].id;
    FirstIndexOfDistinct(column, k);
  }
}

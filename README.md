# Healthcare appointment generator: a verified model of its deterministic core

The generator script builds three tables: five clinics, 500 patients and
10,000 appointments. Most of its work is random sampling. What remains once
every random draw is an input is modelled here:

- the fixed clinic table;
- the patient table, made by pairing the identifier column with drawn attributes;
- the zero-padded identifiers (`C01`, `P1001`, `A00001`) and the `HH:MM:00` time strings;
- the type-to-duration lookup;
- the additive no-show probability and the status decided from one uniform draw;
- the loop that appends one appointment record per iteration.

The draws of one iteration form a `Draw` value:

- the day offset;
- the lead time;
- the hour and the minute;
- the appointment type;
- the positions picked in the patient and clinic identifier lists;
- the uniform value `r`.

Each patient's drawn attributes form a `PatientDraw` value.

Modules:

- `DecimalText` (decimal_text.dfy) covers:
  - decimal text of naturals and zero padding;
  - the value of a digit string;
  - Python's string order.
- `Identifiers` (identifiers.dfy) covers the clinic, patient and appointment identifiers and the time string.
- `Categories` (categories.dfy) covers:
  - insurance types, appointment types and statuses;
  - the duration table;
  - first-match search.
- `StatusRule` (status_rule.dfy) holds the no-show probability and the status classification.
- `ReferenceData` (reference_data.dfy) holds the clinic and patient tables and the patient lookup by identifier.
- `AppointmentGenerator` (appointment_generator.dfy) covers the appointment loop, the whole dataset and status counts.

Design choices:

- Dates are day numbers counted from START_DATE (2023-07-01 is day 0).
  END_DATE, 2024-12-31, is day 549.
- Probabilities are exact `real` numbers.
- The categorical strings are datatype constructors.

The no-show probability is not clamped, and it needs no clamping. It is the
base 0.15, plus at most 0.08 + 0.10 + 0.07 + 0.05, minus at most 0.10. So it
always lies in [0.05, 0.45] and is never above 1 or below 0. The cancellation
cut point p + 0.08 is at most 0.53. `NoShowProb` and `EveryStatusReachable`
prove these bounds, and `NoShowProbExtremes` shows that 0.05, 0.45 and 0.53
are reached.

## Model

| member | source | states |
|---|---|---|
| DecimalText.Decimal | healthcare-analytics/python_scripts/dataGenerator.py:133 | The decimal text of n is non-empty, all digits, and has no leading zero when n > 0 |
| DecimalText.ZFill | healthcare-analytics/python_scripts/dataGenerator.py:133 | The padded string is as long as the original when that has at least `width` characters, and exactly `width` long otherwise |
| DecimalText.ZFillKeeps | healthcare-analytics/python_scripts/dataGenerator.py:133 | Padding returns a string of at least `width` characters unchanged; otherwise the original is the suffix and every character before it is '0' |
| DecimalText.ZFillValue | healthcare-analytics/python_scripts/dataGenerator.py:133 | Padding a digit string with zeros gives a digit string of the same value |
| DecimalText.LexLess | healthcare-analytics/python_scripts/dataGenerator.py:133 | Python's string order on identifiers is strict: a string is never before itself |
| DecimalText.DecimalValue | healthcare-analytics/python_scripts/dataGenerator.py:133 | Reading back the decimal text of n gives n, so the number written into an identifier is recoverable from it |
| DecimalText.ZeroPadded | healthcare-analytics/python_scripts/dataGenerator.py:133 | Zero padding yields only digits, reads back as n, is at least `width` long, and is exactly `width` long when n fits in `width` digits |
| DecimalText.ZeroPaddedIncreasing | healthcare-analytics/python_scripts/dataGenerator.py:133 | For numbers that fit the width, zero padding preserves order: a < b gives string(a) < string(b) in Python's string order |
| DecimalText.LexLessOfValues | healthcare-analytics/python_scripts/dataGenerator.py:133 | Two digit strings of equal length compare as strings the way their values compare |
| Identifiers.TaggedId | healthcare-analytics/python_scripts/dataGenerator.py:133 | An identifier is its tag letter followed by digits that read back as its number; it is 1 + width long when the number fits |
| Identifiers.TaggedIdIncreasing | healthcare-analytics/python_scripts/dataGenerator.py:133 | Identifiers of one tag and width are ordered as strings like their numbers |
| Identifiers.ClinicIds | healthcare-analytics/python_scripts/dataGenerator.py:21 | The clinic column for n clinics has entry k equal to clinic k + 1's identifier, strictly increasing up to 99 clinics |
| Identifiers.PatientIds | healthcare-analytics/python_scripts/dataGenerator.py:48 | The patient column for n patients has entry k equal to patient 1001 + k's identifier, strictly increasing up to 8999 patients |
| Identifiers.TaggedIds | healthcare-analytics/python_scripts/dataGenerator.py:48 | The identifier column for count consecutive numbers, shared by the patient column here and the clinic column at line 21 (through `ClinicIds`), has count entries. Entry k carries the number first + k, and the entries are pairwise distinct. When all numbers fit the width, the entries have equal length and strictly increase |
| Identifiers.ClinicIdBounds | healthcare-analytics/python_scripts/dataGenerator.py:21 | The clinic identifiers run from C01 to C05 |
| Identifiers.FirstPatientId | healthcare-analytics/python_scripts/dataGenerator.py:48 | The first patient identifier is P1001, so the four-digit padding adds no zero |
| Identifiers.LastPatientId | healthcare-analytics/python_scripts/dataGenerator.py:48 | The last patient identifier is P1500 |
| Identifiers.FirstAppointmentId | healthcare-analytics/python_scripts/dataGenerator.py:133 | The first appointment identifier is A00001 |
| Identifiers.LastAppointmentId | healthcare-analytics/python_scripts/dataGenerator.py:133 | The last appointment identifier is A10000 |
| Identifiers.TimeString | healthcare-analytics/python_scripts/dataGenerator.py:79 | For an hour and a minute below 100, the time has the shape `HH:MM:00`: eight characters, colons at positions 2 and 5, and "00" at the end |
| Identifiers.TimeStringFields | healthcare-analytics/python_scripts/dataGenerator.py:79 | The first two characters are digits reading back as the hour, and characters 3 and 4 are digits reading back as the minute |
| Identifiers.EarliestTimeString | healthcare-analytics/python_scripts/dataGenerator.py:79 | Hour 8, minute 0 gives "08:00:00" |
| Identifiers.HalfHourTimeString | healthcare-analytics/python_scripts/dataGenerator.py:79 | Hour 16, minute 30 gives "16:30:00" |
| Categories.FirstIndexOf | healthcare-analytics/python_scripts/dataGenerator.py:83 | The position found holds the value sought, and no earlier position does |
| Categories.FirstIndexOfDistinct | healthcare-analytics/python_scripts/dataGenerator.py:90 | In a list without repeats, the first match of entry k is position k |
| Categories.Duration | healthcare-analytics/python_scripts/dataGenerator.py:59-83 | Looking up the duration by type position gives specialist 45 minutes, urgent care 60, and general checkup, follow-up and preventive 30 |
| StatusRule.NoShowProb | healthcare-analytics/python_scripts/dataGenerator.py:94-118 | For every combination of factors the no-show probability lies in [0.05, 0.45] |
| StatusRule.ComputeNoShowProb | healthcare-analytics/python_scripts/dataGenerator.py:94-118 | The sequence of in-place updates ends at the additive probability, which lies in [0.05, 0.45] |
| StatusRule.LeadTimeContribution | healthcare-analytics/python_scripts/dataGenerator.py:97-100 | Compared with the same appointment at lead time 0: more than 20 days adds exactly 0.08, 11 to 20 days exactly 0.03, 10 or fewer nothing |
| StatusRule.InsuranceContribution | healthcare-analytics/python_scripts/dataGenerator.py:103-106 | Compared with private insurance: uninsured adds exactly 0.10, medicaid exactly 0.05, medicare nothing |
| StatusRule.UrgentCareLowersByTenth | healthcare-analytics/python_scripts/dataGenerator.py:117-118 | With all else equal, urgent care's probability is exactly 0.10 below that of any other type |
| StatusRule.NoShowProbMonotone | healthcare-analytics/python_scripts/dataGenerator.py:96-114 | A longer lead time, a greater distance or a younger age never lowers the probability |
| StatusRule.Classify | healthcare-analytics/python_scripts/dataGenerator.py:121-130 | Exactly one status applies: no_show iff r < p; cancelled iff p <= r < p + 0.08; completed iff r >= p + 0.08 |
| StatusRule.StatusMonotoneInDraw | healthcare-analytics/python_scripts/dataGenerator.py:124-130 | A larger draw never moves the status back along no_show, cancelled, completed |
| StatusRule.EveryStatusReachable | healthcare-analytics/python_scripts/dataGenerator.py:94-130 | For every combination of factors, the cancellation cut point is at most 0.53 and each status is produced by some draw in [0, 1) |
| StatusRule.NoShowProbExtremes | healthcare-analytics/python_scripts/dataGenerator.py:94-121 | The bounds are reached: urgent care with no other risk gives 0.05; every risk with a non-urgent type gives 0.45, with the cancellation band ending at 0.53 |
| StatusRule.StatusOf | healthcare-analytics/python_scripts/dataGenerator.py:94-130 | An appointment is a no-show iff its draw is below its factors' no-show probability p; cancelled iff p <= r < p + 0.08; completed iff r >= p + 0.08 |
| AppointmentGenerator.DecideStatus | healthcare-analytics/python_scripts/dataGenerator.py:121-130 | The if/elif chain computes the status the rule assigns to these factors and this draw |
| ReferenceData.ClinicTable | healthcare-analytics/python_scripts/dataGenerator.py:20-40 | The table has five rows with identifiers C01 to C05 in row order, strictly increasing. Each row has the listed name, city, provider count and specialties, and the state TX |
| ReferenceData.BuildPatients | healthcare-analytics/python_scripts/dataGenerator.py:47-56 | Row k has identifier P(1001 + k) and carries the k-th draw's attributes; the identifiers are pairwise distinct |
| ReferenceData.PatientsInRange | healthcare-analytics/python_scripts/dataGenerator.py:49-54 | Patient rows built from draws in the sampled ranges are in those ranges: age 18 to 84, gender M or F, a listed zip code, 0 to 3 chronic conditions, distance 1 to 25 miles |
| ReferenceData.LookupPatient | healthcare-analytics/python_scripts/dataGenerator.py:90 | The row found is a row of the table with the identifier asked for |
| ReferenceData.LookupPatientFindsRow | healthcare-analytics/python_scripts/dataGenerator.py:90 | When the identifiers are distinct, looking up row k's identifier returns row k itself |
| AppointmentGenerator.BusinessTimeFormat | healthcare-analytics/python_scripts/dataGenerator.py:77-79 | A drawn business hour and minute give a `HH:MM:00` string whose fields read back as that hour and minute |
| AppointmentGenerator.AppointmentFor | healthcare-analytics/python_scripts/dataGenerator.py:69-74 | The record's appointment day lies in [0, 549], so its date is between START_DATE and END_DATE. Its scheduled day is exactly the drawn lead time earlier, so 1 to 30 days before |
| AppointmentGenerator.AppointmentForFacts | healthcare-analytics/python_scripts/dataGenerator.py:67-142 | Each record built from an in-range draw satisfies the following. Its id is A(i + 1). Its patient and clinic ids are those of the drawn rows. Its time is a business-hours `HH:MM:00`, and its duration is its type's. Its status is the rule applied to the looked-up patient |
| AppointmentGenerator.IdsIncreasing | healthcare-analytics/python_scripts/dataGenerator.py:133 | Records numbered A00001, A00002, ... in order have strictly increasing, hence distinct, identifiers |
| AppointmentGenerator.BuildAppointment | healthcare-analytics/python_scripts/dataGenerator.py:68-142 | One iteration's statements build exactly the record the model assigns to iteration i and its draw |
| AppointmentGenerator.GenerateAppointments | healthcare-analytics/python_scripts/dataGenerator.py:65-144 | The loop yields exactly NUM_APPOINTMENTS records, record k is the one built from draw k, and the identifiers are strictly increasing and distinct |
| AppointmentGenerator.StatusUsesDrawnPatient | healthcare-analytics/python_scripts/dataGenerator.py:86-130 | Because patient identifiers are distinct, the status rule sees the drawn patient's own insurance, distance and age |
| AppointmentGenerator.GenerateDataset | healthcare-analytics/python_scripts/dataGenerator.py:11-144 | The clinics are the fixed table, and the patients are the table built from the patient draws, every row in the sampled ranges. Appointment k is the record built from draw k, with strictly increasing ids. Every appointment names the drawn patient and clinic rows, and its status is the rule applied to that patient's attributes |
| AppointmentGenerator.CountStatus | healthcare-analytics/python_scripts/dataGenerator.py:166 | The count for a status is the number of times it occurs in the status column (its multiplicity), and never exceeds the number of records |
| AppointmentGenerator.StatusCountsPartition | healthcare-analytics/python_scripts/dataGenerator.py:165-169 | The no-show, cancelled and completed counts add up to the number of records |

## Left out

- Random sampling is not modelled: numpy and `random` draws, the categorical weights and seeding (lines 7-8, 49-54, 70-87). Each draw is an input (`Draw`, `PatientDraw`).
  - `DrawInRange` states the ranges of one iteration's draws.
  - `PatientDrawInRange` states the ranges of one patient's draws.

  The distributions and the fixed seed are not modelled.
- pandas DataFrame construction is modelled as sequences of records, and the column-filter lookup as a first-match search over the identifier column.
- ReferenceData.LookupPatient requires the identifier to be in the table. The script only looks up identifiers taken from that column; an absent identifier would raise an indexing error there, and that error is not modelled.
- CSV writing (lines 148-155) is file I/O.
- The console summary (lines 158-172) is printing and floating-point means. Only the per-status counts and their sum are modelled.
- StatusRule.NoShowProb: the script adds binary floating-point numbers, so sums such as 0.15 + 0.08 are only close to 0.23 there. The model adds exact reals, so a draw within rounding distance of a cut point may be classified differently.
- Rounding of the drawn distance to one decimal (line 54) belongs to the sampling and is not modelled. The distance is an input. `PatientDrawInRange` bounds it to [1, 25] but does not say that it is a multiple of 0.1.
- Calendar formatting of dates (lines 136, 138) is not modelled; dates are day offsets from START_DATE. A scheduled day can be negative, meaning a booking before START_DATE, exactly as in the script.
- The categorical strings ('no_show', 'urgent_care', ...) are datatype constructors, so the model does not state their spelling.
- Zero padding is modelled for unsigned decimal text, which is all the script pads. Python's handling of a leading sign is not modelled.

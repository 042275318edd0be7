/**
 * The note shapes the generated JSON must fit (`Medication`, `SOAPNote`,
 * `PrescriptionNote`), schema validation and dumping, and the normalisation that
 * `summarize_transcript` applies to the parsed JSON object in place.
 *
 * Validation is modelled strictly: a declared field is accepted when it is present
 * with the declared kind of JSON value, or absent when it has a default; undeclared
 * keys are ignored and so never appear in a dump.
 */
module Notes {
  import opened Wrappers
  import opened JsonValue
  import opened Requests

  datatype Medication = Medication(
    name: string, dose: string, route: string, frequency: string, duration: string, instructions: string)

  datatype SoapNote = SoapNote(
    conversationSummary: string, subjective: string, objective: string, assessment: string,
    plan: string, keyInsights: string, adminTasks: seq<string>)

  datatype PrescriptionNote = PrescriptionNote(
    patientName: string, patientId: string, chiefComplaint: string, symptoms: seq<string>,
    diagnosis: string, vitalSigns: map<string, Json>, medications: seq<Medication>,
    instructions: string, warnings: seq<string>, followUp: string)

  const MedicationFields: set<string> := {"name", "dose", "route", "frequency", "duration", "instructions"}

  const SoapFields: set<string> :=
    {"conversation_summary", "subjective", "objective", "assessment", "plan", "key_insights", "admin_tasks"}

  const PrescriptionFields: set<string> :=
    {"patient_name", "patient_id", "chief_complaint", "symptoms", "diagnosis", "vital_signs",
     "medications", "instructions", "warnings", "follow_up"}

  // ---------- field kinds ----------

  function JStrings(ss: seq<string>): (r: seq<Json>)
    ensures |r| == |ss| && forall i :: 0 <= i < |ss| ==> r[i] == JString(ss[i])
  {
    seq(|ss|, i requires 0 <= i < |ss| => JString(ss[i]))
  }

  /** A `list[str]` value. */
  function StringList(items: seq<Json>): (r: Option<seq<string>>)
    ensures r.Some? ==> |r.value| == |items| && forall i :: 0 <= i < |items| ==> items[i] == JString(r.value[i])
    ensures r.None? <==> exists i :: 0 <= i < |items| && !items[i].JString?
  {
    if |items| == 0 then Some([])
    else if !items[0].JString? then None
    else
      match StringList(items[1..])
      case None =>
        var i :| 0 <= i < |items[1..]| && !items[1..][i].JString?;
        assert items[1..][i] == items[i + 1];
        None
      case Some(rest) =>
        assert forall i :: 1 <= i < |items| ==> items[i] == items[1..][i - 1];
        Some([items[0].str] + rest)
  }

  function RequiredString(m: map<string, Json>, key: string): Option<string> {
    if key in m && m[key].JString? then Some(m[key].str) else None
  }

  function DefaultedString(m: map<string, Json>, key: string): Option<string> {
    if key !in m then Some("") else if m[key].JString? then Some(m[key].str) else None
  }

  function DefaultedStringList(m: map<string, Json>, key: string): Option<seq<string>> {
    if key !in m then Some([]) else if m[key].JArray? then StringList(m[key].items) else None
  }

  function DefaultedObject(m: map<string, Json>, key: string): Option<map<string, Json>> {
    if key !in m then Some(map[]) else if m[key].JObject? then Some(m[key].fields) else None
  }

  // ---------- Medication ----------

  function ValidateMedication(j: Json): (r: Option<Medication>)
    ensures r.Some? <==>
      j.JObject? && RequiredString(j.fields, "name").Some? && RequiredString(j.fields, "dose").Some? &&
      RequiredString(j.fields, "route").Some? && RequiredString(j.fields, "frequency").Some? &&
      RequiredString(j.fields, "duration").Some? && DefaultedString(j.fields, "instructions").Some?
    ensures r.Some? ==> forall k :: k in MedicationFields && k in j.fields ==> DumpMedication(r.value).fields[k] == j.fields[k]
    ensures r.Some? && "instructions" !in j.fields ==> r.value.instructions == ""
  {
    if !j.JObject? then None
    else
      var m := j.fields;
      var name, dose, route := RequiredString(m, "name"), RequiredString(m, "dose"), RequiredString(m, "route");
      var frequency, duration := RequiredString(m, "frequency"), RequiredString(m, "duration");
      var instructions := DefaultedString(m, "instructions");
      if name.Some? && dose.Some? && route.Some? && frequency.Some? && duration.Some? && instructions.Some? then
        Some(Medication(name.value, dose.value, route.value, frequency.value, duration.value, instructions.value))
      else None
  }

  function DumpMedication(med: Medication): (r: Json)
    ensures r.JObject? && r.fields.Keys == MedicationFields
  {
    JObject(map["name" := JString(med.name), "dose" := JString(med.dose), "route" := JString(med.route),
                "frequency" := JString(med.frequency), "duration" := JString(med.duration),
                "instructions" := JString(med.instructions)])
  }

  /** A `list[Medication]` value. */
  function MedicationList(items: seq<Json>): (r: Option<seq<Medication>>)
    ensures r.Some? ==> |r.value| == |items| && forall i :: 0 <= i < |items| ==> ValidateMedication(items[i]) == Some(r.value[i])
    ensures r.None? <==> exists i :: 0 <= i < |items| && ValidateMedication(items[i]).None?
  {
    if |items| == 0 then Some([])
    else
      match (ValidateMedication(items[0]), MedicationList(items[1..]))
      case (Some(med), Some(rest)) =>
        assert forall i :: 1 <= i < |items| ==> items[i] == items[1..][i - 1];
        Some([med] + rest)
      case (None, _) => None
      case (_, None) =>
        var i :| 0 <= i < |items[1..]| && ValidateMedication(items[1..][i]).None?;
        assert items[1..][i] == items[i + 1];
        None
  }

  function DumpMedications(meds: seq<Medication>): (r: seq<Json>)
    ensures |r| == |meds| && forall i :: 0 <= i < |meds| ==> r[i] == DumpMedication(meds[i])
  {
    seq(|meds|, i requires 0 <= i < |meds| => DumpMedication(meds[i]))
  }

  // ---------- SOAPNote and PrescriptionNote ----------

  /** `SOAPNote(**m)`. */
  function ValidateSoap(m: map<string, Json>): (r: Option<SoapNote>)
    ensures r.Some? <==>
      RequiredString(m, "conversation_summary").Some? && RequiredString(m, "key_insights").Some? &&
      RequiredString(m, "subjective").Some? && RequiredString(m, "objective").Some? &&
      RequiredString(m, "assessment").Some? && RequiredString(m, "plan").Some? &&
      DefaultedStringList(m, "admin_tasks").Some?
    ensures r.Some? ==> forall k :: k in SoapFields && k in m ==> DumpSoap(r.value)[k] == m[k]
    ensures r.Some? && "admin_tasks" !in m ==> r.value.adminTasks == []
  {
    var summary := RequiredString(m, "conversation_summary");
    var subjective, objective := RequiredString(m, "subjective"), RequiredString(m, "objective");
    var assessment, plan := RequiredString(m, "assessment"), RequiredString(m, "plan");
    var insights, tasks := RequiredString(m, "key_insights"), DefaultedStringList(m, "admin_tasks");
    if summary.Some? && subjective.Some? && objective.Some? && assessment.Some? && plan.Some? &&
       insights.Some? && tasks.Some?
    then Some(SoapNote(summary.value, subjective.value, objective.value, assessment.value, plan.value,
                       insights.value, tasks.value))
    else None
  }

  /** `SOAPNote.model_dump()`. */
  function DumpSoap(n: SoapNote): (r: map<string, Json>)
    ensures r.Keys == SoapFields
  {
    map["conversation_summary" := JString(n.conversationSummary), "subjective" := JString(n.subjective),
        "objective" := JString(n.objective), "assessment" := JString(n.assessment),
        "plan" := JString(n.plan), "key_insights" := JString(n.keyInsights),
        "admin_tasks" := JArray(JStrings(n.adminTasks))]
  }

  /** `PrescriptionNote(**m)`. */
  function ValidatePrescription(m: map<string, Json>): (r: Option<PrescriptionNote>)
    ensures r.Some? <==>
      RequiredString(m, "patient_name").Some? && RequiredString(m, "patient_id").Some? &&
      DefaultedString(m, "chief_complaint").Some? && DefaultedStringList(m, "symptoms").Some? &&
      DefaultedString(m, "diagnosis").Some? && DefaultedObject(m, "vital_signs").Some? &&
      "medications" in m && m["medications"].JArray? && MedicationList(m["medications"].items).Some? &&
      DefaultedString(m, "instructions").Some? && DefaultedStringList(m, "warnings").Some? &&
      DefaultedString(m, "follow_up").Some?
    ensures r.Some? ==> Some(r.value.medications) == MedicationList(m["medications"].items)
  {
    var name, id := RequiredString(m, "patient_name"), RequiredString(m, "patient_id");
    var complaint, symptoms := DefaultedString(m, "chief_complaint"), DefaultedStringList(m, "symptoms");
    var diagnosis, vitals := DefaultedString(m, "diagnosis"), DefaultedObject(m, "vital_signs");
    var meds := if "medications" in m && m["medications"].JArray? then MedicationList(m["medications"].items) else None;
    var instructions, warnings := DefaultedString(m, "instructions"), DefaultedStringList(m, "warnings");
    var followUp := DefaultedString(m, "follow_up");
    if name.Some? && id.Some? && complaint.Some? && symptoms.Some? && diagnosis.Some? && vitals.Some? &&
       meds.Some? && instructions.Some? && warnings.Some? && followUp.Some?
    then Some(PrescriptionNote(name.value, id.value, complaint.value, symptoms.value, diagnosis.value,
                               vitals.value, meds.value, instructions.value, warnings.value, followUp.value))
    else None
  }

  /** `PrescriptionNote.model_dump()`. */
  function DumpPrescription(n: PrescriptionNote): (r: map<string, Json>)
    ensures r.Keys == PrescriptionFields
  {
    map["patient_name" := JString(n.patientName), "patient_id" := JString(n.patientId),
        "chief_complaint" := JString(n.chiefComplaint), "symptoms" := JArray(JStrings(n.symptoms)),
        "diagnosis" := JString(n.diagnosis), "vital_signs" := JObject(n.vitalSigns),
        "medications" := JArray(DumpMedications(n.medications)), "instructions" := JString(n.instructions),
        "warnings" := JArray(JStrings(n.warnings)), "follow_up" := JString(n.followUp)]
  }

  // ---------- round trips ----------

  lemma StringListRoundTrip(ss: seq<string>)
    ensures StringList(JStrings(ss)) == Some(ss)
  {
    var js := JStrings(ss);
    assert StringList(js).Some?;
    var r := StringList(js).value;
    forall i | 0 <= i < |ss| ensures r[i] == ss[i] {
      assert JString(r[i]) == js[i];
    }
    assert r == ss;
  }

  lemma MedicationRoundTrip(med: Medication)
    ensures ValidateMedication(DumpMedication(med)) == Some(med)
  {
    var m := DumpMedication(med).fields;
    assert RequiredString(m, "name") == Some(med.name);
  }

  lemma MedicationListRoundTrip(meds: seq<Medication>)
    ensures MedicationList(DumpMedications(meds)) == Some(meds)
  {
    var js := DumpMedications(meds);
    forall i | 0 <= i < |js| ensures ValidateMedication(js[i]) == Some(meds[i]) {
      MedicationRoundTrip(meds[i]);
    }
    assert MedicationList(js).Some?;
    var r := MedicationList(js).value;
    forall i | 0 <= i < |meds| ensures r[i] == meds[i] {
      assert ValidateMedication(js[i]) == Some(r[i]);
    }
    assert r == meds;
  }

  /** Validating a dumped SOAP note gives the note back. */
  lemma SoapRoundTrip(n: SoapNote)
    ensures ValidateSoap(DumpSoap(n)) == Some(n)
  {
    StringListRoundTrip(n.adminTasks);
  }

  /** Validating a dumped prescription gives the prescription back. */
  lemma PrescriptionDumpFields(n: PrescriptionNote)
    ensures var d := DumpPrescription(n);
      RequiredString(d, "patient_name") == Some(n.patientName) &&
      RequiredString(d, "patient_id") == Some(n.patientId) &&
      DefaultedString(d, "chief_complaint") == Some(n.chiefComplaint) &&
      d["symptoms"] == JArray(JStrings(n.symptoms)) &&
      DefaultedString(d, "diagnosis") == Some(n.diagnosis) &&
      DefaultedObject(d, "vital_signs") == Some(n.vitalSigns) &&
      d["medications"] == JArray(DumpMedications(n.medications)) &&
      DefaultedString(d, "instructions") == Some(n.instructions) &&
      d["warnings"] == JArray(JStrings(n.warnings)) &&
      DefaultedString(d, "follow_up") == Some(n.followUp)
  {
  }

  lemma PrescriptionRoundTrip(n: PrescriptionNote)
    ensures ValidatePrescription(DumpPrescription(n)) == Some(n)
  {
    PrescriptionDumpFields(n);
    StringListRoundTrip(n.symptoms);
    StringListRoundTrip(n.warnings);
    MedicationListRoundTrip(n.medications);
  }

  /** Two objects that agree on the declared fields validate alike: undeclared keys are ignored. */
  lemma SoapIgnoresUndeclared(m: map<string, Json>, m': map<string, Json>)
    requires forall k :: k in SoapFields ==> (k in m <==> k in m') && (k in m ==> m[k] == m'[k])
    ensures ValidateSoap(m) == ValidateSoap(m')
  {
    assert DefaultedStringList(m, "admin_tasks") == DefaultedStringList(m', "admin_tasks");
  }

  lemma PrescriptionIgnoresUndeclared(m: map<string, Json>, m': map<string, Json>)
    requires forall k :: k in PrescriptionFields ==> (k in m <==> k in m') && (k in m ==> m[k] == m'[k])
    ensures ValidatePrescription(m) == ValidatePrescription(m')
  {
    assert RequiredString(m, "patient_name") == RequiredString(m', "patient_name");
    assert RequiredString(m, "patient_id") == RequiredString(m', "patient_id");
    assert DefaultedString(m, "chief_complaint") == DefaultedString(m', "chief_complaint");
    assert DefaultedStringList(m, "symptoms") == DefaultedStringList(m', "symptoms");
    assert DefaultedString(m, "diagnosis") == DefaultedString(m', "diagnosis");
    assert DefaultedObject(m, "vital_signs") == DefaultedObject(m', "vital_signs");
    assert "medications" in m ==> m["medications"] == m'["medications"];
    assert DefaultedString(m, "instructions") == DefaultedString(m', "instructions");
    assert DefaultedStringList(m, "warnings") == DefaultedStringList(m', "warnings");
    assert DefaultedString(m, "follow_up") == DefaultedString(m', "follow_up");
  }

  /** A dumped list of strings is the list that was validated. */
  lemma StringListDumped(items: seq<Json>)
    requires StringList(items).Some?
    ensures JStrings(StringList(items).value) == items
  {
  }

  /**
   * An accepted prescription keeps the object's value of every declared field it
   * was given, except `medications`: a dumped medication gains `instructions` and
   * loses undeclared keys.
   */
  lemma PrescriptionFieldsKept(m: map<string, Json>)
    requires ValidatePrescription(m).Some?
    ensures forall k :: k in PrescriptionFields && k != "medications" && k in m ==>
      DumpPrescription(ValidatePrescription(m).value)[k] == m[k]
  {
    PrescriptionReads(m);
    DumpKeepsRead(m, ValidatePrescription(m).value);
  }

  /** A prescription whose fields were read off `m` dumps back to `m`'s values. */
  lemma DumpKeepsRead(m: map<string, Json>, n: PrescriptionNote)
    requires PrescriptionRead(m, n)
    ensures forall k :: k in PrescriptionFields && k != "medications" && k in m ==> DumpPrescription(n)[k] == m[k]
  {
    var d := DumpPrescription(n);
    forall k | k in PrescriptionFields && k != "medications" && k in m ensures d[k] == m[k] {
      if k == "symptoms" || k == "warnings" {
        StringListDumped(m[k].items);
      }
    }
  }

  /** Every field of `n` but the medications is what the schema reads from `m`. */
  predicate PrescriptionRead(m: map<string, Json>, n: PrescriptionNote) {
    Some(n.patientName) == RequiredString(m, "patient_name") &&
    Some(n.patientId) == RequiredString(m, "patient_id") &&
    Some(n.chiefComplaint) == DefaultedString(m, "chief_complaint") &&
    Some(n.symptoms) == DefaultedStringList(m, "symptoms") &&
    Some(n.diagnosis) == DefaultedString(m, "diagnosis") &&
    Some(n.vitalSigns) == DefaultedObject(m, "vital_signs") &&
    Some(n.instructions) == DefaultedString(m, "instructions") &&
    Some(n.warnings) == DefaultedStringList(m, "warnings") &&
    Some(n.followUp) == DefaultedString(m, "follow_up")
  }

  /** The fields of an accepted prescription, read off the object one by one. */
  lemma PrescriptionReads(m: map<string, Json>)
    requires ValidatePrescription(m).Some?
    ensures PrescriptionRead(m, ValidatePrescription(m).value)
  {
  }

  /** An accepted prescription takes the declared default for every optional field it was not given. */
  lemma PrescriptionDefaults(m: map<string, Json>)
    requires ValidatePrescription(m).Some?
    ensures var n := ValidatePrescription(m).value;
      ("chief_complaint" !in m ==> n.chiefComplaint == "") && ("symptoms" !in m ==> n.symptoms == []) &&
      ("diagnosis" !in m ==> n.diagnosis == "") && ("vital_signs" !in m ==> n.vitalSigns == map[]) &&
      ("instructions" !in m ==> n.instructions == "") && ("warnings" !in m ==> n.warnings == []) &&
      ("follow_up" !in m ==> n.followUp == "")
  {
  }

  /**
   * The conditions of `PrescriptionNote` on every field but the patient's name and
   * id: the fields the request overwrites on the primary path.
   */
  predicate PrescriptionBodyAccepted(m: map<string, Json>) {
    DefaultedString(m, "chief_complaint").Some? && DefaultedStringList(m, "symptoms").Some? &&
    DefaultedString(m, "diagnosis").Some? && DefaultedObject(m, "vital_signs").Some? &&
    "medications" in m && m["medications"].JArray? && MedicationList(m["medications"].items).Some? &&
    DefaultedString(m, "instructions").Some? && DefaultedStringList(m, "warnings").Some? &&
    DefaultedString(m, "follow_up").Some?
  }

  // ---------- normalisation ----------

  const IdentityDefaults: set<string> := {"patient_id", "doctor_id", "visit_type"}
  const SoapTextFields: set<string> := {"subjective", "objective", "assessment", "plan"}

  /** The value a missing identity key receives from the request. */
  function IdentityDefault(req: SummarizeRequest, key: string): Json
    requires key in IdentityDefaults
  {
    if key == "patient_id" then JString(req.patientId)
    else if key == "doctor_id" then JString(req.doctorId)
    else JString(req.visitType)
  }

  /**
   * The SOAP object after normalisation: the request's identity fills only missing
   * keys, and the four text sections holding an object or a list are replaced by
   * their Python string rendering `show`.
   */
  function SoapNormalized(m: map<string, Json>, req: SummarizeRequest, show: Json -> string): (r: map<string, Json>)
    ensures r.Keys == m.Keys + IdentityDefaults
    ensures forall k :: k in m && (k !in SoapTextFields || !IsContainer(m[k])) ==> r[k] == m[k]
    ensures forall k :: k in m && k in SoapTextFields && IsContainer(m[k]) ==> r[k] == JString(show(m[k]))
    ensures forall k :: k in IdentityDefaults && k !in m ==> r[k] == IdentityDefault(req, k)
  {
    map k | k in m.Keys + IdentityDefaults ::
      if k !in m then IdentityDefault(req, k)
      else if k in SoapTextFields && IsContainer(m[k]) then JString(show(m[k]))
      else m[k]
  }

  /** The prescription object after normalisation: the request's identity always wins. */
  function PrescriptionNormalized(m: map<string, Json>, req: SummarizeRequest): (r: map<string, Json>)
    ensures r.Keys == m.Keys + {"patient_name", "patient_id"}
    ensures r["patient_name"] == JString(req.patientName) && r["patient_id"] == JString(req.patientId)
    ensures forall k :: k in m && k != "patient_name" && k != "patient_id" ==> r[k] == m[k]
  {
    m["patient_name" := JString(req.patientName)]["patient_id" := JString(req.patientId)]
  }

  /** A normalised prescription is accepted exactly when its non-patient fields are. */
  lemma PrescriptionNormalizedAccepted(m: map<string, Json>, req: SummarizeRequest)
    ensures ValidatePrescription(PrescriptionNormalized(m, req)).Some? <==> PrescriptionBodyAccepted(m)
  {
    var r := PrescriptionNormalized(m, req);
    assert RequiredString(r, "patient_name").Some? && RequiredString(r, "patient_id").Some?;
    assert DefaultedString(r, "chief_complaint") == DefaultedString(m, "chief_complaint");
    assert DefaultedStringList(r, "symptoms") == DefaultedStringList(m, "symptoms");
    assert DefaultedString(r, "diagnosis") == DefaultedString(m, "diagnosis");
    assert DefaultedObject(r, "vital_signs") == DefaultedObject(m, "vital_signs");
    assert "medications" in m ==> r["medications"] == m["medications"];
    assert DefaultedString(r, "instructions") == DefaultedString(m, "instructions");
    assert DefaultedStringList(r, "warnings") == DefaultedStringList(m, "warnings");
    assert DefaultedString(r, "follow_up") == DefaultedString(m, "follow_up");
  }

  /**
   * A normalised SOAP object is accepted exactly when the summary and insights are
   * strings, each text section is present as a string, an object or a list, and
   * any `admin_tasks` is a list of strings.
   */
  lemma SoapNormalizedAccepted(m: map<string, Json>, req: SummarizeRequest, show: Json -> string)
    ensures ValidateSoap(SoapNormalized(m, req, show)).Some? <==>
      RequiredString(m, "conversation_summary").Some? && RequiredString(m, "key_insights").Some? &&
      (forall k :: k in SoapTextFields ==> k in m && (m[k].JString? || IsContainer(m[k]))) &&
      DefaultedStringList(m, "admin_tasks").Some?
  {
    NormalizedFieldsUsable(m, req, show);
  }

  /** The field conditions of `SOAPNote` on the normalised object, in terms of the object before. */
  lemma NormalizedFieldsUsable(m: map<string, Json>, req: SummarizeRequest, show: Json -> string)
    ensures var r := SoapNormalized(m, req, show);
      (RequiredString(r, "conversation_summary").Some? && RequiredString(r, "key_insights").Some? &&
       RequiredString(r, "subjective").Some? && RequiredString(r, "objective").Some? &&
       RequiredString(r, "assessment").Some? && RequiredString(r, "plan").Some? &&
       DefaultedStringList(r, "admin_tasks").Some?) <==>
      (RequiredString(m, "conversation_summary").Some? && RequiredString(m, "key_insights").Some? &&
       (forall k :: k in SoapTextFields ==> k in m && (m[k].JString? || IsContainer(m[k]))) &&
       DefaultedStringList(m, "admin_tasks").Some?)
  {
    var r := SoapNormalized(m, req, show);
    NormalizedKeepsOther(m, req, show, "conversation_summary");
    NormalizedKeepsOther(m, req, show, "key_insights");
    NormalizedKeepsOther(m, req, show, "admin_tasks");
    assert DefaultedStringList(r, "admin_tasks") == DefaultedStringList(m, "admin_tasks");
    SectionsUsable(m, req, show);
  }

  /** The four text sections are usable after normalisation exactly when each is present as a string or a container. */
  lemma SectionsUsable(m: map<string, Json>, req: SummarizeRequest, show: Json -> string)
    ensures var r := SoapNormalized(m, req, show);
      (RequiredString(r, "subjective").Some? && RequiredString(r, "objective").Some? &&
       RequiredString(r, "assessment").Some? && RequiredString(r, "plan").Some?) <==>
      (forall k :: k in SoapTextFields ==> k in m && (m[k].JString? || IsContainer(m[k])))
  {
    SectionAccepted(m, req, show, "subjective");
    SectionAccepted(m, req, show, "objective");
    SectionAccepted(m, req, show, "assessment");
    SectionAccepted(m, req, show, "plan");
  }

  lemma NormalizedKeepsOther(m: map<string, Json>, req: SummarizeRequest, show: Json -> string, k: string)
    requires k !in SoapTextFields && k !in IdentityDefaults
    ensures (k in SoapNormalized(m, req, show) <==> k in m) && (k in m ==> SoapNormalized(m, req, show)[k] == m[k])
  {
  }

  lemma SectionAccepted(m: map<string, Json>, req: SummarizeRequest, show: Json -> string, k: string)
    requires k in SoapTextFields
    ensures RequiredString(SoapNormalized(m, req, show), k).Some? <==> k in m && (m[k].JString? || IsContainer(m[k]))
  {
  }

  /** The identity defaults never reach a validated SOAP note: they are not declared fields. */
  lemma SoapIdentityDropped(m: map<string, Json>, req: SummarizeRequest, req': SummarizeRequest, show: Json -> string)
    ensures ValidateSoap(SoapNormalized(m, req, show)) == ValidateSoap(SoapNormalized(m, req', show))
  {
    SoapIgnoresUndeclared(SoapNormalized(m, req, show), SoapNormalized(m, req', show));
  }

  /** A normalised prescription carries the request's patient, whatever the model wrote. */
  lemma PrescriptionIdentityFromRequest(m: map<string, Json>, req: SummarizeRequest)
    ensures ValidatePrescription(PrescriptionNormalized(m, req)).Some? ==>
      ValidatePrescription(PrescriptionNormalized(m, req)).value.patientName == req.patientName &&
      ValidatePrescription(PrescriptionNormalized(m, req)).value.patientId == req.patientId
  {
  }

  function WithIdentityDefaults(m: map<string, Json>, req: SummarizeRequest): map<string, Json> {
    map k | k in m.Keys + IdentityDefaults :: if k in m then m[k] else IdentityDefault(req, k)
  }

  /** `m` with the containers under the keys in `keys` replaced by their string rendering. */
  function StringifiedIn(m: map<string, Json>, keys: set<string>, show: Json -> string): map<string, Json> {
    map k | k in m :: if k in keys && IsContainer(m[k]) then JString(show(m[k])) else m[k]
  }

  function StringifiedSections(m: map<string, Json>, show: Json -> string): map<string, Json> {
    StringifiedIn(m, SoapTextFields, show)
  }

  /** Converting one more key extends the set of converted keys. */
  lemma StringifyOneMore(m: map<string, Json>, keys: set<string>, key: string, keys': set<string>, show: Json -> string)
    requires key !in keys && keys' == keys + {key}
    ensures var done := StringifiedIn(m, keys, show);
      (if key in done && IsContainer(done[key]) then done[key := JString(show(done[key]))] else done)
      == StringifiedIn(m, keys', show)
  {
  }

  lemma SoapNormalizedInSteps(m: map<string, Json>, req: SummarizeRequest, show: Json -> string)
    ensures StringifiedSections(WithIdentityDefaults(m, req), show) == SoapNormalized(m, req, show)
  {
    var l, r := StringifiedSections(WithIdentityDefaults(m, req), show), SoapNormalized(m, req, show);
    assert l.Keys == r.Keys;
    forall k | k in l ensures l[k] == r[k] {
      NormalizedKeyInSteps(m, req, show, k);
    }
    assert l == r;
  }

  lemma NormalizedKeyInSteps(m: map<string, Json>, req: SummarizeRequest, show: Json -> string, k: string)
    requires k in m.Keys + IdentityDefaults
    ensures StringifiedSections(WithIdentityDefaults(m, req), show)[k] == SoapNormalized(m, req, show)[k]
  {
  }

  /** The parsed JSON object that normalisation updates in place. */
  class NoteJson {
    var fields: map<string, Json>

    constructor (fields: map<string, Json>)
      ensures this.fields == fields
    {
      this.fields := fields;
    }

    /** `if key not in d: d[key] = value`. */
    method SetDefault(key: string, value: Json)
      modifies this
      ensures fields == if key in old(fields) then old(fields) else old(fields)[key := value]
    {
      if key !in fields {
        fields := fields[key := value];
      }
    }

    /** `if isinstance(d.get(key), (dict, list)): d[key] = str(d[key])`. */
    method StringifyContainer(key: string, show: Json -> string)
      modifies this
      ensures fields == if key in old(fields) && IsContainer(old(fields)[key])
                        then old(fields)[key := JString(show(old(fields)[key]))] else old(fields)
    {
      if key in fields && IsContainer(fields[key]) {
        fields := fields[key := JString(show(fields[key]))];
      }
    }

    /** `d[key] = value`. */
    method Put(key: string, value: Json)
      modifies this
      ensures fields == old(fields)[key := value]
    {
      fields := fields[key := value];
    }

    method NormalizeSoap(req: SummarizeRequest, show: Json -> string)
      modifies this
      ensures fields == SoapNormalized(old(fields), req, show)
    {
      AddIdentityDefaults(req);
      StringifySections(show);
      SoapNormalizedInSteps(old(fields), req, show);
    }

    /** The three `if key not in note_json` assignments of the SOAP path. */
    method AddIdentityDefaults(req: SummarizeRequest)
      modifies this
      ensures fields == WithIdentityDefaults(old(fields), req)
    {
      SetDefault("patient_id", JString(req.patientId));
      SetDefault("doctor_id", JString(req.doctorId));
      SetDefault("visit_type", JString(req.visitType));
    }

    /** The four `str(...)` conversions of the SOAP path. */
    method StringifySections(show: Json -> string)
      modifies this
      ensures fields == StringifiedSections(old(fields), show)
    {
      ghost var m := fields;
      assert fields == StringifiedIn(m, {}, show);
      StringifyOneMore(m, {}, "subjective", {"subjective"}, show);
      StringifyContainer("subjective", show);
      assert fields == StringifiedIn(m, {"subjective"}, show);
      StringifyOneMore(m, {"subjective"}, "objective", {"subjective", "objective"}, show);
      StringifyContainer("objective", show);
      assert fields == StringifiedIn(m, {"subjective", "objective"}, show);
      StringifyOneMore(m, {"subjective", "objective"}, "assessment", {"subjective", "objective", "assessment"}, show);
      StringifyContainer("assessment", show);
      assert fields == StringifiedIn(m, {"subjective", "objective", "assessment"}, show);
      StringifyOneMore(m, {"subjective", "objective", "assessment"}, "plan", SoapTextFields, show);
      StringifyContainer("plan", show);
    }

    method NormalizePrescription(req: SummarizeRequest)
      modifies this
      ensures fields == PrescriptionNormalized(old(fields), req)
    {
      Put("patient_name", JString(req.patientName));
      Put("patient_id", JString(req.patientId));
    }
  }
}

/**
 * One generation attempt of `summarize_transcript`: extract the JSON value from the
 * model's reply, normalise it for the requested note type and validate it. The
 * primary attempt and the single retry differ: only the primary attempt writes the
 * request's patient into a prescription.
 */
module Generation {
  import opened Wrappers
  import opened JsonValue
  import opened Extraction
  import opened Requests
  import opened Notes

  datatype Note = Soap(soap: SoapNote) | Prescription(prescription: PrescriptionNote)

  datatype Path = Primary | Retry

  /** The outcome of one attempt on one reply of the model. */
  datatype Attempt =
    | Produced(note: Note)
    | NotJson(message: string)   // the ValueError of the extraction
    | NotAnObject                // the value parsed, but is not a JSON object
    | Rejected                   // schema validation failed

  /** The reply of the language model, or how the call to it failed. */
  datatype LlmReply = Completed(content: string) | TimedOut | ServiceFailed(reason: string)

  /** A call to the language model: the user prompt and the temperature in hundredths. */
  datatype LlmCall = LlmCall(userPrompt: string, temperature: nat)

  const PrimaryTemperature: nat := 10
  const RetryTemperature: nat := 5
  const RetrySuffix: string := "\n\nIMPORTANT: Respond with valid JSON only."

  const InternalError := HttpError(500, "Internal server error during note generation")
  const FormatError := HttpError(500, "Generated note doesn't match required format.")
  const RetryFailed := HttpError(500, "AI failed to generate valid note. Please try again.")

  /** The error `call_ollama` raises for a failed call. */
  function ServiceError(reply: LlmReply): (e: HttpError)
    requires !reply.Completed?
    ensures e.status == (if reply.TimedOut? then 504 else 500)
  {
    match reply
    case TimedOut => HttpError(504, "AI service timed out. Please try again.")
    case ServiceFailed(reason) => HttpError(500, "AI service error: " + reason)
  }

  function DumpNote(n: Note): (r: map<string, Json>)
    ensures r.Keys == if n.Soap? then SoapFields else PrescriptionFields
  {
    match n
    case Soap(s) => DumpSoap(s)
    case Prescription(p) => DumpPrescription(p)
  }

  /** `{**note, "id": id, "note_type": noteType}`. */
  function WithIdentity(body: map<string, Json>, id: string, noteType: string): (r: map<string, Json>)
    ensures r.Keys == body.Keys + {"id", "note_type"}
    ensures r["id"] == JString(id) && r["note_type"] == JString(noteType)
    ensures forall k :: k in body && k != "id" && k != "note_type" ==> r[k] == body[k]
  {
    body["id" := JString(id)]["note_type" := JString(noteType)]
  }

  /** The object validated on `path` for a request. */
  function NormalizedFor(req: SummarizeRequest, m: map<string, Json>, show: Json -> string, path: Path): map<string, Json> {
    if req.noteType == "soap" then SoapNormalized(m, req, show)
    else if path.Primary? then PrescriptionNormalized(m, req)
    else m
  }

  /** Schema validation of the normalised object, by the requested note type. */
  function Validated(req: SummarizeRequest, m: map<string, Json>): (r: Attempt)
    ensures r.Produced? || r.Rejected?
    ensures r.Produced? <==> if req.noteType == "soap" then ValidateSoap(m).Some? else ValidatePrescription(m).Some?
    ensures r.Produced? ==> (r.note.Soap? <==> req.noteType == "soap")
    ensures r.Produced? && r.note.Soap? ==> ValidateSoap(m) == Some(r.note.soap)
    ensures r.Produced? && r.note.Prescription? ==> ValidatePrescription(m) == Some(r.note.prescription)
  {
    if req.noteType == "soap" then
      match ValidateSoap(m)
      case Some(n) => Produced(Soap(n))
      case None => Rejected
    else
      match ValidatePrescription(m)
      case Some(n) => Produced(Prescription(n))
      case None => Rejected
  }

  /** What an attempt on `path` makes of the reply `content`. */
  function AttemptNote(req: SummarizeRequest, content: string, parse: string -> Option<Json>,
                       show: Json -> string, path: Path): (r: Attempt)
    ensures r.NotJson? <==> ExtractJson(content, parse).Err?
    ensures r.NotJson? ==> r.message == ExtractionError(content)
    ensures r.NotAnObject? <==> ExtractJson(content, parse).Ok? && !ExtractJson(content, parse).value.JObject?
    ensures ExtractJson(content, parse).Ok? && ExtractJson(content, parse).value.JObject? ==>
              r == Validated(req, NormalizedFor(req, ExtractJson(content, parse).value.fields, show, path))
    ensures r.Produced? ==> (r.note.Soap? <==> req.noteType == "soap")
    ensures r.Produced? && r.note.Prescription? && path.Primary? ==>
              r.note.prescription.patientName == req.patientName && r.note.prescription.patientId == req.patientId
  {
    match ExtractJson(content, parse)
    case Err(message) => NotJson(message)
    case Ok(j) =>
      if !j.JObject? then NotAnObject
      else
        if req.noteType != "soap" && path.Primary? then
          PrescriptionIdentityFromRequest(j.fields, req);
          Validated(req, PrescriptionNormalized(j.fields, req))
        else
          Validated(req, NormalizedFor(req, j.fields, show, path))
  }

  /** Whether the primary attempt's outcome sends the request to the retry. */
  predicate NeedsRetry(a: Attempt, schemaErrorIsValueError: bool) {
    a.NotJson? || (a.Rejected? && schemaErrorIsValueError)
  }

  /**
   * The attempt as the endpoint runs it: the parsed object is normalised in place,
   * then validated.
   */
  method RunAttempt(req: SummarizeRequest, content: string, parse: string -> Option<Json>,
                    show: Json -> string, path: Path) returns (a: Attempt)
    ensures a == AttemptNote(req, content, parse, show, path)
  {
    var extracted := ExtractJson(content, parse);
    if extracted.Err? {
      return NotJson(extracted.error);
    }
    if !extracted.value.JObject? {
      return NotAnObject;
    }
    var draft := new NoteJson(extracted.value.fields);
    if req.noteType == "soap" {
      draft.NormalizeSoap(req, show);
    } else if path.Primary? {
      draft.NormalizePrescription(req);
    }
    a := Validated(req, draft.fields);
  }

  /**
   * On the retry path a prescription is validated as the model wrote it: the
   * request's patient plays no part.
   */
  lemma RetryPrescriptionIgnoresRequestPatient(req: SummarizeRequest, req': SummarizeRequest, content: string,
                                               parse: string -> Option<Json>, show: Json -> string)
    requires req.noteType != "soap" && req'.noteType == req.noteType
    ensures AttemptNote(req, content, parse, show, Retry) == AttemptNote(req', content, parse, show, Retry)
  {
  }

  /**
   * The consequence of the retry path's missing injection: a prescription whose
   * reply names no patient is rejected on the retry, whatever the request says.
   */
  lemma RetryPrescriptionNeedsPatientInReply(req: SummarizeRequest, content: string,
                                             parse: string -> Option<Json>, show: Json -> string)
    requires req.noteType != "soap"
    requires ExtractJson(content, parse).Ok? && ExtractJson(content, parse).value.JObject?
    requires "patient_name" !in ExtractJson(content, parse).value.fields
    ensures AttemptNote(req, content, parse, show, Retry) == Rejected
  {
  }

  /**
   * A SOAP reply that extracts to an object yields a note, on either path, exactly
   * when the summary and insights are strings, each text section is present as a
   * string, object or list, and any `admin_tasks` is a list of strings.
   */
  lemma SoapAttemptProduced(req: SummarizeRequest, content: string, parse: string -> Option<Json>,
                            show: Json -> string, path: Path)
    requires req.noteType == "soap"
    requires ExtractJson(content, parse).Ok? && ExtractJson(content, parse).value.JObject?
    ensures var m := ExtractJson(content, parse).value.fields;
      AttemptNote(req, content, parse, show, path).Produced? <==>
        RequiredString(m, "conversation_summary").Some? && RequiredString(m, "key_insights").Some? &&
        (forall k :: k in SoapTextFields ==> k in m && (m[k].JString? || IsContainer(m[k]))) &&
        DefaultedStringList(m, "admin_tasks").Some?
  {
    SoapNormalizedAccepted(ExtractJson(content, parse).value.fields, req, show);
  }

  /**
   * On the primary path a prescription reply that extracts to an object yields a
   * note exactly when its non-patient fields are acceptable: the request supplies
   * the patient.
   */
  lemma PrimaryPrescriptionProduced(req: SummarizeRequest, content: string, parse: string -> Option<Json>,
                                    show: Json -> string)
    requires req.noteType != "soap"
    requires ExtractJson(content, parse).Ok? && ExtractJson(content, parse).value.JObject?
    ensures var m := ExtractJson(content, parse).value.fields;
      AttemptNote(req, content, parse, show, Primary).Produced? <==>
        PrescriptionBodyAccepted(m)
  {
    PrescriptionNormalizedAccepted(ExtractJson(content, parse).value.fields, req);
  }

  /** On the retry a prescription reply yields a note exactly when the object as written validates. */
  lemma RetryPrescriptionProduced(req: SummarizeRequest, content: string, parse: string -> Option<Json>,
                                  show: Json -> string)
    requires req.noteType != "soap"
    requires ExtractJson(content, parse).Ok? && ExtractJson(content, parse).value.JObject?
    ensures AttemptNote(req, content, parse, show, Retry).Produced? <==>
      ValidatePrescription(ExtractJson(content, parse).value.fields).Some?
  {
  }

  /** The SOAP outcome does not depend on the request's identity fields, on either path. */
  lemma SoapAttemptIgnoresIdentity(req: SummarizeRequest, req': SummarizeRequest, content: string,
                                   parse: string -> Option<Json>, show: Json -> string, path: Path)
    requires req.noteType == "soap" && req'.noteType == "soap"
    ensures AttemptNote(req, content, parse, show, path) == AttemptNote(req', content, parse, show, path)
  {
    var e := ExtractJson(content, parse);
    if e.Ok? && e.value.JObject? {
      SoapIdentityDropped(e.value.fields, req, req', show);
    }
  }
}

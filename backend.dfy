/**
 * The endpoints whose decisions are modelled, over an in-memory picture of the
 * four tables they write: doctors, conversations, SOAP notes and prescriptions.
 * The store assigns row ids; each method takes the id the next insert receives.
 */
module Backend {
  import opened Wrappers
  import opened JsonValue
  import opened Upload
  import opened Requests
  import opened Notes
  import opened Generation

  datatype DoctorCreate = DoctorCreate(
    name: string, email: string, specialty: Option<string>, licenseNumber: Option<string>, phone: Option<string>)

  datatype DoctorRecord = DoctorRecord(
    id: string, name: string, email: string, specialty: Option<string>, licenseNumber: Option<string>, phone: Option<string>)

  datatype ConversationRecord = ConversationRecord(id: string, patientId: string, doctorId: string, transcript: string)

  datatype SoapRecord = SoapRecord(
    id: string, patientId: string, doctorId: string, conversationId: Option<string>, visitType: string, note: SoapNote)

  datatype PrescriptionRecord = PrescriptionRecord(
    id: string, patientId: string, doctorId: string, conversationId: Option<string>,
    chiefComplaint: string, symptoms: seq<string>, diagnosis: string, vitalSigns: map<string, Json>,
    instructions: string, warnings: seq<string>, followUp: string)

  /** What the speech recogniser returned for the saved audio file. */
  datatype Recognition = Segments(texts: seq<string>) | RecognitionFailed(reason: string)

  /** How the conversation insert ended. */
  datatype SaveOutcome = Saved(id: string) | SaveFailed

  datatype TranscribeResponse = TranscribeResponse(transcript: string, status: string, conversationId: Option<string>)

  const DuplicateEmail := HttpError(400, "Doctor with this email already exists")
  const NoSpeech := HttpError(400, "No speech detected in audio file.")

  predicate EmailTaken(doctors: seq<DoctorRecord>, email: string) {
    exists i :: 0 <= i < |doctors| && doctors[i].email == email
  }

  ghost predicate EmailsUnique(doctors: seq<DoctorRecord>) {
    forall i, j :: 0 <= i < j < |doctors| ==> doctors[i].email != doctors[j].email
  }

  /** Python truthiness of an optional form field: present and not empty. */
  predicate Truthy(field: Option<string>) {
    field.Some? && field.value != ""
  }

  function SoapRecordOf(id: string, req: SummarizeRequest, n: SoapNote): SoapRecord {
    SoapRecord(id, req.patientId, req.doctorId, req.conversationId, req.visitType, n)
  }

  function PrescriptionRecordOf(id: string, req: SummarizeRequest, n: PrescriptionNote): PrescriptionRecord {
    PrescriptionRecord(id, req.patientId, req.doctorId, req.conversationId, n.chiefComplaint, n.symptoms,
                       n.diagnosis, n.vitalSigns, n.instructions, n.warnings, n.followUp)
  }

  /** Adding a doctor whose email is not yet taken keeps emails unique. */
  lemma FreshEmailKeepsUnique(doctors: seq<DoctorRecord>, rec: DoctorRecord)
    requires EmailsUnique(doctors) && !EmailTaken(doctors, rec.email)
    ensures EmailsUnique(doctors + [rec])
  {
    var ds := doctors + [rec];
    forall i, j | 0 <= i < j < |ds| ensures ds[i].email != ds[j].email {
      if j == |doctors| {
        assert ds[i] == doctors[i];
      }
    }
  }

  class ScribeStore {
    var doctors: seq<DoctorRecord>
    var conversations: seq<ConversationRecord>
    var soapNotes: seq<SoapRecord>
    var prescriptions: seq<PrescriptionRecord>

    /** Registration keeps one doctor per email. */
    ghost predicate Valid()
      reads this
    {
      EmailsUnique(doctors)
    }

    constructor ()
      ensures Valid()
      ensures doctors == [] && conversations == [] && soapNotes == [] && prescriptions == []
    {
      doctors, conversations, soapNotes, prescriptions := [], [], [], [];
    }

    /** `create_doctor`: refuse a taken email, otherwise insert exactly one row. */
    method CreateDoctor(d: DoctorCreate, newId: string) returns (r: Result<DoctorRecord, HttpError>)
      requires Valid()
      modifies this`doctors
      ensures Valid()
      ensures EmailTaken(old(doctors), d.email) ==> r == Err(DuplicateEmail) && doctors == old(doctors)
      ensures !EmailTaken(old(doctors), d.email) ==>
                r == Ok(DoctorRecord(newId, d.name, d.email, d.specialty, d.licenseNumber, d.phone)) &&
                doctors == old(doctors) + [r.value]
    {
      if EmailTaken(doctors, d.email) {
        return Err(DuplicateEmail);
      }
      var rec := DoctorRecord(newId, d.name, d.email, d.specialty, d.licenseNumber, d.phone);
      FreshEmailKeepsUnique(doctors, rec);
      doctors := doctors + [rec];
      r := Ok(rec);
    }

    /**
     * `transcribe_audio`: the upload checks, recognition of the file saved under
     * the chosen suffix, the transcript, and the conversation insert, which happens
     * only with both ids and whose failure is not an error.
     */
    method Transcribe(size: nat, contentType: Option<string>, recognise: string -> Recognition,
                      patientId: Option<string>, doctorId: Option<string>, save: SaveOutcome)
      returns (r: Result<TranscribeResponse, HttpError>)
      modifies this`conversations
      ensures CheckUpload(size, contentType).Err? ==>
                r == Err(CheckUpload(size, contentType).error) && conversations == old(conversations)
      ensures CheckUpload(size, contentType).Ok? ==>
        match recognise(CheckUpload(size, contentType).value)
        case RecognitionFailed(reason) =>
          r == Err(HttpError(500, "Transcription error: " + reason)) && conversations == old(conversations)
        case Segments(texts) =>
          var transcript := AssembleTranscript(texts);
          var stored := transcript != [] && Truthy(patientId) && Truthy(doctorId) && save.Saved?;
          (transcript == [] ==> r == Err(NoSpeech)) &&
          (transcript != [] ==> r == Ok(TranscribeResponse(transcript, "success", if stored then Some(save.id) else None))) &&
          conversations == old(conversations) +
            (if stored then [ConversationRecord(save.id, patientId.value, doctorId.value, transcript)] else [])
    {
      var checked := CheckUpload(size, contentType);
      if checked.Err? {
        return Err(checked.error);
      }
      var suffix := checked.value;
      var recognition := recognise(suffix);
      if recognition.RecognitionFailed? {
        return Err(HttpError(500, "Transcription error: " + recognition.reason));
      }
      var transcript := AssembleTranscript(recognition.texts);
      if transcript == [] {
        return Err(NoSpeech);
      }
      var conversationId: Option<string> := None;
      if Truthy(patientId) && Truthy(doctorId) {
        if save.Saved? {
          conversations := conversations + [ConversationRecord(save.id, patientId.value, doctorId.value, transcript)];
          conversationId := Some(save.id);
        }
      }
      r := Ok(TranscribeResponse(transcript, "success", conversationId));
    }

    /**
     * `summarize_transcript`: validation, the primary call at temperature 0.1 and,
     * when its reply yields no note for the reasons `NeedsRetry` names, exactly one
     * more call with the suffixed prompt at temperature 0.05. Only a note from the
     * primary call is stored and carries `id` and `note_type`.
     * `schemaErrorIsValueError` says whether the schema library's validation error
     * is a `ValueError`, which decides whether a rejected primary note is retried.
     */
    method Summarize(req: SummarizeRequest, userPrompt: string, llm: (string, nat) -> LlmReply,
                     parse: string -> Option<Json>, show: Json -> string,
                     schemaErrorIsValueError: bool, newId: string)
      returns (resp: Result<map<string, Json>, HttpError>, calls: seq<LlmCall>)
      modifies this`soapNotes, this`prescriptions
      ensures CheckSummarize(req).Some? ==>
                resp == Err(CheckSummarize(req).value) && calls == [] &&
                soapNotes == old(soapNotes) && prescriptions == old(prescriptions)
      ensures CheckSummarize(req).None? ==>
        var first := llm(userPrompt, PrimaryTemperature);
        1 <= |calls| <= 2 && calls[0] == LlmCall(userPrompt, PrimaryTemperature) &&
        (!first.Completed? ==> resp == Err(ServiceError(first)) && |calls| == 1) &&
        (|calls| == 2 <==>
           first.Completed? && NeedsRetry(AttemptNote(req, first.content, parse, show, Primary), schemaErrorIsValueError))
      ensures |calls| == 1 && resp.Ok? ==>
        var a := AttemptNote(req, llm(userPrompt, PrimaryTemperature).content, parse, show, Primary);
        a.Produced? && resp.value == WithIdentity(DumpNote(a.note), newId, req.noteType) &&
        (a.note.Soap? ==> soapNotes == old(soapNotes) + [SoapRecordOf(newId, req, a.note.soap)] &&
                          prescriptions == old(prescriptions)) &&
        (a.note.Prescription? ==> prescriptions == old(prescriptions) + [PrescriptionRecordOf(newId, req, a.note.prescription)] &&
                                  soapNotes == old(soapNotes))
      ensures |calls| == 1 && llm(userPrompt, PrimaryTemperature).Completed? ==>
        var a := AttemptNote(req, llm(userPrompt, PrimaryTemperature).content, parse, show, Primary);
        (a.Produced? ==> resp.Ok?) &&
        (a.NotAnObject? ==> resp == Err(InternalError)) &&
        (a.Rejected? ==> resp == Err(FormatError))
      ensures resp.Err? || |calls| == 2 ==> soapNotes == old(soapNotes) && prescriptions == old(prescriptions)
      ensures |calls| == 2 ==>
        var second := llm(userPrompt + RetrySuffix, RetryTemperature);
        calls[1] == LlmCall(userPrompt + RetrySuffix, RetryTemperature) &&
        (!second.Completed? ==> resp == Err(ServiceError(second))) &&
        (second.Completed? ==>
           var a := AttemptNote(req, second.content, parse, show, Retry);
           resp == if a.Produced? then Ok(DumpNote(a.note)) else Err(RetryFailed))
    {
      var invalid := CheckSummarize(req);
      if invalid.Some? {
        return Err(invalid.value), [];
      }
      calls := [LlmCall(userPrompt, PrimaryTemperature)];
      var reply := llm(userPrompt, PrimaryTemperature);
      if !reply.Completed? {
        return Err(ServiceError(reply)), calls;
      }
      var attempt := RunAttempt(req, reply.content, parse, show, Primary);
      if attempt.Produced? {
        var body := StorePrimary(req, attempt.note, newId);
        return Ok(body), calls;
      }
      if attempt.NotAnObject? {
        return Err(InternalError), calls;
      }
      if attempt.Rejected? && !schemaErrorIsValueError {
        return Err(FormatError), calls;
      }
      // the single retry
      var retryCall;
      resp, retryCall := RetryGeneration(req, userPrompt, llm, parse, show);
      calls := calls + [retryCall];
    }

    /** Inserts a note produced by the primary attempt and answers with it, its id and its type. */
    method StorePrimary(req: SummarizeRequest, note: Note, newId: string) returns (body: map<string, Json>)
      modifies this`soapNotes, this`prescriptions
      ensures body == WithIdentity(DumpNote(note), newId, req.noteType)
      ensures note.Soap? ==> soapNotes == old(soapNotes) + [SoapRecordOf(newId, req, note.soap)] &&
                             prescriptions == old(prescriptions)
      ensures note.Prescription? ==> prescriptions == old(prescriptions) + [PrescriptionRecordOf(newId, req, note.prescription)] &&
                                     soapNotes == old(soapNotes)
    {
      if note.Soap? {
        soapNotes := soapNotes + [SoapRecordOf(newId, req, note.soap)];
      } else {
        prescriptions := prescriptions + [PrescriptionRecordOf(newId, req, note.prescription)];
      }
      body := WithIdentity(DumpNote(note), newId, req.noteType);
    }
  }

  /**
   * The retry of `summarize_transcript`: the prompt with the JSON reminder at
   * temperature 0.05; the note it yields is returned as dumped, and every failure
   * after the call is the same error.
   */
  method RetryGeneration(req: SummarizeRequest, userPrompt: string, llm: (string, nat) -> LlmReply,
                         parse: string -> Option<Json>, show: Json -> string)
    returns (resp: Result<map<string, Json>, HttpError>, call: LlmCall)
    ensures call == LlmCall(userPrompt + RetrySuffix, RetryTemperature)
    ensures var reply := llm(call.userPrompt, call.temperature);
      (!reply.Completed? ==> resp == Err(ServiceError(reply))) &&
      (reply.Completed? ==>
         var a := AttemptNote(req, reply.content, parse, show, Retry);
         resp == if a.Produced? then Ok(DumpNote(a.note)) else Err(RetryFailed))
    ensures resp.Ok? ==> "id" !in resp.value && "note_type" !in resp.value
  {
    call := LlmCall(userPrompt + RetrySuffix, RetryTemperature);
    var reply := llm(call.userPrompt, call.temperature);
    if !reply.Completed? {
      return Err(ServiceError(reply)), call;
    }
    var retried := RunAttempt(req, reply.content, parse, show, Retry);
    if retried.Produced? {
      RetryNoteHasNoIdentity(retried.note);
      resp := Ok(DumpNote(retried.note));
    } else {
      resp := Err(RetryFailed);
    }
  }

  /** A note returned by the retry carries neither of the keys the primary path adds. */
  lemma RetryNoteHasNoIdentity(n: Note)
    ensures "id" !in DumpNote(n) && "note_type" !in DumpNote(n)
  {
    assert "id" !in SoapFields && "id" !in PrescriptionFields;
    assert "note_type" !in SoapFields && "note_type" !in PrescriptionFields;
  }
}

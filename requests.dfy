/** The request bodies of the summarize and render endpoints, and the checks applied to them first. */
module Requests {
  import opened Wrappers
  import opened Text
  import opened JsonValue

  /** The body of a summarize request (the prompt-only `soap_context` is not modelled). */
  datatype SummarizeRequest = SummarizeRequest(
    transcript: string,
    noteType: string,
    visitType: string,
    patientName: string,
    patientId: string,
    doctorId: string,
    conversationId: Option<string>)

  const NoteTypes: set<string> := {"soap", "prescription"}
  const VisitTypes: set<string> := {"new", "followup", "repeat"}

  const EmptyTranscript := HttpError(400, "Transcript cannot be empty")
  const BadNoteType := HttpError(400, "Note type must be 'soap' or 'prescription'")
  const BadVisitType := HttpError(400, "Visit type must be 'new', 'followup', or 'repeat'")
  const EmptyNoteData := HttpError(400, "Note data cannot be empty")

  /**
   * The three checks of a summarize request, in order; the first that fails
   * decides the error.
   */
  function CheckSummarize(req: SummarizeRequest): (r: Option<HttpError>)
    ensures r.None? <==> !AllSpace(req.transcript) && req.noteType in NoteTypes && req.visitType in VisitTypes
    ensures AllSpace(req.transcript) ==> r == Some(EmptyTranscript)
    ensures !AllSpace(req.transcript) && req.noteType !in NoteTypes ==> r == Some(BadNoteType)
    ensures !AllSpace(req.transcript) && req.noteType in NoteTypes && req.visitType !in VisitTypes ==>
              r == Some(BadVisitType)
  {
    if Strip(req.transcript) == [] then Some(EmptyTranscript)
    else if req.noteType !in ["soap", "prescription"] then Some(BadNoteType)
    else if req.visitType !in ["new", "followup", "repeat"] then Some(BadVisitType)
    else None
  }

  /** The body of a render request. */
  datatype RenderRequest = RenderRequest(
    noteType: string,
    noteData: map<string, Json>,
    patientName: string,
    patientId: string,
    visitType: string,
    doctorName: string)

  /** A render request with the defaults of the two optional fields. */
  function NewRenderRequest(noteType: string, noteData: map<string, Json>, patientName: string, patientId: string): (r: RenderRequest)
    ensures r.visitType == "followup" && r.doctorName == "Dr. [Your Name]"
  {
    RenderRequest(noteType, noteData, patientName, patientId, "followup", "Dr. [Your Name]")
  }

  /**
   * The checks of a render request (the note type, then a non-empty note); on
   * success the name of the template to render.
   */
  function CheckRender(req: RenderRequest): (r: Result<string, HttpError>)
    ensures r.Ok? <==> req.noteType in NoteTypes && |req.noteData| > 0
    ensures req.noteType !in NoteTypes ==> r == Err(BadNoteType)
    ensures req.noteType in NoteTypes && |req.noteData| == 0 ==> r == Err(EmptyNoteData)
    ensures r.Ok? ==> r.value in {"soap.html", "prescription.html"} && r.value == req.noteType + ".html"
  {
    if req.noteType !in ["soap", "prescription"] then Err(BadNoteType)
    else if req.noteData == map[] then Err(EmptyNoteData)
    else
      assert "soap" + ".html" == "soap.html" && "prescription" + ".html" == "prescription.html";
      Ok(req.noteType + ".html")
  }
}

# Medical scribe backend: request-handling rules

A Dafny model of the decision logic in the FastAPI backend of a medical scribe
(`backend/main.py`). The backend turns an audio recording of a visit into a
transcript with a local speech recogniser. It asks a local language model for a
structured clinical note (a SOAP note or a prescription), validates the note
against the declared record shapes and stores it. Once the language model, the
speech recogniser, the database and the file system are replaced by parameters,
what is left is a set of small sequential rules. These are modelled:

- recovering a JSON value from free-form model output (`extract_json_from_response`);
- the audio-upload gate, the file-suffix choice, transcript assembly and the
  conversation-save rule of `transcribe_audio`;
- the request checks of `summarize_transcript` and of `render_note`;
- how the generated JSON object is normalised in place and then checked against
  the schemas `SOAPNote`, `PrescriptionNote` and `Medication`;
- the single-retry policy of note generation, and what the primary and the
  retry paths store and return;
- the duplicate-email check of `create_doctor`.

Modules, one per file:

- `Wrappers`: `Option`, `Result` and `HttpError`.
- `Text`: Python's whitespace set, `str.strip`, `" ".join` and substring search.
- `JsonValue`: the JSON value type.
- `Extraction`: the three candidate substrings and the extraction itself.
- `ExtractionExamples`: worked instances of the extraction.
- `Upload`: the size and type gate, the suffix mapping and the transcript.
- `Requests`: the summarize and render request checks.
- `Notes`: the schemas, their validation and dump, and the in-place normalisation (class `NoteJson`).
- `Generation`: one generation attempt on one model reply.
- `Backend`: class `ScribeStore`, the endpoints over an in-memory picture of the
  doctors, conversations, SOAP-note and prescription tables.

Outside behaviour enters as parameters:

- `json.loads` is `parse: string -> Option<Json>`, where `None` is a decode error.
- Python's `str()` of a dict or list is `show: Json -> string`.
- The language model is `llm: (prompt, temperature in hundredths) -> LlmReply`.
- The speech recogniser is `recognise: suffix -> Recognition`.
- The row id the database assigns, and whether the conversation insert succeeds,
  are method arguments.
- The regular expressions of the extraction are written out as index arithmetic.
  - `IsFenceMatch` says what a leftmost match of the fenced-block pattern is.
  - `FenceSpan` computes it and is proved to find it exactly when one exists.

The schema check is modelled strictly:

- a declared string field accepts only a JSON string, a list field only a list
  of the declared kind, and a `dict` field only an object;
- a missing field with a default takes the default;
- undeclared keys are ignored and do not appear in the dump.

Whether a schema rejection on the primary path goes to the retry handler depends
on the exception hierarchy of the schema library: the retry handler catches
`ValueError` (line 755) before the `ValidationError` handler (line 794). The model
leaves that open. `Backend.ScribeStore.Summarize` takes a flag
`schemaErrorIsValueError`, and its contract covers both settings.

As written, the retry path validates a prescription without writing the request's
`patient_name` and `patient_id` into it (lines 787-789; the primary path does so at
716-717). The model follows the code. `Generation.RetryPrescriptionIgnoresRequestPatient`
states the consequence: on the retry, the outcome for a prescription does not depend
on the request's patient at all. `Generation.RetryPrescriptionNeedsPatientInReply`
makes it concrete: a retried prescription whose reply lacks `patient_name` is
rejected even though the request names the patient.

## Model

| member | source | states |
|---|---|---|
| Text.Strip | backend/main.py:457 | `str.strip()`: the result is empty exactly when the input is all whitespace, has no whitespace at either end, and is the input less a whitespace prefix and suffix |
| Text.IsSpace | backend/main.py:457 | the characters `str.strip()` and `\s` treat as whitespace: tab through carriage return, space, the separators 0x1c-0x1f, 0x85, 0xa0 and the Unicode space, line and paragraph separators |
| Text.Join | backend/main.py:457 | `sep.join(parts)`: the parts in order with the separator between neighbours |
| Text.Contains | backend/main.py:429-435 | Python's `sub in s`: the substring occurs at some position |
| Text.Take | backend/main.py:137 | Python's `text[:500]`: a prefix of at most that length, the whole text when shorter |
| Extraction.FenceSpan | backend/main.py:123 | a match of the fenced-block pattern is found exactly when the text has a second ``` at least three characters after its first, and what is found satisfies `IsFenceMatch` |
| Extraction.IsFenceMatch | backend/main.py:123 | the leftmost match of the fenced-block pattern: the first ``` opens, an optional `json` tag and whitespace follow, the lazy body ends at the first ``` that whitespace alone separates from it |
| JsonValue.IsContainer | backend/main.py:682-689 | `isinstance(value, (dict, list))` on a JSON value: an object or an array |
| Extraction.FenceMatchUnique | backend/main.py:123 | the conditions of a leftmost match of the fenced-block pattern determine the fences and the captured body uniquely |
| Extraction.FenceSpanOfMatch | backend/main.py:123-126 | a text with a match of the fenced-block pattern yields exactly that match and the body it captures |
| Extraction.FencedBody | backend/main.py:123-126 | the fenced body exists exactly when the text has two fences far enough apart, and is then the captured body of a leftmost match |
| Extraction.FirstIndexOf | backend/main.py:130 | the first `{` at or after a position, or none when there is none |
| Extraction.LastIndexOf | backend/main.py:130 | the last `}` before a position, or none when there is none |
| Extraction.BraceSpan | backend/main.py:130 | the brace pattern matches exactly when some `{` precedes some `}`; it spans from the first `{` to the last `}` |
| Extraction.BracedSpan | backend/main.py:130-133 | the braced span exists exactly when some `{` precedes some `}`, and starts with `{` and ends with `}` |
| Extraction.Candidates | backend/main.py:118-135 | the candidates are tried in order: the text itself, then the fenced body when there is one, then the braced span when there is one |
| Extraction.FirstParse | backend/main.py:118-135 | the first candidate that parses and its value; none exactly when no candidate parses |
| Extraction.ExtractJson | backend/main.py:116-137 | a text that parses is returned whole; otherwise the first of the candidates (text, fenced body, braced span) that parses wins; extraction fails exactly when none parses, with the `ValueError` message |
| Extraction.FencedBodyTriedSecond | backend/main.py:118-127 | when the whole text does not parse but the fenced body does, the body's value is the result |
| Extraction.BracedSpanTriedLast | backend/main.py:118-137 | when neither the text nor a fenced body parses, the braced span decides: its value, or the error |
| Extraction.FencedBodyIsInfix | backend/main.py:123-126 | the fenced body is a contiguous piece of the text |
| Extraction.BracedSpanIsInfix | backend/main.py:130-133 | the braced span is a contiguous piece of the text that starts with `{` and ends with `}` |
| Extraction.ErrorPreviewBounded | backend/main.py:137 | the error message quotes at most the first 500 characters of the text, and those are a prefix of it |
| Extraction.ExtractionError | backend/main.py:137 | the message is the fixed prefix, at most 500 characters of the text and `...` |
| ExtractionExamples.TaggedBlockBody | backend/main.py:123-126 | for ``a```json\n{}\n``` `` the fenced body is `{}`: the tag and the newlines are not captured |
| ExtractionExamples.TaggedBlockExtracted | backend/main.py:116-127 | for that text, when the whole text does not parse and `{}` does, the result is the parse of `{}` |
| ExtractionExamples.UnclosedBlock | backend/main.py:123-133 | an opening fence without a closing one captures nothing, while the braced span still does |
| Upload.CheckUpload | backend/main.py:416-436 | more than 25 × 1024 × 1024 bytes is a 413, checked before the type; a type outside the seven allowed is a 400 naming it; accepted exactly when both checks pass, with a suffix from the five |
| Upload.ShowContentType | backend/main.py:424 | the f-string rendering of the content type, `None` when none was sent |
| Upload.BoundaryPassesSizeCheck | backend/main.py:416-420 | exactly 26214400 bytes passes the size check and 26214401 does not |
| Upload.ExtensionTable | backend/main.py:426-436 | the suffix for each allowed type: `.webm` for both webm types, `.mp4`, `.mp3` for mpeg, `.wav` for both wav types, `.ogg` |
| Upload.AllowedTypeExtension | backend/main.py:422-436 | every allowed type maps to one of `.webm`, `.mp4`, `.mp3`, `.wav`, `.ogg` |
| Upload.ExtensionFor | backend/main.py:428-436 | the suffix is always one of the five, and `.webm` for a type that mentions none of `mp4`, `mpeg`, `wav`, `ogg`; `ExtensionTable` gives the value for each allowed type |
| Upload.AssembleTranscript | backend/main.py:457 | the space-joined segment texts, stripped: a non-empty transcript neither starts nor ends with whitespace |
| Upload.TranscriptEmptyIff | backend/main.py:457-462 | the transcript is empty, and so rejected, exactly when every segment text is whitespace |
| Requests.CheckSummarize | backend/main.py:508-515 | a request passes exactly when the transcript is not all whitespace, the note type is soap or prescription and the visit type new, followup or repeat; the first failing check decides the 400 message |
| Requests.NewRenderRequest | backend/main.py:197-204 | a render request left without visit type or doctor name takes `followup` and `Dr. [Your Name]` |
| Requests.CheckRender | backend/main.py:919-928 | the note type is checked before the note data; accepted exactly when both pass, and the template is the note type followed by `.html` |
| Notes.StringList | backend/main.py:179 | a `list[str]` value is accepted exactly when every item is a string, and gives those strings |
| Notes.MedicationList | backend/main.py:191 | a `list[Medication]` is accepted exactly when every item validates, and gives the items' medications in order |
| Notes.ValidateMedication | backend/main.py:162-169 | a medication is accepted exactly when it is an object whose five required fields are strings and whose `instructions`, if present, is a string; the declared fields keep their values and a missing `instructions` is empty |
| Notes.DumpMedication | backend/main.py:162-169 | the dump of a medication is an object with exactly the six declared fields |
| Notes.ValidateSoap | backend/main.py:691 | `SOAPNote(**note)` succeeds exactly when the seven declared fields have their declared kinds, the required ones present; the declared fields keep their values and a missing `admin_tasks` is empty |
| Notes.ValidatePrescription | backend/main.py:719 | `PrescriptionNote(**note)` succeeds exactly when the ten declared fields have their declared kinds, the required ones present and `medications` a list of valid medications; the note's medications are the list's |
| Notes.DumpSoap | backend/main.py:172-180 | the dump of a SOAP note has exactly the seven declared fields |
| Notes.DumpPrescription | backend/main.py:183-194 | the dump of a prescription has exactly the ten declared fields |
| Notes.StringListRoundTrip | backend/main.py:179 | validating a dumped list of strings gives it back |
| Notes.MedicationRoundTrip | backend/main.py:162-169 | validating a dumped medication gives it back |
| Notes.MedicationListRoundTrip | backend/main.py:162-169 | validating a dumped list of medications gives it back |
| Notes.SoapRoundTrip | backend/main.py:172-180 | validating a dumped SOAP note gives it back |
| Notes.PrescriptionRoundTrip | backend/main.py:183-194 | validating a dumped prescription gives it back |
| Notes.StringListDumped | backend/main.py:179 | a list of strings the schema accepted dumps back to the same JSON items |
| Notes.PrescriptionFieldsKept | backend/main.py:183-194 | an accepted prescription keeps the object's value of every declared field given, except `medications` |
| Notes.PrescriptionDefaults | backend/main.py:187-194 | an accepted prescription takes `""`, `[]` or `{}` for each optional field not given |
| Notes.PrescriptionReads | backend/main.py:183-194 | every field of an accepted prescription but the medications is the schema's reading of that key of the object |
| Notes.DumpKeepsRead | backend/main.py:183-194 | a prescription read off an object dumps back to that object's values on the declared keys given, except `medications` |
| Notes.SoapIgnoresUndeclared | backend/main.py:172-180 | SOAP validation depends only on the declared fields |
| Notes.PrescriptionIgnoresUndeclared | backend/main.py:183-194 | prescription validation depends only on the declared fields |
| Notes.SoapNormalized | backend/main.py:672-689 | normalisation adds `patient_id`, `doctor_id` and `visit_type` from the request only where missing; it stringifies the four text sections only when they hold an object or a list; every other key keeps its value |
| Notes.PrescriptionNormalized | backend/main.py:716-717 | `patient_name` and `patient_id` are always overwritten with the request's values, and nothing else changes |
| Notes.SoapNormalizedAccepted | backend/main.py:672-691 | after normalisation a SOAP object is accepted exactly when the summary and insights are strings, each text section is present as a string, object or list, and any `admin_tasks` is a list of strings |
| Notes.SoapIdentityDropped | backend/main.py:672-692 | the identity defaults never reach the validated SOAP note, so the note does not depend on the request |
| Notes.PrescriptionIdentityFromRequest | backend/main.py:716-720 | an accepted normalised prescription carries the request's patient name and id, whatever the model wrote |
| Notes.PrescriptionNormalizedAccepted | backend/main.py:716-719 | after the request's patient is written in, a prescription object is accepted exactly when every field but the patient's name and id is acceptable |
| Notes.SoapNormalizedInSteps | backend/main.py:674-689 | adding the defaults and then stringifying the sections one key at a time gives the normalised object |
| Notes.NoteJson.SetDefault | backend/main.py:674-679 | a key is set only when it is absent |
| Notes.NoteJson.StringifyContainer | backend/main.py:682-689 | a key holding an object or a list is replaced by its string rendering; anything else is untouched |
| Notes.NoteJson.Put | backend/main.py:716-717 | `note_json[key] = value`: the key is set, every other key unchanged |
| Notes.NoteJson.AddIdentityDefaults | backend/main.py:674-679 | the three identity defaults are added in place, each only when absent |
| Notes.NoteJson.StringifySections | backend/main.py:682-689 | the four text sections are converted in place |
| Notes.NoteJson.NormalizeSoap | backend/main.py:672-689 | the in-place updates leave the object equal to its normalised form |
| Notes.NoteJson.NormalizePrescription | backend/main.py:716-717 | the in-place overwrites leave the object equal to its normalised form |
| Generation.ServiceError | backend/main.py:105-113 | a timed-out model call is a 504 and any other failure a 500 |
| Generation.DumpNote | backend/main.py:692 | a dumped note has exactly its schema's declared fields |
| Generation.WithIdentity | backend/main.py:712 | the primary response is the dumped note plus `id` and `note_type`, every other key unchanged |
| Generation.Validated | backend/main.py:691-719 | validation produces a note exactly when the schema of the requested kind accepts the object, and rejects otherwise; the note is of the requested kind and is the schema's reading of the object |
| Generation.AttemptNote | backend/main.py:664-720 | an attempt fails to extract exactly when no candidate parses, with the extraction message; it fails as a non-object exactly when the value parsed is not an object; an object gets the schema verdict of `Validated` on the object normalised for the path; a note's kind follows the request; on the primary path a prescription carries the request's patient |
| Generation.RunAttempt | backend/main.py:664-720 | normalising the parsed object in place and validating it is the attempt `AttemptNote` describes |
| Generation.SoapAttemptProduced | backend/main.py:672-691 | on either path, a SOAP reply that extracts to an object yields a note exactly when the summary and insights are strings, each text section is a string, object or list, and any `admin_tasks` is a list of strings |
| Generation.PrimaryPrescriptionProduced | backend/main.py:714-719 | on the primary path, a prescription reply that extracts to an object yields a note exactly when its fields other than the patient's are acceptable |
| Generation.RetryPrescriptionProduced | backend/main.py:786-789 | on the retry, a prescription reply that extracts to an object yields a note exactly when the object as written validates |
| Generation.NormalizedFor | backend/main.py:672-717 | the object validated: a SOAP object is normalised on both paths, a prescription gets the request's patient on the primary path only |
| Generation.NeedsRetry | backend/main.py:755-796 | the retry handler is reached by an extraction failure, and by a schema rejection only when that is a `ValueError` |
| Generation.RetryPrescriptionIgnoresRequestPatient | backend/main.py:764-789 | on the retry, a prescription attempt does not depend on the request's patient: it is validated as the model wrote it |
| Generation.RetryPrescriptionNeedsPatientInReply | backend/main.py:764-789 | on the retry, a prescription object without `patient_name` is rejected, whatever patient the request names |
| Generation.SoapAttemptIgnoresIdentity | backend/main.py:672-692 | a SOAP attempt does not depend on the request's identity fields |
| Backend.FreshEmailKeepsUnique | backend/main.py:288-297 | adding a doctor whose email is not taken keeps emails unique |
| Backend.EmailTaken | backend/main.py:284-286 | an email is taken when some stored doctor has it |
| Backend.Truthy | backend/main.py:466 | an optional id is truthy when it is present and not empty |
| Backend.SoapRecordOf | backend/main.py:695-707 | the SOAP row stores the request's patient, doctor, conversation and visit type, and every field of the validated note |
| Backend.PrescriptionRecordOf | backend/main.py:723-734 | the prescription row stores the request's patient, doctor and conversation and the note's fields except the patient's name and the medications |
| Backend.ScribeStore.CreateDoctor | backend/main.py:284-297 | a taken email is a 400 and the table is unchanged; otherwise exactly one record with the given fields is appended; emails stay unique |
| Backend.ScribeStore.Transcribe | backend/main.py:416-490 | the upload gate's error, then a recognition failure as a 500, then an empty transcript as a 400; otherwise success, with a conversation appended only when both ids are non-empty and the insert succeeds, and its id returned only then |
| Backend.ScribeStore.Summarize | backend/main.py:508-802 | a failing request check makes no model call; otherwise the first call uses the prompt at 0.1; exactly one more call, with the reminder suffix at 0.05, happens exactly when the first reply fails extraction (or is rejected, when the schema error is a `ValueError`); only a note from the first call is stored, and is returned with `id` and `note_type`; a non-object is a 500 internal error and a rejection not retried the 500 format error; any failure after the retry call is one 500 |
| Backend.ScribeStore.StorePrimary | backend/main.py:693-753 | a primary note is appended to its own table only, and the response is the dump with `id` and `note_type` |
| Backend.RetryGeneration | backend/main.py:755-792 | the retry call is the suffixed prompt at 0.05; its note is returned as dumped, without `id` or `note_type`; a model-call failure keeps its own error; every other failure is the same 500 |
| Backend.RetryNoteHasNoIdentity | backend/main.py:786-789 | a dumped note has neither `id` nor `note_type` |

## Left out

- The HTTP call to the language model (`call_ollama`, lines 85-113) and the health probe (231-261) are network I/O. A call is an `LlmReply`: a reply, a timeout, or a failure with a reason.
- Loading and running the speech recogniser (70-82, 447-455) is a foreign library. Its outcome is a `Recognition` given the chosen suffix.
- The recogniser's duration (a float, stored with the conversation at 474 and formatted for the response at 483) is not modelled, because it is floating point and comes from the foreign recogniser.
- The get and list endpoints (305-401, 807-911), `create_patient` and the per-medication inserts (740-749) are database queries whose semantics are not visible. The prescription record omits the medications for that reason.
- A failing database call in `create_doctor` or `summarize_transcript` (the 500 with the exception text, or the generic note-generation 500) depends on the database client, so it is left out. The conversation insert in `transcribe_audio` is modelled by its outcome, because the code makes its failure non-fatal.
- Temporary file creation and cleanup (438-441, 492-497) are file-system I/O. Only the suffix the file is given is modelled.
- The Jinja template rendering and the date formatting of `render_note` (928-941) are framework I/O. The model keeps the checks and the template name.
- CORS and application setup (40-60) are framework configuration.
- The prompt text (520-651) is constant text, and so is `soap_context`, which only feeds the prompt. The user prompt is a parameter.
- JSON numbers are kept as their literal text. Nothing modelled computes with them.
- The schema library's lax mode is not modelled separately. For the values `json.loads` produces and the field kinds declared here (strings, lists of strings, dicts and nested models), lax and strict validation accept the same inputs, so strict validation loses nothing.
- `backend/supabase_client.py` only builds the database client from the environment.
- `backend/test_supabase.py` is a smoke script against a live database.
- The frontend's recording and visit workflow: its source is not part of this model.
- Backend.ScribeStore.Summarize: does not say which handler receives a schema rejection on the primary path; the flag `schemaErrorIsValueError` stands for the schema library's exception hierarchy, which is not in the modelled code.
- Backend.ScribeStore.CreateDoctor: keeps emails unique for sequential registrations only. The lookup (284) and the insert (288) are separate database calls and no unique constraint is visible, so concurrent requests with one email can both succeed.

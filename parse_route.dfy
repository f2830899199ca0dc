/**
 * The two submission endpoints. Both validate, draw a fresh task id, and
 * enqueue a payload that carries the id; the file endpoint first uploads the
 * file to object storage under "<id>/<file name>" and enqueues only after the
 * upload succeeded. Validation problems answer 400 with the issues; every other
 * failure answers a generic 500. The handlers as written pass the id to the
 * queue as the job's name only (SubmitSource, SubmitFile); the variants
 * ending in WithJobId pass it as the job id as well.
 */
module ParseRoute {
  import opened Wrappers
  import opened JsValues
  import opened Jobs
  import opened Schemas
  import opened JobQueue

  type Bytes = seq<bv8>

  datatype StoredObject = StoredObject(body: Bytes, contentType: string)

  /** The object storage the file endpoint uploads to, by key. */
  class ObjectStorage {
    var objects: map<string, StoredObject>

    constructor (objects: map<string, StoredObject>)
      ensures this.objects == objects
    {
      this.objects := objects;
    }

    /** Stores `body` under `key`; `ok` is false when the storage rejects the upload, and then nothing changes. */
    method Upload(key: string, body: Bytes, contentType: string, ok: bool) returns (done: bool)
      modifies this`objects
      ensures done == ok
      ensures ok ==> objects == old(objects)[key := StoredObject(body, contentType)]
      ensures !ok ==> objects == old(objects)
    {
      if ok {
        objects := objects[key := StoredObject(body, contentType)];
      }
      done := ok;
    }
  }

  datatype SubmitResponse =
    | Accepted(taskId: string)
    | ValidationFailed(issues: seq<Issue>)
    | NoFile
    | ServerError
  {
    function Code(): int {
      match this
      case Accepted(_) => 202
      case ValidationFailed(_) => 400
      case NoFile => 400
      case ServerError => 500
    }

    /** The `status` of an accepted submission, or the `error` text of a refused one. */
    function Text(): string {
      match this
      case Accepted(_) => "queued"
      case ValidationFailed(_) => "Validation error"
      case NoFile => "No file provided"
      case ServerError => "Internal server error"
    }
  }

  function FormatNames(fs: seq<OutputFormat>): (names: seq<string>)
    ensures |names| == |fs| && forall i :: 0 <= i < |fs| ==> names[i] == OutputFormatName(fs[i])
  {
    seq(|fs|, i requires 0 <= i < |fs| => OutputFormatName(fs[i]))
  }

  /** The payload of a by-reference job: the URL as `source`, the validated options copied. */
  function SourcePayload(jobId: string, v: SourceRequest): (d: JobData)
    ensures d.jobId == jobId && d.jobType == "parse-source"
    ensures d.source == Some(v.sourceUrl) && d.fileName.None?
    ensures d.ocrEngine == Some(OcrEngineName(v.ocrEngine))
    ensures d.outputFormats == Some(FormatNames(v.outputFormats))
    ensures d.targetType == Some(TargetTypeName(v.targetType))
  {
    JobData(jobId, "parse-source", Some(v.sourceUrl), None,
            Some(OcrEngineName(v.ocrEngine)), Some(FormatNames(v.outputFormats)), Some(TargetTypeName(v.targetType)))
  }

  /** The object key of an uploaded file: the task id, a slash, the file's name. */
  function FileKey(jobId: string, fileName: string): (k: string)
    ensures |k| == |jobId| + 1 + |fileName|
    ensures k[..|jobId|] == jobId && k[|jobId|] == '/' && k[|jobId| + 1..] == fileName
  {
    jobId + "/" + fileName
  }

  /** Uploads of two different tasks never share a key, whatever the file names (ids hold no '/'). */
  lemma FileKeysOfDistinctTasksDiffer(a: string, b: string, nameA: string, nameB: string)
    requires a != b && '/' !in a && '/' !in b
    ensures FileKey(a, nameA) != FileKey(b, nameB)
  {
  }

  /** The payload of a file job: `fileName` is the object key, the validated options copied. */
  function FilePayload(jobId: string, key: string, v: FileRequest): (d: JobData)
    ensures d.jobId == jobId && d.jobType == "parse-file"
    ensures d.source.None? && d.fileName == Some(key)
    ensures d.ocrEngine == Some(OcrEngineName(v.ocrEngine))
    ensures d.outputFormats == Some(FormatNames(v.outputFormats))
    ensures d.targetType == Some(TargetTypeName(v.targetType))
  {
    JobData(jobId, "parse-file", None, Some(key),
            Some(OcrEngineName(v.ocrEngine)), Some(FormatNames(v.outputFormats)), Some(TargetTypeName(v.targetType)))
  }

  /**
   * The answer of the by-reference handler up to the enqueue: the payload to
   * enqueue, or the response given instead. `body` is the parsed JSON body
   * (None when it is not JSON), `isUrl` the URL check, `freshId` the drawn id.
   */
  function SourceDecision(body: Option<Json>, isUrl: string -> bool, freshId: string): (r: Result<JobData, SubmitResponse>)
    ensures body.None? ==> r == Err(ServerError)
    ensures body.Some? && ValidateSource(body.value, isUrl).Err? ==>
      r == Err(ValidationFailed(ValidateSource(body.value, isUrl).error))
    ensures r.Ok? <==> body.Some? && ValidateSource(body.value, isUrl).Ok?
    ensures r.Ok? ==> r.value == SourcePayload(freshId, ValidateSource(body.value, isUrl).value)
    ensures r.Ok? ==> r.value.jobId == freshId && r.value.source.Some? && isUrl(r.value.source.value)
  {
    if body.None? then Err(ServerError)
    else
      var validated := ValidateSource(body.value, isUrl);
      if validated.Err? then Err(ValidationFailed(validated.error))
      else Ok(SourcePayload(freshId, validated.value))
  }

  /**
   * The by-reference handler as written: the queue files the job under its own
   * counter id, with the task id as the job's name. `enqueueOk` says whether
   * the queue accepts the job.
   */
  method SubmitSource(q: Queue, body: Option<Json>, isUrl: string -> bool, freshId: string, enqueueOk: bool)
    returns (resp: SubmitResponse)
    modifies q`jobs, q`counter
    ensures var d := SourceDecision(body, isUrl, freshId);
      && (d.Err? ==> resp == d.error)
      && (d.Ok? && !enqueueOk ==> resp == ServerError)
      && (d.Ok? && enqueueOk ==>
            && resp == Accepted(freshId)
            && q.counter == old(q.counter) + 1
            && q.jobs == old(q.jobs)[CounterId(old(q.counter)) := NewJob(CounterId(old(q.counter)), freshId, d.value)])
    ensures !resp.Accepted? ==> q.jobs == old(q.jobs) && q.counter == old(q.counter)
  {
    var decided := SourceDecision(body, isUrl, freshId);
    if decided.Err? {
      return decided.error;
    }
    var added := q.Add(freshId, decided.value, enqueueOk);
    if added.None? {
      return ServerError;
    }
    resp := Accepted(freshId);
  }

  /** The by-reference handler with the task id passed as the job id too: the job is filed under the task id. */
  method SubmitSourceWithJobId(q: Queue, body: Option<Json>, isUrl: string -> bool, freshId: string, enqueueOk: bool)
    returns (resp: SubmitResponse)
    modifies q`jobs, q`counter
    ensures var d := SourceDecision(body, isUrl, freshId);
      && (d.Err? ==> resp == d.error)
      && (d.Ok? && !enqueueOk ==> resp == ServerError)
      && (d.Ok? && enqueueOk ==> resp == Accepted(freshId))
      && (d.Ok? && enqueueOk && freshId !in old(q.jobs) ==>
            q.jobs == old(q.jobs)[freshId := NewJob(freshId, freshId, d.value)])
    ensures resp.Accepted? ==> freshId in q.jobs
    ensures !resp.Accepted? ==> q.jobs == old(q.jobs) && q.counter == old(q.counter)
  {
    var decided := SourceDecision(body, isUrl, freshId);
    if decided.Err? {
      return decided.error;
    }
    var added := q.AddWithId(freshId, decided.value, freshId, enqueueOk);
    if added.None? {
      return ServerError;
    }
    resp := Accepted(freshId);
  }

  /** A form field's value: text, or an uploaded file. */
  datatype FormValue = TextValue(text: string) | FileValue(name: string, contentType: string, body: Bytes)

  type Form = map<string, FormValue>

  /** A form field counts as given when present and not the empty string. */
  predicate Given(form: Form, key: string) {
    key in form && form[key] != TextValue("")
  }

  /** What the schema sees for a form field: its text, or an object when it is a file. */
  function FieldJson(v: FormValue): Json {
    match v
    case TextValue(s) => JStr(s)
    case FileValue(_, _, _) => JObj(map[])
  }

  /** The text handed to the JSON parser for a given field: its text, or "[object File]" for a file. */
  function FieldText(v: FormValue): string {
    match v
    case TextValue(s) => s
    case FileValue(_, _, _) => "[object File]"
  }

  /**
   * The object handed to the file schema: each option with the handler's own
   * default when not given, `output_formats` parsed from JSON text. None when
   * that parse fails.
   */
  function FileFormInput(form: Form, parseJson: string -> Option<Json>): (r: Option<Json>)
    ensures r.None? <==> Given(form, "output_formats") && parseJson(FieldText(form["output_formats"])).None?
    ensures r.Some? ==> r.value.JObj? && r.value.fields.Keys == {"ocr_engine", "output_formats", "target_type"}
    ensures r.Some? ==>
      r.value.fields["ocr_engine"] == (if Given(form, "ocr_engine") then FieldJson(form["ocr_engine"]) else JStr("easyocr"))
    ensures r.Some? ==>
      r.value.fields["target_type"] == (if Given(form, "target_type") then FieldJson(form["target_type"]) else JStr("InBody"))
    ensures r.Some? ==>
      r.value.fields["output_formats"] ==
        (if Given(form, "output_formats") then parseJson(FieldText(form["output_formats"])).value
         else JArr([JStr("md_content")]))
  {
    var ocr := if Given(form, "ocr_engine") then FieldJson(form["ocr_engine"]) else JStr("easyocr");
    var target := if Given(form, "target_type") then FieldJson(form["target_type"]) else JStr("InBody");
    var formats :=
      if Given(form, "output_formats") then parseJson(FieldText(form["output_formats"]))
      else Some(JArr([JStr("md_content")]));
    if formats.None? then None
    else Some(JObj(map["ocr_engine" := ocr, "output_formats" := formats.value, "target_type" := target]))
  }

  /** A form that gives none of the options is validated with the defaults easyocr, ["md_content"], InBody. */
  lemma FormDefaults(form: Form, parseJson: string -> Option<Json>)
    requires !Given(form, "ocr_engine") && !Given(form, "output_formats") && !Given(form, "target_type")
    ensures FileFormInput(form, parseJson).Some?
    ensures ValidateFile(FileFormInput(form, parseJson).value) == Ok(FileRequest(EasyOcr, [MdContent], InBody))
  {
    var input := FileFormInput(form, parseJson).value;
    assert Field(input, "ocr_engine") == Some(JStr("easyocr"));
    assert Field(input, "target_type") == Some(JStr("InBody"));
    assert Field(input, "output_formats") == Some(JArr([JStr("md_content")]));
    assert FormatsJson([MdContent]).items == [JStr("md_content")];
    FormatItemsOfNames([MdContent], 0);
  }

  /**
   * A form that names every option, with formats as JSON text the parser reads
   * as the list of their names, is validated to exactly those options.
   */
  lemma FormOptionsReachSchema(form: Form, parseJson: string -> Option<Json>,
                               engine: OcrEngine, formats: seq<OutputFormat>, target: TargetType)
    requires "ocr_engine" in form && form["ocr_engine"] == TextValue(OcrEngineName(engine))
    requires "target_type" in form && form["target_type"] == TextValue(TargetTypeName(target))
    requires "output_formats" in form && form["output_formats"].TextValue? && form["output_formats"].text != ""
    requires parseJson(form["output_formats"].text) == Some(FormatsJson(formats))
    ensures FileFormInput(form, parseJson).Some?
    ensures ValidateFile(FileFormInput(form, parseJson).value) == Ok(FileRequest(engine, formats, target))
  {
    var input := FileFormInput(form, parseJson).value;
    assert Field(input, "ocr_engine") == Some(JStr(OcrEngineName(engine)));
    assert Field(input, "target_type") == Some(JStr(TargetTypeName(target)));
    assert Field(input, "output_formats") == Some(FormatsJson(formats));
    FormatItemsOfNames(formats, 0);
  }

  /** What the file handler uploads and then enqueues. */
  datatype FileJob = FileJob(key: string, stored: StoredObject, payload: JobData)

  /**
   * The answer of the by-file handler up to the upload, in the handler's order:
   * no parsed form 500, no file 400, unparsable formats 500, refused options 400
   * with the issues, a text field named "file" 500 (it has no contents to
   * read); otherwise the object to upload and the payload to enqueue.
   */
  function FileDecision(form: Option<Form>, parseJson: string -> Option<Json>, freshId: string): (r: Result<FileJob, SubmitResponse>)
    ensures form.None? ==> r == Err(ServerError)
    ensures form.Some? && !Given(form.value, "file") ==> r == Err(NoFile)
    ensures form.Some? && Given(form.value, "file") && FileFormInput(form.value, parseJson).None? ==> r == Err(ServerError)
    ensures form.Some? && Given(form.value, "file") && FileFormInput(form.value, parseJson).Some? ==>
      var checked := ValidateFile(FileFormInput(form.value, parseJson).value);
      var file := form.value["file"];
      && (checked.Err? ==> r == Err(ValidationFailed(checked.error)))
      && (checked.Ok? && file.TextValue? ==> r == Err(ServerError))
      && (checked.Ok? && file.FileValue? ==>
            var key := FileKey(freshId, file.name);
            r == Ok(FileJob(key, StoredObject(file.body, file.contentType), FilePayload(freshId, key, checked.value))))
    ensures r.Ok? ==> r.value.payload.jobId == freshId && r.value.payload.fileName == Some(r.value.key)
  {
    if form.None? then Err(ServerError)
    else if !Given(form.value, "file") then Err(NoFile)
    else
      var input := FileFormInput(form.value, parseJson);
      if input.None? then Err(ServerError)
      else
        var validated := ValidateFile(input.value);
        if validated.Err? then Err(ValidationFailed(validated.error))
        else
          match form.value["file"]
          case TextValue(_) => Err(ServerError)
          case FileValue(name, contentType, body) =>
            var key := FileKey(freshId, name);
            Ok(FileJob(key, StoredObject(body, contentType), FilePayload(freshId, key, validated.value)))
  }

  /**
   * The by-file handler as written. `form` is the parsed form (None when the
   * body is not a form), `parseJson` the JSON parser, `freshId` the generated
   * id; `uploadOk` and `enqueueOk` say whether storage and queue accept their
   * calls. Nothing is uploaded before every check passed; a failed enqueue
   * leaves the uploaded object behind.
   */
  method SubmitFile(q: Queue, storage: ObjectStorage, form: Option<Form>, parseJson: string -> Option<Json>,
                    freshId: string, uploadOk: bool, enqueueOk: bool)
    returns (resp: SubmitResponse)
    modifies q`jobs, q`counter, storage`objects
    ensures var d := FileDecision(form, parseJson, freshId);
      && (d.Err? ==> resp == d.error && storage.objects == old(storage.objects))
      && (d.Ok? && !uploadOk ==> resp == ServerError && storage.objects == old(storage.objects))
      && (d.Ok? && uploadOk ==> storage.objects == old(storage.objects)[d.value.key := d.value.stored])
      && (d.Ok? && uploadOk && !enqueueOk ==> resp == ServerError)
      && (d.Ok? && uploadOk && enqueueOk ==>
            && resp == Accepted(freshId)
            && q.counter == old(q.counter) + 1
            && q.jobs == old(q.jobs)[CounterId(old(q.counter)) := NewJob(CounterId(old(q.counter)), freshId, d.value.payload)])
    ensures !resp.Accepted? ==> q.jobs == old(q.jobs) && q.counter == old(q.counter)
  {
    var decided := FileDecision(form, parseJson, freshId);
    if decided.Err? {
      return decided.error;
    }
    var job := decided.value;
    var uploaded := storage.Upload(job.key, job.stored.body, job.stored.contentType, uploadOk);
    if !uploaded {
      return ServerError;
    }
    var added := q.Add(freshId, job.payload, enqueueOk);
    if added.None? {
      return ServerError;
    }
    resp := Accepted(freshId);
  }

  /** The by-file handler with the task id passed as the job id too: the job is filed under the task id. */
  method SubmitFileWithJobId(q: Queue, storage: ObjectStorage, form: Option<Form>, parseJson: string -> Option<Json>,
                             freshId: string, uploadOk: bool, enqueueOk: bool)
    returns (resp: SubmitResponse)
    modifies q`jobs, q`counter, storage`objects
    ensures var d := FileDecision(form, parseJson, freshId);
      && (d.Err? ==> resp == d.error && storage.objects == old(storage.objects))
      && (d.Ok? && !uploadOk ==> resp == ServerError && storage.objects == old(storage.objects))
      && (d.Ok? && uploadOk ==> storage.objects == old(storage.objects)[d.value.key := d.value.stored])
      && (d.Ok? && uploadOk && !enqueueOk ==> resp == ServerError)
      && (d.Ok? && uploadOk && enqueueOk ==> resp == Accepted(freshId))
      && (d.Ok? && uploadOk && enqueueOk && freshId !in old(q.jobs) ==>
            q.jobs == old(q.jobs)[freshId := NewJob(freshId, freshId, d.value.payload)])
    ensures resp.Accepted? ==> freshId in q.jobs
    ensures !resp.Accepted? ==> q.jobs == old(q.jobs) && q.counter == old(q.counter)
  {
    var decided := FileDecision(form, parseJson, freshId);
    if decided.Err? {
      return decided.error;
    }
    var job := decided.value;
    var uploaded := storage.Upload(job.key, job.stored.body, job.stored.contentType, uploadOk);
    if !uploaded {
      return ServerError;
    }
    var added := q.AddWithId(freshId, job.payload, freshId, enqueueOk);
    if added.None? {
      return ServerError;
    }
    resp := Accepted(freshId);
  }
}

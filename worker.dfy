/**
 * The worker's job processing: fetch the input (by URL, else from object
 * storage), convert it with the converter for the requested OCR engine, export
 * every requested format into a dictionary, and wrap the outcome in a result
 * envelope. Every error inside becomes a "failed" envelope; nothing escapes.
 * Downloads, conversion and exports are parameters (their outcomes, with the
 * error text an exception would carry).
 */
module Worker {
  import opened Wrappers
  import opened JsValues
  import opened Jobs

  type Bytes = seq<bv8>

  /** A converted document and the outcome of each of its exports. */
  datatype Document = Document(
    markdown: Result<string, string>,
    dict: Result<Json, string>,
    doctags: Result<string, string>,
    html: Result<string, string>,
    pages: Option<nat>)

  /** The document converter; only the default one exists. */
  datatype Converter = DefaultConverter

  /** The converter for an OCR engine: the default converter, whatever the engine. */
  function GetConverter(ocrEngine: string): (c: Converter)
    ensures c == DefaultConverter
  {
    DefaultConverter
  }

  const DefaultEngine: string := "easyocr"
  const DefaultFormats: seq<string> := ["md_content"]
  const KnownFormats: set<string> := {"md_content", "json_content", "doctags_content", "html_content"}

  /**
   * The export a known format name asks for: markdown, doctags and html are
   * text, the dictionary export is a JSON tree; a failing export gives its error.
   */
  function Export(doc: Document, fmt: string): (r: Result<Content, string>)
    requires fmt in KnownFormats
    ensures fmt == "md_content" ==> (r.Ok? <==> doc.markdown.Ok?) && (r.Err? ==> r.error == doc.markdown.error) && (r.Ok? ==> r.value == Text(doc.markdown.value))
    ensures fmt == "json_content" ==> (r.Ok? <==> doc.dict.Ok?) && (r.Err? ==> r.error == doc.dict.error) && (r.Ok? ==> r.value == Structured(doc.dict.value))
    ensures fmt == "doctags_content" ==> (r.Ok? <==> doc.doctags.Ok?) && (r.Err? ==> r.error == doc.doctags.error) && (r.Ok? ==> r.value == Text(doc.doctags.value))
    ensures fmt == "html_content" ==> (r.Ok? <==> doc.html.Ok?) && (r.Err? ==> r.error == doc.html.error) && (r.Ok? ==> r.value == Text(doc.html.value))
  {
    if fmt == "md_content" then (if doc.markdown.Ok? then Ok(Text(doc.markdown.value)) else Err(doc.markdown.error))
    else if fmt == "json_content" then (if doc.dict.Ok? then Ok(Structured(doc.dict.value)) else Err(doc.dict.error))
    else if fmt == "doctags_content" then (if doc.doctags.Ok? then Ok(Text(doc.doctags.value)) else Err(doc.doctags.error))
    else (if doc.html.Ok? then Ok(Text(doc.html.value)) else Err(doc.html.error))
  }

  /** A dictionary value counts as true when present and not empty. */
  predicate Truthy(v: Option<string>) {
    v.Some? && v.value != ""
  }

  /** The converter's input: the downloaded file, or nothing when no source was given. */
  datatype Input = Downloaded(bytes: Bytes) | NoInput

  /** Fetches the input: a truthy `source` by URL, else a truthy `fileName` from storage, else nothing. */
  function FetchInput(data: JobData, fetchUrl: string -> Result<Bytes, string>, fetchObject: string -> Result<Bytes, string>)
    : (r: Result<Input, string>)
    ensures Truthy(data.source) ==>
      (if fetchUrl(data.source.value).Ok? then r == Ok(Downloaded(fetchUrl(data.source.value).value))
       else r == Err(fetchUrl(data.source.value).error))
    ensures !Truthy(data.source) && Truthy(data.fileName) ==>
      (if fetchObject(data.fileName.value).Ok? then r == Ok(Downloaded(fetchObject(data.fileName.value).value))
       else r == Err(fetchObject(data.fileName.value).error))
    ensures !Truthy(data.source) && !Truthy(data.fileName) ==> r == Ok(NoInput)
  {
    if Truthy(data.source) then
      var got := fetchUrl(data.source.value);
      if got.Ok? then Ok(Downloaded(got.value)) else Err(got.error)
    else if Truthy(data.fileName) then
      var got := fetchObject(data.fileName.value);
      if got.Ok? then Ok(Downloaded(got.value)) else Err(got.error)
    else Ok(NoInput)
  }

  /** The requested names that are known formats: the keys the dictionary must end up with. */
  function KnownRequested(requested: seq<string>): set<string> {
    set f | f in requested && f in KnownFormats
  }

  /** Position `i` holds the first known requested format whose export fails. */
  predicate FirstFailingAt(doc: Document, requested: seq<string>, i: int) {
    && 0 <= i < |requested|
    && requested[i] in KnownFormats
    && Export(doc, requested[i]).Err?
    && forall j :: 0 <= j < i && requested[j] in KnownFormats ==> Export(doc, requested[j]).Ok?
  }

  /**
   * Builds the formats dictionary in request order. Unknown names are skipped;
   * a name asked for twice is one key; the first failing export aborts with its error.
   */
  method BuildFormats(doc: Document, requested: seq<string>) returns (r: Result<Formats, string>)
    ensures r.Ok? <==> forall i :: 0 <= i < |requested| && requested[i] in KnownFormats ==> Export(doc, requested[i]).Ok?
    ensures r.Ok? ==> r.value.Keys == KnownRequested(requested)
    ensures r.Ok? ==> forall f :: f in r.value ==> f in KnownFormats && Export(doc, f) == Ok(r.value[f])
    ensures r.Err? ==> exists i :: FirstFailingAt(doc, requested, i) && Export(doc, requested[i]) == Err(r.error)
  {
    var formats: Formats := map[];
    var i := 0;
    while i < |requested|
      invariant 0 <= i <= |requested|
      invariant forall j :: 0 <= j < i && requested[j] in KnownFormats ==> Export(doc, requested[j]).Ok?
      invariant formats.Keys == KnownRequested(requested[..i])
      invariant forall f :: f in formats ==> f in KnownFormats && Export(doc, f) == Ok(formats[f])
    {
      var fmt := requested[i];
      if fmt in KnownFormats {
        var exported := Export(doc, fmt);
        if exported.Err? {
          assert FirstFailingAt(doc, requested, i);
          return Err(exported.error);
        }
        formats := formats[fmt := exported.value];
      }
      assert requested[..i + 1] == requested[..i] + [fmt];
      i := i + 1;
    }
    assert requested[..i] == requested;
    r := Ok(formats);
  }

  /** `metadata.pages`: the page count when the document has pages, else 0. */
  function PageCount(doc: Document): (n: nat)
    ensures doc.pages.Some? ==> n == doc.pages.value
    ensures doc.pages.None? ==> n == 0
  {
    if doc.pages.Some? then doc.pages.value else 0
  }

  /** The envelope of a failed job: status failed, no formats, the error text as the only metadata. */
  function FailureEnvelope(jobId: string, error: string): (r: ParseResult)
    ensures r.jobId == jobId && r.status == FailedStatus && r.formats.None? && r.createdAt.None?
    ensures r.metadata == Metadata(None, None, Some(error))
  {
    ParseResult(jobId, FailedStatus, None, Metadata(None, None, Some(error)), None)
  }

  /**
   * Processes job `jobId` with payload `data`. `fetchUrl`, `fetchObject` and
   * `convert` are the download, storage and conversion services.
   */
  method Process(jobId: string, data: JobData,
                 fetchUrl: string -> Result<Bytes, string>,
                 fetchObject: string -> Result<Bytes, string>,
                 convert: (Converter, Input) -> Result<Document, string>)
    returns (out: ParseResult)
    ensures out.jobId == jobId && out.createdAt.None?
    ensures out.status == FailedStatus ==> out.formats.None? && out.metadata.error.Some? && out.metadata.pages.None?
    ensures FetchInput(data, fetchUrl, fetchObject).Err? ==>
      out == FailureEnvelope(jobId, FetchInput(data, fetchUrl, fetchObject).error)
    ensures FetchInput(data, fetchUrl, fetchObject).Ok? && convert(DefaultConverter, FetchInput(data, fetchUrl, fetchObject).value).Err? ==>
      out == FailureEnvelope(jobId, convert(DefaultConverter, FetchInput(data, fetchUrl, fetchObject).value).error)
    ensures out.status == CompletedStatus ==>
      && FetchInput(data, fetchUrl, fetchObject).Ok?
      && var doc := convert(DefaultConverter, FetchInput(data, fetchUrl, fetchObject).value);
      && doc.Ok?
      && out.formats.Some?
      && out.formats.value.Keys == KnownRequested(data.outputFormats.GetOr(DefaultFormats))
      && (forall f :: f in out.formats.value ==> f in KnownFormats && Export(doc.value, f) == Ok(out.formats.value[f]))
      && out.metadata == Metadata(Some(PageCount(doc.value)), Some(0), None)
    ensures FetchInput(data, fetchUrl, fetchObject).Ok? && convert(DefaultConverter, FetchInput(data, fetchUrl, fetchObject).value).Ok? ==>
      var doc := convert(DefaultConverter, FetchInput(data, fetchUrl, fetchObject).value).value;
      var requested := data.outputFormats.GetOr(DefaultFormats);
      && (out.status == CompletedStatus <==>
            forall i :: 0 <= i < |requested| && requested[i] in KnownFormats ==> Export(doc, requested[i]).Ok?)
      && (out.status == FailedStatus ==>
            exists i :: FirstFailingAt(doc, requested, i) && out == FailureEnvelope(jobId, Export(doc, requested[i]).error))
  {
    var input := FetchInput(data, fetchUrl, fetchObject);
    if input.Err? {
      return FailureEnvelope(jobId, input.error);
    }
    var engine := data.ocrEngine.GetOr(DefaultEngine);
    var converter := GetConverter(engine);
    var converted := convert(converter, input.value);
    if converted.Err? {
      return FailureEnvelope(jobId, converted.error);
    }
    var doc := converted.value;
    var formats := BuildFormats(doc, data.outputFormats.GetOr(DefaultFormats));
    if formats.Err? {
      return FailureEnvelope(jobId, formats.error);
    }
    out := ParseResult(jobId, CompletedStatus, Some(formats.value), Metadata(Some(PageCount(doc)), Some(0), None), None);
  }
}

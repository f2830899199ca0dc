/**
 * The request schemas of the parse endpoints, as a total validator over JSON
 * input: enumerated fields with defaults, a required URL on the source schema,
 * an optional positive size on the chunking schema. Like the schema library,
 * it checks every field and reports every problem, drops keys it does not
 * know, and fills a default only when a field is absent.
 */
module Schemas {
  import opened Wrappers
  import opened JsValues

  datatype OcrEngine = EasyOcr | Tesseract | RapidOcr
  datatype OutputFormat = MdContent | JsonContent | DoctagsContent | HtmlContent
  datatype TargetType = InBody | Zip | S3 | Put
  datatype ChunkingMethod = Hybrid | Hierarchical

  function OcrEngineName(e: OcrEngine): string {
    match e
    case EasyOcr => "easyocr"
    case Tesseract => "tesseract"
    case RapidOcr => "rapidocr"
  }

  function OutputFormatName(f: OutputFormat): string {
    match f
    case MdContent => "md_content"
    case JsonContent => "json_content"
    case DoctagsContent => "doctags_content"
    case HtmlContent => "html_content"
  }

  function TargetTypeName(t: TargetType): string {
    match t
    case InBody => "InBody"
    case Zip => "Zip"
    case S3 => "S3"
    case Put => "Put"
  }

  function ChunkingMethodName(m: ChunkingMethod): string {
    match m
    case Hybrid => "hybrid"
    case Hierarchical => "hierarchical"
  }

  /** The engine a string names, if any: exactly the inverse of OcrEngineName. */
  function ParseOcrEngine(s: string): (r: Option<OcrEngine>)
    ensures forall e :: r == Some(e) <==> OcrEngineName(e) == s
  {
    if s == "easyocr" then Some(EasyOcr)
    else if s == "tesseract" then Some(Tesseract)
    else if s == "rapidocr" then Some(RapidOcr)
    else None
  }

  function ParseOutputFormat(s: string): (r: Option<OutputFormat>)
    ensures forall f :: r == Some(f) <==> OutputFormatName(f) == s
  {
    if s == "md_content" then Some(MdContent)
    else if s == "json_content" then Some(JsonContent)
    else if s == "doctags_content" then Some(DoctagsContent)
    else if s == "html_content" then Some(HtmlContent)
    else None
  }

  function ParseTargetType(s: string): (r: Option<TargetType>)
    ensures forall t :: r == Some(t) <==> TargetTypeName(t) == s
  {
    if s == "InBody" then Some(InBody)
    else if s == "Zip" then Some(Zip)
    else if s == "S3" then Some(S3)
    else if s == "Put" then Some(Put)
    else None
  }

  function ParseChunkingMethod(s: string): (r: Option<ChunkingMethod>)
    ensures forall m :: r == Some(m) <==> ChunkingMethodName(m) == s
  {
    if s == "hybrid" then Some(Hybrid)
    else if s == "hierarchical" then Some(Hierarchical)
    else None
  }

  /** Where in the input a problem is: object keys and array indices. */
  datatype PathElem = Key(name: string) | Index(i: nat)

  /** The kinds of problem the schemas can report. */
  datatype IssueCode = InvalidType | InvalidEnumValue | InvalidUrl | TooSmall

  datatype Issue = Issue(path: seq<PathElem>, code: IssueCode)

  type Checked<T> = Result<T, seq<Issue>>

  function IssuesOf<T>(r: Checked<T>): seq<Issue> {
    if r.Err? then r.error else []
  }

  /** A field of an object input; None when the key is absent (undefined). */
  function Field(input: Json, key: string): Option<Json>
    requires input.JObj?
  {
    if key in input.fields then Some(input.fields[key]) else None
  }

  /** One enumerated field: a string naming an option, or the default when absent. */
  function EnumField<T>(v: Option<Json>, key: string, parse: string -> Option<T>, default: Option<T>): (r: Checked<T>)
    ensures v.None? ==> (if default.Some? then r == Ok(default.value) else r == Err([Issue([Key(key)], InvalidType)]))
    ensures v.Some? ==> (r.Ok? <==> v.value.JStr? && parse(v.value.s).Some?)
    ensures v.Some? && r.Ok? ==> r.value == parse(v.value.s).value
    ensures r.Err? ==> |r.error| == 1 && r.error[0].path == [Key(key)]
  {
    match v
    case None => if default.Some? then Ok(default.value) else Err([Issue([Key(key)], InvalidType)])
    case Some(JStr(s)) =>
      (match parse(s)
       case Some(x) => Ok(x)
       case None => Err([Issue([Key(key)], InvalidEnumValue)]))
    case Some(_) => Err([Issue([Key(key)], InvalidType)])
  }

  /** The elements of `output_formats`, the first at index `base`; every bad element is reported. */
  function FormatItems(items: seq<Json>, base: nat): (r: Checked<seq<OutputFormat>>)
    ensures r.Ok? <==> forall i :: 0 <= i < |items| ==> items[i].JStr? && ParseOutputFormat(items[i].s).Some?
    ensures r.Ok? ==> |r.value| == |items| && forall i :: 0 <= i < |items| ==> items[i] == JStr(OutputFormatName(r.value[i]))
    ensures r.Err? ==> |r.error| > 0
    decreases |items|
  {
    if items == [] then Ok([])
    else
      var head: Checked<OutputFormat> :=
        match items[0]
        case JStr(s) => (if ParseOutputFormat(s).Some? then Ok(ParseOutputFormat(s).value)
                         else Err([Issue([Key("output_formats"), Index(base)], InvalidEnumValue)]))
        case _ => Err([Issue([Key("output_formats"), Index(base)], InvalidType)]);
      var tail := FormatItems(items[1..], base + 1);
      if head.Ok? && tail.Ok? then Ok([head.value] + tail.value)
      else Err(IssuesOf(head) + IssuesOf(tail))
  }

  /** The JSON array naming the given formats. */
  function FormatsJson(fs: seq<OutputFormat>): (j: Json)
    ensures j.JArr? && |j.items| == |fs|
    ensures forall i :: 0 <= i < |fs| ==> j.items[i] == JStr(OutputFormatName(fs[i]))
  {
    JArr(seq(|fs|, i requires 0 <= i < |fs| => JStr(OutputFormatName(fs[i]))))
  }

  /** `output_formats`: an array of format names, ["md_content"] when absent; [] is accepted. */
  function FormatsField(v: Option<Json>): (r: Checked<seq<OutputFormat>>)
    ensures v.None? ==> r == Ok([MdContent])
    ensures v.Some? && r.Ok? ==> v.value == FormatsJson(r.value)
    ensures v == Some(JArr([])) ==> r == Ok([])
    ensures r.Err? ==> |r.error| > 0
  {
    match v
    case None => Ok([MdContent])
    case Some(JArr(items)) =>
      var r := FormatItems(items, 0);
      assert r.Ok? ==> items == FormatsJson(r.value).items;
      r
    case Some(_) => Err([Issue([Key("output_formats")], InvalidType)])
  }

  /** The normalised input of the by-reference endpoint. */
  datatype SourceRequest = SourceRequest(
    sourceUrl: string, ocrEngine: OcrEngine, outputFormats: seq<OutputFormat>, targetType: TargetType)

  /** The normalised input of the by-file endpoint. */
  datatype FileRequest = FileRequest(ocrEngine: OcrEngine, outputFormats: seq<OutputFormat>, targetType: TargetType)

  datatype ChunkingRequest = ChunkingRequest(
    sourceUrl: Option<string>, chunkingMethod: ChunkingMethod, maxChunkSize: Option<real>, ocrEngine: OcrEngine)

  function SourceUrlField(v: Option<Json>, isUrl: string -> bool): (r: Checked<string>)
    ensures r.Ok? <==> v.Some? && v.value.JStr? && isUrl(v.value.s)
    ensures r.Ok? ==> v == Some(JStr(r.value))
    ensures r.Err? ==> |r.error| == 1
  {
    match v
    case Some(JStr(s)) => if isUrl(s) then Ok(s) else Err([Issue([Key("source_url")], InvalidUrl)])
    case _ => Err([Issue([Key("source_url")], InvalidType)])
  }

  function OptionalUrlField(v: Option<Json>, isUrl: string -> bool): (r: Checked<Option<string>>)
    ensures r.Ok? <==> v.None? || (v.value.JStr? && isUrl(v.value.s))
    ensures r == Ok(None) <==> v.None?
    ensures r.Ok? && r.value.Some? ==> v == Some(JStr(r.value.value))
    ensures r.Err? ==> |r.error| == 1
  {
    if v.None? then Ok(None)
    else
      var u := SourceUrlField(v, isUrl);
      if u.Ok? then Ok(Some(u.value)) else Err(u.error)
  }

  function PositiveField(v: Option<Json>): (r: Checked<Option<real>>)
    ensures r.Ok? <==> v.None? || (v.value.JNum? && v.value.n > 0.0)
    ensures r == Ok(None) <==> v.None?
    ensures r.Ok? && r.value.Some? ==> v == Some(JNum(r.value.value)) && r.value.value > 0.0
    ensures r.Err? ==> |r.error| == 1
  {
    match v
    case None => Ok(None)
    case Some(JNum(n)) => if n > 0.0 then Ok(Some(n)) else Err([Issue([Key("max_chunk_size")], TooSmall)])
    case Some(_) => Err([Issue([Key("max_chunk_size")], InvalidType)])
  }

  /** Absent or a name the parser accepts. */
  predicate EnumAcceptable<T>(v: Option<Json>, parse: string -> Option<T>) {
    v.None? || (v.value.JStr? && parse(v.value.s).Some?)
  }

  /** `value` is what an accepted enumerated field means: the default when absent, else the named option. */
  predicate EnumMeans<T(==)>(v: Option<Json>, parse: string -> Option<T>, default: T, value: T) {
    (v.None? && value == default) || (v.Some? && v.value.JStr? && parse(v.value.s) == Some(value))
  }

  /** The issue reported for an input that is not an object at all. */
  const NotAnObject: seq<Issue> := [Issue([], InvalidType)]

  /** `ParseFileSchema.parse`. */
  function ValidateFile(input: Json): (r: Checked<FileRequest>)
    ensures !input.JObj? ==> r == Err(NotAnObject)
    ensures r.Ok? <==>
      && input.JObj?
      && EnumAcceptable(Field(input, "ocr_engine"), ParseOcrEngine)
      && FormatsField(Field(input, "output_formats")).Ok?
      && EnumAcceptable(Field(input, "target_type"), ParseTargetType)
    ensures r.Ok? ==>
      && EnumMeans(Field(input, "ocr_engine"), ParseOcrEngine, EasyOcr, r.value.ocrEngine)
      && r.value.outputFormats == FormatsField(Field(input, "output_formats")).value
      && EnumMeans(Field(input, "target_type"), ParseTargetType, InBody, r.value.targetType)
    ensures r.Err? ==> |r.error| > 0
  {
    if !input.JObj? then Err(NotAnObject)
    else
      var ocr := EnumField(Field(input, "ocr_engine"), "ocr_engine", ParseOcrEngine, Some(EasyOcr));
      var formats := FormatsField(Field(input, "output_formats"));
      var target := EnumField(Field(input, "target_type"), "target_type", ParseTargetType, Some(InBody));
      if ocr.Ok? && formats.Ok? && target.Ok? then Ok(FileRequest(ocr.value, formats.value, target.value))
      else Err(IssuesOf(ocr) + IssuesOf(formats) + IssuesOf(target))
  }

  /** `ParseSourceSchema.parse`: the file schema's fields plus a required `source_url` that is a URL. */
  function ValidateSource(input: Json, isUrl: string -> bool): (r: Checked<SourceRequest>)
    ensures !input.JObj? ==> r == Err(NotAnObject)
    ensures r.Ok? <==> SourceUrlField(if input.JObj? then Field(input, "source_url") else None, isUrl).Ok? && ValidateFile(input).Ok?
    ensures r.Ok? ==>
      && Field(input, "source_url") == Some(JStr(r.value.sourceUrl))
      && isUrl(r.value.sourceUrl)
      && ValidateFile(input) == Ok(FileRequest(r.value.ocrEngine, r.value.outputFormats, r.value.targetType))
    ensures r.Err? ==> |r.error| > 0
  {
    if !input.JObj? then Err(NotAnObject)
    else
      var url := SourceUrlField(Field(input, "source_url"), isUrl);
      var ocr := EnumField(Field(input, "ocr_engine"), "ocr_engine", ParseOcrEngine, Some(EasyOcr));
      var formats := FormatsField(Field(input, "output_formats"));
      var target := EnumField(Field(input, "target_type"), "target_type", ParseTargetType, Some(InBody));
      if url.Ok? && ocr.Ok? && formats.Ok? && target.Ok? then
        Ok(SourceRequest(url.value, ocr.value, formats.value, target.value))
      else Err(IssuesOf(url) + IssuesOf(ocr) + IssuesOf(formats) + IssuesOf(target))
  }

  /** `ChunkingSchema.parse`: a required method, optional URL and positive size, engine with default. */
  function ValidateChunking(input: Json, isUrl: string -> bool): (r: Checked<ChunkingRequest>)
    ensures !input.JObj? ==> r == Err(NotAnObject)
    ensures r.Ok? <==>
      && input.JObj?
      && OptionalUrlField(Field(input, "source_url"), isUrl).Ok?
      && Field(input, "chunking_method").Some? && EnumAcceptable(Field(input, "chunking_method"), ParseChunkingMethod)
      && PositiveField(Field(input, "max_chunk_size")).Ok?
      && EnumAcceptable(Field(input, "ocr_engine"), ParseOcrEngine)
    ensures r.Ok? ==>
      && Field(input, "chunking_method") == Some(JStr(ChunkingMethodName(r.value.chunkingMethod)))
      && r.value.sourceUrl == OptionalUrlField(Field(input, "source_url"), isUrl).value
      && r.value.maxChunkSize == PositiveField(Field(input, "max_chunk_size")).value
      && (r.value.maxChunkSize.Some? ==> r.value.maxChunkSize.value > 0.0)
      && EnumMeans(Field(input, "ocr_engine"), ParseOcrEngine, EasyOcr, r.value.ocrEngine)
    ensures r.Err? ==> |r.error| > 0
  {
    if !input.JObj? then Err(NotAnObject)
    else
      var url := OptionalUrlField(Field(input, "source_url"), isUrl);
      var chunking := EnumField(Field(input, "chunking_method"), "chunking_method", ParseChunkingMethod, None);
      var size := PositiveField(Field(input, "max_chunk_size"));
      var ocr := EnumField(Field(input, "ocr_engine"), "ocr_engine", ParseOcrEngine, Some(EasyOcr));
      if url.Ok? && chunking.Ok? && size.Ok? && ocr.Ok? then
        Ok(ChunkingRequest(url.value, chunking.value, size.value, ocr.value))
      else Err(IssuesOf(url) + IssuesOf(chunking) + IssuesOf(size) + IssuesOf(ocr))
  }

  // Rendering a validated value back to JSON, to state that validation is idempotent.

  function FileJson(r: FileRequest): Json {
    JObj(map[
      "ocr_engine" := JStr(OcrEngineName(r.ocrEngine)),
      "output_formats" := FormatsJson(r.outputFormats),
      "target_type" := JStr(TargetTypeName(r.targetType))])
  }

  function SourceJson(r: SourceRequest): Json {
    JObj(map[
      "source_url" := JStr(r.sourceUrl),
      "ocr_engine" := JStr(OcrEngineName(r.ocrEngine)),
      "output_formats" := FormatsJson(r.outputFormats),
      "target_type" := JStr(TargetTypeName(r.targetType))])
  }

  function ChunkingJson(r: ChunkingRequest): Json {
    var base := map[
      "chunking_method" := JStr(ChunkingMethodName(r.chunkingMethod)),
      "ocr_engine" := JStr(OcrEngineName(r.ocrEngine))];
    var withUrl := if r.sourceUrl.Some? then base["source_url" := JStr(r.sourceUrl.value)] else base;
    JObj(if r.maxChunkSize.Some? then withUrl["max_chunk_size" := JNum(r.maxChunkSize.value)] else withUrl)
  }

  /** Every array of format names is accepted back as the same formats. */
  lemma {:induction false} FormatItemsOfNames(fs: seq<OutputFormat>, base: nat)
    ensures FormatItems(FormatsJson(fs).items, base) == Ok(fs)
  {
    var items := FormatsJson(fs).items;
    if fs != [] {
      assert items[1..] == FormatsJson(fs[1..]).items;
      FormatItemsOfNames(fs[1..], base + 1);
      assert ParseOutputFormat(OutputFormatName(fs[0])) == Some(fs[0]);
      assert [fs[0]] + fs[1..] == fs;
    }
  }

  /** Re-validating an accepted file request gives it back unchanged. */
  lemma ValidateFileIdempotent(r: FileRequest)
    ensures ValidateFile(FileJson(r)) == Ok(r)
  {
    FormatItemsOfNames(r.outputFormats, 0);
    assert ParseOcrEngine(OcrEngineName(r.ocrEngine)) == Some(r.ocrEngine);
    assert ParseTargetType(TargetTypeName(r.targetType)) == Some(r.targetType);
  }

  /** Re-validating an accepted source request gives it back unchanged. */
  lemma ValidateSourceIdempotent(r: SourceRequest, isUrl: string -> bool)
    requires isUrl(r.sourceUrl)
    ensures ValidateSource(SourceJson(r), isUrl) == Ok(r)
  {
    FormatItemsOfNames(r.outputFormats, 0);
    assert ParseOcrEngine(OcrEngineName(r.ocrEngine)) == Some(r.ocrEngine);
    assert ParseTargetType(TargetTypeName(r.targetType)) == Some(r.targetType);
  }

  /** Re-validating an accepted chunking request gives it back unchanged. */
  lemma ValidateChunkingIdempotent(r: ChunkingRequest, isUrl: string -> bool)
    requires r.sourceUrl.Some? ==> isUrl(r.sourceUrl.value)
    requires r.maxChunkSize.Some? ==> r.maxChunkSize.value > 0.0
    ensures ValidateChunking(ChunkingJson(r), isUrl) == Ok(r)
  {
    assert ParseOcrEngine(OcrEngineName(r.ocrEngine)) == Some(r.ocrEngine);
    assert ParseChunkingMethod(ChunkingMethodName(r.chunkingMethod)) == Some(r.chunkingMethod);
  }

  /** An empty object takes every default: easyocr, ["md_content"], InBody. */
  lemma FileDefaults()
    ensures ValidateFile(JObj(map[])) == Ok(FileRequest(EasyOcr, [MdContent], InBody))
  {
  }

  /** The source schema insists on `source_url`; the other fields still default. */
  lemma SourceUrlRequired(isUrl: string -> bool)
    ensures ValidateSource(JObj(map[]), isUrl) == Err([Issue([Key("source_url")], InvalidType)])
  {
    var input := JObj(map[]);
    assert SourceUrlField(Field(input, "source_url"), isUrl) == Err([Issue([Key("source_url")], InvalidType)]);
    assert EnumField(Field(input, "ocr_engine"), "ocr_engine", ParseOcrEngine, Some(EasyOcr)) == Ok(EasyOcr);
    assert FormatsField(Field(input, "output_formats")) == Ok([MdContent]);
    assert EnumField(Field(input, "target_type"), "target_type", ParseTargetType, Some(InBody)) == Ok(InBody);
    var issue := [Issue([Key("source_url")], InvalidType)];
    assert issue + [] + [] + [] == issue;
  }
}

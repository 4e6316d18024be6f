/**
 * The request and response shapes both handler versions share, and the few
 * constants and decisions that appear identically in both source files.
 */
module Http {
  import opened Common
  import opened Kv

  /** The multipart form of an upload request, after `req.formData()`. */
  datatype FormData = FormData(
    file: Option<seq<byte>>,      // the `file` field when it is a Blob
    contentType: Option<string>,  // the `content-type` field
    password: Option<string>)     // the `password` field

  /**
   * An incoming request: method, URL path, the `id` and `password` query
   * parameters, the `content-type` header, the raw body, and the body parsed
   * as form data (`None` when `formData()` rejects it).
   */
  datatype Request = Request(
    verb: string,
    path: string,
    id: Option<string>,
    password: Option<string>,
    contentType: Option<string>,
    body: seq<byte>,
    form: Option<FormData>)

  /** The payload of a response. */
  datatype Body =
    | Empty                    // `null` body
    | JsonId(id: string)       // `Response.json({ id })`
    | JsonError(error: string) // `Response.json({ error })`
    | Bytes(content: seq<byte>)// the stored `ArrayBuffer`
    | PasswordPrompt           // the HTML page that asks for a password and reloads

  datatype Response = Response(status: int, headers: map<string, string>, body: Body)

  /** What one invocation of the handler ends in: a response, or an uncaught exception. */
  datatype Outcome = Replied(response: Response) | Threw

  /** One invocation's outcome and the store's entries afterwards. */
  datatype Step = Step(outcome: Outcome, entries: Entries)

  /** One invocation: the request, the id `crypto.randomUUID()` would mint, and the clock. */
  datatype Call = Call(req: Request, freshId: string, now: int)

  const UploadPath := "/upload"
  const FaviconName := "favicon.ico"
  const OneMinuteInSeconds: nat := 60
  const OctetStream := "application/octet-stream"
  const IdRequired := "ID is required"
  const FileNotFound := "File not found"
  const NotFound := "Not found"

  const AllowOrigin := "Access-Control-Allow-Origin"
  const AllowMethods := "Access-Control-Allow-Methods"
  const AllowHeaders := "Access-Control-Allow-Headers"

  /** The three CORS permission headers every JSON response but one carries. */
  const CorsHeaders: map<string, string> :=
    map[AllowOrigin := "*", AllowMethods := "GET, POST, OPTIONS", AllowHeaders := "Content-Type"]

  /** Headers of a response whose body is typed `contentType`. */
  function Typed(contentType: string): map<string, string> {
    map["content-type" := contentType]
  }

  /**
   * `file.metadata?.contentType || 'application/octet-stream'`: the stored type
   * when there is a non-empty one, the generic binary type otherwise.
   */
  function ServedContentType(metadata: Option<Metadata>): (r: string)
    ensures r != ""
    ensures metadata.Some? && Truthy(metadata.value.contentType) ==> r == metadata.value.contentType.value
    ensures !(metadata.Some? && Truthy(metadata.value.contentType)) ==> r == OctetStream
  {
    match metadata
    case Some(Metadata(Some(stored), _)) => if stored != "" then stored else OctetStream
    case _ => OctetStream
  }

  /** True of the only requests that may write to the store: `POST /upload`. */
  predicate IsUpload(req: Request) {
    req.verb == "POST" && req.path == UploadPath
  }
}

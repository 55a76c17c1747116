/**
 * What the route handlers share: the error replies and their status codes,
 * the blob token read from the environment, multipart form fields, and the
 * blob store's `put` seen as an oracle.
 */
module Http {
  import opened Js

  type Bytes = seq<bv8>

  const OCTET_STREAM := "application/octet-stream"
  const MISSING_TOKEN_MESSAGE := "Missing BLOB_READ_WRITE_TOKEN. Create a Blob Store token and add it to project env."

  /** The non-success replies of the handlers. `Unhandled` is an exception that escapes the handler, which the framework answers with 500. */
  datatype HttpError =
    | Unauthorized
    | BadRequest(message: string)
    | NotFound(message: string)
    | ServerError(message: string)
    | Unhandled

  function Status(e: HttpError): int {
    match e
    case Unauthorized => 401
    case BadRequest(_) => 400
    case NotFound(_) => 404
    case ServerError(_) => 500
    case Unhandled => 500
  }

  /** `e?.message || fallback` in a catch block. */
  function CaughtMessage(message: string, fallback: string): string {
    if message != "" then message else fallback
  }

  /** The two environment variables the handlers read the blob token from; an unset variable is "". */
  datatype Env = Env(blobReadWriteToken: string, vercelBlobReadWriteToken: string)

  /** `process.env.BLOB_READ_WRITE_TOKEN || process.env.VERCEL_BLOB_READ_WRITE_TOKEN`; "" when neither is set. */
  function BlobToken(env: Env): string {
    if env.blobReadWriteToken != "" then env.blobReadWriteToken else env.vercelBlobReadWriteToken
  }

  /** A file part of a multipart body: its name, its declared media type and its bytes (`file.size` is their number). */
  datatype File = File(name: string, mediaType: string, bytes: Bytes)

  /** What `formData.get(key)` returns: null, a text field, or a file. */
  datatype FormValue = Absent | Text(text: string) | Part(file: File)

  /** A parsed multipart body. */
  type Form = map<string, FormValue>

  function FormGet(form: Form, key: string): FormValue {
    if key in form then form[key] else Absent
  }

  predicate FormTruthy(v: FormValue) {
    match v
    case Absent => false
    case Text(t) => t != ""
    case Part(_) => true
  }

  /** `Number(formData.get(key))`: null reads as 0, a file as NaN. */
  function FormToNumber(v: FormValue): JsNumber {
    match v
    case Absent => Int(0)
    case Text(t) => StringToNumber(t)
    case Part(_) => NaN
  }

  /** `String(v)`, also the property key `v` names. */
  function FormToStr(v: FormValue): string {
    match v
    case Absent => "null"
    case Text(t) => t
    case Part(_) => "[object File]"
  }

  /** One call of the blob store's `put(pathname, body, { contentType })`. */
  datatype PutRequest = PutRequest(pathname: JsValue, body: Bytes, contentType: JsValue)

  /** What that call does: store and return the public URL, or throw with a message. */
  datatype PutOutcome = Stored(url: string) | PutFailed(message: string)
}

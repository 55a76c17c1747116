/**
 * The three other routes that create a material:
 *
 * - register records a file the browser already uploaded to the blob store;
 * - upload receives the file itself, stores it with `put`, then records it;
 * - POST materials records a material from raw fields.
 *
 * Each is a function from the request (and the tables, and for upload the
 * blob store's answer to `put`) to the reply and the tables afterwards.
 */
module MaterialRoutes {
  import opened Common
  import opened Js
  import opened Http
  import opened Tables

  const MISSING_FIELDS := "Missing required fields"
  const MISSING_FIELDS_SHORT := "Missing fields"
  const REGISTER_FAILED := "Register failed"
  const UPLOAD_FAILED := "Upload failed"

  /** A route's reply, the `put` it issued (if any) and the tables afterwards. */
  datatype Reply = Reply(result: Result<Material, HttpError>, putCall: Option<PutRequest>, db: DbState)

  /** `String(v || '').trim()` */
  function TrimmedText(v: JsValue): string {
    Trim(ToStr(Or(v, Str(""))))
  }

  /** The `file_size` column for `v ? Number(v) : null`: NULL unless `v` is truthy and a non-zero number. */
  function SizeColumn(v: JsValue): Option<int> {
    if Truthy(v) && ToNumber(v).Int? && ToNumber(v).i != 0 then Some(ToNumber(v).i) else None
  }

  /** `fileSize || null` in createMaterial applied to `v ? Number(v) : null` gives that column. */
  lemma SizeColumnStored(v: JsValue)
    ensures StoredSize(if Truthy(v) then Some(ToNumber(v)) else None) == SizeColumn(v)
  {
  }

  /**
   * The createMaterial call that ends each route, after the `put` it issued
   * (if any).  `fallback` is the message of the route's catch block; with
   * None the route has no catch block and a database error escapes it.
   */
  function Commit(db: DbState, input: MaterialInput, putCall: Option<PutRequest>, fallback: Option<string>): Reply {
    var created := CreateMaterial(db, input);
    match created.result
    case Ok(m) => Reply(Ok(m), putCall, created.db)
    case Err(e) =>
      var error := if fallback.Some? then ServerError(CaughtMessage(e.Message(), fallback.value)) else Unhandled;
      Reply(Err(error), putCall, created.db)
  }

  /**
   * A failed createMaterial adds no material and, in a catch block, replies
   * 500 with the database's message; a successful one appends exactly the
   * row built from its argument.
   */
  lemma CommitSpec(db: DbState, input: MaterialInput, putCall: Option<PutRequest>, fallback: Option<string>)
    ensures Commit(db, input, putCall, fallback).putCall == putCall
    ensures Commit(db, input, putCall, fallback).result.Err? ==>
      && Commit(db, input, putCall, fallback).db.materials == db.materials
      && (fallback.None? <==> Commit(db, input, putCall, fallback).result.error == Unhandled)
      && (fallback.Some? ==> Commit(db, input, putCall, fallback).result.error.ServerError?)
    ensures Commit(db, input, putCall, fallback).result.Ok? ==>
      var m := Commit(db, input, putCall, fallback).result.value;
      && Commit(db, input, putCall, fallback).db.materials == WithSchema(db).materials + [m]
      && input.topicId == Int(m.topicId)
      && m.title == ToStr(input.title) && m.fileName == ToStr(input.fileName)
      && m.fileType == StoredType(input.fileType)
      && m.fileSize == StoredSize(input.fileSize)
      && m.blobUrl == input.blobUrl
      && m.isPublic
  {
    if CreateMaterial(db, input).result.Ok? {
      CreateMaterialRow(db, input);
    } else {
      CreateMaterialFailed(db, input);
    }
  }

  // ------------------------------------------------------------ register

  /** The createMaterial argument register builds (app/api/materials/register/route.js:13-18,25-32). */
  function RegisterInput(body: JsValue): MaterialInput {
    var fileName := TrimmedText(Prop(body, "fileName"));
    var title := TrimmedText(Prop(body, "title"));
    MaterialInput(
      ToNumber(Prop(body, "topicId")),
      Str(if title != "" then title else fileName),
      Str(fileName),
      Str(ToStr(Or(Prop(body, "fileType"), Str(OCTET_STREAM)))),
      if Truthy(Prop(body, "fileSize")) then Some(ToNumber(Prop(body, "fileSize"))) else None,
      TrimmedText(Prop(body, "blobUrl")))
  }

  /** POST register (app/api/materials/register/route.js:7-37); `body` is Undefined when it is not JSON. */
  function Register(admin: bool, body: JsValue, db: DbState): Reply {
    if !admin then Reply(Err(Unauthorized), None, db)
    else
      var input := RegisterInput(body);
      if !NumberTruthy(input.topicId) || input.blobUrl == "" || input.fileName == Str("") then
        Reply(Err(BadRequest(MISSING_FIELDS)), None, db)
      else Commit(db, input, None, Some(REGISTER_FAILED))
  }

  /**
   * register answers 401 to a non-admin and 400 exactly when the topic id is
   * not a non-zero number or the trimmed file name or URL is empty; a refused
   * request leaves the materials as they were.
   */
  lemma RegisterRefuses(admin: bool, body: JsValue, db: DbState)
    ensures !admin ==> Register(admin, body, db) == Reply(Err(Unauthorized), None, db)
    ensures admin ==>
      (Register(admin, body, db).result == Err(BadRequest(MISSING_FIELDS)) <==>
         !NumberTruthy(ToNumber(Prop(body, "topicId")))
         || TrimmedText(Prop(body, "blobUrl")) == "" || TrimmedText(Prop(body, "fileName")) == "")
    ensures Register(admin, body, db).result.Err? ==> Register(admin, body, db).db.materials == db.materials
  {
    if admin {
      CommitSpec(db, RegisterInput(body), None, Some(REGISTER_FAILED));
    }
  }

  /**
   * A material register records has the trimmed file name and URL, the
   * trimmed title or else the file name, the media type defaulted to
   * application/octet-stream, and the size as a number, NULL when it was
   * missing, falsy, not a number or 0; it is the one row added to the
   * materials.
   */
  lemma RegisterRecords(admin: bool, body: JsValue, db: DbState)
    requires Register(admin, body, db).result.Ok?
    ensures var m := Register(admin, body, db).result.value;
      var fileName := TrimmedText(Prop(body, "fileName"));
      && Register(admin, body, db).db.materials == WithSchema(db).materials + [m]
      && ToNumber(Prop(body, "topicId")) == Int(m.topicId)
      && m.fileName == fileName && fileName != ""
      && m.blobUrl == TrimmedText(Prop(body, "blobUrl")) && m.blobUrl != ""
      && m.title == (if TrimmedText(Prop(body, "title")) != "" then TrimmedText(Prop(body, "title")) else fileName)
      && m.fileType == Some(ToStr(Or(Prop(body, "fileType"), Str(OCTET_STREAM))))
      && m.fileSize == SizeColumn(Prop(body, "fileSize"))
      && m.isPublic
  {
    var input := RegisterInput(body);
    assert Register(admin, body, db) == Commit(db, input, None, Some(REGISTER_FAILED));
    CommitSpec(db, input, None, Some(REGISTER_FAILED));
    var fileType := ToStr(Or(Prop(body, "fileType"), Str(OCTET_STREAM)));
    DefaultedTextNonEmpty(Prop(body, "fileType"), OCTET_STREAM);
    assert input.fileType == Str(fileType) && Truthy(Str(fileType));
    assert StoredType(Str(fileType)) == Some(fileType);
    assert input.fileName == Str(TrimmedText(Prop(body, "fileName"))) != Str("");
    SizeColumnStored(Prop(body, "fileSize"));
  }

  // ------------------------------------------------------------ upload

  /** `String(form.get('title') || '').trim()` */
  function FormTitle(v: FormValue): string {
    Trim(if FormTruthy(v) then FormToStr(v) else "")
  }

  /** `file.size || null` */
  function FileSize(f: File): Option<JsNumber> {
    if |f.bytes| != 0 then Some(Int(|f.bytes|)) else None
  }

  /** `file.type || 'application/octet-stream'` */
  function MediaType(f: File): string {
    if f.mediaType != "" then f.mediaType else OCTET_STREAM
  }

  /** The `put` call of upload: the file under its own name. */
  function UploadPut(f: File): PutRequest {
    PutRequest(Str(f.name), f.bytes, Str(MediaType(f)))
  }

  /** The createMaterial argument upload builds (app/api/materials/upload/route.js:13-25,33-40). */
  function UploadInput(form: Form, f: File, url: string): MaterialInput {
    var title := FormTitle(FormGet(form, "title"));
    MaterialInput(FormToNumber(FormGet(form, "topicId")), Str(if title != "" then title else f.name),
                  Str(f.name), Str(MediaType(f)), FileSize(f), url)
  }

  /** POST upload (app/api/materials/upload/route.js:8-45); `form` is None when the body is not a form. */
  function Upload(admin: bool, form: Option<Form>, env: Env, put: PutRequest -> PutOutcome, db: DbState): Reply {
    if !admin then Reply(Err(Unauthorized), None, db)
    else if form.None? then Reply(Err(Unhandled), None, db)
    else
      var file := FormGet(form.value, "file");
      if !NumberTruthy(FormToNumber(FormGet(form.value, "topicId"))) || !file.Part? then
        Reply(Err(BadRequest(MISSING_FIELDS_SHORT)), None, db)
      else if BlobToken(env) == "" then Reply(Err(ServerError(MISSING_TOKEN_MESSAGE)), None, db)
      else
        var call := UploadPut(file.file);
        match put(call)
        case PutFailed(message) => Reply(Err(ServerError(CaughtMessage(message, UPLOAD_FAILED))), Some(call), db)
        case Stored(url) => Commit(db, UploadInput(form.value, file.file, url), Some(call), Some(UPLOAD_FAILED))
  }

  /**
   * upload answers 401 to a non-admin and 400 exactly when the topic id is
   * not a non-zero number or the `file` field is not a file; without a token
   * it answers 500 and neither calls `put` nor touches the tables; once it
   * called `put` every failure is a 500; a failed request leaves the
   * materials as they were.
   */
  lemma UploadRefuses(admin: bool, form: Option<Form>, env: Env, put: PutRequest -> PutOutcome, db: DbState)
    ensures !admin ==> Upload(admin, form, env, put, db) == Reply(Err(Unauthorized), None, db)
    ensures admin && form.Some? ==>
      (Upload(admin, form, env, put, db).result == Err(BadRequest(MISSING_FIELDS_SHORT)) <==>
         !NumberTruthy(FormToNumber(FormGet(form.value, "topicId"))) || !FormGet(form.value, "file").Part?)
    ensures admin && form.None? ==> Upload(admin, form, env, put, db) == Reply(Err(Unhandled), None, db)
    ensures (admin && form.Some? && NumberTruthy(FormToNumber(FormGet(form.value, "topicId")))
             && FormGet(form.value, "file").Part? && BlobToken(env) == "") ==>
      Upload(admin, form, env, put, db) == Reply(Err(ServerError(MISSING_TOKEN_MESSAGE)), None, db)
    ensures Upload(admin, form, env, put, db).putCall.Some? ==>
      BlobToken(env) != "" && (Upload(admin, form, env, put, db).result.Err? ==> Upload(admin, form, env, put, db).result.error.ServerError?)
    ensures BlobToken(env) == "" ==> Upload(admin, form, env, put, db).putCall.None?
    ensures Upload(admin, form, env, put, db).putCall.None? ==> Upload(admin, form, env, put, db).db == db
    ensures Upload(admin, form, env, put, db).result.Err? ==> Upload(admin, form, env, put, db).db.materials == db.materials
  {
    if admin && form.Some? {
      var file := FormGet(form.value, "file");
      if NumberTruthy(FormToNumber(FormGet(form.value, "topicId"))) && file.Part? && BlobToken(env) != "" {
        var call := UploadPut(file.file);
        if put(call).Stored? {
          CommitSpec(db, UploadInput(form.value, file.file, put(call).url), Some(call), Some(UPLOAD_FAILED));
        }
      }
    }
  }

  /**
   * upload records a material only after `put` stored the file under its
   * name with its media type (or else application/octet-stream); the row
   * carries `put`'s URL, the trimmed title or else the file's name, that
   * media type, the form's topic id as a number, and the file's size with an
   * empty file stored as NULL; the row is public.
   */
  lemma UploadRecords(admin: bool, form: Option<Form>, env: Env, put: PutRequest -> PutOutcome, db: DbState)
    requires Upload(admin, form, env, put, db).result.Ok?
    ensures form.Some? && FormGet(form.value, "file").Part?
    ensures var r := Upload(admin, form, env, put, db);
      var f := FormGet(form.value, "file").file;
      var contentType := if f.mediaType != "" then f.mediaType else OCTET_STREAM;
      var m := r.result.value;
      && r.putCall == Some(PutRequest(Str(f.name), f.bytes, Str(contentType)))
      && put(r.putCall.value) == Stored(m.blobUrl)
      && r.db.materials == WithSchema(db).materials + [m]
      && FormToNumber(FormGet(form.value, "topicId")) == Int(m.topicId)
      && m.fileName == f.name
      && m.title == (if FormTitle(FormGet(form.value, "title")) != "" then FormTitle(FormGet(form.value, "title")) else f.name)
      && m.fileType == Some(contentType)
      && m.fileSize == (if |f.bytes| == 0 then None else Some(|f.bytes|))
      && m.isPublic
  {
    UploadCommits(admin, form, env, put, db);
    var f := FormGet(form.value, "file").file;
    var call := UploadPut(f);
    var input := UploadInput(form.value, f, put(call).url);
    CommitSpec(db, input, Some(call), Some(UPLOAD_FAILED));
    assert Truthy(Str(MediaType(f))) && StoredType(Str(MediaType(f))) == Some(MediaType(f));
    assert StoredSize(FileSize(f)) == (if |f.bytes| == 0 then None else Some(|f.bytes|));
  }

  /** A successful upload is the createMaterial call after a `put` that stored the file. */
  lemma UploadCommits(admin: bool, form: Option<Form>, env: Env, put: PutRequest -> PutOutcome, db: DbState)
    requires Upload(admin, form, env, put, db).result.Ok?
    ensures admin && form.Some? && FormGet(form.value, "file").Part?
    ensures var f := FormGet(form.value, "file").file;
      && put(UploadPut(f)).Stored?
      && Upload(admin, form, env, put, db)
         == Commit(db, UploadInput(form.value, f, put(UploadPut(f)).url), Some(UploadPut(f)), Some(UPLOAD_FAILED))
  {
  }

  // ------------------------------------------------------------ POST materials

  /** The createMaterial argument POST materials builds (app/api/materials/route.js:13-20). */
  function CreateInput(body: JsValue): MaterialInput {
    MaterialInput(
      ToNumber(Prop(body, "topicId")),
      Str(ToStr(Prop(body, "title"))),
      Str(ToStr(Prop(body, "fileName"))),
      if Truthy(Prop(body, "fileType")) then Str(ToStr(Prop(body, "fileType"))) else Null,
      if Truthy(Prop(body, "fileSize")) then Some(ToNumber(Prop(body, "fileSize"))) else None,
      ToStr(Prop(body, "blobUrl")))
  }

  /**
   * POST materials (app/api/materials/route.js:5-22); `body` is Undefined
   * when it is not JSON, which the route does not catch, and an error from
   * createMaterial escapes it too.
   */
  function Create(admin: bool, body: JsValue, db: DbState): Reply {
    if !admin then Reply(Err(Unauthorized), None, db)
    else if body.Undefined? then Reply(Err(Unhandled), None, db)
    else if !Truthy(Prop(body, "topicId")) || !Truthy(Prop(body, "title"))
         || !Truthy(Prop(body, "fileName")) || !Truthy(Prop(body, "blobUrl"))
    then Reply(Err(BadRequest(MISSING_FIELDS_SHORT)), None, db)
    else Commit(db, CreateInput(body), None, None)
  }

  /**
   * POST materials refuses a falsy topic id, title, file name or URL without
   * touching the tables; it stores the string forms of the required fields
   * and of a truthy media type, the size as a number (NULL when it was
   * falsy, not a number or 0), and lets a database error escape.
   */
  lemma CreateSpec(admin: bool, body: JsValue, db: DbState)
    ensures !admin ==> Create(admin, body, db) == Reply(Err(Unauthorized), None, db)
    ensures admin && !body.Undefined? ==>
      (Create(admin, body, db).result == Err(BadRequest(MISSING_FIELDS_SHORT)) <==>
         !Truthy(Prop(body, "topicId")) || !Truthy(Prop(body, "title"))
         || !Truthy(Prop(body, "fileName")) || !Truthy(Prop(body, "blobUrl")))
    ensures Create(admin, body, db).result.Err? ==> Create(admin, body, db).db.materials == db.materials
    ensures Create(admin, body, db).result.Ok? ==>
      var m := Create(admin, body, db).result.value;
      && Create(admin, body, db).db.materials == WithSchema(db).materials + [m]
      && ToNumber(Prop(body, "topicId")) == Int(m.topicId)
      && m.title == ToStr(Prop(body, "title"))
      && m.fileName == ToStr(Prop(body, "fileName"))
      && m.blobUrl == ToStr(Prop(body, "blobUrl"))
      && m.fileType == (if Truthy(Prop(body, "fileType")) then Some(ToStr(Prop(body, "fileType"))) else None)
      && m.fileSize == SizeColumn(Prop(body, "fileSize"))
      && m.isPublic
  {
    if admin && !body.Undefined? {
      CommitSpec(db, CreateInput(body), None, None);
      SizeColumnStored(Prop(body, "fileSize"));
      if Truthy(Prop(body, "fileType")) {
        ToStrOfTruthy(Prop(body, "fileType"));
      }
    }
  }
}

/**
 * The chunked upload pipeline: the in-memory table of upload sessions
 * (`global.uploadSessions`) and the three routes that drive it.
 *
 * - upload-init checks the fields, and stores a new session under a fresh
 *   id.
 * - upload-chunk overwrites one index of a session's chunk table.
 * - upload-finalize assembles the chunks, stores the file through the blob
 *   store's `put`, records a material, and only then forgets the session.
 *
 * The admin check is an input (`admin`), as are the current time, the
 * environment and the blob store's answer to `put`.
 */
module UploadSessions {
  import opened Common
  import opened Js
  import opened Http
  import opened Assembly
  import Tables
  import opened Database

  const MISSING_FIELDS := "Missing required fields"
  const MISSING_CHUNK_FIELDS := "Missing uploadId, chunkIndex, or chunk"
  const MISSING_UPLOAD_ID := "Missing uploadId"
  const SESSION_NOT_FOUND := "Upload session not found"
  const MISSING_TOKEN := "Missing BLOB_READ_WRITE_TOKEN"
  const FINALIZE_FAILED := "Finalize failed"

  /** One entry of `global.uploadSessions`, its fields as upload-init stored them. */
  datatype Session = Session(
    fileName: JsValue,
    fileSize: JsValue,
    fileType: JsValue,
    topicId: JsNumber,
    title: JsValue,
    chunks: Chunks,
    createdAt: int)

  /** What upload-init guarantees of every session it stores. */
  predicate Admitted(s: Session) {
    Truthy(s.fileName) && Truthy(s.fileSize) && Truthy(s.fileType) && Truthy(s.title)
  }

  // ------------------------------------------------------------ upload-init

  /** Which reply upload-init gives instead of creating a session, if any (app/api/materials/upload-init/route.js:8-14). */
  function InitError(admin: bool, body: JsValue): Option<HttpError> {
    if !admin then Some(Unauthorized)
    else if body.Undefined? || body.Null? then Some(Unhandled)
    else if !Truthy(Prop(body, "fileName")) || !Truthy(Prop(body, "fileSize")) || !Truthy(Prop(body, "topicId"))
    then Some(BadRequest(MISSING_FIELDS))
    else None
  }

  /** The record upload-init stores (app/api/materials/upload-init/route.js:20-28). */
  function NewSession(body: JsValue, now: int): Session {
    Session(
      Prop(body, "fileName"),
      Prop(body, "fileSize"),
      Or(Prop(body, "fileType"), Str(OCTET_STREAM)),
      ToNumber(Prop(body, "topicId")),
      Or(Prop(body, "title"), Prop(body, "fileName")),
      map[],
      now)
  }

  /**
   * upload-init refuses exactly an unauthenticated request (401), an
   * unreadable body (the parse error escapes), and a body whose `fileName`,
   * `fileSize` or `topicId` is falsy (400; so a `fileSize` of 0 is refused).
   */
  lemma InitErrorSpec(admin: bool, body: JsValue)
    ensures InitError(admin, body) == Some(Unauthorized) <==> !admin
    ensures InitError(admin, body).None? <==>
      admin && !body.Undefined? && !body.Null?
      && Truthy(Prop(body, "fileName")) && Truthy(Prop(body, "fileSize")) && Truthy(Prop(body, "topicId"))
    ensures admin && (body.Undefined? || body.Null?) ==> InitError(admin, body) == Some(Unhandled)
    ensures admin && !body.Undefined? && !body.Null?
      && !(Truthy(Prop(body, "fileName")) && Truthy(Prop(body, "fileSize")) && Truthy(Prop(body, "topicId")))
      ==> InitError(admin, body) == Some(BadRequest(MISSING_FIELDS))
    ensures admin && Prop(body, "fileSize") == Num(Int(0)) ==> InitError(admin, body).Some?
  {
  }

  /**
   * A new session has no chunks, a numeric topic id, the media type
   * defaulted to application/octet-stream and the title defaulted to the
   * file name; so every stored session is admitted.
   */
  lemma NewSessionSpec(body: JsValue, now: int)
    requires InitError(true, body).None?
    ensures var s := NewSession(body, now);
      && Admitted(s)
      && s.chunks == map[]
      && s.topicId == ToNumber(Prop(body, "topicId"))
      && s.fileType == (if Truthy(Prop(body, "fileType")) then Prop(body, "fileType") else Str(OCTET_STREAM))
      && s.title == (if Truthy(Prop(body, "title")) then Prop(body, "title") else Prop(body, "fileName"))
      && s.fileName == Prop(body, "fileName") && s.fileSize == Prop(body, "fileSize")
      && s.createdAt == now
  {
  }

  /** A string longer than every key of the table: a key `randomUUID` may return. */
  lemma {:induction false} LongerThanAll(keys: set<string>) returns (k: string)
    ensures forall y :: y in keys ==> |y| < |k|
    decreases keys
  {
    if keys == {} {
      k := "";
    } else {
      var x :| x in keys;
      var k' := LongerThanAll(keys - {x});
      k := k' + x + "-";
      assert forall y :: y in keys ==> y == x || y in keys - {x};
    }
  }

  // ------------------------------------------------------------ upload-chunk

  /** What upload-chunk does with a request: refuse it, or store `bytes` under `index` in the session at `key`. */
  datatype ChunkPlan = Refuse(error: HttpError) | Store(key: string, index: JsNumber, bytes: Bytes)

  /** upload-chunk's checks, in order (app/api/materials/upload-chunk/route.js:7-27); `form` is None when the body is not a form. */
  function PlanChunk(admin: bool, form: Option<Form>, sessions: map<string, Session>): ChunkPlan {
    if !admin then Refuse(Unauthorized)
    else if form.None? then Refuse(Unhandled)
    else
      var uploadId := FormGet(form.value, "uploadId");
      var index := FormToNumber(FormGet(form.value, "chunkIndex"));
      var chunk := FormGet(form.value, "chunk");
      if !FormTruthy(uploadId) || !FormTruthy(chunk) then Refuse(BadRequest(MISSING_CHUNK_FIELDS))
      else if FormToStr(uploadId) !in sessions then Refuse(NotFound(SESSION_NOT_FOUND))
      else if !chunk.Part? then Refuse(Unhandled)
      else Store(FormToStr(uploadId), index, chunk.file.bytes)
  }

  /**
   * upload-chunk stores exactly when the request is authenticated, names an
   * existing session and carries a file; it answers 401, then 400 for a
   * missing id or chunk, then 404 exactly for an unknown id.  The index is
   * `Number` of the field, so a missing index is 0 and is never refused.
   */
  lemma PlanChunkSpec(admin: bool, form: Option<Form>, sessions: map<string, Session>)
    ensures !admin ==> PlanChunk(admin, form, sessions) == Refuse(Unauthorized)
    ensures PlanChunk(admin, form, sessions).Store? <==>
      && admin && form.Some?
      && FormTruthy(FormGet(form.value, "uploadId"))
      && FormToStr(FormGet(form.value, "uploadId")) in sessions
      && FormGet(form.value, "chunk").Part?
    ensures PlanChunk(admin, form, sessions).Store? ==>
      var p := PlanChunk(admin, form, sessions);
      && p.key == FormToStr(FormGet(form.value, "uploadId"))
      && p.bytes == FormGet(form.value, "chunk").file.bytes
      && (p.index == FormToNumber(FormGet(form.value, "chunkIndex")))
      && ("chunkIndex" !in form.value ==> p.index == Int(0))
    ensures admin && form.None? ==> PlanChunk(admin, form, sessions) == Refuse(Unhandled)
    ensures admin && form.Some? && (!FormTruthy(FormGet(form.value, "uploadId")) || !FormTruthy(FormGet(form.value, "chunk"))) ==>
      PlanChunk(admin, form, sessions) == Refuse(BadRequest(MISSING_CHUNK_FIELDS))
    ensures admin && form.Some? && FormTruthy(FormGet(form.value, "uploadId")) && FormTruthy(FormGet(form.value, "chunk")) ==>
      (PlanChunk(admin, form, sessions) == Refuse(NotFound(SESSION_NOT_FOUND)) <==>
         FormToStr(FormGet(form.value, "uploadId")) !in sessions)
  {
  }

  // ------------------------------------------------------------ upload-finalize

  /** The createMaterial call of upload-finalize (app/api/materials/upload-finalize/route.js:43-50). */
  function MaterialFromSession(s: Session, size: nat, url: string): Tables.MaterialInput {
    Tables.MaterialInput(s.topicId, s.title, s.fileName, s.fileType, Some(Int(size)), url)
  }

  /** Everything upload-finalize leaves behind: its reply, the `put` it issued (if any), the sessions and the tables. */
  datatype Finalized = Finalized(
    result: Result<Tables.Material, HttpError>,
    putCall: Option<PutRequest>,
    sessions: map<string, Session>,
    db: Tables.DbState)

  /** upload-finalize (app/api/materials/upload-finalize/route.js:10-59), with `put` answering as the blob store does. */
  function FinalizeSpec(admin: bool, body: JsValue, env: Env, put: PutRequest -> PutOutcome,
                        sessions: map<string, Session>, db: Tables.DbState): Finalized
  {
    if !admin then Finalized(Err(Unauthorized), None, sessions, db)
    else if body.Undefined? || body.Null? then Finalized(Err(Unhandled), None, sessions, db)
    else if !Truthy(Prop(body, "uploadId")) then Finalized(Err(BadRequest(MISSING_UPLOAD_ID)), None, sessions, db)
    else
      var key := ToStr(Prop(body, "uploadId"));
      if key !in sessions then Finalized(Err(NotFound(SESSION_NOT_FOUND)), None, sessions, db)
      else
        var session := sessions[key];
        var file := Assemble(session.chunks);
        if BlobToken(env) == "" then Finalized(Err(ServerError(MISSING_TOKEN)), None, sessions, db)
        else
          var call := PutRequest(session.fileName, file, session.fileType);
          match put(call)
          case PutFailed(message) =>
            Finalized(Err(ServerError(CaughtMessage(message, FINALIZE_FAILED))), Some(call), sessions, db)
          case Stored(url) =>
            var created := Tables.CreateMaterial(db, MaterialFromSession(session, |file|, url));
            match created.result
            case Err(e) =>
              Finalized(Err(ServerError(CaughtMessage(e.Message(), FINALIZE_FAILED))), Some(call), sessions, created.db)
            case Ok(m) =>
              Finalized(Ok(m), Some(call), sessions - {key}, created.db)
  }

  /**
   * A successful finalize uploads the chunks concatenated in ascending index
   * order, records a material with the session's topic, title, file name and
   * media type, the URL `put` returned and the assembled length (NULL when
   * it is 0), and removes that session and no other.
   */
  lemma FinalizeSucceeded(admin: bool, body: JsValue, env: Env, put: PutRequest -> PutOutcome,
                          sessions: map<string, Session>, db: Tables.DbState)
    requires FinalizeSpec(admin, body, env, put, sessions, db).result.Ok?
    ensures var f := FinalizeSpec(admin, body, env, put, sessions, db);
      var key := ToStr(Prop(body, "uploadId"));
      var m := f.result.value;
      && admin && key in sessions
      && f.sessions == sessions - {key}
      && f.putCall == Some(PutRequest(sessions[key].fileName, Assemble(sessions[key].chunks), sessions[key].fileType))
      && put(f.putCall.value) == Stored(m.blobUrl)
      && f.db.materials == Tables.WithSchema(db).materials + [m]
      && sessions[key].topicId == Int(m.topicId)
      && m.title == ToStr(sessions[key].title)
      && m.fileName == ToStr(sessions[key].fileName)
      && m.fileType == Tables.StoredType(sessions[key].fileType)
      && m.fileSize == (if TotalLength(sessions[key].chunks) == 0 then None else Some(TotalLength(sessions[key].chunks)))
      && m.isPublic
  {
    var key := ToStr(Prop(body, "uploadId"));
    var session := sessions[key];
    var file := Assemble(session.chunks);
    AssembleLength(session.chunks);
    var url := put(PutRequest(session.fileName, file, session.fileType)).url;
    Tables.CreateMaterialSpec(db, MaterialFromSession(session, |file|, url));
  }

  /**
   * A failed finalize keeps every session and records no material; the
   * tables change at most by the `ensureSchema` of a createMaterial that
   * then failed, and not at all when it failed before `put` succeeded.  It
   * answers 401, then 400 for a missing id, 404 exactly for an unknown id,
   * 500 without a token, and 500 once `put` was called (a failed `put` or
   * createMaterial).
   */
  lemma FinalizeFailed(admin: bool, body: JsValue, env: Env, put: PutRequest -> PutOutcome,
                       sessions: map<string, Session>, db: Tables.DbState)
    requires FinalizeSpec(admin, body, env, put, sessions, db).result.Err?
    ensures var f := FinalizeSpec(admin, body, env, put, sessions, db);
      && f.sessions == sessions
      && f.db.materials == db.materials
      && (f.db == db || f.db == Tables.WithSchema(db))
      && (f.putCall.None? || put(f.putCall.value).PutFailed? ==> f.db == db)
      && (f.result.error == Unauthorized <==> !admin)
      && (admin && (body.Undefined? || body.Null?) ==> f.result.error == Unhandled)
      && (admin && !body.Undefined? && !body.Null? && !Truthy(Prop(body, "uploadId")) ==>
            f.result.error == BadRequest(MISSING_UPLOAD_ID))
      && (admin && !body.Undefined? && !body.Null? && Truthy(Prop(body, "uploadId")) ==>
            (f.result.error == NotFound(SESSION_NOT_FOUND) <==> ToStr(Prop(body, "uploadId")) !in sessions))
      && (admin && Truthy(Prop(body, "uploadId")) && ToStr(Prop(body, "uploadId")) in sessions && BlobToken(env) == "" ==>
            f.result.error == ServerError(MISSING_TOKEN))
      && (BlobToken(env) == "" ==> f.putCall.None?)
      && (f.putCall.Some? ==> f.result.error.ServerError?)
  {
    FinalizeFailedState(admin, body, env, put, sessions, db);
    var f := FinalizeSpec(admin, body, env, put, sessions, db);
    if f.putCall.Some? {
      CreateMaterialCaught(admin, body, env, put, sessions, db);
    }
  }

  /** Once `put` was called, a failure is a 500. */
  lemma CreateMaterialCaught(admin: bool, body: JsValue, env: Env, put: PutRequest -> PutOutcome,
                             sessions: map<string, Session>, db: Tables.DbState)
    requires FinalizeSpec(admin, body, env, put, sessions, db).putCall.Some?
    requires FinalizeSpec(admin, body, env, put, sessions, db).result.Err?
    ensures FinalizeSpec(admin, body, env, put, sessions, db).result.error.ServerError?
  {
  }

  /** What a failed finalize leaves behind. */
  lemma FinalizeFailedState(admin: bool, body: JsValue, env: Env, put: PutRequest -> PutOutcome,
                            sessions: map<string, Session>, db: Tables.DbState)
    requires FinalizeSpec(admin, body, env, put, sessions, db).result.Err?
    ensures var f := FinalizeSpec(admin, body, env, put, sessions, db);
      && f.sessions == sessions
      && f.db.materials == db.materials
      && (f.db == db || f.db == Tables.WithSchema(db))
      && (f.putCall.None? || put(f.putCall.value).PutFailed? ==> f.db == db)
  {
    var f := FinalizeSpec(admin, body, env, put, sessions, db);
    if admin && !body.Undefined? && !body.Null? && Truthy(Prop(body, "uploadId")) {
      var key := ToStr(Prop(body, "uploadId"));
      if key in sessions && BlobToken(env) != "" {
        var session := sessions[key];
        var call := PutRequest(session.fileName, Assemble(session.chunks), session.fileType);
        if put(call).Stored? {
          Tables.CreateMaterialSpec(db, MaterialFromSession(session, |Assemble(session.chunks)|, put(call).url));
          Tables.WithSchemaSpec(db);
        }
      }
    }
  }

  /**
   * For an admitted session, createMaterial can only fail on the topic id
   * (NaN, or no such topic): the title and file name are never NULL.
   */
  lemma FinalizeFailsOnlyOnTopic(admin: bool, body: JsValue, env: Env, put: PutRequest -> PutOutcome,
                                 sessions: map<string, Session>, db: Tables.DbState)
    requires admin && Truthy(Prop(body, "uploadId"))
    requires ToStr(Prop(body, "uploadId")) in sessions
    requires Admitted(sessions[ToStr(Prop(body, "uploadId"))])
    requires BlobToken(env) != ""
    requires put(PutRequest(sessions[ToStr(Prop(body, "uploadId"))].fileName,
                            Assemble(sessions[ToStr(Prop(body, "uploadId"))].chunks),
                            sessions[ToStr(Prop(body, "uploadId"))].fileType)).Stored?
    ensures var s := sessions[ToStr(Prop(body, "uploadId"))];
      FinalizeSpec(admin, body, env, put, sessions, db).result.Err? <==>
        s.topicId.NaN? || !Tables.HasTopic(Tables.WithSchema(db).topics, s.topicId.i)
  {
    var s := sessions[ToStr(Prop(body, "uploadId"))];
    var file := Assemble(s.chunks);
    var url := put(PutRequest(s.fileName, file, s.fileType)).url;
    Tables.CreateMaterialSpec(db, MaterialFromSession(s, |file|, url));
  }

  // ------------------------------------------------------------ the store

  /** `global.uploadSessions`. */
  class SessionStore {
    var sessions: map<string, Session>

    ghost predicate Valid()
      reads this
    {
      forall k :: k in sessions ==> Admitted(sessions[k])
    }

    constructor ()
      ensures sessions == map[] && Valid()
    {
      sessions := map[];
    }

    /** POST upload-init: on success the reply carries the id the new session was stored under. */
    method Init(admin: bool, body: JsValue, now: int) returns (r: Result<string, HttpError>)
      requires Valid()
      modifies this
      ensures Valid()
      ensures InitError(admin, body).Some? ==> r == Err(InitError(admin, body).value) && sessions == old(sessions)
      ensures InitError(admin, body).None? ==>
        && r.Ok? && r.value !in old(sessions)
        && sessions == old(sessions)[r.value := NewSession(body, now)]
    {
      var error := InitError(admin, body);
      if error.Some? {
        return Err(error.value);
      }
      NewSessionSpec(body, now);
      var longer := LongerThanAll(sessions.Keys);
      assert longer !in sessions;
      var uploadId :| uploadId !in sessions;
      sessions := sessions[uploadId := NewSession(body, now)];
      return Ok(uploadId);
    }

    /** POST upload-chunk: on success the reply echoes the index the chunk was stored under. */
    method PutChunk(admin: bool, form: Option<Form>) returns (r: Result<JsNumber, HttpError>)
      requires Valid()
      modifies this
      ensures Valid()
      ensures match PlanChunk(admin, form, old(sessions))
        case Refuse(e) => r == Err(e) && sessions == old(sessions)
        case Store(key, index, bytes) =>
          && r == Ok(index)
          && sessions == old(sessions)[key := old(sessions)[key].(chunks := Written(old(sessions)[key].chunks, [ChunkWrite(index, bytes)]))]
    {
      var plan := PlanChunk(admin, form, sessions);
      if plan.Refuse? {
        return Err(plan.error);
      }
      var session := sessions[plan.key];
      sessions := sessions[plan.key := session.(chunks := session.chunks[plan.index := plan.bytes])];
      return Ok(plan.index);
    }

    /** POST upload-finalize against the tables of `db`. */
    method Finalize(admin: bool, body: JsValue, env: Env, put: PutRequest -> PutOutcome, db: Database)
      returns (r: Result<Tables.Material, HttpError>, putCall: Option<PutRequest>)
      requires Valid() && db.Valid()
      modifies this, db
      ensures Valid() && db.Valid()
      ensures Finalized(r, putCall, sessions, db.State()) == FinalizeSpec(admin, body, env, put, old(sessions), old(db.State()))
    {
      putCall := None;
      if !admin {
        r := Err(Unauthorized);
        return;
      }
      if body.Undefined? || body.Null? {
        r := Err(Unhandled);
        return;
      }
      var uploadId := Prop(body, "uploadId");
      if !Truthy(uploadId) {
        r := Err(BadRequest(MISSING_UPLOAD_ID));
        return;
      }
      var key := ToStr(uploadId);
      if key !in sessions {
        r := Err(NotFound(SESSION_NOT_FOUND));
        return;
      }
      var session := sessions[key];
      var file := Assemble(session.chunks);
      if BlobToken(env) == "" {
        r := Err(ServerError(MISSING_TOKEN));
        return;
      }
      var call := PutRequest(session.fileName, file, session.fileType);
      putCall := Some(call);
      var uploaded := put(call);
      if uploaded.PutFailed? {
        r := Err(ServerError(CaughtMessage(uploaded.message, FINALIZE_FAILED)));
        return;
      }
      var created := db.CreateMaterial(MaterialFromSession(session, |file|, uploaded.url));
      if created.Err? {
        r := Err(ServerError(CaughtMessage(created.error.Message(), FINALIZE_FAILED)));
        return;
      }
      sessions := sessions - {key};
      r := Ok(created.value);
    }
  }
}

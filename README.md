# Course materials uploader: upload pipeline, material routes, tables and admin gate

This project models the server side of a Next.js course-materials site.
An administrator uploads files, such as lecture PDFs, to a blob store. The
site records them as *materials* under *topics*, and each topic belongs to an
*owner* (a teacher page identified by a slug). The model covers five parts:

- **The chunked upload pipeline** (`UploadSessions`).
  - upload-init opens a session in the in-memory session table under a fresh id.
  - upload-chunk stores one chunk under its index; the last write wins.
  - upload-finalize concatenates the chunks in ascending numeric index order,
    hands the file to the blob store's `put`, records a material, and only
    then forgets the session.
  - `SessionStore` is a class whose `sessions` map these three methods change
    in place.
  - The pure assembly of the file is in `Assembly`.
- **The other routes that create a material** (`MaterialRoutes`): register, the
  single-shot upload, and POST materials. It models their required fields,
  their defaults and the order in which they call `put` and createMaterial.
- **The upload-url route and its file-name sanitiser** (`UploadUrl`).
- **The table operations of lib/db.js.**
  - `Tables` holds them as functions over the three tables and states their
    properties.
  - `Database` is a class whose table fields its methods update statement by
    statement, with `updateTopicOrder`'s loop as a loop. Each method is proved
    to match the `Tables` function of the same name and to keep the schema's
    invariants: unique ids below their sequences, unique slugs, and the two
    foreign keys.
- **The middleware gate** in front of `/admin` (`Middleware`).

Shared JavaScript semantics are in `Js`: truthiness, `||`, `?.`, `Number()`,
`String()` and `trim()`. HTTP replies, multipart form values, the blob token
and the `put` oracle are in `Http`. `Common` holds `Option` and `Result`.

Several things outside the code are parameters:

- Authentication: `admin: bool` stands for the result of
  `isAdminFromRequest`, and the middleware's cookie check is a predicate
  `isAdminCookie`.
- The environment: `Env` holds the two token variables.
- The clock: `now`.
- The blob store: `put: PutRequest -> PutOutcome`, which either stores the
  file and returns its URL or fails with a message.
- `randomUUID`: any key not yet in the session table.

A request body that is not JSON is the value `Undefined`. A body that is not
a form is `None`. An exception that escapes a handler is the error
`Unhandled`, which the framework answers with status 500.

## Model

| member | source | states |
|---|---|---|
| UploadSessions.InitErrorSpec | app/api/materials/upload-init/route.js:8-14 | upload-init answers 401 exactly when the request is not an admin's. An admin's unreadable body lets the parse error escape. A readable body whose fileName, fileSize or topicId is falsy gets 400 "Missing required fields", so a fileSize of 0 is refused. It accepts exactly the remaining requests. |
| UploadSessions.NewSessionSpec | app/api/materials/upload-init/route.js:19-28 | A new session has an empty chunk table, topicId passed through Number(), fileType defaulting to application/octet-stream, title defaulting to fileName, and the clock's time. It is admitted: fileName, fileSize, fileType and title are all truthy. |
| UploadSessions.LongerThanAll | app/api/materials/upload-init/route.js:16 | Some key lies outside any finite session table, so a fresh upload id always exists. |
| UploadSessions.SessionStore.constructor | app/api/materials/upload-init/route.js:19 | The session table starts empty. |
| UploadSessions.SessionStore.Init | app/api/materials/upload-init/route.js:7-31 | A refused request changes no session. A successful one adds exactly one key, which was absent before and is the id the reply returns. That key holds the new session and every other session is unchanged. All sessions stay admitted. |
| UploadSessions.PlanChunkSpec | app/api/materials/upload-chunk/route.js:7-23 | upload-chunk stores exactly when the request is an admin's, names an existing session and carries a file. A non-admin gets 401 first, and a body that is not a form lets the error escape. A missing uploadId or chunk gets 400. With both present, the reply is 404 exactly when the id names no session. The index is Number() of the field, so a missing index is 0 and the `=== undefined` test never refuses. |
| UploadSessions.SessionStore.PutChunk | app/api/materials/upload-chunk/route.js:6-30 | A refused request changes nothing. A stored chunk replaces the payload at its index (last write wins) in that session only. Every other index, session field and session is unchanged. The reply echoes the index. |
| UploadSessions.FinalizeSucceeded | app/api/materials/upload-finalize/route.js:24-55 | A successful finalize sends put the chunks in ascending index order, under the session's file name and media type. It records one material with the session's topic, title, file name and media type, put's URL, and the assembled length rather than the declared size (NULL when that length is 0). It removes that session and no other. |
| UploadSessions.FinalizeFailed | app/api/materials/upload-finalize/route.js:10-59 | Every failure keeps all sessions and records no material. 401 comes exactly for a non-admin. An unreadable body lets the error escape. A missing uploadId gets 400. A present id gets 404 exactly when it names no session. A known session without a token gets 500 "Missing BLOB_READ_WRITE_TOKEN", and put is not called. Once put was called, every failure is a 500. Before put succeeds the tables are untouched; afterwards they change at most by createMaterial's ensureSchema. |
| UploadSessions.FinalizeFailedState | app/api/materials/upload-finalize/route.js:24-59 | A failed finalize keeps every session and adds no material. The tables are untouched unless put stored the file, and then they change at most by createMaterial's ensureSchema. |
| UploadSessions.CreateMaterialCaught | app/api/materials/upload-finalize/route.js:56-58 | A failure after put was called, whether from put or from createMaterial, is caught and answered with 500. |
| UploadSessions.FinalizeFailsOnlyOnTopic | app/api/materials/upload-finalize/route.js:43-50 | Once put has stored the file of an admitted session, createMaterial fails exactly when the session's topic id is NaN or names no topic. |
| UploadSessions.SessionStore.Finalize | app/api/materials/upload-finalize/route.js:9-60 | The reply, the put call, the sessions and the tables after the call are exactly those FinalizeSpec describes. The session table stays admitted and the tables stay well formed. |
| Assembly.IntKeysWritten | app/api/materials/upload-finalize/route.js:26 | After any series of upload-chunk writes, the integer indices finalize reads back are exactly those the table held before plus every integer index written since. No write is lost and no index appears unwritten. |
| Assembly.Ascending | app/api/materials/upload-finalize/route.js:26 | The integer indices, strictly ascending, each exactly once. |
| Assembly.AscendingUnique | app/api/materials/upload-finalize/route.js:26 | Two strictly ascending listings of the same indices are equal, so the numeric sort has one outcome. |
| Assembly.AssembleInIndexOrder | app/api/materials/upload-finalize/route.js:26-28 | The assembled file is the chunks concatenated along any strictly ascending listing of the indices. |
| Assembly.WrittenAt | app/api/materials/upload-chunk/route.js:27 | After a series of chunk writes, each index holds the last payload written to it, or what it held before if no write touched it. |
| Assembly.LastWriteOfDistinct | app/api/materials/upload-chunk/route.js:27 | When the writes use distinct indices, the last write to an index is the only write to it. |
| Assembly.ArrivalOrderIrrelevant | app/api/materials/upload-finalize/route.js:26-28 | Chunks written to distinct indices give the same table and the same file whatever order they arrived in. |
| Assembly.AssembleLength | app/api/materials/upload-finalize/route.js:28-48 | The assembled file is as long as all the stored chunks together. |
| Assembly.OutOfOrderPair | app/api/materials/upload-finalize/route.js:26-28 | Writing chunk 1 before chunk 0 still assembles chunk 0's bytes first. |
| Assembly.GapsSkipped | app/api/materials/upload-finalize/route.js:26-28 | Chunks 0 and n (n > 0) assemble to their concatenation; the missing indices are skipped silently. |
| Assembly.NoChunksEmpty | app/api/materials/upload-finalize/route.js:26-28 | A session without chunks assembles an empty file. |
| Js.DecimalRoundTrip | app/api/materials/upload-finalize/route.js:26 | Number(String(i)) is i for every integer i, so a chunk key read back by `Object.keys(...).map(Number)` is the index it was stored under. |
| Js.DecimalInjective | app/api/materials/upload-chunk/route.js:27 | Distinct integer indices are distinct property keys. |
| Js.Trim | app/api/materials/register/route.js:14-18 | trim() gives the piece of the string that starts after its leading white space. Everything cut away on either side is white space, and the result has no white space at either end. |
| Js.TrimEmptyIff | app/api/materials/register/route.js:14-18 | A trimmed field is empty exactly when it held only white space. |
| Js.TrimIdempotent | app/api/upload-url/route.js:18 | Trimming twice is trimming once. |
| UploadUrl.SafeName | app/api/upload-url/route.js:24 | The sanitised name holds only characters of `[a-zA-Z0-9_.가-힣-]`. It is no longer than its input and is empty only for an empty input. |
| UploadUrl.SafeNameKeepsSafe | app/api/upload-url/route.js:24 | A name made only of allowed characters is returned unchanged. |
| UploadUrl.SafeNameIdempotent | app/api/upload-url/route.js:24 | Sanitising twice is sanitising once. |
| UploadUrl.SafeNameSafePrefix | app/api/upload-url/route.js:24 | A prefix of allowed characters is copied as it is. |
| UploadUrl.SafeNameUnsafeRun | app/api/upload-url/route.js:24 | A whole maximal run of disallowed characters becomes a single `_`. |
| UploadUrl.IssueUploadUrlSpec | app/api/upload-url/route.js:7-31 | A non-admin gets 401. A missing token gets 500 before the body is read. An admin with a token and an empty trimmed name gets 400 "originalName required". The route succeeds exactly in the remaining case. The grant carries the token and the sanitised name, which is non-empty, only allowed characters and no longer than the trimmed name. |
| UploadUrl.OriginalNameSpec | app/api/upload-url/route.js:18 | The name is a truthy originalName, otherwise a truthy name, stringified and trimmed. A body with neither gives the empty name, which the route refuses. |
| UploadUrl.ContentTypeSpec | app/api/upload-url/route.js:19 | The granted content type is never empty. A truthy contentType is used (a non-empty string unchanged); otherwise a truthy type is used; a body naming neither gets application/octet-stream. |
| MaterialRoutes.CommitSpec | app/api/materials/register/route.js:24-36 | The createMaterial step that ends each route keeps the put call it was given. When createMaterial fails, no material is added, and the reply is 500 in a route with a catch block and an unhandled error in one without. When it succeeds, exactly the row built from the argument is appended, with the number topic id, the string title and file name, a falsy media type or size as NULL, and is_public set. |
| MaterialRoutes.RegisterRefuses | app/api/materials/register/route.js:8-22 | A non-admin gets 401 and nothing changes. An admin gets 400 exactly when Number(topicId) is not a non-zero number or the trimmed fileName or blobUrl is empty. No failed request adds a material. |
| MaterialRoutes.RegisterRecords | app/api/materials/register/route.js:13-33 | The recorded material is the one row appended. Its topic id is Number(topicId), its file name and URL are the trimmed non-empty inputs, and its title is the trimmed title or else the file name. Its media type defaults to application/octet-stream. Its size is Number(fileSize), or NULL when fileSize was falsy, not a number or 0. It is public. |
| Js.DefaultedTextNonEmpty | app/api/materials/register/route.js:16 | String(v \|\| d) with a non-empty default is never empty, so register's media type is never stored as NULL. |
| Js.ToStrOfTruthy | app/api/materials/register/route.js:16 | The string form of a truthy value is never empty. |
| MaterialRoutes.SizeColumnStored | app/api/materials/register/route.js:17 | `fileSize ? Number(fileSize) : null`, passed through createMaterial's `fileSize \|\| null`, stores the number, or NULL when it is falsy, not a number or 0. |
| MaterialRoutes.UploadRefuses | app/api/materials/upload/route.js:9-29 | A non-admin gets 401, and a body that is not a form lets the error escape. An admin with a form gets 400 exactly when Number(topicId) is not a non-zero number or `file` is not a file. A valid request without a token gets 500 with the token message, and put is not called. Once put was called, every failure is a 500. Whenever put is not called the tables are untouched, and no failed request adds a material. |
| MaterialRoutes.UploadRecords | app/api/materials/upload/route.js:21-44 | A material is recorded only after put stored the file under its name and media type (else application/octet-stream). The row carries Number(topicId), put's URL, the trimmed title or else the file's name, that media type, and the file's size (NULL for an empty file). It is public. |
| MaterialRoutes.UploadCommits | app/api/materials/upload/route.js:31-41 | A successful upload issued exactly one put call, with the file under its own name and its media type, and put stored it. The reply is then exactly the createMaterial step on the row built from the form and put's URL. |
| MaterialRoutes.CreateSpec | app/api/materials/route.js:6-20 | A non-admin gets 401. A readable body gets 400 exactly when topicId, title, fileName or blobUrl is falsy, and no failed request adds a material. A recorded row has the number-coerced topic id and the string-coerced title, file name and URL. Its media type is String(fileType), or NULL when fileType was falsy. Its size is Number(fileSize), or NULL when fileSize was falsy, not a number or 0. It is public. |
| Middleware.Gate | middleware.js:17-29 | A redirect goes to /admin/login and changes nothing in the URL but its path. |
| Middleware.OutsideAdminPasses | middleware.js:19-28 | A path not starting with /admin passes, whatever the cookie. |
| Middleware.LoginPasses | middleware.js:19 | /admin/login itself always passes. |
| Middleware.GuardedPath | middleware.js:19-28 | A guarded path passes exactly when the admin cookie is present and valid. Otherwise it is redirected to /admin/login with the same origin, query and fragment. |
| Middleware.RedirectTargetPasses | middleware.js:22-26 | The page a redirect leads to passes the gate with any cookie, so redirects never loop. |
| Middleware.BelowAdminGuarded | middleware.js:19 | Every path /admin/x other than /admin/login is guarded. |
| Tables.Filter | lib/db.js:145 | The rows left by a DELETE are exactly the old rows that do not match it, and there are no more of them than before. |
| Tables.FilterFilter | lib/db.js:145 | Filtering by p and then by a stronger q is filtering by q alone. |
| Tables.FilterAll | lib/db.js:145 | A filter that keeps every row is the identity. |
| Tables.FilterPairwise | lib/db.js:231 | A DELETE keeps any pairwise relation the remaining rows satisfied in table order, such as increasing ids and unique slugs. |
| Tables.FindOwnerBySlug | lib/db.js:201-205 | Finds an owner with the slug when one exists, and none exactly when none exists. |
| Tables.DbError.Message | lib/db.js:226-227 | Every database error carries a non-empty message, so the `e?.message \|\| fallback` of the routes shows it. |
| Tables.EmptyWellFormed | lib/db.js:30-60 | Freshly created tables satisfy the schema's keys and references. |
| Tables.InsertDefaultOwnerSpec | lib/db.js:64 | The insert adds the default owner ('default', '기본', 999999) with the next id when it is missing, and changes nothing when it exists. |
| Tables.DefaultOwnerRaisedSpec | lib/db.js:63-66 | The two owner statements leave a default owner: the existing one with its sort order raised, or a new ('default', '기본', 999999) row. Every other owner row, all topics and all materials are unchanged. |
| Tables.OrphansAdoptedSpec | lib/db.js:67-68 | When a default owner exists, exactly the ownerless topics are given its id, so every topic then has an owner. Owners, materials and the number of topics are unchanged. |
| Tables.DefaultOwnerRaisedWellFormed | lib/db.js:63-66 | The two owner statements keep the tables well formed. |
| Tables.OrphansAdoptedWellFormed | lib/db.js:67-68 | Adopting the ownerless topics keeps the tables well formed, since the default owner's id exists. |
| Tables.WithSchemaSpec | lib/db.js:28-69 | ensureSchema leaves a default owner whose sort order is at least 999999 and topics that all have an owner. It creates the default owner when missing, otherwise only raises its sort order. Every other owner is unchanged. Exactly the ownerless topics are given the default owner. Materials are untouched. |
| Tables.WithSchemaWellFormed | lib/db.js:28-69 | ensureSchema keeps the tables well formed. |
| Tables.WithSchemaIdempotent | lib/db.js:28-69 | Applying ensureSchema twice is applying it once. |
| Tables.OwnersRewritten | lib/db.js:66 | An owners UPDATE that keeps ids and slugs keeps the tables well formed. |
| Tables.TopicsRewritten | lib/db.js:68 | A topics UPDATE that keeps ids and points only at existing owners keeps the tables well formed. |
| Tables.InsertDefaultOwnerWellFormed | lib/db.js:64 | Inserting the default owner keeps the tables well formed. |
| Tables.InsertTopic | lib/db.js:81 | Inserting a topic into a listing adds exactly that topic. |
| Tables.InsertTopicSorted | lib/db.js:81 | Inserting into a listing ordered by (sort_order, id) keeps it ordered. |
| Tables.SortTopics | lib/db.js:81 | The ordered listing is a permutation of the selected topics. |
| Tables.SortTopicsSorted | lib/db.js:81 | The listing is ordered by sort_order, then id. |
| Tables.ListTopicsSpec | lib/db.js:74-94 | After ensureSchema, an unknown slug lists nothing. A known owner's list is exactly its topics, as a multiset, in (sort_order, id) order. Each listed topic carries exactly the materials whose topic_id matches it, in insertion order. |
| Tables.LastIndexOf | lib/db.js:127-128 | The position it returns holds the id, and no later position does. |
| Tables.ReorderedSpec | lib/db.js:127-129 | After the reorder loop, a listed topic's sort_order is the last position of its id in the list, and unlisted topics are unchanged. |
| Tables.UpdateTopicOrderWellFormed | lib/db.js:123-130 | updateTopicOrder keeps the tables well formed. |
| Tables.CreateTopicSpec | lib/db.js:97-107 | createTopic fails exactly when the slug names no owner after ensureSchema. Otherwise it appends one topic with the next id, the given title and sort order, owned by that owner. The tables stay well formed. |
| Tables.AppendTopicWellFormed | lib/db.js:102-105 | Appending a topic with the next id and an existing owner keeps the tables well formed. |
| Tables.CreateMaterialSpec | lib/db.js:132-141 | createMaterial succeeds exactly for an integer topic id of an existing topic and a non-null title and file name. It then appends one row with the next id: a falsy file_type or file_size becomes NULL and is_public is true. A failure leaves the tables as ensureSchema left them. |
| Tables.CreateMaterialWellFormed | lib/db.js:132-141 | createMaterial keeps the tables well formed. |
| Tables.MaterialsRewritten | lib/db.js:198 | A materials UPDATE that keeps ids and points only at existing topics keeps the tables well formed. |
| Tables.FindMaterial | lib/db.js:145 | Finds a material with the id when one exists, and none exactly when none exists. |
| Tables.DeleteMaterialSpec | lib/db.js:143-147 | deleteMaterial removes exactly the rows with that id and returns the blob URL of the one it removed, or nothing if there was none. |
| Tables.DeleteMaterialWellFormed | lib/db.js:143-147 | deleteMaterial keeps the tables well formed. |
| Tables.CreateOwnerSpec | lib/db.js:166-175 | An existing slug keeps its id and sort order and only its name changes. A new slug gets a fresh row with the given sort order. Afterwards the slug finds the returned row. |
| Tables.CreateOwnerWellFormed | lib/db.js:166-175 | createOwner keeps the tables well formed. |
| Tables.FindUnsorted | lib/db.js:189 | Finds one of the owner's 미분류 topics when one exists, and none exactly when none exists. |
| Tables.GetOrCreateUnsortedTopicSpec | lib/db.js:184-193 | An unknown slug fails. Otherwise an existing 미분류 topic of the owner is reused, or exactly one is created with sort order 0 when there is none. The result is always a 미분류 topic of that owner. |
| Tables.MoveMaterialToOwnerSpec | lib/db.js:195-199 | moveMaterialToOwner fails only for an unknown slug, leaving the materials unchanged. Otherwise it points the material with that id, and no other, at the owner's 미분류 topic. It leaves the owners alone and adds at most that one topic. |
| Tables.MoveMaterialToOwnerWellFormed | lib/db.js:195-199 | moveMaterialToOwner keeps the tables well formed. |
| Tables.DeleteOwnerSpec | lib/db.js:222-232 | deleteOwner never reports the default owner missing and refuses exactly the default owner's id. For any other id it hands that owner's topics to the default owner and removes the owner row. The default owner stays and no topic refers to the removed id. |
| Tables.OwnerRemoved | lib/db.js:231 | Removing an owner no topic refers to keeps the tables well formed. |
| Tables.DeleteOwnerWellFormed | lib/db.js:222-232 | deleteOwner keeps the tables well formed. |
| Database.Database.constructor | lib/db.js:30-60 | The tables start empty and well formed. |
| Database.Database.EnsureSchema | lib/db.js:28-69 | The three statements, run one after another, leave exactly WithSchema of the old tables, well formed. |
| Database.Database.GetOwnerBySlug | lib/db.js:201-205 | Runs ensureSchema and returns the owner with the slug, if any. |
| Database.Database.ListTopicsWithMaterials | lib/db.js:71-95 | Returns the listing and leaves the tables that ListTopicsWithMaterials describes. |
| Database.Database.CreateTopic | lib/db.js:97-107 | Returns the result and leaves the tables that CreateTopic describes, well formed. |
| Database.Database.UpdateTopicOrder | lib/db.js:123-130 | The loop of per-position UPDATEs leaves the tables that UpdateTopicOrder describes, well formed. |
| Database.Database.CreateMaterial | lib/db.js:132-141 | Returns the row or error and leaves the tables that CreateMaterial describes, well formed. |
| Database.Database.DeleteMaterial | lib/db.js:143-147 | Returns the blob URL and leaves the tables that DeleteMaterial describes, well formed. |
| Database.Database.CreateOwner | lib/db.js:166-175 | Returns the row and leaves the tables that CreateOwner describes, well formed. |
| Database.Database.GetOrCreateUnsortedTopic | lib/db.js:184-193 | Returns the topic or error and leaves the tables that GetOrCreateUnsortedTopic describes, well formed. |
| Database.Database.MoveMaterialToOwner | lib/db.js:195-199 | Leaves the tables that MoveMaterialToOwner describes, well formed. |
| Database.Database.DeleteOwner | lib/db.js:222-232 | Returns the result and leaves the tables that DeleteOwner describes, well formed. |

## Left out

- Rendering, login and logout, JWT signing and verification, the owners and topics wrappers, and the Postgres connection are not part of this model. Admin status and cookie validity are inputs.
- lib/db.js functions outside the modelled set are not modelled: deleteTopic, updateTopicTitle, getMaterialById, listOwners, updateTopicOwner, getOwnerById and updateOwnerName. The `ON DELETE CASCADE` and `ON DELETE SET NULL` actions are not modelled either, because no modelled operation deletes a topic or an owner that is still referenced.
- Numbers are integers plus NaN. A numeric string that is not an optionally signed run of digits (such as "1.5", "1e3", "0x1A" or "Infinity") reads as NaN. So a fractional topicId is refused with 400 in the model, where the JavaScript would pass it on and Postgres would reject it. Likewise register and POST materials store NULL for a fileSize of "1e3", where the source stores 1000, and they succeed with NULL for "1.5", where Postgres rejects the BIGINT and register answers 500 (app/api/materials/register/route.js:17, app/api/materials/register/route.js:34-36). INT and BIGINT ranges are not checked. Integers are also exact in the model, whereas `Number()` rounds a digit string to the nearest double above 2^53 and gives Infinity past about 1.8e308. So chunk indices "9007199254740992" and "9007199254740993" are one key in the source, where the second write replaces the first, but two chunks in the model; a fileSize of such a string is stored rounded by the source.
- Chunk indices are integers or NaN. A NaN chunk is placed after all the integer chunks; JavaScript's `sort` leaves its position to the engine. Every non-integer index ("1.5", "2.5", "1e21") falls into the one NaN slot, so in the model such chunks overwrite each other and are placed last. In JavaScript each keeps its own key and is sorted numerically among the integers (app/api/materials/upload-chunk/route.js:27, app/api/materials/upload-finalize/route.js:26).
- Strings are sequences of code points. JavaScript counts UTF-16 units, which makes no difference to the sanitiser or to `trim`.
- A value bound to a TEXT column is passed through String(). Where pg would serialise an object as JSON, the model uses "[object Object]".
- Property names of the prototype, such as `constructor` or `__proto__`, are not modelled in the session-table lookups.
- Ids come from the model's own counters, which advance only when a row is inserted. Postgres also uses up a sequence value on a failed insert and on an `INSERT ... ON CONFLICT` that inserts nothing, as ensureSchema's default-owner insert and createOwner's upsert do. So the exact ids in Tables.InsertDefaultOwnerSpec, Tables.CreateOwnerSpec and the other insert lemmas are the model's. Only the fact that a new id is fresh carries over to Postgres.
- Tables.FindUnsorted: the source's `SELECT id ... LIMIT 1` has no ORDER BY, so Postgres may return any matching 미분류 topic. The model fixes that choice to the first one in table order. FindUnsorted's own contract promises only some 미분류 topic of the owner. Which topic is reused when an owner has several is the model's choice, not the database's.
- JSON arrays are not modelled: JsValue has no array case. Inputs such as a topicId sent as `[5]` (which `Number` reads as 5) are outside the model.
- `created_at` is represented by table order. `createdAt` in a session is the `now` parameter.
- Database.Database.UpdateTopicOrder: takes the ids as integers, so in the model it never fails. The reorder route checks only that topicIds is a non-empty array (app/api/topics/reorder/route.js:13-17). An element such as "abc", 1.5 or true makes that position's UPDATE throw after the earlier positions were already written, since there is no transaction, and the route then ends in an unhandled error. The model does not capture this partial update; Tables.UpdateTopicOrder has the same integer parameter.
- Database.Database.DeleteOwner: takes the owner id as an integer. The source compares with `===`, so an id passed as a string would never equal the default owner's id; the model does not cover that.
- Tables.GetOrCreateUnsortedTopic: returns the whole topic row where the source returns only `{ id }` for an existing topic; its only caller uses only the id.
- Concurrency between requests, durability of the in-memory session table, `maxDuration`, the runtime flags, and the middleware's `matcher` configuration are not modelled.

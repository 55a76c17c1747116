/**
 * The upload-url route: it hands the client the blob store endpoint, the
 * token and a sanitised file name, so that the browser can upload directly.
 * The sanitiser replaces each maximal run of characters outside
 * `[a-zA-Z0-9_.가-힣-]` with a single `_`.
 */
module UploadUrl {
  import opened Common
  import opened Js
  import opened Http

  const UPLOAD_ENDPOINT := "https://blob.vercel-storage.com"
  const NAME_REQUIRED := "originalName required"

  /** The characters the sanitiser keeps: ASCII letters and digits, `_`, `.`, `-` and the Hangul syllables 가..힣. */
  predicate SafeChar(c: char) {
    ('a' <= c <= 'z') || ('A' <= c <= 'Z') || ('0' <= c <= '9') || c == '_' || c == '.' || c == '-'
    || ('가' <= c <= '힣')
  }

  predicate AllSafe(s: string) {
    forall k :: 0 <= k < |s| ==> SafeChar(s[k])
  }

  predicate AllUnsafe(s: string) {
    forall k :: 0 <= k < |s| ==> !SafeChar(s[k])
  }

  /** `s` without its leading run of unsafe characters. */
  function SkipUnsafe(s: string): (r: string)
    ensures |r| <= |s|
    ensures r == s[|s| - |r|..]
    ensures AllUnsafe(s[..|s| - |r|])
    ensures r == [] || SafeChar(r[0])
  {
    if s == [] || SafeChar(s[0]) then s
    else
      var r := SkipUnsafe(s[1..]);
      assert s[1..][|s| - 1 - |r|..] == s[|s| - |r|..];
      assert forall k :: 1 <= k < |s| - |r| ==> s[k] == s[1..][k - 1];
      r
  }

  /** `name.replace(/[^a-zA-Z0-9_.가-힣-]+/g, '_')` */
  function SafeName(s: string): (r: string)
    ensures AllSafe(r)
    ensures |r| <= |s|
    ensures r == [] <==> s == []
    decreases |s|
  {
    if s == [] then []
    else if SafeChar(s[0]) then [s[0]] + SafeName(s[1..])
    else "_" + SafeName(SkipUnsafe(s[1..]))
  }

  /** A name made only of allowed characters comes back unchanged. */
  lemma {:induction false} SafeNameKeepsSafe(s: string)
    requires AllSafe(s)
    ensures SafeName(s) == s
  {
    if s != [] {
      assert AllSafe(s[1..]);
      SafeNameKeepsSafe(s[1..]);
    }
  }

  /** Sanitising twice is sanitising once. */
  lemma SafeNameIdempotent(s: string)
    ensures SafeName(SafeName(s)) == SafeName(s)
  {
    SafeNameKeepsSafe(SafeName(s));
  }

  /** An allowed first character is copied as it is. */
  lemma SafeNameSafeHead(c: char, s: string)
    requires SafeChar(c)
    ensures SafeName([c] + s) == [c] + SafeName(s)
  {
    assert ([c] + s)[1..] == s;
  }

  /** A prefix of allowed characters is copied as it is. */
  lemma {:induction false} SafeNameSafePrefix(a: string, s: string)
    requires AllSafe(a)
    ensures SafeName(a + s) == a + SafeName(s)
  {
    if a == [] {
      assert a + s == s;
    } else {
      var rest := a[1..];
      assert a == [a[0]] + rest;
      assert a + s == [a[0]] + (rest + s);
      assert AllSafe(rest);
      SafeNameSafePrefix(rest, s);
      SafeNameSafeHead(a[0], rest + s);
    }
  }

  /** A whole run of disallowed characters, up to the next allowed one, becomes one `_`. */
  lemma {:induction false} SafeNameUnsafeRun(u: string, s: string)
    requires u != [] && AllUnsafe(u)
    requires s == [] || SafeChar(s[0])
    ensures SafeName(u + s) == "_" + SafeName(s)
  {
    SkipUnsafeRun(u[1..], s);
    assert (u + s)[1..] == u[1..] + s;
  }

  lemma {:induction false} SkipUnsafeRun(u: string, s: string)
    requires AllUnsafe(u)
    requires s == [] || SafeChar(s[0])
    ensures SkipUnsafe(u + s) == s
  {
    if u != [] {
      assert (u + s)[1..] == u[1..] + s;
      SkipUnsafeRun(u[1..], s);
    } else {
      assert u + s == s;
    }
  }

  /** The reply of upload-url on success. */
  datatype UploadGrant = UploadGrant(uploadEndpoint: string, token: string, fileName: string, contentType: string)

  /** `String(body?.originalName || body?.name || '').trim()` */
  function OriginalName(body: JsValue): string {
    Trim(ToStr(Or(Or(Prop(body, "originalName"), Prop(body, "name")), Str(""))))
  }

  /** `String(body?.contentType || body?.type || 'application/octet-stream')` */
  function ContentType(body: JsValue): string {
    ToStr(Or(Or(Prop(body, "contentType"), Prop(body, "type")), Str(OCTET_STREAM)))
  }

  /**
   * POST upload-url (app/api/upload-url/route.js:7-32); `body` is Undefined
   * when the body is not JSON, which the route swallows.
   */
  function IssueUploadUrl(admin: bool, env: Env, body: JsValue): Result<UploadGrant, HttpError> {
    if !admin then Err(Unauthorized)
    else if BlobToken(env) == "" then Err(ServerError(MISSING_TOKEN_MESSAGE))
    else
      var name := OriginalName(body);
      if name == "" then Err(BadRequest(NAME_REQUIRED))
      else Ok(UploadGrant(UPLOAD_ENDPOINT, BlobToken(env), SafeName(name), ContentType(body)))
  }

  /**
   * The token is checked before the body is read; an empty name is a 400;
   * the granted file name holds only allowed characters and is no longer
   * than the trimmed name.  The fallbacks of the name and of the content
   * type are stated by OriginalNameSpec and ContentTypeSpec.
   */
  lemma IssueUploadUrlSpec(admin: bool, env: Env, body: JsValue)
    ensures !admin ==> IssueUploadUrl(admin, env, body) == Err(Unauthorized)
    ensures admin && BlobToken(env) == "" ==> IssueUploadUrl(admin, env, body) == Err(ServerError(MISSING_TOKEN_MESSAGE))
    ensures admin && BlobToken(env) != "" && OriginalName(body) == "" ==>
      IssueUploadUrl(admin, env, body) == Err(BadRequest(NAME_REQUIRED))
    ensures IssueUploadUrl(admin, env, body).Ok? <==> admin && BlobToken(env) != "" && OriginalName(body) != ""
    ensures IssueUploadUrl(admin, env, body).Ok? ==>
      var g := IssueUploadUrl(admin, env, body).value;
      && g.token == BlobToken(env)
      && AllSafe(g.fileName)
      && 0 < |g.fileName| <= |OriginalName(body)|
      && g.fileName == SafeName(OriginalName(body))
      && g.contentType == ContentType(body)
  {
  }

  /**
   * The name is a truthy `originalName`, else a truthy `name`, stringified
   * and trimmed; a body with neither gives the empty name the route refuses.
   */
  lemma OriginalNameSpec(body: JsValue)
    ensures Truthy(Prop(body, "originalName")) ==> OriginalName(body) == Trim(ToStr(Prop(body, "originalName")))
    ensures !Truthy(Prop(body, "originalName")) && Truthy(Prop(body, "name")) ==>
      OriginalName(body) == Trim(ToStr(Prop(body, "name")))
    ensures !Truthy(Prop(body, "originalName")) && !Truthy(Prop(body, "name")) ==> OriginalName(body) == ""
  {
  }

  /**
   * The granted content type is never empty: a truthy `contentType` is
   * used (a non-empty string as it is), otherwise a truthy `type`, and a
   * body that names neither field gets application/octet-stream.
   */
  lemma ContentTypeSpec(body: JsValue)
    ensures ContentType(body) != ""
    ensures Truthy(Prop(body, "contentType")) ==> ContentType(body) == ToStr(Prop(body, "contentType"))
    ensures !Truthy(Prop(body, "contentType")) && Truthy(Prop(body, "type")) ==>
      ContentType(body) == ToStr(Prop(body, "type"))
    ensures forall c :: Prop(body, "contentType") == Str(c) && c != "" ==> ContentType(body) == c
    ensures !Truthy(Prop(body, "contentType")) && !Truthy(Prop(body, "type")) ==> ContentType(body) == OCTET_STREAM
  {
    DefaultedTextNonEmpty(Or(Prop(body, "contentType"), Prop(body, "type")), OCTET_STREAM);
  }
}

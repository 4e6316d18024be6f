/**
 * The password-aware request handler (`server/src/index.tsx`): uploads arrive
 * as multipart forms carrying the file, its content type and an optional
 * password; downloads of a protected file answer with a password prompt page
 * until the `password` query parameter matches.
 */
module PasswordWorker {
  import opened Common
  import Text
  import opened Kv
  import opened Http
  import PlainWorker

  datatype Decision = Grant | Challenge

  /**
   * The access gate: a file whose metadata holds a non-empty password is
   * served only to a request whose `password` parameter is exactly that
   * string; any other file is served to everyone.
   */
  function Authorize(metadata: Option<Metadata>, supplied: Option<string>): (d: Decision)
    ensures !(metadata.Some? && Truthy(metadata.value.password)) ==> d == Grant
    ensures metadata.Some? && Truthy(metadata.value.password) ==>
      (d == Grant <==> supplied == metadata.value.password)
  {
    match metadata
    case Some(Metadata(_, Some(stored))) =>
      if stored != "" && supplied != Some(stored) then Challenge else Grant
    case _ => Grant
  }

  /** The `GET /upload` branch, after the favicon and preflight checks. */
  function Download(req: Request, entries: Entries, now: int): Response {
    if !Truthy(req.id) then Response(400, CorsHeaders, JsonError(IdRequired))
    else match Lookup(entries, req.id.value, now)
      case None => Response(404, map[], JsonError(FileNotFound))
      case Some(file) =>
        if Authorize(file.metadata, req.password) == Challenge
        then Response(200, Typed("text/html"), PasswordPrompt)
        else Response(200, Typed(ServedContentType(file.metadata)), Bytes(file.value))
  }

  /** The `POST /upload` branch: throws unless the body is a form with a `file` blob. */
  function Upload(req: Request, entries: Entries, freshId: string, now: int): Step {
    if req.form.None? || req.form.value.file.None? then Step(Threw, entries)
    else
      var form := req.form.value;
      var metadata := Metadata(form.contentType, Some(form.password.GetOr("")));
      Step(Replied(Response(200, CorsHeaders, JsonId(freshId))),
           entries[freshId := Entry(form.file.value, Some(metadata), now + OneMinuteInSeconds)])
  }

  /**
   * `handler.fetch`: the whole decision chain, as the response (or exception)
   * it ends in and the store contents after it. Only an upload writes, and it
   * writes the one key it minted.
   */
  function Fetch(req: Request, entries: Entries, freshId: string, now: int): (s: Step)
    ensures s.entries == entries
      || (IsUpload(req) && freshId in s.entries && s.entries == entries[freshId := s.entries[freshId]])
    ensures s.outcome.Threw? ==> IsUpload(req) && s.entries == entries
  {
    if Text.Includes(req.path, FaviconName) then Step(Replied(Response(204, map[], Empty)), entries)
    else if req.verb == "OPTIONS" then Step(Replied(Response(204, CorsHeaders, Empty)), entries)
    else if req.path == UploadPath && req.verb == "GET" then Step(Replied(Download(req, entries, now)), entries)
    else if req.path == UploadPath && req.verb == "POST" then Upload(req, entries, freshId, now)
    else Step(Replied(Response(404, CorsHeaders, JsonError(NotFound))), entries)
  }

  /** The handler run against the store: an early-return chain of checks. */
  method Handle(store: Store, req: Request, freshId: string, now: int) returns (out: Outcome)
    modifies store
    ensures Step(out, store.entries) == Fetch(req, old(store.entries), freshId, now)
  {
    var headers: map<string, string> := map[];
    if Text.Includes(req.path, FaviconName) {
      return Replied(Response(204, map[], Empty));
    }
    headers := headers[AllowOrigin := "*"];
    headers := headers[AllowMethods := "GET, POST, OPTIONS"];
    headers := headers[AllowHeaders := "Content-Type"];
    if req.verb == "OPTIONS" {
      return Replied(Response(204, headers, Empty));
    }
    if req.path == UploadPath {
      if req.verb == "GET" {
        var id, password := req.id, req.password;
        if !Truthy(id) {
          return Replied(Response(400, headers, JsonError(IdRequired)));
        }
        var file := store.GetWithMetadata(id.value, now);
        if file.None? {
          return Replied(Response(404, map[], JsonError(FileNotFound)));
        }
        if Authorize(file.value.metadata, password) == Challenge {
          return Replied(Response(200, Typed("text/html"), PasswordPrompt));
        }
        var contentType := ServedContentType(file.value.metadata);
        return Replied(Response(200, Typed(contentType), Bytes(file.value.value)));
      }
      if req.verb == "POST" {
        var id := freshId;
        if req.form.None? {
          return Threw;
        }
        var form := req.form.value;
        var contentType := form.contentType;
        if form.file.None? {
          return Threw;
        }
        var metadata := Metadata(contentType, Some(form.password.GetOr("")));
        store.Put(id, form.file.value, Some(metadata), OneMinuteInSeconds, now);
        return Replied(Response(200, headers, JsonId(id)));
      }
    }
    return Replied(Response(404, headers, JsonError(NotFound)));
  }

  // ---------------------------------------------------------------------------
  // Dispatch order and the responses of each branch
  // ---------------------------------------------------------------------------

  /**
   * A path with `favicon.ico` anywhere in it gets 204, no body, no CORS
   * headers, whatever the method and the rest of the request.
   */
  lemma FaviconShortCircuits(req: Request, entries: Entries, freshId: string, now: int, at: int)
    requires Text.OccursAt(req.path, FaviconName, at)
    ensures Fetch(req, entries, freshId, now) == Step(Replied(Response(204, map[], Empty)), entries)
  {
    Text.IncludesIff(req.path, FaviconName);
  }

  /** Any other OPTIONS request gets 204 with the three CORS headers and no store change. */
  lemma PreflightAnswered(req: Request, entries: Entries, freshId: string, now: int)
    requires !Text.Mentions(req.path, FaviconName) && req.verb == "OPTIONS"
    ensures Fetch(req, entries, freshId, now) == Step(Replied(Response(204, CorsHeaders, Empty)), entries)
  {
    Text.IncludesIff(req.path, FaviconName);
  }

  /** Favicon requests, preflights, downloads and unmatched requests leave the store as it was. */
  lemma OnlyUploadsWrite(req: Request, entries: Entries, freshId: string, now: int)
    requires !IsUpload(req)
    ensures Fetch(req, entries, freshId, now).entries == entries
  {
  }

  /**
   * `GET /upload` without a usable `id` is a 400 with CORS headers, the same
   * for every store: the store is not consulted.
   */
  lemma MissingIdRejected(req: Request, entries: Entries, freshId: string, now: int)
    requires req.verb == "GET" && req.path == UploadPath && !Truthy(req.id)
    ensures Fetch(req, entries, freshId, now)
      == Step(Replied(Response(400, CorsHeaders, JsonError(IdRequired))), entries)
  {
  }

  /** An id with no live entry is a 404 `File not found` without CORS headers. */
  lemma UnknownIdNotFound(req: Request, entries: Entries, freshId: string, now: int)
    requires req.verb == "GET" && req.path == UploadPath && Truthy(req.id)
    requires Lookup(entries, req.id.value, now).None?
    ensures Fetch(req, entries, freshId, now)
      == Step(Replied(Response(404, map[], JsonError(FileNotFound))), entries)
  {
  }

  /**
   * A live file with a non-empty password and a request whose `password`
   * parameter is missing or different gets the prompt page, never the bytes.
   */
  lemma WrongPasswordChallenged(req: Request, entries: Entries, freshId: string, now: int)
    requires req.verb == "GET" && req.path == UploadPath && Truthy(req.id)
    requires Lookup(entries, req.id.value, now).Some?
    requires var m := Lookup(entries, req.id.value, now).value.metadata;
      m.Some? && Truthy(m.value.password) && req.password != m.value.password
    ensures Fetch(req, entries, freshId, now)
      == Step(Replied(Response(200, Typed("text/html"), PasswordPrompt)), entries)
  {
  }

  /**
   * A live file that is unprotected, or whose password the request supplies,
   * is served as its bytes, typed with the stored content type or the
   * generic binary type.
   */
  lemma GrantedServesBytes(req: Request, entries: Entries, freshId: string, now: int)
    requires req.verb == "GET" && req.path == UploadPath && Truthy(req.id)
    requires Lookup(entries, req.id.value, now).Some?
    requires var m := Lookup(entries, req.id.value, now).value.metadata;
      !(m.Some? && Truthy(m.value.password)) || req.password == m.value.password
    ensures var file := Lookup(entries, req.id.value, now).value;
      Fetch(req, entries, freshId, now)
        == Step(Replied(Response(200, Typed(ServedContentType(file.metadata)), Bytes(file.value))), entries)
  {
  }

  /**
   * Access control, from the other side: whenever a response carries file
   * bytes, they are the bytes of the live entry the request named, and the
   * request supplied that entry's password if it has one.
   */
  lemma BytesOnlyWhenGranted(req: Request, entries: Entries, freshId: string, now: int)
    requires Fetch(req, entries, freshId, now).outcome.Replied?
    requires Fetch(req, entries, freshId, now).outcome.response.body.Bytes?
    ensures req.verb == "GET" && req.path == UploadPath && Truthy(req.id)
    ensures Lookup(entries, req.id.value, now).Some?
    ensures var file := Lookup(entries, req.id.value, now).value;
      && Fetch(req, entries, freshId, now).outcome.response.body.content == file.value
      && (file.metadata.Some? && Truthy(file.metadata.value.password) ==> req.password == file.metadata.value.password)
  {
  }

  /**
   * An upload with a `file` blob stores it under the minted id with the form's
   * content type, the form's password or `''`, and a sixty-second TTL, and
   * answers `{ id }` with CORS headers.
   */
  lemma UploadStores(req: Request, entries: Entries, freshId: string, now: int)
    requires IsUpload(req) && req.form.Some? && req.form.value.file.Some?
    ensures var form := req.form.value;
      var password := if form.password.Some? then form.password.value else "";
      Fetch(req, entries, freshId, now)
        == Step(Replied(Response(200, CorsHeaders, JsonId(freshId))),
                entries[freshId := Entry(form.file.value, Some(Metadata(form.contentType, Some(password))), now + 60)])
  {
  }

  /** An upload whose body is not a form, or has no `file` blob, throws and stores nothing. */
  lemma UploadWithoutFileThrows(req: Request, entries: Entries, freshId: string, now: int)
    requires IsUpload(req) && (req.form.None? || req.form.value.file.None?)
    ensures Fetch(req, entries, freshId, now) == Step(Threw, entries)
  {
  }

  /**
   * Every other method on `/upload`, and every other path, is a 404
   * `Not found` with CORS headers and no store change.
   */
  lemma UnmatchedNotFound(req: Request, entries: Entries, freshId: string, now: int)
    requires !Text.Mentions(req.path, FaviconName) && req.verb != "OPTIONS"
    requires req.path != UploadPath || (req.verb != "GET" && req.verb != "POST")
    ensures Fetch(req, entries, freshId, now)
      == Step(Replied(Response(404, CorsHeaders, JsonError(NotFound))), entries)
  {
    Text.IncludesIff(req.path, FaviconName);
  }

  // ---------------------------------------------------------------------------
  // Round trips
  // ---------------------------------------------------------------------------

  /** The download the uploader of `form` expects to succeed: right id, right password, in time. */
  predicate RetrievesUpload(get: Request, form: FormData, freshId: string)
  {
    && get.verb == "GET" && get.path == UploadPath && get.id == Some(freshId)
    && (!Truthy(form.password) || get.password == form.password)
  }

  /**
   * Upload then download: within the TTL, a GET of the minted id with the
   * upload's password returns the identical bytes, typed with the form's
   * content type when it is non-empty and the generic binary type otherwise.
   */
  lemma RoundTrip(up: Request, get: Request, entries: Entries, freshId: string, otherId: string, t0: int, t1: int)
    requires IsUpload(up) && up.form.Some? && up.form.value.file.Some?
    requires freshId != "" && RetrievesUpload(get, up.form.value, freshId)
    requires t0 <= t1 <= t0 + OneMinuteInSeconds
    ensures var form := up.form.value;
      var stored := Fetch(up, entries, freshId, t0).entries;
      var contentType := if Truthy(form.contentType) then form.contentType.value else OctetStream;
      Fetch(get, stored, otherId, t1).outcome == Replied(Response(200, Typed(contentType), Bytes(form.file.value)))
  {
  }

  /**
   * Same upload, the download arrives without the password or with a wrong
   * one: the prompt page, not the file.
   */
  lemma ProtectedUploadChallenges(up: Request, get: Request, entries: Entries, freshId: string, otherId: string, t0: int, t1: int)
    requires IsUpload(up) && up.form.Some? && up.form.value.file.Some?
    requires Truthy(up.form.value.password)
    requires freshId != "" && get.verb == "GET" && get.path == UploadPath && get.id == Some(freshId)
    requires get.password != up.form.value.password
    requires t0 <= t1 <= t0 + OneMinuteInSeconds
    ensures Fetch(get, Fetch(up, entries, freshId, t0).entries, otherId, t1).outcome
      == Replied(Response(200, Typed("text/html"), PasswordPrompt))
  {
  }

  /** After the TTL, a GET of the uploaded id is 404 `File not found`, with no headers. */
  lemma UploadExpires(up: Request, get: Request, entries: Entries, freshId: string, otherId: string, t0: int, t1: int)
    requires IsUpload(up) && up.form.Some? && up.form.value.file.Some?
    requires freshId != "" && get.verb == "GET" && get.path == UploadPath && get.id == Some(freshId)
    requires t1 > t0 + OneMinuteInSeconds
    ensures Fetch(get, Fetch(up, entries, freshId, t0).entries, otherId, t1).outcome
      == Replied(Response(404, map[], JsonError(FileNotFound)))
  {
  }

  // ---------------------------------------------------------------------------
  // Sequences of requests
  // ---------------------------------------------------------------------------

  /** The store after handling `calls` one after another. */
  function Replay(calls: seq<Call>, entries: Entries): Entries
    decreases |calls|
  {
    if calls == [] then entries
    else Replay(calls[1..], Fetch(calls[0].req, entries, calls[0].freshId, calls[0].now).entries)
  }

  /**
   * A stored record never changes: across any requests that do not mint its
   * id again, the entry under `key` stays exactly as it was (or absent).
   */
  lemma {:induction false} RecordStable(calls: seq<Call>, entries: Entries, key: string)
    requires forall j :: 0 <= j < |calls| ==> calls[j].freshId != key
    ensures key in Replay(calls, entries) <==> key in entries
    ensures key in entries ==> Replay(calls, entries)[key] == entries[key]
    decreases |calls|
  {
    if calls != [] {
      var next := Fetch(calls[0].req, entries, calls[0].freshId, calls[0].now).entries;
      assert forall j :: 0 <= j < |calls[1..]| ==> calls[1..][j].freshId == calls[j + 1].freshId;
      RecordStable(calls[1..], next, key);
    }
  }

  /**
   * The round trip survives traffic: after an upload, any sequence of other
   * requests that mint different ids, then a GET of the upload's id with its
   * password within the TTL, returns the uploaded bytes.
   */
  lemma RoundTripAfterTraffic(up: Request, calls: seq<Call>, get: Request, entries: Entries,
                              freshId: string, otherId: string, t0: int, t1: int)
    requires IsUpload(up) && up.form.Some? && up.form.value.file.Some?
    requires forall j :: 0 <= j < |calls| ==> calls[j].freshId != freshId
    requires freshId != "" && RetrievesUpload(get, up.form.value, freshId)
    requires t0 <= t1 <= t0 + OneMinuteInSeconds
    ensures var form := up.form.value;
      var contentType := if Truthy(form.contentType) then form.contentType.value else OctetStream;
      Fetch(get, Replay(calls, Fetch(up, entries, freshId, t0).entries), otherId, t1).outcome
        == Replied(Response(200, Typed(contentType), Bytes(form.file.value)))
  {
    var form := up.form.value;
    var entry := Entry(form.file.value, Some(Metadata(form.contentType, Some(form.password.GetOr("")))), t0 + 60);
    var stored := Fetch(up, entries, freshId, t0).entries;
    UploadStores(up, entries, freshId, t0);
    assert freshId in stored && stored[freshId] == entry;
    var after := Replay(calls, stored);
    RecordStable(calls, stored, freshId);
    assert Lookup(after, freshId, t1) == Some(entry);
    GrantedServesBytes(get, after, otherId, t1);
  }

  // ---------------------------------------------------------------------------
  // The two versions over one store
  // ---------------------------------------------------------------------------

  /**
   * A file uploaded through the earlier handler carries no password in its
   * metadata, so this handler serves it to any request, with or without a
   * `password` parameter, exactly as the earlier handler would.
   */
  lemma EarlierUploadsArePublic(up: Request, get: Request, entries: Entries, freshId: string, otherId: string, t0: int, t1: int)
    requires IsUpload(up)
    requires freshId != "" && get.verb == "GET" && get.path == UploadPath && get.id == Some(freshId)
    requires t0 <= t1 <= t0 + OneMinuteInSeconds
    ensures var stored := PlainWorker.Fetch(up, entries, freshId, t0).entries;
      Fetch(get, stored, otherId, t1) == PlainWorker.Fetch(get, stored, otherId, t1)
    ensures PlainWorker.Fetch(get, PlainWorker.Fetch(up, entries, freshId, t0).entries, otherId, t1).outcome.response.body
      == Bytes(up.body)
  {
    PlainWorker.RoundTrip(up, get, entries, freshId, otherId, t0, t1);
  }
}

/**
 * The earlier request handler (`server/src/index.ts`): an upload stores the
 * raw request body, typed by the request's `content-type` header, and a
 * download serves any live file to anyone who names its id.
 */
module PlainWorker {
  import opened Common
  import Text
  import opened Kv
  import opened Http

  /** The `GET /upload` branch: no credential check. */
  function Download(req: Request, entries: Entries, now: int): Response {
    if !Truthy(req.id) then Response(400, CorsHeaders, JsonError(IdRequired))
    else match Lookup(entries, req.id.value, now)
      case None => Response(404, map[], JsonError(FileNotFound))
      case Some(file) => Response(200, Typed(ServedContentType(file.metadata)), Bytes(file.value))
  }

  /** The `POST /upload` branch: the whole body, typed by the request header, for sixty seconds. */
  function Upload(req: Request, entries: Entries, freshId: string, now: int): Step {
    Step(Replied(Response(200, CorsHeaders, JsonId(freshId))),
         entries[freshId := Entry(req.body, Some(Metadata(req.contentType, None)), now + OneMinuteInSeconds)])
  }

  /**
   * The default-export `fetch`: the response it returns and the store contents
   * after it. It never throws, and only an upload writes, to the key it minted.
   */
  function Fetch(req: Request, entries: Entries, freshId: string, now: int): (s: Step)
    ensures s.outcome.Replied?
    ensures s.entries == entries
      || (IsUpload(req) && freshId in s.entries && s.entries == entries[freshId := s.entries[freshId]])
  {
    if Text.Includes(req.path, FaviconName) then Step(Replied(Response(204, map[], Empty)), entries)
    else if req.verb == "OPTIONS" then Step(Replied(Response(204, CorsHeaders, Empty)), entries)
    else if req.path == UploadPath && req.verb == "GET" then Step(Replied(Download(req, entries, now)), entries)
    else if req.path == UploadPath && req.verb == "POST" then Upload(req, entries, freshId, now)
    else Step(Replied(Response(404, CorsHeaders, JsonError(NotFound))), entries)
  }

  /** The handler run against the store: an early-return chain of checks. */
  method Handle(store: Store, req: Request, freshId: string, now: int) returns (response: Response)
    modifies store
    ensures Step(Replied(response), store.entries) == Fetch(req, old(store.entries), freshId, now)
  {
    var headers: map<string, string> := map[];
    if Text.Includes(req.path, FaviconName) {
      return Response(204, map[], Empty);
    }
    headers := headers[AllowOrigin := "*"];
    headers := headers[AllowMethods := "GET, POST, OPTIONS"];
    headers := headers[AllowHeaders := "Content-Type"];
    if req.verb == "OPTIONS" {
      return Response(204, headers, Empty);
    }
    if req.path == UploadPath {
      if req.verb == "GET" {
        var id := req.id;
        if !Truthy(id) {
          return Response(400, headers, JsonError(IdRequired));
        }
        var file := store.GetWithMetadata(id.value, now);
        if file.None? {
          return Response(404, map[], JsonError(FileNotFound));
        }
        var contentType := ServedContentType(file.value.metadata);
        return Response(200, Typed(contentType), Bytes(file.value.value));
      }
      if req.verb == "POST" {
        var id := freshId;
        var body := req.body;
        var contentType := req.contentType;
        store.Put(id, body, Some(Metadata(contentType, None)), OneMinuteInSeconds, now);
        return Response(200, headers, JsonId(id));
      }
    }
    return Response(404, headers, JsonError(NotFound));
  }

  // ---------------------------------------------------------------------------
  // Dispatch order and the responses of each branch
  // ---------------------------------------------------------------------------

  /**
   * A path with `favicon.ico` anywhere in it gets 204, no body, no CORS
   * headers, before any other check.
   */
  lemma FaviconShortCircuits(req: Request, entries: Entries, freshId: string, now: int, at: int)
    requires Text.OccursAt(req.path, FaviconName, at)
    ensures Fetch(req, entries, freshId, now) == Step(Replied(Response(204, map[], Empty)), entries)
  {
    Text.IncludesIff(req.path, FaviconName);
  }

  /** Any other OPTIONS request gets 204 with the three CORS headers and no store change. */
  lemma PreflightAnswered(req: Request, entries: Entries, freshId: string, now: int)
    requires !Text.Mentions(req.path, FaviconName) && req.verb == "OPTIONS"
    ensures Fetch(req, entries, freshId, now) == Step(Replied(Response(204, CorsHeaders, Empty)), entries)
  {
    Text.IncludesIff(req.path, FaviconName);
  }

  /** Favicon requests, preflights, downloads and unmatched requests leave the store as it was. */
  lemma OnlyUploadsWrite(req: Request, entries: Entries, freshId: string, now: int)
    requires !IsUpload(req)
    ensures Fetch(req, entries, freshId, now).entries == entries
  {
  }

  /** `GET /upload` without a usable `id` is a 400 with CORS headers, whatever the store holds. */
  lemma MissingIdRejected(req: Request, entries: Entries, freshId: string, now: int)
    requires req.verb == "GET" && req.path == UploadPath && !Truthy(req.id)
    ensures Fetch(req, entries, freshId, now)
      == Step(Replied(Response(400, CorsHeaders, JsonError(IdRequired))), entries)
  {
  }

  /** An absent or expired id is a 404 `File not found` without CORS headers. */
  lemma UnknownIdNotFound(req: Request, entries: Entries, freshId: string, now: int)
    requires req.verb == "GET" && req.path == UploadPath && Truthy(req.id)
    requires Lookup(entries, req.id.value, now).None?
    ensures Fetch(req, entries, freshId, now)
      == Step(Replied(Response(404, map[], JsonError(FileNotFound))), entries)
  {
  }

  /**
   * Any live file is served to whoever names it: its bytes, typed with the
   * stored content type or the generic binary type.
   */
  lemma LiveFileServed(req: Request, entries: Entries, freshId: string, now: int)
    requires req.verb == "GET" && req.path == UploadPath && Truthy(req.id)
    requires Lookup(entries, req.id.value, now).Some?
    ensures var file := Lookup(entries, req.id.value, now).value;
      Fetch(req, entries, freshId, now)
        == Step(Replied(Response(200, Typed(ServedContentType(file.metadata)), Bytes(file.value))), entries)
  {
  }

  /** There is no credential check: the `password` parameter never changes the outcome. */
  lemma PasswordIgnored(req: Request, supplied: Option<string>, entries: Entries, freshId: string, now: int)
    ensures Fetch(req.(password := supplied), entries, freshId, now) == Fetch(req, entries, freshId, now)
  {
  }

  /**
   * An upload stores the whole raw body under the minted id, with the
   * `content-type` header as metadata and a sixty-second TTL, and answers
   * `{ id }` with CORS headers.
   */
  lemma UploadStores(req: Request, entries: Entries, freshId: string, now: int)
    requires IsUpload(req)
    ensures Fetch(req, entries, freshId, now)
      == Step(Replied(Response(200, CorsHeaders, JsonId(freshId))),
              entries[freshId := Entry(req.body, Some(Metadata(req.contentType, None)), now + 60)])
  {
  }

  /**
   * Every other method on `/upload`, and every other path, is a 404
   * `Not found` with CORS headers and no store change.
   */
  lemma UnmatchedNotFound(req: Request, entries: Entries, freshId: string, now: int)
    requires !Text.Mentions(req.path, FaviconName) && req.verb != "OPTIONS"
    requires req.path != UploadPath || (req.verb != "GET" && req.verb != "POST")
    ensures Fetch(req, entries, freshId, now)
      == Step(Replied(Response(404, CorsHeaders, JsonError(NotFound))), entries)
  {
    Text.IncludesIff(req.path, FaviconName);
  }

  // ---------------------------------------------------------------------------
  // Round trips
  // ---------------------------------------------------------------------------

  /**
   * Upload then download: within the TTL, a GET of the minted id returns the
   * identical body, typed with the upload's `content-type` header when it was
   * non-empty and the generic binary type otherwise.
   */
  lemma RoundTrip(up: Request, get: Request, entries: Entries, freshId: string, otherId: string, t0: int, t1: int)
    requires IsUpload(up)
    requires freshId != "" && get.verb == "GET" && get.path == UploadPath && get.id == Some(freshId)
    requires t0 <= t1 <= t0 + OneMinuteInSeconds
    ensures var contentType := if Truthy(up.contentType) then up.contentType.value else OctetStream;
      Fetch(get, Fetch(up, entries, freshId, t0).entries, otherId, t1).outcome
        == Replied(Response(200, Typed(contentType), Bytes(up.body)))
  {
  }

  /** After the TTL, a GET of the uploaded id is 404 `File not found`, with no headers. */
  lemma UploadExpires(up: Request, get: Request, entries: Entries, freshId: string, otherId: string, t0: int, t1: int)
    requires IsUpload(up)
    requires freshId != "" && get.verb == "GET" && get.path == UploadPath && get.id == Some(freshId)
    requires t1 > t0 + OneMinuteInSeconds
    ensures Fetch(get, Fetch(up, entries, freshId, t0).entries, otherId, t1).outcome
      == Replied(Response(404, map[], JsonError(FileNotFound)))
  {
  }

  // ---------------------------------------------------------------------------
  // Sequences of requests
  // ---------------------------------------------------------------------------

  /** The store after handling `calls` one after another. */
  function Replay(calls: seq<Call>, entries: Entries): Entries
    decreases |calls|
  {
    if calls == [] then entries
    else Replay(calls[1..], Fetch(calls[0].req, entries, calls[0].freshId, calls[0].now).entries)
  }

  /**
   * A stored record never changes: across any requests that do not mint its
   * id again, the entry under `key` stays exactly as it was (or absent).
   */
  lemma {:induction false} RecordStable(calls: seq<Call>, entries: Entries, key: string)
    requires forall j :: 0 <= j < |calls| ==> calls[j].freshId != key
    ensures key in Replay(calls, entries) <==> key in entries
    ensures key in entries ==> Replay(calls, entries)[key] == entries[key]
    decreases |calls|
  {
    if calls != [] {
      var next := Fetch(calls[0].req, entries, calls[0].freshId, calls[0].now).entries;
      assert forall j :: 0 <= j < |calls[1..]| ==> calls[1..][j].freshId == calls[j + 1].freshId;
      RecordStable(calls[1..], next, key);
    }
  }

  /**
   * The round trip survives traffic: after an upload, any requests that mint
   * different ids, then a GET of the upload's id within the TTL, returns the
   * uploaded body.
   */
  lemma RoundTripAfterTraffic(up: Request, calls: seq<Call>, get: Request, entries: Entries,
                              freshId: string, otherId: string, t0: int, t1: int)
    requires IsUpload(up)
    requires forall j :: 0 <= j < |calls| ==> calls[j].freshId != freshId
    requires freshId != "" && get.verb == "GET" && get.path == UploadPath && get.id == Some(freshId)
    requires t0 <= t1 <= t0 + OneMinuteInSeconds
    ensures var contentType := if Truthy(up.contentType) then up.contentType.value else OctetStream;
      Fetch(get, Replay(calls, Fetch(up, entries, freshId, t0).entries), otherId, t1).outcome
        == Replied(Response(200, Typed(contentType), Bytes(up.body)))
  {
    var entry := Entry(up.body, Some(Metadata(up.contentType, None)), t0 + 60);
    var stored := Fetch(up, entries, freshId, t0).entries;
    UploadStores(up, entries, freshId, t0);
    assert freshId in stored && stored[freshId] == entry;
    var after := Replay(calls, stored);
    RecordStable(calls, stored, freshId);
    assert Lookup(after, freshId, t1) == Some(entry);
    assert ServedContentType(entry.metadata) == if Truthy(up.contentType) then up.contentType.value else OctetStream;
    LiveFileServed(get, after, otherId, t1);
  }
}

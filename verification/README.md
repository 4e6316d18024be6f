# file-uploader worker, modelled in Dafny

This project models the Cloudflare Worker behind an ephemeral, anonymous file
drop. A client uploads a file to `POST /upload` and gets back a fresh id. Anyone
holding that id can fetch the file from `GET /upload?id=…` for sixty seconds,
until the key-value store's TTL expires it. The handler exists in two versions
that share one key-value namespace:

- `server/src/index.tsx` takes a multipart form with the file, its content type
  and an optional password. It answers a download of a protected file with a
  password prompt page until the `password` query parameter matches.
- `server/src/index.ts` is the earlier version. It stores the raw request body,
  typed by the request's `content-type` header, and serves any live file to
  anyone.

Files:

- `common.dfy` (`Common`): `Option`, `byte`, and JavaScript truthiness of a `string | null`.
- `text.dfy` (`Text`): `String.prototype.includes` as a left-to-right scan (`Includes`), checked against a
  reference definition: `sub` occurs at some index (`Mentions`).
- `kv.dfy` (`Kv`): the namespace `env.uploads` as a `Store` class. It holds one map from key to
  entry (bytes, metadata, expiry instant). `Put` has replace semantics. `GetWithMetadata`
  returns nothing once the entry has expired.
- `http.dfy` (`Http`): requests, responses (status, header map, body variant), the outcome of one
  invocation (a response, or an uncaught exception), the CORS headers, the endpoint constants, and
  the content-type default that both versions use.
- `password_worker.dfy` (`PasswordWorker`): the `index.tsx` handler.
- `plain_worker.dfy` (`PlainWorker`): the `index.ts` handler.

Each handler has two parts:

- `Fetch` is a pure function. It gives the whole decision chain as the outcome, together with the
  store contents afterwards.
- `Handle` is a method. It runs the same early-return chain against a `Kv.Store`. It builds the CORS
  headers with successive updates, reads through `GetWithMetadata` and writes through `Put`. Its
  postcondition ties the outcome and the new store contents to `Fetch`.

The lemmas about `Fetch` state each branch and its ordering. They also cover the access gate, the
round trips and what happens over a sequence of requests (`Replay`).

Modelling conventions:

- Time is an explicit parameter `now`, in seconds. A put at `now` with `expirationTtl` 60 expires at
  `now + 60`. The entry stays visible up to and including that instant and is absent after it.
  This is the store's contract as the handlers rely on it; the code itself only passes the TTL.
- The id that `crypto.randomUUID()` would mint is a parameter, `freshId`.
- The `id` and `password` query parameters are taken as already decoded. Each is `None` when absent.
- Response headers are a map, with header names kept as the source writes them.
- `Response.json`'s implicit `application/json` type is implied by the `JsonId` and `JsonError`
  bodies.
- A `PasswordPrompt` body stands for the HTML page.

Behaviour of the code that the model keeps as it is:

- The 404 `File not found` response, the favicon 204 and the password prompt page carry no CORS headers.
- A failing `put` or `getWithMetadata` throws; there is no store-unavailable path.
- The code stores `''` for no password, so an empty or missing password field means unprotected. So
  does a record whose metadata has no password field at all, which is what `index.ts` writes.
- An empty `ArrayBuffer` is truthy, so an empty stored file is served.
- The TTL is the fixed constant `ONE_MINUTE_IN_SECONDS`.

## Model

| member | source | states |
|---|---|---|
| Text.IncludesIff | server/src/index.tsx:29 | the `includes` scan used for the favicon check is true exactly when the substring occurs at some index of the path |
| Http.ServedContentType | server/src/index.tsx:77-78 | the served type is never empty: it is the stored content type when that is present and non-empty, and `application/octet-stream` otherwise |
| Kv.Store.Put | server/src/index.tsx:94-100 | the new contents are the old map with the key set to the given bytes and metadata, expiring TTL seconds from now; there is no freshness check |
| Kv.Store.GetWithMetadata | server/src/index.tsx:55-58 | returns an entry exactly when the key is stored and not yet expired, and then it is the stored entry |
| Kv.PutThenGet | server/src/index.tsx:94-95 | after a put, the key yields exactly what was put until the TTL runs out and is absent afterwards; other keys read as before |
| Kv.ExpiredIsAbsent | server/src/index.tsx:60-65 | an expired entry is indistinguishable from one never stored, for every lookup |
| PasswordWorker.Authorize | server/src/index.tsx:67-75 | a file whose metadata has a non-empty password is granted only when the supplied parameter equals it exactly; every other file is granted to everyone |
| PasswordWorker.Fetch | server/src/index.tsx:26-111 | only `POST /upload` can change the store, and only the minted key; an exception happens only on such an upload and leaves the store unchanged |
| PasswordWorker.Handle | server/src/index.tsx:21-112 | the response or exception and the new store contents are those of `Fetch` on the old contents |
| PasswordWorker.FaviconShortCircuits | server/src/index.tsx:29-31 | any path with `favicon.ico` at any index gets 204, empty body, no headers, store unchanged, whatever the method |
| PasswordWorker.PreflightAnswered | server/src/index.tsx:33-40 | OPTIONS on any other path gets 204, empty body, the three CORS headers, store unchanged |
| PasswordWorker.OnlyUploadsWrite | server/src/index.tsx:29-85 | favicon requests, OPTIONS, GET and unmatched requests leave the store unchanged |
| PasswordWorker.MissingIdRejected | server/src/index.tsx:44-53 | `GET /upload` with `id` absent or empty is 400 `ID is required` with CORS headers, the same for every store |
| PasswordWorker.UnknownIdNotFound | server/src/index.tsx:55-65 | an id with no live entry is 404 `File not found` with no headers |
| PasswordWorker.WrongPasswordChallenged | server/src/index.tsx:67-74 | a live protected file requested without its exact password gets the `text/html` prompt page, not the bytes |
| PasswordWorker.GrantedServesBytes | server/src/index.tsx:67-84 | a live file that is unprotected, or whose password is supplied, is served as its bytes with the stored or default content type |
| PasswordWorker.BytesOnlyWhenGranted | server/src/index.tsx:44-84 | any response carrying file bytes answers a GET of a live id, carries exactly that entry's bytes, and the request supplied the entry's password if it has one |
| PasswordWorker.UploadStores | server/src/index.tsx:88-102 | an upload with a file blob stores it under the minted id with the form's content type, the form's password or `''`, TTL 60, and answers `{id}` with CORS headers |
| PasswordWorker.UploadWithoutFileThrows | server/src/index.tsx:90-94 | an upload whose body is not a form, or has no file blob, throws and stores nothing |
| PasswordWorker.UnmatchedNotFound | server/src/index.tsx:106-111 | any other method on `/upload` and any other path is 404 `Not found` with CORS headers, store unchanged |
| PasswordWorker.RoundTrip | server/src/index.tsx:55-102 | within the TTL, a GET of the minted id with the upload's password returns the identical bytes, typed with the form's content type or the default |
| PasswordWorker.ProtectedUploadChallenges | server/src/index.tsx:67-98 | after an upload with a non-empty password, a GET without that exact password gets the prompt page |
| PasswordWorker.UploadExpires | server/src/index.tsx:94-95 | after the TTL, a GET of the uploaded id is 404 `File not found` with no headers |
| PasswordWorker.RecordStable | server/src/index.tsx:94-100 | across any requests that do not mint a key again, the entry under that key is unchanged, or stays absent |
| PasswordWorker.RoundTripAfterTraffic | server/src/index.tsx:55-102 | the round trip holds after any sequence of requests that mint other ids |
| PasswordWorker.EarlierUploadsArePublic | server/src/index.tsx:67-75 | a file uploaded through the earlier handler has no password, so this handler serves it exactly as the earlier handler does, to any request |
| PlainWorker.Fetch | server/src/index.ts:9-80 | the handler never throws (store rejections are left out); only `POST /upload` can change the store, and only the minted key |
| PlainWorker.Handle | server/src/index.ts:4-81 | the response and the new store contents are those of `Fetch` on the old contents |
| PlainWorker.FaviconShortCircuits | server/src/index.ts:12-14 | any path with `favicon.ico` at any index gets 204, empty body, no headers, before any other check |
| PlainWorker.PreflightAnswered | server/src/index.ts:16-23 | OPTIONS on any other path gets 204 with the three CORS headers, store unchanged |
| PlainWorker.OnlyUploadsWrite | server/src/index.ts:12-56 | favicon requests, OPTIONS, GET and unmatched requests leave the store unchanged |
| PlainWorker.MissingIdRejected | server/src/index.ts:27-35 | `GET /upload` with `id` absent or empty is 400 `ID is required` with CORS headers, whatever the store holds |
| PlainWorker.UnknownIdNotFound | server/src/index.ts:37-46 | an absent or expired id is 404 `File not found` with no headers |
| PlainWorker.LiveFileServed | server/src/index.ts:48-55 | any live file is served as its bytes with the stored or default content type |
| PlainWorker.PasswordIgnored | server/src/index.ts:27-56 | there is no credential check: the `password` parameter never changes the outcome or the store |
| PlainWorker.UploadStores | server/src/index.ts:59-71 | an upload stores the whole raw body under the minted id with the `content-type` header as metadata, TTL 60, and answers `{id}` with CORS headers |
| PlainWorker.UnmatchedNotFound | server/src/index.ts:75-80 | any other method on `/upload` and any other path is 404 `Not found` with CORS headers, store unchanged |
| PlainWorker.RoundTrip | server/src/index.ts:37-71 | within the TTL, a GET of the minted id returns the identical body, typed with the upload's header when it was non-empty and the default otherwise |
| PlainWorker.UploadExpires | server/src/index.ts:64-65 | after the TTL, a GET of the uploaded id is 404 `File not found` with no headers |
| PlainWorker.RecordStable | server/src/index.ts:64-69 | across any requests that do not mint a key again, the entry under that key is unchanged, or stays absent |
| PlainWorker.RoundTripAfterTraffic | server/src/index.ts:37-71 | the round trip holds after any sequence of requests that mint other ids |

## Left out

- `crypto.randomUUID()`: the minted id is a parameter. Its uniqueness is only probabilistic and is never checked against the store, so no lemma claims it. The lemmas that need a fresh id require it explicitly, together with a non-empty id.
- `htmlWithPasswordPrompt`: its markup and its browser script (`window.prompt`, then a redirect with the `password` parameter) run on the client. The page is the opaque `PasswordPrompt` body.
- `async`/`await`, `ExecutionContext`, and the runtime `Request`, `Response`, `Headers` and `URL` objects are I/O plumbing. They become plain datatypes.
- Header names are not case-folded. `Response.json`'s implicit `content-type: application/json` header is not in the header map.
- Multipart parsing: `formData()` is modelled only by its result (`None` when it rejects the body). A form field that is a file where text is expected (`content-type`, `password`) is not modelled. A `file` field that is text is treated like an absent one, since both throw.
- A store `put` or `getWithMetadata` that fails or times out throws in the code. That path is not modelled.
- Workers KV's size limits are not modelled: keys of at most 512 bytes, metadata of at most 1024 bytes of JSON, values of at most 25 MiB. Nor are the exceptions they cause for client-supplied ids, `content-type` headers, form fields and bodies. In the model, an over-long `id` reads as absent (404), and an over-long header, form field or body is stored.
- PlainWorker.Fetch: its "never throws" holds only because the store rejections above are left out.
- The medium's internals: replication delay, eviction, the minimum TTL. Expiry is the assumed contract described above.
- `front/src/App.tsx` is a presentational React page with no logic and is not part of this model.

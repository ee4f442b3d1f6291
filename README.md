# Gainly Avatars — a Dafny model of the avatar service core

Gainly Avatars is an HTTP service that stores user avatars. An image is
uploaded to an S3-compatible object store (Cloudflare R2) under a fresh
guid. Two records go to Redis: the avatar's metadata under `avatar:<guid>`,
and the user's current-avatar mapping under `username:<name>`. Reads turn
the mapping into a presigned URL valid for one hour. Requests are
authenticated by a middleware. It cleans the `Authorization` header into a
token and validates the token with a user-directory service over gRPC-Web,
which uses length-prefixed frames.

The model follows the source's files. `grpc_web_client.go` is split into
framing and client, and the object-store client the coordinator calls is
modelled by its effects only:

- `Avatars` (`avatars.dfy`): the lifecycle coordinator `AvatarService`.
  - It is a class over the two store clients.
  - Its methods make the same sequence of store calls, with the same early
    returns and compensating deletes.
  - Every store call may fail. A shared ghost `Journal` records the order of
    the state-changing calls.
  - `uuid.New()` is a guid that no stored object, key or value mentions yet.
    Such a guid is proved to exist.
- `KeyValue` (`kv_store.dfy`): the Redis adapter `RedisClient`.
  - The database is a `map<string, Value>` that the methods reassign.
  - Each round trip may fail with a transport error, and a failed write
    changes nothing.
  - A ghost log records every mapping read with its answer.
  - `GetGUIDsByUsernames` is a loop with invariants. It returns, as ghost
    output, the answer of every lookup, and the log shows one read per name.
- `BlobStore` (`blob_store.dfy`): the object store (`r2_client.go`) as the
  coordinator uses it. It is a map of objects keyed by `avatars/<guid>`, with fallible
  upload and delete, and with presigned URLs as values. A ghost log records
  every URL signing with its answer.
- `Framing` (`framing.dfy`): the gRPC-Web length-prefixed frame.
  - Encoding is a method that appends to a buffer.
  - Parsing is a function.
  - A second function models the parse as written, with its `uint32`
    arithmetic.
- `GrpcWeb` (`grpc_web_client.dfy`): the gRPC-Web client.
  - Base-URL defaulting, endpoint URLs, request headers and response
    reading.
  - A `GRPCWebClient` class whose ghost fields record the calls made, the
    requests sent and the answers returned.
  - Responses are read with the corrected frame parse (see "## Findings").
- `Auth` (`auth.dfy`): the authentication middleware.
  - Covers the bypass rule, the header clean-up (`strings.ReplaceAll`,
    `strings.TrimSpace` with `unicode.IsSpace`, `Bearer ` stripping), the
    two 401 answers, the validator call and the user stored in the request
    context.
- `Wrappers`, `Bytes`, `Journal` (`common.dfy`): result types, bytes, and
  the journal of store calls.

Two rules of the HTTP layer are kept as the coordinator's boundary.

- A missing upload content type becomes `application/octet-stream`
  (`Avatars.UploadContentType`). `AddAvatar` therefore requires a non-empty
  content type.
- An empty username list is answered with 400 before the service is
  called. `GetAvatarsByUsernames` therefore requires a non-empty list.

## Model

| member | source | states |
|---|---|---|
| `Avatars.AvatarService.AddAvatar` | internal/services/avatar_service.go:26-60 | The guid was fresh before the call. On success the object, the metadata `{guid, username, filename, size, mime type, upload time}` and the mapping are stored, and the journal holds upload, metadata write, mapping write; consistent stores stay consistent. If the upload fails, nothing changes. If the metadata write fails, exactly one object delete follows and the key-value store is unchanged. If the mapping write fails, a metadata delete and then an object delete follow. In both compensated cases each write is either undone or left behind. It makes no mapping read and signs no URL. |
| `Avatars.AddedAvatarResolves` | internal/services/avatar_service.go:36-59 | After a completed add, the user resolves to the new guid and its URL, and the metadata reads back equal. No other user's mapping moves, and every other avatar keeps its object and metadata. |
| `Avatars.OldAvatarNotRetired` | internal/services/avatar_service.go:51-59 | The user's previous guid differs from the new one. It keeps its object and its metadata; only the mapping is overwritten. |
| `Avatars.FailedAddLeavesNoTrace` | internal/services/avatar_service.go:45-57 | After a failed add, every user's mapping is as before, so a previous avatar still resolves. No user resolves to the new guid. Other avatars are untouched. |
| `Avatars.FreshGuidExists` | internal/services/avatar_service.go:28 | Whatever the stores hold, some guid is named by no object key, no metadata key and no stored value. |
| `Avatars.FreshGuidUnused` | internal/services/avatar_service.go:28 | A fresh guid has no metadata, and no user's mapping resolves to it. |
| `Avatars.AvatarService.NewGuid` | internal/services/avatar_service.go:28 | The guid returned is fresh for the current stores. |
| `Avatars.AvatarService.GetAvatarByUsername` | internal/services/avatar_service.go:63-76 | The stores are unchanged. Exactly one mapping read of the user is made. Only when that read found a guid is exactly one URL signed, for that guid, with lifetime 3600. The answer is the read's error, the signing's error or the signed URL. A success is the URL of exactly the mapped guid. A user without a mapping gets "username not found", or a transport error. |
| `Avatars.AvatarService.PresignEach` | internal/services/avatar_service.go:87-94 | The bucket is unchanged. The signing log grows by exactly one signing per mapped user, for that user's guid, with lifetime 3600, in an iteration order that lists every mapped user once. Each answer is the URL of the guid's object or a signing error. The result holds exactly the users whose signing succeeded, each with its URL. |
| `Avatars.SigningsOf` | internal/services/avatar_service.go:87-88 | The signings of a batch: one per user in iteration order, for the user's guid, with lifetime 3600, each with its answer. |
| `Avatars.SigningsOfStep` | internal/services/avatar_service.go:87-88 | Signing one more user that has not been signed yet appends its signing to the log. |
| `Avatars.AvatarService.GetMyAvatar` | internal/services/avatar_service.go:100-102 | The same contract as `GetAvatarByUsername`: one mapping read of the user and at most one signing, of the guid it found. |
| `Avatars.AvatarService.GetAvatarsByUsernames` | internal/services/avatar_service.go:79-97 | The call never fails and the stores are unchanged. The read log grows by exactly one mapping read per listed name, in list order, each with its answer: the stored mapping or a transport error. The signing log then grows by exactly one signing per name whose read succeeded, for its guid, with lifetime 3600, in an iteration order that lists each such name once. Each signing answers the URL of the mapped guid or a signing error. The result holds exactly the names whose signing succeeded, each with that URL. |
| `Avatars.AvatarService.DeleteMyAvatar` | internal/services/avatar_service.go:105-129 | Exactly one mapping read, of the user, is made, and no URL is signed. That read answers the stored mapping or a transport error. The call answers "avatar not found" iff the read failed, and then changes nothing; an unmapped user therefore always gets that answer. A successful read found the guid that is deleted. A failed object delete is reported and leaves metadata and mapping in place. Otherwise the journal holds object, metadata and mapping deletes in that order. The object is gone and the call succeeds, whether or not the two record deletes took effect. Consistent stores stay consistent after a failure, and after a success whose two record deletes both took effect. |
| `Avatars.AddPreservesConsistency` | internal/services/avatar_service.go:26-60 | A completed add keeps the stores consistent: an object exists iff its metadata does, every mapping names an avatar with metadata, and no two users share an avatar. |
| `Avatars.DeletePreservesConsistency` | internal/services/avatar_service.go:105-129 | Deleting a user's object, its metadata and the user's mapping keeps the stores consistent. |
| `Avatars.AvatarURLOf` | internal/services/avatar_service.go:63-76 | The URL a user is promised: present iff the user has a mapping, and then the 3600-second URL of the mapped guid's object. |
| `Avatars.UploadContentType` | internal/handlers/handlers.go:63-66 | The upload's content type if it names one, else `application/octet-stream`. Never empty. |
| `Avatars.AvatarService.constructor` | internal/services/avatar_service.go:18-23 | Wires the two clients to one journal. |
| `KeyValue.UsernameKey` | internal/clients/redis_client.go:39 | A mapping key is `username:` followed by the name. |
| `KeyValue.AvatarKey` | internal/clients/redis_client.go:68 | A metadata key is `avatar:` followed by the guid. |
| `KeyValue.KeySpacesDisjoint` | internal/clients/redis_client.go:87 | No mapping key equals a metadata key. |
| `KeyValue.UsernameKeyInjective` | internal/clients/redis_client.go:52 | Distinct users have distinct mapping keys. |
| `KeyValue.AvatarKeyInjective` | internal/clients/redis_client.go:98 | Distinct guids have distinct metadata keys. |
| `KeyValue.JsonText` | internal/clients/redis_client.go:88 | The JSON text of a record is a brace-delimited object. |
| `KeyValue.AsText` | internal/clients/redis_client.go:40 | A plain string value reads as itself. |
| `KeyValue.LookupGUID` | internal/clients/redis_client.go:41-47 | Fails exactly when the mapping key is absent, and then with "username not found" for that user. |
| `KeyValue.LookupMetadata` | internal/clients/redis_client.go:69-82 | "Not found" exactly when the key is absent. Succeeds exactly when a JSON record is stored there. |
| `KeyValue.SetMappingThenLookup` | internal/clients/redis_client.go:51-54 | After a mapping write, the user resolves to the new guid. Every other user and all metadata read as before. |
| `KeyValue.SetMappingOverwrites` | internal/clients/redis_client.go:51-54 | A second mapping write for a user replaces the first. |
| `KeyValue.SetMetadataThenLookup` | internal/clients/redis_client.go:86-94 | Stored metadata reads back equal under its own guid. Other metadata and all mappings read as before. |
| `KeyValue.DeleteMetadataThenLookup` | internal/clients/redis_client.go:97-100 | After a metadata delete, that guid's metadata is not found; everything else reads as before. |
| `KeyValue.DeleteMappingThenLookup` | internal/clients/redis_client.go:119-122 | After a mapping delete, that user is not found; everything else reads as before. |
| `KeyValue.RedisClient.GetGUIDByUsername` | internal/clients/redis_client.go:38-48 | Returns the lookup's answer or a transport error. A missing key gives "username not found", which is distinct from a transport error. The store is unchanged, and the read is recorded with the user and its answer. |
| `KeyValue.RedisClient.SetGUIDByUsername` | internal/clients/redis_client.go:51-54 | One write to the user's mapping key. On success the store maps it to the guid; on failure the store is unchanged. No mapping read is recorded. |
| `KeyValue.RedisClient.GetAvatarMetadata` | internal/clients/redis_client.go:67-83 | Returns the lookup's answer or a transport error. A success is the record stored under the guid's key. |
| `KeyValue.RedisClient.SetAvatarMetadata` | internal/clients/redis_client.go:86-94 | One write to the record's own metadata key. On success the key holds the record; on failure the store is unchanged. No mapping read is recorded. |
| `KeyValue.RedisClient.DeleteAvatarMetadata` | internal/clients/redis_client.go:97-100 | One delete of the metadata key. On success the key is gone; on failure the store is unchanged. No mapping read is recorded. |
| `KeyValue.RedisClient.DeleteUsernameMapping` | internal/clients/redis_client.go:119-122 | One delete of the mapping key. On success the key is gone; on failure the store is unchanged. No mapping read is recorded. |
| `KeyValue.RedisClient.GetGUIDsByUsernames` | internal/clients/redis_client.go:103-116 | Never fails, and the store is unchanged. The read log grows by exactly one read per listed name, in list order, each with its answer: the stored mapping or a transport error. The result holds exactly the names whose read succeeded, each mapped to its stored guid. |
| `KeyValue.Resolved` | internal/clients/redis_client.go:107-113 | A name is kept iff some lookup of it succeeded. |
| `KeyValue.ResolvedStep` | internal/clients/redis_client.go:107-113 | Looking up one more name adds it iff its lookup succeeded. |
| `KeyValue.LookupsOf` | internal/clients/redis_client.go:106-107 | The reads of a batch: one per listed name, in list order, each paired with its answer. |
| `KeyValue.LookupsOfStep` | internal/clients/redis_client.go:106-107 | Reading one more name appends one read to the batch's log. |
| `KeyValue.BatchStep` | internal/clients/redis_client.go:106-113 | One more read keeps a batch well formed. Each answer is the stored mapping or a transport error. The names kept are those that resolved, each with its stored guid. |
| `KeyValue.ResolvedAreMapped` | internal/clients/redis_client.go:107-112 | Every name a batch keeps is a listed name that has a mapping. |
| `KeyValue.ResolvedWithoutFailures` | internal/clients/redis_client.go:103-116 | Without transport errors, the names kept are exactly the listed names that have a mapping. |
| `KeyValue.RedisClient.constructor` | internal/clients/redis_client.go:16-35 | A client over a given database that has made no read yet. |
| `BlobStore.ObjectKey` | internal/clients/r2_client.go:52 | An object key is `avatars/` followed by the guid. |
| `BlobStore.ObjectKeyInjective` | internal/clients/r2_client.go:52 | Distinct guids have distinct object keys. |
| `BlobStore.R2Client.UploadAvatar` | internal/clients/r2_client.go:51-67 | One put of the guid's object with body, content type and length. On failure the bucket is unchanged. No URL is signed. |
| `BlobStore.R2Client.GetAvatarPresignedURL` | internal/clients/r2_client.go:78-94 | The bucket is unchanged, and the signing is recorded with the guid, the lifetime and the answer. A success is a URL for exactly the guid's object, with the requested lifetime; a failure is a signing error. |
| `BlobStore.R2Client.DeleteAvatar` | internal/clients/r2_client.go:97-110 | One delete of the guid's object. On success the object is gone; on failure the bucket is unchanged. No URL is signed. |
| `BlobStore.R2Client.constructor` | internal/clients/r2_client.go:20-49 | A client over a given bucket that has signed no URL yet. |
| `Framing.Uint32FromBytes` | internal/clients/grpc_web_client.go:136 | Four big-endian bytes give a value below 2^32. |
| `Framing.Uint32RoundTrip` | internal/clients/grpc_web_client.go:65 | Reading back a written `uint32` gives the number. |
| `Framing.Uint32BytesRoundTrip` | internal/clients/grpc_web_client.go:136 | Writing back a read `uint32` gives the bytes. |
| `Framing.Uint32ToBytes` | internal/clients/grpc_web_client.go:59-65 | A `uint32` is written as four bytes whose big-endian value is the number. |
| `Framing.FrameLayout` | internal/clients/grpc_web_client.go:59-66 | The frame is `5 + len(msg)` bytes: flag 0, then the length modulo 2^32, then the message. The same layout is built at lines 169-175. |
| `Framing.Frame` | internal/clients/grpc_web_client.go:59-66 | The frame is `5 + len(msg)` bytes, starts with the data flag 0, and after the five-byte header holds exactly the message. |
| `Framing.EncodeFrame` | internal/clients/grpc_web_client.go:59-66 | The buffer, filled by flag, length and message writes, equals the frame, and its tail after the header is the message. |
| `Framing.ParseFrame` | internal/clients/grpc_web_client.go:130-143 | "Too short" iff fewer than 5 bytes. "Incomplete" when the declared length runs past the data. It succeeds iff the declared length fits the data, and then returns exactly the declared bytes after the header. Bound check without wrap-around (see "## Findings"). This is the corrected reading of lines 215-224 as well. |
| `Framing.FrameRoundTrip` | internal/clients/grpc_web_client.go:130-143 | Parsing, with the corrected parse, the frame of a message shorter than 2^32 bytes yields the message. |
| `Framing.FrameIgnoresTrailing` | internal/clients/grpc_web_client.go:143 | Bytes after the declared message are ignored. |
| `Framing.ParseIgnoresFlag` | internal/clients/grpc_web_client.go:135-136 | The flag byte does not influence the parse. |
| `Framing.OversizedMessageIsTruncated` | internal/clients/grpc_web_client.go:59 | A message of 2^32 bytes or more does not survive the round trip, because of the `uint32` length. |
| `Framing.AsWrittenAgreesBelowWrap` | internal/clients/grpc_web_client.go:136-143 | While `5 + length` does not wrap, the parse as written equals the corrected parse. |
| `Framing.ParseFrameAsWritten` | internal/clients/grpc_web_client.go:130-143 | Fewer than 5 bytes give "too short" with the byte count. The parse panics iff there are at least 5 bytes and `5 + length` reaches 2^32, so that the `uint32` sum wraps. |
| `Framing.AsWrittenPanicsOnHugeLength` | internal/clients/grpc_web_client.go:136-143 | A declared length of 2^32-5 or more passes the bound check as written and then panics on the slice. The corrected parse reports "incomplete" for any data shorter than 2^32 bytes. |
| `Framing.AsWrittenCounterexample` | internal/clients/grpc_web_client.go:215-224 | The five bytes `00 FF FF FF FF` panic as written and are "incomplete" when corrected. |
| `GrpcWeb.BaseURL` | internal/clients/grpc_web_client.go:25-29 | Always has an `http://` or `https://` scheme. The address is kept iff it has one; otherwise it is prefixed with `https://`. |
| `GrpcWeb.BaseURLIdempotent` | internal/clients/grpc_web_client.go:25-29 | Defaulting a base URL again changes nothing. |
| `GrpcWeb.EndpointURL` | internal/clients/grpc_web_client.go:68 | Starts with the base URL followed by `/user.UserService/`, and what follows is exactly the procedure name; line 177 builds the same shape. |
| `GrpcWeb.EndpointsDistinct` | internal/clients/grpc_web_client.go:177 | The two procedures are posted to different URLs. |
| `GrpcWeb.Min` | internal/clients/grpc_web_client.go:239-244 | The smaller of the two numbers. |
| `GrpcWeb.TokenPreview` | internal/clients/grpc_web_client.go:43 | A prefix of the token, of length min(20, length), so the slice is never out of range. |
| `GrpcWeb.RequestHeaders` | internal/clients/grpc_web_client.go:79-83 | Content type and accepted type are `application/grpc-web+proto` and `X-Grpc-Web` is `1`. A user agent is set iff the procedure is `ValidateToken` (lines 183-185 set only the first three). |
| `GrpcWeb.BuildRequest` | internal/clients/grpc_web_client.go:68-83 | The request is a POST to the procedure's endpoint URL. For a message shorter than 2^32 bytes, its body parses back to the message. Lines 177-185 build the same request. |
| `GrpcWeb.RequestCarriesMessage` | internal/clients/grpc_web_client.go:73-83 | The posted body parses back to the marshalled message. The request declares `application/grpc-web+proto`. |
| `GrpcWeb.ReadResponse` | internal/clients/grpc_web_client.go:96-143 | A non-200 status is an error carrying status and body; only a 200 response can succeed. For a 200 `grpc-web-text` response, a failed base64 decoding gives that decoder error, and otherwise the frame is parsed from the decoded bytes. Any other 200 response has its frame parsed from the body itself. |
| `GrpcWeb.ReadBinaryResponse` | internal/clients/grpc_web_client.go:114-143 | A binary 200 response holding one frame, with or without trailers, yields the message, under the corrected parse. |
| `GrpcWeb.ReadTextResponse` | internal/clients/grpc_web_client.go:115-143 | A `grpc-web-text` 200 response whose body decodes to one frame, with or without trailers, yields the message, whatever the undecoded body was. A body that fails to decode gives the decoder error. |
| `GrpcWeb.GRPCWebClient.constructor` | internal/clients/grpc_web_client.go:23-39 | The client keeps the defaulted base URL and has made no call. |
| `GrpcWeb.GRPCWebClient.Invoke` | internal/clients/grpc_web_client.go:42-156 | Records one call and its answer. At most one request is sent, and it is the POST of the framed message to the procedure's endpoint. No request is sent exactly when the call failed marshalling (lines 51-55) or building the HTTP request (lines 73-77). |
| `GrpcWeb.GRPCWebClient.Exchange` | internal/clients/grpc_web_client.go:50-156 | Marshal, frame, build the request, post, read and decode for one recorded call. At most one request is sent, the POST of a framed message to the procedure's endpoint. It is sent iff marshalling and building the HTTP request (lines 73-77) both succeeded. |
| `GrpcWeb.GRPCWebClient.ValidateToken` | internal/clients/grpc_web_client.go:42-156 | One `ValidateToken` call with the token, whose answer is recorded. At most one request, the POST of a framed message to the `ValidateToken` URL. It is sent iff marshalling and building the HTTP request (lines 73-77) both succeeded. |
| `GrpcWeb.GRPCWebClient.GetUserById` | internal/clients/grpc_web_client.go:158-232 | One `GetUserById` call with the id, whose answer is recorded. At most one request, the POST of a framed message to the `GetUserById` URL. It is sent iff marshalling and building the HTTP request (lines 178-181) both succeeded. |
| `Auth.RemoveQuotes` | internal/middleware/auth.go:42 | The result has no double quote and is no longer than the input. |
| `Auth.RemoveQuotesAppend` | internal/middleware/auth.go:42 | Removing quotes distributes over concatenation. |
| `Auth.RemoveQuotesIdentity` | internal/middleware/auth.go:62 | Removing quotes leaves a string unchanged iff it has none. |
| `Auth.SkipSpaceFrom` | internal/middleware/auth.go:43 | The front scan of `strings.TrimSpace` stops at the first character that is not white space, or at the end. Everything it skipped is white space. |
| `Auth.SkipSpaceBack` | internal/middleware/auth.go:43 | The back scan stops just after the last character that is not white space, never below where the front scan stopped. Everything it skipped is white space. |
| `Auth.TrimEndIndex` | internal/middleware/auth.go:43 | The back scan ends between the front scan's stop and the end of the string. |
| `Auth.TrimSpace` | internal/middleware/auth.go:43 | The result neither starts nor ends with white space and is no longer than the input. |
| `Auth.TrimSpaceIsTrim` | internal/middleware/auth.go:43 | `TrimSpace` meets the reference definition: a slice of the input with only white space around it and none at its ends. |
| `Auth.TrimStart` | internal/middleware/auth.go:43 | A non-empty trim starts at a character that is not white space. |
| `Auth.TrimEnd` | internal/middleware/auth.go:43 | A non-empty trim ends at a character that is not white space. |
| `Auth.TrimIsUnique` | internal/middleware/auth.go:43 | A string has exactly one trim. |
| `Auth.TrimSpaceIdempotent` | internal/middleware/auth.go:63 | Trimming twice is trimming once. |
| `Auth.TrimSpaceOfTrimmed` | internal/middleware/auth.go:63 | A string without outer white space is its own trim. |
| `Auth.TrimSpaceKeepsNoQuotes` | internal/middleware/auth.go:62-63 | Trimming a quote-free string leaves it quote-free. |
| `Auth.CleanHeader` | internal/middleware/auth.go:42-43 | The cleaned header has no quotes and no outer white space. |
| `Auth.ExtractToken` | internal/middleware/auth.go:46-63 | The token has no quotes and no outer white space. |
| `Auth.CleanIsFixed` | internal/middleware/auth.go:62-63 | Removing quotes and trimming a string that has neither quotes nor outer white space changes nothing. |
| `Auth.ExtractTokenCases` | internal/middleware/auth.go:51-59 | With a case-sensitive `Bearer ` prefix, the token is the trimmed rest of the cleaned header; otherwise it is the whole cleaned header. The second clean-up at lines 62-63 never changes it. |
| `Auth.TrimTrailingSpace` | internal/middleware/auth.go:43 | A clean word followed by one white-space character trims back to the word. |
| `Auth.WordThenSpaceIsToken` | internal/middleware/auth.go:42-63 | A header made of one clean word without the `Bearer ` prefix, then a space, yields the word. |
| `Auth.BearerAloneIsToken` | internal/middleware/auth.go:43-57 | The header `Bearer ` trims to `Bearer`. That no longer has the prefix, so it becomes the token. |
| `Auth.BearerHeaderIsClean` | internal/middleware/auth.go:42-43 | `Bearer <token>`, for a clean token, is already clean. |
| `Auth.BearerHeaderYieldsToken` | internal/middleware/auth.go:51-53 | `Bearer <token>` yields the token itself. |
| `Auth.QuotedHeaderSameToken` | internal/middleware/auth.go:42 | Quotes around the whole header do not change the token. |
| `Auth.GetUserFromContext` | internal/middleware/auth.go:94-97 | A user is returned iff a user value is stored under the user key, and then it is that user. |
| `Auth.StoredUserIsFound` | internal/middleware/auth.go:87 | The user stored by the middleware is what `GetUserFromContext` returns. |
| `Auth.WithUser` | internal/middleware/auth.go:87 | The context gains the user key, holding exactly the user; every other key keeps its value. |
| `Auth.SkipsAuthentication` | internal/middleware/auth.go:25 | Only `POST` requests to `/api/avatars` bypass authentication. |
| `Auth.ErrorText` | internal/middleware/auth.go:78 | The `%v` text of a validator error. A refused call's text ends with its body, and the text of a failed library call ends with that call's own error text. |
| `Auth.AuthMiddleware` | internal/middleware/auth.go:21-91 | `POST /api/avatars` is handed on unchanged, with no validator call and no request sent. Any other request with an empty header gets 401 "Authorization header required", again with no call and no request. Otherwise the request ends as `Validate` states for the extracted token. |
| `Auth.Validate` | internal/middleware/auth.go:66-88 | An empty token gets 401 "Token is empty", with no call and no request. Otherwise the validator is called exactly once, with the token, and sends at most one request: the POST of a framed message to the `ValidateToken` URL. It sends none exactly when the call failed before sending. If the call answered an error, the answer is 401 "Token validation failed: " followed by the error's full text (`Auth.ErrorText`). If it answered a user, the request is handed on with exactly that user stored in its context under the user key. |

## Left out

- HTTP handlers (multipart parsing, JSON bodies, the download in `UploadAvatarFromURL`, status codes), router wiring, the Swagger server, graceful shutdown and request logging. These are I/O; only the two boundary rules named above are kept.
- Configuration from the environment and the construction of real clients: connection URLs, credentials, the start-up `PING`, the S3 SDK set-up.
- `uuid.New()` is a nondeterministic choice of a guid the stores do not mention. That a real random UUID never collides is a probabilistic fact and is not modelled.
- `time.Now()` is the `now` parameter of `AddAvatar`, in seconds.
- JSON (un)marshalling of metadata: a record is stored as the value `Json(m)` and read back as `m`. The text a plain `GET` returns for it is a simplified rendering without escaping. `json.Marshal` of a record cannot fail in the model.
- Protobuf (un)marshalling, base64 decoding (section 4 of RFC 4648) and the HTTP transport of the gRPC-Web client. Their outcomes, the marshalled bytes and the decoded user are nondeterministic.
- Presigned URLs are values naming the object key and the lifetime. The signature, host and query string are not modelled.
- Context cancellation, timeouts and concurrent requests for the same user. The service keeps no shared state in process, and those races belong to the external stores.
- Logging (`log.Printf`, the `fmt.Printf` warnings of `DeleteMyAvatar`) is left out; its only effect is output.
- A failed store write is modelled as having no effect. A write that took effect but reported an error is not modelled.
- `GrpcWeb.TokenPreview`: Go strings are byte strings and `token[:min(20, len(token))]` takes 20 bytes; the model's strings are sequences of characters, so it takes 20 characters. The two agree on ASCII tokens.
- `KeyValue.LookupMetadata` treats a plain-text value stored under a metadata key as unparseable. Go's `json.Unmarshal` (redis_client.go:78) accepts any JSON object text there, `{}` giving a zero record; since the model does not parse JSON, that case is not modelled.
- `GetAvatarURL` (r2_client.go:70-75) returns the object key, `avatars/<guid>`, and is called by nothing in the service; it is not modelled beyond `BlobStore.ObjectKey`.
- An `AddAvatar` whose compensating deletes fail leaves an orphaned object or orphaned metadata behind, so consistency is only stated for completed adds; this is the source's best-effort rollback.
- `GrpcWeb.GRPCWebClient.Invoke` does not relate the decoded user to the response bytes, because protobuf decoding is not modelled.
- `GrpcWeb.GRPCWebClient.Exchange`: whether `http.NewRequestWithContext` rejects a request (for instance a base URL that `url.Parse` refuses) is a nondeterministic choice on each call, not a function of the address, because URL parsing is not modelled.
- `Auth.ErrorText`: the texts of library errors (protobuf, HTTP transport, body read, base64) are the `cause` values, chosen outside the model. Go prints a refused call's body bytes raw with `%s`. The model turns each byte into the character with the same code, which agrees on ASCII bodies.
- `Auth.ErrorText`: its ensures state only how each text ends. The leading wordings (grpc_web_client.go:54-149), the status and the byte count are given by its definition and are not restated as ensures.
- `Auth.ErrorText` words a short response as `ValidateToken` does, with the byte count (grpc_web_client.go:132). `GetUserById` words it without the count (grpc_web_client.go:216), but only `ValidateToken` errors reach the middleware.
- `Avatars.AvatarService.PresignEach`: Go's map iteration order is unspecified. The model returns the order it used as a ghost output and states only that this order lists every mapped user once.
- The read log of `RedisClient` and the signing log of `R2Client` are ghost records used for stating contracts; the Go clients keep no such history.

## Findings

| source | as written | input that shows it | evidently intended | confidence | as-written member | corrected member |
|---|---|---|---|---|---|---|
| internal/clients/grpc_web_client.go:136-143 | `5+responseMsgLen` is a `uint32` sum (the same code is at lines 219-224). A declared length of 2^32-5 or more wraps it below 5, so the bound check passes and `responseData[5 : 5+responseMsgLen]` has its upper bound below its lower bound, which panics (modelled by `Framing.ParseFrameAsWritten`) | a five-byte response `00 FF FF FF FF` (declared length 2^32-1) | the bound check computed without wrap-around, answering "response incomplete" | not executed | `Framing.AsWrittenCounterexample` | `Framing.ParseFrame` |

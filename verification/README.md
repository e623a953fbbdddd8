# ID-record dashboard: codec, validators and session client in Dafny

This project models the self-contained logic of an ID-record dashboard, which has two cooperating sides.

**Backend (Go).**
- The byte codec that stores the 12-digit identifier ("aadhar") encrypted:
  - PKCS#7 padding, following section 6.3 of RFC 5652;
  - the AES key-length gate and the checks in front of the CBC call;
  - the storage framing `base64url(pad(IV ++ CBC(pad(data, 16)), 3))`.
- The codec's error values.
- The integer query-parameter parser.
- The register-input validator.
- The exact `"Bearer "` check of the refresh endpoint.
- The data endpoint's query handling, raw/decrypted row selection and total.
- The deterministic sample-data generators.

**Frontend (TypeScript).**
- The HTTP client's request interceptor, which attaches the access token.
- The client's response interceptor: a small decision machine over the two-key credential store that refreshes the access token once and replays the request.
- The zod schemas, as parsers over JSON values, including the identifier normalisation `XXXX-XXXX-XXXX`.
- The login, register and data-query flows, and their error classification.
- The `isLogged` predicate.
- The table's initial pagination state and page-count formula.

## How it is modelled

- **Panics.** A Go runtime panic is an explicit outcome, `CodecErrors.Outcome.Panic`, and never an invented error. The panic cases are:
  - `unpad` on empty input;
  - a pad length larger than the data;
  - a stored frame shorter than the IV;
  - a wrong IV length handed to the CBC mode.
- **Cipher and base64.** The block cipher with CBC chaining (section 6.2 of NIST SP 800-38A) and base64url (section 5 of RFC 4648) enter as a `CipherSuite` of function values. `Aes.Lawful` states the only facts the framing relies on:
  - both directions preserve length;
  - decryption inverts encryption on whole blocks under a valid key and a 16-byte IV;
  - decoding inverts encoding.
- **Inputs instead of effects.**
  - The random IV and the random seed digits are parameters.
  - The `AES_KEY` environment variable is an `Option`.
  - The rows the database returned and the table count are inputs.
- **Network.** It is a function `Transport` from a request configuration to the server's response, or to nothing when none arrives. The refresh call and the replay go through it too.
- **Credential store.** `localStorage` is a string-keyed map.
- **zod schemas.**
  - Each schema is a function from a JSON value to its parsed output or a rejection. Input schemas also return their issues.
  - `z.email()` and `mail.ParseAddress` (section 3.4 of RFC 5322) are abstract predicates.
  - zod 4 semantics are followed: a `.refine` runs whenever every field has the right type, even if a field failed a format or length check.

## Model

| member | source | states |
|---|---|---|
| CodecErrors.KeyLengthMessageDeterminesLength | backend/utils/error.go:7-13 | the key-length error's text carries the rejected length: equal messages mean equal lengths |
| Aes.CheckAesKey | backend/utils/aes.go:15-24 | a key passes, unchanged, iff its length is 16, 24 or 32; any other key gives `InvalidKeyLength` with exactly that length |
| Aes.CbcGate | backend/utils/aes.go:27-49 | the checks before CBC, in order: key length, then IV length (a panic), then source a multiple of 16 (`InvalidSrcBlock(src, 16)`), then destination at least as long as the source (`InvalidDstBlock(dst, src)`); the call proceeds iff all pass |
| Aes.AesEncryptBlocks | backend/utils/aes.go:27-54 | fails exactly as the gate says; on success the first `len(src)` bytes of the destination are the CBC encryption of the source and the rest of the destination is kept |
| Aes.AesDecryptBlocks | backend/utils/aes.go:57-84 | the same checks; on success the destination's prefix is the CBC decryption of the source |
| Pkcs7.Pad | backend/utils/aes.go:87-99 | the data is a prefix of the result, between 1 and `blockSize` bytes are appended, the length becomes a multiple of the block size, and every appended byte is the count appended, modulo 256 |
| Pkcs7.Unpad | backend/utils/aes.go:102-125 | panic iff the input is empty or the pad length is within range but longer than the data; `InvalidPadding(n, blockSize)` when the last byte is 0 or above the block size; "incorrect padding found" iff the tail is not `n` copies of `n`; success iff well padded, returning the data without its `n` trailing copies of `n` |
| Pkcs7.UnpadPad | backend/utils/aes.go:87-125 | for block sizes 1 to 255, unpadding a padded value gives the value back |
| Pkcs7.PadWrapsAtByteRange | backend/utils/aes.go:89-94 | with block size 256 the pad count 256 is written as byte 0, and unpad rejects it with `InvalidPadding(0, 256)` |
| Aes.Frame | backend/utils/aes.go:146-147 | the stored frame has a length that is a multiple of 3, begins with the IV, continues with the ciphertext and ends with 1 to 3 pad bytes |
| Aes.Encrypt | backend/utils/aes.go:128-150 | succeeds iff the key length is valid, failing with `InvalidKeyLength` otherwise; the result is the base64url text of the frame of the IV and the CBC encryption of the data padded to 16 |
| Aes.OpenFrame | backend/utils/aes.go:155-168 | text that is not base64 is a decoding error; an opened frame yields a 16-byte IV; the key is never consulted |
| Aes.Decrypt | backend/utils/aes.go:153-185 | text that is not base64 is a decoding error; decryption succeeds only under a valid-length key |
| Aes.AesEncrypt | backend/utils/aes.go:188-197 | `KeyNotFound` iff `AES_KEY` is unset; otherwise exactly `encrypt` under that key |
| Aes.AesDecrypt | backend/utils/aes.go:200-209 | `KeyNotFound` iff `AES_KEY` is unset; otherwise exactly `decrypt` under that key |
| Aes.OpenFrameOfFrame | backend/utils/aes.go:146-168 | opening the encoding of a frame returns the IV and the ciphertext it was built from |
| Aes.DecryptFrame | backend/utils/aes.go:153-185 | decrypting a well-formed stored frame is unpad-16 of the CBC decryption of its ciphertext |
| Aes.DecryptOpened | backend/utils/aes.go:167-184 | once a frame opens to an IV and whole ciphertext blocks, decryption is unpad-16 of the CBC decryption |
| Aes.RoundTrip | backend/utils/aes_test.go:21-63 | for every valid-length key and IV, encryption succeeds and decrypting its output gives the data back |
| Aes.EnvRoundTrip | backend/utils/aes.go:188-209 | the same round trip through the exported functions when `AES_KEY` is set |
| Aes.EmptyFramePanics | backend/utils/aes.go:102-105 | an empty stored value panics in `unpad` instead of returning an error |
| Decimal.Atoi | backend/utils/params.go:13 | integer parsing accepts only values in the signed 64-bit range and agrees with the unbounded decimal parse there |
| Decimal.AtoiShow | backend/utils/params.go:13 | parsing the decimal text of any 64-bit integer gives that integer back |
| Params.QueryGet | backend/utils/params.go:11 | a query value is the first one given for the key, or "" when there is none |
| Params.GetParams | backend/utils/params.go:9-20 | a value that does not parse gives 0 (not the minimum); a parsed value `v` gives `max(minValue, v)`, so it is at least the minimum and unchanged when already above it |
| Params.MissingIsZero | backend/utils/params.go:13-17 | a missing parameter gives 0 whatever its minimum |
| Params.ReadsBackRendered | backend/utils/params.go:11-19 | the decimal text of an in-range integer reads back as that integer, clamped to the minimum |
| Controllers.Validate | backend/controllers.go:108-126 | the identifier must match `^\d{12}$` ("invalid Aadhar Number found") before the email is examined; then an address-parser error is returned as is; then unequal passwords give the mismatch error; success iff all three pass |
| Controllers.ValidateIgnoresNameAndPassword | backend/controllers.go:108-126 | the user name never affects validation, and any password (empty included) passes when repeated |
| Controllers.RefreshAuthorization | backend/controllers.go:211-218 | the header is accepted iff it starts with exactly "Bearer ", and the token is the rest; otherwise 401 "Authorization is missing" |
| Controllers.BearerPrefixIsExact | backend/controllers.go:213 | "Bearer " before any token yields exactly that token; any other seven-character scheme before it (another case, another separator) and a bare "Bearer" are rejected |
| Controllers.ParseDataQuery | backend/controllers.go:390-392 | offset is parsed with minimum 0 and limit with minimum 1; `raw` holds unless the value is exactly "false" |
| Controllers.EmptyQuery | backend/controllers.go:390-392 | an empty query gives offset 0, limit 0 (despite the minimum 1) and raw mode |
| Controllers.DecryptRow | backend/controllers.go:426-432 | a row decrypts exactly when `AesDecrypt` of its stored identifier succeeds, to the same row with that plaintext as identifier (id, user name and email kept); otherwise the decryption's error, or its panic, is the row's |
| Controllers.DecryptRowOfStored | backend/controllers.go:161-166 | a row whose identifier was stored through `AesEncrypt` under a valid key decrypts, under that key, to the row with the original identifier |
| Controllers.DecryptRows | backend/controllers.go:403-434 | the non-raw loop never reports an error; it panics iff some row's decryption panics; every output row is a decrypted input row and every decryptable input row is in the output |
| Controllers.DecryptRowsKeepsOrder | backend/controllers.go:403-434 | rows fetched in increasing id order leave the non-raw filter in increasing id order |
| Controllers.GetDataReply | backend/controllers.go:363-436 | the reply's message is "ok" and its total is the table count whatever the paging; raw mode returns the fetched rows as stored; non-raw mode returns the decrypted rows |
| Seed.GenerateAadhar | backend/seed.go:20-26 | the generated identifier is 12 decimal digits, digit `i` being draw `i` |
| Seed.GeneratePassword | backend/seed.go:29-31 | the password is exactly "Pass" followed by the decimal text of the id, and that text reads back as the id |
| Seed.ToLowerShow | backend/seed.go:37-41 | lower-casing the decimal text of an id leaves it unchanged |
| Seed.GenerateUser | backend/seed.go:34-45 | the user name is "user_" + id, the email "user" + id + "@example.com", the password from `generatePassword`, the identifier well formed |
| Seed.GeneratedNamesDistinct | backend/seed.go:40-41 | equal generated user names, or equal generated emails, imply equal ids |
| Seed.GeneratedUserPassesValidate | backend/seed.go:34-45 | a generated user passes the register validator whenever the address parser accepts its email |
| Seed.GenerateUsers | backend/seed.go:48-54 | `count` users, the `i`-th being the user generated for id `i+1` |
| Text.CutPrefix | backend/controllers.go:213 | the prefix is cut iff the string starts with it, and prefix plus remainder is the string |
| Text.ContainsAt | frontend/src/axios/index.ts:53-55 | `includes` holds iff the substring occurs at some position |
| Text.ToLower | backend/seed.go:40-41 | lower-casing keeps the length, maps 'A'..'Z' to 'a'..'z' and leaves every other character alone |
| Zod.NonEmptyString | frontend/src/zod/index.ts:4 | accepts exactly a present, non-empty string, and returns it |
| Zod.EmailString | frontend/src/zod/get-data.ts:7 | accepts exactly a non-empty string that passes the email check |
| Zod.AadharString | frontend/src/zod/profile.ts:8 | accepts exactly a string of 12 decimal digits |
| Zod.CoerceNumber | frontend/src/zod/get-data.ts:5 | JavaScript's `Number` with a NaN check, case by case: an absent field and an object are rejected; a number is itself; `true`/`false` give 1/0; `null` gives 0; text and arrays coerce as `TextNumber` and `ArrayNumber` state |
| Zod.ArrayNumber | frontend/src/zod/get-data.ts:5 | `Number` of an array: `[]` gives 0, two or more elements give NaN, one element coerces through its text (`null` to 0, a number to itself, text as text, an inner array recursively, a boolean or object to NaN) |
| Zod.CoerceShownNumber | frontend/src/zod/get-data.ts:5 | the decimal text of any integer, alone or in a one-element array, and a number nested in arrays coerce back to that integer |
| Zod.CoerceArrays | frontend/src/zod/get-data.ts:5 | `[]` and `[null]` coerce to 0; `[true]` and `[1, 2]` are rejected |
| Zod.DefaultError | frontend/src/zod/index.ts:3-5 | accepts iff the payload is an object whose `message` is a non-empty string, returning that message |
| Zod.OkMessageIsDefaultError | frontend/src/zod/index.ts:4 | every payload with `message` "ok" also has the error shape |
| Zod.Union | frontend/src/zod/login.ts:10 | a union accepts iff the success schema or the error shape does, and prefers the success parse |
| Zod.NonEmptyIssues | frontend/src/zod/login.ts:15-16 | a non-empty string field has no issues; otherwise every issue is at that field's path |
| ZodLogin.LoginSuccess | frontend/src/zod/login.ts:4-8 | accepts iff `message` is exactly "ok" and `access` and `refresh` are non-empty strings, returned unchanged |
| ZodLogin.LoginValidator | frontend/src/zod/login.ts:10 | accepts iff the payload is a login success or has the error shape, which collapses to: iff it has the error shape |
| ZodLogin.LoginInput | frontend/src/zod/login.ts:14-17 | accepts iff `user_name` and `password` are non-empty strings, with no further checks; a rejection carries at least one issue |
| ZodLogin.EmptyUserNameMessage | frontend/src/zod/login.ts:15 | an empty user name is reported at `user_name` with "Username cannot be empty" |
| ZodRefresh.RefreshSuccess | frontend/src/zod/refresh.ts:4-7 | accepts iff `message` is exactly "ok" and `access` is a non-empty string |
| ZodRefresh.RefreshFieldIgnored | frontend/src/zod/refresh.ts:4-7 | adding, changing or removing a `refresh` field never changes the parse |
| ZodRefresh.RefreshValidator | frontend/src/zod/refresh.ts:9 | accepts iff the payload is a refresh success or has the error shape |
| ZodRegister.EmailIssues | frontend/src/zod/register.ts:7-9 | no issues iff the email is a non-empty string that passes the email check; all issues are at `email` |
| ZodRegister.AadharIssues | frontend/src/zod/register.ts:12 | no issues iff the identifier is 12 digits; otherwise "Invalid Aadhar ID" at `aadhar` |
| ZodRegister.RegisterInput | frontend/src/zod/register.ts:4-17 | accepts iff every field is valid and the passwords are equal, keeping the field values; when the fields are strings and the passwords differ, the issues include "Password must match" at `confirm_password` |
| ZodRegister.MismatchAlongsideOtherIssues | frontend/src/zod/register.ts:14-17 | the password-match issue is reported even when another field (an empty user name) fails its own check |
| ZodRegister.RegisterSuccess | frontend/src/zod/register.ts:21-23 | accepts iff `message` is exactly "ok" |
| ZodRegister.RegisterValidator | frontend/src/zod/register.ts:25 | accepts iff the payload is a register success or has the error shape |
| ZodGetData.NormalizeAadhar | frontend/src/zod/get-data.ts:8-18 | 12 digits become the 14-character `XXXX-XXXX-XXXX` with the digit groups in place; anything else is unchanged |
| ZodGetData.NormalizeIdempotent | frontend/src/zod/get-data.ts:8-18 | a normalised value never matches the pattern again, so normalising twice equals normalising once |
| ZodGetData.NormalizeDropsOnlyHyphens | frontend/src/zod/get-data.ts:11-14 | deleting the hyphens from a grouped value recovers the 12 digits |
| ZodGetData.NormalizeMergesFormats | frontend/src/zod/get-data.ts:8-18 | raw digits and their grouped form normalise to the same value, which differs from the raw digits |
| ZodGetData.UserData | frontend/src/zod/get-data.ts:4-19 | a row parses iff it is an object with a coercible `id`, a non-empty `user_name`, an email-valid `email` and a string `aadhar`; the parsed identifier is the normalised one |
| ZodGetData.ParseRows | frontend/src/zod/get-data.ts:25 | the array parses iff every element parses, and then element `i` of the output is the parse of element `i` |
| ZodGetData.GetDataSuccess | frontend/src/zod/get-data.ts:23-27 | accepts iff `message` is exactly "ok", `data` is an array whose every row parses and `total` is a number; the page keeps `total` and holds, at each position, the `UserData` parse of the reply's row there |
| ZodGetData.NegativeTotalAccepted | frontend/src/zod/get-data.ts:26 | a negative `total` is accepted |
| ZodGetData.GetDataValidator | frontend/src/zod/get-data.ts:31 | accepts iff the payload is a data page or has the error shape |
| ZodProfile.ProfileData | frontend/src/zod/profile.ts:4-9 | accepts iff the payload has a coercible `id`, a non-empty `user_name`, an email-valid `email` and a 12-digit `aadhar`, kept as given; no `message` is needed |
| ZodProfile.ProfileRejectsGrouped | frontend/src/zod/profile.ts:8 | an identifier already in grouped form is rejected, unlike in the data rows |
| ZodProfile.ProfileValidator | frontend/src/zod/profile.ts:13 | accepts iff the payload is a profile or has the error shape, preferring the profile |
| ZodProfile.ProfileWithoutMessage | frontend/src/zod/profile.ts:4-13 | a profile without `message` is parsed as a profile and has no error shape |
| Credentials.GetItem | frontend/src/context/AuthContext.ts:11-12 | a key read is present iff the key is stored, and returns its value |
| Credentials.IsLogged | frontend/src/context/AuthContext.ts:9-14 | logged in iff both the access and the refresh key are present |
| Credentials.StoreTokens | frontend/src/hooks/useLogin.ts:15-16 | both tokens hold the new values and every other key is kept |
| Credentials.ClearTokens | frontend/src/axios/index.ts:92-93 | both tokens are gone and every other key is kept |
| Credentials.StoreAccess | frontend/src/axios/index.ts:88 | the access token holds the new value and every other key, the refresh token included, is kept |
| Credentials.LoginLogout | frontend/src/pages/Home/SideBar.tsx:27-29 | after both tokens are written the user is logged in; after they are cleared, not |
| Credentials.OneTokenIsNotLogged | frontend/src/context/AuthContext.ts:11-12 | with exactly one of the two keys present the user is not logged in |
| Credentials.StoreAccessKeepsLogin | frontend/src/axios/index.ts:88 | after a new access token is stored, the user is logged in iff a refresh token is stored |
| SessionClient.Fetch | frontend/src/axios/index.ts:41-44 | an exchange succeeds iff a response with a 2xx status arrives; otherwise the error carries the request and the response, if any |
| SessionClient.AttachAuth | frontend/src/axios/index.ts:31-39 | with an access token stored and headers present, `Authorization` becomes "Bearer " + token; otherwise nothing changes; nothing but the headers ever changes |
| SessionClient.AttachAuthOverrides | frontend/src/axios/index.ts:35 | re-attaching under a store with an access token replaces the header attached earlier |
| SessionClient.RefreshRequest | frontend/src/axios/index.ts:74-84 | the refresh call goes to the refresh address, is not marked as a retry, and carries "Bearer " + refresh token |
| SessionClient.Intercept | frontend/src/axios/index.ts:44-96 | a missing config, the retry flag, a skip-listed URL or a status of 500 or more reject the error unchanged with no refresh and no store change; otherwise, with no refresh token, "Refresh Token not found" with no refresh; otherwise exactly one refresh call carrying the stored refresh token, whose outcome decides: no 2xx reply clears both tokens and rejects with that call's error, a 2xx body the refresh schema refuses clears both tokens and rejects with the schema error, and an accepted body stores its access token and replays the request marked as retried; a replay happens only in that last case |
| SessionClient.Send | frontend/src/axios/index.ts:41-97 | one to three requests are sent; a 2xx first reply is the result; a failure the interceptor answers without a refresh is rejected after one request, store untouched; a refresh is sent exactly when the interceptor answers with one, as the second request, carrying the stored refresh token; a refresh that is not granted clears both tokens and rejects with its error or the schema error; a granted refresh stores the new access token and replays the request once under it, and the replay's own reply or error is the result; a 2xx last reply (not a refresh call's) is the result; no key but the two tokens is ever written |
| SessionClient.ExpiredAccessRefreshedOnce | frontend/src/axios/index.ts:71-90 | when the first request fails with no reply or a status below 500, a refresh token is stored and the refresh gets a 2xx reply the schema accepts, exactly three requests are sent, the new access token is stored, the user stays logged in, and the result is the replay's own reply or error, whose failure does not clear the store |
| SessionClient.RefreshFailureLogsOut | frontend/src/axios/index.ts:91-95 | when the first request fails with no reply or a status below 500 and the refresh call gets no 2xx reply, two requests are sent, both tokens are cleared and the result is that call's error |
| SessionClient.RelativeLoginPathNotSkipped | frontend/src/axios/index.ts:53-55 | the skip list matches absolute addresses only: a request to the relative path "/login" is not skipped |
| Hooks.JsonRequest | frontend/src/axios/index.ts:16-22 | a client request carries the client's default headers and is not a retry |
| Hooks.AuthUrlsSkipRefresh | frontend/src/axios/index.ts:53-59 | the login, register and refresh addresses are all on the skip list |
| Hooks.Login | frontend/src/hooks/useLogin.ts:8-19 | invalid input sends nothing and leaves the store alone; valid input posts the parsed form once; success means the reply passed `LoginSuccess`, both tokens come from that reply, the user is logged in and the result is "ok"; conversely a 2xx reply that passes `LoginSuccess` gives "ok" and stores both of its tokens; a reply outside 2xx is the rejection, with the store untouched; every failure leaves the store as it was, and a 2xx reply failing the schema is a schema failure |
| Hooks.Register | frontend/src/hooks/useRegister.ts:8-16 | the store is never written; invalid input sends nothing; success (true) iff the input is valid and the 2xx reply passes `RegisterSuccess`; a reply outside 2xx is the rejection itself (so `Classify` sees its body), and a 2xx reply failing `RegisterSuccess` is a schema failure |
| Hooks.Classify | frontend/src/hooks/useLogin.ts:29-37 | `onError(message)` iff the failure is an HTTP error whose reply body has the error shape, with that message; everything else goes to `onFailure` |
| Hooks.NonHttpErrorsAreFailures | frontend/src/hooks/useRegister.ts:26-34 | a rejected form, a rejected reply and a missing refresh token all go to `onFailure` |
| Hooks.LoginServerMessageShown | frontend/src/hooks/useLogin.ts:8-38 | a valid login form whose reply is outside 2xx with the error shape fails, leaves the store alone, and reaches `onError` with the server's message |
| Hooks.RegisterServerMessageShown | frontend/src/hooks/useRegister.ts:8-37 | a valid register form whose reply is outside 2xx with the error shape fails and reaches `onError` with the server's message |
| Hooks.DataParams | frontend/src/hooks/useGetData.ts:7 | the query sends exactly `offset` = pageIndex × pageSize, `limit` = pageSize and `raw` unchanged |
| Hooks.GetData | frontend/src/hooks/useGetData.ts:5-11 | the first request carries the page parameters, as does a replay; a success is the `GetDataSuccess` parse of the last reply; conversely a 2xx last reply (not a refresh call's) that parses gives that page and one that does not is a schema failure; a failed replay is rejected with its own error; the store is the client's: unchanged after one request, both tokens cleared (logged out) after a refused refresh, the new access token stored after a granted one; every request failure reaches the hook as the client's error, which is the request's own error or the missing-token error without a refresh, and the refresh call's error or the schema error after a refused one |
| Hooks.QueryKey | frontend/src/hooks/useGetData.ts:21 | the cache key is "get-data" followed by the page index, the page size and the mode, in that order |
| Hooks.QueryKeyInjective | frontend/src/hooks/useGetData.ts:21 | equal cache keys mean equal page index, page size and mode |
| Pagination.CeilDiv | frontend/src/pages/Home/Data.tsx:153 | the rounded-up quotient `r` satisfies `(r-1)·p < t ≤ r·p` |
| Pagination.PageCount | frontend/src/pages/Home/Data.tsx:152-154 | at least 1; 1 without data or with a non-positive total; otherwise `(n-1)·pageSize < total ≤ n·pageSize` |
| Pagination.PageCountIsLeast | frontend/src/pages/Home/Data.tsx:153 | no smaller number of pages holds every row |
| Pagination.PageCountExamples | frontend/src/pages/Home/Data.tsx:152-154 | 0 rows give 1 page, 25 rows 1 page, 26 rows 2 pages with 25 per page; no data gives 1 page |
| EndToEnd.Render | frontend/src/hooks/useGetData.ts:6-8 | a number is sent as its decimal text, a boolean as "true" or "false", a string as is, and null not at all |
| EndToEnd.QueryOf | frontend/src/hooks/useGetData.ts:6-8 | the query string has one value for each parameter that renders, and none for the others |
| EndToEnd.DataQueryRoundTrip | backend/controllers.go:390-392 | the server reads the client's page request back as the same offset, limit and mode, clamped to its minimums, for numbers within 64 bits |
| EndToEnd.InitialPageQuery | frontend/src/pages/Home/Data.tsx:127-132 | the table's first request (page 0, 25 rows, raw) reaches the server as offset 0, limit 25, raw |
| EndToEnd.RefreshHeaderAccepted | backend/controllers.go:211-218 | the client's refresh header passes the server's bearer check, which yields the stored refresh token |
| EndToEnd.AccessHeaderAccepted | frontend/src/axios/index.ts:34-36 | the attached access header passes the same check and yields the stored access token |

## Left out

- Database access and all SQL, bcrypt hashing, JWT signing and parsing, the authentication middleware, server routing and CORS, and writing the seed file. These are foreign libraries or I/O. `GetDataReply` takes the fetched rows and the table count as inputs.
- AES, CBC chaining and base64url are abstract (`Aes.CipherSuite`), constrained only by `Aes.Lawful`.
- The `rand.Read` failure branch of `encrypt`. The IV is a parameter.
- The `aes.NewCipher` error branches. They cannot be reached once the key-length check has passed.
- The `AES_KEY` lookup. The key is an `Option`.
- The base64 decoder's error text includes the offending offset; `CorruptBase64` drops it.
- Aes.OpenFrame: its contract states only the decoding error, the IV length and that the key plays no part. Its behaviour on well-formed frames is stated by `Aes.OpenFrameOfFrame`.
- Aes.Decrypt: its contract states only the decoding error and the key-length condition. Its behaviour on stored values is stated by `Aes.DecryptFrame` and `Aes.RoundTrip`. Malformed stored values are not characterised further.
- Controllers.DecryptRows: its contract states membership in both directions and the panic condition. Order is stated only for rows fetched in increasing id order (`Controllers.DecryptRowsKeepsOrder`).
- Zod.CoerceNumber: text coerces only as "" or optionally signed decimal integer text (`TextNumber`); JavaScript's surrounding whitespace, hexadecimal, binary, octal, exponent, fractional and "Infinity" forms are not modelled, since numbers are integers here.
- Text.ToLower: maps only ASCII 'A'..'Z'; Go's `strings.ToLower` also lowers other Unicode letters. The model applies it only to "User" and to decimal digits (backend/seed.go:40-41), where the two agree.
- JavaScript numbers are integers. `Math.ceil` is exact integer division with a positive page size.
- `mail.ParseAddress` and `z.email()` are abstract predicates.
- zod's built-in messages are reduced to short constants. Issue lists are modelled only as far as their paths and the schemas' own messages.
- Axios behaviour left out:
  - react-query's retries (`retry: 2`), caching and async timing;
  - two requests refreshing at the same time;
  - the request interceptor when the config has no headers (the client always has them).
- Request parameters that are arrays, objects or dates. The client never sends them.
- `useProfile` (a one-line wrapper over `ProfileData`), the type declarations of the hooks index, React pages and components other than the cited store writes and pagination expressions, and the test files.
- The network is a deterministic function of the request. Timeouts and a server that answers the same request differently are not modelled.

# Network data provider and logger of ra-infra, modelled in Dafny

This project models the two components of ra-infra that have behaviour:

- **`DefaultNetworkRequestService`** is the data provider's request/response translator. It does four things:
  - It builds the request headers: the timezone headers, the configured headers spread over them, and an `Authorization` header unless the resource is on the no-auth list.
  - It picks the auth token. A token set in memory wins over the token kept in `localStorage`.
  - It encodes the request body in one of three ways, by body type: url-encoded form, multipart file, or JSON pass-through.
  - It sends the request and turns the transport's answer into `{ data, total? }`. This covers the server error envelope, status 204, blob responses, list wrapping, and totals read from the `Content-Range` header (section 14.4 of RFC 9110).
- **`Logger`** is the process-wide logger. It has a static instance whose debug flag every `getInstance` call resets, a toggle, the pure line formatter `generateLog`, and four level methods that write to the console sink. Debug lines are dropped while debug is off.

Files:

- `common.dfy`: JavaScript values and their truthiness, the structured errors of `getError`, and the string operations the service uses. These are `parseInt(s, 10)`, `s.split('/').pop()` and decimal number-to-string conversion.
- `headers.dfy`: header objects as ordered sequences of distinct names. It defines `{ ...a, [k]: v }` (`Put`) and `{ ...a, ...b }` (`Spread`), following JavaScript object semantics: a key keeps its first position, and the last write wins.
- `network.dfy`: the service class and the vocabulary around it.
- `logger.dfy`: the logger, its registry of the static instance, and the console sink.

External collaborators appear as inputs and values:

- The token stored under `auth_token` in `localStorage` is an `Option<AuthToken>` parameter.
- The transport's response is a `Response` record: status, header map, the value `json()` yields, and the blob `blob()` yields.
- `DoRequest` returns the `SentRequest` it handed to `send`.
- A `FormData` body is the sequence of its `append` calls.
- The console is a `Console` object that records its calls.
- The timestamp of a log line is a parameter.

Edge cases of the code that the model keeps:

- A resource on the no-auth list receives exactly the default headers, configured headers included, so a configured `Authorization` key is still sent.
- Under the content-range variant, `total` falls back to the number of items when the parsed value is `NaN` and also when it is `0`. A negative value is kept.
- Only `headers.get('content-range')` is consulted. The second lookup, `headers?.get['Content-Range']`, indexes the `get` function and is always `undefined`. An empty header value counts as missing.
- When the transport gives no response headers, the code substitutes `{}`. Calling `get` on it in the content-range branch is a `TypeError`, which the model returns as `TypeError`.
- Status 204 gives `{}`, but a list operation then wraps it, so the result is `[{}]`.
- The server error check looks at `json()` before the status. A falsy `error` field (`0`, `''`, `null`) is not an error.

## Model

| member | source | states |
|---|---|---|
| `Common.Property` | src/services/default-network-data.service.ts:211 | `v?.key` is `undefined` on every non-object; on an object it is the value of the first field with that key, and `undefined` when no field has it |
| `Common.LastSegment` | src/services/default-network-data.service.ts:168 | `split('/').pop()` is the suffix after the last `/`: it holds no `/`, and the character before it, if any, is `/` |
| `Common.LastSegmentAfterSeparator` | src/services/default-network-data.service.ts:168 | for any prefix, the last segment of `prefix/tail` is `tail` when `tail` holds no `/` |
| `Common.ParseIntNatToString` | src/services/default-network-data.service.ts:168 | `parseInt(_, 10)` reads back every decimal numeral: `parseInt(String(n)) == n` |
| `Common.ParseInt` | src/services/default-network-data.service.ts:168 | defines `parseInt(_, 10)`; a string without any digit parses to `NaN`, and one that starts with a digit parses to a non-negative number; `Common.ParseIntNatToString` states its read-back property |
| `Headers.Put` | src/services/default-network-data.service.ts:83 | `{ ...h, [k]: v }` maps `k` to `v`, leaves every other key's value unchanged, keeps every existing key in place, grows only for a new key, and keeps keys distinct |
| `Headers.Spread` | src/services/default-network-data.service.ts:71-75 | `{ ...a, ...b }` has the keys of both, keeps the keys of `a` in their positions, and keeps keys distinct |
| `Headers.SpreadLookup` | src/services/default-network-data.service.ts:71-75 | in `{ ...a, ...b }` a key of `b` takes its value from `b`, and every other key takes its value from `a` |
| `Network.Scheme` | src/services/default-network-data.service.ts:58 | the scheme is the token type when it is non-empty, and `Bearer` when the type is missing or empty |
| `Network.TokenCredentials` | src/services/default-network-data.service.ts:51-58 | defines the Authorization value of one token: 401 exactly when the value is empty, otherwise the scheme, one space and the value; `Network.TokenCredentialsRoundTrip` states its layout |
| `Network.TokenCredentialsRoundTrip` | src/services/default-network-data.service.ts:51-58 | for a token with a non-empty value whose type holds no space (an RFC 9110 auth-scheme is a token), the Authorization value splits at its first space back into the scheme and the token value (RFC 9110 section 11.6.2 layout) |
| `Network.KeptFields` | src/services/default-network-data.service.ts:102-107 | the url-encoded form holds exactly the text entries `(key, value)` of the body whose value is truthy, and no more entries than the body has |
| `Network.KeptFieldsAppend` | src/services/default-network-data.service.ts:102-107 | the kept fields follow iteration order: those kept from `a + b` are those kept from `a` followed by those kept from `b` |
| `Network.ForInEntries` | src/services/default-network-data.service.ts:102 | defines the pairs `for...in` visits: an object's fields as they are, one pair per array item or string character, holding that item or character and keyed by the decimal numeral of its index, as `String(i)` writes it (the key parses back to the index), nothing for any other value; `Network.AppendTruthyFields` states what the loop does with them |
| `Network.FileFields` | src/services/default-network-data.service.ts:118-119 | defines the multipart form: one `file` entry named by the file's name when a file is given, none otherwise; `Network.DefaultNetworkRequestService.GetRequestProps` states its use |
| `Network.AppendTruthyFields` | src/services/default-network-data.service.ts:100-109 | the `for...in` loop that appends truthy entries builds exactly `KeptFields` of the body's entries, in iteration order |
| `Network.ListTotal` | src/services/default-network-data.service.ts:168 | defines `parseInt(last segment, 10) \|\| count`: the total is the count when the segment is `NaN`, and is `0` only for an empty list; `Network.ListTotalOfContentRange` states its value for a well-formed header |
| `Network.IsOctetStream` | src/services/default-network-data.service.ts:231-234 | defines the blob test: it holds only when a header object holds `application/octet-stream`, and never when neither `content-type` nor `Content-Type` is present; `Network.DefaultNetworkRequestService.DoRequest` states its use |
| `Network.ListTotalOfContentRange` | src/services/default-network-data.service.ts:155-168 | for a Content-Range written as RFC 9110 section 14.4 lays it out, the total is the complete length when it is known and non-zero, otherwise the item count (for `*` as well as `0`) |
| `Network.SingleRecordList` | src/services/default-network-data.service.ts:149-169 | a non-array `{ id: 1 }` fetched as `GET_LIST` with `content-range: items 0-0/1` becomes `{ data: [{ id: 1 }], total: 1 }` |
| `Network.DefaultNetworkRequestService.constructor` | src/services/default-network-data.service.ts:25-38 | the configuration is stored as given and no token is set |
| `Network.DefaultNetworkRequestService.AuthorizationHeader` | src/services/default-network-data.service.ts:46-59 | an in-memory token alone decides the result, even with an empty value; storage is consulted only when none is set; no token, or an empty value, is the 401 error; otherwise the value is `<type or Bearer> <value>` of the chosen token |
| `Network.DefaultNetworkRequestService.SetAuthToken` | src/services/default-network-data.service.ts:62-65 | the token becomes `{ type, value }`, and from then on the Authorization header is that token's (or 401 when its value is empty) whatever storage holds |
| `Network.DefaultNetworkRequestService.IsNoAuthPath` | src/services/default-network-data.service.ts:77 | defines membership in the no-auth list: never without a list, never for a resource not on it; `Network.DefaultNetworkRequestService.RequestHeader` states its effect |
| `Network.DefaultNetworkRequestService.DefaultHeaders` | src/services/default-network-data.service.ts:71-75 | `Timezone` and `Timezone-Offset` come first; a configured key takes the configured value, and the two timezone keys otherwise take the timezone values; keys are distinct |
| `Network.DefaultNetworkRequestService.RequestHeader` | src/services/default-network-data.service.ts:68-84 | a no-auth resource gets exactly the default headers and never 401; any other resource fails with 401 exactly when the Authorization value fails, and otherwise gets the default headers with `Authorization` set to the token's value, overriding a configured one |
| `Network.DefaultNetworkRequestService.GetRequestProps` | src/services/default-network-data.service.ts:87-137 | a header failure is passed on; url-encoded: Content-Type `application/x-www-form-urlencoded` and a form of exactly the truthy entries; multipart: headers unchanged and a form with only the `file` entry named by the file's name, or empty; otherwise Content-Type `application/json` and the body unchanged |
| `Network.DefaultNetworkRequestService.ConvertResponse` | src/services/default-network-data.service.ts:140-178 | non-list types pass `data` through with no total; list types keep an array and wrap anything else; under the content-range variant a missing or empty `content-range` fails (a `TypeError` without a header object) and otherwise `total` is the parsed last segment; without a variant there is no total |
| `Network.DefaultNetworkRequestService.DoRequest` | src/services/default-network-data.service.ts:181-257 | nothing is sent without a non-empty base URL (override first, then configured); GET sends no body; a truthy `error` in the JSON fails first; then 204 gives `{}`, octet-stream gives the blob, and anything else gives the JSON, each through `ConvertResponse` |
| `Logging.GenerateLog` | src/helpers/logger.helper.ts:39-57 | the line starts with `<ts> - [<level>]` and is longer than that exactly for a string message, which follows after one space; the arguments are kept, in order, at the end, with one more in front for a non-string message |
| `Logging.GenerateLogRoundTrip` | src/helpers/logger.helper.ts:43-55 | the message and every argument are recovered from the generated record: a string message after the single space that must follow the prefix, any other message as the first argument |
| `Logging.Logger.constructor` | src/helpers/logger.helper.ts:18-20 | debug is enabled exactly when `enableDebug` is `true` |
| `Logging.Logger.ToggleDebug` | src/helpers/logger.helper.ts:35-37 | `state: true` enables debug; a missing or `false` state flips the flag |
| `Logging.Logger.Log` | src/helpers/logger.helper.ts:59-70 | without a sink the call fails; a debug line while debug is off leaves the sink unchanged; any other line appends exactly one call, through `info` whatever the level, carrying the generated line and arguments |
| `Logging.Logger.Debug` | src/helpers/logger.helper.ts:72-74 | one line while debug is on, none while it is off; fails without a sink |
| `Logging.Logger.Info` | src/helpers/logger.helper.ts:76-78 | exactly one `info` call; fails without a sink |
| `Logging.Logger.Warn` | src/helpers/logger.helper.ts:80-82 | exactly one `info` call; fails without a sink |
| `Logging.Logger.Error` | src/helpers/logger.helper.ts:84-86 | exactly one `info` call; fails without a sink |
| `Logging.LoggerRegistry.GetInstance` | src/helpers/logger.helper.ts:22-29 | the first call creates a fresh logger; later calls return the same one; every call resets debug to `opts?.enableDebug ?? false` |

## Left out

- The transport's `send`, `rs.json()` and `rs.blob()` are foreign I/O. The response is an input, and a `json()` that throws (for example on an empty 204 body) is not modelled.
- `getRequestUrl` and the transport object come from `BaseNetworkRequestService`, which is not part of this model. The sent request carries the base URL and the path segments instead of a joined URL.
- `getError` from `../utilities` is not part of this model. Errors record the message and status code, or the server payload, that the code passes to it.
- `localStorage` and `JSON.parse` of the stored token are reduced to an optional `{ type?, value }` with string fields. A malformed stored JSON (a `SyntaxError`) and non-string stored fields are not modelled.
- `FormData` internals are not modelled. An appended text value is kept as given, without its conversion to a string.
- `App.TIMEZONE` and `App.TIMEZONE_OFFSET` are constructor parameters, given as strings. The `dayjs` clock of the logger becomes the `ts` parameter.
- `src/common/constants.ts` is not part of this model. Request types, methods, body types and the list variant appear as enumerations named after their constants, and every body type other than the two form types takes the JSON branch.
- A configured `HeadersInit` given as a `Headers` instance or as an array of pairs is not modelled. These spread differently from a plain object, and the model takes configured headers as a plain object.
- JavaScript numbers are modelled as integers plus `NaN`. Fractions, `-0` as distinct from `0`, and precision loss of large values are not modelled. JavaScript's ordering of integer-like object keys before other keys is not modelled either: object fields are taken in their iteration order.
- `for...in` over a blob, and inherited enumerable properties, are not modelled. The loop visits only own fields, array indices and string indices.
- Network.ForInEntries: a string is a sequence of Unicode characters, not UTF-16 code units. A character outside the Basic Multilingual Plane is one entry here, while `for...in` visits it as two entries, one per half of its surrogate pair.
- Response headers are looked up by exact name. The Fetch `Headers.get` matches names regardless of case; that matching is left to the transport.
- `async`/`await` is modelled as straight-line code, since no concurrency is involved.
- `getGetListVariant` only returns a field; it has no separate member.
- `src/common/types.ts` holds only type declarations and `src/ui/context.tsx` only a React context with two nulls. Neither has behaviour to model.

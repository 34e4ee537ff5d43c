# floodguard-hub: the authenticated request client

This project models the client-side HTTP layer of the floodguard-hub dashboard, `src/lib/api.ts`, and proves properties of the model. That layer has four parts:

- **Token store** (`tokenManager`). It keeps an access token and a refresh token in two `localStorage` slots.
- **Request client** (`apiRequest`). It adds a bearer token to each request. On a 401 it runs one refresh-and-retry cycle. Otherwise it turns the response status into a value or an error.
- **Refresh operation** (`refreshAccessToken`). It exchanges the refresh token for a new access token, or clears the store when that fails.
- **Auth helpers and URL builders**. These are `authAPI.login`, `register` and `logout`, and `API_ENDPOINTS.flood.helpDetails` and `crowdsourceDetails`.

Modules, one per concern:

- `Decimal` (decimal.dfy): how `${n}` writes an integer-valued number. It also holds the parser that reads the text back.
- `Js` (js.dfy): parsed JSON values, JavaScript truthiness, property reads (reading a property of `null` throws), `String(x)`, and the errors a promise rejects with.
- `Http` (http.dfy): request descriptors, and `fetch` as an oracle. Each call takes the next reply from a script. A reply is a status with a parsed-or-unparsable body, or a network failure.
- `Endpoints` (endpoints.dfy): the URLs, with the details-URL builders and their inverse.
- `Tokens` (tokens.dfy): the `Session` value, and the `TokenManager` class whose two fields the methods update in place.
- `ApiModel` (api_model.dfy): refresh, request, login and register as functions of the reply script. Refresh, request and login also take the store, and return a result, the new store, the trace of requests issued and the unused replies. Register takes only the script and returns a result, its trace and the unused replies.
- `ApiProperties` (api_properties.dfy): the promised behaviours, stated over concrete scripts.
- `Api` (api.dfy): the same operations as step-by-step methods over a `TokenManager`. Refresh, request, login and register are each proved equal to their `ApiModel` function. Logout has no `ApiModel` function; its contract states the cleared store directly.
- `Lifecycle` (lifecycle.dfy): a page session as a sequence of calls. It proves the tokens stay paired and bounds the requests per call.

Behaviour worth noting:

- Caller headers are spread after `Authorization` on the first attempt, so a caller's `Authorization` wins. On the retry the re-read token is forced over everything.
- A token counts as present only when it is truthy, so an empty string counts as absent.
- `localStorage.setItem` stores `String(value)`. A 2xx refresh reply without `access` is still a success, and the store then holds the text `"undefined"`.
- A `null` error body makes reading its `message` throw a TypeError. That error propagates from `apiRequest`, `login` and `register`. Inside `refreshAccessToken` a `null` success body makes reading `access` throw, and that is caught.
- A network failure of `fetch` propagates from `apiRequest`, `login` and `register`. Inside `refreshAccessToken` it is caught.

## Model

| member | source | states |
|---|---|---|
| `Decimal.NatToString` | src/lib/api.ts:25-27 | the decimal text of a number is non-empty and all digits, starts with `0` only for zero, and is exactly "0" for zero |
| `Decimal.ParseNatToString` | src/lib/api.ts:25-27 | reading the digits back gives the number |
| `Decimal.IntToString` | src/lib/api.ts:25-27 | `${n}` of an integer starts with a minus sign exactly when the integer is negative, and is canonical: "0", or digits with no leading zero, optionally after a minus sign |
| `Decimal.NatToStringOfParse` | src/lib/api.ts:25-27 | digits without a leading zero are exactly what the conversion writes for their value |
| `Decimal.CanonicalIsIntToString` | src/lib/api.ts:25-27 | every canonical text is the conversion's output for the integer it reads as |
| `Decimal.CanonicalUnique` | src/lib/api.ts:25-27 | two canonical texts that read as the same integer are equal, so canonical plus round trip pins the text |
| `Decimal.IntToStringRoundTrip` | src/lib/api.ts:25-27 | `ParseInt` inverts the template's integer-to-text conversion, minus sign included |
| `Decimal.IntToStringInjective` | src/lib/api.ts:25-27 | different integers are written differently |
| `Endpoints.HelpDetails` | src/lib/api.ts:25 | the URL starts with the base URL and the helpdetails path and ends in `/`; the text between is the canonical decimal of the id, which can be recovered from it |
| `Endpoints.CrowdsourceDetails` | src/lib/api.ts:27 | the same for the crowdsourcedetails path: prefix, canonical decimal id, trailing `/` |
| `Endpoints.DetailsRoundTrip` | src/lib/api.ts:25-27 | the text between path and trailing `/` is the id's decimal, and `DetailsId` recovers the id from any details URL |
| `Endpoints.HelpDetailsInjective` | src/lib/api.ts:25 | different ids give different help-details URLs |
| `Endpoints.DetailsUrlsDisjoint` | src/lib/api.ts:25-27 | no help-details URL equals a crowdsource-details URL |
| `Js.Truthy` | src/lib/api.ts:95 | a truthy value is defined and not `null`; every array and object, even an empty one, is truthy |
| `Js.ToJsString` | src/lib/api.ts:95 | `String(x)` gives a string itself, the canonical decimal text of a number (which parses back to it), "[object Object]" for an object and "" for an empty array |
| `Js.StorageString` | src/lib/api.ts:115 | `setItem` stores "undefined" for `undefined`, "null" for `null`, and a string as itself |
| `Js.Get` | src/lib/api.ts:95 | a property read throws exactly on `null`; on an object it gives the own field or `undefined`; on any other value it gives `undefined` |
| `Js.OptionalGet` | src/lib/api.ts:156 | `?.` gives a value exactly when the base is an object that has the field, and then gives that field |
| `Http.IsOk` | src/lib/api.ts:85 | `response.ok` is never true of a 401, so the 401 branch and the ok branch are disjoint |
| `Http.Fetch` | src/lib/api.ts:69-72 | each call of `fetch` takes the next scripted reply and leaves the rest; an exhausted script reads as a network failure |
| `Http.ReadJson` | src/lib/api.ts:88 | `response.json()` settles to the parsed body exactly when the body parses, and otherwise rejects with the SyntaxError |
| `Tokens.Present` | src/lib/api.ts:104 | the client's token test is JavaScript truthiness of a string or `null`, so `null` and the empty string are both absent |
| `Tokens.TokenManager.constructor` | src/lib/api.ts:44-45 | the store starts from what an earlier page load persisted |
| `Tokens.TokenManager.GetAccessToken` | src/lib/api.ts:44 | returns the stored access slot, `null` included |
| `Tokens.TokenManager.GetRefreshToken` | src/lib/api.ts:45 | returns the stored refresh slot, `null` included |
| `Tokens.TokenManager.SetTokens` | src/lib/api.ts:46-49 | both slots are overwritten with the given strings |
| `Tokens.TokenManager.ClearTokens` | src/lib/api.ts:50-53 | both slots become absent, whatever they held |
| `Tokens.SetTokensThenGet` | src/lib/api.ts:44-49 | after `setTokens(a, r)` the getters return exactly `a` and `r` |
| `Tokens.ClearTokensTwice` | src/lib/api.ts:50-53 | after `clearTokens` both getters report absence, and a second clear leaves the same state (idempotent) |
| `ApiModel.InitialHeaders` | src/lib/api.ts:63-67 | the key set is Content-Type, plus Authorization when the token is truthy, plus the caller's keys; caller values win; otherwise the defaults hold |
| `ApiModel.RetryHeaders` | src/lib/api.ts:80-83 | Authorization is forced to `Bearer <re-read token>`; every other header is kept |
| `ApiModel.ApiError` | src/lib/api.ts:86 | the generic message starts with `API Error: ` |
| `ApiModel.ErrorFromBody` | src/lib/api.ts:93-96 | a truthy `message` becomes the error text; a missing or falsy one, an unparsable body (read as `{}`), or a string, number, boolean or array body gives the fallback; a `null` body throws a TypeError |
| `ApiModel.RefreshAccepted` | src/lib/api.ts:113-115 | a refresh reply is accepted exactly when it is ok, its body parses, and reading `access` from it does not throw |
| `ApiModel.IssuesTokens` | src/lib/api.ts:156 | a login body issues tokens exactly when `token` is an object whose `access` and `refresh` are both present and truthy |
| `ApiModel.RefreshAccessToken` | src/lib/api.ts:102-124 | never throws; with no truthy refresh token it returns false, issues nothing and leaves the store unchanged; otherwise it issues one POST; it returns true exactly when that reply is 2xx with a readable body, storing `String(data.access)` and keeping the refresh token; every failure clears both tokens; pairing is preserved |
| `ApiModel.ApiRequest` | src/lib/api.ts:57-99 | one to three requests: the first attempt, then the refresh only after a 401 with a refresh token, then the retry only when the refresh succeeded, carrying the re-read token; a network failure on the first attempt throws with the store unchanged; a non-401 reply gives its parsed body when ok and the body's error otherwise; after a 401 the store is what the refresh left; a failed refresh gives the session-expired error; the retry's result is its parsed body, `API Error: <status>` or the network failure; the unused replies are stated in every case; pairing is preserved |
| `ApiModel.Login` | src/lib/api.ts:143-161 | one POST; the store changes only on a readable 2xx body whose `token.access` and `token.refresh` are both truthy, and then holds exactly those two; a non-ok reply gives the body's message or "Invalid credentials"; a network failure throws fetch's TypeError, an unparsable 2xx body the SyntaxError, and a `null` 2xx body the TypeError of reading `token`; pairing is preserved |
| `ApiModel.Register` | src/lib/api.ts:128-141 | one POST; the result is the body of a parsable 2xx reply; a non-ok reply gives the body's message or "Registration failed"; a network failure throws fetch's TypeError and an unparsable 2xx body the SyntaxError |
| `ApiProperties.ApiErrorCarriesStatus` | src/lib/api.ts:86 | `API Error: <status>` carries the status as canonical decimal text, which reads back as the status |
| `ApiProperties.RefreshStoresNewAccess` | src/lib/api.ts:113-116 | a 2xx reply with `access: a` makes the access token `a`, keeps the refresh token and returns true |
| `ApiProperties.RefreshWithoutAccessStoresUndefined` | src/lib/api.ts:113-116 | a 2xx reply without `access` returns true and stores the text "undefined" |
| `ApiProperties.SingleRetry` | src/lib/api.ts:75-88 | 401, accepted refresh, 2xx retry: exactly one refresh and one retry, and the retry's body is returned |
| `ApiProperties.NoRetryLoop` | src/lib/api.ts:84-87 | a 401 on the retry fails with `API Error: 401` after three requests, with no second refresh |
| `ApiProperties.FailedRefreshExpiresSession` | src/lib/api.ts:90 | a rejected refresh clears both tokens and fails with "Session expired. Please login again." after two requests |
| `ApiProperties.NoRefreshTokenExpiresSession` | src/lib/api.ts:103-104 | a 401 with no truthy refresh token issues no refresh and no retry, keeps the store and reports session expiry |
| `ApiProperties.ErrorMessagePrecedence` | src/lib/api.ts:93-96 | on a non-ok, non-401 reply a truthy `message` is the error text; an unparsable body, or a parsable non-null one without a truthy `message`, gives `API Error: <status>`; the store is untouched |
| `ApiProperties.AuthorizationPrecedence` | src/lib/api.ts:63-67 | a caller's Authorization overrides the stored token on the first attempt but not on the retry |
| `ApiProperties.LoginStoresIssuedPair` | src/lib/api.ts:155-158 | a login reply carrying `token.access = A` and `token.refresh = R` leaves exactly `A` and `R` in the store |
| `ApiProperties.LoginWithoutRefreshKeepsStore` | src/lib/api.ts:156 | a login reply whose token lacks `refresh` leaves the store as it was |
| `ApiProperties.RejectedLoginKeepsStore` | src/lib/api.ts:150-153 | a rejected login leaves the store untouched; an unparsable error body gives "Invalid credentials" |
| `Api.RefreshAccessToken` | src/lib/api.ts:102-124 | the step-by-step refresh over the store agrees with `ApiModel.RefreshAccessToken` |
| `Api.ApiRequest` | src/lib/api.ts:57-99 | the step-by-step request, including the nested refresh, agrees with `ApiModel.ApiRequest` |
| `Api.Login` | src/lib/api.ts:143-161 | agrees with `ApiModel.Login` |
| `Api.Register` | src/lib/api.ts:128-141 | agrees with `ApiModel.Register` and does not touch the store |
| `Api.Logout` | src/lib/api.ts:163-165 | both tokens are absent afterwards |
| `Lifecycle.Step` | src/lib/api.ts:57-165 | one call issues at most three requests, each request uses exactly one reply while the script lasts, and a paired store stays paired |
| `Lifecycle.RunKeepsPaired` | src/lib/api.ts:46-53 | over any sequence of calls the two tokens are both stored or both absent, given they were at the start |
| `Lifecycle.RunTraceBound` | src/lib/api.ts:75-90 | a sequence of n calls issues at most 3n requests |
| `Lifecycle.RunConsumesOneReplyPerRequest` | src/lib/api.ts:69-84 | the trace records every call of `fetch`: each consumed exactly one reply while the script lasted |

## Left out

- `fetch`, `localStorage` and `JSON.parse` are not real here. `fetch` is a script of replies, and an exhausted script reads as a network failure. `localStorage` is the two fields of `TokenManager`. `JSON.parse` is replaced by bodies given as parsed `Json` values or as unparsable.
- Request bodies are not serialised. `JSON.stringify` of the login, register and refresh bodies is kept as the abstract `Payload` values it would encode. A caller's body is opaque text.
- async/await scheduling is not modelled. Concurrent calls that each trigger a refresh, and races on the store, are left out. Each call runs to completion before the next starts.
- `console.error` in the refresh's catch block (src/lib/api.ts:119) has no observable effect on the model and is left out.
- `localStorage.setItem` can throw when storage is full. This is left out: both writes always succeed.
- Only integer-valued JavaScript numbers within the safe range are modelled, for ids and JSON numbers. Fractions, `NaN`, `-0` and exponent notation are floating point and are left out.
- `Js.Get` covers only the property names the client reads (`access`, `refresh`, `token`, `message`). None of them exists on a primitive or an array, so prototype properties are left out.
- Headers are modelled as a plain record with case-sensitive names. A `Headers` object or an array of pairs passed as `options.headers` is left out, and so is `fetch` folding header names case-insensitively.
- Of `RequestInit`, only `method`, `headers` and `body` are modelled. Other fields pass through the spreads unchanged in the source and are left out.
- `authAPI.getProfile`, `authAPI.resetPassword` and every `floodAPI` function (src/lib/api.ts:167-239) are single calls of `apiRequest` with a fixed URL. They are covered by `ApiModel.ApiRequest` with that URL and are not modelled one by one.
- The fixed endpoint strings other than login, register, token refresh and the two details paths are plain data and are not declared.
- The page components `src/pages/Settings.tsx` and `src/pages/Contribute.tsx` are not part of this model. They hold UI state, geolocation and float parsing.

# Routine API core: response normaliser, route gate, query keys, mock routine table

A Dafny model of the logic at the centre of a gym-routines web front-end:

- **Response normaliser** (`lib/error-handling.ts`): `handleResponse` turns an HTTP response
  into a decoded JSON value or a `RoutineApiError`. It is modelled as the pure function
  `ErrorHandling.Normalize` over the response head, the text the body settles to (or a failed
  read) and a given `JSON.parse`. `ErrorHandling.HandleResponse` is the same decision as a method
  over a single-use `BodyStream`. It is proved to produce `Normalize`'s outcome and to read the
  body exactly once, or not at all for a 204 / content-length "0" success.
- **Route gate** (`proxy.ts`): `Proxy.Decide(pathname, hasSessionCookie, cfg)` is the
  first-match classification `proxy` makes. The path can be a Next asset, a static file, an
  auth-API route, or a public sign-in path. Any other path passes only with a session cookie;
  without one it is redirected to the sign-in path. `isStaticFile`'s regular expression is
  written as an explicit suffix check, which is proved equal to the pattern.
- **Query keys** (`lib/api/routines/routine.queries.ts`): `routineKeys` and the options of
  `useRoutines`/`useRoutine`, with the prefix facts the mutations rely on when they invalidate
  `routineKeys.lists()` and `routineKeys.detail(slug)`.
- **Mock routine table** (`mocks/handlers/routine.handlers.ts`): `RoutineHandlers.RoutineStore`
  holds `ROUTINES_LIST` as a `seq<Routine>`. Its GET, POST and DELETE handlers include the two
  hard-wired 555 error triggers. `EndToEnd` connects the mock's replies to the normaliser.

The sign-in path and the auth-API prefix come from `lib/constants/auth.constants`, which is not
part of this model. The gate takes them as a `Config`. The concrete lemmas use `/auth`, the
sign-in path the component tests expect, and `/api/auth` as the auth-API prefix.

## Model

| member | source | states |
|---|---|---|
| `ErrorHandling.NewRoutineApiError` | lib/error-handling.ts:13-19 | the constructor names the error `RoutineApiError` and stores message, statusCode, errorType and details unchanged |
| `ErrorHandling.FallbackError` | lib/error-handling.ts:47 | a non-envelope error carries the fallback message, the HTTP status, the status text and the given details |
| `ErrorHandling.EnvelopeError` | lib/error-handling.ts:42-43 | an envelope error carries the body's own message, statusCode and errorType, and details only when the body has that key |
| `ErrorHandling.IsOk` | lib/error-handling.ts:23 | (definition) `response.ok`: the status lies in 200-299 |
| `ErrorHandling.HeaderGet` | lib/error-handling.ts:27 | a header value is returned exactly when the header is present, otherwise `null` |
| `ErrorHandling.IsJsonContentType` | lib/error-handling.ts:27-30 | (definition) the content-type header is present and includes `application/json` |
| `ErrorHandling.IsEnvelope` | lib/error-handling.ts:35-41 | (definition) the parsed value is a non-null object with the keys `statusCode`, `errorType` and `message`; key presence only |
| `ErrorHandling.FailureError` | lib/error-handling.ts:23-69 | the failure branch always yields a `RoutineApiError`. An envelope body yields the envelope's error; anything else yields fallback message, status and status text with some details, and a failed read gives the status text as details |
| `ErrorHandling.SkipsBody` | lib/error-handling.ts:73-76 | (definition) status 204, or a content-length header equal to `"0"` |
| `ErrorHandling.SuccessValue` | lib/error-handling.ts:72-94 | a skipped or unreadable body gives `undefined`; a value comes only from parsing a non-blank body |
| `ErrorHandling.Normalize` | lib/error-handling.ts:22-95 | rejects exactly when the status is outside 200-299, and then always with a `RoutineApiError`. The fallback message, status and status text are used unless the body is the envelope, in which case the error is built from the envelope. A success never rejects |
| `ErrorHandling.EnvelopeCase` | lib/error-handling.ts:30-43 | JSON content type, non-blank text, parsed to an object with `statusCode`, `errorType` and `message`: the error is exactly those fields plus `details` when present |
| `ErrorHandling.NonEnvelopeJsonCase` | lib/error-handling.ts:35-47 | JSON that parses but is not the envelope: fallback message, status, status text, and the parsed value as details |
| `ErrorHandling.MalformedJsonCase` | lib/error-handling.ts:48-55 | JSON content type, non-blank text that does not parse: fallback message, status, status text, and the raw text as details |
| `ErrorHandling.NotJsonOrBlankCase` | lib/error-handling.ts:59-60 | when the test at line 30 fails (non-JSON content type or blank text), the details are the raw text if it is non-empty, else the status text |
| `ErrorHandling.WhitespaceBodyKeptAsDetails` | lib/error-handling.ts:60 | a non-empty whitespace-only body is kept verbatim as details |
| `ErrorHandling.ReadFailureCase` | lib/error-handling.ts:61-68 | a failed body read on the failure path gives fallback message, status, status text, and the status text as details |
| `ErrorHandling.NoContentCase` | lib/error-handling.ts:73-78 | status 204 or content-length exactly "0" resolves to `undefined`, whatever the body |
| `ErrorHandling.SuccessBodyCase` | lib/error-handling.ts:80-94 | other successes: a blank or unreadable body is `undefined`, otherwise the parse result, with a parse failure also `undefined` |
| `ErrorHandling.BodyStream.constructor` | lib/error-handling.ts:26 | a fresh body is unread |
| `ErrorHandling.BodyStream.Text` | lib/error-handling.ts:82 | `text()` yields the body's text on the first read only and marks the body used |
| `ErrorHandling.HandleResponse` | lib/error-handling.ts:22-95 | the outcome equals `Normalize` of the body's text; the body is read once, or never for a 204 / content-length "0" success |
| `JsStrings.Trim` | lib/error-handling.ts:30 | `trim()` is the slice of the text left after cutting whitespace from both ends: everything cut is whitespace and neither end of the result is. It is empty exactly when the text is all whitespace |
| `JsStrings.TrimStart` | lib/error-handling.ts:85 | the result is a suffix of the text, everything dropped is whitespace, and it does not start with whitespace |
| `JsStrings.TrimEnd` | lib/error-handling.ts:85 | the result is a prefix of the text, everything dropped is whitespace, and it does not end with whitespace |
| `JsStrings.Includes` | lib/error-handling.ts:30 | (definition) `includes`: the substring is a prefix of some suffix; `IncludesIffOccurs` relates it to occurrence at an index |
| `JsStrings.IncludesIffOccurs` | lib/error-handling.ts:30 | `includes` holds exactly when the substring occurs at some index |
| `Json.Property` | lib/error-handling.ts:43 | property access yields the member when the object has the key, `undefined` otherwise |
| `Proxy.TrailingAlnum` | proxy.ts:12 | the length of the maximal run of `[a-zA-Z0-9]` that ends the path |
| `Proxy.IsStaticFile` | proxy.ts:12 | a static-file path ends in an alphanumeric and has a dot before it; `IsStaticFileIffPattern` gives the exact pattern |
| `Proxy.IsStaticFileIffPattern` | proxy.ts:12 | the suffix check accepts exactly the paths matching `\.[a-zA-Z0-9]+$` |
| `Proxy.IsPublicPath` | proxy.ts:6 | public exactly when the path is the sign-in path, or the sign-in path followed by `/` and more; every public path starts with the sign-in path |
| `Proxy.IsAuthApiRoute` | proxy.ts:8 | true exactly when the path begins with the auth-API prefix |
| `Proxy.IsNextAsset` | proxy.ts:10 | true exactly when the first six characters are `/_next` |
| `Proxy.Decide` | proxy.ts:14-28 | the only redirect target is the sign-in path. A redirect happens exactly when there is no cookie and the path is none of the four pass-through kinds |
| `Proxy.NextAssetContinues` | proxy.ts:10 | a path under `/_next` passes whatever the cookie |
| `Proxy.StaticFileContinues` | proxy.ts:12 | a path ending in a dot and one or more ASCII letters or digits passes |
| `Proxy.AuthApiRouteContinues` | proxy.ts:8 | a path under the auth-API prefix passes |
| `Proxy.PublicPathContinues` | proxy.ts:6 | the sign-in path and any path below it (`signIn + "/"` prefix) pass |
| `Proxy.ProtectedPathNeedsCookie` | proxy.ts:21-27 | any other path is redirected to the sign-in path without a cookie and passes with one |
| `Proxy.NoRedirectLoop` | proxy.ts:6 | the sign-in path passes with or without a cookie |
| `Proxy.CookieMonotone` | proxy.ts:17-27 | a path that passes without a cookie passes with one |
| `Proxy.SignInPagesPass` | proxy.ts:6 | `/auth` and `/auth/sign-up` pass without a cookie |
| `Proxy.RoutinesNeedsCookie` | proxy.ts:21-27 | `/routines` is redirected to `/auth` without a cookie and passes with one |
| `Proxy.AuthApiAndAssetsPass` | proxy.ts:8-10 | `/api/auth/session` and `/_next/static/chunk.js` pass without a cookie |
| `Proxy.AuthxIsNotPublic` | proxy.ts:6 | `/authx` is not public and is redirected to `/auth` without a cookie |
| `Proxy.LogoIsStaticFile` | proxy.ts:12 | `/logo.png` passes without a cookie |
| `Proxy.AuthorsIsNotPublic` | proxy.ts:6 | `/authors` starts with `/auth` but is not public and is redirected without a cookie |
| `RoutineQueries.Lists` | lib/api/routines/routine.queries.ts:7 | `lists()` is `all` followed by `'list'` |
| `RoutineQueries.List` | lib/api/routines/routine.queries.ts:8 | `list(f)` has `lists()` as a strict prefix, length 3, and ends in the `{ filters }` object |
| `RoutineQueries.Details` | lib/api/routines/routine.queries.ts:9 | `details()` is `all` followed by `'detail'` |
| `RoutineQueries.Detail` | lib/api/routines/routine.queries.ts:10 | `detail(id)` has `details()` as a strict prefix, length 3, and ends in the id |
| `RoutineQueries.Invalidates` | lib/api/routines/routine.mutations.ts:17 | (definition) a non-exact `invalidateQueries` reaches every key that the filter key is a prefix of; the same matching is used at lines 29-30 and 42 |
| `RoutineQueries.DetailInjective` | lib/api/routines/routine.queries.ts:10 | `detail(a) == detail(b)` exactly when `a == b` |
| `RoutineQueries.ListsInvalidation` | lib/api/routines/routine.queries.ts:7-10 | invalidating `lists()` reaches `lists()` and every `list(f)` and no `detail(id)`; list and detail keys differ at index 1 |
| `RoutineQueries.DetailInvalidation` | lib/api/routines/routine.queries.ts:10 | invalidating `detail(slug)` reaches `detail(id)` exactly when `id == slug` |
| `RoutineQueries.UseRoutines` | lib/api/routines/routine.queries.ts:13-18 | the list query uses `lists()` and is always enabled |
| `RoutineQueries.UseRoutine` | lib/api/routines/routine.queries.ts:20-26 | the detail query uses `detail(slug)` and is enabled exactly when the slug is non-empty |
| `RoutineHandlers.InitialRoutines` | mocks/handlers/routine.handlers.ts:8-25 | the initial table has two routines: id `'1'` "Leg Day", then "Upper Body" |
| `RoutineHandlers.IsMockedErrorDetails` | mocks/handlers/routine.handlers.ts:31 | (definition) `arrayElements([null, {}])` picks a non-empty selection of the two, in either order |
| `RoutineHandlers.MockedErrorBody` | mocks/handlers/routine.handlers.ts:27-32 | the mocked error is an object with exactly the keys statusCode, errorType, message and details |
| `RoutineHandlers.MockedErrorReply` | mocks/handlers/routine.handlers.ts:45 | (definition) status 555 with the mocked error body, as sent at lines 45 and 61 |
| `RoutineHandlers.RoutineToJson` | mocks/handlers/routine.handlers.ts:57 | a routine serialises to an object with exactly its five string fields, plus `description` when it is defined, each holding the routine's value |
| `RoutineHandlers.RoutineFromJson` | lib/interfaces/routine.ts:1-8 | (definition) reads a `Routine` back: the five string fields are required, `description` optional |
| `RoutineHandlers.RoutineJsonRoundTrip` | mocks/handlers/routine.handlers.ts:57 | reading back the serialised routine gives the stored routine, so every field is sent |
| `RoutineHandlers.RoutinesToJson` | mocks/handlers/routine.handlers.ts:39 | the list reply has one element per routine, in order |
| `RoutineHandlers.RemoveId` | mocks/handlers/routine.handlers.ts:65 | the filter keeps exactly the routines whose id differs from the slug |
| `RoutineHandlers.RemoveIdAppend` | mocks/handlers/routine.handlers.ts:65 | filtering distributes over concatenation, so kept routines keep their order |
| `RoutineHandlers.RemoveIdAbsent` | mocks/handlers/routine.handlers.ts:65-66 | deleting a slug no routine carries leaves the table unchanged |
| `RoutineHandlers.CreateThenDeleteRestores` | mocks/handlers/routine.handlers.ts:56-65 | appending a routine with a fresh id and then filtering that id out gives back the table |
| `RoutineHandlers.RoutineStore.constructor` | mocks/handlers/routine.handlers.ts:8-31 | the store starts with the initial table and the generated error details |
| `RoutineHandlers.RoutineStore.List` | mocks/handlers/routine.handlers.ts:38-40 | GET answers 200 with the serialised table and changes nothing |
| `RoutineHandlers.RoutineStore.Create` | mocks/handlers/routine.handlers.ts:41-58 | name `'error'` answers the 555 envelope with the table unchanged; any other name appends exactly one routine with the given name and description and answers it |
| `RoutineHandlers.RoutineStore.Delete` | mocks/handlers/routine.handlers.ts:59-67 | slug `'1'` answers the 555 envelope with the table unchanged; any other slug filters that id out and answers `{}` |
| `RoutineHandlers.CreateThenDelete` | mocks/handlers/routine.handlers.ts:41-67 | a create with a fresh id followed by a delete of that id leaves the store as it was |
| `EndToEnd.MockedErrorReachesCaller` | mocks/handlers/routine.handlers.ts:27-32 | the mock's 555 reply is normalised to a `RoutineApiError` with "Mocked error message", 555, "MOCKED_ERROR" and the generated details |
| `EndToEnd.SuccessReplyDecodes` | lib/error-handling.ts:80-90 | a 200 JSON reply from the mock resolves to the JSON it carried |
| `EndToEnd.EmptySuccessIsUndefined` | lib/error-handling.ts:76-78 | a 200 response with content-length "0" resolves to `undefined` |

## Left out

- I/O and asynchrony: `fetch`, `Promise` and `await` are modelled synchronously. A response's body is the text it would settle to, or None when the read rejects.
- `JSON.parse` is a given function (`Parser`); JSON serialisation by the mock server (`HttpResponse.json`) is stated as the `EndToEnd.Carries` premise (the body text parses back to the reply's JSON) instead of being computed.
- `ErrorHandling.NewRoutineApiError`: the `Error` constructor converts a non-string `message` to a string. An object whose `toString` and `valueOf` are not callable makes that conversion throw a `TypeError`, and the source then lands in its parse-failure branch. Neither is modelled; the error keeps the message value as given.
- The error's stack trace and its `instanceof Error` identity are not modelled; `name` is.
- `Headers` handling: header names are taken as already lower-case, and several values of one header as already combined.
- The caller's type parameter `T` of `handleResponse` is only a cast in the source; the model resolves to the parsed JSON value itself.
- Determinism ("two identical responses give equal results") holds by construction, since `Normalize` is a function.
- The redirect is to `new URL(AUTH_SIGN_IN_PATH, request.url)`; the model returns the sign-in path, not the absolute URL.
- `getSessionCookie` is a boolean input. The gate checks only that the cookie is present, never its contents.
- The layout's `isAuthPath` (app/layout.tsx:31) is a plain `startsWith` and is looser than the gate's public-path test; `Proxy.AuthorsIsNotPublic` shows the difference, and the layout itself is not modelled.
- `RoutineQueries.Invalidates`: TanStack Query's partial key matching is modelled as list prefix. This agrees with the library for the string keys invalidated here.
- The query hooks' fetching, caching and React state; the mutations' wiring beyond which keys they invalidate.
- The mock's `http.all('*')` 500 ms delay, MSW request routing and the base URL. Faker's generated ids, dates and error details are parameters.
- `RoutineHandlers.RoutineStore.Create`: the request body's `name` is taken as a string, as the `CreateRoutineRequest` interface declares; a non-string name sent by a client is not modelled.
- The update handler and the detail GET are not in the mock, so the model has none.
- API client wrappers (`lib/api/routines/routine.requests.ts`), auth client, callback URL, environment constants, UI pages and components.

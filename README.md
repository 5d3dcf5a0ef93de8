# SnippetBox: validator, snippet handlers and security headers

SnippetBox is a server-rendered web application for sharing short text
"snippets". This project models three parts of it in Dafny and proves
properties of the model:

- **The form validator** (`internal/models/validator.go`). `Validator` is a
  class with the two fields the Go struct has: a field-error map where the
  first error for a key wins, and a list of non-field errors that only grows.
  Its checks are modelled as functions over strings: `NotBlank` (not empty
  after `strings.TrimSpace`), `MaxChars`/`MinChars` (rune counts),
  `PermittedValue` (a scan with an early return) and `Confirms`.
- **The snippet handlers** (`cmd/web/handlers.go`): `home`, `snippetView`,
  `snippetCreate` and `snippetCreatePost`. Each one is a method. It takes the
  request data and the snippet store's replies. It returns two things: the
  writes it makes on the response (`http.Error` through the
  `serverError`/`clientError`/`notFound` helpers, `render`, or
  `http.Redirect`), and the store calls it makes.
- **The security-headers middleware** (`cmd/web/middleware.go`).
  `secureHeaders` sets five fixed headers on the response-header map in place
  and then calls the downstream handler. `logRequest` just calls the
  downstream handler. The response writer is a class. The downstream handler
  is abstract: a function from the request and the headers it sees to the
  headers it sets and the writes it makes.

Go's `int` is modelled as 64 bits wide: `strconv.Atoi` fails outside that
range. A Dafny `char` is a Unicode scalar value, so a string's rune count is
its length. The `Http` module gives the client's view of a response: the first
write decides the status, a later `WriteHeader` is ignored, and every body part
is delivered in order.

Files: `models.dfy` (module `Models`), `decimal.dfy` (`Decimal`: `strconv.Atoi`
and `%d`), `http.dfy` (`Http`), `handlers.dfy` (`Handlers`), `middleware.dfy`
(`Middleware`).

## Model

| member | source | states |
|---|---|---|
| `Models.TrimSpace` | internal/models/validator.go:54 | the result is a slice `s[i..j]` with only whitespace (Go's `unicode.IsSpace`) before `i` and from `j` on; it is empty iff every character is whitespace, and otherwise it starts and ends with a non-space character |
| `Models.NotBlank` | internal/models/validator.go:52-55 | true iff the value has a non-whitespace character, i.e. false exactly when it is empty after trimming |
| `Models.MaxChars` | internal/models/validator.go:58-60 | true iff the rune count is at most `max` |
| `Models.MinChars` | internal/models/validator.go:74-76 | true iff the rune count is at least `min` |
| `Models.PermittedValue` | internal/models/validator.go:64-71 | the scan returns true iff the value occurs in the permitted list |
| `Models.Confirms` | internal/models/validator.go:83-85 | as written, true iff the two values differ |
| `Models.WithFieldError` | internal/models/validator.go:26-36 | recording an error adds the key if it is absent, never replaces an existing message, and leaves every other key alone |
| `Models.FirstFieldErrorWins` | internal/models/validator.go:31-35 | a second error recorded for the same key changes nothing; the key keeps the first message |
| `Models.AfterChecksAppend` | internal/models/validator.go:44-49 | applying one more CheckField after a run of them gives AfterChecks of the whole run, so calls made one at a time build AfterChecks of the list |
| `Models.AfterChecksHasKey` | internal/models/validator.go:44-49 | after a run of CheckField calls a key has an error iff it had one before or a check for it failed |
| `Models.AfterChecksKeepsEarlier` | internal/models/validator.go:31-35 | a message recorded before a run of CheckField calls is still the key's message after it |
| `Models.AfterChecksFirstFailure` | internal/models/validator.go:44-49 | a key with no earlier error ends with the message of the first failing check for it |
| `Models.AfterChecksFirstFailureWins` | internal/models/validator.go:44-49 | after a sequence of CheckField calls, a key has an error iff it had one before or a check for it failed; the message is the earlier one, or else that of the first failing check for the key |
| `Models.Validator.constructor` | internal/models/validator.go:13-18 | a new validator has no field errors and no non-field errors |
| `Models.Validator.Valid` | internal/models/validator.go:21-23 | true iff the field-error map and the non-field-error list are both empty |
| `Models.Validator.AddFieldError` | internal/models/validator.go:26-36 | the field errors become `WithFieldError` of the old ones (first error wins); the non-field errors are unchanged; afterwards the validator is not valid |
| `Models.Validator.AddNonFieldError` | internal/models/validator.go:39-41 | the message is appended after all earlier ones; the field errors are unchanged; afterwards the validator is not valid |
| `Models.Validator.CheckField` | internal/models/validator.go:44-49 | a passing check changes nothing; a failing one has exactly the effect of AddFieldError and leaves the validator not valid |
| `Decimal.Atoi` | cmd/web/handlers.go:125 | a successful parse means an optional sign followed by at least one digit, and its value is the digits' value, negated after '-'; conversely every such string whose value is in the 64-bit range parses to that value; the empty string, a lone sign and an out-of-range value fail |
| `Decimal.FormatNat` | cmd/web/handlers.go:171 | the decimal digits of a natural number: non-empty, digits only, no leading zero, and they denote the number |
| `Decimal.FormatInt` | cmd/web/handlers.go:171 | `%d` of an int: a leading '-' iff the value is negative, followed by FormatNat of the magnitude (shortest digits, denoting the magnitude) |
| `Decimal.AtoiFormatInt` | cmd/web/handlers.go:171 | every 64-bit integer written with `%d` parses back to itself with `strconv.Atoi` |
| `Decimal.FormatIntInjective` | cmd/web/handlers.go:171 | distinct ids are written as distinct strings |
| `Http.PerformAll` | cmd/web/helpers.go:61-63 | performing writes in order: once the status is written it never changes, otherwise the first write sets it, and every body part is kept in order |
| `Http.Sent` | cmd/web/helpers.go:61-63 | the client receives the status of the first write (200 if nothing was written) and all parts in order |
| `Handlers.FormValue` | cmd/web/handlers.go:132-133 | `PostForm.Get`: the first value submitted for the key, or "" when there is none |
| `Handlers.ServerError` | cmd/web/helpers.go:18-27 | serverError answers with a plain 500 |
| `Handlers.ClientError` | cmd/web/helpers.go:30-32 | clientError answers with the status it is given |
| `Handlers.NotFound` | cmd/web/helpers.go:35-37 | notFound is clientError with 404 |
| `Handlers.Home` | cmd/web/handlers.go:25-46 | any path but "/" gives 404 without a store call; "/" calls Latest once; on success the home page is rendered with 200; on failure the 500 is followed by the page rendered with no snippets, so the client gets status 500 |
| `Handlers.HomeReturningOnError` | cmd/web/handlers.go:36-39 | with a `return` after serverError: a failed Latest gives the 500 response alone, one write in every case |
| `Handlers.SnippetView` | cmd/web/handlers.go:48-77 | a non-numeric or negative id gives 404 without a Get (0 passes); otherwise Get is called once with the id, and no record gives 404, another error 500, a snippet the view page with 200 |
| `Handlers.SnippetCreate` | cmd/web/handlers.go:79-112 | the creation page is rendered with 200 and an empty form whose expiry is 365, a permitted value |
| `Handlers.TitleError` | cmd/web/handlers.go:143-147 | a title gets an error iff it is blank or over 100 runes; blankness takes precedence, so the message is "empty" for a blank title and "too long" otherwise |
| `Handlers.ContentError` | cmd/web/handlers.go:149-151 | content gets an error iff it is blank; there is no length limit |
| `Handlers.ExpiresError` | cmd/web/handlers.go:153-155 | an expiry gets an error iff it is not 1, 7 or 365 |
| `Handlers.CreateFormErrors` | cmd/web/handlers.go:141-155 | the form's field errors use only the keys title, content and expires; each key is present iff its check fails, with that check's message |
| `Handlers.CreateFormValidIff` | cmd/web/handlers.go:143-157 | a form has no field error iff the title is not blank and has at most 100 runes, the content is not blank, and the expiry is permitted |
| `Handlers.CheckTitle` | cmd/web/handlers.go:143-147 | the title block sets at most the title key, to the title's error |
| `Handlers.CheckContent` | cmd/web/handlers.go:149-151 | the content block sets at most the content key, to the content's error |
| `Handlers.CheckExpires` | cmd/web/handlers.go:153-155 | the expires block sets at most the expires key, to the expiry's error |
| `Handlers.ValidateCreateForm` | cmd/web/handlers.go:136-155 | the three blocks run in order on an empty map and build exactly CreateFormErrors |
| `Handlers.ViewPath` | cmd/web/handlers.go:171 | the redirect target is "/snippet/view/" followed by at least one character |
| `Handlers.ViewPathRoundTrip` | cmd/web/handlers.go:171 | the id in a redirect target parses back to the same id, as snippetView parses it |
| `Handlers.SnippetCreatePost` | cmd/web/handlers.go:115-172 | a form that fails to parse, or a non-integer expiry, gives 400 with no store call; field errors give a 422 re-render with the submitted title, content and expiry and no Insert; otherwise Insert is called exactly once with them, and a failure gives 500 while an id gives a 303 redirect to its view path |
| `Middleware.ResponseWriter.Set` | cmd/web/middleware.go:10 | `Header().Set` makes the key hold exactly the value and changes nothing else |
| `Middleware.ResponseWriter.Serve` | cmd/web/middleware.go:17 | the downstream handler runs once on the request and the current header map; its header sets are merged into the header map and its writes are appended to the response |
| `Middleware.WithSecureHeaders` | cmd/web/middleware.go:10-15 | the five keys hold their fixed values (the Content-Security-Policy, `origin-when-cross-origin`, `nosniff`, `deny`, `0`); every other key keeps its value and no other key is added |
| `Middleware.WithSecureHeadersIdempotent` | cmd/web/middleware.go:10-15 | setting the five headers twice gives the same map as setting them once |
| `Middleware.WithSecureHeadersOverwrites` | cmd/web/middleware.go:10-15 | the result does not depend on what the five keys held before |
| `Middleware.SecureHeaders` | cmd/web/middleware.go:6-19 | the five headers are set before the downstream handler runs, so it sees them; it runs exactly once on the unchanged request; its header sets are merged into the header map, and its writes (status and body) are appended to the response unchanged |
| `Middleware.LogRequest` | cmd/web/middleware.go:21-28 | the downstream handler runs exactly once on the unchanged request and response |
| `Middleware.RecordedHeader` | cmd/web/middleware_test.go:21-27 | the recorder reports the header map as it was when the status was written; a plain body written first, with no Content-Type and no Transfer-Encoding set, adds exactly the Content-Type sniffed from that body; otherwise the map is reported unchanged |
| `Middleware.SecureHeadersOnFreshResponse` | cmd/web/middleware_test.go:12-53 | a handler writing "OK" behind secureHeaders gives the five headers with their values plus the Content-Type the recorder sniffs from "OK", and no other header; status 200 and body "OK" |

## Left out

- Template rendering: `render` is assumed to find its template and execute it. Its 500 path for a missing template or an execution error (cmd/web/helpers.go:42-57) is not modelled. The page data is only the handler's own field (form, snippet or snippets). `newTemplateData`'s year, flash message, authentication flag and CSRF token are session and clock I/O.
- `http.Error` and `http.Redirect` bodies and headers (Content-Type, Location): library output. A write records only its status and what it carries.
- `ParseForm`: its failure is an input (`postForm` is `None`). What makes a body unparseable is library behaviour.
- The snippet store (SQL over `database/sql`): an abstract collaborator. It gives one reply per operation: a value, `ErrNoRecord`, or another error.
- Routing: `snippetView` takes the id string as an input. As registered on a `ServeMux` (cmd/web/routes.go:16), the handler gets no router parameter, so the id string is "". The model then answers 404 without a Get, because `Atoi("")` fails.
- Header-key canonicalisation by `textproto`: keys are compared as written. Go stores `X-XSS-Protection` as `X-Xss-Protection`, and `Get` canonicalises the same way, so reads of the five literal keys agree with the model.
- Header timing on a real connection: a handler's header sets are merged into the header map before its writes. A header set after the first `Write` or `WriteHeader` stays in the map in Go but is not sent, and the model does not express that order. A handler's `Header().Del` (for example `http.Error` deleting Content-Length) is not modelled either.
- `http.DetectContentType`: a parameter of `RecordedHeader`. For the body "OK" it gives `text/plain; charset=utf-8`. The Content-Type that `net/http`'s own server sniffs for a real response, and the one `render` gets from its HTML, are not modelled.
- `logRequest`'s log line, and the stack trace `serverError` logs: logging only.
- `Validator.Matches` and `EmailRX`: the regular-expression engine is not part of this model. No handler in cmd/web/handlers.go calls `Matches`.
- The nil/empty distinction of Go's `FieldErrors` map: reading a nil map behaves like reading an empty one, and `AddFieldError` allocates the map before it writes, so both are the empty map here.
- Users, sessions, CSRF and authentication: internal/models/users.go, cmd/web/main.go and the session, CSRF and auth middleware are not part of this model.

## Findings

| source | as written | input that shows it | evidently intended | confidence | as-written member | corrected member |
|---|---|---|---|---|---|---|
| cmd/web/handlers.go:36-44 | after `Latest` fails, `serverError` writes the 500, but there is no `return`, so `render` still runs. Its `WriteHeader(200)` is ignored and the home page is appended to the error text | path "/" with a store whose `Latest` returns an error: the response is status 500 with two body parts, the error and the page | return right after `serverError`, as every other handler does, so the 500 is the whole response | high; not executed | `Handlers.Home` | `Handlers.HomeReturningOnError` |

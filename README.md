# httptestclient in Dafny

A model of the two pieces of logic at the heart of httptestclient, a Go helper
for writing HTTP tests against an `httptest.Server`.

* **The request builder** (`client.go`). A mutable `Client` accumulates the
  method, url, headers, body, form and expectations of one request. It builds
  the request, joining paths and defaulting the Content-Type. It then sends the
  request and decides whether the exchange met the expectations: the redirect
  path, a transport error, a missing redirect, and the status policy. Every
  failure goes through `failNow`, which reports a format and its arguments to
  the test sink and sets a sticky error. Once that error is set, no later
  build sends anything.

  In the model, `HttpTestClient.Client` is a class with the same fields. It
  adds `reported`, the log of reports the test sink received. Each method
  states its new state in terms of a pure function over the `ClientState`
  snapshot: `WithExpectedStatus`, `WithFormData`, `WithJsonBody`, `Build`,
  `Dispatch` and `DispatchSimple`. Those functions carry the properties, and
  every one of them keeps the `Consistent` invariant:
  * the expected status is never a 3xx code;
  * the error is set exactly when something was reported.

  `Header` and `FormData` keep the source's loops. So does the redirect check
  in `Do`, which loops over the hops and sets `wasRedirected`.

* **The `$token` expander** (`strings.go`). `Template.Expansion` is a
  character-by-character reference definition of the expansion.
  `Template.ReplaceAllStringSubmatchFunc` is the match-and-splice loop of the
  source, proved equal to that definition. It works from a model of the
  regular expression `\$[a-zA-Z0-9_]+` (`FindFrom`, greedy and
  left-to-right). `Template.Resolve` is the per-token rule:
  * a key `strconv.Atoi` accepts takes the index path, rendering the argument
    or `[bad_index:$n]`;
  * any other key is looked up in a single map argument, rendering the value
    or `[no_key:$key]`.

  The conversions are in `Strconv`; the multimap operations of `http.Header`
  and `url.Values` are in `Multimap`.

Where the code and its prose description differ, the model follows the
code:
* With no expected status, every status below 400 passes, not only 2xx.
* A negative expected status is never compared, because the code tests
  `expectedStatus > 0`.
* After `FormData`, a later `BodyBytes` replaces the body, but the
  non-empty form still forces the form Content-Type. The form takes
  precedence only for that header.

How a failure stops execution: a real `FailNow` ends the test, so the model
ends the operation that reported. The self-test sink's `FailNow` returns
instead; the flag `selfTest` (`nonHalting` in `WithJsonBody`) covers the
places where the code then goes on:
* `BodyJSON(nil)` stores `ErrNilBodyJSON`;
* a refused redirect also makes the HTTP client return an error, which
  `hasError` reports a second time;
* an exchange that met every expectation is reported as "ASSERTION NOT MET".

## Model

| member | source | states |
|---|---|---|
| Multimap.Get | client.go:270 | `Header.Get` is the first value of the key, or "" when there is none |
| Multimap.Set | client.go:184 | `Set` leaves exactly one value for the key and every other key as it was |
| Multimap.Add | client.go:186 | `Add` appends after the existing values and touches no other key |
| Multimap.AddPairsAppends | client.go:200-202 | adding key/value pairs never overwrites: each key keeps its old values followed by its paired values in argument order, and the keys are the old ones plus the named ones |
| HttpTestClient.Initial | client.go:94-110 | `New` gives method GET, url "/", exactly the headers Accept: application/json and User-Agent: test-http-request, no body, empty form, expected status 0, no error, nothing reported |
| HttpTestClient.Client.constructor | client.go:94-110 | the new client's state is `Initial()` and it is consistent |
| HttpTestClient.Client.FailNow | client.go:370-377 | the report is appended to the sink's log and becomes the sticky error |
| HttpTestClient.Client.HasError | client.go:357-367 | returns true exactly for a non-nil error, after reporting "Expected no error, got %v" with it; nil changes nothing |
| HttpTestClient.Client.Context | client.go:113-116 | only the context changes |
| HttpTestClient.WithExpectedStatus | client.go:120-127 | a 3xx code is reported as "misuse of ExpectedStatusCode(%d), use ExpectRedirectTo instead" with the code, sets the error and leaves the expected status as it was; any other code is stored and nothing else changes |
| HttpTestClient.Client.ExpectedStatusCode | client.go:120-127 | the new state is `WithExpectedStatus` of the old one |
| HttpTestClient.Client.ExpectRedirectTo | client.go:130-133 | only the expected redirect path changes |
| HttpTestClient.Client.Method | client.go:136-139 | only the method changes |
| HttpTestClient.Client.URL | client.go:142-145 | only the url changes, to the formatted string |
| HttpTestClient.Client.Post | client.go:150-152 | method POST and the url, nothing else |
| HttpTestClient.Client.Put | client.go:157-159 | method PUT and the url, nothing else |
| HttpTestClient.Client.Patch | client.go:164-166 | method PATCH and the url, nothing else |
| HttpTestClient.Client.Get | client.go:171-173 | method GET and the url, nothing else |
| HttpTestClient.Client.Delete | client.go:178-180 | method DELETE and the url, nothing else |
| HttpTestClient.Client.Header | client.go:183-189 | after `Set` and the loop of `Add`, the name has exactly `[value] + more`, replacing earlier values; every other header and field is unchanged |
| HttpTestClient.WithFormData | client.go:193-206 | an odd count is reported as "Incorrect number of parameters %d items, missed pair" with the count and changes neither form nor body; an even count appends every pair to the form in order without overwriting, adds the named keys, makes the body the encoding of the whole form and reports nothing |
| HttpTestClient.Client.FormData | client.go:193-206 | the loop leaves the state `WithFormData` describes |
| HttpTestClient.Client.ClearHeaders | client.go:209-212 | the header map becomes empty, defaults included |
| HttpTestClient.Client.BodyBytes | client.go:215-218 | only the body changes, to the given bytes |
| HttpTestClient.Client.BodyString | client.go:240-242 | only the body changes, to the bytes of the string |
| HttpTestClient.WithJsonBody | client.go:221-235 | nil is reported exactly as "payload to send is nil" and sets the error; an encoding error is reported through `hasError`; both leave the body alone; an encoded value becomes the body and nothing else changes |
| HttpTestClient.Client.BodyJSON | client.go:221-235 | the new state is `WithJsonBody` of the old one for this client's sink |
| HttpTestClient.JoinPath | client.go:349-354 | the result is the root, then exactly one '/', then the path without its leading '/' if it had one |
| HttpTestClient.RequestHeaders | client.go:267-272 | a non-empty form forces Content-Type application/x-www-form-urlencoded; otherwise a body with no Content-Type gets application/json; otherwise the headers are unchanged; no other header changes |
| HttpTestClient.Build | client.go:252-274 | a stored error gives no request and changes nothing; a failing request constructor gives no request and one "Expected no error" report; otherwise the url is `JoinPath(base, url)`, a form with an empty method switches the client's method to POST, an empty method is still sent as GET (the client keeps ""), the client's headers become `RequestHeaders` and are the request's, and nothing is reported |
| HttpTestClient.Client.BuildRequestWith | client.go:252-274 | the new state and the request are those of `Build` |
| HttpTestClient.Client.BuildRequest | client.go:245-250 | `Build` against the empty base URL |
| HttpTestClient.FirstMismatch | client.go:290-298 | no hop is refused exactly when every hop path equals the expected redirect path; a refused hop is one of the hops and differs from it |
| HttpTestClient.FirstMismatchAt | client.go:290-298 | the refused hop is the first one whose path differs |
| HttpTestClient.Decide | client.go:288-321 | a response comes back exactly when every hop matched, there was no transport error, an expected redirect happened and the status policy holds; the first report names the first failed check in the order redirect hop, transport error, missing redirect, success status, exact status, with its arguments; a refused hop logs exactly the expected path and the first mismatching hop, followed for a self-testing sink by "Expected no error" carrying that report; a failure always reports and sets the error; a pass reports only "ASSERTION NOT MET" to a self-testing sink; only the error and the log change |
| HttpTestClient.Dispatch | client.go:277-322 | with a stored error `Do` sends nothing, returns nothing and reports nothing; otherwise a built request gets a response exactly when `Passes` holds |
| HttpTestClient.Client.Do | client.go:277-322 | the hop loop with `wasRedirected` and the checks after it leave the state and response of `Dispatch` |
| HttpTestClient.DispatchSimple | client.go:325-346 | a passed exchange with a readable body gives its header, text and status; a failed read is reported and gives the zero response; a failed exchange gives the zero response |
| HttpTestClient.Client.DoSimple | client.go:325-346 | the state and result of `DispatchSimple` |
| HttpTestClient.NewClientRequest | client.go:94-110 | a fresh client builds GET `<base>/` with exactly the two default headers, no body and the background context |
| HttpTestClient.BuildTwice | client.go:252-274 | building again after a successful build gives the same request and the same state |
| HttpTestClient.NilPayloadBlocksRequest | client_test.go:216-225 | after `BodyJSON(nil)` the next build yields no request and the only report is "payload to send is nil" |
| HttpTestClient.StickyError | client.go:256-258 | once the error is set, later setters keep it set and `Do` sends nothing and reports nothing |
| Strconv.Atoi | strings.go:13 | a digit string parses exactly when its value fits in int64, to that value; any other character except one leading sign makes it fail |
| Strconv.NatToDecimal | strings.go:15 | `%d` of a non-negative value is a digit string worth that value, with no redundant leading zero |
| Strconv.IntToDecimal | strings.go:15 | `%d` of a negative value is '-' and the digits of its magnitude |
| Strconv.DecimalRoundTrip | strings.go:13-15 | printing the parsed value of a digit string with no redundant leading zero gives that digit string back |
| Strconv.AtoiOfDecimal | strings.go:13-15 | `Atoi` reads back every int64 value `%d` prints |
| Template.WordRunEnd | strings.go:9 | the token run ends at the end of the text or at a non-word character |
| Template.WordRunIsWord | strings.go:9 | every character of the run is a word character |
| Template.WordRunEndIs | strings.go:9 | a word run that stops at a non-word character or the end is the run the pattern finds (greedy) |
| Template.SubmatchIndex | strings.go:34-37 | the four indices of a match are in bounds and slice out the whole match and its key group |
| Template.FindFromSound | strings.go:34 | every reported match is a greedy token match, and the matches are ordered and do not overlap |
| Template.FindFromComplete | strings.go:34 | every position where the pattern can start is the start of a reported match |
| Template.MatchStartsAreTokens | strings.go:9 | a position starts a match if and only if it holds `$` and a word character |
| Template.FindFromFirst | strings.go:34 | the first match is a greedy match, and the matches after it are exactly those found from its end, so replacements are never rescanned |
| Template.ExpansionFirstMatch | strings.go:40-41 | the expansion is the gap before the first match, its replacement, then the expansion after it |
| Template.ExpansionNoMatch | strings.go:44 | with no match left the rest of the text is copied verbatim |
| Template.ExpansionIdentity | strings.go:30-44 | text with no token is returned unchanged, and "" gives "" |
| Template.ExpansionWholeMatch | strings.go:40-44 | replacing every match by its own text gives the template back: the gaps are copied in order |
| Template.ExpansionLiteral | strings.go:40 | text with no `$` is copied in front of the expansion of what follows it |
| Template.ExpansionToken | strings.go:40-41 | `$key` not followed by a word character is one token, replaced once, with the rest expanded on its own |
| Template.SubmatchGroups | strings.go:35-38 | one string per index pair, the slice that pair delimits |
| Template.ReplaceAllStringSubmatchFunc | strings.go:30-45 | the loop's result is the reference expansion |
| Template.Resolve | strings.go:12-27 | an in-range decimal key renders that argument's text; an out-of-range one renders `[bad_index:$n]` with n printed from its value; even when the one argument is a map; a key that does not parse renders the map's value when there is exactly one map argument holding it, else `[no_key:$key]` |
| Template.ExpandStr | strings.go:11-28 | `expandStr` is the reference expansion with every token resolved against the arguments |
| Template.ExpandStrIdentity | strings.go:11-28 | a message without tokens comes back unchanged whatever the arguments |
| TemplateExamples.NamedKey | strings.go:13-26 | a key that does not start with a digit fails to parse and takes the map path |
| TemplateExamples.AdjacentTokensShape | strings.go:9 | `$lower$UPPER` is two tokens with nothing between them |
| TemplateExamples.CaseMapKeys | strings.go:19-23 | keys that differ only in case resolve to their own values in the map argument |
| TemplateExamples.AdjacentTokensExample | strings_test.go:9-18 | `$lower$UPPER` with lower→1 and UPPER→two expands to "1two" |
| TemplateExamples.LoneDollarExample | strings.go:9 | a `$` not followed by a word character stays literal text |

## Left out

- The HTTP exchange itself (`server.Client()`, `client.Do`, `io.ReadAll`, closing the body) is an `Exchange` value given to `Do`: the hop paths, then a transport error or a response.
- Context cancellation appears only as a transport error; contexts are opaque values passed into the request.
- `http.NewRequestWithContext` is not modelled; its failure is a parameter of `Build`.
- `fmt.Sprintf`, `%v` rendering, `json.Marshal`/`json.Unmarshal` and `url.Values.Encode` are not computed. The message's format and arguments stand for the formatted text; a `Payload` stands for the marshalling result; the body of `FormData` stands for the encoding of the form.
- Template.Arg: each argument is the `%v` text it renders as. For a `map[string]any` argument, the value's `%v` text is kept for each key.
- The two long messages of strings_test.go are not proved as concrete instances. Their behaviour is covered by `Template.Resolve`, the expansion lemmas and the shorter instances in `TemplateExamples`.
- Header names are taken as already canonicalised; `http.CanonicalHeaderKey` is not modelled.
- `SimpleResponse.BodyJSON` (JSON decoding of a response) is not modelled.
- The `testingHooks.Helper()` calls only mark stack frames and are not modelled.
- "ASSERTION NOT MET" is modelled by the `selfTest` flag, not by a type check on the sink.
- Installing `CheckRedirect` only when the shared `*http.Client` has none is not modelled. Each `Do` checks hops against its own client's expected path.
- No hop limit is modelled, because the installed check imposes none.
- HttpTestClient.Body: in Go the body is an `io.Reader` that the first request sent consumes, so a second build or `Do` on the same client sends an empty body while Content-Type is still set. The model keeps the body as a value, so HttpTestClient.BuildTwice and HttpTestClient.Client.Do on a reused client hold only until the first request's body has been read.
- `BuildRequest` returns the client's own header map, so later changes to the client show through the request. The model returns a value copy.
- `DefaultContentType` is a package variable that tests could reassign. The model fixes it to application/json.
- HttpTestClient.Client.FormData: with a sink whose `FailNow` returns, an odd count makes the Go loop index past the arguments and panic. The model stops after the report, as a halting `FailNow` does.
- HttpTestClient.Decide: the error the HTTP client returns for a refused hop is a `*url.Error` wrapping the formatted error. The model passes the formatted report itself to "Expected no error, got %v".
- A halting `FailNow` ends the whole test. The model ends only the current operation, so calls after a failure are modelled as the code would run them if they were made.

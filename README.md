# zuuly route reconstruction, in Dafny

zuuly reads a Spring Cloud Config document and turns the flat key/value map of
its first property source into a table of named reverse-proxy routes
(`ZuulRoute`: scheme, base URL, path, front path). This project models that
parse pass and its helpers, and the decision-making part of the small HTTP
client it uses:

- `Zuuly.GetProxy` is the parse loop. It is a method with a `while` loop over
  an iteration order of the map. Each entry is processed as in Go:
  - the optional key filter is applied;
  - `.url` entries resolve their value through `zuulURL`/`envValue`, parse it,
    and upsert the URL fields of the route;
  - `.path` entries upsert the front path, with the first `/**` made `/*`;
  - every upsert fetches the record, or starts from an empty one, overwrites
    one group of fields and stores it back.
  The loop body is the method `Zuuly.ProcessEntry`, and its two upserts are
  `Zuuly.UpsertUrl` and `Zuuly.UpsertFront`.
  The loop is proved to compute `Zuuly.Routes`, a fold of per-entry effects.
  The properties are proved about that fold.
- Go's map iteration order is unspecified. It is the parameter `order`, which
  lists every key exactly once (`Zuuly.IsIterationOrder`).
- `os.Getenv` is the parameter `env`.
- `url.Parse` is the parameter `parse`, which yields `None` where Go returns
  an error.
- The placeholder pattern `\$\{(.*?)\}` is modelled as Go's regexp engine
  applies it: the leftmost match, and at that start the shortest. The match is
  specified by `PlaceholderRegexp.LeftmostMatch`. Go's `.` does not match a
  newline, so a newline before the closing `}` rules out a match at that start.
- `strings.Replace(s, old, new, 1)` is `GoStrings.ReplaceFirst`. It removes
  the FIRST occurrence of the pattern, so a route name is the key with its
  first `.url` or `.path` removed, not a true suffix strip
  (`ZuulyExamples.NameDropsFirstOccurrence`).
- `strings.Split(route, "}")[1]` is `GoStrings.SecondField`.
- Go panics are preconditions:
  - an empty `PropertySources` slice;
  - a non-string value under an accepted key whose filtered form ends in
    `.url` (the type assertion at zuuly.go:104);
  - a non-string value under an accepted key whose filtered form does not
    end in `.url` and whose raw form ends in `.path` (zuuly.go:119);
  - a `.url` value whose resolved URL does not parse. Go ignores the parse
    error and then dereferences the nil `*url.URL`.
  These are `Zuuly.NoPanic` and the requires of `Zuuly.GetProxy`.
- `HttpClient` models:
  - the timeout floor of `New`;
  - `validateRequestAttr`;
  - the validate-first guard of `Exchange`: a request is rejected before any
    client is built, or handed on with the client's timeout and the default
    retry policy.
  Durations are Go's `time.Duration`, a signed 64-bit count of nanoseconds.

Files:
- `wrappers.dfy`: `Option`.
- `go_strings.dfy`: the `strings` functions used.
- `placeholder_regexp.dfy`: the regular expression.
- `zuuly.dfy`: the data model, the resolver and the parse loop.
- `zuuly_proofs.dfy`: properties of the pass.
- `zuuly_examples.dfy`: concrete cases and layouts.
- `httpclient.dfy`: the client.

## Model

| member | source | states |
|---|---|---|
| GoStrings.HasSuffix | zuuly.go:102-117 | `strings.HasSuffix`: true exactly when the string is some text followed by the suffix |
| GoStrings.HasPrefix | test/zuuly_test.go:25 | `strings.HasPrefix`: true exactly when the string is the prefix followed by some text |
| GoStrings.ReplaceFirstOfPrefix | test/zuuly_test.go:25-26 | replacing the first occurrence of a prefix the string starts with replaces that prefix and keeps the rest |
| GoStrings.ReplaceFirst | zuuly.go:103 | with no occurrence of the pattern the string is unchanged; otherwise exactly the first occurrence is replaced and everything around it is kept |
| GoStrings.SecondField | zuuly.go:168-169 | the result is the text after the first `}` up to the next `}` or the end: it contains no `}` and starts right after the first `}` |
| PlaceholderRegexp.FindPlaceholder | zuuly.go:152-160 | None exactly when `\$\{(.*?)\}` matches nowhere; otherwise the match is the leftmost one, closed at the first `}` after `${` with no newline before it, and that match is the only one it can report |
| PlaceholderRegexp.PlaceholderKey | zuuly.go:156-162 | the captured group `match[1]` is the text between the leftmost `${` and its closing `}`; None exactly when there is no match; the key holds no `}` and no newline |
| Zuuly.GetKey | zuuly.go:135-142 | the adapted filter keeps a key exactly when the filter reports ok and returns a non-nil key, and then it returns that key; `(nil, true)` also drops the key |
| Zuuly.EnvValue | zuuly.go:174-184 | a value with no placeholder match is returned unchanged; a value whose leftmost `${…}` match has the group X yields the environment value of X, and the text around that match is ignored |
| Zuuly.ZuulURL | zuuly.go:151-172 | no placeholder: the route is unchanged; the key of the leftmost placeholder is missing from the map or holds a non-string: ""; otherwise envValue of the key's value followed by the text between the first and second `}` of the route |
| Zuuly.FilteredKey | zuuly.go:96-100 | with a nil filter the raw key is used unchanged; otherwise the key is the filter's answer for it, and None (nil) drops the entry |
| Zuuly.NoPanic | zuuly.go:101-128 | processing an entry does not panic: an accepted `.url` key holds a string whose resolved URL parses, and an accepted raw `.path` key (not taking the `.url` branch) holds a string |
| ZuulyProofs.PanicsOnlyInBranches | zuuly.go:101-128 | rejected keys and keys taking neither branch never panic; the `.url` branch panics exactly on a non-string value or an unparsable URL, the `.path` branch exactly on a non-string value |
| Zuuly.IsIterationOrder | zuuly.go:97 | Go's range over the map: an order of keys that are in the map, without repeats, covering every key |
| ZuulyProofs.IterationOrderVisitsEachKeyOnce | zuuly.go:97 | an iteration order holds exactly the map's keys and is as long as the map: each entry is visited once |
| Zuuly.EffectOf | zuuly.go:101-129 | a key the filter rejects does nothing; a filtered key ending in `.url` sets, on the route named by that key without its first `.url`, the URL that parsing the zuulURL-resolved value gives; otherwise a raw key ending in `.path` sets, on the route named by the filtered key without its first `.path`, the value with its first `/**` made `/*`; no other key does anything |
| Zuuly.Apply | zuuly.go:105-128 | one upsert: only the named record is written, it is created from the zero record when absent, the `.url` step keeps the front path and the `.path` step keeps the URL fields, and an ignored entry leaves the table as it is |
| Zuuly.Effects | zuuly.go:97 | the effect of each entry in iteration order |
| Zuuly.UpsertUrl | zuuly.go:105-116 | the `.url` fetch-modify-store leaves the table as Apply says: the named record gets the URL's scheme, host and path, keeps its front path, or starts empty |
| Zuuly.UpsertFront | zuuly.go:121-128 | the `.path` fetch-modify-store leaves the table as Apply says: the named record gets the front path, keeps its URL fields, or starts empty |
| Zuuly.ProcessEntry | zuuly.go:98-130 | one pass of the loop body (filter, branch on the suffixes, upsert) changes the table exactly as Apply of the entry's EffectOf |
| Zuuly.GetProxy | zuuly.go:93-132 | the loop's table equals Routes: the upserts of the entries applied in iteration order to an empty table; every entry is processable under the no-panic preconditions |
| ZuulyProofs.OnlyAcceptedKeysWrite | zuuly.go:98-101 | an entry that writes a route has a key the filter accepted; under a nil filter that key ends in `.url` or `.path` |
| ZuulyProofs.RouteNames | zuuly.go:97-131 | a name is in the table exactly when some entry of the map writes it: every route comes from an accepted key |
| ZuulyProofs.RoutesGrow | zuuly.go:97-131 | no route is ever removed: the names after any prefix of the iteration are kept to the end |
| ZuulyProofs.Contributing | zuuly.go:101-129 | the effects that do something, as the subsequence of the effects at strictly increasing positions that cover every non-ignored effect: kept in order and with their multiplicity, and nothing else kept |
| ZuulyProofs.IgnoredEffectsDropOut | zuuly.go:101-129 | dropping every ignored effect leaves the fold unchanged |
| ZuulyProofs.IgnoredEntriesLeaveNoTrace | zuuly.go:101-129 | the table depends only on the entries that write something: rejected keys and keys with neither suffix leave no trace |
| ZuulyProofs.NoSuffixNoRoutes | zuuly.go:102-117 | with a nil filter and no key ending in `.url` or `.path`, the table is empty |
| ZuulyProofs.FoldIsLastWrites | zuuly.go:105-128 | each route holds the URL of its last `.url` entry and the front path of its last `.path` entry, each group empty when none was written; a name is present exactly when one of the two was written |
| ZuulyProofs.LastUrlSource | zuuly.go:102-116 | a route has a last URL exactly when some `.url` effect names it, and that URL comes from such an effect |
| ZuulyProofs.LastFrontSource | zuuly.go:117-128 | a route has a last front path exactly when some `.path` effect names it, and that path comes from such an effect |
| ZuulyProofs.LastUrlIsTheContribution | zuuly.go:102-116 | when entry `k` is the only one that sets the URL of route `n` (other routes may have any number), `k`'s URL is `n`'s URL in every iteration order |
| ZuulyProofs.LastFrontIsTheContribution | zuuly.go:117-128 | when entry `k` is the only one that sets the front path of route `n` (other routes may have any number), `k`'s front path is `n`'s front path in every iteration order |
| ZuulyProofs.SameLastWrites | zuuly.go:97-131 | two iteration orders give every route the same last URL and the same last front path when each route has at most one contribution of each kind |
| ZuulyProofs.OrderIndependent | zuuly.go:97-131 | when each route has at most one `.url` and one `.path` entry, the table is the same for every iteration order of the map |
| ZuulyProofs.UrlAndPathMerge | zuuly.go:105-128 | when a `.url` entry and a `.path` entry are the only ones that set the URL and the front path of route `n`, they merge into one record with both groups of fields, whichever comes first |
| ZuulyExamples.NoDollarNoMatch | zuuly.go:156-159 | a value without `$` holds no placeholder (and so zuulURL and envValue keep it unchanged) |
| ZuulyExamples.PlaceholderLayout | zuuly.go:156-169 | in `pre${key}rest`, with no `$`/`}` in pre, no `}`/newline in key and no `}` in rest, the reported match is `${key}`, the group is key and the second `}`-field is rest |
| ZuulyExamples.ZuulURLOfPlaceholder | zuuly.go:161-171 | in `pre${key}rest`, with no `$`/`}` in pre, no `}`/newline in key and no `}` in rest, zuulURL drops pre and is envValue(props[key]) + rest, or "" when key is missing or not a string |
| ZuulyExamples.EnvValueOfPlaceholder | zuuly.go:179-183 | in `pre${x}rest`, with no `$`/`}` in pre, no `}`/newline in x and no `}` in rest, envValue is env(x): the text around the placeholder is discarded |
| ZuulyExamples.DocExample | zuuly.go:144-150 | with SOME_OTHER_ENV_KEY=http://google.com and other.key.url = "${SOME_OTHER_ENV_KEY}", the value "${other.key.url}/api/path" resolves to "http://google.com/api/path" |
| ZuulyExamples.DocExampleEnv | zuuly.go:174-184 | "${SOME_OTHER_ENV_KEY}" resolves to the environment value of SOME_OTHER_ENV_KEY |
| ZuulyExamples.EnvValueOneLevel | zuuly.go:183 | the environment value is returned as it is, even when it looks like a placeholder: only one level of lookup |
| ZuulyExamples.FrontPathWildcard | zuuly.go:120 | the front path "/service/**" becomes "/service/*" |
| ZuulyExamples.FrontPathWithoutWildcard | zuuly.go:120 | a front path without "/**" is kept unchanged |
| ZuulyExamples.NameIsSuffixStrip | zuuly.go:103 | when the suffix occurs only at the end of the key, removing its first occurrence strips the suffix |
| ZuulyExamples.NameDropsFirstOccurrence | zuuly.go:103 | "a.url.b.url" ends in ".url" and names the route "a.b.url": the first occurrence is removed, not the suffix |
| Zuuly.PrefixFilter | test/zuuly_test.go:24-30 | the test's filter reports ok exactly for keys starting with "zuul.routes", returns such a key without that prefix, and returns nil for every other key |
| ZuulyExamples.PrefixFilterStrips | test/zuuly_test.go:24-30 | the test's filter, through GetKey, maps a key starting with "zuul.routes" to the key without that prefix and drops every other key |
| HttpClient.New | httpclient/httpclient.go:32-38 | the client's timeout is the requested one when it is at least 3000ms, and 3000ms otherwise; never below 3000ms |
| HttpClient.NewIsMax | httpclient/httpclient.go:32-38 | the timeout is max(requested, 3000ms) |
| HttpClient.NewIdempotent | httpclient/httpclient.go:32-38 | New applied to a client's own timeout gives the same client |
| HttpClient.ValidateRequestAttr | httpclient/httpclient.go:57-62 | no error exactly when the URL is non-nil and the method non-empty; every error has status 400 |
| HttpClient.Exchange | httpclient/httpclient.go:40-69 | a request is rejected with the validation error exactly when validation fails, before any request is built; otherwise it is sent with its method and URL, the client's timeout, 4 retries and the constant 2ms backoff with 5ms maximum jitter |
| HttpClient.ExchangeIgnoresRequestTimeout | httpclient/httpclient.go:45-50 | the request's own Timeout field does not change what is sent: the client's timeout is used |

## Left out

- The fetch half of GetProxy (zuuly.go:76-91) is not modelled:
  - the HTTP exchange, the body read and `json.Unmarshal` are I/O and library decoding;
  - the model starts from the decoded property sources;
  - the nil `err.Error()` on a non-200 response (zuuly.go:82) lies in this half.
- Zuuly.GetProxy: a filter that writes through its `*string` argument is not modelled.
  - Filters are pure functions of the key.
  - The loop variable it could alter is not modelled.
- Zuuly.GetProxy: the `error` result is left out. The parse pass never returns an error.
- Zuuly.GetProxy: panics are preconditions and not results:
  - an empty `PropertySources` slice;
  - a non-string value in one of the two branches: an accepted key whose filtered form ends in `.url`, or an accepted key whose raw form ends in `.path` while its filtered form does not end in `.url`. Rejected keys and keys that take neither branch never panic;
  - a `.url` value whose resolved URL does not parse.
- `url.Parse` and RFC 3986 parsing: `parse` is an abstract function yielding scheme, host and path.
- `os.Getenv`: `env` is an abstract function.
- The `regexp.Compile` failure branches (zuuly.go:152-155, 175-178) cannot happen with a constant pattern.
- The `Skip`, `Config`, `CloudConfig`, `RemoteConfig` and `Zuuly` type declarations (zuuly.go:19-32, 50-69) and `zuuly.New` (zuuly.go:71-73) hold data only.
- HttpClient.Exchange: covers only what happens before the network.
  - Building the heimdall client, `Retrier`, `DefaultBackoff` and `hc.Do` (httpclient/httpclient.go:45-69) are network calls with timing and random jitter. They appear only as the values handed on: timeout, retry count, backoff and jitter.
  - A failure of `http.NewRequest` is not modelled.
  - The request body is not modelled.
- HttpClient.Exchange: a nil `*RequestAttr` argument is not modelled. Go would panic on it.
- httpclient/httperr.go: errors are a status code and a message. `Error()` formatting, `http.StatusText` and the predefined error values are not modelled.
- test/zuuly_test.go: only its filter closure is modelled. The rest is a live network test that only logs.

# CookieAuth middleware, modelled in Dafny

This project models the key-authentication middleware of the `hello-world`
Echo server (`validator.go`). The middleware is set up once from a
`CookieAuthConfig`. Setup fills in the defaults, refuses a configuration
without a validator, and picks a key extractor from the `"<source>:<name>"`
lookup specifier. After that it decides the fate of every request. A skipped
request goes on to the next handler. A request whose key cannot be extracted
gets 400 Bad Request with the extractor's reason. Otherwise the validator
decides between passing the request on and 401 Unauthorized.

Files:

- `go_strings.dfy` (module `GoStrings`): Go's `strings.Split` for a
  one-character separator, which the lookup parsing calls, built on
  `strings.Index`. `strings.Join` is there as the inverse that pins down what
  `Split` computes: the two are proved inverse to each other.
- `echo.dfy` (module `Echo`): a request as its header and query maps, where
  an absent name reads as `""`. It also holds the three outcomes `Next`,
  `BadRequest(msg)` and `Unauthorized`.
- `validator.dfy` (module `Validator`): the configuration and its defaults,
  construction (`CookieAuthWithConfig`, `CookieAuth`), the two extractors,
  the per-request dispatch (`Handle`) and the lemmas about them.

The skipper and the validator are callbacks supplied by the program. They are
function values here, and Go's `nil` is `None`. Both Go panics at setup time
are an explicit `Err` of `CookieAuthWithConfig`. One is the missing validator.
The other is a lookup without `:`, whose `parts[1]` is out of range. The
missing validator is reported first, as in the Go code.

`DefaultConfig` is Go's `DefaultCookieAuthConfig` (validator.go:43-47), and
`DefaultSkipper` is the program's `defaultSkipper` (server.go:24-26), which
never skips a request.

Three points of the code's behaviour are easy to miss, and the model follows the code on each:

- The code has no cookie extractor. Only `query` selects the query extractor,
  and every other source, `cookie` included, reads a header.
- A lookup without `:` is not quietly replaced by the default. It makes setup
  fail (a panic in Go).
- An unknown source reads the header named by the lookup, not the default
  `Authorization` header.

## Model

| member | source | states |
|---|---|---|
| `GoStrings.Split` | validator.go:80 | a split has at least one piece, and exactly one when the string holds no separator |
| `GoStrings.SplitPiecesAreFree` | validator.go:80 | no piece of a split contains the separator |
| `GoStrings.JoinSplit` | validator.go:80 | joining the pieces with the separator gives back the original string |
| `GoStrings.SplitJoin` | validator.go:80 | splitting a join of separator-free pieces gives back exactly those pieces |
| `GoStrings.FirstTwoPieces` | validator.go:80-81 | for `first:second<rest>` with rest empty or starting with the separator, pieces 0 and 1 are `first` and `second` |
| `GoStrings.SplitFirstTwo` | validator.go:80-81 | a string with a separator decomposes as piece 0, separator, piece 1, then the end or another separator |
| `Validator.WithDefaults` | validator.go:43-74 | each unset field (nil skipper, empty scheme, empty lookup) gets its default (never-skip, `Bearer`, `header:Authorization`); each set field and the validator are kept |
| `Validator.DefaultConfigValues` | validator.go:43-47 | `DefaultConfig` holds the never-skip skipper, lookup `header:Authorization`, scheme `Bearer` and no validator, and defaulting leaves it unchanged |
| `Validator.NilSkipperNeverSkips` | server.go:24-26 | a configuration without a skipper gets `DefaultSkipper`, so its middleware never skips a request |
| `Validator.DefaultsFixedPoint` | validator.go:65-74 | defaulting is idempotent, and changes nothing exactly when skipper, lookup and scheme are all set |
| `Validator.SelectExtractor` | validator.go:80-85 | selection fails exactly when the lookup holds no `:` |
| `Validator.CookieAuthWithConfig` | validator.go:63-85 | setup fails exactly when the validator is missing or a given lookup holds no `:`; a missing validator is the reported error; a built middleware carries the given validator and the defaulted skipper |
| `Validator.DefaultLookupSplits` | validator.go:43-47 | the default lookup splits into source `header` and name `Authorization` |
| `Validator.CookieAuth` | validator.go:55-58 | with a validator it always succeeds, with the never-skip skipper, the Authorization header extractor with scheme `Bearer`, and that validator; with a nil validator it fails with the missing-validator error |
| `Validator.KeyFromHeader` | validator.go:108-123 | a header extraction that succeeds yields a non-empty key |
| `Validator.KeyFromQuery` | validator.go:126-134 | a query extraction that succeeds yields a non-empty key |
| `Validator.Extract` | validator.go:94 | a successful extraction yields a non-empty key; a failed one yields one of the three reasons of the Go code |
| `Validator.Handle` | validator.go:87-104 | a 400 answer always carries a non-empty reason |
| `Validator.LookupSelectsExtractor` | validator.go:80-85 | for a lookup `source:name<rest>`, source `query` gives the query extractor on `name`; any other source gives the header extractor on `name` with the configured scheme |
| `Validator.LookupFieldsExist` | validator.go:80-85 | for every lookup with a `:`, setup succeeds; the source is the text before the first `:` and the name is exactly the text between the first and second `:` (or the end), selecting the query extractor for source `query` and the header extractor otherwise |
| `Validator.DefaultLookupReadsAuthorization` | validator.go:72-85 | an unset lookup gives the Authorization header extractor with the configured scheme |
| `Validator.AuthorizationHeader` | validator.go:110-119 | the Authorization header yields a key iff its value is longer than scheme plus one and starts with the scheme; the value is then scheme, one separator character, key; otherwise the reason is "Missing" for an empty value and "Invalid" otherwise |
| `Validator.AuthorizationRoundTrip` | validator.go:114-117 | for any scheme, any separator character and any non-empty key, `scheme + c + key` extracts to the key |
| `Validator.AuthorizationWithoutKey` | validator.go:116-119 | a value of exactly scheme plus one character is refused as "Invalid key in the request header" |
| `Validator.OtherHeaderVerbatim` | validator.go:110-121 | any header other than Authorization yields its value unchanged when non-empty, and "Missing key in request header" otherwise |
| `Validator.QueryVerbatim` | validator.go:127-133 | the query extractor yields the value unchanged when non-empty, and "Missing key in the query string" otherwise |
| `Validator.HandleClassifies` | validator.go:88-103 | each request gets exactly one outcome: Next iff skipped or the validator accepts the extracted key; 400 with the extractor's reason iff not skipped and extraction fails; 401 iff not skipped, extracted, and refused |
| `Validator.SkipperBypasses` | validator.go:89-91 | a skipped request goes on, whatever the extractor and validator are |
| `Validator.ValidatorSeesOnlyExtractedKey` | validator.go:94-102 | validators that agree on the extracted key give the same outcome; when extraction fails the validator makes no difference |
| `Validator.CookieAuthBearer` | validator.go:55-58 | the `CookieAuth(Some(fn))` middleware with `Authorization: Bearer<c><key>` passes the request iff `fn` accepts the key, and answers 401 otherwise |
| `Validator.CookieAuthMissingHeader` | validator.go:110-113 | the `CookieAuth(Some(fn))` middleware answers 400 "Missing key in request header" when there is no Authorization header |

## Left out

- The remote session validator `validator` in server.go (outbound HTTPS calls with certificate checks off, cookie building, logging) is network I/O. In the model any validator is an arbitrary function of key and request.
- `main` in server.go (Echo setup, route registration, port binding) is left out. So is its use of the library's own `middleware.KeyAuthWithConfig` with a `cookie:token` lookup, which is a foreign library whose cookie extractor is not part of this model.
- Echo internals are reduced to values: the context, `Header.Get`, `QueryParam`, and the error objects `echo.NewHTTPError` and `echo.ErrUnauthorized`. `Header.Get` canonicalises header names (`authorization` reads the `Authorization` header), but the code compares the configured name itself with `Authorization`. The model keys its header map by the configured name, so it does not capture that canonicalisation.
- Go strings are bytes, so `len` and slicing count bytes. Here a `char` stands for one byte. Multi-byte characters are not modelled.
- Side effects of the skipper and the validator are not modelled, nor are the request context and concurrency. Both are pure functions here, so the same request always gets the same outcome.
- `Next` stands for calling the next handler; that handler's own response is not modelled.
- Go panics at setup are modelled as the `Err` results of `CookieAuthWithConfig`, not as process termination.

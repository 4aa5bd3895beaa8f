# Query service: payload builder, page-token secret and access-control checker

A Dafny model of three small, sequential pieces of the LFX query service
(`lfx-v2-query-service`, written in Go):

- **The query-resources payload builder** (`BuildQueryResourcesPayload`). It
  turns the eight raw flag strings of the `query-resources` command into a
  `QueryResourcesPayload`, or stops at the first failed check. The checks run in
  this order: version, name, parent, tags, sort. Version must be `"1"`. An empty
  optional flag means the field is absent. `parent` must match
  `^[a-zA-Z]+:[a-zA-Z0-9_-]+$`. `sort` must be one of `name_asc`, `name_desc`,
  `updated_asc` or `updated_desc`. The bearer token is copied as it is.
- **The page-token secret** (`PageTokenSecret`). It is a zero-initialised
  32-byte array. The first call fills it from the `PAGE_TOKEN_SECRET`
  environment variable with Go's `copy`, so a short value is zero-padded and a
  long one truncated. An empty or unset variable is fatal. Every later call
  returns the cached array without reading the environment.
- **The NATS access-control checker** and the mock client its tests use. The
  mock is a record of four configured values, with setters. The checker
  forwards `CheckAccess`, `Close` and `IsReady` to its client. It wraps a
  `CheckAccess` transport error under `"NATS access control check failed"`. It
  copies a successful answer through `convertFromNATSResponse`, which keeps nil
  and empty maps apart.

Go strings are byte strings, so the model uses `GoString = seq<uint8>`
throughout (module `GoStrings`), with ASCII literals converted by `Lit`. A Go
nil pointer, slice or map is `None` of `Wrappers.Option`. A Go
`(value, error)` return is a `Wrappers.Result`, or a `Reply` pair where the
client interface returns both.

Modules: `Wrappers`, `GoStrings`, `Utf8` (rune counting as Go's `unicode/utf8`
does it), `QuerySvcClient` (the payload builder), `Global` (the secret cell) and
`Nats` (mock, client interface and checker).

Modelling choices:

- **Parent pattern.** The pattern is matched by a four-state automaton over
  bytes, `MatchesParentPattern`. A lemma proves it equal to a declarative
  description: letters, one colon, identifier bytes. Go's RE2 `$` without the
  multi-line flag only matches at the end of the text, so this is a full match.
  Non-ASCII bytes never match the ASCII classes.
- **Name check.** The name-length check (`utf8.RuneCountInString(name) < 1`) is
  modelled and proved unreachable: a non-empty byte string always counts at
  least one rune.
- **Tags.** The JSON decoding of `tags` is a function parameter that either
  succeeds with a nil-or-slice value or fails with an error text.
- **Secret state.** The secret is a value of type `SecretCell`: the once-guard's
  `done` flag plus the 32-byte array. The environment is passed in as a map.
  `Getenv` returns the empty string for an unset variable, as `os.Getenv` does.
  The fatal exit is a `Failure`.
- **Checker.** The checker is modelled from what its test file
  (`access_control_test.go`) asserts about it. It runs against a `NATSClient`
  record of three functions, and the mock turns into one with `AsNATSClient`.
  The subject, the payload and the timeout all go to the client in an
  `AccessCheckNATSRequest`. The payload is an `Option<GoString>`, so a nil
  `[]byte` and an empty one stay apart. The model chooses to give the checker
  no input validation of its own: the tests see an empty subject or empty data
  fail only through an error configured on the client, and that error is
  wrapped the same way as any other client error.
- **Errors.** A Go error is `New(text)` or `Wrapped(context, cause)`, and
  `Message` renders a wrapped error as `context: cause`. That exact format is
  an assumption (the usual `fmt.Errorf("...: %w", err)`). The tests only need
  the message to contain the context and, for forwarded errors, the original
  text. Both are proved.

## Model

| member | source | states |
|---|---|---|
| `QuerySvcClient.BuildQueryResourcesPayload` | gen/http/query_svc/client/cli.go:19-103 | Succeeds exactly when version is "1", a non-empty parent is letters:identifier, non-empty tags decode, and a non-empty sort is one of the four values. The first failing check in the order version, parent, tags, sort decides the error. The name-length error never occurs. On success every field equals its flag: empty optional flags give nil, others give the flag unchanged, the bearer token is copied verbatim, and an empty sort stays "". |
| `QuerySvcClient.ParentPatternIsParentReference` | gen/http/query_svc/client/cli.go:47-53 | The compiled matcher accepts a string exactly when it is one or more ASCII letters, a colon, then one or more of [a-zA-Z0-9_-]. |
| `QuerySvcClient.RunFromInLetters` | gen/http/query_svc/client/cli.go:49 | After at least one letter, the rest of the input is accepted exactly when it is letters, a colon, then one or more identifier bytes. |
| `QuerySvcClient.RunFromExpectIdentifier` | gen/http/query_svc/client/cli.go:49 | After the colon, the rest is accepted exactly when it is a non-empty run of identifier bytes. |
| `QuerySvcClient.RunFromInIdentifier` | gen/http/query_svc/client/cli.go:49 | Once inside the identifier part, the rest is accepted exactly when it is all identifier bytes. |
| `Utf8.RuneCountInString` | gen/http/query_svc/client/cli.go:35-38 | The rune count is zero exactly for the empty string and lies between a quarter of the byte length and the byte length, so a non-empty name never fails the minimum-length-1 check. |
| `Utf8.FirstRuneWidth` | gen/http/query_svc/client/cli.go:37 | The first rune takes 1 to 4 bytes and never more than remain. It takes more than one byte exactly when the string starts with a well-formed multi-byte UTF-8 sequence. |
| `Utf8.AsciiRuneCount` | gen/http/query_svc/client/cli.go:37 | On ASCII text the rune count equals the byte count. |
| `Global.PageTokenSecret` | pkg/global/token.go:19-35 | Once initialised, a call returns the cached array and ignores the environment. On first use, the call fails fatally exactly when the variable is empty or unset. Otherwise it marks the cell done and returns the array it stored, which is the value copied onto the zero array. |
| `Global.SecretFromValue` | pkg/global/token.go:15-31 | The secret always has 32 bytes. Byte i equals v[i] for i below min(len(v), 32), and every byte from len(v) to 31 stays zero. |
| `Global.Copy` | pkg/global/token.go:31 | Go's copy keeps the destination's length. It overwrites the first min(len(dst), len(src)) bytes with the source's and leaves the rest unchanged. |
| `Global.Getenv` | pkg/global/token.go:26-27 | An unset variable reads as the empty string; a set one reads as its value. |
| `Global.TruncationIgnoresTail` | pkg/global/token.go:31 | A value longer than 32 bytes gives the same secret as its first 32 bytes. |
| `Global.SecretDependsOnlyOnPrefix` | pkg/global/token.go:31 | Two values of at least 32 bytes that share their first 32 bytes give the same secret. |
| `Global.CachedCalls` | pkg/global/token.go:22-34 | From an initialised cell, any run of calls, whatever the environment says at each call, returns the cached array every time. |
| `Global.InitialisedAtMostOnce` | pkg/global/token.go:20-35 | From the initial state, a run of calls either exits fatally on the first call (empty first value) or returns the secret derived from the first environment on every call. |
| `Nats.NewMockNATSClient` | internal/infrastructure/nats/access_control_test.go:24-26 | A fresh mock has a nil response and no errors configured. |
| `Nats.SetCheckAccessResponse` | internal/infrastructure/nats/access_control_test.go:43-45 | Sets the configured response and changes no other field. |
| `Nats.SetCheckAccessError` | internal/infrastructure/nats/access_control_test.go:47-49 | Sets the configured CheckAccess error and changes no other field. |
| `Nats.SetCloseError` | internal/infrastructure/nats/access_control_test.go:51-53 | Sets the configured Close error and changes no other field. |
| `Nats.SetIsReadyError` | internal/infrastructure/nats/access_control_test.go:55-57 | Sets the configured IsReady error and changes no other field. |
| `Nats.MockCheckAccess` | internal/infrastructure/nats/access_control_test.go:28-33 | For any request: a configured error comes back with a nil response; otherwise the configured response comes back with no error. |
| `Nats.ConvertFromNATSResponse` | internal/infrastructure/nats/access_control_test.go:262-320 | Nil converts to nil and a map converts to a map. The result has the same keys, each with the same value: nothing renamed, changed or dropped. |
| `Nats.NilAndEmptyStayDistinct` | internal/infrastructure/nats/access_control_test.go:292-301 | A nil response converts to nil and an empty one to an empty map. |
| `Nats.WrappedMessageMentions` | internal/infrastructure/nats/access_control_test.go:198-201 | The message of a wrapped error contains its context text and the message of its cause. |
| `Nats.CheckAccess` | internal/infrastructure/nats/access_control_test.go:59-208 | The checker fails exactly when the client reports an error. The failure's cause is that error, and its message contains "NATS access control check failed" and the client's message. Otherwise it returns the client's answer unchanged. The subject, the data (nil or empty kept apart) and the timeout are all passed to the client in its request and affect the outcome only through the client's answer. |
| `Nats.CheckAccessWrapsMockError` | internal/infrastructure/nats/access_control_test.go:119-161 | With a mock configured to fail, the checker fails for every request, and the message contains the fixed context and the mock's message. This holds even if a response was also configured. |
| `Nats.CheckAccessPassesMockResponse` | internal/infrastructure/nats/access_control_test.go:70-118 | With a mock configured with a response and no error, the checker returns that response for any subject, data and timeout, zero included. |
| `Nats.AsNATSClient` | internal/infrastructure/nats/access_control_test.go:28-41 | The mock seen through the client interface: its CheckAccess answers every request as the mock's CheckAccess does, and its Close and IsReady return the configured close and readiness errors. |
| `Nats.Close` | internal/infrastructure/nats/access_control_test.go:210-260 | The checker's Close returns the client's close error unchanged, or none. |
| `Nats.IsReady` | internal/infrastructure/nats/access_control_test.go:322-381 | The checker's IsReady returns the client's readiness error unchanged, or none. |
| `Nats.CloseForwardsMock` | internal/infrastructure/nats/access_control_test.go:210-260 | The checker's Close returns the mock's configured close error unchanged, or none. |
| `Nats.IsReadyForwardsMock` | internal/infrastructure/nats/access_control_test.go:322-381 | The checker's IsReady returns the mock's configured readiness error unchanged, or none. |

## Left out

- The message texts built by the validation library (`goa.MergeErrors`, `InvalidEnumValueError`, `InvalidLengthError`, `ValidatePattern`) and by the tags error's `fmt.Errorf`. The model records only which check failed and, for tags, the decoder's error text.
- `json.Unmarshal` for the tags flag: a foreign library. It is the `TagsDecoder` parameter, which may succeed with a nil or non-nil slice or fail.
- `sync.Once` thread safety and concurrent first callers: concurrency. Only the sequential once-state is modelled.
- `os.Getenv`, `slog.ErrorContext` and `log.Fatalf`: I/O and process exit. The environment is a parameter and the exit is a `Failure`.
- Writes by callers through the returned `*[32]byte`: the model hands out the array as a value.
- `NewAccessControlChecker`: it opens a live NATS connection and validates its URL, which this model does not cover. The real NATS client's request validation, deadlines, context cancellation and reconnect behaviour are left out for the same reason: they belong to the transport.
- Nats.CheckAccess: an empty subject or empty or nil data fails only if the client rejects it; the model gives the checker no validation of its own. The timeout is handed to the client in its request, but what the transport does with it is not modelled.
- The page-token encryption codec: cryptography, and not part of this model.
- `Message`'s exact `context: cause` layout is an assumption. Only the properties the tests check (containment of the context and of the cause's text) are proved.

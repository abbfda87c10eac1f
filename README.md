# Functional-options HTTP client, modelled in Dafny

The modelled program is a small Go wrapper around an HTTP client. It is configured with the
functional-options pattern. `NewClient` fills a `Client` record with fixed defaults: a
30-second timeout, the user agent `"My HTTP Client"`, redirects followed and the default
verifying transport. It then runs each option closure on the record in the order the caller
gave them. There are four options, and each one overwrites a single field:

- `WithTimeout`
- `WithUserAgent`
- `WithoutRedirects`
- `UseInsecureTransport`

Before each request, `Get` does three things:

- it copies the user agent into the `User-Agent` header;
- it copies the timeout onto the underlying HTTP client;
- it installs a redirect check. The check answers "use the last response" exactly when
  redirects are switched off.

The project has two modules.

- `options.dfy`, module `Options`, works on values:
  - `Duration` models Go's `time.Duration` as a signed 64-bit count of nanoseconds, with
    `Second == 1_000_000_000`.
  - `Transport` models the transport as a two-valued tag.
  - `Option` holds the four options, and `Config` is the configuration record.
  - `Defaults`, `Apply` (the effect of one option) and `ApplyAll` (the fold of a sequence of
    options over a starting record) define the protocol.
  - The lemmas cover last-write-wins, fields left alone, idempotence, commutation and the
    resolved value of each field.
- `client.dfy`, module `OptionsPattern`, keeps the source's imperative form:
  - class `Client` has the Go struct's fields and a `const` reference to an `HttpClient`.
    `HttpClient` holds the three library-client fields the wrapper writes: `Transport`,
    `Timeout` and `CheckRedirect`.
  - `NewClient` allocates a client and loops over the options, calling
    `Client.ApplyOption`, which is `opt(client)`. It is proved to leave the client resolving
    to `ApplyAll(Defaults, options)`.
  - `Client.Resolved` gives the configuration a client currently holds. `Client.Get` writes
    the per-call settings and returns the request it would hand to the library.
  - The redirect closure captures the client, so `HttpClient.checkRedirect` holds a reference
    to that `Client`. The verdict is `Client.CheckRedirect`, which reads `followRedirects` when
    it is asked.

## Model

| member | source | states |
|---|---|---|
| `Options.Apply` | options_pattern/main.go:40-66 | one option stores its argument verbatim in its own field, with no validation: any duration (zero and negative included) and any string (empty included). Every other field is unchanged |
| `Options.ApplyAll` | options_pattern/main.go:32-34 | the left fold of `Apply` over the options, first to last, as the `range` loop runs them. The setting the final option asks for is in effect in the result; the other properties of the fold are the lemmas below |
| `Options.ApplyAllAppend` | options_pattern/main.go:32-34 | options are applied strictly in sequence: applying `a + b` equals applying `a`, then `b` to the result |
| `Options.ApplyAllSnoc` | options_pattern/main.go:32-34 | an option added at the end of the sequence runs last, on the record the earlier options produced |
| `Options.UntouchedFieldKept` | options_pattern/main.go:40-66 | a field that no option in the sequence writes keeps its starting value |
| `Options.LastWriteWins` | options_pattern/main.go:32-34 | the last option that writes a field decides that field's final value, whatever came before it |
| `Options.TouchedFieldOverwritten` | options_pattern/main.go:32-34 | if the sequence writes a field, the field's final value does not depend on the starting record |
| `Options.ApplyAllIdempotent` | options_pattern/main.go:32-34 | applying a sequence of options to its own result changes nothing |
| `Options.ApplyAllTwice` | options_pattern/main.go:32-34 | the sequence `ops + ops` resolves to the same record as `ops` alone |
| `Options.ApplyIdempotent` | options_pattern/main.go:40-66 | each option applied twice gives the same record as applying it once. This includes `WithoutRedirects` and `UseInsecureTransport` |
| `Options.ApplyCommutes` | options_pattern/main.go:40-66 | two options that write different fields give the same record in either order |
| `Options.SwapAdjacent` | options_pattern/main.go:32-34 | swapping two adjacent options that write different fields, anywhere in a sequence, leaves the resolved record unchanged |
| `Options.FollowRedirectsResolved` | options_pattern/main.go:54-58 | redirects end enabled if and only if they were enabled at the start and no option is `WithoutRedirects`, since no option turns them back on |
| `Options.WithoutRedirectsSticky` | options_pattern/main.go:54-58 | once `WithoutRedirects` has been applied, every later prefix of the sequence has redirects switched off |
| `Options.TransportResolved` | options_pattern/main.go:61-67 | the transport ends insecure if and only if some option is `UseInsecureTransport`, which discards any earlier transport. Otherwise the starting transport is kept |
| `Options.NoOptionsGiveDefaults` | options_pattern/main.go:24-29 | with no options the record has timeout 30 s (30 000 000 000 ns), user agent `"My HTTP Client"`, redirects followed and the default transport |
| `Options.RepeatedTimeoutLastWins` | options_pattern/main.go:40-44 | `[WithTimeout(5 s), WithTimeout(10 s)]` gives a timeout of 10 s |
| `OptionsPattern.HttpClient.constructor` | options_pattern/main.go:25 | a zero-valued library client: nil (default) transport, zero timeout and no redirect check |
| `OptionsPattern.Client.constructor` | options_pattern/main.go:24-29 | the new client record resolves to the defaults, and it owns a freshly allocated library client with nothing written to it |
| `OptionsPattern.Client.ApplyOption` | options_pattern/main.go:40-66 | running one option closure on the client changes its configuration exactly as `Options.Apply` does, and leaves the library client's timeout and redirect check unchanged |
| `OptionsPattern.NewClient` | options_pattern/main.go:23-37 | the returned fresh client resolves to `ApplyAll(Defaults, options)`: the defaults, then every option in the caller's order |
| `OptionsPattern.Client.CheckRedirect` | options_pattern/main.go:79-84 | the installed redirect check answers "use last response" if and only if `followRedirects` is false. Otherwise it allows the redirect. It ignores the request and the chain of earlier requests |
| `OptionsPattern.Client.Get` | options_pattern/main.go:70-84 | if request construction fails: returns the error and writes nothing. Otherwise: a GET request whose only header is `User-Agent` with exactly the configured user agent (the empty string included); the library client's timeout set to the configured one; the client's redirect check installed; the configuration unchanged |
| `OptionsPattern.NewClientThenGet` | options_pattern/main.go:71-84 | a GET prepared straight after construction. If the request constructor refuses the URL: the error, and the library client keeps zero timeout and no redirect check. Otherwise: the request carries the user agent the options resolve to, and the library client gets their timeout and this client's redirect check. In both cases the client resolves to the fold of the options, and its redirect check says "use last response" if and only if some option was `WithoutRedirects` |

## Left out

- The request constructor (`http.NewRequest`, main.go:71-74) belongs to the library, and its URL parsing is not visible. Its verdict is the `urlParses` parameter of `Client.Get`.
- The call that sends the request (`c.client.Do`, main.go:86) is network I/O and is not modelled. This covers the response, the timeout firing, TLS and how redirects are actually followed. `Client.Get` returns the request that would be handed over.
- The internals of `http.Transport` and `tls.Config` are not modelled. The transport is only a tag, `DefaultTransport` or `InsecureTransport`.
- Transport identity: each `UseInsecureTransport` allocates a new transport object. The model compares only tags, so "twice equals once" (`Options.ApplyIdempotent`) holds for the tag, not for pointer identity.
- Concurrency: concurrent `Get` calls on one client race on the shared timeout and redirect-check fields. The model is sequential.
- Options are only the four constructors. In Go an option is any `func(*Client)`, so the model does not cover a `nil` option, which panics when `NewClient` calls it (main.go:33). It also does not cover a hand-written closure, which could write any field, including setting `followRedirects` back to true. The redirect and transport lemmas rely on this closed set of options.
- Strings: user agents are Dafny strings, not Go byte strings. Nothing in the core inspects them; it only stores and copies them, so the difference does not show.
- The `main` demo (main.go:90-113) is left out: it only prints, reads the body and panics.
- Go's own default redirect policy is left out. That policy applies while `CheckRedirect` is nil and is library code.
- Redirect chain length: the installed check allows every redirect when following is on, whatever the length of `via`. It therefore replaces the library's default limit on redirect chains. The model states exactly that, but it does not model the library limit.
- Header representation: headers are a map from name to a list of values. Canonicalisation of header names is not modelled, because `"User-Agent"` is already in canonical form.

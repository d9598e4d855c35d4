# h2scan capability records, modelled in Dafny

h2scan reads host names, one per line, and probes each host for HTTPS,
SPDY/3.1 and HTTP/2 support. The probe escalates in stages:

1. Name resolution.
2. A TCP dial to port 443.
3. A TLS handshake, retried once under `"www." + name`.
4. A check of the protocols the server advertises over NPN.
5. An HTTPS GET.
6. A SPDY/3.1 request and then an HTTP/2 request.

For each host it prints one comma-separated line. When asked, a header line
naming the columns comes first.

This project models four things:

- The per-host capability record, including the tri-state outcome of every
  stage and how it is rendered.
- The escalation state machine that fills the record in. Each network call
  becomes an outcome supplied by a `Network` value.
- How a record serialises to its output line, and the header line.
- The writer loop that prints the header and the record lines.

Modules:

- `Strings` has the list-membership search `in`. It also has `strings.Join`
  and its inverse `Split`. `Split` is used only to state that an output line
  can be read back into its columns.
- `Tristate` has the `tri` value and its `String` rendering.
- `Sites` has the record as a value, `Record`, and the record line, `Line`
  (`site.String`). It also has the header, `Header` (`site.fields`), and the
  lemmas that read lines back into columns.
- `Probing` has:
  - the oracle datatypes `Network` and `Upgrade`;
  - `Probe`, a field-by-field specification of `site.test`;
  - class `Site`, which holds the record's fields. Its `Test` method runs the
    stages in order, mutating those fields. `Test` is proved to equal `Probe`
    of the prior record.
  - It also states the escalation invariant (`Escalated`) and exactly which
    records a probe can produce (`Attainable`). Both directions are proved.
- `Writer` has the header/record loop of `writer`, written as `Emit`. It is
  proved against the `Output` function.

The stages of `test` are methods of `Site` (`Resolve`, `Dial`, `Handshake`,
`Announce`, `Fetch`, `Request`). Each of the first five follows one commented
block of the Go function, and `Request` follows the two request blocks.
`Test` runs them in order and stops where the Go code returns early.

Three behaviours of the code worth noting:

- A failed HTTPS GET returns before the SPDY and HTTP/2 stages, so those stay
  `-` (h2scan.go:134-137).
- In a request stage, a failed dial, a different negotiated protocol or a
  failed client connection only logs. The stage has run, so it renders `f`,
  not `-` (h2scan.go:147-177 and 183-214).
- After a failed first handshake, the `www.`-prefixed name stays in the record
  and is what the line prints, whether or not the retry succeeds
  (h2scan.go:107-114).

## Model

| member | source | states |
|---|---|---|
| Strings.In | h2scan.go:20-28 | the result is true exactly when `s` equals some element of the list; the empty list gives false |
| Strings.Join | h2scan.go:236 | strings.Join of no pieces is empty, and every character of the result comes from the separator or from a piece |
| Strings.SplitJoin | h2scan.go:232-237 | splitting a comma- or space-join gives back the pieces, for a non-empty list of pieces none of which holds the separator |
| Strings.JoinSplit | h2scan.go:236 | joining the pieces of any string, split at a separator, with that separator gives the string back |
| Tristate.Render | h2scan.go:37-50 | gives "-" exactly when the stage did not run, whatever yesno holds; "t" exactly when ran and yesno; "f" exactly when ran and not yesno; the fallback "!" is never returned |
| Tristate.RenderInjective | h2scan.go:37-50 | two tri-states render alike exactly when neither ran, or both ran with the same outcome |
| Sites.HeaderColumns | h2scan.go:228-230 | the header splits at commas into the ten column names, in the order the record line gives its columns |
| Sites.SplitLine | h2scan.go:232-237 | when the name and the protocols hold no comma, a record line splits back into the name, the eight renderings in declaration order and the space-joined protocol list |
| Sites.ProtocolsRecoverable | h2scan.go:232-237 | when the name holds no comma and no protocol identifier holds a space or a comma: the line has ten columns; the tenth is empty when nothing was advertised, and otherwise splits at spaces back into the advertised list |
| Sites.ResolvesAfterName | h2scan.go:232-237 | whatever the name holds, the column right after the name's comma-separated pieces is the one-character rendering of `resolves` |
| Sites.LineIsNotHeader | h2scan.go:228-237 | no record line equals the header, whatever the name holds |
| Probing.Site.constructor | h2scan.go:302 | a new site has the input name, every stage not run and no protocols |
| Probing.Site.Resolve | h2scan.go:73-82 | marks resolution as run, records the lookup outcome and reports whether to go on; nothing else changes |
| Probing.Site.Dial | h2scan.go:84-96 | marks the port-443 stage as run, records the dial outcome and reports whether to go on |
| Probing.Site.Handshake | h2scan.go:98-117 | marks TLS as run; a failed first handshake renames the site to "www." + name for good; TLS succeeds when either handshake does |
| Probing.Site.Announce | h2scan.go:119-128 | stores the advertised list unchanged, and marks both announcements as run with their membership results |
| Probing.Site.Fetch | h2scan.go:130-142 | marks HTTPS as run, and sets yesno only when the GET succeeds; a failure leaves yesno as it was |
| Probing.Site.Request | h2scan.go:144-215 | runs the SPDY/3.1 and then the HTTP/2 request stage, each only when its protocol was announced |
| Probing.Site.Test | h2scan.go:71-216 | the site's new record is `Probe` of its prior record under the given network outcomes |
| Probing.ProbeAttainable | h2scan.go:71-216 | probing a fresh record always gives an escalated record: each stage ran exactly when the stage gating it succeeded, yesno only on stages that ran, and protocols only after TLS |
| Probing.AttainableIsReached | h2scan.go:71-216 | every record that satisfies the escalation rules, the naming rule and the announcement rule is produced by some network outcome |
| Probing.ResolutionFailure | h2scan.go:75-81 | an unresolvable name gives the columns name, f, seven "-" and an empty protocol list |
| Probing.DialFailure | h2scan.go:88-94 | a closed port 443 gives name, t, f, six "-" and an empty protocol list |
| Probing.RenameOnce | h2scan.go:102-117 | the name is unchanged when the first handshake succeeds; otherwise it is "www." + name, whether or not the retry succeeds |
| Probing.TlsFailure | h2scan.go:102-117 | when both handshakes fail, the line has "www." + name, t, t, f, and every later stage "-" |
| Probing.Announcements | h2scan.go:122-127 | after TLS succeeds, both announcements ran and hold the membership results, and the protocol list is the advertised one |
| Probing.HttpsFailure | h2scan.go:132-142 | a failed HTTPS GET renders f and leaves both request stages "-", even for announced protocols |
| Probing.SpdyRequest | h2scan.go:146-178 | the SPDY stage runs exactly when SPDY was announced and HTTPS worked; it succeeds exactly when the dial, the negotiation of "spdy/3.1", the client connection and the request all succeed; a different negotiated protocol renders f |
| Probing.Http2Request | h2scan.go:182-215 | the same rule for the HTTP/2 stage and "h2" |
| Probing.NoAlternateProtocols | h2scan.go:71-216 | a host reachable over HTTPS, after the first handshake or the retry, that advertises nothing gives its name as the TLS stage left it, t for the first four stages, f for both announcements and "-" for both requests |
| Writer.LinesAt | h2scan.go:257 | the k-th record line printed is the k-th record's |
| Writer.LinesSnoc | h2scan.go:251-258 | one more record appends its line and changes none of the earlier ones |
| Writer.Emit | h2scan.go:249-258 | the loop prints exactly `Output`: the header first when headers are on and a record arrived, then one printed string per record |
| Writer.OutputLayout | h2scan.go:249-258 | the printed strings are one per record plus the header if shown; the header comes first, then the records' strings in arrival order |
| Writer.HeaderOnlyFirst | h2scan.go:249-258 | when no record renders as the header, the header is only the first printed string, and only when headers are on and a record arrived |
| Writer.SiteHeaderOnlyFirst | h2scan.go:228-258 | for any sites, whatever their names, only the first printed string can be the header, and only when headers are on and a record arrived |

## Left out

- Network I/O. The model does not cover `net.LookupHost`, `net.DialTimeout`,
  `tls.Dial`/`ConnectionState`, `http.Get`, `spdy.NewClientConn`/`Do`, or
  `http2.Transport`/`RoundTrip`. Each call site becomes one field of
  `Network` or `Upgrade`. Each call runs at most once per probe, so the
  address and URL each call is made with (`JoinHostPort`, `"https://" + name`)
  are not modelled.
- Closing connections, draining response bodies and the `defer` cleanup: they
  leave the record unchanged.
- Calls that can block forever. The two TLS handshakes (h2scan.go:105, 110),
  the HTTPS GET (133), the body drains (139, 168, 204), the SPDY dial and
  request (150, 162) and the HTTP/2 dial and round trip (186, 198) have no
  timeout. When one of them blocks, `test` never returns, the host's record
  is never printed and `main` never gets past `wg.Wait()` (306). The model
  gives each call an outcome, so it covers only probes that finish. A record
  that is never printed is not modelled.
- The 2-second dial timeout: it is a timing behaviour, and only its outcome
  (dial failed) is modelled.
- `logf`: it writes diagnostics to a log file, which the record never sees.
- Concurrency. `worker`, the wait group, the `work`/`result`/`stop` channels,
  goroutine start-up and `close(stop)` are left out. The writer is modelled as
  a loop over the records in the order they arrive. The arrival order itself
  is scheduler-dependent and is an input.
- `main` is left out: flag parsing, the `workers < 1` check, log-file
  creation, stdin scanning and error printing. Only the record it creates per
  input line (the `Site` constructor) is kept.
- Sites.HeaderColumns: the header is defined as the column names joined by
  commas. The model does not prove that this join equals the string literal
  at h2scan.go:229, character by character. The literal holds the same ten
  names in the same order.
- Writer.Emit: the loop is written over any record type, with the header and
  the record rendering as parameters. For the prober's records these are
  `Sites.Header` and `Sites.Line`. The output lines are collected into a
  sequence rather than written to standard output.
- Writer.SiteHeaderOnlyFirst, Writer.OutputLayout and Writer.HeaderOnlyFirst:
  a "line" here is the one string that one `fmt.Printf("%s\n", …)` call
  prints (h2scan.go:253, 257), not a line of standard output. Advertised
  protocols are printed unescaped (h2scan.go:123, 236), so a protocol
  identifier holding a newline prints as several stdout lines. One of those lines can even be the header text. The model states
  nothing about stdout lines.
- Probing.Attempt: inside a request stage the model does not keep the
  intermediate state between setting `ran` and setting `yesno`, because
  nothing can observe it.

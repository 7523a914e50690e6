# vmware_exporter probe, modelled in Dafny

The exporter answers each scrape request `GET /probe?target=<host>&dc=<name>`
by talking to a vCenter REST API in five steps:

1. open a session with HTTP Basic credentials;
2. list the datacenter;
3. list the datastores and write their capacity and free-space gauges;
4. list the hosts and write their power and connection gauges;
5. close the session.

A missing `target` or `dc` parameter gives a 400 before any call. After
that, the first of the four calls before logout that fails ends the request
with a 400 carrying its error text. The two index-out-of-range panics
described below end the request without any 400. The logout's result is
ignored, so a failing logout never gives a 400.

This project models that logic as pure functions and proves what it
promises. It covers two pieces: the handler (`prober/handler.go`,
`Handler`) and the vCenter client (`vcenter/vcenter.go`).

Modules, one file each:

- `Basics`: bytes and `Option`.
- `Utf8`: the UTF-8 encoding of RFC 3629. It stands for Go's `[]byte(s)`, and has a decoder and a round-trip proof.
- `Base64`: the padded standard alphabet of section 4 of RFC 4648. It has a strict decoder that rejects non-zero pad bits (section 3.5). It proves both round trips, injectivity and the output shape.
- `GoStrings`: `strings.Trim` with a one-character cutset, and the decimal rendering that `%v` gives an `int`.
- `VCenter`: the records `Datastore`, `Host` and `VcenterDatacenter`, and the client `Model`.
  - It has the five client methods as functions of a `Network`. A `Network` is the outside world as an input: whether `http.NewRequest` accepts a URL, and what each endpoint answers.
  - Each method returns Go's `(value, err)` pair, plus the request it put on the wire.
- `ClientProperties`: lemmas about the client.
  - The Basic credential, with the colon split of section 2 of RFC 7617.
  - The status rules and the exact requests.
  - The session-id trim, and the fact that logout swallows every error.
- `Prober`: the handler.
  - `Handle` is the handler's decision logic, given what each client call returned.
  - `Probe` is `Handle` applied to the client model.
  - Its outcome is a 400 with a message, the four gauge maps, or the index-out-of-range panic. It also returns the trace of client calls made.
  - The gauge loops are `SetDatastores` and `SetHosts`.
- `ProbeProperties`: lemmas about the handler. Most are stated for `Handle` with arbitrary call results, so they hold whatever the server does. The lemmas that involve requests on the wire are stated for `Probe`.

Two behaviours of the handler are easy to miss, and the model keeps both:

- **An empty datacenter listing is not rejected up front.** The handler
  reads `vcenterDC[0]` only inside each gauge loop. So if datastores exist,
  the request panics after the datastore call. Otherwise, a failing host
  listing still gives its 400, because the error check comes before the host
  loop. If hosts exist, the request panics after the host call. If neither
  exists, it succeeds with no samples and logs out
  (`ProbeProperties.EmptyDatacenterList`).
- **Records with equal labels share one series, holding the later record's
  value.** A gauge vector keeps one series per label set
  (`ProbeProperties.DatastoreSamples`, `ProbeProperties.HostSamples`).

## Model

| member | source | states |
|---|---|---|
| Utf8.Encode | vcenter/vcenter.go:252 | the UTF-8 bytes of a string are at least as many as its characters and at most four times as many |
| Utf8.EncodeAppend | vcenter/vcenter.go:251-252 | the bytes of `user + ":" + pass` are the bytes of the parts, concatenated |
| Utf8.DecodeEncode | vcenter/vcenter.go:252 | decoding the UTF-8 bytes of any string gives the string back, so the conversion loses nothing |
| Base64.Encode | vcenter/vcenter.go:252 | standard Base64 of n bytes is 4*ceil(n/3) characters long |
| Base64.EncodeShape | vcenter/vcenter.go:252 | the output is alphabet characters followed by exactly (3 - n mod 3) mod 3 `=` pads |
| Base64.DecodeEncode | vcenter/vcenter.go:252 | decoding the encoding of any byte string gives that byte string |
| Base64.EncodeInjective | vcenter/vcenter.go:252 | distinct byte strings encode differently |
| Base64.EncodeDecode | vcenter/vcenter.go:252 | every string the decoder accepts is the encoding of what it decodes to, so encoding and decoding are inverse bijections between byte strings and canonical encodings |
| Base64.DecodeInjective | vcenter/vcenter.go:252 | distinct strings never decode to the same bytes, so each credential has exactly one accepted spelling |
| ClientProperties.SplitJoin | vcenter/vcenter.go:251 | when the user name has no colon, splitting `user:pass` at the first colon recovers both parts |
| ClientProperties.BasicAuthRoundTrip | vcenter/vcenter.go:250-253 | the credential Base64-decodes to the UTF-8 bytes of `user:pass`, which decode to `user:pass`, which splits back into user and password when the user has no colon |
| ClientProperties.BasicAuthInjective | vcenter/vcenter.go:250-253 | colon-free user names with different user or password give different credentials |
| ClientProperties.BasicAuthShape | vcenter/vcenter.go:250-253 | for n = bytes of user + 1 + bytes of password, the credential has 4*ceil(n/3) characters: alphabet characters, then only the needed padding |
| ClientProperties.StatusErrorCarriesCode | vcenter/vcenter.go:204-206 | the status error is "http response error: " followed by the status code in decimal, which reads back as that code |
| ClientProperties.AuthenticateRequest | vcenter/vcenter.go:188-196 | a request is sent exactly when the session URL is accepted: a POST to `https://host:port/api/session` with `Authorization: Basic <credential>` |
| ClientProperties.AuthenticateStatusRule | vcenter/vcenter.go:188-212 | no error exactly when the URL is accepted and the answer is 201, and then the token is the body unmodified; otherwise the token is "" and the error is the request error, the transport error or the status error |
| ClientProperties.FetchStatusRule | vcenter/vcenter.go:53-83 | a listing has no error exactly when the URL is accepted, the status is 200 and the body decodes; other statuses give the status error and no records; records come only from a 200 |
| ClientProperties.FetchRequest | vcenter/vcenter.go:53-62 | a listing sends exactly one GET to `https://host:port<path>?datacenters=<dc>`, unescaped, with the session id trimmed of quotes, when the URL is accepted |
| ClientProperties.ListingUrls | vcenter/vcenter.go:41-175 | the datacenter, datastore and host listings each send a GET to `https://host:port` followed by `/api/vcenter/datacenter?datacenters=`, `/api/vcenter/datastore?datacenters=` or `/api/vcenter/host?datacenters=` and then the datacenter name, unescaped |
| GoStrings.TrimLeft | vcenter/vcenter.go:61 | drops exactly the leading run of the cut character: a suffix remains that does not start with it |
| GoStrings.TrimRight | vcenter/vcenter.go:61 | drops exactly the trailing run: a prefix remains that does not end with it |
| GoStrings.TrimIsTrimmed | vcenter/vcenter.go:61 | the trimmed id is a contiguous piece of the raw id, with only quotes around it, not starting or ending with a quote; interior quotes stay |
| GoStrings.TrimmedIsTrim | vcenter/vcenter.go:61 | any string with that description is the trimmed id, so the description is exact |
| GoStrings.TrimIdempotent | vcenter/vcenter.go:61 | trimming twice is trimming once |
| ClientProperties.SessionIdTrim | vcenter/vcenter.go:234 | the session id sent by the listings and by LogOut is exactly the piece described above, and trimming it again changes nothing |
| GoStrings.ParseFormat | vcenter/vcenter.go:71 | the `%v` rendering of any int parses back to that int |
| GoStrings.FormatIntInjective | vcenter/vcenter.go:71 | distinct ints render differently |
| ClientProperties.LogOutSwallowsErrors | vcenter/vcenter.go:215-248 | LogOut's effect does not depend on the server's answer; it sends a DELETE to the session URL with the trimmed id exactly when the URL is accepted |
| Prober.SetDatastoresWrites | prober/handler.go:117-122 | after the datastore loop each label set (dc, name, type) holds the capacity and free space of the last record carrying it, no other label set is written, and host gauges are untouched |
| Prober.SetHostsWrites | prober/handler.go:131-148 | after the host loop each (dc, host name) holds 1/0 for the last record with that name, exactly POWERED_ON / CONNECTED giving 1; datastore gauges are untouched |
| Prober.SetDatastores | prober/handler.go:117-122 | the datastore loop; host gauges are untouched, and `Prober.SetDatastoresWrites` states which series it writes and with which values |
| Prober.SetHosts | prober/handler.go:131-148 | the host loop; datastore gauges are untouched, and `Prober.SetHostsWrites` states which series it writes and with which values |
| ProbeProperties.ParameterValidation | prober/handler.go:74-87 | empty target gives 400 "Target parameter is missing" with no call, checked before dc; empty dc then gives 400 "DC parameter is missing"; no call is made exactly in those cases |
| ProbeProperties.HandleTrace | prober/handler.go:96-150 | the trace is the first n of the five calls, n being fixed by the call results alone; the outcome is the failing call's error, the panic, or the gauges after all five |
| ProbeProperties.CallSequence | prober/handler.go:96-129 | the trace is a prefix of Authenticate, GetDatacenter, GetDatastores, GetHosts, LogOut; all but the last call succeeded; a 400 happens exactly when the last call failed, with its error text |
| ProbeProperties.LogOutOnlyOnSuccess | prober/handler.go:96-150 | LogOut is in the trace exactly when the request succeeds, once, as the last call |
| ProbeProperties.DatastoreSamples | prober/handler.go:117-122 | on success, one capacity and one free-space series per distinct (first datacenter's name, name, type), valued from the last such record |
| ProbeProperties.HostSamples | prober/handler.go:131-148 | on success, one power and one connection series per distinct (first datacenter's name, host name), 1 exactly for "POWERED_ON" / "CONNECTED" and 0 otherwise |
| ProbeProperties.SamplesLabelledWithFirstDatacenter | prober/handler.go:119-146 | every sample's `dc_name` is the name of the first datacenter record, not the `dc` query value |
| ProbeProperties.EmptyDatacenterList | prober/handler.go:117-150 | with no datacenter record: datastores give a panic after three calls; else a host error gives its 400; hosts give a panic after four calls; nothing gives success with no samples and a logout |
| ProbeProperties.RemoteAddress | prober/handler.go:89-94 | the handler never sets a port, so the address is the target followed by a bare colon |
| ProbeProperties.RequestsOnTheWire | prober/handler.go:89-150 | the first request carries the Basic credential; later calls happen only after a 201; every later request carries that 201 body, quote-trimmed, as session id; each goes to its fixed URL with its fixed method |
| ProbeProperties.LogOutResponseIgnored | prober/handler.go:150 | the logout's answer never changes the result |
| ProbeProperties.AuthenticationRejected | prober/handler.go:96-101 | a session answer other than 201 gives a 400 "http response error: <status>" after one call: no listing, no logout |
| ProbeProperties.HealthyServerProbe | prober/handler.go:96-153 | against a server with DC1, datastore ds1 (VMFS, 500, 100) and host esx1 (powered on, connected), the gauges are capacity 500, free 100, power 1, connection 1 under DC1, and logout is called once, last |

The functions that compute the model carry no contract of their own; the
lemmas named next to each state it:

- `VCenter.BasicAuth` (vcenter/vcenter.go:250-253): the Basic credential; its contract is in `ClientProperties.BasicAuthRoundTrip`, `BasicAuthInjective` and `BasicAuthShape`.
- `VCenter.Authenticate` (vcenter/vcenter.go:177-213): `(*Model).Authenticate`; its contract is in `ClientProperties.AuthenticateRequest` (the POST and its header) and `AuthenticateStatusRule` (201 only, raw body as token, the three error sources).
- `VCenter.Fetch` (vcenter/vcenter.go:41-84): the body shared by the three listings; its contract is in `ClientProperties.FetchRequest` (the GET, its URL and trimmed session id) and `FetchStatusRule` (200 only, decode errors passed on, records only from a 200).
- `VCenter.GetDatastores` (vcenter/vcenter.go:41-84): the datastore listing; `ClientProperties.ListingUrls` states its URL, `FetchStatusRule` its result.
- `VCenter.GetDatacenter` (vcenter/vcenter.go:86-129): the datacenter listing; `ClientProperties.ListingUrls` states its URL, `FetchStatusRule` its result.
- `VCenter.GetHosts` (vcenter/vcenter.go:131-175): the host listing; `ClientProperties.ListingUrls` states its URL, `FetchStatusRule` its result.
- `VCenter.LogOut` (vcenter/vcenter.go:215-248): `(*Model).LogOut`; its contract is in `ClientProperties.LogOutSwallowsErrors` (no result, the DELETE with the trimmed id).
- `Prober.Handle` (prober/handler.go:74-150): `Handler`'s decisions given the client results; its contract is in `ProbeProperties.ParameterValidation`, `HandleTrace`, `CallSequence`, `LogOutOnlyOnSuccess`, `DatastoreSamples`, `HostSamples`, `SamplesLabelledWithFirstDatacenter` and `EmptyDatacenterList`.
- `Prober.Probe` (prober/handler.go:89-150): `Handler` against the client model; its contract is in `ProbeProperties.RemoteAddress`, `RequestsOnTheWire`, `LogOutResponseIgnored`, `AuthenticationRejected` and `HealthyServerProbe`.

## Left out

- Transport: the TLS configuration, the 10-second timeouts, `client.Do` and `req.Close`. Each endpoint's answer is an input of the `Network` record: a transport error, or a status with a body.
- `http.NewRequest`: its verdict on a URL is an input function (`Network.newRequestError`), because its URL parser is a foreign library.
- JSON decoding: each listing's reply is either the decoded records or a decode error together with whatever records were filled. This is because `encoding/json` is a foreign library.
- The error of `io.ReadAll`: the source ignores it, so the model has no such error.
- Go header-key canonicalisation: `Header.Set` stores `vmware-api-session-id` as `Vmware-Api-Session-Id`. Header names are recorded as the source writes them.
- The Prometheus registry, `GaugeVec` and the exposition format: the four gauge families are finite maps from label values to the last value set. Help texts and metric names are not modelled.
- `float64` conversion of the gauge values: values are kept as integers, because floating point is out of scope.
- `http.Error`'s framing: it appends a newline to the message and sets `Content-Type: text/plain` and `X-Content-Type-Options: nosniff`. `BadRequest` carries the message text only, since the framing is fixed and independent of the failure.
- Logging with `slog` and the request duration: side effects without decisions.
- `main.go`: configuration loading and the HTTP server are process plumbing. Requests are independent, so concurrency is not modelled.
- Go strings holding invalid UTF-8: strings are sequences of Unicode scalar values, so `[]byte(s)` is always the UTF-8 encoding.
- ProbeProperties.HealthyServerProbe: does not state the session id it sends; `ProbeProperties.RequestsOnTheWire` states it for every server.

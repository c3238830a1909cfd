# Revogi cloud client: command dispatcher and session renewal

A Dafny model of the Go client for the Revogi cloud relay that controls
networked power strips. Every vendor call is one form POST to
`https://<host>/services/ajax.html` carrying a command code (`cmd`), a JSON
payload (`json`) and, for commands that need a session, the session token
(`tokenlogin`). The answer is an envelope `{code, data, response, sn}`.

The model covers the client object and its dispatcher `doRequest`:

- it picks the host: the session domain, or `server.revogi.net` when that is empty;
- it fails at once on a transport error or an HTTP status other than 200;
- on inner code 401 for a session command it renews the session: it fails when
  the cross-call counter `retries` has reached `MaxRetries`; otherwise it logs in
  again; a failed login adds 1 to the counter and fails, and a successful one
  resets the counter to 0 and resubmits the command;
- it sleeps `Cooldown` seconds on inner code 500 and then fails;
- it fails on every other inner code that is not 200.

It also covers `Login`, which takes over domain and token only when the whole
path succeeds, and the typed operations `GetDevice`, `GetDevices`,
`GetDeviceStats` and `Power`.

Structure:

- `types.dfy` (module `Types`): configuration, envelope, device, telemetry,
  login data and the error values.
- `transport.dfy` (module `Transport`): command codes, payloads, form
  fields, requests and the scripted responses. It also holds the `World`
  the dispatcher works on: the session fields, the responses still to come,
  the log of posted requests and the log of cooldowns slept.
- `dispatch.dfy` (module `Dispatch`): `DoRequest` and `Login` as mutually
  recursive functions of the world, with one lemma per branch and inductive
  lemmas for the frame, the counter and the cooldown.
- `renewal.dfy` (module `Renewal`): behaviour over several calls. It shows the
  budget bound for a server that keeps answering 401. It also shows that
  resubmissions are unbounded when logins keep succeeding.
- `operations.dfy` (module `Operations`): payload codes and post-processing
  of the typed operations, `strings.Split`, and `Power`'s echo check.
- `client.dfy` (module `RevogiClient`): class `Client` with the Go struct's
  fields and methods that update them in place. Each method is proved equal
  to the corresponding function of `Dispatch` or `Operations`.
- `scenarios.dfy` (module `Scenarios`): the exchanges of the repository's tests.

The transport is a finite script of responses. Each response is a transport
error or an HTTP status with a decoded envelope (or none, when the body is not
an envelope). Every post consumes one response. Once the script is exhausted
every further post fails like a transport error. The recursion of `doRequest`
terminates on the length of the script and not on the counter.

Four behaviours of the code are easy to miss, and the model keeps them:

- A successful login resets the counter to 0, so the counter does not bound
  the 401 loop: one call can resubmit without bound (`Renewal.ResubmitUnbounded`).
- `Login` accepts an answer that carries no token and leaves domain and token
  empty (`Dispatch.LoginEffect`, `Scenarios.LoginWithEmptyData`).
- Every HTTP status other than 200 fails, including the other 2xx statuses.
- A renewal login that gets inner code 500 also sleeps the cooldown
  (`Dispatch.CooldownDiscipline`).

## Model

| member | source | states |
|---|---|---|
| Transport.EndpointUrl | revogi.go:92-97 | a request goes to `https://<domain>/services/ajax.html` when a domain is set, and to the same path on `server.revogi.net` before any login |
| Transport.RequestForFields | revogi.go:83-97 | the posted request goes to the session's endpoint and carries the command code and payload as given, plus the current token exactly on session commands |
| Transport.TargetHost | revogi.go:92-95 | the target host is never empty; it is the session domain when one is set and `server.revogi.net` otherwise |
| Transport.BuildForm | revogi.go:83-90 | the form carries the command code and payload as given; `tokenlogin` is present exactly when the command needs a session, and then it carries the current token |
| Dispatch.DoRequest | revogi.go:82-139 | the dispatcher as a function of the world; no call ever adds responses to the script |
| Dispatch.Login | revogi.go:56-80 | the authenticator as a function of the world; it never adds responses to the script |
| Dispatch.NoSessionRequest | revogi.go:115-136 | a command without a session posts exactly once, leaves domain, token and counter alone, and succeeds exactly on HTTP 200 with inner code 200; a 401 there is an ordinary code error; only code 500 sleeps |
| Dispatch.LoginEffect | revogi.go:56-80 | Login posts cmd 101 with the credentials and no token, exactly once. It succeeds exactly when the answer is HTTP 200, code 200 and decodable. Then the session takes the decoded domain and token, empty if absent. On any failure the session is unchanged. The counter is never touched |
| Dispatch.HttpFailure | revogi.go:97-107 | a transport error or HTTP status other than 200 returns that error at once; apart from the one posted request and the consumed response nothing changes, so no login and no cooldown happen |
| Dispatch.UnreadableBody | revogi.go:109-113 | an HTTP 200 answer whose body is not an envelope fails with the read error at once; apart from the one posted request and the consumed response nothing changes |
| Dispatch.BudgetExhausted | revogi.go:115-118 | a 401 on a session command with the counter at or above the budget fails with the budget error and posts no login |
| Dispatch.ZeroBudget | revogi_test.go:181-197 | with a budget of 0 the first 401 on a session command fails with the budget error |
| Dispatch.FailedRenewal | revogi.go:121-126 | a failed re-login raises the counter by exactly 1 and returns the renewal error wrapping the error of that very login. It leaves domain and token unchanged. Only the command and the login were posted, so the command is not resubmitted |
| Dispatch.SuccessfulRenewal | revogi.go:127-128 | after a successful re-login the call continues as the same command (same code, payload and session flag) in the logged-in session, with the counter reset to 0 |
| Dispatch.InnerCodePolicy | revogi.go:131-138 | outside the renewal branch inner code 200 returns the envelope and every other code fails with that code and the raw data; code 500 sleeps exactly one cooldown of `Cooldown` seconds, other codes none; the session is unchanged and exactly one response is consumed |
| Dispatch.DoRequestFrame | revogi.go:83-128 | a call first posts its own request (host from the domain, token iff session) and only appends after it; it consumes a prefix of the script, one response per request, plus at most one request that found the script empty |
| Dispatch.RetriesDiscipline | revogi.go:116-127 | the counter only moves by +1 on a failed renewal or to 0 on a successful one. It changes only on a session command whose answer is a 401, and only once a login has been posted. It stays non-negative and never passes the budget unless it started above it. A command without a session never changes the session |
| Dispatch.CooldownDiscipline | revogi.go:131-134 | a call sleeps at most one cooldown of `Cooldown` seconds. It sleeps exactly when it fails on inner code 500, its own or that of the renewal login |
| Dispatch.DoRequestIgnoresPayload | revogi.go:82-139 | the result and the new session, script and cooldowns do not depend on the command code, the payload or the requests posted earlier |
| Renewal.ExpiredCall | revogi.go:115-126 | against a server answering 401 to everything, a session command with budget left makes one failing login and raises the counter by one; with no budget left it fails with the budget error and makes no login |
| Renewal.ExpiredSessionBudget | revogi.go:115-127 | repeated session commands that always get 401 all fail, and each login made is matched by one step of the counter, which never passes `MaxRetries`. So, starting from a counter of 0, at most `MaxRetries` logins are made in total. With enough responses, exactly the calls made while the counter is below the budget log in, and every later call fails with the budget error |
| Renewal.ResubmitUnbounded | revogi.go:127-128 | for every k, even with a budget of 1, a server alternating 401 and accepted logins makes one call resubmit k times (2k+1 requests) and then return the final envelope |
| Operations.PowerState | revogi.go:217-222 | the power command's state is 0 or 1, and 1 exactly when switching on |
| Operations.Split | revogi.go:244 | splitting on `:` always yields at least one field |
| Operations.SplitAtFirst | revogi.go:244 | the first field is the text before the first `:` (or the whole text when there is none), and the rest is the split of what follows |
| Operations.EchoCheck | revogi.go:244-248 | the corrected echo check either accepts or fails with "unexpected result" carrying the answer; it never reports any other error |
| Operations.EchoCheckAsWritten | revogi.go:244 | the check as written panics only when the whole answer is the single field `send2`; otherwise it accepts or fails with "unexpected result" carrying the answer |
| Operations.EchoCheckAccepts | revogi.go:244-248 | Power's echo check accepts exactly the answers `send2:<sn>`, alone or followed by further `:`-fields, for a serial without `:`; every other answer fails with "unexpected result" carrying the answer |
| Operations.EchoCheckAsWrittenPanics | revogi.go:244 | the check as written indexes a missing second field exactly when the answer is `send2`; on every other answer it agrees with the corrected check |
| Operations.FirstStats | revogi.go:213 | the corrected choice of the stats row succeeds exactly on a non-empty answer and then returns its first row; on an empty answer it fails with NoStats |
| Operations.FirstStatsAsWritten | revogi.go:213 | `Data[0]` as written panics exactly on an empty answer and otherwise returns the first row |
| Operations.FirstStatsAsWrittenPanics | revogi.go:213 | taking `Data[0]` as written faults exactly on an empty answer and agrees with the corrected choice otherwise |
| Operations.GetDevice | revogi.go:141-167 | GetDevice posts cmd 500 for the device's serial and leaves the world as the dispatcher left it. It passes dispatcher errors through and fails with a decode error on an undecodable answer. Otherwise it returns the first device, or the zero Device when the list is empty |
| Operations.GetDevices | revogi.go:169-190 | GetDevices posts cmd 500 for `all` and leaves the world as the dispatcher left it. It passes dispatcher errors through, fails with a decode error on an undecodable answer and otherwise returns the decoded list unchanged |
| Operations.GetDeviceStats | revogi.go:192-214 | GetDeviceStats posts cmd 511 for the device's serial and leaves the world as the dispatcher left it. It passes dispatcher errors through and fails with a decode error on an undecodable answer. Otherwise it returns the first row, or NoStats when there is none |
| Operations.Power | revogi.go:216-249 | Power posts cmd 200 and leaves the world as the dispatcher left it. It passes dispatcher errors through, and fails with an unquote error carrying the raw data when the data is not a quoted string. Otherwise its result is the echo check of the unquoted text |
| Operations.OperationRequests | revogi.go:144-234 | each operation first posts its own command with the session token: 500 with `{protocol 3, dev sn}`, 500 with `{protocol 3, dev all}`, 511 with `{protocol 3, sn [sn]}`, and 200 with `{protocol 3, sn, port, state}`, where state is 1 iff on |
| Operations.GetDeviceIsFirstOfGetDevices | revogi.go:141-189 | against the same server state GetDevice and GetDevices end in the same session and fail alike. GetDevice returns the first device GetDevices returns, which is one of them, or the zero Device when the list is empty |
| Operations.PowerSucceedsIff | revogi.go:234-248 | Power succeeds exactly when the dispatcher returns an envelope whose data unquotes to the expected echo; a non-matching echo fails with "unexpected result" |
| RevogiClient.Client.constructor | revogi.go:45-54 | a new client has empty domain and token, counter 0, and the given transport and configuration |
| RevogiClient.Client.PostForm | revogi.go:97-103 | posting logs the request and takes the next scripted response, or a transport error once the script is empty; the session fields are untouched |
| RevogiClient.Client.DoRequest | revogi.go:82-139 | the in-place dispatcher leaves result and fields exactly as `Dispatch.DoRequest` computes from the old fields |
| RevogiClient.Client.Login | revogi.go:56-80 | the in-place login leaves result and fields exactly as `Dispatch.Login` computes from the old fields |
| RevogiClient.Client.GetDevice | revogi.go:141-167 | result and fields are those of `Operations.GetDevice`: the first device or the zero Device |
| RevogiClient.Client.GetDevices | revogi.go:169-190 | result and fields are those of `Operations.GetDevices`: the decoded device list |
| RevogiClient.Client.GetDeviceStats | revogi.go:192-214 | result and fields are those of `Operations.GetDeviceStats`, which fails with NoStats on an empty answer |
| RevogiClient.Client.Power | revogi.go:216-249 | result and fields are those of `Operations.Power`, with the echo checked by splitting on `:` |
| Scenarios.LoginWithEmptyData | revogi_test.go:50-66 | login answered `{"code":200,"data":{}}` succeeds and leaves domain and token empty |
| Scenarios.LoginHttpFailures | revogi_test.go:68-97 | login answered HTTP 500, or by a failing transport, fails |
| Scenarios.LoginInvalidData | revogi_test.go:115-129 | login answered HTTP 200 with a body that is not a well-formed envelope fails with the read error and leaves the session empty |
| Scenarios.LoginInnerServerError | revogi_test.go:99-113 | login answered inner code 500 fails after sleeping the cooldown once |
| Scenarios.GetDevicesBudgetZero | revogi_test.go:181-197 | with budget 0 GetDevices answered 401 fails with the budget error |
| Scenarios.GetDevicesNeedLogin | revogi_test.go:163-179 | with budget 3 a 401 answer leads to a login that gets 401 too; the call fails with the renewal error after two requests, counter 1 |
| Scenarios.PowerEchoAccepted | revogi_test.go:214-227 | the echo `send2:SWW1234` is accepted for serial `SWW1234` |
| Scenarios.PowerEchoRejected | revogi.go:244-248 | for every serial, the echo `send2:<other>` of any other serial without `:` is rejected with "unexpected result" carrying that echo |

## Findings

| source | as written | input that shows it | evidently intended | confidence | as-written member | corrected member |
|---|---|---|---|---|---|---|
| revogi.go:213 | `deviceStatsResult.Data[0]` is read with no length check | a stats answer with code 200 and `"data":[]` | fail with an error when the server returns no row | high, not executed | Operations.FirstStatsAsWritten | Operations.FirstStats |
| revogi.go:244 | `results[1]` is read whenever `results[0] == "send2"` | a power answer whose data unquotes to `send2` | reject the answer as an unexpected result | high, not executed | Operations.EchoCheckAsWritten | Operations.EchoCheck |

The client class and the `Operations` functions use the corrected behaviour.
The as-written behaviour is kept in `Operations.FirstStatsAsWritten` and
`Operations.EchoCheckAsWritten`, which return `Panics` on these inputs.
`Operations.FirstStatsAsWrittenPanics` and `Operations.EchoCheckAsWrittenPanics`
show that the panic happens exactly on these inputs and that the two versions
agree everywhere else. `Operations.EchoCheckAccepts` proves that the corrected
check accepts exactly the expected echo.

## Left out

- The HTTP client, `url.Values` and `PostForm` (revogi.go:30-33, 97) are replaced by the scripted response queue. An exhausted script acts as a transport error. Closing the response body is not modelled.
- JSON encoding and decoding and `strconv.Unquote` are foreign library calls. Payloads are kept as a datatype, not a JSON string. The envelope's `data` carries its raw text plus the outcome of each decoder applied to it. The consistency of those outcomes with the raw text is not modelled.
- The `json.Marshal` error branches (revogi.go:61-63, 148-150, 174-176, 198-200, 230-232) are left out. They cannot fail for these payloads.
- `time.Sleep` (revogi.go:133) is recorded as an entry in a ghost log of cooldowns, not as elapsed time. The log holds the configured `Cooldown` as given. So the model does not capture that `time.Second * time.Duration(Cooldown)` overflows for a very large `Cooldown`, or that a negative `Cooldown` sleeps not at all.
- The logger, its messages (revogi.go:120) and `NewClient`'s logger setup (revogi.go:50-52) are left out. `NewClient` assigns `c.logger` only when `Config.Logger` is nil, so a client built with a Logger keeps a nil logger and the `Println` on the renewal path (revogi.go:120) would fault. The model does not capture this fault: its renewal path behaves as if a logger were always set.
- Error messages are modelled as distinct `Error` values carrying their numbers and raw text, not their wording.
- On error Go also returns a zero value beside the error (an empty Device or stats, a nil slice); the model returns only the error.
- `LoginData` fields other than domain and token are carried but unused, as in the source.
- Go's 64-bit `int` is modelled as an unbounded integer. `retries++` cannot wrap: it runs only while `retries < MaxRetries` (revogi.go:116, 124).
- The unused `Revogi` struct, `Config.Interval`, `Config.Devices`, `DeviceConfig` and `SocketNumber` (types.go:8-15, 20, 23, 27-32) have no behaviour in the core and are left out. `Config.Logger` (types.go:24) is left out as described above.
- Concurrency is left out: the client is used from one thread at a time.
- The test file's mock HTTP client (revogi_test.go:13-48) is replaced by the scripted responses.
- Renewal.ExpiredSessionBudget: the exact count of logins and budget errors is stated only when the script holds at least two responses per call. With fewer, only the upper bound is stated.

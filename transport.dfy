/**
 * The wire seam: the form a request carries, the scripted responses that stand
 * in for the HTTP client, and the state the dispatcher works on.
 */
module Transport {
  import opened Types

  const ApiHost: string := "server.revogi.net"
  const Protocol: string := "3"

  /** Command codes. */
  const CmdLogin: int := 101
  const CmdPower: int := 200
  const CmdDevices: int := 500
  const CmdStats: int := 511

  /** The value sent, JSON-encoded, in the `json` form field. */
  datatype Payload =
    | Credentials(username: string, password: string)
    | DeviceQuery(protocol: string, dev: string)
    | StatsQuery(protocol: string, sns: seq<string>)
    | PowerSet(protocol: string, sn: string, port: int, state: int)

  /** The form fields: `cmd`, `json` and, only on session commands, `tokenlogin`. */
  datatype Form = Form(cmd: int, json: Payload, tokenlogin: Option<string>)

  datatype Request = Request(url: string, form: Form)

  /** What one PostForm call yields: an error, or a status and the decoded body (None: undecodable). */
  datatype Response = TransportFailure | Reply(status: int, body: Option<Envelope>)

  /** The mutable fields of the client. */
  datatype Session = Session(domain: string, token: string, retries: int)

  /**
   * The client's session, the responses the transport will still give (in order),
   * every request posted so far, and every cooldown slept so far (in seconds).
   */
  datatype World = World(session: Session, script: seq<Response>, sent: seq<Request>, cooldowns: seq<int>)

  /** An operation's result together with the world it leaves behind. */
  datatype Step<T> = Step(result: Result<T>, world: World)

  /** The host a request goes to: the session domain, or the default host when it is empty. */
  function TargetHost(domain: string): (host: string)
    ensures host != ""
    ensures domain != "" ==> host == domain
    ensures domain == "" ==> host == ApiHost
  {
    if domain == "" then ApiHost else domain
  }

  /** The URL a request is posted to: the dispatcher path on the target host, over HTTPS. */
  function Endpoint(domain: string): string {
    "https://" + TargetHost(domain) + "/services/ajax.html"
  }

  /** Requests go to the session's domain, or to the default host before any login. */
  lemma EndpointUrl(domain: string)
    ensures domain != "" ==> Endpoint(domain) == "https://" + domain + "/services/ajax.html"
    ensures domain == "" ==> Endpoint(domain) == "https://" + ApiHost + "/services/ajax.html"
  {
  }

  /** The form posted for a command; the token is attached exactly when the command needs a session. */
  function BuildForm(s: Session, cmd: int, payload: Payload, tokenLogin: bool): (f: Form)
    ensures f.cmd == cmd && f.json == payload
    ensures f.tokenlogin.Some? <==> tokenLogin
    ensures f.tokenlogin.Some? ==> f.tokenlogin.value == s.token
  {
    Form(cmd, payload, if tokenLogin then Some(s.token) else None)
  }

  /** The request posted for a command in session `s`. */
  function RequestFor(s: Session, cmd: int, payload: Payload, tokenLogin: bool): Request {
    Request(Endpoint(s.domain), BuildForm(s, cmd, payload, tokenLogin))
  }

  /**
   * What the posted request carries: the session's endpoint, the command code
   * and payload as given, and the token exactly on session commands.
   */
  lemma RequestForFields(s: Session, cmd: int, payload: Payload, tokenLogin: bool)
    ensures var r := RequestFor(s, cmd, payload, tokenLogin);
      && r.url == Endpoint(s.domain)
      && r.form.cmd == cmd && r.form.json == payload
      && r.form.tokenlogin == (if tokenLogin then Some(s.token) else None)
  {
  }

  /** The responses left once PostForm has taken one; an exhausted script stays empty. */
  function Rest(script: seq<Response>): seq<Response> {
    if script == [] then [] else script[1..]
  }

  function WithRetries(w: World, retries: int): World {
    w.(session := w.session.(retries := retries))
  }

  /** Number of login commands among the posted requests. */
  function LoginCount(sent: seq<Request>): nat {
    if sent == [] then 0
    else LoginCount(sent[..|sent| - 1]) + (if sent[|sent| - 1].form.cmd == CmdLogin then 1 else 0)
  }

  lemma LoginCountAppend(sent: seq<Request>, r: Request)
    ensures LoginCount(sent + [r]) == LoginCount(sent) + (if r.form.cmd == CmdLogin then 1 else 0)
  {
    assert (sent + [r])[..|sent|] == sent;
  }

  /** A log that extends a request followed by a login counts that login, and the request if it is one. */
  lemma LoginsAfter(sent: seq<Request>, req: Request, login: Request, later: seq<Request>)
    requires login.form.cmd == CmdLogin
    requires sent + [req, login] <= later
    ensures LoginCount(later) > LoginCount(sent) + (if req.form.cmd == CmdLogin then 1 else 0)
  {
    LoginCountAppend(sent, req);
    LoginCountAppend(sent + [req], login);
    assert sent + [req, login] == (sent + [req]) + [login];
    LoginCountPrefix(sent + [req, login], later);
  }

  /** Posting more requests never lowers the number of logins. */
  lemma {:induction false} LoginCountPrefix(a: seq<Request>, b: seq<Request>)
    requires a <= b
    ensures LoginCount(a) <= LoginCount(b)
    decreases |b|
  {
    if |a| < |b| {
      assert a <= b[..|b| - 1];
      LoginCountPrefix(a, b[..|b| - 1]);
    } else {
      assert a == b;
    }
  }
}

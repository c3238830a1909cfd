/**
 * The client object: domain, token and the renewal counter as fields that its
 * methods update in place, over a transport that answers from a script.
 */
module RevogiClient {
  import opened Types
  import opened Transport
  import Dispatch
  import Operations

  class Client {
    const config: Config

    var domain: string
    var token: string
    var retries: int

    /** The responses the transport still has to give, in order. */
    var script: seq<Response>
    /** Every request posted. */
    ghost var sent: seq<Request>
    /** Every cooldown slept, in seconds. */
    ghost var cooldowns: seq<int>

    ghost function State(): World
      reads this
    {
      World(Session(domain, token, retries), script, sent, cooldowns)
    }

    /** A client with no session yet, over the given transport. */
    constructor (config: Config, transport: seq<Response>)
      ensures this.config == config
      ensures State() == World(Session("", "", 0), transport, [], [])
    {
      this.config := config;
      domain, token, retries := "", "", 0;
      script := transport;
      sent, cooldowns := [], [];
    }

    /** Posts one request and returns the transport's next response (an error once the script is exhausted). */
    method PostForm(req: Request) returns (resp: Response)
      modifies this
      ensures sent == old(sent) + [req]
      ensures script == Rest(old(script))
      ensures resp == if old(script) == [] then TransportFailure else old(script)[0]
      ensures domain == old(domain) && token == old(token) && retries == old(retries) && cooldowns == old(cooldowns)
    {
      sent := sent + [req];
      if script == [] {
        resp := TransportFailure;
      } else {
        resp := script[0];
        script := script[1..];
      }
    }

    method DoRequest(cmd: int, payload: Payload, tokenLogin: bool) returns (r: Result<Envelope>)
      modifies this
      ensures Step(r, State()) == Dispatch.DoRequest(config, old(State()), cmd, payload, tokenLogin)
      decreases |script|, 0
    {
      var form := Form(cmd, payload, None);
      if tokenLogin {
        form := form.(tokenlogin := Some(token));
      }
      var target := domain;
      if domain == "" {
        target := ApiHost;
      }
      var resp := PostForm(Request("https://" + target + "/services/ajax.html", form));
      if resp.TransportFailure? {
        return Err(RequestFailed);
      }
      if resp.status != 200 {
        return Err(HttpStatus(resp.status));
      }
      if resp.body.None? {
        return Err(BodyUnreadable);
      }
      var env := resp.body.value;
      if tokenLogin && env.code == 401 {
        if retries >= config.maxRetries {
          return Err(RenewalsExhausted(config.maxRetries));
        }
        var err := Login();
        if err.Err? {
          retries := retries + 1;
          return Err(RenewFailed(err.error));
        }
        retries := 0;
        r := DoRequest(cmd, payload, tokenLogin);
        return;
      }
      if env.code != 200 {
        if env.code == 500 {
          cooldowns := cooldowns + [config.cooldown];
        }
        return Err(JsonCode(env.code, env.data.raw));
      }
      r := Ok(env);
    }

    method Login() returns (r: Result<()>)
      modifies this
      ensures Step(r, State()) == Dispatch.Login(config, old(State()))
      decreases |script|, 1
    {
      var body := DoRequest(CmdLogin, Credentials(config.username, config.password), false);
      if body.Err? {
        return Err(LoginRequestFailed(body.error));
      }
      match body.value.data.asLogin {
        case None =>
          return Err(DecodeFailed);
        case Some(ld) =>
          domain := ld.domain;
          token := ld.token;
          r := Ok(());
      }
    }

    method GetDevice(dev: Device) returns (r: Result<Device>)
      modifies this
      ensures Step(r, State()) == Operations.GetDevice(config, old(State()), dev)
    {
      var body := DoRequest(CmdDevices, DeviceQuery(Protocol, dev.sn), true);
      if body.Err? {
        return Err(body.error);
      }
      match body.value.data.asDevices {
        case None =>
          return Err(DecodeFailed);
        case Some(devices) =>
          var device := EmptyDevice();
          if |devices.dev| > 0 {
            device := devices.dev[0];
          }
          r := Ok(device);
      }
    }

    method GetDevices() returns (r: Result<seq<Device>>)
      modifies this
      ensures Step(r, State()) == Operations.GetDevices(config, old(State()))
    {
      var body := DoRequest(CmdDevices, DeviceQuery(Protocol, "all"), true);
      if body.Err? {
        return Err(body.error);
      }
      match body.value.data.asDevices {
        case None =>
          return Err(DecodeFailed);
        case Some(devices) =>
          r := Ok(devices.dev);
      }
    }

    method GetDeviceStats(dev: Device) returns (r: Result<DeviceStats>)
      modifies this
      ensures Step(r, State()) == Operations.GetDeviceStats(config, old(State()), dev)
    {
      var body := DoRequest(CmdStats, StatsQuery(Protocol, [dev.sn]), true);
      if body.Err? {
        return Err(body.error);
      }
      match body.value.data.asStats {
        case None =>
          return Err(DecodeFailed);
        case Some(rows) =>
          if |rows| == 0 {
            return Err(NoStats);
          }
          r := Ok(rows[0]);
      }
    }

    method Power(dev: Device, port: int, on: bool) returns (r: Result<()>)
      modifies this
      ensures Step(r, State()) == Operations.Power(config, old(State()), dev, port, on)
    {
      var state := 0;
      if on {
        state := 1;
      }
      var body := DoRequest(CmdPower, PowerSet(Protocol, dev.sn, port, state), true);
      if body.Err? {
        return Err(body.error);
      }
      var data := body.value.data;
      if data.unquoted.None? {
        return Err(UnquoteFailed(data.raw));
      }
      var result := data.unquoted.value;
      var fields := Operations.Split(result);
      if fields[0] == Operations.Verb && |fields| > 1 && fields[1] == dev.sn {
        return Ok(());
      }
      r := Err(UnexpectedResult(result));
    }
  }
}

/** Concrete exchanges matching the repository's own test cases. */
module Scenarios {
  import opened Types
  import opened Transport
  import opened Dispatch
  import opened Operations

  const User: Config := Config("user", "password", 0, 0)

  function Fresh(script: seq<Response>): World {
    World(Session("", "", 0), script, [], [])
  }

  function NoData(raw: string): Data {
    Data(raw, None, None, None, None)
  }

  /** Login answered {"code":200,"data":{}} succeeds and leaves domain and token empty. */
  lemma LoginWithEmptyData()
    ensures var ld := LoginData("", "", "", "", "", "", "", "");
      var env := Envelope(200, Data("{}", Some(ld), None, None, None), CmdLogin, "");
      var s := Login(User, Fresh([Reply(200, Some(env))]));
      s.result == Ok(()) && s.world.session == Session("", "", 0)
  {
    var ld := LoginData("", "", "", "", "", "", "", "");
    var env := Envelope(200, Data("{}", Some(ld), None, None, None), CmdLogin, "");
    LoginEffect(User, Fresh([Reply(200, Some(env))]));
  }

  /** Login answered with HTTP 500, or by a failing transport, fails. */
  lemma LoginHttpFailures(env: Envelope)
    ensures Login(User, Fresh([Reply(500, Some(env))])).result == Err(LoginRequestFailed(HttpStatus(500)))
    ensures Login(User, Fresh([TransportFailure])).result == Err(LoginRequestFailed(RequestFailed))
  {
  }

  /** Login answered HTTP 200 with a body that is not an envelope fails and leaves the session alone. */
  lemma LoginInvalidData()
    ensures var s := Login(User, Fresh([Reply(200, None)]));
      s.result == Err(LoginRequestFailed(BodyUnreadable)) && s.world.session == Session("", "", 0)
  {
  }

  /** Login answered inner code 500 fails after the cooldown. */
  lemma LoginInnerServerError()
    ensures var s := Login(User.(cooldown := 7), Fresh([Reply(200, Some(Envelope(500, NoData("\"{}\""), CmdLogin, "")))]));
      s.result == Err(LoginRequestFailed(JsonCode(500, "\"{}\""))) && s.world.cooldowns == [7]
  {
  }

  /** With a budget of 0 the first 401 to GetDevices fails with the budget error. */
  lemma GetDevicesBudgetZero()
    ensures GetDevices(User, Fresh([Reply(200, Some(Envelope(401, NoData("\"please log in\""), CmdDevices, "")))])).result
            == Err(RenewalsExhausted(0))
  {
  }

  /** With a budget of 3 a 401 to GetDevices triggers a login that gets 401 too, and the call fails. */
  lemma GetDevicesNeedLogin()
    ensures var expired := Reply(200, Some(Envelope(401, NoData("\"please log in\""), CmdDevices, "")));
      var s := GetDevices(User.(maxRetries := 3), Fresh([expired, expired]));
      && s.result == Err(RenewFailed(LoginRequestFailed(JsonCode(401, "\"please log in\""))))
      && s.world.session.retries == 1
      && |s.world.sent| == 2
  {
    var expired := Reply(200, Some(Envelope(401, NoData("\"please log in\""), CmdDevices, "")));
    var cfg, w := User.(maxRetries := 3), Fresh([expired, expired]);
    var payload := DeviceQuery(Protocol, "all");
    FailedRenewal(cfg, w, CmdDevices, payload);
    var w1 := w.(script := w.script[1..], sent := w.sent + [RequestFor(w.session, CmdDevices, payload, true)]);
    NoSessionRequest(cfg, w1, CmdLogin, Credentials(cfg.username, cfg.password));
  }

  /** Power on "SWW1234" accepts the echo "send2:SWW1234". */
  lemma PowerEchoAccepted()
    ensures EchoCheck("send2:SWW1234", "SWW1234") == Ok(())
  {
    var sn := "SWW1234";
    assert forall k :: 0 <= k < |sn| ==> sn[k] != Sep;
    assert Echo(sn) == "send2:SWW1234";
    assert EchoMatches("send2:SWW1234", sn);
    EchoCheckAccepts("send2:SWW1234", sn);
  }

  /** Power rejects the echo of any other serial, reporting the echo it got. */
  lemma PowerEchoRejected(sn: string, other: string)
    requires Sep !in other && other != sn
    ensures EchoCheck(Echo(other), sn) == Err(UnexpectedResult(Echo(other)))
  {
    var e, a := Echo(sn), Echo(other);
    var n := |Verb| + 1;
    EchoCheckAccepts(a, sn);
    if |sn| == |other| {
      var k :| 0 <= k < |sn| && sn[k] != other[k];
      assert e[n + k] == sn[k] && a[n + k] == other[k];
    } else if |sn| < |other| {
      assert a[|e|] == other[|sn|];
    }
  }
}

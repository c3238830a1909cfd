/**
 * The command dispatcher and the authenticator as functions of the world:
 * a session-renewal state machine over domain, token and the retry counter.
 */
module Dispatch {
  import opened Types
  import opened Transport

  /**
   * Posts one command and classifies the answer: a transport error or a
   * non-200 HTTP status fails at once; inner code 401 on a session command
   * either fails on an exhausted renewal budget, fails on a failed re-login
   * (counting it), or resubmits after a successful re-login; inner code 500
   * sleeps the cooldown and fails; any other non-200 code fails.
   */
  function DoRequest(cfg: Config, w: World, cmd: int, payload: Payload, tokenLogin: bool): (s: Step<Envelope>)
    ensures |s.world.script| <= |w.script|
    decreases |w.script|, 0
  {
    var w1 := w.(script := Rest(w.script), sent := w.sent + [RequestFor(w.session, cmd, payload, tokenLogin)]);
    if w.script == [] || w.script[0].TransportFailure? then Step(Err(RequestFailed), w1)
    else if w.script[0].status != 200 then Step(Err(HttpStatus(w.script[0].status)), w1)
    else if w.script[0].body.None? then Step(Err(BodyUnreadable), w1)
    else
      var env := w.script[0].body.value;
      if tokenLogin && env.code == 401 then
        if w1.session.retries >= cfg.maxRetries then Step(Err(RenewalsExhausted(cfg.maxRetries)), w1)
        else
          var login := Login(cfg, w1);
          if login.result.Err? then
            Step(Err(RenewFailed(login.result.error)), WithRetries(login.world, login.world.session.retries + 1))
          else DoRequest(cfg, WithRetries(login.world, 0), cmd, payload, tokenLogin)
      else if env.code != 200 then
        Step(Err(JsonCode(env.code, env.data.raw)),
             if env.code == 500 then w1.(cooldowns := w1.cooldowns + [cfg.cooldown]) else w1)
      else Step(Ok(env), w1)
  }

  /** Sends the credentials and, only when the whole path succeeds, takes over domain and token. */
  function Login(cfg: Config, w: World): (s: Step<()>)
    ensures |s.world.script| <= |w.script|
    decreases |w.script|, 1
  {
    var sent := DoRequest(cfg, w, CmdLogin, Credentials(cfg.username, cfg.password), false);
    if sent.result.Err? then Step(Err(LoginRequestFailed(sent.result.error)), sent.world)
    else match sent.result.value.data.asLogin
      case None => Step(Err(DecodeFailed), sent.world)
      case Some(ld) => Step(Ok(()), sent.world.(session := sent.world.session.(domain := ld.domain, token := ld.token)))
  }

  /** The head of the script is an HTTP 200 answer whose envelope carries inner code `code`. */
  predicate AnswersWith(script: seq<Response>, code: int) {
    script != [] && script[0].Reply? && script[0].status == 200 && script[0].body.Some?
    && script[0].body.value.code == code
  }

  /** The head of the script is an answer Login accepts. */
  predicate LoginAccepted(script: seq<Response>) {
    AnswersWith(script, 200) && script[0].body.value.data.asLogin.Some?
  }

  /** The error of a call that slept the cooldown: its own code 500, or a re-login that got code 500. */
  predicate Slept(r: Result<Envelope>) {
    r.Err? &&
    ((r.error.JsonCode? && r.error.code == 500) ||
     (r.error.RenewFailed? && r.error.cause.LoginRequestFailed? &&
      r.error.cause.cause.JsonCode? && r.error.cause.cause.code == 500))
  }

  function Max(a: int, b: int): int { if a < b then b else a }

  /** Without a session the dispatcher posts exactly once and never touches the session. */
  lemma NoSessionRequest(cfg: Config, w: World, cmd: int, payload: Payload)
    ensures var s := DoRequest(cfg, w, cmd, payload, false);
      && s.world.session == w.session
      && s.world.script == Rest(w.script)
      && s.world.sent == w.sent + [RequestFor(w.session, cmd, payload, false)]
      && s.world.cooldowns == w.cooldowns + (if AnswersWith(w.script, 500) then [cfg.cooldown] else [])
      && (s.result.Ok? <==> AnswersWith(w.script, 200))
      && (s.result.Ok? ==> s.result.value == w.script[0].body.value)
      && (AnswersWith(w.script, 401) ==> s.result == Err(JsonCode(401, w.script[0].body.value.data.raw)))
  {
  }

  /**
   * Login posts cmd 101 with the credentials and no token, exactly once; it
   * succeeds exactly when that answer is accepted, and then (and only then)
   * the session takes the decoded domain and token; the counter is never touched.
   */
  lemma LoginEffect(cfg: Config, w: World)
    ensures var s := Login(cfg, w);
      && s.world.sent == w.sent + [Request(Endpoint(w.session.domain), Form(CmdLogin, Credentials(cfg.username, cfg.password), None))]
      && s.world.script == Rest(w.script)
      && s.world.session.retries == w.session.retries
      && s.world.cooldowns == w.cooldowns + (if AnswersWith(w.script, 500) then [cfg.cooldown] else [])
      && (s.result.Ok? <==> LoginAccepted(w.script))
      && (s.result.Err? ==> s.world.session == w.session)
      && (s.result.Ok? ==>
            var ld := w.script[0].body.value.data.asLogin.value;
            s.world.session == Session(ld.domain, ld.token, w.session.retries))
      && (s.result.Err? && AnswersWith(w.script, 500) ==> s.result.error == LoginRequestFailed(JsonCode(500, w.script[0].body.value.data.raw)))
  {
    NoSessionRequest(cfg, w, CmdLogin, Credentials(cfg.username, cfg.password));
  }

  /** A transport error or an HTTP status other than 200 fails at once and changes nothing else. */
  lemma HttpFailure(cfg: Config, w: World, cmd: int, payload: Payload, tokenLogin: bool)
    requires w.script == [] || w.script[0].TransportFailure? || w.script[0].status != 200
    ensures var s := DoRequest(cfg, w, cmd, payload, tokenLogin);
      && s.result == (if w.script == [] || w.script[0].TransportFailure? then Err(RequestFailed) else Err(HttpStatus(w.script[0].status)))
      && s.world == w.(script := Rest(w.script), sent := w.sent + [RequestFor(w.session, cmd, payload, tokenLogin)])
  {
  }

  /** An HTTP 200 answer whose body is not an envelope fails at once and changes nothing else. */
  lemma UnreadableBody(cfg: Config, w: World, cmd: int, payload: Payload, tokenLogin: bool)
    requires w.script != [] && w.script[0].Reply? && w.script[0].status == 200 && w.script[0].body.None?
    ensures var s := DoRequest(cfg, w, cmd, payload, tokenLogin);
      && s.result == Err(BodyUnreadable)
      && s.world == w.(script := w.script[1..], sent := w.sent + [RequestFor(w.session, cmd, payload, tokenLogin)])
  {
  }

  /** A 401 on a session command once the counter has reached the budget fails without a login. */
  lemma BudgetExhausted(cfg: Config, w: World, cmd: int, payload: Payload)
    requires AnswersWith(w.script, 401)
    requires w.session.retries >= cfg.maxRetries
    ensures var s := DoRequest(cfg, w, cmd, payload, true);
      && s.result == Err(RenewalsExhausted(cfg.maxRetries))
      && s.world == w.(script := w.script[1..], sent := w.sent + [RequestFor(w.session, cmd, payload, true)])
  {
  }

  /** With a budget of 0 the very first 401 on a session command fails with the budget error. */
  lemma ZeroBudget(cfg: Config, w: World, cmd: int, payload: Payload)
    requires cfg.maxRetries == 0 && w.session.retries >= 0
    requires AnswersWith(w.script, 401)
    ensures DoRequest(cfg, w, cmd, payload, true).result == Err(RenewalsExhausted(0))
  {
    BudgetExhausted(cfg, w, cmd, payload);
  }

  /**
   * A failed re-login counts exactly one more renewal attempt, returns the
   * wrapped login error and does not resubmit: only the command and the login were posted.
   */
  lemma FailedRenewal(cfg: Config, w: World, cmd: int, payload: Payload)
    requires AnswersWith(w.script, 401)
    requires w.session.retries < cfg.maxRetries
    requires !LoginAccepted(w.script[1..])
    ensures var s := DoRequest(cfg, w, cmd, payload, true);
      var w1 := w.(script := w.script[1..], sent := w.sent + [RequestFor(w.session, cmd, payload, true)]);
      && Login(cfg, w1).result.Err?
      && s.result == Err(RenewFailed(Login(cfg, w1).result.error))
      && s.world.session == w.session.(retries := w.session.retries + 1)
      && s.world.script == Rest(w.script[1..])
      && s.world.sent == w.sent + [RequestFor(w.session, cmd, payload, true),
                                   Request(Endpoint(w.session.domain), Form(CmdLogin, Credentials(cfg.username, cfg.password), None))]
  {
    var w1 := w.(script := w.script[1..], sent := w.sent + [RequestFor(w.session, cmd, payload, true)]);
    LoginEffect(cfg, w1);
  }

  /**
   * A successful re-login resets the counter to 0 and resubmits the same
   * command, payload and session flag, in the session the login installed.
   */
  lemma SuccessfulRenewal(cfg: Config, w: World, cmd: int, payload: Payload)
    requires AnswersWith(w.script, 401)
    requires w.session.retries < cfg.maxRetries
    requires LoginAccepted(w.script[1..])
    ensures var ld := w.script[1].body.value.data.asLogin.value;
      var w2 := w.(session := Session(ld.domain, ld.token, 0),
                   script := w.script[2..],
                   sent := w.sent + [RequestFor(w.session, cmd, payload, true),
                                     Request(Endpoint(w.session.domain), Form(CmdLogin, Credentials(cfg.username, cfg.password), None))]);
      DoRequest(cfg, w, cmd, payload, true) == DoRequest(cfg, w2, cmd, payload, true)
  {
    var w1 := w.(script := w.script[1..], sent := w.sent + [RequestFor(w.session, cmd, payload, true)]);
    LoginEffect(cfg, w1);
    assert w.script[1..][1..] == w.script[2..];
    var login := Login(cfg, w1);
    assert login.result.Ok?;
    var ld := w.script[1].body.value.data.asLogin.value;
    assert WithRetries(login.world, 0) == w.(session := Session(ld.domain, ld.token, 0),
                   script := w.script[2..],
                   sent := w.sent + [RequestFor(w.session, cmd, payload, true),
                                     Request(Endpoint(w.session.domain), Form(CmdLogin, Credentials(cfg.username, cfg.password), None))]);
    assert DoRequest(cfg, w, cmd, payload, true) == DoRequest(cfg, WithRetries(login.world, 0), cmd, payload, true);
  }

  /**
   * Outside the renewal branch the inner code decides: 200 returns the
   * envelope, anything else fails; 500 sleeps the cooldown exactly once first,
   * every other code sleeps not at all. A 401 without a session lands here.
   */
  lemma InnerCodePolicy(cfg: Config, w: World, cmd: int, payload: Payload, tokenLogin: bool)
    requires w.script != [] && w.script[0].Reply? && w.script[0].status == 200 && w.script[0].body.Some?
    requires !(tokenLogin && w.script[0].body.value.code == 401)
    ensures var env := w.script[0].body.value;
      var s := DoRequest(cfg, w, cmd, payload, tokenLogin);
      && s.result == (if env.code == 200 then Ok(env) else Err(JsonCode(env.code, env.data.raw)))
      && s.world.cooldowns == w.cooldowns + (if env.code == 500 then [cfg.cooldown] else [])
      && s.world.session == w.session
      && s.world.script == w.script[1..]
      && s.world.sent == w.sent + [RequestFor(w.session, cmd, payload, tokenLogin)]
  {
  }

  /**
   * Every call posts its own request first and only appends after it; it
   * consumes a prefix of the script, one response per posted request, plus at
   * most one request that found the script exhausted.
   */
  lemma {:induction false} DoRequestFrame(cfg: Config, w: World, cmd: int, payload: Payload, tokenLogin: bool)
    ensures var s := DoRequest(cfg, w, cmd, payload, tokenLogin);
      var consumed := |w.script| - |s.world.script|;
      && w.sent + [RequestFor(w.session, cmd, payload, tokenLogin)] <= s.world.sent
      && s.world.script == w.script[consumed..]
      && consumed <= |s.world.sent| - |w.sent| <= consumed + 1
    decreases |w.script|
  {
    var req := RequestFor(w.session, cmd, payload, tokenLogin);
    if w.script == [] || w.script[0].TransportFailure? || w.script[0].status != 200 {
      HttpFailure(cfg, w, cmd, payload, tokenLogin);
    } else if w.script[0].body.None? {
      UnreadableBody(cfg, w, cmd, payload, tokenLogin);
    } else if !(tokenLogin && AnswersWith(w.script, 401)) {
      InnerCodePolicy(cfg, w, cmd, payload, tokenLogin);
    } else if w.session.retries >= cfg.maxRetries {
      BudgetExhausted(cfg, w, cmd, payload);
    } else if !LoginAccepted(w.script[1..]) {
      FailedRenewal(cfg, w, cmd, payload);
      if |w.script| >= 2 {
        assert w.script[1..][1..] == w.script[2..];
      }
    } else {
      SuccessfulRenewal(cfg, w, cmd, payload);
      var ld := w.script[1].body.value.data.asLogin.value;
      var login := Request(Endpoint(w.session.domain), Form(CmdLogin, Credentials(cfg.username, cfg.password), None));
      var w2 := w.(session := Session(ld.domain, ld.token, 0), script := w.script[2..], sent := w.sent + [req, login]);
      DoRequestFrame(cfg, w2, cmd, payload, tokenLogin);
      FrameAfterLogin(w, w2, DoRequest(cfg, w2, cmd, payload, tokenLogin).world, req, login,
                      RequestFor(w2.session, cmd, payload, tokenLogin));
    }
  }

  /**
   * The frame of a resubmission carries over to the call that logged in first:
   * its two requests come before the resubmission's, its two responses before
   * the ones the resubmission consumed.
   */
  lemma FrameAfterLogin(w: World, w2: World, t: World, first: Request, login: Request, again: Request)
    requires |w.script| >= 2 && w2.script == w.script[2..]
    requires w2.sent == w.sent + [first, login]
    requires w2.sent + [again] <= t.sent
    requires |t.script| <= |w2.script|
    requires t.script == w2.script[|w2.script| - |t.script|..]
    requires |w2.script| - |t.script| <= |t.sent| - |w2.sent| <= |w2.script| - |t.script| + 1
    ensures var consumed := |w.script| - |t.script|;
      && w.sent + [first] <= t.sent
      && t.script == w.script[consumed..]
      && consumed <= |t.sent| - |w.sent| <= consumed + 1
  {
    var c2 := |w2.script| - |t.script|;
    assert w.script[2..][c2..] == w.script[c2 + 2..];
    assert (w.sent + [first]) <= w2.sent;
  }

  /**
   * The counter only moves by the two steps of the renewal branch: a failed
   * re-login adds 1, a successful one resets it to 0. It stays non-negative
   * and never exceeds the budget unless it already started above it; it
   * changes only after a 401 on a session command, and then only once a
   * login has been posted; a call without a session never touches the session at all.
   */
  lemma {:induction false} RetriesDiscipline(cfg: Config, w: World, cmd: int, payload: Payload, tokenLogin: bool)
    requires 0 <= w.session.retries
    ensures var s := DoRequest(cfg, w, cmd, payload, tokenLogin);
      var r, r' := w.session.retries, s.world.session.retries;
      && 0 <= r' <= Max(r, cfg.maxRetries)
      && (if s.result.Err? && s.result.error.RenewFailed? then r' == r + 1 || r' == 1 else r' == r || r' == 0)
      && (r' != r ==>
            && tokenLogin && AnswersWith(w.script, 401)
            && LoginCount(s.world.sent) > LoginCount(w.sent) + (if cmd == CmdLogin then 1 else 0))
      && (!tokenLogin ==> s.world.session == w.session)
    decreases |w.script|
  {
    var req := RequestFor(w.session, cmd, payload, tokenLogin);
    if w.script == [] || w.script[0].TransportFailure? || w.script[0].status != 200 {
      HttpFailure(cfg, w, cmd, payload, tokenLogin);
    } else if w.script[0].body.None? {
      UnreadableBody(cfg, w, cmd, payload, tokenLogin);
    } else if !(tokenLogin && AnswersWith(w.script, 401)) {
      InnerCodePolicy(cfg, w, cmd, payload, tokenLogin);
    } else if w.session.retries >= cfg.maxRetries {
      BudgetExhausted(cfg, w, cmd, payload);
    } else {
      var login := Request(Endpoint(w.session.domain), Form(CmdLogin, Credentials(cfg.username, cfg.password), None));
      if !LoginAccepted(w.script[1..]) {
        FailedRenewal(cfg, w, cmd, payload);
        LoginsAfter(w.sent, req, login, w.sent + [req, login]);
      } else {
        SuccessfulRenewal(cfg, w, cmd, payload);
        var ld := w.script[1].body.value.data.asLogin.value;
        var w2 := w.(session := Session(ld.domain, ld.token, 0), script := w.script[2..], sent := w.sent + [req, login]);
        RetriesDiscipline(cfg, w2, cmd, payload, tokenLogin);
        DoRequestFrame(cfg, w2, cmd, payload, tokenLogin);
        var later := DoRequest(cfg, w2, cmd, payload, tokenLogin).world.sent;
        assert w2.sent <= later;
        LoginsAfter(w.sent, req, login, later);
      }
    }
  }

  /**
   * A call sleeps at most one cooldown of the configured length, and it does
   * so exactly when it fails on inner code 500, its own or that of the re-login.
   */
  lemma {:induction false} CooldownDiscipline(cfg: Config, w: World, cmd: int, payload: Payload, tokenLogin: bool)
    ensures var s := DoRequest(cfg, w, cmd, payload, tokenLogin);
      s.world.cooldowns == w.cooldowns + (if Slept(s.result) then [cfg.cooldown] else [])
    decreases |w.script|
  {
    var w1 := w.(script := Rest(w.script), sent := w.sent + [RequestFor(w.session, cmd, payload, tokenLogin)]);
    if w.script == [] || w.script[0].TransportFailure? || w.script[0].status != 200 || w.script[0].body.None? {
    } else {
      var env := w.script[0].body.value;
      if tokenLogin && env.code == 401 && w1.session.retries < cfg.maxRetries {
        var login := Login(cfg, w1);
        LoginEffect(cfg, w1);
        if login.result.Ok? {
          CooldownDiscipline(cfg, WithRetries(login.world, 0), cmd, payload, tokenLogin);
        }
      }
    }
  }

  /** Two worlds that differ at most in the request log. */
  predicate SameButLog(a: World, b: World) {
    a.session == b.session && a.script == b.script && a.cooldowns == b.cooldowns
  }

  /**
   * The dispatcher's outcome does not depend on the command or payload (they
   * only reach the request log) nor on the requests already logged.
   */
  lemma {:induction false} DoRequestIgnoresPayload(cfg: Config, a: World, b: World, cmdA: int, cmdB: int, pA: Payload, pB: Payload, tokenLogin: bool)
    requires SameButLog(a, b)
    ensures var sa, sb := DoRequest(cfg, a, cmdA, pA, tokenLogin), DoRequest(cfg, b, cmdB, pB, tokenLogin);
      sa.result == sb.result && SameButLog(sa.world, sb.world)
      && |sa.world.sent| - |a.sent| == |sb.world.sent| - |b.sent|
    decreases |a.script|
  {
    var a1 := a.(script := Rest(a.script), sent := a.sent + [RequestFor(a.session, cmdA, pA, tokenLogin)]);
    var b1 := b.(script := Rest(b.script), sent := b.sent + [RequestFor(b.session, cmdB, pB, tokenLogin)]);
    if a.script == [] || a.script[0].TransportFailure? || a.script[0].status != 200 || a.script[0].body.None? {
    } else {
      var env := a.script[0].body.value;
      if tokenLogin && env.code == 401 && a1.session.retries < cfg.maxRetries {
        LoginEffect(cfg, a1);
        LoginEffect(cfg, b1);
        var la, lb := Login(cfg, a1), Login(cfg, b1);
        if la.result.Ok? {
          DoRequestIgnoresPayload(cfg, WithRetries(la.world, 0), WithRetries(lb.world, 0), cmdA, cmdB, pA, pB, tokenLogin);
        }
      }
    }
  }
}

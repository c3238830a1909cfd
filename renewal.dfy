/**
 * What the session-renewal branch does over several calls: the renewal
 * budget bounds re-logins across calls that keep getting 401, but a
 * successful re-login resets the counter, so resubmissions are not bounded.
 */
module Renewal {
  import opened Types
  import opened Transport
  import opened Dispatch

  /** The response is an HTTP 200 envelope with inner code 401 (session expired). */
  predicate Expired(r: Response) {
    r.Reply? && r.status == 200 && r.body.Some? && r.body.value.code == 401
  }

  predicate AllExpired(script: seq<Response>) {
    forall i :: 0 <= i < |script| ==> Expired(script[i])
  }

  datatype Calls = Calls(results: seq<Result<Envelope>>, world: World)

  /** `n` successive calls of the same session command, in order. */
  function DoRequests(cfg: Config, w: World, n: nat, cmd: int, payload: Payload): (c: Calls)
    ensures |c.results| == n
    decreases n
  {
    if n == 0 then Calls([], w)
    else
      var s := DoRequest(cfg, w, cmd, payload, true);
      var rest := DoRequests(cfg, s.world, n - 1, cmd, payload);
      Calls([s.result] + rest.results, rest.world)
  }

  function Min(a: int, b: int): int { if a < b then a else b }

  /**
   * One session command against a server that answers 401 to everything:
   * with budget left it makes exactly one login (which fails too), counts it
   * and consumes two responses; with none left it fails on the budget.
   */
  lemma ExpiredCall(cfg: Config, w: World, cmd: int, payload: Payload)
    requires cmd != CmdLogin
    requires AllExpired(w.script)
    requires 0 <= w.session.retries <= cfg.maxRetries
    ensures var s := DoRequest(cfg, w, cmd, payload, true);
      var r := w.session.retries;
      && s.result.Err?
      && AllExpired(s.world.script)
      && (r == cfg.maxRetries && w.script != [] ==> s.result.error.RenewalsExhausted?)
      && (r < cfg.maxRetries && w.script != [] ==> s.result.error.RenewFailed?)
      && s.world.session.retries == (if r < cfg.maxRetries && w.script != [] then r + 1 else r)
      && LoginCount(s.world.sent) == LoginCount(w.sent) + (s.world.session.retries - r)
      && (|w.script| >= 2 ==> s.world.script == w.script[if r < cfg.maxRetries then 2 else 1..])
  {
    var req := RequestFor(w.session, cmd, payload, true);
    LoginCountAppend(w.sent, req);
    if w.script == [] {
      HttpFailure(cfg, w, cmd, payload, true);
    } else {
      assert Expired(w.script[0]);
      assert AllExpired(w.script[1..]) by {
        assert forall i :: 0 <= i < |w.script[1..]| ==> w.script[1..][i] == w.script[i + 1];
      }
      if w.session.retries == cfg.maxRetries {
        BudgetExhausted(cfg, w, cmd, payload);
      } else {
        assert !LoginAccepted(w.script[1..]) by {
          if |w.script| >= 2 { assert Expired(w.script[1]); }
        }
        FailedRenewal(cfg, w, cmd, payload);
        var login := Request(Endpoint(w.session.domain), Form(CmdLogin, Credentials(cfg.username, cfg.password), None));
        assert w.sent + [req, login] == (w.sent + [req]) + [login];
        LoginCountAppend(w.sent + [req], login);
        if |w.script| >= 2 {
          assert w.script[1..][1..] == w.script[2..];
          assert AllExpired(w.script[2..]) by {
            assert forall i :: 0 <= i < |w.script[2..]| ==> w.script[2..][i] == w.script[i + 2];
          }
        }
      }
    }
  }

  /**
   * Repeated session commands that always get 401: every call fails, each
   * re-login is paid for by one step of the counter, the counter never passes
   * the budget, and given enough responses exactly the first `max - r` calls
   * make a (failing) login and every later call fails with the budget error.
   */
  lemma {:induction false} ExpiredSessionBudget(cfg: Config, w: World, n: nat, cmd: int, payload: Payload)
    requires cmd != CmdLogin
    requires AllExpired(w.script)
    requires 0 <= w.session.retries <= cfg.maxRetries
    ensures var c := DoRequests(cfg, w, n, cmd, payload);
      && (forall i :: 0 <= i < n ==> c.results[i].Err?)
      && LoginCount(c.world.sent) - LoginCount(w.sent) == c.world.session.retries - w.session.retries
      && w.session.retries <= c.world.session.retries <= cfg.maxRetries
      && (|w.script| >= 2 * n ==>
            && c.world.session.retries == Min(cfg.maxRetries, w.session.retries + n)
            && forall i :: 0 <= i < n ==>
                 (c.results[i].error.RenewalsExhausted? <==> w.session.retries + i >= cfg.maxRetries))
    decreases n
  {
    if n > 0 {
      var s := DoRequest(cfg, w, cmd, payload, true);
      ExpiredCall(cfg, w, cmd, payload);
      ExpiredSessionBudget(cfg, s.world, n - 1, cmd, payload);
      var rest := DoRequests(cfg, s.world, n - 1, cmd, payload);
      BudgetStep(cfg, w, n, s, rest);
    }
  }

  /** ExpiredSessionBudget's induction step, on the outcome of the first call and of the calls after it. */
  lemma BudgetStep(cfg: Config, w: World, n: nat, s: Step<Envelope>, rest: Calls)
    requires n > 0 && |rest.results| == n - 1
    requires 0 <= w.session.retries <= cfg.maxRetries
    requires var r := w.session.retries;
      && s.result.Err?
      && (r == cfg.maxRetries && w.script != [] ==> s.result.error.RenewalsExhausted?)
      && (r < cfg.maxRetries && w.script != [] ==> s.result.error.RenewFailed?)
      && s.world.session.retries == (if r < cfg.maxRetries && w.script != [] then r + 1 else r)
      && LoginCount(s.world.sent) == LoginCount(w.sent) + (s.world.session.retries - r)
      && (|w.script| >= 2 ==> s.world.script == w.script[if r < cfg.maxRetries then 2 else 1..])
    requires var w1 := s.world;
      && (forall i :: 0 <= i < n - 1 ==> rest.results[i].Err?)
      && LoginCount(rest.world.sent) - LoginCount(w1.sent) == rest.world.session.retries - w1.session.retries
      && w1.session.retries <= rest.world.session.retries <= cfg.maxRetries
      && (|w1.script| >= 2 * (n - 1) ==>
            && rest.world.session.retries == Min(cfg.maxRetries, w1.session.retries + (n - 1))
            && forall i :: 0 <= i < n - 1 ==>
                 (rest.results[i].error.RenewalsExhausted? <==> w1.session.retries + i >= cfg.maxRetries))
    ensures var c := Calls([s.result] + rest.results, rest.world);
      && (forall i :: 0 <= i < n ==> c.results[i].Err?)
      && LoginCount(c.world.sent) - LoginCount(w.sent) == c.world.session.retries - w.session.retries
      && w.session.retries <= c.world.session.retries <= cfg.maxRetries
      && (|w.script| >= 2 * n ==>
            && c.world.session.retries == Min(cfg.maxRetries, w.session.retries + n)
            && forall i :: 0 <= i < n ==>
                 (c.results[i].error.RenewalsExhausted? <==> w.session.retries + i >= cfg.maxRetries))
  {
    var results := [s.result] + rest.results;
    assert results[1..] == rest.results;
    assert forall i :: 0 < i < n ==> results[i] == rest.results[i - 1];
    if |w.script| >= 2 * n {
      assert |s.world.script| >= 2 * (n - 1);
      BudgetErrorsShift(results, rest.results, w.session.retries, s.world.session.retries, cfg.maxRetries);
    }
  }

  /**
   * The step of ExpiredSessionBudget on the results: if the first call fails
   * on the budget exactly when the counter has reached it, and the later calls
   * do so from the counter the first call left, then call `i` fails on the
   * budget exactly when the starting counter plus `i` reaches it.
   */
  lemma BudgetErrorsShift(results: seq<Result<Envelope>>, rest: seq<Result<Envelope>>, r: int, r1: int, max: int)
    requires results != [] && results[1..] == rest
    requires r <= max && r1 == (if r < max then r + 1 else r)
    requires forall i :: 0 <= i < |results| ==> results[i].Err?
    requires results[0].error.RenewalsExhausted? <==> r >= max
    requires forall i :: 0 <= i < |rest| ==> (rest[i].error.RenewalsExhausted? <==> r1 + i >= max)
    ensures forall i :: 0 <= i < |results| ==> (results[i].error.RenewalsExhausted? <==> r + i >= max)
  {
    forall i | 0 < i < |results|
      ensures results[i].error.RenewalsExhausted? <==> r + i >= max
    {
      assert results[i] == rest[i - 1];
    }
  }

  /** `k` rounds of "session expired" followed by an accepted login. */
  function RenewalRounds(k: nat, expired: Envelope, login: Envelope): seq<Response> {
    if k == 0 then [] else [Reply(200, Some(expired)), Reply(200, Some(login))] + RenewalRounds(k - 1, expired, login)
  }

  /**
   * The 401 loop is not bounded by the budget: for every `k`, even with a
   * budget of 1, a server that alternates 401 and accepted logins makes one
   * call resubmit `k` times (2k + 1 requests) before it succeeds.
   */
  lemma {:induction false} ResubmitUnbounded(cfg: Config, w: World, k: nat, cmd: int, payload: Payload,
                                              expired: Envelope, login: Envelope, final: Envelope)
    requires expired.code == 401 && login.code == 200 && login.data.asLogin.Some? && final.code == 200
    requires 0 <= w.session.retries < cfg.maxRetries
    requires w.script == RenewalRounds(k, expired, login) + [Reply(200, Some(final))]
    ensures var s := DoRequest(cfg, w, cmd, payload, true);
      && s.result == Ok(final)
      && |s.world.sent| == |w.sent| + 2 * k + 1
      && s.world.script == []
      && s.world.session.retries == (if k == 0 then w.session.retries else 0)
    decreases k
  {
    if k > 0 {
      var rounds := RenewalRounds(k - 1, expired, login);
      assert w.script == [Reply(200, Some(expired)), Reply(200, Some(login))] + (rounds + [Reply(200, Some(final))]);
      var w1 := w.(script := w.script[1..], sent := w.sent + [RequestFor(w.session, cmd, payload, true)]);
      LoginEffect(cfg, w1);
      var l := Login(cfg, w1);
      var w2 := WithRetries(l.world, 0);
      assert w2.script == rounds + [Reply(200, Some(final))] by {
        assert w.script[1..][1..] == rounds + [Reply(200, Some(final))];
      }
      assert DoRequest(cfg, w, cmd, payload, true) == DoRequest(cfg, w2, cmd, payload, true);
      ResubmitUnbounded(cfg, w2, k - 1, cmd, payload, expired, login, final);
    }
  }
}

/**
 * The typed operations: each maps its arguments to a command code and a
 * payload, sends it through the dispatcher and post-processes the envelope.
 */
module Operations {
  import opened Types
  import opened Transport
  import opened Dispatch

  const Sep: char := ':'
  const Verb: string := "send2"

  /** What a Go expression does that may also panic. */
  datatype Verdict<T> = Returns(result: Result<T>) | Panics

  /** The `state` field of a power command. */
  function PowerState(on: bool): (state: int)
    ensures state == 0 || state == 1
    ensures state == 1 <==> on
  {
    if on then 1 else 0
  }

  // ---------------------------------------------------------------- splitting

  /** Go's strings.Split(s, ":"): the fields between separators, at least one. */
  function Split(s: string): (fields: seq<string>)
    ensures |fields| >= 1
  {
    if s == [] then [""]
    else
      var rest := Split(s[1..]);
      if s[0] == Sep then [""] + rest else [[s[0]] + rest[0]] + rest[1..]
  }

  /** Index of the first separator in `s`, or |s| when there is none. */
  function FirstSep(s: string): (j: nat)
    ensures j <= |s|
    ensures forall k :: 0 <= k < j ==> s[k] != Sep
    ensures j < |s| ==> s[j] == Sep
  {
    if s == [] || s[0] == Sep then 0 else 1 + FirstSep(s[1..])
  }

  /** Split takes the text up to the first separator as its first field and splits the rest. */
  lemma {:induction false} SplitAtFirst(s: string)
    ensures var j := FirstSep(s);
      Split(s) == if j == |s| then [s] else [s[..j]] + Split(s[j + 1..])
  {
    if s != [] && s[0] != Sep {
      SplitAtFirst(s[1..]);
      var j := FirstSep(s[1..]);
      if j < |s[1..]| {
        assert s[1..][j + 1..] == s[j + 2..];
        assert [s[0]] + s[1..][..j] == s[..j + 1];
      } else {
        assert [s[0]] + s[1..] == s;
      }
    }
  }

  // ---------------------------------------------------------------- Power's echo check

  /** The echo Power expects: "send2:<sn>". */
  function Echo(sn: string): string { Verb + [Sep] + sn }

  /**
   * Reference definition of an accepted echo: a serial without separators,
   * and the answer is "send2:<sn>" alone or followed by further ":"-fields.
   */
  predicate EchoMatches(result: string, sn: string) {
    Sep !in sn && Echo(sn) <= result && (|result| == |Echo(sn)| || result[|Echo(sn)|] == Sep)
  }

  /** Power's check with a missing second field treated as a mismatch. */
  function EchoCheck(result: string, sn: string): (r: Result<()>)
    ensures r == Ok(()) || r == Err(UnexpectedResult(result))
  {
    var fields := Split(result);
    if fields[0] == Verb && |fields| > 1 && fields[1] == sn then Ok(()) else Err(UnexpectedResult(result))
  }

  /** Power's check as written: `results[1]` is read whenever the first field is "send2". */
  function EchoCheckAsWritten(result: string, sn: string): (v: Verdict<()>)
    ensures v.Panics? ==> Split(result) == [Verb]
    ensures v.Returns? ==> v.result == Ok(()) || v.result == Err(UnexpectedResult(result))
  {
    var fields := Split(result);
    if fields[0] != Verb then Returns(Err(UnexpectedResult(result)))
    else if |fields| < 2 then Panics
    else if fields[1] == sn then Returns(Ok(()))
    else Returns(Err(UnexpectedResult(result)))
  }

  lemma VerbHasNoSep()
    ensures forall k :: 0 <= k < |Verb| ==> Verb[k] != Sep
  {
  }

  /** The head field of `b` equals `sn` exactly when `sn` is `b` up to its first separator. */
  lemma HeadFieldIs(b: string, sn: string)
    ensures b[..FirstSep(b)] == sn <==> (Sep !in sn && sn <= b && (|b| == |sn| || b[|sn|] == Sep))
  {
    var j := FirstSep(b);
    if b[..j] == sn {
      assert forall k :: 0 <= k < |sn| ==> sn[k] == b[k] && b[k] != Sep;
    }
    if Sep !in sn && sn <= b && (|b| == |sn| || b[|sn|] == Sep) {
      assert forall k :: 0 <= k < |sn| ==> b[k] == sn[k] && b[k] != Sep;
      assert j == |sn|;
      assert b[..j] == sn;
    }
  }

  /** The text before the first separator is `v`, and a separator follows, exactly when the text starts with `v` + ":". */
  lemma HeadBeforeSep(result: string, v: string)
    requires forall k :: 0 <= k < |v| ==> v[k] != Sep
    ensures var j := FirstSep(result);
      (j < |result| && result[..j] == v) <==> v + [Sep] <= result
  {
    var j := FirstSep(result);
    if j < |result| && result[..j] == v {
      assert result[..j + 1] == result[..j] + [result[j]];
    }
    if v + [Sep] <= result {
      SepAfterHead(result, v);
    }
  }

  /** A text starting with `v` + ":", for `v` without separators, has its first separator right after `v`. */
  lemma SepAfterHead(result: string, v: string)
    requires forall k :: 0 <= k < |v| ==> v[k] != Sep
    requires v + [Sep] <= result
    ensures FirstSep(result) == |v| < |result| && result[..|v|] == v
  {
    assert forall k :: 0 <= k < |v| ==> result[k] == (v + [Sep])[k] == v[k];
    assert result[|v|] == (v + [Sep])[|v|];
    FirstSepIs(result, |v|);
  }

  /** A separator with none before it is the first one. */
  lemma {:induction false} FirstSepIs(s: string, i: nat)
    requires i < |s| && s[i] == Sep
    requires forall k :: 0 <= k < i ==> s[k] != Sep
    ensures FirstSep(s) == i
    decreases i
  {
    if i > 0 {
      assert forall k :: 0 <= k < i - 1 ==> s[1..][k] == s[k + 1];
      FirstSepIs(s[1..], i - 1);
    }
  }

  /** Split's first field is "send2" and a second field follows exactly when the text starts with "send2:". */
  lemma VerbField(result: string)
    ensures var j := FirstSep(result);
      (j < |result| && result[..j] == Verb) <==> Verb + [Sep] <= result
  {
    VerbHasNoSep();
    HeadBeforeSep(result, Verb);
  }

  /** The first field of a split and, when a separator follows it, the fields after it. */
  lemma SplitFields(s: string)
    ensures Split(s)[0] == s[..FirstSep(s)]
    ensures |Split(s)| > 1 <==> FirstSep(s) < |s|
    ensures FirstSep(s) < |s| ==> Split(s)[1] == Split(s[FirstSep(s) + 1..])[0]
  {
    SplitAtFirst(s);
    if FirstSep(s) == |s| {
      assert s[..|s|] == s;
    }
  }

  /** EchoCheck in terms of the text before the first separator and the field after it. */
  lemma EchoCheckFields(result: string, sn: string)
    ensures var j := FirstSep(result);
      EchoCheck(result, sn).Ok? <==>
        (j < |result| && result[..j] == Verb && result[j + 1..][..FirstSep(result[j + 1..])] == sn)
  {
    SplitFields(result);
    var j := FirstSep(result);
    var fields := Split(result);
    assert EchoCheck(result, sn).Ok? <==> (fields[0] == Verb && |fields| > 1 && fields[1] == sn);
    if j < |result| {
      var b := result[j + 1..];
      SplitFields(b);
      assert fields[1] == b[..FirstSep(b)];
    }
  }

  /** A concatenation is a prefix exactly when its first part is, and its second part prefixes the rest. */
  lemma PrefixConcat(p: string, q: string, r: string)
    ensures p + q <= r <==> p <= r && q <= r[|p|..]
  {
    if p + q <= r {
      assert forall k :: 0 <= k < |q| ==> q[k] == (p + q)[|p| + k];
    }
    if p <= r && q <= r[|p|..] {
      assert forall k :: 0 <= k < |p| + |q| ==> (p + q)[k] == r[k];
    }
  }

  /** The expected echo, read as "send2:" followed by the serial up to the next separator. */
  lemma EchoMatchesAfterVerb(result: string, sn: string)
    ensures EchoMatches(result, sn) <==>
      && Verb + [Sep] <= result && Sep !in sn && sn <= result[|Verb| + 1..]
      && (|result| == |Verb| + 1 + |sn| || result[|Verb| + 1 + |sn|] == Sep)
  {
    assert Echo(sn) == (Verb + [Sep]) + sn;
    PrefixConcat(Verb + [Sep], sn, result);
  }

  /** Power accepts an answer exactly when it is the expected echo; otherwise it reports it. */
  lemma EchoCheckAccepts(result: string, sn: string)
    ensures EchoCheck(result, sn).Ok? <==> EchoMatches(result, sn)
    ensures EchoCheck(result, sn).Err? ==> EchoCheck(result, sn).error == UnexpectedResult(result)
  {
    EchoCheckFields(result, sn);
    VerbField(result);
    EchoMatchesAfterVerb(result, sn);
    if Verb + [Sep] <= result {
      assert FirstSep(result) + 1 == |Verb| + 1;
      HeadFieldIs(result[|Verb| + 1..], sn);
    }
  }

  /**
   * The as-written check panics exactly on the answer "send2" (no second
   * field); on every other answer it agrees with EchoCheck.
   */
  lemma EchoCheckAsWrittenPanics(result: string, sn: string)
    ensures EchoCheckAsWritten(result, sn) == Panics <==> result == Verb
    ensures result != Verb ==> EchoCheckAsWritten(result, sn) == Returns(EchoCheck(result, sn))
  {
    SplitAtFirst(result);
    VerbHasNoSep();
    var j := FirstSep(result);
    if j < |result| {
      assert |Split(result)| >= 2;
      assert result[j] == Sep;
    } else {
      assert Split(result) == [result];
    }
  }

  // ---------------------------------------------------------------- decoding the data field

  /** GetDevice's choice: the first device, or the zero Device when there is none. */
  function FirstOrEmpty(devs: seq<Device>): Device {
    if |devs| > 0 then devs[0] else EmptyDevice()
  }

  function DevicesOf(d: Data): Result<seq<Device>> {
    match d.asDevices
    case None => Err(DecodeFailed)
    case Some(dd) => Ok(dd.dev)
  }

  function DeviceOf(d: Data): Result<Device> {
    match d.asDevices
    case None => Err(DecodeFailed)
    case Some(dd) => Ok(FirstOrEmpty(dd.dev))
  }

  /** GetDeviceStats' choice of the first row, failing when there is none. */
  function FirstStats(rows: seq<DeviceStats>): (r: Result<DeviceStats>)
    ensures r.Ok? <==> rows != []
    ensures r.Ok? ==> r.value == rows[0] && r.value in rows
    ensures r.Err? ==> r.error == NoStats
  {
    if |rows| == 0 then Err(NoStats) else Ok(rows[0])
  }

  /** GetDeviceStats' choice as written: `Data[0]` with no bounds check. */
  function FirstStatsAsWritten(rows: seq<DeviceStats>): (v: Verdict<DeviceStats>)
    ensures v.Panics? <==> rows == []
    ensures v.Returns? ==> v.result == Ok(rows[0])
  {
    if |rows| == 0 then Panics else Returns(Ok(rows[0]))
  }

  function StatsOf(d: Data): Result<DeviceStats> {
    match d.asStats
    case None => Err(DecodeFailed)
    case Some(rows) => FirstStats(rows)
  }

  function PowerResultOf(d: Data, sn: string): Result<()> {
    match d.unquoted
    case None => Err(UnquoteFailed(d.raw))
    case Some(result) => EchoCheck(result, sn)
  }

  /** The as-written stats choice panics exactly on an empty answer and agrees with FirstStats otherwise. */
  lemma FirstStatsAsWrittenPanics(rows: seq<DeviceStats>)
    ensures FirstStatsAsWritten(rows) == Panics <==> rows == []
    ensures rows != [] ==> FirstStatsAsWritten(rows) == Returns(FirstStats(rows))
  {
  }

  // ---------------------------------------------------------------- the operations

  function Then<T>(r: Result<Envelope>, post: Data -> Result<T>): Result<T> {
    match r
    case Err(e) => Err(e)
    case Ok(env) => post(env.data)
  }

  /** GetDevice: the first device of the answer, or the zero Device when the list is empty. */
  function GetDevice(cfg: Config, w: World, dev: Device): (g: Step<Device>)
    ensures var s := DoRequest(cfg, w, CmdDevices, DeviceQuery(Protocol, dev.sn), true);
      && g.world == s.world
      && (s.result.Err? ==> g.result == Err(s.result.error))
      && (s.result.Ok? && s.result.value.data.asDevices.None? ==> g.result == Err(DecodeFailed))
      && (s.result.Ok? && s.result.value.data.asDevices.Some? ==>
            var devs := s.result.value.data.asDevices.value.dev;
            g.result.Ok? && (devs != [] ==> g.result.value == devs[0])
            && (devs == [] ==> g.result.value == EmptyDevice()))
  {
    var s := DoRequest(cfg, w, CmdDevices, DeviceQuery(Protocol, dev.sn), true);
    Step(Then(s.result, DeviceOf), s.world)
  }

  /** GetDevices: every device of the answer, in the server's order. */
  function GetDevices(cfg: Config, w: World): (g: Step<seq<Device>>)
    ensures var s := DoRequest(cfg, w, CmdDevices, DeviceQuery(Protocol, "all"), true);
      && g.world == s.world
      && (s.result.Err? ==> g.result == Err(s.result.error))
      && (s.result.Ok? && s.result.value.data.asDevices.None? ==> g.result == Err(DecodeFailed))
      && (s.result.Ok? && s.result.value.data.asDevices.Some? ==>
            g.result == Ok(s.result.value.data.asDevices.value.dev))
  {
    var s := DoRequest(cfg, w, CmdDevices, DeviceQuery(Protocol, "all"), true);
    Step(Then(s.result, DevicesOf), s.world)
  }

  /** GetDeviceStats: the telemetry of one device, asked for by serial. */
  function GetDeviceStats(cfg: Config, w: World, dev: Device): (g: Step<DeviceStats>)
    ensures var s := DoRequest(cfg, w, CmdStats, StatsQuery(Protocol, [dev.sn]), true);
      && g.world == s.world
      && (s.result.Err? ==> g.result == Err(s.result.error))
      && (s.result.Ok? && s.result.value.data.asStats.None? ==> g.result == Err(DecodeFailed))
      && (s.result.Ok? && s.result.value.data.asStats.Some? ==>
            var rows := s.result.value.data.asStats.value;
            g.result == if rows == [] then Err(NoStats) else Ok(rows[0]))
  {
    var s := DoRequest(cfg, w, CmdStats, StatsQuery(Protocol, [dev.sn]), true);
    Step(Then(s.result, StatsOf), s.world)
  }

  /** Power: switches one port and checks the device's echo of the command. */
  function Power(cfg: Config, w: World, dev: Device, port: int, on: bool): (p: Step<()>)
    ensures var s := DoRequest(cfg, w, CmdPower, PowerSet(Protocol, dev.sn, port, PowerState(on)), true);
      && p.world == s.world
      && (s.result.Err? ==> p.result == Err(s.result.error))
      && (s.result.Ok? && s.result.value.data.unquoted.None? ==>
            p.result == Err(UnquoteFailed(s.result.value.data.raw)))
      && (s.result.Ok? && s.result.value.data.unquoted.Some? ==>
            p.result == EchoCheck(s.result.value.data.unquoted.value, dev.sn))
  {
    var s := DoRequest(cfg, w, CmdPower, PowerSet(Protocol, dev.sn, port, PowerState(on)), true);
    Step(Then(s.result, d => PowerResultOf(d, dev.sn)), s.world)
  }

  /** Each operation's first request: its command code and payload, with the session token attached. */
  lemma OperationRequests(cfg: Config, w: World, dev: Device, port: int, on: bool)
    ensures w.sent + [RequestFor(w.session, CmdDevices, DeviceQuery(Protocol, dev.sn), true)] <= GetDevice(cfg, w, dev).world.sent
    ensures w.sent + [RequestFor(w.session, CmdDevices, DeviceQuery(Protocol, "all"), true)] <= GetDevices(cfg, w).world.sent
    ensures w.sent + [RequestFor(w.session, CmdStats, StatsQuery(Protocol, [dev.sn]), true)] <= GetDeviceStats(cfg, w, dev).world.sent
    ensures var sent := Power(cfg, w, dev, port, on).world.sent;
      && |sent| > |w.sent|
      && sent[|w.sent|] == RequestFor(w.session, CmdPower, PowerSet(Protocol, dev.sn, port, PowerState(on)), true)
      && sent[|w.sent|].form.tokenlogin == Some(w.session.token)
      && (sent[|w.sent|].form.json.state == 1 <==> on)
  {
    DoRequestFrame(cfg, w, CmdDevices, DeviceQuery(Protocol, dev.sn), true);
    DoRequestFrame(cfg, w, CmdDevices, DeviceQuery(Protocol, "all"), true);
    DoRequestFrame(cfg, w, CmdStats, StatsQuery(Protocol, [dev.sn]), true);
    DoRequestFrame(cfg, w, CmdPower, PowerSet(Protocol, dev.sn, port, PowerState(on)), true);
  }

  /**
   * GetDevice and GetDevices against the same server state end in the same
   * session, and GetDevice returns the first of the devices GetDevices
   * returns, or the zero Device when that list is empty.
   */
  lemma GetDeviceIsFirstOfGetDevices(cfg: Config, w: World, dev: Device)
    ensures var one, all := GetDevice(cfg, w, dev), GetDevices(cfg, w);
      && SameButLog(one.world, all.world)
      && (all.result.Ok? <==> one.result.Ok?)
      && (all.result.Ok? ==> one.result.value == FirstOrEmpty(all.result.value))
      && (all.result.Ok? && all.result.value != [] ==> one.result.value in all.result.value)
      && (all.result.Err? ==> one.result.error == all.result.error)
  {
    DoRequestIgnoresPayload(cfg, w, w, CmdDevices, CmdDevices, DeviceQuery(Protocol, dev.sn), DeviceQuery(Protocol, "all"), true);
  }

  /**
   * Power succeeds exactly when the dispatcher returns an envelope whose data
   * unquotes to the expected echo; an echo that does not match is reported.
   */
  lemma PowerSucceedsIff(cfg: Config, w: World, dev: Device, port: int, on: bool)
    ensures var s := DoRequest(cfg, w, CmdPower, PowerSet(Protocol, dev.sn, port, PowerState(on)), true);
      var p := Power(cfg, w, dev, port, on);
      && p.world == s.world
      && (p.result.Ok? <==>
            s.result.Ok? && s.result.value.data.unquoted.Some?
            && EchoMatches(s.result.value.data.unquoted.value, dev.sn))
      && ((s.result.Ok? && s.result.value.data.unquoted.Some? && p.result.Err?) ==>
            p.result.error == UnexpectedResult(s.result.value.data.unquoted.value))
  {
    var s := DoRequest(cfg, w, CmdPower, PowerSet(Protocol, dev.sn, port, PowerState(on)), true);
    if s.result.Ok? && s.result.value.data.unquoted.Some? {
      EchoCheckAccepts(s.result.value.data.unquoted.value, dev.sn);
    }
  }
}

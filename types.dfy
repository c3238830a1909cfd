/** Value types of the client: configuration, envelopes, devices, telemetry and errors. */
module Types {

  datatype Option<T> = None | Some(value: T)

  /** Outcome of an operation: a value or the error the Go code would return. */
  datatype Result<T> = Ok(value: T) | Err(error: Error)

  /** The distinct error values the client can return. */
  datatype Error =
    | RequestFailed                      // PostForm returned an error
    | HttpStatus(status: int)            // HTTP status other than 200
    | BodyUnreadable                     // the response body is not an envelope
    | RenewalsExhausted(maxRetries: int) // "reached max token renewal attempts"
    | RenewFailed(cause: Error)          // "renew failed": the re-login failed
    | JsonCode(code: int, raw: string)   // "unexpected json response code"
    | LoginRequestFailed(cause: Error)   // Login: "request failed"
    | DecodeFailed                       // the data field does not decode into the expected shape
    | UnquoteFailed(raw: string)         // Power: "failed to unquote body"
    | UnexpectedResult(result: string)   // Power: "unexpected result"
    | NoStats                            // GetDeviceStats: the server returned no row

  /** The configuration fields the dispatcher reads. */
  datatype Config = Config(username: string, password: string, maxRetries: int, cooldown: int)

  datatype DeviceStats = DeviceStats(
    softver: string, amp: seq<int>, online: int, sn: string, watt: seq<int>, switches: seq<int>)

  datatype Device = Device(
    ver: string, pname: seq<string>, nver: string, line: int, socketType: string,
    ip: string, mac: string, dateAdded: string, name: string, gatewayIp: string,
    sn: string, protect: int, sak: string, register: int, stats: Option<DeviceStats>)

  /** The zero value of a Device, as Go's `var device Device` gives it. */
  function EmptyDevice(): Device {
    Device("", [], "", 0, "", "", "", "", "", "", "", 0, "", 0, None)
  }

  /** The login answer; fields absent from the answer decode to "". */
  datatype LoginData = LoginData(
    userId: string, domain: string, name: string, regId: string,
    avatar: string, message: string, url: string, token: string)

  datatype DevicesData = DevicesData(dev: seq<Device>, url: string)

  /**
   * The opaque `data` field of an envelope. JSON decoding is not modelled: the
   * value carries its raw text and, for each shape an operation decodes it into,
   * the outcome of that decoding (None when decoding fails).
   */
  datatype Data = Data(
    raw: string,
    asLogin: Option<LoginData>,
    asDevices: Option<DevicesData>,
    asStats: Option<seq<DeviceStats>>,
    unquoted: Option<string>)

  /** The generic response envelope {code, data, response, sn}. */
  datatype Envelope = Envelope(code: int, data: Data, response: int, sn: string)
}

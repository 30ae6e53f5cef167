/**
 * `DeviceViewModel`: the list of devices fetched from the REST backend, and
 * the two calls that update it. Each call is one step whose response is
 * given: a successful response (with its body), an unsuccessful one (with
 * its status message), or an exception thrown while executing the call.
 */
module ViewModel {
  import opened Wrappers
  import opened Devices

  const LoadFailedPrefix: string := "Failed to load devices: "
  const AddFailedPrefix: string := "Failed to add device: "
  const HttpErrorPrefix: string := "HTTP Error: "
  const UnexpectedErrorPrefix: string := "Unexpected Error: "

  /** How executing a Retrofit call ends; exception messages are nullable. */
  datatype Response<T> =
    | Successful(body: T)
    | Unsuccessful(message: string)
    | ThrewHttpException(cause: Option<string>)
    | ThrewException(cause: Option<string>)

  /** What a caller-supplied callback was invoked with. */
  datatype Callback = OnSuccess | OnError(message: string)

  /** Kotlin's string template of a nullable string: `null` prints as "null". */
  function Printed(s: Option<string>): string {
    s.GetOr("null")
  }

  /** The prefix a failure is reported with; `failedPrefix` is the call's own one for an unsuccessful response. */
  function PrefixOf<T>(response: Response<T>, failedPrefix: string): string
    requires !response.Successful?
  {
    match response
    case Unsuccessful(_) => failedPrefix
    case ThrewHttpException(_) => HttpErrorPrefix
    case ThrewException(_) => UnexpectedErrorPrefix
  }

  /** The detail a failure is reported with. */
  function DetailOf<T>(response: Response<T>): string
    requires !response.Successful?
  {
    match response
    case Unsuccessful(m) => m
    case ThrewHttpException(c) => Printed(c)
    case ThrewException(c) => Printed(c)
  }

  /**
   * The message passed to `onError`, if any: none for a successful response;
   * otherwise a fixed non-empty prefix naming the kind of failure, followed by its detail.
   */
  function ErrorReport<T>(response: Response<T>, failedPrefix: string): (report: Option<string>)
    requires failedPrefix != ""
    ensures report.None? <==> response.Successful?
    ensures report.Some? ==> PrefixOf(response, failedPrefix) <= report.value
    ensures report.Some? ==> report.value[|PrefixOf(response, failedPrefix)|..] == DetailOf(response)
    ensures report.Some? ==> |report.value| > 0
  {
    match response
    case Successful(_) => None
    case Unsuccessful(m) => Some(failedPrefix + m)
    case ThrewHttpException(c) => Some(HttpErrorPrefix + Printed(c))
    case ThrewException(c) => Some(UnexpectedErrorPrefix + Printed(c))
  }

  /** Every message `loadDevices` reports starts with one of its three fixed prefixes. */
  lemma LoadErrorsArePrefixed(response: Response<Option<seq<MonitoringDevice>>>)
    ensures var report := ErrorReport(response, LoadFailedPrefix);
      report.Some? ==>
        LoadFailedPrefix <= report.value || HttpErrorPrefix <= report.value || UnexpectedErrorPrefix <= report.value
  {
  }

  /** Every message `addDevice` reports starts with one of its three fixed prefixes. */
  lemma AddErrorsArePrefixed(response: Response<()>)
    ensures var report := ErrorReport(response, AddFailedPrefix);
      report.Some? ==>
        AddFailedPrefix <= report.value || HttpErrorPrefix <= report.value || UnexpectedErrorPrefix <= report.value
  {
  }

  class DeviceViewModel {
    var devices: seq<MonitoringDevice>

    constructor ()
      ensures devices == []
    {
      devices := [];
    }

    /**
     * `loadDevices`: a successful response replaces the list with its body
     * (empty when the body is null); any failure leaves the list alone and
     * reports through `onError`.
     */
    method LoadDevices(response: Response<Option<seq<MonitoringDevice>>>) returns (onError: Option<string>)
      modifies this
      ensures response.Successful? ==> devices == response.body.GetOr([])
      ensures !response.Successful? ==> devices == old(devices)
      ensures onError == ErrorReport(response, LoadFailedPrefix)
    {
      onError := None;
      match response {
        case Successful(body) =>
          devices := [];
          devices := devices + body.GetOr([]);
        case Unsuccessful(m) =>
          onError := Some(LoadFailedPrefix + m);
        case ThrewHttpException(c) =>
          onError := Some(HttpErrorPrefix + Printed(c));
        case ThrewException(c) =>
          onError := Some(UnexpectedErrorPrefix + Printed(c));
      }
    }

    /**
     * `addDevice`: a successful response appends the device (no check for
     * duplicates) and then calls `onSuccess`; any failure leaves the list
     * alone and calls only `onError`.
     */
    method AddDevice(device: MonitoringDevice, response: Response<()>) returns (callback: Callback)
      modifies this
      ensures response.Successful? ==> devices == old(devices) + [device] && callback == OnSuccess
      ensures !response.Successful? ==> devices == old(devices)
      ensures !response.Successful? ==> callback == OnError(ErrorReport(response, AddFailedPrefix).value)
    {
      match response {
        case Successful(_) =>
          devices := devices + [device];
          callback := OnSuccess;
        case Unsuccessful(m) =>
          callback := OnError(AddFailedPrefix + m);
        case ThrewHttpException(c) =>
          callback := OnError(HttpErrorPrefix + Printed(c));
        case ThrewException(c) =>
          callback := OnError(UnexpectedErrorPrefix + Printed(c));
      }
    }
  }
}

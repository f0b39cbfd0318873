/** The native bridge as the facade sees it: the payloads it forwards, the calls
    it makes, and counting functions over the recorded sequence of calls. */
module NativeBridge {

  /* Payload shapes that the facade passes through without looking inside them.
     Their fields matter only to the native SDK, so they stay opaque here. */
  type ConfigSettings     // every AppMetricaConfig field except appOpenTrackingEnabled
  type JsError            // a value for which `instanceof Error` holds
  type JsObject           // any other non-undefined value
  type Attributes         // Record<string, any> of reportEvent
  type Location
  type StartupParamsCallback
  type DeeplinkSuccessCallback
  type DeeplinkFailureCallback
  type DeeplinkParametersSuccessCallback
  type DeeplinkParametersFailureCallback
  type ECommerceEvent
  type Revenue
  type AdRevenue
  type UserProfile
  type ExternalAttribution
  type ReporterConfig

  /** A JavaScript optional argument: `None` is `undefined`. */
  datatype Option<T> = None | Some(value: T)

  /** The activation config. Only `appOpenTrackingEnabled` changes what the
      facade does; `None` is an absent or undefined field. */
  datatype Config = Config(apiKey: string, appOpenTrackingEnabled: Option<bool>, settings: ConfigSettings)

  /** The optional `_reason` of reportError, split the way the facade splits it. */
  datatype Reason = ErrorReason(error: JsError) | OtherReason(value: Option<JsObject>)

  /** The transport-safe error descriptor, recorded as which converter of
      AppMetricaError was applied to which value. */
  datatype ErrorDescriptor = WithError(error: JsError) | WithObject(value: Option<JsObject>)

  /** The listener objects of the two deferred-deeplink requests. */
  datatype DeferredDeeplinkListener =
    DeferredDeeplinkListener(onSuccess: DeeplinkSuccessCallback, onFailure: DeeplinkFailureCallback)
  datatype DeferredDeeplinkParametersListener =
    DeferredDeeplinkParametersListener(onSuccess: DeeplinkParametersSuccessCallback, onFailure: DeeplinkParametersFailureCallback)

  /** The result of normalizeAdRevenue applied to `input`. */
  datatype NormalizedAdRevenue = NormalizedAdRevenue(input: AdRevenue)

  /** Every effect the facade has on the outside world, in the order it happens.
      All but AppOpenTrackingInstalled are calls of a native module method
      with the arguments in the order the native side receives them;
      AppOpenTrackingInstalled stands for the launch-URL read and the
      open-URL listener that app-open tracking registers with the host. */
  datatype NativeCall =
    | Activate(config: Config)
    | AppOpenTrackingInstalled
    | PauseSession
    | ReportAppOpen(deeplink: Option<string>)
    | ReportError(identifier: string, message: Option<string>, reason: ErrorDescriptor)
    | ReportUnhandledException(error: ErrorDescriptor)
    | ReportErrorWithoutIdentifier(message: Option<string>, error: ErrorDescriptor)
    | ReportEvent(eventName: string, attributes: Option<Attributes>)
    | RequestStartupParams(identifiers: seq<string>, listener: StartupParamsCallback)
    | ResumeSession
    | SendEventsBuffer
    | SetLocation(location: Option<Location>)
    | SetLocationTracking(enabled: bool)
    | SetDataSendingEnabled(enabled: bool)
    | SetUserProfileID(userProfileID: Option<string>)
    | ReportECommerce(event: ECommerceEvent)
    | ReportRevenue(revenue: Revenue)
    | ReportAdRevenue(adRevenue: NormalizedAdRevenue)
    | ReportUserProfile(userProfile: UserProfile)
    | PutErrorEnvironmentValue(key: string, value: Option<string>)
    | ReportExternalAttribution(attribution: ExternalAttribution)
    | PutAppEnvironmentValue(key: string, value: Option<string>)
    | ClearAppEnvironment
    | TouchReporter(apiKey: string)
    | ActivateReporter(reporterConfig: ReporterConfig)
    | RequestDeferredDeeplink(failureCallback: DeeplinkFailureCallback, successCallback: DeeplinkSuccessCallback)
    | RequestDeferredDeeplinkParameters(parametersFailureCallback: DeeplinkParametersFailureCallback, parametersSuccessCallback: DeeplinkParametersSuccessCallback)

  /** What a call through the bridge reference ends in: normal completion, or
      the linking error thrown when the native module is missing. */
  datatype Outcome<T> = Ok(value: T) | LinkingError

  /** Whether the first activation installs app-open tracking: every value
      except an explicit `false` does, so an absent field enables it. */
  function TracksAppOpen(config: Config): (tracks: bool)
    ensures !tracks <==> config.appOpenTrackingEnabled == Some(false)
    ensures config.appOpenTrackingEnabled == None ==> tracks
  {
    config.appOpenTrackingEnabled != Some(false)
  }

  /** The reportError dispatch: an Error goes through withError, any other
      value, undefined included, through withObject. */
  function DescriptorOf(reason: Reason): (d: ErrorDescriptor)
    ensures d.WithError? <==> reason.ErrorReason?
    ensures d.WithError? ==> d.error == reason.error
    ensures d.WithObject? ==> d.value == reason.value
  {
    match reason
    case ErrorReason(e) => WithError(e)
    case OtherReason(v) => WithObject(v)
  }

  /** The configs of the native activate calls in `t`, in order. */
  function Activations(t: seq<NativeCall>): (configs: seq<Config>)
    ensures |configs| <= |t|
    ensures forall c :: c in configs ==> Activate(c) in t
    ensures forall call :: call in t && call.Activate? ==> call.config in configs
  {
    if t == [] then []
    else (if t[0].Activate? then [t[0].config] else []) + Activations(t[1..])
  }

  /** How many times app-open tracking was installed in `t`. */
  function TrackingInstalls(t: seq<NativeCall>): (n: nat)
    ensures n <= |t|
    ensures n == 0 <==> AppOpenTrackingInstalled !in t
  {
    if t == [] then 0
    else (if t[0].AppOpenTrackingInstalled? then 1 else 0) + TrackingInstalls(t[1..])
  }

  /** How many times `t` registers a reporter for `apiKey` with the native side. */
  function TouchCount(t: seq<NativeCall>, apiKey: string): (n: nat)
    ensures n <= |t|
    ensures n == 0 <==> TouchReporter(apiKey) !in t
  {
    if t == [] then 0
    else (if t[0] == TouchReporter(apiKey) then 1 else 0) + TouchCount(t[1..], apiKey)
  }

  lemma {:induction false} ActivationsAppend(t: seq<NativeCall>, c: NativeCall)
    ensures Activations(t + [c]) == Activations(t) + (if c.Activate? then [c.config] else [])
  {
    if t != [] {
      assert (t + [c])[1..] == t[1..] + [c];
      ActivationsAppend(t[1..], c);
    }
  }

  lemma {:induction false} TrackingInstallsAppend(t: seq<NativeCall>, c: NativeCall)
    ensures TrackingInstalls(t + [c]) == TrackingInstalls(t) + (if c.AppOpenTrackingInstalled? then 1 else 0)
  {
    if t != [] {
      assert (t + [c])[1..] == t[1..] + [c];
      TrackingInstallsAppend(t[1..], c);
    }
  }

  lemma {:induction false} TouchCountAppend(t: seq<NativeCall>, c: NativeCall, apiKey: string)
    ensures TouchCount(t + [c], apiKey) == TouchCount(t, apiKey) + (if c == TouchReporter(apiKey) then 1 else 0)
  {
    if t != [] {
      assert (t + [c])[1..] == t[1..] + [c];
      TouchCountAppend(t[1..], c, apiKey);
    }
  }
}

# AppMetrica React Native facade — a Dafny model

The `AppMetrica` class in `src/index.ts` is the JavaScript entry point to the
native AppMetrica SDK. Almost every static method hands its arguments to the
native module and does nothing else. The facade keeps process-wide state in
two places:

- the **activation guard**, a module-level `activated` flag. It makes sure
  the native `activate` runs at most once, with the first config, and that
  app-open tracking is installed at most once;
- the **reporter cache**, a static `Map<string, Reporter>`. It makes sure
  each API key is registered with the native side (`touchReporter`) exactly
  once and always gets back the same `Reporter` object.

The model has two modules:

- `NativeBridge` (`bridge.dfy`) holds the payload types. Apart from
  `appOpenTrackingEnabled` and the two listener callbacks, the facade never
  looks inside them, so they are opaque types. It also holds:
  - the `NativeCall` datatype: one entry per native method that the
    modelled facade methods call (the four Promise getters are left out),
    with the arguments in the order the native side receives them, plus
    `AppOpenTrackingInstalled` for the host-side tracking setup;
  - the `Outcome` of a call through the bridge: it completes, or it fails
    with the linking error;
  - the two decisions the facade makes itself: whether activation installs
    app-open tracking, and which `AppMetricaError` converter a reason goes
    through;
  - counting functions over the call trace, with lemmas saying how each
    count grows when one call is appended.
- `AppMetricaFacade` (`appmetrica.dfy`) holds a `Reporter` class with a
  constant `apiKey`, so reference identity means what it means in the
  source. It also holds the `AppMetricaModel` class, which stands for the
  module-scope state:
  - `linked`: whether `NativeModules.AppMetrica` was present at load time.
    This replaces the throwing `Proxy`;
  - `activated`;
  - `reporters`;
  - `trace`: every native call made so far, in order.

  Every facade method of the source except the four Promise getters (see
  "## Left out") is a method of this class. The module function
  `appOpenTracking` is not a method; it is one trace entry that `Activate`
  appends. Each one-call forwarder either appends its native call to
  `trace` or, when `linked` is false, returns `LinkingError` and changes
  nothing. `Activate` appends the native activation and, unless tracking is
  disabled, the tracking entry on its first success, and makes no call
  after that. `GetReporter` makes no call for a cached key. The
  object invariant `Valid()` captures five guarantees:
  - without a native module there is no activation, no call and an empty
    cache;
  - at most one activation;
  - tracking installed once exactly when the activation happened and its
    config allows tracking;
  - one registration per cached key;
  - every cached reporter carries its own key.

  Every method except the bridge helper `Invoke` keeps `Valid()`, and the
  cache only grows (`CacheGrows`). `Invoke` is only called where the caller
  re-establishes `Valid()`.

## Model

| member | source | states |
|---|---|---|
| NativeBridge.TracksAppOpen | src/index.ts:117-119 | app-open tracking is skipped exactly when `appOpenTrackingEnabled` is explicitly `false`; an absent field enables it |
| NativeBridge.DescriptorOf | src/index.ts:149 | the reason goes through `withError` iff it is an `Error`; anything else, `undefined` included, goes through `withObject`; the value is passed on unchanged |
| NativeBridge.Activations | src/index.ts:116 | the configs of the native activations in a trace, in order; it lists no more configs than there are calls, a config is listed iff it was sent in an activation call |
| NativeBridge.TrackingInstalls | src/index.ts:117-119 | the number of app-open tracking installations in a trace; never more than the trace length, and zero iff the trace holds no installation |
| NativeBridge.TouchCount | src/index.ts:232 | the number of reporter registrations for a key in a trace; it is zero iff the key was never registered |
| NativeBridge.ActivationsAppend | src/index.ts:116 | appending a call adds its config to the activation list iff the call is a native activation |
| NativeBridge.TouchCountAppend | src/index.ts:232 | appending a call adds one registration for a key iff the call is `touchReporter` for that key |
| NativeBridge.TrackingInstallsAppend | src/index.ts:117-119 | appending a call adds one tracking installation iff the call is the tracking installation |
| AppMetricaFacade.Reporter.constructor | src/index.ts:233 | a new reporter carries the API key it was created for |
| AppMetricaFacade.AppMetricaModel.constructor | src/index.ts:20-31 | at load time the native module is either present or not, and the module state starts unactivated, with an empty cache and no calls |
| AppMetricaFacade.AppMetricaModel.Invoke | src/index.ts:20-29 | a call through the bridge reference appends exactly that call when the module is linked; otherwise it fails with the linking error and appends nothing |
| AppMetricaFacade.AppMetricaModel.Forward | src/index.ts:14-29 | a forwarded call other than activation or registration keeps every invariant and leaves the flag and the cache as they were |
| AppMetricaFacade.AppMetricaModel.Activate | src/index.ts:114-122 | the first successful call appends the native activation with its config, then the tracking installation unless tracking is disabled, and then sets the flag. An unlinked bridge fails it and leaves the flag false. Every later call changes nothing. The trace always holds at most one activation, carrying the first config |
| AppMetricaFacade.AppMetricaModel.GetReporter | src/index.ts:228-237 | a cached key returns the same reporter and makes no native call. A new key appends one `touchReporter(key)` and then adds exactly that key, mapped to a fresh reporter with that key; other entries are untouched. An unlinked bridge fails it and leaves the cache unchanged |
| AppMetricaFacade.AppMetricaModel.PauseSession | src/index.ts:133-135 | appends exactly one `pauseSession` call, or fails with the linking error and appends nothing |
| AppMetricaFacade.AppMetricaModel.ReportAppOpen | src/index.ts:137-139 | appends exactly one `reportAppOpen` with the deeplink, `undefined` included |
| AppMetricaFacade.AppMetricaModel.ReportError | src/index.ts:141-151 | appends exactly one `reportError` with the identifier, the message and the reason's descriptor; that descriptor comes from `withError` iff the reason is an `Error` |
| AppMetricaFacade.AppMetricaModel.ReportUnhandledException | src/index.ts:153-155 | appends exactly one `reportUnhandledException` with the error converted by `withError` |
| AppMetricaFacade.AppMetricaModel.ReportErrorWithoutIdentifier | src/index.ts:157-159 | appends exactly one `reportErrorWithoutIdentifier` with the message and the error converted by `withError` |
| AppMetricaFacade.AppMetricaModel.ReportEvent | src/index.ts:161-163 | appends exactly one `reportEvent` with the name and the attributes unchanged |
| AppMetricaFacade.AppMetricaModel.RequestStartupParams | src/index.ts:165-170 | appends exactly one `requestStartupParams` with the identifiers first and the listener second, the reverse of the facade's parameter order |
| AppMetricaFacade.AppMetricaModel.ResumeSession | src/index.ts:172-174 | appends exactly one `resumeSession` call |
| AppMetricaFacade.AppMetricaModel.SendEventsBuffer | src/index.ts:176-178 | appends exactly one `sendEventsBuffer` call |
| AppMetricaFacade.AppMetricaModel.SetLocation | src/index.ts:180-182 | appends exactly one `setLocation` with the location, `undefined` included |
| AppMetricaFacade.AppMetricaModel.SetLocationTracking | src/index.ts:184-186 | appends exactly one `setLocationTracking` with the flag |
| AppMetricaFacade.AppMetricaModel.SetDataSendingEnabled | src/index.ts:188-190 | appends exactly one `setDataSendingEnabled` with the flag |
| AppMetricaFacade.AppMetricaModel.SetUserProfileID | src/index.ts:192-194 | appends exactly one `setUserProfileID` with the id, `undefined` included |
| AppMetricaFacade.AppMetricaModel.ReportECommerce | src/index.ts:196-198 | appends exactly one `reportECommerce` with the event unchanged |
| AppMetricaFacade.AppMetricaModel.ReportRevenue | src/index.ts:200-202 | appends exactly one `reportRevenue` with the revenue unchanged |
| AppMetricaFacade.AppMetricaModel.ReportAdRevenue | src/index.ts:204-206 | appends exactly one `reportAdRevenue` carrying `normalizeAdRevenue` of the argument |
| AppMetricaFacade.AppMetricaModel.ReportUserProfile | src/index.ts:208-210 | appends exactly one `reportUserProfile` with the profile unchanged |
| AppMetricaFacade.AppMetricaModel.PutErrorEnvironmentValue | src/index.ts:212-214 | appends exactly one `putErrorEnvironmentValue` with the key and the value |
| AppMetricaFacade.AppMetricaModel.ReportExternalAttribution | src/index.ts:216-218 | appends exactly one `reportExternalAttribution` with the attribution unchanged |
| AppMetricaFacade.AppMetricaModel.PutAppEnvironmentValue | src/index.ts:220-222 | appends exactly one `putAppEnvironmentValue` with the key and the value |
| AppMetricaFacade.AppMetricaModel.ClearAppEnvironment | src/index.ts:224-226 | appends exactly one `clearAppEnvironment` call |
| AppMetricaFacade.AppMetricaModel.ActivateReporter | src/index.ts:239-241 | appends exactly one `activateReporter` with the reporter config unchanged |
| AppMetricaFacade.AppMetricaModel.RequestDeferredDeeplink | src/index.ts:251-256 | takes the listener object and appends exactly one `requestDeferredDeeplink` with its failure callback first and its success callback second |
| AppMetricaFacade.AppMetricaModel.RequestDeferredDeeplinkParameters | src/index.ts:258-265 | takes the listener object and appends exactly one `requestDeferredDeeplinkParameters` with its failure callback first and its success callback second |
| AppMetricaFacade.ReportersDistinct | src/index.ts:228-237 | two different keys are never mapped to the same reporter object |
| AppMetricaFacade.ActivationCarriesFirstConfig | src/index.ts:114-122 | a trace holds a native activation only once the flag is set, and every activation in it carries the first config |
| AppMetricaFacade.ActivateTwice | src/index.ts:114-122 | two activations with different configs leave exactly one native activation in the trace, carrying the first config |
| AppMetricaFacade.GetReporterTwice | src/index.ts:228-237 | two lookups of one key return the same object with that key, and the key is registered with the native side exactly once |

Each forwarder's row says what its contract (`Forwarded`) gives it. With a
native module present, it appends exactly that call and nothing else changes.
Without one, it returns `LinkingError` and nothing changes. The flag and the
cache are unchanged either way.

## Left out

- Asynchronous app-open tracking (src/index.ts:33-45) reads the launch URL
  and registers an open-URL listener with the host's `Linking` facility. It
  is one `AppOpenTrackingInstalled` trace entry. The `reportAppOpen` calls it
  later makes from the event loop are not modelled.
- The Promise-returning getters `getLibraryApiLevel`, `getLibraryVersion`,
  `getDeviceId` and `getUuid` (src/index.ts:125-131, 243-249) are left out.
  Their result is produced entirely by the native SDK.
- `normalizeAdRevenue` (`src/utils`) and `AppMetricaError.withError` /
  `withObject` (`src/error`) are not part of this model. The trace records
  which of them was applied to which value (`NormalizedAdRevenue`,
  `WithError`, `WithObject`). It does not record what they compute.
- The `Reporter` class's own methods (`src/reporter`) are not part of this
  model. A reporter is modelled by its identity and its API key.
- The `Proxy` that throws on any property read is the `linked` flag. The
  text of `LINKING_ERROR`, which depends on `Platform.select`, is the opaque
  outcome `LinkingError`.
- Errors thrown by the native SDK itself, when the module is present, are
  not modelled. Every linked call completes normally.
- The payload types (`AppMetricaConfig` apart from `appOpenTrackingEnabled`,
  `Location`, `StartupParams`, e-commerce, revenue, user profile, external
  attribution, reporter config) are opaque. The facade does not inspect them.
- The Android native module
  (`android/src/main/java/io/appmetrica/analytics/reactnative/AppMetricaModule.java`)
  is not modelled. Its behaviour lies in SDK helpers that are not part of
  this model. Its parameter order for the deferred-deeplink methods (failure
  callback first, lines 212 and 217) agrees with the order the facade sends.
- The exported constants `DEVICE_ID_HASH_KEY`, `DEVICE_ID_KEY` and
  `UUID_KEY` (src/index.ts:99-101) are left out. No facade method uses them.
- Concurrency: the facade runs on one JavaScript thread, and the model's
  methods run one at a time.

/** The AppMetrica facade: the process-wide activation guard, the reporter
    cache, and the forwarding methods over the native bridge reference. */
module AppMetricaFacade {
  import opened NativeBridge

  /** A secondary facade scoped to one API key; only its identity and its key
      matter to the cache. */
  class Reporter {
    const apiKey: string

    constructor (apiKey: string)
      ensures this.apiKey == apiKey
    {
      this.apiKey := apiKey;
    }
  }

  /** The module-scope state of the facade: whether the native module was
      found when the module loaded, the `activated` flag, the static
      `reporters` map, and the calls made through the bridge so far. */
  class AppMetricaModel {
    const linked: bool
    var activated: bool
    var reporters: map<string, Reporter>
    var trace: seq<NativeCall>

    /** The invariants the facade keeps. Without a native module nothing ever
        succeeds; the native activation happened once if the flag is set and
        never otherwise, and tracking was installed once exactly when the flag
        is set and that activation's config allows it; the cache holds, under
        each key, a reporter for that key, and a key is in the cache exactly
        when it was registered with the native side, and then exactly once. */
    ghost predicate Valid()
      reads this
    {
      (!linked ==> !activated && trace == [] && reporters == map[]) &&
      |Activations(trace)| == (if activated then 1 else 0) &&
      TrackingInstalls(trace) ==
        (if activated && TracksAppOpen(Activations(trace)[0]) then 1 else 0) &&
      (forall k :: k in reporters ==> reporters[k].apiKey == k) &&
      (forall k :: TouchCount(trace, k) == if k in reporters then 1 else 0)
    }

    /** No cache entry is ever removed or replaced. */
    twostate predicate CacheGrows()
      reads this
    {
      forall k :: k in old(reporters) ==> k in reporters && reporters[k] == old(reporters)[k]
    }

    /** A one-call forwarder's effect: with a native module, `call` is appended
        and nothing else changes; without one, the linking error is raised
        and nothing changes at all. */
    twostate predicate Forwarded(new call: NativeCall, new o: Outcome<()>)
      reads this
    {
      activated == old(activated) && reporters == old(reporters) &&
      if linked then o == Ok(()) && trace == old(trace) + [call]
      else o == LinkingError && trace == old(trace)
    }

    /** Loading the module: the native module is resolved once, nothing is
        activated and no reporter exists. */
    constructor (nativeModulePresent: bool)
      ensures Valid()
      ensures linked == nativeModulePresent
      ensures !activated && reporters == map[] && trace == []
    {
      linked := nativeModulePresent;
      activated := false;
      reporters := map[];
      trace := [];
    }

    /** A call through the bridge reference: reading a method off the missing
        module's stand-in throws the linking error before any call is made. */
    method Invoke(call: NativeCall) returns (o: Outcome<()>)
      modifies this
      ensures activated == old(activated) && reporters == old(reporters)
      ensures o == (if linked then Ok(()) else LinkingError)
      ensures trace == old(trace) + (if linked then [call] else [])
    {
      if linked {
        trace := trace + [call];
        o := Ok(());
      } else {
        o := LinkingError;
      }
    }

    /** Invoke for a call that is neither an activation, a tracking
        installation nor a reporter registration, which keeps Valid. */
    method Forward(call: NativeCall) returns (o: Outcome<()>)
      requires Valid()
      requires !call.Activate? && !call.AppOpenTrackingInstalled? && !call.TouchReporter?
      modifies this
      ensures Valid() && CacheGrows()
      ensures Forwarded(call, o)
    {
      ghost var before := trace;
      o := Invoke(call);
      if linked {
        ActivationsAppend(before, call);
        TrackingInstallsAppend(before, call);
        forall k ensures TouchCount(trace, k) == TouchCount(before, k) {
          TouchCountAppend(before, call, k);
        }
      }
    }

    /** The activation guard. The first successful call forwards `config`,
        then installs app-open tracking unless the config turns it off, and
        only then sets the flag; every later call changes nothing. */
    method Activate(config: Config) returns (o: Outcome<()>)
      requires Valid()
      modifies this
      ensures Valid() && CacheGrows()
      ensures reporters == old(reporters)
      ensures old(activated) ==> o == Ok(()) && activated && trace == old(trace)
      ensures !old(activated) && !linked ==> o == LinkingError && !activated && trace == old(trace)
      ensures !old(activated) && linked ==>
        o == Ok(()) && activated &&
        trace == old(trace) + [NativeCall.Activate(config)] + (if TracksAppOpen(config) then [NativeCall.AppOpenTrackingInstalled] else [])
      ensures Activations(trace) == if old(activated) || !linked then old(Activations(trace)) else [config]
    {
      if activated {
        return Ok(());
      }
      ghost var before := trace;
      o := Invoke(NativeCall.Activate(config));
      if o.LinkingError? {
        return;
      }
      ActivationsAppend(before, NativeCall.Activate(config));
      TrackingInstallsAppend(before, NativeCall.Activate(config));
      forall k ensures TouchCount(trace, k) == TouchCount(before, k) {
        TouchCountAppend(before, NativeCall.Activate(config), k);
      }
      if TracksAppOpen(config) {
        ghost var mid := trace;
        trace := trace + [NativeCall.AppOpenTrackingInstalled];
        ActivationsAppend(mid, NativeCall.AppOpenTrackingInstalled);
        TrackingInstallsAppend(mid, NativeCall.AppOpenTrackingInstalled);
        forall k ensures TouchCount(trace, k) == TouchCount(mid, k) {
          TouchCountAppend(mid, NativeCall.AppOpenTrackingInstalled, k);
        }
      }
      activated := true;
    }

    /** The reporter cache: a cached key returns its reporter without a native
        call; a new key is registered with the native side first and only
        then gets a fresh reporter in the cache. */
    method GetReporter(apiKey: string) returns (r: Outcome<Reporter>)
      requires Valid()
      modifies this
      ensures Valid() && CacheGrows()
      ensures activated == old(activated)
      ensures r.Ok? ==> apiKey in reporters && reporters[apiKey] == r.value && r.value.apiKey == apiKey
      ensures apiKey in old(reporters) ==>
        r == Ok(old(reporters)[apiKey]) && reporters == old(reporters) && trace == old(trace)
      ensures apiKey !in old(reporters) && linked ==>
        r.Ok? && fresh(r.value) &&
        reporters == old(reporters)[apiKey := r.value] && trace == old(trace) + [NativeCall.TouchReporter(apiKey)]
      ensures apiKey !in old(reporters) && !linked ==>
        r == LinkingError && reporters == old(reporters) && trace == old(trace)
    {
      if apiKey in reporters {
        return Ok(reporters[apiKey]);
      }
      ghost var before := trace;
      var o := Invoke(NativeCall.TouchReporter(apiKey));
      if o.LinkingError? {
        return LinkingError;
      }
      ActivationsAppend(before, NativeCall.TouchReporter(apiKey));
      TrackingInstallsAppend(before, NativeCall.TouchReporter(apiKey));
      forall k ensures TouchCount(trace, k) == TouchCount(before, k) + (if k == apiKey then 1 else 0) {
        TouchCountAppend(before, NativeCall.TouchReporter(apiKey), k);
      }
      var reporter := new Reporter(apiKey);
      reporters := reporters[apiKey := reporter];
      r := Ok(reporter);
    }

    method PauseSession() returns (o: Outcome<()>)
      requires Valid()
      modifies this
      ensures Valid() && CacheGrows()
      ensures Forwarded(NativeCall.PauseSession, o)
    {
      o := Forward(NativeCall.PauseSession);
    }

    method ReportAppOpen(deeplink: Option<string>) returns (o: Outcome<()>)
      requires Valid()
      modifies this
      ensures Valid() && CacheGrows()
      ensures Forwarded(NativeCall.ReportAppOpen(deeplink), o)
    {
      o := Forward(NativeCall.ReportAppOpen(deeplink));
    }

    /** An Error reason is converted with withError, anything else (undefined
        included) with withObject. */
    method ReportError(identifier: string, message: Option<string>, reason: Reason) returns (o: Outcome<()>)
      requires Valid()
      modifies this
      ensures Valid() && CacheGrows()
      ensures Forwarded(NativeCall.ReportError(identifier, message, DescriptorOf(reason)), o)
    {
      o := Forward(NativeCall.ReportError(identifier, message, DescriptorOf(reason)));
    }

    method ReportUnhandledException(error: JsError) returns (o: Outcome<()>)
      requires Valid()
      modifies this
      ensures Valid() && CacheGrows()
      ensures Forwarded(NativeCall.ReportUnhandledException(WithError(error)), o)
    {
      o := Forward(NativeCall.ReportUnhandledException(WithError(error)));
    }

    method ReportErrorWithoutIdentifier(message: Option<string>, error: JsError) returns (o: Outcome<()>)
      requires Valid()
      modifies this
      ensures Valid() && CacheGrows()
      ensures Forwarded(NativeCall.ReportErrorWithoutIdentifier(message, WithError(error)), o)
    {
      o := Forward(NativeCall.ReportErrorWithoutIdentifier(message, WithError(error)));
    }

    method ReportEvent(eventName: string, attributes: Option<Attributes>) returns (o: Outcome<()>)
      requires Valid()
      modifies this
      ensures Valid() && CacheGrows()
      ensures Forwarded(NativeCall.ReportEvent(eventName, attributes), o)
    {
      o := Forward(NativeCall.ReportEvent(eventName, attributes));
    }

    /** The facade takes the listener first; the native side receives the
        identifiers first. */
    method RequestStartupParams(listener: StartupParamsCallback, identifiers: seq<string>) returns (o: Outcome<()>)
      requires Valid()
      modifies this
      ensures Valid() && CacheGrows()
      ensures Forwarded(NativeCall.RequestStartupParams(identifiers, listener), o)
    {
      o := Forward(NativeCall.RequestStartupParams(identifiers, listener));
    }

    method ResumeSession() returns (o: Outcome<()>)
      requires Valid()
      modifies this
      ensures Valid() && CacheGrows()
      ensures Forwarded(NativeCall.ResumeSession, o)
    {
      o := Forward(NativeCall.ResumeSession);
    }

    method SendEventsBuffer() returns (o: Outcome<()>)
      requires Valid()
      modifies this
      ensures Valid() && CacheGrows()
      ensures Forwarded(NativeCall.SendEventsBuffer, o)
    {
      o := Forward(NativeCall.SendEventsBuffer);
    }

    method SetLocation(location: Option<Location>) returns (o: Outcome<()>)
      requires Valid()
      modifies this
      ensures Valid() && CacheGrows()
      ensures Forwarded(NativeCall.SetLocation(location), o)
    {
      o := Forward(NativeCall.SetLocation(location));
    }

    method SetLocationTracking(enabled: bool) returns (o: Outcome<()>)
      requires Valid()
      modifies this
      ensures Valid() && CacheGrows()
      ensures Forwarded(NativeCall.SetLocationTracking(enabled), o)
    {
      o := Forward(NativeCall.SetLocationTracking(enabled));
    }

    method SetDataSendingEnabled(enabled: bool) returns (o: Outcome<()>)
      requires Valid()
      modifies this
      ensures Valid() && CacheGrows()
      ensures Forwarded(NativeCall.SetDataSendingEnabled(enabled), o)
    {
      o := Forward(NativeCall.SetDataSendingEnabled(enabled));
    }

    method SetUserProfileID(userProfileID: Option<string>) returns (o: Outcome<()>)
      requires Valid()
      modifies this
      ensures Valid() && CacheGrows()
      ensures Forwarded(NativeCall.SetUserProfileID(userProfileID), o)
    {
      o := Forward(NativeCall.SetUserProfileID(userProfileID));
    }

    method ReportECommerce(event: ECommerceEvent) returns (o: Outcome<()>)
      requires Valid()
      modifies this
      ensures Valid() && CacheGrows()
      ensures Forwarded(NativeCall.ReportECommerce(event), o)
    {
      o := Forward(NativeCall.ReportECommerce(event));
    }

    method ReportRevenue(revenue: Revenue) returns (o: Outcome<()>)
      requires Valid()
      modifies this
      ensures Valid() && CacheGrows()
      ensures Forwarded(NativeCall.ReportRevenue(revenue), o)
    {
      o := Forward(NativeCall.ReportRevenue(revenue));
    }

    /** The only forwarder that reshapes its payload: the native side gets the
        normalized ad revenue. */
    method ReportAdRevenue(adRevenue: AdRevenue) returns (o: Outcome<()>)
      requires Valid()
      modifies this
      ensures Valid() && CacheGrows()
      ensures Forwarded(NativeCall.ReportAdRevenue(NormalizedAdRevenue(adRevenue)), o)
    {
      o := Forward(NativeCall.ReportAdRevenue(NormalizedAdRevenue(adRevenue)));
    }

    method ReportUserProfile(userProfile: UserProfile) returns (o: Outcome<()>)
      requires Valid()
      modifies this
      ensures Valid() && CacheGrows()
      ensures Forwarded(NativeCall.ReportUserProfile(userProfile), o)
    {
      o := Forward(NativeCall.ReportUserProfile(userProfile));
    }

    method PutErrorEnvironmentValue(key: string, value: Option<string>) returns (o: Outcome<()>)
      requires Valid()
      modifies this
      ensures Valid() && CacheGrows()
      ensures Forwarded(NativeCall.PutErrorEnvironmentValue(key, value), o)
    {
      o := Forward(NativeCall.PutErrorEnvironmentValue(key, value));
    }

    method ReportExternalAttribution(attribution: ExternalAttribution) returns (o: Outcome<()>)
      requires Valid()
      modifies this
      ensures Valid() && CacheGrows()
      ensures Forwarded(NativeCall.ReportExternalAttribution(attribution), o)
    {
      o := Forward(NativeCall.ReportExternalAttribution(attribution));
    }

    method PutAppEnvironmentValue(key: string, value: Option<string>) returns (o: Outcome<()>)
      requires Valid()
      modifies this
      ensures Valid() && CacheGrows()
      ensures Forwarded(NativeCall.PutAppEnvironmentValue(key, value), o)
    {
      o := Forward(NativeCall.PutAppEnvironmentValue(key, value));
    }

    method ClearAppEnvironment() returns (o: Outcome<()>)
      requires Valid()
      modifies this
      ensures Valid() && CacheGrows()
      ensures Forwarded(NativeCall.ClearAppEnvironment, o)
    {
      o := Forward(NativeCall.ClearAppEnvironment);
    }

    method ActivateReporter(reporterConfig: ReporterConfig) returns (o: Outcome<()>)
      requires Valid()
      modifies this
      ensures Valid() && CacheGrows()
      ensures Forwarded(NativeCall.ActivateReporter(reporterConfig), o)
    {
      o := Forward(NativeCall.ActivateReporter(reporterConfig));
    }

    /** The listener's failure callback goes first, its success callback second. */
    method RequestDeferredDeeplink(listener: DeferredDeeplinkListener) returns (o: Outcome<()>)
      requires Valid()
      modifies this
      ensures Valid() && CacheGrows()
      ensures Forwarded(NativeCall.RequestDeferredDeeplink(listener.onFailure, listener.onSuccess), o)
    {
      o := Forward(NativeCall.RequestDeferredDeeplink(listener.onFailure, listener.onSuccess));
    }

    method RequestDeferredDeeplinkParameters(listener: DeferredDeeplinkParametersListener) returns (o: Outcome<()>)
      requires Valid()
      modifies this
      ensures Valid() && CacheGrows()
      ensures Forwarded(NativeCall.RequestDeferredDeeplinkParameters(listener.onFailure, listener.onSuccess), o)
    {
      o := Forward(NativeCall.RequestDeferredDeeplinkParameters(listener.onFailure, listener.onSuccess));
    }
  }

  /** Distinct keys never share a reporter. */
  lemma ReportersDistinct(m: AppMetricaModel, k1: string, k2: string)
    requires m.Valid() && k1 in m.reporters && k2 in m.reporters && k1 != k2
    ensures m.reporters[k1] != m.reporters[k2]
  {
  }

  /** Every native activation in the trace carries the first config. */
  lemma ActivationCarriesFirstConfig(m: AppMetricaModel, call: NativeCall)
    requires m.Valid() && call in m.trace && call.Activate?
    ensures m.activated && call.config == Activations(m.trace)[0]
  {
  }

  /** Two activations with different configs: one native activation, with the
      first config. */
  method ActivateTwice(m: AppMetricaModel, first: Config, second: Config)
    requires m.Valid() && m.linked && !m.activated
    modifies m
    ensures m.Valid() && m.activated
    ensures Activations(m.trace) == [first]
  {
    var o1 := m.Activate(first);
    var o2 := m.Activate(second);
  }

  /** Two lookups of one key: the same reporter, one registration. */
  method GetReporterTwice(m: AppMetricaModel, apiKey: string) returns (r1: Reporter, r2: Reporter)
    requires m.Valid() && m.linked
    modifies m
    ensures m.Valid()
    ensures r1 == r2 && r1.apiKey == apiKey
    ensures TouchCount(m.trace, apiKey) == 1
  {
    var o1 := m.GetReporter(apiKey);
    var o2 := m.GetReporter(apiKey);
    r1, r2 := o1.value, o2.value;
  }
}

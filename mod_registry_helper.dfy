/** The per-consumer mod-API facade `ModRegistryHelper`: resolves another
    mod's API once, caches it (absence included) under the target's canonical
    id, and hands it out raw or mapped onto an interface. */
module ModHelpers {
  import opened Wrappers

  /*********
  ** Collaborators, as values
  *********/

  datatype LogLevel = Trace | Debug | Info | Warn | Error | Alert

  /** One translated message sent to the monitor: its translation key, its
      named arguments and its level. */
  datatype LogEntry = LogEntry(key: string, args: seq<(string, string)>, level: LogLevel)

  const NotReadyKey: string := "console.mod-registry-helper.access-mod-provided-api"
  const NonPublicApiKey: string := "console.mod-registry-helper.mod-api-non-public-type"
  const FailedLoadingApiKey: string := "console.mod-registry-helper.failed-loading-api-from-mod"
  const AccessedApiKey: string := "console.mod-registry-helper.access-mod-api"
  const MapToClassKey: string := "console.mod-registry-helper.mod-api-tried-to-map-type"
  const MapToNonPublicKey: string := "console.mod-registry-helper.mod-api-tried-to-map-interface"

  /** What the facade asks of a .NET type through reflection. A type is
      identified by its assembly together with its full name, so two
      interfaces with the same full name declared in two mods' assemblies are
      distinct types. */
  datatype TypeInfo = TypeInfo(assembly: string, fullName: string, isPublic: bool, isInterface: bool)

  /** A .NET object: its identity, its runtime type and every type it is an
      instance of (its class, base classes and the interfaces it implements);
      `api is TInterface` is `t in api.instanceOf`. */
  datatype ApiObject = ApiObject(id: nat, runtimeType: TypeInfo, instanceOf: set<TypeInfo>)

  /** What a mod's `GetApi(IModInfo)` entry point does when called: returns
      an object or null, or throws (summarised for the log). */
  datatype ProviderOutcome = Returns(api: Option<ApiObject>) | Throws(logSummary: string)

  /** The registry's metadata of a loaded mod: its manifest's unique id, its
      display name, its global `Api`, and its mod instance, if any, given by
      that instance's `GetApi` entry point as a function of the calling mod's
      id. */
  datatype ModMetadata = ModMetadata(
    uniqueId: string,
    displayName: string,
    api: Option<ApiObject>,
    provider: Option<string -> ProviderOutcome>)

  /** The state of the shared mod registry at the time of a call: whether
      every mod finished initialising, and the mods it resolves, by any id
      string it accepts for them. */
  datatype Registry = Registry(areAllModsInitialized: bool, mods: map<string, ModMetadata>)

  /*********
  ** The untyped call, as a function of the cache
  *********/

  /** The first resolution of a mod's raw API: the API, the log entries
      written, and whether the mod's provider was invoked. */
  datatype Resolution = Resolution(api: Option<ApiObject>, logs: seq<LogEntry>, providerInvoked: bool)

  function Resolve(mod: ModMetadata, consumerId: string): (r: Resolution)
    ensures mod.api.Some? ==> r == Resolution(mod.api, [], false)
    ensures r.providerInvoked <==> mod.api.None? && mod.provider.Some?
    ensures mod.api.None? && r.api.Some? ==> r.api.value.runtimeType.isPublic
    ensures r.providerInvoked && mod.provider.value(consumerId).Throws? ==>
      r.api.None? && r.logs == [LogEntry(FailedLoadingApiKey,
        [("LogSummary", mod.provider.value(consumerId).logSummary), ("ModDisplayName", mod.displayName)], Error)]
    ensures r.providerInvoked && mod.provider.value(consumerId).Returns? ==>
      var api := mod.provider.value(consumerId).api;
      if api.Some? && !api.value.runtimeType.isPublic
      then r.api.None? && r.logs == [LogEntry(NonPublicApiKey, [("ModDisplayName", mod.displayName)], Warn)]
      else r.api == api && r.logs == []
    ensures !r.providerInvoked ==> r.api == mod.api && r.logs == []
  {
    if mod.api.Some? then Resolution(mod.api, [], false)
    else if mod.provider.None? then Resolution(None, [], false)
    else
      match mod.provider.value(consumerId)
      case Throws(summary) =>
        Resolution(None, [LogEntry(FailedLoadingApiKey, [("LogSummary", summary), ("ModDisplayName", mod.displayName)], Error)], true)
      case Returns(api) =>
        if api.Some? && !api.value.runtimeType.isPublic
        then Resolution(None, [LogEntry(NonPublicApiKey, [("ModDisplayName", mod.displayName)], Warn)], true)
        else Resolution(api, [], true)
  }

  /** The log entry written when a first resolution produced an API. */
  function AccessedEntry(mod: ModMetadata, api: ApiObject): LogEntry {
    LogEntry(AccessedApiKey, [("ModDisplayName", mod.displayName), ("ApiName", api.runtimeType.fullName)], Trace)
  }

  /** One `GetApi` call: its result, the consumer's cache afterwards, the log
      entries written, and the canonical ids whose provider was invoked. */
  datatype Call = Call(api: Option<ApiObject>, cache: map<string, Option<ApiObject>>, logs: seq<LogEntry>, invoked: seq<string>)

  function GetApiCall(cache: map<string, Option<ApiObject>>, registry: Registry, consumerId: string, uniqueId: string): (c: Call)
    ensures !registry.areAllModsInitialized ==> c == Call(None, cache, [LogEntry(NotReadyKey, [], Error)], [])
    ensures registry.areAllModsInitialized && uniqueId !in registry.mods ==> c == Call(None, cache, [], [])
    ensures c.api.Some? ==> registry.areAllModsInitialized && uniqueId in registry.mods
    ensures registry.areAllModsInitialized && uniqueId in registry.mods ==>
      var mod := registry.mods[uniqueId];
      && mod.uniqueId in c.cache && c.api == c.cache[mod.uniqueId]
      && c.cache.Keys == cache.Keys + {mod.uniqueId}
      && (forall k :: k in cache ==> c.cache[k] == cache[k])
      && (mod.uniqueId in cache ==> c.logs == [] && c.invoked == [])
      && (mod.uniqueId !in cache ==>
            && c.api == Resolve(mod, consumerId).api
            && c.logs == Resolve(mod, consumerId).logs
                         + (if c.api.Some? then [AccessedEntry(mod, c.api.value)] else [])
            && (c.invoked == [mod.uniqueId] <==> Resolve(mod, consumerId).providerInvoked))
      && (c.invoked == [] || (c.invoked == [mod.uniqueId] && mod.uniqueId !in cache))
    ensures |c.logs| <= 1
  {
    if !registry.areAllModsInitialized then Call(None, cache, [LogEntry(NotReadyKey, [], Error)], [])
    else if uniqueId !in registry.mods then Call(None, cache, [], [])
    else
      var mod := registry.mods[uniqueId];
      if mod.uniqueId in cache then Call(cache[mod.uniqueId], cache, [], [])
      else
        var res := Resolve(mod, consumerId);
        Call(res.api, cache[mod.uniqueId := res.api],
          res.logs + (if res.api.Some? then [AccessedEntry(mod, res.api.value)] else []),
          if res.providerInvoked then [mod.uniqueId] else [])
  }

  /** A request one consumer makes: the registry state at that moment and the
      id asked for. */
  datatype Request = Request(registry: Registry, uniqueId: string)

  /** The cache and the provider invocations after a consumer's successive
      `GetApi` calls. */
  function Run(cache: map<string, Option<ApiObject>>, consumerId: string, requests: seq<Request>): (map<string, Option<ApiObject>>, seq<string>)
    decreases |requests|
  {
    if requests == [] then (cache, [])
    else
      var c := GetApiCall(cache, requests[0].registry, consumerId, requests[0].uniqueId);
      var rest := Run(c.cache, consumerId, requests[1..]);
      (rest.0, c.invoked + rest.1)
  }

  /** First observation wins: no sequence of calls changes an entry already
      in the cache. */
  lemma {:induction false} RunKeepsEntries(cache: map<string, Option<ApiObject>>, consumerId: string, requests: seq<Request>)
    ensures cache.Keys <= Run(cache, consumerId, requests).0.Keys
    ensures forall k :: k in cache ==> Run(cache, consumerId, requests).0[k] == cache[k]
    decreases |requests|
  {
    if requests != [] {
      var c := GetApiCall(cache, requests[0].registry, consumerId, requests[0].uniqueId);
      RunKeepsEntries(c.cache, consumerId, requests[1..]);
    }
  }

  /** Over any sequence of calls, a mod's provider is invoked at most once per
      consumer, never for a mod already cached, and every invoked mod ends up
      cached. */
  lemma {:induction false} ProviderInvokedAtMostOnce(cache: map<string, Option<ApiObject>>, consumerId: string, requests: seq<Request>)
    ensures var (final, invoked) := Run(cache, consumerId, requests);
      && (forall i, j :: 0 <= i < j < |invoked| ==> invoked[i] != invoked[j])
      && (forall i :: 0 <= i < |invoked| ==> invoked[i] !in cache && invoked[i] in final)
    decreases |requests|
  {
    if requests != [] {
      var c := GetApiCall(cache, requests[0].registry, consumerId, requests[0].uniqueId);
      var rest := Run(c.cache, consumerId, requests[1..]);
      ProviderInvokedAtMostOnce(c.cache, consumerId, requests[1..]);
      RunKeepsEntries(c.cache, consumerId, requests[1..]);
      var invoked := c.invoked + rest.1;
      assert forall i :: 0 <= i < |c.invoked| ==> c.invoked[i] in c.cache && c.invoked[i] !in cache;
      assert forall i :: 0 <= i < |rest.1| ==> rest.1[i] !in c.cache;
      forall i, j | 0 <= i < j < |invoked|
        ensures invoked[i] != invoked[j]
      {
        if i < |c.invoked| {
          assert invoked[j] == rest.1[j - |c.invoked|];
        } else {
          assert invoked[i] == rest.1[i - |c.invoked|] && invoked[j] == rest.1[j - |c.invoked|];
        }
      }
    }
  }

  /** Memoisation: once a call has resolved a mod, a later call for any id the
      registry maps to the same canonical id returns that same result (null
      included), writes no log and invokes no provider, however the registry
      and the mod's provider have changed in between. */
  lemma RepeatedCallIsMemoised(cache: map<string, Option<ApiObject>>, consumerId: string,
                               first: Request, between: seq<Request>, later: Request)
    requires first.registry.areAllModsInitialized && first.uniqueId in first.registry.mods
    requires later.registry.areAllModsInitialized && later.uniqueId in later.registry.mods
    requires later.registry.mods[later.uniqueId].uniqueId == first.registry.mods[first.uniqueId].uniqueId
    ensures var c1 := GetApiCall(cache, first.registry, consumerId, first.uniqueId);
      var mid := Run(c1.cache, consumerId, between).0;
      GetApiCall(mid, later.registry, consumerId, later.uniqueId) == Call(c1.api, mid, [], [])
  {
    var c1 := GetApiCall(cache, first.registry, consumerId, first.uniqueId);
    RunKeepsEntries(c1.cache, consumerId, between);
  }

  /*********
  ** The helper object
  *********/

  class ModRegistryHelper {
    /** The id of the mod that owns this helper and makes the calls. */
    const modId: string
    /** `IInterfaceProxyFactory.CreateProxy(api, sourceModID, targetModID)`
        for a requested interface: a proxy, or the exception it throws. */
    const proxyFactory: (ApiObject, TypeInfo, string, string) -> Result<ApiObject, string>
    /** `AccessedModApis`: resolved raw APIs by the target's canonical id. */
    var accessedModApis: map<string, Option<ApiObject>>
    /** What this helper has sent to its monitor, oldest first. */
    var log: seq<LogEntry>
    /** The canonical ids whose provider this helper has invoked. */
    ghost var invoked: seq<string>

    /** Each provider has been invoked at most once, and only for a mod whose
        result is now cached. */
    ghost predicate Valid()
      reads this
    {
      && (forall i, j :: 0 <= i < j < |invoked| ==> invoked[i] != invoked[j])
      && (forall i :: 0 <= i < |invoked| ==> invoked[i] in accessedModApis)
    }

    constructor (modId: string, proxyFactory: (ApiObject, TypeInfo, string, string) -> Result<ApiObject, string>)
      ensures Valid()
      ensures this.modId == modId && this.proxyFactory == proxyFactory
      ensures accessedModApis == map[] && log == [] && invoked == []
    {
      this.modId := modId;
      this.proxyFactory := proxyFactory;
      accessedModApis := map[];
      log := [];
      invoked := [];
    }

    /** `IsLoaded(uniqueID)`: whether the registry resolves the id; a mod it
        does not resolve has no API for this consumer. */
    method IsLoaded(registry: Registry, uniqueId: string) returns (loaded: bool)
      ensures loaded <==> uniqueId in registry.mods
      ensures !loaded ==> GetApiCall(accessedModApis, registry, modId, uniqueId).api.None?
    {
      loaded := uniqueId in registry.mods;
    }

    /** `GetApi(uniqueID)`. */
    method GetApi(registry: Registry, uniqueId: string) returns (api: Option<ApiObject>)
      requires Valid()
      modifies this`accessedModApis, this`log, this`invoked
      ensures Valid()
      ensures var c := GetApiCall(old(accessedModApis), registry, modId, uniqueId);
        && api == c.api
        && accessedModApis == c.cache
        && log == old(log) + c.logs
        && invoked == old(invoked) + c.invoked
    {
      // refuse while mods are still initialising
      if !registry.areAllModsInitialized {
        log := log + [LogEntry(NotReadyKey, [], Error)];
        return None;
      }

      // an id the registry does not resolve has no API
      if uniqueId !in registry.mods {
        return None;
      }
      var mod := registry.mods[uniqueId];

      // a cached result, null included, is returned as it is
      if mod.uniqueId in accessedModApis {
        api := accessedModApis[mod.uniqueId];
        return;
      }
      if mod.api.Some? {
        api := mod.api;
      } else if mod.provider.None? {
        api := None;
      } else {
        var outcome := mod.provider.value(modId);
        invoked := invoked + [mod.uniqueId];
        match outcome {
          case Returns(result) =>
            api := result;
            if api.Some? && !api.value.runtimeType.isPublic {
              api := None;
              log := log + [LogEntry(NonPublicApiKey, [("ModDisplayName", mod.displayName)], Warn)];
            }
          case Throws(summary) =>
            log := log + [LogEntry(FailedLoadingApiKey, [("LogSummary", summary), ("ModDisplayName", mod.displayName)], Error)];
            api := None;
        }
      }

      // remember the result and log a successful first access
      accessedModApis := accessedModApis[mod.uniqueId := api];
      if api.Some? {
        log := log + [AccessedEntry(mod, api.value)];
      }
    }

    /** `GetApi<TInterface>(uniqueID)`, for the requested type `t`; a
        `Failure` is an exception thrown by the proxy factory. */
    method GetApiAs(registry: Registry, uniqueId: string, t: TypeInfo) returns (r: Result<Option<ApiObject>, string>)
      requires Valid()
      modifies this`accessedModApis, this`log, this`invoked
      ensures Valid()
      ensures var c := GetApiCall(old(accessedModApis), registry, modId, uniqueId);
        && accessedModApis == c.cache
        && invoked == old(invoked) + c.invoked
        && (c.api.None? ==> r == Success(None) && log == old(log) + c.logs)
        && (c.api.Some? && !t.isInterface ==>
              r == Success(None) && log == old(log) + c.logs + [LogEntry(MapToClassKey, [("ClassName", t.fullName)], Error)])
        && (c.api.Some? && t.isInterface && !t.isPublic ==>
              r == Success(None) && log == old(log) + c.logs + [LogEntry(MapToNonPublicKey, [("InterfaceName", t.fullName)], Error)])
        && (c.api.Some? && t.isInterface && t.isPublic ==> log == old(log) + c.logs)
        && (c.api.Some? && t.isInterface && t.isPublic && t in c.api.value.instanceOf ==> r == Success(c.api))
        && (c.api.Some? && t.isInterface && t.isPublic && t !in c.api.value.instanceOf ==>
              match proxyFactory(c.api.value, t, modId, uniqueId)
              case Success(proxy) => r == Success(Some(proxy))
              case Failure(e) => r == Failure(e))
    {
      // the untyped lookup comes first
      var api := GetApi(registry, uniqueId);
      if api.None? {
        return Success(None);
      }

      // only public interfaces can be mapped onto
      if !t.isInterface {
        log := log + [LogEntry(MapToClassKey, [("ClassName", t.fullName)], Error)];
        return Success(None);
      }
      if !t.isPublic {
        log := log + [LogEntry(MapToNonPublicKey, [("InterfaceName", t.fullName)], Error)];
        return Success(None);
      }

      // an API that already implements the interface needs no proxy
      if t in api.value.instanceOf {
        return Success(api);
      }
      var proxy := proxyFactory(api.value, t, modId, uniqueId);
      match proxy {
        case Success(p) => r := Success(Some(p));
        case Failure(e) => r := Failure(e);
      }
    }
  }
}

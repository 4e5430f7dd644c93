/**
 * `HttpApiClientProxy.CreateInstance`: the memo cache from interface type to
 * proxy factory, the failure when no proxy exists, and the instantiation of
 * the proxy with the interceptor and the interface's API methods.
 */
module ProxyCache {
  import opened Wrappers
  import opened Types
  import opened ProxySearch

  /** An `IApiInterceptor`: opaque to this code, only passed through. */
  datatype Interceptor = Interceptor(id: nat)

  /** A `MethodInfo` of the interface: opaque to this code, only passed through. */
  datatype MethodInfo = MethodInfo(name: string)

  /** A proxy instance: the proxy class it is of and the two constructor arguments it received. */
  datatype HttpApiClient = HttpApiClient(proxyType: TypeDesc, interceptor: Interceptor, apiMethods: seq<MethodInfo>)

  /** The compiled constructor call `(interceptor, methods) => new proxyType(interceptor, methods)`. */
  datatype Factory = Factory(proxyType: TypeDesc)

  /** The `TypeLoadException` thrown when an interface has no proxy class; it names the interface. */
  datatype TypeLoadException = TypeLoadException(interfaceType: TypeDesc)

  /** `Lambda.CreateNewFunc`: a factory bound to the found proxy class. */
  function CreateNewFunc(proxyType: TypeDesc): Factory {
    Factory(proxyType)
  }

  /** `Func.Invoke`: construct the proxy with the two arguments. */
  function Invoke(factory: Factory, interceptor: Interceptor, apiMethods: seq<MethodInfo>): HttpApiClient {
    HttpApiClient(factory.proxyType, interceptor, apiMethods)
  }

  /**
   * The value factory handed to `GetOrAdd`: search the proxy class and bind a
   * factory to the first match in enumeration order (specialized when the
   * interface is generic), or `None` (C#'s `null`) when there is no proxy class.
   */
  function ResolveFactory(interfaceType: TypeDesc, pool: seq<TypeDesc>): (f: Option<Factory>)
    ensures f.None? <==> forall k :: 0 <= k < |pool| ==> !IsProxyType(SearchKey(interfaceType), pool[k])
    ensures f.Some? ==>
      exists k :: && FirstMatchAt(SearchKey(interfaceType), pool, k)
                  && f.value.proxyType ==
                       (if IsGenericType(interfaceType) then MakeGenericType(pool[k], interfaceType.args) else pool[k])
  {
    var proxyType := FindProxyType(interfaceType, pool);
    if proxyType.None? then None else Some(CreateNewFunc(proxyType.value))
  }

  /**
   * What `CreateInstance` does with the factory it got from the cache: a null
   * factory throws a `TypeLoadException` naming the interface, any other is
   * invoked with the interceptor and the method list.
   */
  function Instantiate(factory: Option<Factory>, interfaceType: TypeDesc, interceptor: Interceptor,
                       apiMethods: seq<MethodInfo>): (r: Result<HttpApiClient, TypeLoadException>)
    ensures r.Failure? <==> factory.None?
    ensures r.Failure? ==> r.error.interfaceType == interfaceType
    ensures r.Success? ==>
      r.value.proxyType == factory.value.proxyType && r.value.interceptor == interceptor && r.value.apiMethods == apiMethods
  {
    match factory
    case None => Failure(TypeLoadException(interfaceType))
    case Some(f) => Success(Invoke(f, interceptor, apiMethods))
  }

  /** The meaning of a `CreateInstance` call, independent of what the cache already holds. */
  function Resolve(pool: seq<TypeDesc>, apiMethods: seq<MethodInfo>, interfaceType: TypeDesc,
                   interceptor: Interceptor): Result<HttpApiClient, TypeLoadException>
  {
    Instantiate(ResolveFactory(interfaceType, pool), interfaceType, interceptor, apiMethods)
  }

  /**
   * A call fails exactly when the assembly has no proxy class for the
   * interface, and the failure names the interface; a call that succeeds
   * yields an instance of a proxy class that follows the naming convention,
   * built from the caller's interceptor and the given method list.
   */
  lemma ResolveOutcome(pool: seq<TypeDesc>, apiMethods: seq<MethodInfo>, interfaceType: TypeDesc,
                       interceptor: Interceptor)
    ensures var r := Resolve(pool, apiMethods, interfaceType, interceptor);
      && (r.Failure? <==> forall k :: 0 <= k < |pool| ==> !IsProxyType(SearchKey(interfaceType), pool[k]))
      && (r.Failure? ==> r.error == TypeLoadException(interfaceType))
      && (r.Success? ==>
            && r.value.proxyType.ns == interfaceType.ns
            && r.value.proxyType.declaring == interfaceType.declaring
            && r.value.proxyType.name == ProxyPrefix + interfaceType.name
            && r.value.interceptor == interceptor
            && r.value.apiMethods == apiMethods)
  {
  }

  /**
   * The static state of `HttpApiClientProxy`, one object for the life of the
   * process: the cache `proxyTypeFactoryCache` and, as constants, the two
   * reflection services the lookup consults.
   */
  class HttpApiClientProxy {
    /** `interfaceType.GetTypeInfo().Assembly.GetTypes()`: the types of the interface's assembly, in enumeration order. */
    const assemblyTypes: TypeDesc -> seq<TypeDesc>
    /** `interfaceType.GetAllApiMethods()`: the interface's API methods. */
    const getAllApiMethods: TypeDesc -> seq<MethodInfo>
    /** Interface type to factory; `None` is a cached `null`. */
    var proxyTypeFactoryCache: map<TypeDesc, Option<Factory>>
    /** The interface types the value factory has run for, in order. */
    ghost var searched: seq<TypeDesc>

    /**
     * Every entry is the factory the search yields for its key, and the
     * search has run once for each key and never twice for one.
     */
    ghost predicate Valid()
      reads this
    {
      && (forall t :: t in proxyTypeFactoryCache ==>
            proxyTypeFactoryCache[t] == ResolveFactory(t, assemblyTypes(t)))
      && (forall t :: t in proxyTypeFactoryCache <==> t in searched)
      && (forall j, k :: 0 <= j < k < |searched| ==> searched[j] != searched[k])
    }

    constructor (assemblyTypes: TypeDesc -> seq<TypeDesc>, getAllApiMethods: TypeDesc -> seq<MethodInfo>)
      ensures Valid()
      ensures this.assemblyTypes == assemblyTypes && this.getAllApiMethods == getAllApiMethods
      ensures proxyTypeFactoryCache == map[] && searched == []
    {
      this.assemblyTypes := assemblyTypes;
      this.getAllApiMethods := getAllApiMethods;
      proxyTypeFactoryCache := map[];
      searched := [];
    }

    /**
     * `proxyTypeFactoryCache.GetOrAdd(interfaceType, …)`: an existing entry is
     * returned as it is; on a miss the search runs and its result is stored.
     * No other entry changes.
     */
    method GetOrAdd(interfaceType: TypeDesc) returns (factory: Option<Factory>)
      requires Valid()
      modifies this
      ensures Valid()
      ensures interfaceType in old(proxyTypeFactoryCache) ==>
        && proxyTypeFactoryCache == old(proxyTypeFactoryCache)
        && searched == old(searched)
        && factory == old(proxyTypeFactoryCache)[interfaceType]
      ensures interfaceType !in old(proxyTypeFactoryCache) ==>
        && proxyTypeFactoryCache == old(proxyTypeFactoryCache)[interfaceType := factory]
        && searched == old(searched) + [interfaceType]
      ensures factory == ResolveFactory(interfaceType, assemblyTypes(interfaceType))
    {
      if interfaceType in proxyTypeFactoryCache {
        factory := proxyTypeFactoryCache[interfaceType];
      } else {
        factory := ResolveFactory(interfaceType, assemblyTypes(interfaceType));
        proxyTypeFactoryCache := proxyTypeFactoryCache[interfaceType := factory];
        searched := searched + [interfaceType];
      }
    }

    /**
     * `CreateInstance`: get or add the factory, throw when it is null,
     * otherwise invoke it with the interceptor and the method list obtained
     * for this call. The result is the one `Resolve` gives, whatever the
     * cache held before.
     */
    method CreateInstance(interfaceType: TypeDesc, interceptor: Interceptor)
      returns (r: Result<HttpApiClient, TypeLoadException>)
      requires Valid()
      modifies this
      ensures Valid()
      ensures interfaceType in old(proxyTypeFactoryCache) ==>
        proxyTypeFactoryCache == old(proxyTypeFactoryCache) && searched == old(searched)
      ensures interfaceType !in old(proxyTypeFactoryCache) ==>
        && proxyTypeFactoryCache ==
             old(proxyTypeFactoryCache)[interfaceType := ResolveFactory(interfaceType, assemblyTypes(interfaceType))]
        && searched == old(searched) + [interfaceType]
      ensures r == Resolve(assemblyTypes(interfaceType), getAllApiMethods(interfaceType), interfaceType, interceptor)
    {
      var proxyTypeFactory := GetOrAdd(interfaceType);
      if proxyTypeFactory.None? {
        return Failure(TypeLoadException(interfaceType));
      }
      var apiMethods := getAllApiMethods(interfaceType);
      r := Success(Invoke(proxyTypeFactory.value, interceptor, apiMethods));
    }
  }
}

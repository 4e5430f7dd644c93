# WebApiClient AOT proxy lookup, modelled in Dafny

In an ahead-of-time build, WebApiClient does not emit proxy classes at run time.
A code generator puts, next to each HTTP API interface `N.IFoo`, a proxy class `N.$IFoo`
in the same assembly. `HttpApiClientProxy.CreateInstance` finds that class by a naming
convention and binds a constructor factory to it. It caches the factory per interface type
and then builds the proxy from an interceptor and the interface's API methods.
This project models that lookup and proves what it promises:

- `wrappers.dfy`: `Option` stands for a nullable reference and `Result` for a call that may throw.
- `types.dfy`: runtime types reduced to the identity fields the lookup reads. These are the
  namespace, the declaring type, the simple name, the generic arity and the bound
  arguments. The module also gives the two reflection operations the lookup uses:
  `GetGenericTypeDefinition` and `MakeGenericType`.
- `proxy_search.dfy`: the naming convention `IsProxyType`, the first-match scan `FirstMatch`
  (with `FirstOrDefault`, the same scan written as a loop) and the generic-aware
  `FindProxyType`.
- `proxy_cache.dfy`: the static state of `HttpApiClientProxy` as a class. The class has the
  map field `proxyTypeFactoryCache`, a get-or-add that runs the search only on a miss, and
  `CreateInstance`. `CreateInstance` throws `TypeLoadException` for a null factory and
  otherwise invokes the factory.
- `scenarios.dfy`: two worked uses. The first is a proxy class with the right name in the
  wrong namespace. The second resolves two specializations of one generic interface.

Type identity is structural: two descriptors are the same type exactly when they are equal.
The types of the interface's assembly and `GetAllApiMethods` are reflection services. Each
one is a function-valued constant of the cache object, fixed when the object is built.

The generator's naming is followed as .NET reports it. The `Name` of a generic type
carries its arity suffix, so the open proxy of ``IOrder`1`` is ``$IOrder`1``.

Two behaviours of the code are modelled as written:
- A failed search is cached. The value factory returns `null` when no proxy exists
  (`HttpApiClientProxy.AOT.cs`, lines 35-38) and `GetOrAdd` stores what the factory returns. A later call for the
  same interface therefore fails without searching again.
- The candidate's genericity is not checked (`HttpApiClientProxy.AOT.cs`, lines 79-94). For a generic interface, any type
  that meets the naming convention against the open definition is taken and specialized.

## Model

| member | source | states |
|---|---|---|
| Types.DefinitionRoundTrip | WebApiClient/Internal/HttpApiClientProxy.AOT.cs:67-69 | the definition of a generic type is open and idempotent, and specializing it with the type's own arguments gives the type back |
| ProxySearch.IsProxyType | WebApiClient/Internal/HttpApiClientProxy.AOT.cs:79-94 | the convention as the code tests it: a namespace mismatch and then a declaring-type mismatch reject before the name `"$" + interfaceType.Name` is compared; its meaning is stated by `IsProxyTypeIff` |
| ProxySearch.IsProxyTypeIff | WebApiClient/Internal/HttpApiClientProxy.AOT.cs:79-94 | a type is the proxy exactly when namespace and declaring type are equal and its name is `$` followed by the interface's name, character by character |
| ProxySearch.ForeignNamespaceRejected | WebApiClient/Internal/HttpApiClientProxy.AOT.cs:81-84 | a type with the convention's name in another namespace is rejected |
| ProxySearch.ForeignDeclaringTypeRejected | WebApiClient/Internal/HttpApiClientProxy.AOT.cs:86-89 | a type with the convention's name nested in another declaring type (or nested where the interface is not) is rejected |
| ProxySearch.NeverOwnProxy | WebApiClient/Internal/HttpApiClientProxy.AOT.cs:91-93 | no type is its own proxy |
| ProxySearch.ProxyOfOneInterface | WebApiClient/Internal/HttpApiClientProxy.AOT.cs:91-93 | two interfaces with a common proxy agree on namespace, declaring type and name |
| ProxySearch.FirstMatch | WebApiClient/Internal/HttpApiClientProxy.AOT.cs:63 | the result is none exactly when no type of the pool matches, and otherwise the element at the first matching index |
| ProxySearch.FirstOrDefault | WebApiClient/Internal/HttpApiClientProxy.AOT.cs:63 | the enumerating loop that stops at the first match returns what `FirstMatch` specifies |
| ProxySearch.FirstMatchAtUnique | WebApiClient/Internal/HttpApiClientProxy.AOT.cs:63 | the first matching index is unique |
| ProxySearch.FirstMatchAppend | WebApiClient/Internal/HttpApiClientProxy.AOT.cs:63 | types enumerated after a match never change the result; when the front has no match, the result is the back's |
| ProxySearch.UniqueCandidateFound | WebApiClient/Internal/HttpApiClientProxy.AOT.cs:63 | a pool with exactly one proxy of the key yields that proxy, wherever it stands |
| ProxySearch.SearchKey | WebApiClient/Internal/HttpApiClientProxy.AOT.cs:61-67 | the key keeps the interface's identity fields; a generic interface is collapsed to its open definition and a non-generic one is its own key |
| ProxySearch.FindProxyType | WebApiClient/Internal/HttpApiClientProxy.AOT.cs:58-71 | none exactly when nothing matches the key; a non-generic interface gets the first match itself; a generic one gets the first match against its definition, specialized with its arguments; every result has the interface's namespace and declaring type and the prefixed name |
| ProxySearch.GenericProxySpecialized | WebApiClient/Internal/HttpApiClientProxy.AOT.cs:67-69 | the proxy found for a generic interface carries exactly the interface's type arguments |
| ProxySearch.SpecializationsShareSearch | WebApiClient/Internal/HttpApiClientProxy.AOT.cs:67-69 | two specializations of one open interface both find a proxy or neither does, and their proxies are equal exactly when their arguments are |
| ProxyCache.ResolveFactory | WebApiClient/Internal/HttpApiClientProxy.AOT.cs:32-40 | the value factory returns null exactly when no type matches the search key, and otherwise a factory bound to the first matching type in enumeration order, specialized with the interface's arguments when the interface is generic |
| ProxyCache.Instantiate | WebApiClient/Internal/HttpApiClientProxy.AOT.cs:42-49 | a null factory throws `TypeLoadException` naming the interface; any other factory yields an instance of its proxy type built from the given interceptor and method list |
| ProxyCache.ResolveOutcome | WebApiClient/Internal/HttpApiClientProxy.AOT.cs:30-50 | a call fails exactly when no proxy exists, and the failure names the interface; a success is an instance of a conventionally named proxy with the caller's interceptor and the interface's methods |
| ProxyCache.HttpApiClientProxy.constructor | WebApiClient/Internal/HttpApiClientProxy.AOT.cs:21 | the cache starts empty, and no search has run |
| ProxyCache.HttpApiClientProxy.GetOrAdd | WebApiClient/Internal/HttpApiClientProxy.AOT.cs:32-40 | a hit returns the stored entry and changes nothing; a miss runs the search once and adds only that key; the cache invariant (each entry is its key's search result, each key searched once) is kept |
| ProxyCache.HttpApiClientProxy.CreateInstance | WebApiClient/Internal/HttpApiClientProxy.AOT.cs:30-50 | the result equals the cache-free meaning `Resolve` whatever the cache held; the cache gains at most this key and no other entry changes; the method list is taken for the requested interface at each call |
| Scenarios.NamespaceScenario | WebApiClient/Internal/HttpApiClientProxy.AOT.cs:30-50 | `N.IOrder` with only `M.$IOrder` present fails naming `N.IOrder`; with `N.$IOrder` present it yields that class |
| Scenarios.OrderAssemblyResolves | WebApiClient/Internal/HttpApiClientProxy.AOT.cs:58-71 | in an assembly holding `N.$IOrder<T>`, `N.IOrder<T>` with any type arguments resolves to `N.$IOrder<T>` specialized with the same arguments |
| Scenarios.SpecializationScenario | WebApiClient/Internal/HttpApiClientProxy.AOT.cs:30-50 | resolving `N.IOrder<Invoice>`, `N.IOrder<Payment>`, `N.IOrder<Invoice>` gives instances of two different proxy classes; the third call reuses the first call's cache entry, so two entries and two searches remain, and it yields an instance equivalent to the first |

## Left out

- Thread safety and single-flight behaviour of `ConcurrentCache`: the cache class is not part of this model. Its get-or-add is modelled sequentially: a miss runs the value factory and stores its result, a null result included.
- The argument-count and constraint checks of `MakeGenericType`, and the exception they throw: specialization is a total substitution of the type arguments.
- `Lambda.CreateNewFunc`: expression compilation and the constructor lookup against `proxyTypeCtorArgTypes` (line 16) are not modelled, and neither is the exception thrown when no such constructor exists. The factory is a value bound to the found proxy type, and invoking it records the two constructor arguments.
- `GetAllApiMethods` and `Assembly.GetTypes()`: reflection services, passed to the cache object as functions. The order of `GetTypes()` is taken as given.
- The text of the `TypeLoadException` message (assembly name and version): the model records only that the exception names the interface type.
- Type identity across assemblies: two structurally equal descriptors are one type here, which holds within one assembly.
- The `#if AOT` conditional compilation.
- HttpApiClient: proxy instances are values, not objects, so object identity is not modelled. In the code every call constructs a new object (`HttpApiClientProxy.AOT.cs`, line 49); here two calls with the same factory and arguments give equal values.
- Scenarios.SpecializationScenario: its `invoice2 == invoice1` is equality of values. In the code the third call returns a new object that is equivalent to the first, not the same object. What the cache promises, reuse of the first call's entry without a second search, is stated by its search count.

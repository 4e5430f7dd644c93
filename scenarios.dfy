/**
 * Worked uses of the proxy lookup: a wrong-namespace candidate, and two
 * specializations of one generic interface resolved in sequence.
 */
module Scenarios {
  import opened Wrappers
  import opened Types
  import opened ProxySearch
  import opened ProxyCache

  /** The interface `N.IOrder`, non-generic. */
  function Order(): TypeDesc {
    TypeDesc(Some("N"), None, "IOrder", 0, [])
  }

  /**
   * `N.IOrder` against an assembly holding only `M.$IOrder` fails naming
   * `N.IOrder`; against one that also holds `N.$IOrder` it finds that class.
   */
  method NamespaceScenario() returns (wrong: Result<HttpApiClient, TypeLoadException>,
                                      right: Result<HttpApiClient, TypeLoadException>)
    ensures wrong == Failure(TypeLoadException(Order()))
    ensures right.Success? && right.value.proxyType == TypeDesc(Some("N"), None, "$IOrder", 0, [])
  {
    var foreign := TypeDesc(Some("M"), None, "$IOrder", 0, []);
    var own := TypeDesc(Some("N"), None, "$IOrder", 0, []);
    var methods := (t: TypeDesc) => [];
    var interceptor := Interceptor(0);

    var p1 := new HttpApiClientProxy((t: TypeDesc) => [Order(), foreign], methods);
    ForeignNamespaceRejected(Order(), foreign);
    wrong := p1.CreateInstance(Order(), interceptor);

    var pool := [Order(), foreign, own];
    var p2 := new HttpApiClientProxy((t: TypeDesc) => pool, methods);
    assert own.name == ProxyPrefix + Order().name;
    NeverOwnProxy(Order());
    UniqueCandidateFound(Order(), pool, 2);
    right := p2.CreateInstance(Order(), interceptor);
  }

  /** The open interface `N.IOrder<T>`, metadata name ``IOrder`1``. */
  function OpenOrder(): TypeDesc {
    TypeDesc(Some("N"), None, "IOrder`1", 1, [])
  }

  /** The open generated proxy `N.$IOrder<T>`. */
  function OpenOrderProxy(): TypeDesc {
    TypeDesc(Some("N"), None, "$IOrder`1", 1, [])
  }

  /** `N.IOrder<T>` closed over the non-generic type `N.<name>`. */
  function OrderOf(name: string): TypeDesc {
    MakeGenericType(OpenOrder(), [TypeDesc(Some("N"), None, name, 0, [])])
  }

  /** An assembly with two payload types, the open interface and its proxy. */
  function OrderAssembly(): seq<TypeDesc> {
    [TypeDesc(Some("N"), None, "Invoice", 0, []), TypeDesc(Some("N"), None, "Payment", 0, []), OpenOrder(), OpenOrderProxy()]
  }

  /**
   * Every `N.IOrder<T>`, whatever its arguments, resolves in that assembly to
   * `N.$IOrder<T>` specialized with the same arguments.
   */
  lemma OrderAssemblyResolves(args: seq<TypeDesc>)
    ensures ResolveFactory(MakeGenericType(OpenOrder(), args), OrderAssembly()) ==
      Some(Factory(MakeGenericType(OpenOrderProxy(), args)))
  {
    var pool := OrderAssembly();
    assert OpenOrderProxy().name == ProxyPrefix + OpenOrder().name;
    assert pool[0].name[0] != (ProxyPrefix + OpenOrder().name)[0];
    assert pool[1].name[0] != (ProxyPrefix + OpenOrder().name)[0];
    NeverOwnProxy(OpenOrder());
    UniqueCandidateFound(OpenOrder(), pool, 3);
    assert SearchKey(MakeGenericType(OpenOrder(), args)) == OpenOrder();
  }

  /**
   * Resolving `T = Invoice`, then `T = Payment`, then `T = Invoice` again:
   * the first two give instances of two different proxy classes, the third
   * reuses the first call's cache entry without searching again and gives
   * an equivalent instance. Two entries and two searches remain.
   */
  method SpecializationScenario() returns (invoice1: Result<HttpApiClient, TypeLoadException>,
                                           payment: Result<HttpApiClient, TypeLoadException>,
                                           invoice2: Result<HttpApiClient, TypeLoadException>,
                                           entries: nat, ghost searches: nat)
    ensures invoice1.Success? && payment.Success? && invoice2.Success?
    ensures invoice1.value.proxyType != payment.value.proxyType
    ensures invoice2 == invoice1
    ensures entries == 2 && searches == 2
  {
    var pool := OrderAssembly();
    var proxy := new HttpApiClientProxy((t: TypeDesc) => pool, (t: TypeDesc) => []);
    var interceptor := Interceptor(7);
    OrderAssemblyResolves(OrderOf("Invoice").args);
    OrderAssemblyResolves(OrderOf("Payment").args);
    var invoiceOrder, paymentOrder := OrderOf("Invoice"), OrderOf("Payment");
    assert invoiceOrder != paymentOrder by {
      assert invoiceOrder.args[0].name != paymentOrder.args[0].name;
    }
    invoice1 := proxy.CreateInstance(invoiceOrder, interceptor);
    ghost var log1 := proxy.searched;
    assert |log1| == 1;
    payment := proxy.CreateInstance(paymentOrder, interceptor);
    ghost var log2 := proxy.searched;
    assert |log2| == 2;
    invoice2 := proxy.CreateInstance(invoiceOrder, interceptor);
    entries := |proxy.proxyTypeFactoryCache.Keys|;
    searches := |proxy.searched|;
  }
}

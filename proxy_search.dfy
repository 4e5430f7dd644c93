/**
 * The search for the generated proxy class of an HTTP API interface:
 * the naming convention (`IsProxyType`), the first-match scan of the
 * assembly's types (`FirstOrDefault`) and the generic-aware lookup
 * (`FindProxyType`).
 */
module ProxySearch {
  import opened Wrappers
  import opened Types

  /** The prefix the code generator puts in front of the interface's name. */
  const ProxyPrefix: string := "$"

  /**
   * Whether `target` is the proxy class of `interfaceType`: it lives in the
   * same namespace, is nested in the same declaring type (or neither is
   * nested), and its name is the interface's name behind the prefix. Each
   * mismatch is rejected before the name is compared.
   */
  predicate IsProxyType(interfaceType: TypeDesc, target: TypeDesc) {
    if target.ns != interfaceType.ns then false
    else if target.declaring != interfaceType.declaring then false
    else target.name == ProxyPrefix + interfaceType.name
  }

  /** The three conditions together are exactly the convention, the name compared character by character. */
  lemma IsProxyTypeIff(interfaceType: TypeDesc, target: TypeDesc)
    ensures IsProxyType(interfaceType, target) <==>
      && target.ns == interfaceType.ns
      && target.declaring == interfaceType.declaring
      && |target.name| == |interfaceType.name| + 1
      && target.name[0] == '$'
      && target.name[1..] == interfaceType.name
  {
  }

  /** A class with the convention's name in another namespace is not the proxy. */
  lemma ForeignNamespaceRejected(interfaceType: TypeDesc, target: TypeDesc)
    requires target.name == ProxyPrefix + interfaceType.name
    requires target.ns != interfaceType.ns
    ensures !IsProxyType(interfaceType, target)
  {
  }

  /** A class with the convention's name nested elsewhere is not the proxy. */
  lemma ForeignDeclaringTypeRejected(interfaceType: TypeDesc, target: TypeDesc)
    requires target.name == ProxyPrefix + interfaceType.name
    requires target.declaring != interfaceType.declaring
    ensures !IsProxyType(interfaceType, target)
  {
  }

  /** A type is never its own proxy: the prefix makes the name longer. */
  lemma NeverOwnProxy(t: TypeDesc)
    ensures !IsProxyType(t, t)
  {
  }

  /**
   * A class is the proxy of at most one interface name: two interfaces that
   * share a proxy agree on namespace, declaring type and name.
   */
  lemma {:induction false} ProxyOfOneInterface(i1: TypeDesc, i2: TypeDesc, target: TypeDesc)
    requires IsProxyType(i1, target) && IsProxyType(i2, target)
    ensures i1.ns == i2.ns && i1.declaring == i2.declaring && i1.name == i2.name
  {
    assert i1.name == (ProxyPrefix + i1.name)[1..];
    assert i2.name == (ProxyPrefix + i2.name)[1..];
  }

  /** Index `k` holds the first type of `pool` that is the proxy of `key`. */
  ghost predicate FirstMatchAt(key: TypeDesc, pool: seq<TypeDesc>, k: int) {
    && 0 <= k < |pool|
    && IsProxyType(key, pool[k])
    && forall j :: 0 <= j < k ==> !IsProxyType(key, pool[j])
  }

  /**
   * `pool.FirstOrDefault(item => IsProxyType(key, item))`: the first type in
   * enumeration order that satisfies the convention, or `None` if none does.
   */
  function FirstMatch(key: TypeDesc, pool: seq<TypeDesc>): (r: Option<TypeDesc>)
    ensures r.None? <==> forall k :: 0 <= k < |pool| ==> !IsProxyType(key, pool[k])
    ensures r.Some? ==> exists k :: FirstMatchAt(key, pool, k) && pool[k] == r.value
    decreases |pool|
  {
    if pool == [] then None
    else if IsProxyType(key, pool[0]) then
      assert FirstMatchAt(key, pool, 0);
      Some(pool[0])
    else
      var rest := FirstMatch(key, pool[1..]);
      assert forall k :: 1 <= k < |pool| ==> pool[k] == pool[1..][k - 1];
      assert rest.Some? ==> exists k :: FirstMatchAt(key, pool, k) && pool[k] == rest.value by {
        if rest.Some? {
          var k :| FirstMatchAt(key, pool[1..], k) && pool[1..][k] == rest.value;
          assert FirstMatchAt(key, pool, k + 1);
        }
      }
      rest
  }

  /** The scan as the enumerator runs it: a loop that stops at the first match. */
  method FirstOrDefault(key: TypeDesc, pool: seq<TypeDesc>) returns (r: Option<TypeDesc>)
    ensures r == FirstMatch(key, pool)
  {
    r := None;
    var n := 0;
    while n < |pool|
      invariant 0 <= n <= |pool|
      invariant FirstMatch(key, pool) == FirstMatch(key, pool[n..])
    {
      if IsProxyType(key, pool[n]) {
        r := Some(pool[n]);
        return;
      }
      assert pool[n..][1..] == pool[n + 1..];
      n := n + 1;
    }
  }

  /** At most one index is the first match. */
  lemma FirstMatchAtUnique(key: TypeDesc, pool: seq<TypeDesc>, k1: int, k2: int)
    requires FirstMatchAt(key, pool, k1) && FirstMatchAt(key, pool, k2)
    ensures k1 == k2
  {
  }

  /**
   * Types enumerated after a match never change the result; when the first
   * part has no match, the result is that of the rest.
   */
  lemma {:induction false} FirstMatchAppend(key: TypeDesc, front: seq<TypeDesc>, back: seq<TypeDesc>)
    ensures FirstMatch(key, front + back) ==
      if FirstMatch(key, front).Some? then FirstMatch(key, front) else FirstMatch(key, back)
    decreases |front|
  {
    if front == [] {
      assert front + back == back;
    } else {
      assert (front + back)[1..] == front[1..] + back;
      FirstMatchAppend(key, front[1..], back);
    }
  }

  /** A pool holding exactly one proxy class of `key` yields that class. */
  lemma UniqueCandidateFound(key: TypeDesc, pool: seq<TypeDesc>, k: int)
    requires 0 <= k < |pool| && IsProxyType(key, pool[k])
    requires forall j :: 0 <= j < |pool| && j != k ==> !IsProxyType(key, pool[j])
    ensures FirstMatch(key, pool) == Some(pool[k])
  {
  }

  /**
   * The key the scan matches against: a generic interface is collapsed to
   * its open definition, any other interface is its own key.
   */
  function SearchKey(interfaceType: TypeDesc): (key: TypeDesc)
    ensures key.ns == interfaceType.ns && key.declaring == interfaceType.declaring
    ensures key.name == interfaceType.name && key.arity == interfaceType.arity
    ensures IsGenericType(interfaceType) ==> IsGenericTypeDefinition(key)
    ensures !IsGenericType(interfaceType) ==> key == interfaceType
  {
    if IsGenericType(interfaceType) then GetGenericTypeDefinition(interfaceType) else interfaceType
  }

  /**
   * `FindProxyType`: a non-generic interface takes the first matching type
   * as it is; a generic one matches its open definition and the match is
   * specialized with the interface's type arguments.
   */
  function FindProxyType(interfaceType: TypeDesc, pool: seq<TypeDesc>): (r: Option<TypeDesc>)
    ensures r.None? <==> forall k :: 0 <= k < |pool| ==> !IsProxyType(SearchKey(interfaceType), pool[k])
    ensures r.Some? && !IsGenericType(interfaceType) ==>
      exists k :: FirstMatchAt(interfaceType, pool, k) && r.value == pool[k]
    ensures r.Some? && IsGenericType(interfaceType) ==>
      exists k :: FirstMatchAt(GetGenericTypeDefinition(interfaceType), pool, k)
        && r.value == MakeGenericType(pool[k], interfaceType.args)
    ensures r.Some? ==>
      && r.value.ns == interfaceType.ns
      && r.value.declaring == interfaceType.declaring
      && r.value.name == ProxyPrefix + interfaceType.name
  {
    if !IsGenericType(interfaceType) then
      FirstMatch(interfaceType, pool)
    else
      var definition := GetGenericTypeDefinition(interfaceType);
      match FirstMatch(definition, pool)
      case None => None
      case Some(targetType) => Some(MakeGenericType(targetType, interfaceType.args))
  }

  /** The proxy of a generic interface carries exactly the interface's type arguments. */
  lemma GenericProxySpecialized(interfaceType: TypeDesc, pool: seq<TypeDesc>)
    requires IsGenericType(interfaceType)
    requires FindProxyType(interfaceType, pool).Some?
    ensures FindProxyType(interfaceType, pool).value.args == interfaceType.args
  {
  }

  /**
   * Two specializations of one open interface are matched against the same
   * key: both find a proxy or neither does, and when they do the two proxies
   * differ exactly where the interfaces' arguments differ.
   */
  lemma SpecializationsShareSearch(i1: TypeDesc, i2: TypeDesc, pool: seq<TypeDesc>)
    requires IsGenericType(i1) && IsGenericType(i2)
    requires GetGenericTypeDefinition(i1) == GetGenericTypeDefinition(i2)
    ensures FindProxyType(i1, pool).Some? <==> FindProxyType(i2, pool).Some?
    ensures FindProxyType(i1, pool).Some? ==>
      (FindProxyType(i1, pool) == FindProxyType(i2, pool) <==> i1.args == i2.args)
  {
  }
}

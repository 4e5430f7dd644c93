/**
 * Abstract descriptors of the .NET types that the proxy lookup inspects
 * through reflection. Only the identity fields the lookup reads are kept.
 */
module Types {
  import opened Wrappers

  /**
   * A runtime type as the lookup sees it.
   *  - `ns`: `Type.Namespace`, `None` for the global namespace;
   *  - `declaring`: `Type.DeclaringType`, `None` for a top-level type;
   *  - `name`: `Type.Name`, the simple name without namespace;
   *  - `arity`: the number of generic parameters, 0 for a non-generic type;
   *  - `args`: `Type.GenericTypeArguments`, empty for a non-generic type and
   *    for an open generic definition, the bound arguments for a closed one.
   * Two descriptors denote the same type exactly when they are equal.
   */
  datatype TypeDesc = TypeDesc(
    ns: Option<string>,
    declaring: Option<TypeDesc>,
    name: string,
    arity: nat,
    args: seq<TypeDesc>)

  /** `Type.GetTypeInfo().IsGenericType`: open definitions and closed constructions alike. */
  predicate IsGenericType(t: TypeDesc) {
    t.arity > 0
  }

  /** An open generic definition: generic with no bound arguments. */
  predicate IsGenericTypeDefinition(t: TypeDesc) {
    IsGenericType(t) && t.args == []
  }

  /**
   * `Type.GetGenericTypeDefinition()`: the open definition a generic type is
   * built from. It keeps the identity fields and drops the bound arguments.
   */
  function GetGenericTypeDefinition(t: TypeDesc): TypeDesc
    requires IsGenericType(t)
  {
    t.(args := [])
  }

  /**
   * `Type.MakeGenericType(typeArguments)`: the definition specialized with
   * the given arguments. The arity and constraint checks of the runtime are
   * not modelled.
   */
  function MakeGenericType(definition: TypeDesc, typeArguments: seq<TypeDesc>): TypeDesc {
    definition.(args := typeArguments)
  }

  /**
   * The definition of a generic type is an open definition with the same
   * identity, and specializing it with the type's own arguments gives the
   * type back.
   */
  lemma DefinitionRoundTrip(t: TypeDesc)
    requires IsGenericType(t)
    ensures IsGenericTypeDefinition(GetGenericTypeDefinition(t))
    ensures GetGenericTypeDefinition(GetGenericTypeDefinition(t)) == GetGenericTypeDefinition(t)
    ensures MakeGenericType(GetGenericTypeDefinition(t), t.args) == t
  {
  }
}

/** The signature records of src/types.rs: plain values with no behaviour. */
module Types {

  import opened Wrappers
  import opened RubyAst

  /** A type expression, kept as the tree node that spells it. */
  datatype Type = Type(node: Node)

  /** A parsed `sig { ... }` block: parameter types and an optional return type. */
  datatype Sig = Sig(params: seq<Type>, returnType: Option<Type>)
}

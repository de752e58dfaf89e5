/**
 * The part of the parsed Ruby syntax tree that the definitions walker
 * inspects. The tree comes from an external parser (lib_ruby_parser); the
 * walker only reads it. The node kinds the walker switches over are kept,
 * with `Sym` and `Const` as argument nodes; every other kind is folded into
 * `Other`. A few fields the walker never reads (a class's superclass, a
 * method's name and body, a singleton method's receiver, a constant
 * assignment's scope and value, a send's receiver) are kept so that nodes
 * can be told apart; source locations, `def` argument lists and the like
 * are dropped.
 */
module RubyAst {

  import opened Wrappers

  datatype Node =
    | Module(name: Node, body: Option<Node>)
    | Class(name: Node, superclass: Option<Node>, body: Option<Node>)
    | Def(ident: string, body: Option<Node>)
    | Defs(definee: Node, ident: string, body: Option<Node>)
    | Casgn(scope: Option<Node>, ident: string, value: Option<Node>)
    | Send(recv: Option<Node>, methodName: string, args: seq<Node>)
    | Sym(ident: string)
    | Const(scope: Option<Node>, ident: string)
    | Begin(statements: seq<Node>)
    | Block(call: Node, body: Option<Node>)
    | Other
}

/** The syntax tree handed to the compiler: a node kind plus a bag of
    string metadata set by whatever built the tree. */
module Ast {

  /** The node variants. A `Number` keeps the text Rust's `{}` formatting
      gives for its `f64` value; the float itself is not modelled. */
  datatype NodeKind =
    | Identifier(name: string)
    | Number(text: string)
    | BinaryOp(op: string, left: Node, right: Node)
    | Function(name: string, args: seq<string>, body: seq<Node>)
    | Unknown

  datatype Node = Node(kind: NodeKind, meta: map<string, string>)

  /** `Node::new`: a node of the given kind with no metadata. */
  function NewNode(kind: NodeKind): (n: Node)
    ensures n.kind == kind && n.meta.Keys == {}
  {
    Node(kind, map[])
  }

  /** `node.meta.get(key) == Some(&"true".into())`: a missing key is not set. */
  predicate Flag(node: Node, key: string) {
    key in node.meta && node.meta[key] == "true"
  }
}

/** `SemanticEngine`: a one-line label and type tags for a node. */
module Semantics {
  import opened Ast

  datatype SemanticInfo = SemanticInfo(meaning: string, types: seq<string>)

  /** `SemanticEngine::analyze`: total over the node kinds, at most one tag,
      and no tag exactly for `Unknown`. */
  function Analyze(node: Node): (info: SemanticInfo)
    ensures |info.types| <= 1
    ensures info.types == [] <==> node.kind.Unknown?
    ensures node.kind.Unknown? ==> info.meaning == "unknown"
    ensures node.kind.Number? ==> info.meaning == "number literal"
    ensures info.types == ["dynamic"] <==> node.kind.Identifier?
    ensures info.types == ["fn"] <==> node.kind.Function?
    ensures info.types == ["number"] <==> node.kind.Number? || node.kind.BinaryOp?
  {
    match node.kind
    case Identifier(x) => SemanticInfo("identifier '" + x + "'", ["dynamic"])
    case Number(_) => SemanticInfo("number literal", ["number"])
    case BinaryOp(op, _, _) => SemanticInfo("binary op '" + op + "'", ["number"])
    case Function(name, _, _) => SemanticInfo("function '" + name + "'", ["fn"])
    case Unknown => SemanticInfo("unknown", [])
  }

  /** What of a node its meaning depends on: the variant and the quoted text. */
  datatype Label =
    | IdentifierLabel(name: string)
    | NumberLabel
    | OpLabel(op: string)
    | FunctionLabel(name: string)
    | UnknownLabel
    | Unrecognised  // text no node's meaning takes

  function LabelOf(kind: NodeKind): Label {
    match kind
    case Identifier(x) => IdentifierLabel(x)
    case Number(_) => NumberLabel
    case BinaryOp(op, _, _) => OpLabel(op)
    case Function(name, _, _) => FunctionLabel(name)
    case Unknown => UnknownLabel
  }

  /** Reads a meaning back into the label it was made from. */
  function ParseMeaning(m: string): (l: Label)
  {
    if m == "number literal" then NumberLabel
    else if m == "unknown" then UnknownLabel
    else if |m| >= 13 && m[..12] == "identifier '" && m[|m| - 1] == '\'' then IdentifierLabel(m[12..|m| - 1])
    else if |m| >= 12 && m[..11] == "binary op '" && m[|m| - 1] == '\'' then OpLabel(m[11..|m| - 1])
    else if |m| >= 11 && m[..10] == "function '" && m[|m| - 1] == '\'' then FunctionLabel(m[10..|m| - 1])
    else Unrecognised
  }

  /** The meaning text loses nothing of the label: parsing it back gives the
      variant and the identifier, operator or function name. */
  lemma MeaningRoundTrip(node: Node)
    ensures ParseMeaning(Analyze(node).meaning) == LabelOf(node.kind)
  {
    var m := Analyze(node).meaning;
    match node.kind
    case Identifier(x) =>
      assert m[..12] == "identifier '" && m[12..|m| - 1] == x;
      assert m != "number literal" && m != "unknown" by { assert m[0] == 'i'; }
    case BinaryOp(op, _, _) =>
      assert m[..11] == "binary op '" && m[11..|m| - 1] == op;
      assert m != "number literal" && m != "unknown" by { assert m[0] == 'b'; }
      assert |m| >= 13 ==> m[..12] != "identifier '" by { assert m[0] == 'b'; }
    case Function(name, _, _) =>
      assert m[..10] == "function '" && m[10..|m| - 1] == name;
      assert m != "number literal" && m != "unknown" by { assert m[0] == 'f'; }
      assert |m| >= 13 ==> m[..12] != "identifier '" by { assert m[0] == 'f'; }
      assert |m| >= 12 ==> m[..11] != "binary op '" by { assert m[0] == 'f'; }
    case Number(_) =>
    case Unknown =>
  }

  /** Hence two nodes with the same meaning have the same label. */
  lemma MeaningDeterminesLabel(a: Node, b: Node)
    requires Analyze(a).meaning == Analyze(b).meaning
    ensures LabelOf(a.kind) == LabelOf(b.kind)
  {
    MeaningRoundTrip(a);
    MeaningRoundTrip(b);
  }
}

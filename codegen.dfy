/** `BaseGenerator`: per-language text templates applied recursively over
    the tree. */
module CodeGen {
  import opened Ast
  import opened Strings

  /** The languages with templates of their own. */
  predicate Supported(lang: string) {
    lang == "go" || lang == "cpp" || lang == "swift" || lang == "rust"
  }

  /** `BaseGenerator::generate`. */
  function Generate(node: Node, lang: string): string
    decreases node
  {
    match node.kind
    case Identifier(x) =>
      if lang == "go" then "var " + x + " any"
      else if lang == "cpp" then "auto " + x + ";"
      else if lang == "swift" then "var " + x + ": Any"
      else if lang == "rust" then "let " + x + ";"
      else x
    case Number(text) => text
    case BinaryOp(op, left, right) =>
      Generate(left, lang) + " " + op + " " + Generate(right, lang)
    case Function(name, args, body) =>
      var a := Join(args, ", ");
      var b := Join(GenerateAll(body, lang), "\n");
      if lang == "go" then "func " + name + "(" + a + ") {\n" + b + "\n}"
      else if lang == "cpp" then "auto " + name + "(" + a + ") {\n" + b + "\n}"
      else if lang == "swift" then "func " + name + "(" + a + ") {\n" + b + "\n}"
      else if lang == "rust" then "fn " + name + "(" + a + ") {\n" + b + "\n}"
      else "fn " + name + "(" + a + ") {\n" + b + "\n}"
    case Unknown => "/* unsupported */"
  }

  /** `body.iter().map(|n| self.generate(n, lang)).collect()`: one text per
      body node, in order. */
  function GenerateAll(body: seq<Node>, lang: string): (texts: seq<string>)
    decreases body
    ensures |texts| == |body|
    ensures forall i :: 0 <= i < |body| ==> texts[i] == Generate(body[i], lang)
  {
    if body == [] then [] else [Generate(body[0], lang)] + GenerateAll(body[1..], lang)
  }

  /** The keyword that opens a function in each language; rust and every
      unsupported language share `fn`. */
  function Keyword(lang: string): string {
    if lang == "go" || lang == "swift" then "func"
    else if lang == "cpp" then "auto"
    else "fn"
  }

  /** A binary operation is its operands' code around the operator, single
      spaces on each side, for every language. */
  lemma GenerateBinaryOp(op: string, left: Node, right: Node, meta: map<string, string>, lang: string)
    ensures Generate(Node(BinaryOp(op, left, right), meta), lang)
         == Generate(left, lang) + " " + op + " " + Generate(right, lang)
  {
  }

  /** Every function shape is `<kw> name(args) {\n<body>\n}`, the arguments
      joined by ", " and the generated body nodes by newlines. */
  lemma FunctionTemplate(name: string, args: seq<string>, body: seq<Node>, meta: map<string, string>, lang: string)
    ensures Generate(Node(Function(name, args, body), meta), lang)
         == Keyword(lang) + " " + name + "(" + Join(args, ", ") + ") {\n"
            + Join(GenerateAll(body, lang), "\n") + "\n}"
  {
  }

  /** The leaf templates: one declaration per supported language for an
      identifier, the bare name in any other language, a number as its
      literal text, an unknown node as a comment. */
  lemma LeafTemplates(node: Node, lang: string)
    ensures node.kind.Identifier? && lang == "go" ==> Generate(node, lang) == "var " + node.kind.name + " any"
    ensures node.kind.Identifier? && lang == "cpp" ==> Generate(node, lang) == "auto " + node.kind.name + ";"
    ensures node.kind.Identifier? && lang == "swift" ==> Generate(node, lang) == "var " + node.kind.name + ": Any"
    ensures node.kind.Identifier? && lang == "rust" ==> Generate(node, lang) == "let " + node.kind.name + ";"
    ensures node.kind.Identifier? && !Supported(lang) ==> Generate(node, lang) == node.kind.name
    ensures node.kind.Number? ==> Generate(node, lang) == node.kind.text
    ensures node.kind.Unknown? ==> Generate(node, lang) == "/* unsupported */"
  {
  }

  /** All unsupported languages are treated alike: the generated code does
      not depend on which unsupported name was asked for. */
  lemma {:induction false} UnsupportedLanguagesAgree(node: Node, a: string, b: string)
    requires !Supported(a) && !Supported(b)
    ensures Generate(node, a) == Generate(node, b)
    decreases node
  {
    match node.kind
    case BinaryOp(op, left, right) =>
      UnsupportedLanguagesAgree(left, a, b);
      UnsupportedLanguagesAgree(right, a, b);
    case Function(name, args, body) =>
      UnsupportedLanguagesAgreeAll(body, a, b);
    case _ =>
  }

  lemma {:induction false} UnsupportedLanguagesAgreeAll(body: seq<Node>, a: string, b: string)
    requires !Supported(a) && !Supported(b)
    ensures GenerateAll(body, a) == GenerateAll(body, b)
    decreases body
  {
    forall i | 0 <= i < |body|
      ensures GenerateAll(body, a)[i] == GenerateAll(body, b)[i]
    {
      UnsupportedLanguagesAgree(body[i], a, b);
    }
  }

  /** The texts a node carries verbatim into generated code: identifier and
      function names, number literals, operators, argument names, and those
      of every nested node. */
  ghost function Mentions(node: Node): set<string>
    decreases node
  {
    match node.kind
    case Identifier(x) => {x}
    case Number(text) => {text}
    case BinaryOp(op, left, right) => {op} + Mentions(left) + Mentions(right)
    case Function(name, args, body) => {name} + (set a | a in args) + MentionsAll(body)
    case Unknown => {}
  }

  ghost function MentionsAll(body: seq<Node>): set<string>
    decreases body
  {
    if body == [] then {} else Mentions(body[0]) + MentionsAll(body[1..])
  }

  lemma {:induction false} MentionsAllIn(body: seq<Node>, x: string) returns (i: nat)
    requires x in MentionsAll(body)
    ensures i < |body| && x in Mentions(body[i])
    decreases body
  {
    if x in Mentions(body[0]) {
      i := 0;
    } else {
      var j := MentionsAllIn(body[1..], x);
      i := j + 1;
    }
  }

  /** Templating never drops a name: everything a tree mentions occurs in the
      code generated for it, in every language. */
  lemma {:induction false} MentionsAppear(node: Node, lang: string, x: string)
    requires x in Mentions(node)
    ensures Contains(Generate(node, lang), x)
    decreases node
  {
    match node.kind
    case Identifier(name) =>
      IdentifierShowsName(name, node.meta, lang);
    case Number(text) =>
      ContainsSelf(x);
    case BinaryOp(op, left, right) =>
      if x == op {
        ContainsSelf(x);
        BinaryOpShowsPart(node, lang, x, 1);
      } else if x in Mentions(left) {
        MentionsAppear(left, lang, x);
        BinaryOpShowsPart(node, lang, x, 0);
      } else {
        MentionsAppear(right, lang, x);
        BinaryOpShowsPart(node, lang, x, 2);
      }
    case Function(name, args, body) =>
      if x == name {
        ContainsSelf(x);
        FunctionShowsPart(node, lang, x, 0);
      } else if x in args {
        var i :| 0 <= i < |args| && args[i] == x;
        JoinContains(args, ", ", i);
        FunctionShowsPart(node, lang, x, 1);
      } else {
        var i := MentionsAllIn(body, x);
        MentionsAppear(body[i], lang, x);
        JoinContains(GenerateAll(body, lang), "\n", i);
        ContainsTransitive(Join(GenerateAll(body, lang), "\n"), Generate(body[i], lang), x);
        FunctionShowsPart(node, lang, x, 2);
      }
  }

  lemma IdentifierShowsName(x: string, meta: map<string, string>, lang: string)
    ensures Contains(Generate(Node(Identifier(x), meta), lang), x)
  {
    ContainsSelf(x);
    if lang == "go" {
      ContainsInMiddle("var ", x, " any", x);
    } else if lang == "cpp" {
      ContainsInMiddle("auto ", x, ";", x);
    } else if lang == "swift" {
      ContainsInMiddle("var ", x, ": Any", x);
    } else if lang == "rust" {
      ContainsInMiddle("let ", x, ";", x);
    }
  }

  /** What occurs in the left operand (part 0), the operator (part 1) or the
      right operand (part 2) occurs in the operation's code. */
  lemma BinaryOpShowsPart(node: Node, lang: string, x: string, part: nat)
    requires node.kind.BinaryOp? && part <= 2
    requires part == 0 ==> Contains(Generate(node.kind.left, lang), x)
    requires part == 1 ==> Contains(node.kind.op, x)
    requires part == 2 ==> Contains(Generate(node.kind.right, lang), x)
    ensures Contains(Generate(node, lang), x)
  {
    var l, op, r := Generate(node.kind.left, lang), node.kind.op, Generate(node.kind.right, lang);
    var out := Generate(node, lang);
    if part == 0 {
      assert out == "" + l + (" " + op + " " + r);
      ContainsInMiddle("", l, " " + op + " " + r, x);
    } else if part == 1 {
      assert out == (l + " ") + op + (" " + r);
      ContainsInMiddle(l + " ", op, " " + r, x);
    } else {
      assert out == (l + " " + op + " ") + r + "";
      ContainsInMiddle(l + " " + op + " ", r, "", x);
    }
  }

  /** What occurs in the name (part 0), the joined arguments (part 1) or the
      joined body (part 2) occurs in the function's code. */
  lemma FunctionShowsPart(node: Node, lang: string, x: string, part: nat)
    requires node.kind.Function? && part <= 2
    requires part == 0 ==> Contains(node.kind.name, x)
    requires part == 1 ==> Contains(Join(node.kind.args, ", "), x)
    requires part == 2 ==> Contains(Join(GenerateAll(node.kind.body, lang), "\n"), x)
    ensures Contains(Generate(node, lang), x)
  {
    var kw, name := Keyword(lang), node.kind.name;
    var a, b := Join(node.kind.args, ", "), Join(GenerateAll(node.kind.body, lang), "\n");
    FunctionTemplate(name, node.kind.args, node.kind.body, node.meta, lang);
    // the template, one piece at a time
    var s1 := kw + " ";
    var s2 := s1 + name;
    var s3 := s2 + "(";
    var s4 := s3 + a;
    var s5 := s4 + ") {\n";
    var s6 := s5 + b;
    assert Generate(node, lang) == s6 + "\n}";
    if part == 0 {
      ContainsPrepend(s1, name, x);
      ContainsAppend(s2, "(", x);
      ContainsAppend(s3, a, x);
    }
    if part <= 1 {
      if part == 1 {
        ContainsPrepend(s3, a, x);
      }
      ContainsAppend(s4, ") {\n", x);
      ContainsAppend(s5, b, x);
    } else {
      ContainsPrepend(s5, b, x);
    }
    ContainsAppend(s6, "\n}", x);
  }
}

/** `SecurityAI`: named detection rules over a node, followed by one entry
    obtained from the oracle. */
module Security {
  import opened Ast
  import opened Llm

  /** A rule: its name and the plain predicate `detect: fn(&Node) -> bool`. */
  datatype SecurityRule = SecurityRule(name: string, detect: Node -> bool)

  datatype SecurityAI = SecurityAI(llm: Predictor, rules: seq<SecurityRule>)

  /** `SecurityAI::new`: the one built-in rule, POINTER_ARITH, flags a node
      whose `pointer_arith` metadata is "true". */
  function NewSecurityAI(llm: Predictor): (s: SecurityAI)
    ensures s.llm == llm && |s.rules| == 1 && s.rules[0].name == "POINTER_ARITH"
    ensures forall node :: s.rules[0].detect(node) <==> Flag(node, "pointer_arith")
  {
    SecurityAI(llm, [SecurityRule("POINTER_ARITH", node => Flag(node, "pointer_arith"))])
  }

  /** The names of the rules that detect something in `node`, in rule order. */
  function Flagged(rules: seq<SecurityRule>, node: Node): (names: seq<string>)
    ensures |names| <= |rules|
  {
    if rules == [] then []
    else
      var last := rules[|rules| - 1];
      Flagged(rules[..|rules| - 1], node) + (if last.detect(node) then [last.name] else [])
  }

  /** The entry the oracle contributes: its answer about the node's debug text. */
  function OracleEntry(llm: Predictor, node: Node, debugNode: Node -> string): string {
    "LLM: " + llm("Analyze security of " + debugNode(node))
  }

  /** What `SecurityAI::analyze` returns. */
  function Findings(s: SecurityAI, node: Node, debugNode: Node -> string): seq<string> {
    Flagged(s.rules, node) + [OracleEntry(s.llm, node, debugNode)]
  }

  /** `SecurityAI::analyze`: pushes the name of every rule that fires, in
      order, then pushes the oracle entry. */
  method Analyze(s: SecurityAI, node: Node, debugNode: Node -> string) returns (output: seq<string>)
    ensures output == Findings(s, node, debugNode)
  {
    output := [];
    for i := 0 to |s.rules|
      invariant output == Flagged(s.rules[..i], node)
    {
      var r := s.rules[i];
      assert s.rules[..i + 1][..i] == s.rules[..i];
      if r.detect(node) {
        output := output + [r.name];
      }
    }
    assert s.rules[..|s.rules|] == s.rules;
    output := output + [OracleEntry(s.llm, node, debugNode)];
  }

  /** The indices of the rules that fire on `node`. */
  ghost function Detected(rules: seq<SecurityRule>, node: Node): set<int> {
    set i | 0 <= i < |rules| && rules[i].detect(node)
  }

  /** One flagged name per rule that fires. */
  lemma {:induction false} FlaggedCount(rules: seq<SecurityRule>, node: Node)
    ensures |Flagged(rules, node)| == |Detected(rules, node)|
  {
    if rules != [] {
      var n := |rules| - 1;
      var front := rules[..n];
      FlaggedCount(front, node);
      assert Detected(front, node) == Detected(rules, node) - {n};
      if rules[n].detect(node) {
        assert Detected(rules, node) == Detected(front, node) + {n};
      } else {
        assert Detected(rules, node) == Detected(front, node);
      }
    }
  }

  /** A name is flagged exactly when some rule with that name fires. */
  lemma {:induction false} FlaggedMembership(rules: seq<SecurityRule>, node: Node, x: string)
    ensures x in Flagged(rules, node) <==> exists i :: 0 <= i < |rules| && rules[i].detect(node) && rules[i].name == x
  {
    if rules != [] {
      var n := |rules| - 1;
      var front := rules[..n];
      FlaggedMembership(front, node, x);
      if x in Flagged(front, node) {
        var i :| 0 <= i < |front| && front[i].detect(node) && front[i].name == x;
        assert rules[i] == front[i];
      }
      if exists i :: 0 <= i < |rules| && rules[i].detect(node) && rules[i].name == x {
        var i :| 0 <= i < |rules| && rules[i].detect(node) && rules[i].name == x;
        if i < n {
          assert front[i] == rules[i];
        }
      }
    }
  }

  /** Rule order is kept: the flags of a concatenation of rule lists are the
      flags of the first list followed by those of the second. */
  lemma {:induction false} FlaggedConcat(a: seq<SecurityRule>, b: seq<SecurityRule>, node: Node)
    ensures Flagged(a + b, node) == Flagged(a, node) + Flagged(b, node)
  {
    if b == [] {
      assert a + b == a;
    } else {
      var n := |b| - 1;
      FlaggedConcat(a, b[..n], node);
      assert (a + b)[..|a + b| - 1] == a + b[..n];
    }
  }

  /** `analyze` returns one entry per rule that fires plus one, and the
      last entry is always the oracle's. */
  lemma FindingsShape(s: SecurityAI, node: Node, debugNode: Node -> string)
    ensures |Findings(s, node, debugNode)| == |Detected(s.rules, node)| + 1
    ensures Findings(s, node, debugNode)[|Findings(s, node, debugNode)| - 1] == OracleEntry(s.llm, node, debugNode)
  {
    FlaggedCount(s.rules, node);
  }

  /** With the built-in rules, POINTER_ARITH is reported exactly when the
      node's `pointer_arith` metadata is "true"; a missing key is not flagged. */
  lemma PointerArithReported(llm: Predictor, node: Node, debugNode: Node -> string)
    ensures "POINTER_ARITH" in Findings(NewSecurityAI(llm), node, debugNode) <==> Flag(node, "pointer_arith")
    ensures "pointer_arith" !in node.meta ==> Findings(NewSecurityAI(llm), node, debugNode) == [OracleEntry(llm, node, debugNode)]
  {
    var s := NewSecurityAI(llm);
    var e := OracleEntry(llm, node, debugNode);
    assert e != "POINTER_ARITH" by { assert e[0] == 'L'; }
    assert s.rules[..0] == [];
    assert Flagged(s.rules, node) == if Flag(node, "pointer_arith") then ["POINTER_ARITH"] else [];
  }
}

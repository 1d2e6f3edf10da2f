/** `IntelligentCompiler`: runs version inference, classification, base code
    generation, refinement and the security pass on one node, and formats
    the results as one report. */
module Compiler {
  import opened Ast
  import opened Llm
  import opened Versions
  import Semantics
  import opened Security
  import opened CodeGen
  import opened Refinement

  /** Rust's derived `Debug` text (`{:?}`) for a node and for the findings
      list. It depends on `HashMap` order and float formatting, so the model
      takes it as given functions. */
  datatype Debug = Debug(node: Node -> string, findings: seq<string> -> string)

  /** The compiler: one oracle, shared (by clone) with the security pass. */
  datatype IntelligentCompiler = IntelligentCompiler(llm: Predictor, versionAi: VersionAI, security: SecurityAI)

  /** The values `compile` formats, one per stage. */
  datatype Report = Report(
    language: string,
    version: string,
    meaning: string,
    baseCode: string,
    refinedCode: string,
    security: seq<string>)

  /** `IntelligentCompiler::new`: the built-in version table and rule set,
      the same oracle for refinement and for the security pass. */
  method NewCompiler(llm: Predictor) returns (c: IntelligentCompiler)
    ensures c.llm == llm && c.security.llm == llm
    ensures c.versionAi.Valid() && c.versionAi.knowledge == Knowledge
    ensures c.security == NewSecurityAI(llm)
  {
    var versionAi := NewVersionAI();
    c := IntelligentCompiler(llm, versionAi, NewSecurityAI(llm));
  }

  /** What each stage of `compile` produces for `node` and `lang`. */
  function ReportOf(c: IntelligentCompiler, node: Node, lang: string, debug: Debug): Report
    requires c.versionAi.Valid()
  {
    var version := c.versionAi.Infer(lang, node);
    var base := Generate(node, lang);
    Report(lang, version, Semantics.Analyze(node).meaning, base,
           Refine(c.llm, lang, version, base), Findings(c.security, node, debug.node))
  }

  /** The `format!` that ends `compile`. */
  function Render(r: Report, debug: Debug): string {
    "=== Intelligent Compiler ===\nLanguage: " + r.language
    + "\nVersion: " + r.version
    + "\nMeaning: " + r.meaning
    + "\n\nBase Code:\n" + r.baseCode
    + "\n\nAI Refined Code:\n" + r.refinedCode
    + "\n\nSecurity:\n" + debug.findings(r.security)
  }

  /** `IntelligentCompiler::compile`: the stages in source order. The report
      is a function of the compiler, node and language alone, so for a
      deterministic oracle compiling twice gives the same text. */
  method Compile(c: IntelligentCompiler, node: Node, lang: string, debug: Debug) returns (out: string)
    requires c.versionAi.Valid()
    ensures out == Render(ReportOf(c, node, lang, debug), debug)
  {
    var version := c.versionAi.Infer(lang, node);
    var sem := Semantics.Analyze(node);
    var base := Generate(node, lang);
    var refined := Refine(c.llm, lang, version, base);
    var security := Analyze(c.security, node, debug.node);
    out := Render(Report(lang, version, sem.meaning, base, refined, security), debug);
  }

  /** How the stages feed each other: the base code is generated for the
      requested language, the refined code is the oracle's answer to the
      refine prompt built from the inferred version and that base code, and
      the security list ends with the oracle's entry after the flagged rules. */
  lemma StagesCompose(c: IntelligentCompiler, node: Node, lang: string, debug: Debug)
    requires c.versionAi.Valid() && c.security.llm == c.llm
    ensures var r := ReportOf(c, node, lang, debug);
            && r.language == lang
            && r.version == c.versionAi.Infer(lang, node)
            && r.baseCode == Generate(node, lang)
            && r.refinedCode == c.llm("Refine this " + lang + " " + r.version
                                      + " code into correct, modern code:\n" + r.baseCode)
            && |r.security| == |Detected(c.security.rules, node)| + 1
            && r.security[|r.security| - 1] == OracleEntry(c.llm, node, debug.node)
  {
    FindingsShape(c.security, node, debug.node);
  }

  /** The report opens with the banner and the language, ends with the
      findings' debug text, and shows the base and refined code. */
  lemma RenderLayout(r: Report, debug: Debug)
    ensures var out := Render(r, debug);
            && out[..39] == "=== Intelligent Compiler ===\nLanguage: "
            && out[39..39 + |r.language|] == r.language
            && out[|out| - |debug.findings(r.security)|..] == debug.findings(r.security)
            && Strings.Contains(out, r.baseCode)
            && Strings.Contains(out, r.refinedCode)
  {
    var out := Render(r, debug);
    var head := "=== Intelligent Compiler ===\nLanguage: " + r.language
      + "\nVersion: " + r.version + "\nMeaning: " + r.meaning + "\n\nBase Code:\n";
    var tail := "\n\nSecurity:\n" + debug.findings(r.security);
    assert head[..39] == "=== Intelligent Compiler ===\nLanguage: ";
    assert head[39..39 + |r.language|] == r.language;
    assert out == head + r.baseCode + ("\n\nAI Refined Code:\n" + r.refinedCode + tail);
    Strings.ContainsSelf(r.baseCode);
    Strings.ContainsInMiddle(head, r.baseCode, "\n\nAI Refined Code:\n" + r.refinedCode + tail, r.baseCode);
    assert out == (head + r.baseCode + "\n\nAI Refined Code:\n") + r.refinedCode + tail;
    Strings.ContainsSelf(r.refinedCode);
    Strings.ContainsInMiddle(head + r.baseCode + "\n\nAI Refined Code:\n", r.refinedCode, tail, r.refinedCode);
  }

  /** The scenario `main` runs: identifier `x` with `uses_generics` set,
      compiled for Go with the local oracle. */
  lemma MainScenario(debug: Debug)
    ensures var c := IntelligentCompiler(LocalPredict, VersionAI(Knowledge), NewSecurityAI(LocalPredict));
            var node := Node(Identifier("x"), map["uses_generics" := "true"]);
            var r := ReportOf(c, node, "go", debug);
            && r.version == "1.21"
            && r.meaning == "identifier 'x'"
            && r.baseCode == "var x any"
            && r.refinedCode == LocalPredict(RefinePrompt("go", "1.21", "var x any"))
            && r.security == [OracleEntry(LocalPredict, node, debug.node)]
  {
    var c := IntelligentCompiler(LocalPredict, VersionAI(Knowledge), NewSecurityAI(LocalPredict));
    var node := Node(Identifier("x"), map["uses_generics" := "true"]);
    PointerArithReported(LocalPredict, node, debug.node);
  }
}

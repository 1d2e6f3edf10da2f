/** `LLMGenerator`: hands generated code to the oracle for a rewrite. */
module Refinement {
  import opened Llm

  /** The prompt `refine` sends. The contract reads the parts back: it opens
      with the fixed request and the language, and the code is its tail. */
  function RefinePrompt(lang: string, version: string, code: string): (prompt: string)
    ensures |prompt| == |lang| + |version| + |code| + 46
    ensures prompt[..12] == "Refine this " && prompt[12..12 + |lang|] == lang
    ensures prompt[|prompt| - |code|..] == code
    ensures prompt[|prompt| - |code| - 1] == '\n'
  {
    "Refine this " + lang + " " + version + " code into correct, modern code:\n" + code
  }

  /** `LLMGenerator::refine`: the oracle's answer to that prompt. */
  function Refine(llm: Predictor, lang: string, version: string, code: string): string {
    llm(RefinePrompt(lang, version, code))
  }

  /** For a fixed language and version, different code gives different prompts,
      so the oracle is always shown exactly the code to refine. */
  lemma RefinePromptKeepsCode(lang: string, version: string, c1: string, c2: string)
    requires RefinePrompt(lang, version, c1) == RefinePrompt(lang, version, c2)
    ensures c1 == c2
  {
    var p := RefinePrompt(lang, version, c1);
    assert |c1| == |c2|;
    assert c1 == p[|p| - |c1|..] == c2;
  }

  /** With the local oracle, the refined code ends with the code to refine
      and the closing parenthesis of `LLM_OUTPUT(...)`. */
  lemma LocalRefine(lang: string, version: string, code: string)
    ensures var r := Refine(LocalPredict, lang, version, code);
            r[|r| - |code| - 1..] == code + ")"
  {
    var p := RefinePrompt(lang, version, code);
    var r := LocalPredict(p);
    var n := |code|;
    assert |r| == |p| + 12 && |p| >= n + 1;
    forall t | 0 <= t < n
      ensures r[|r| - n - 1 + t] == code[t]
    {
      assert r[|r| - n - 1 + t] == r[11..|r| - 1][|p| - n + t];
      assert code[t] == p[|p| - n..][t];
    }
    assert r[|r| - 1] == ')';
    assert r[|r| - n - 1..] == code + ")";
  }
}

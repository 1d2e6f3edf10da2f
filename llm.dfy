/** The text oracle every stage that asks for prose goes through. */
module Llm {

  /** The `LLM` trait's one method, `predict(prompt) -> String`, as a
      (deterministic) function from prompt to answer. */
  type Predictor = string -> string

  /** `LocalLLM::predict`: wraps the prompt as `LLM_OUTPUT(<prompt>)`. The
      contract decodes the answer: the prompt sits between the fixed prefix
      and the closing parenthesis. */
  function LocalPredict(prompt: string): (answer: string)
    ensures |answer| == |prompt| + 12
    ensures answer[..11] == "LLM_OUTPUT(" && answer[|answer| - 1] == ')'
    ensures answer[11..|answer| - 1] == prompt
  {
    "LLM_OUTPUT(" + prompt + ")"
  }

  /** Distinct prompts give distinct local answers. */
  lemma LocalPredictInjective(p: string, q: string)
    requires LocalPredict(p) == LocalPredict(q)
    ensures p == q
  {
    var a := LocalPredict(p);
    assert p == a[11..|a| - 1];
  }
}

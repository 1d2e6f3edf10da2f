/** `VersionAI`: the target-language version table and the inference that
    picks a version for a node. */
module Versions {
  import opened Ast

  /** The table `VersionAI::new` builds, oldest version first. */
  const Knowledge: map<string, seq<string>> :=
    map["go" := ["1.18", "1.20", "1.21", "1.22"],
        "cpp" := ["17", "20", "23"],
        "swift" := ["5.9", "6.0"]]

  datatype VersionAI = VersionAI(knowledge: map<string, seq<string>>) {

    /** Every listed language has a version, so taking the last one cannot fail. */
    predicate Valid() {
      forall lang :: lang in knowledge ==> |knowledge[lang]| > 0
    }

    /** `VersionAI::infer`: "unknown" for an unlisted language, the Go
        generics override, otherwise the latest listed version. */
    function Infer(lang: string, node: Node): (version: string)
      requires Valid()
      ensures lang !in knowledge ==> version == "unknown"
      ensures lang in knowledge && lang != "go" ==> version == knowledge[lang][|knowledge[lang]| - 1]
      ensures lang in knowledge ==> version in knowledge[lang] || (lang == "go" && version == "1.21")
    {
      if lang !in knowledge then "unknown"
      else if lang == "go" && Flag(node, "uses_generics") then "1.21"
      else knowledge[lang][|knowledge[lang]| - 1]
    }
  }

  /** `VersionAI::new`: fills the table one language at a time. */
  method NewVersionAI() returns (v: VersionAI)
    ensures v.Valid()
    ensures v.knowledge == Knowledge
  {
    var k: map<string, seq<string>> := map[];
    k := k["go" := ["1.18", "1.20", "1.21", "1.22"]];
    k := k["cpp" := ["17", "20", "23"]];
    k := k["swift" := ["5.9", "6.0"]];
    v := VersionAI(k);
  }

  /** With the built-in table, "unknown" comes back exactly for the languages
      the table does not list: no listed version is spelled "unknown". */
  lemma InferUnknownIff(v: VersionAI, lang: string, node: Node)
    requires v.knowledge == Knowledge
    ensures v.Valid()
    ensures v.Infer(lang, node) == "unknown" <==> lang !in {"go", "cpp", "swift"}
  {
    if lang in Knowledge {
      assert "unknown" !in Knowledge[lang];
    }
  }

  /** The generics override answers "1.21" for Go whatever else the metadata says. */
  lemma InferGoGenerics(v: VersionAI, node: Node)
    requires v.knowledge == Knowledge
    requires Flag(node, "uses_generics")
    ensures v.Valid()
    ensures v.Infer("go", node) == "1.21"
  {
  }

  /** Without an override the answer is the latest version: go 1.22, cpp 23,
      swift 6.0; the override flag is ignored for every language but Go. */
  lemma InferLatest(v: VersionAI, lang: string, node: Node)
    requires v.knowledge == Knowledge
    requires lang in Knowledge && !(lang == "go" && Flag(node, "uses_generics"))
    ensures v.Valid()
    ensures v.Infer(lang, node) == if lang == "go" then "1.22" else if lang == "cpp" then "23" else "6.0"
  {
  }

  /** With the built-in table the answer for a listed language is always one
      of that language's versions (the override's "1.21" is a listed Go version). */
  lemma InferListed(v: VersionAI, lang: string, node: Node)
    requires v.knowledge == Knowledge
    requires lang in Knowledge
    ensures v.Valid()
    ensures v.Infer(lang, node) in Knowledge[lang]
  {
  }
}

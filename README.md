# Intelligent-Compiler pipeline, modelled in Dafny

This project models the single-node pipeline of `src/main.rs` of the
Intelligent-Compiler repository (Rust). A syntax node carries string
metadata. The pipeline:

- infers a target-language version from a fixed table (`VersionAI`);
- labels the node (`SemanticEngine`);
- renders it through per-language text templates (`BaseGenerator`);
- asks a text oracle to refine that code (`LLMGenerator`);
- runs named security rules plus one oracle query (`SecurityAI`);
- formats everything into one report (`IntelligentCompiler::compile`).

Modules, one per component: `Ast` (nodes), `Llm` (the oracle interface and
the local stub), `Versions`, `Semantics`, `Security`, `CodeGen`,
`Refinement`, `Compiler`, plus `Strings` (`join` and a substring relation).

Modelling choices:

- The `LLM` trait is the type `Predictor = string -> string`. `LocalLLM` is
  the function `LocalPredict`.
- `VersionAI`, `SecurityAI`, `SecurityRule` and `IntelligentCompiler` are
  datatypes. Nothing changes them after construction.
- `VersionAI::new` fills its map one insert at a time, so it is the method
  `NewVersionAI`, proved to build the table `Knowledge`.
- `SecurityAI::analyze` pushes onto a vector in a loop, so it is the method
  `Security.Analyze`, proved equal to the function `Findings`.
- `compile` calls that method, so it is a method too. It is proved equal to
  `Render(ReportOf(...))`, a function of its inputs alone.
- Rust's `{:?}` text for a node and for the findings list is given as two
  functions in `Compiler.Debug`. A `Number` node stores the text that `{}`
  prints for its `f64`.

The texts the model states are those of the code:

- The meanings are "identifier '<name>'", "number literal",
  "binary op '<op>'", "function '<name>'" and "unknown".
- The only version override is Go with `uses_generics` set to "true".
- The refine prompt is
  `Refine this <lang> <version> code into correct, modern code:\n<code>`.
- `predict` returns a `String` and has no failure path, so the model has no
  error payload for the oracle.

## Model

| member | source | states |
|---|---|---|
| `Ast.NewNode` | src/main.rs:27-34 | a new node has the given kind and no metadata |
| `Llm.LocalPredict` | src/main.rs:46-49 | the local answer is 12 characters longer than the prompt and the prompt can be read back from between `LLM_OUTPUT(` and `)` |
| `Llm.LocalPredictInjective` | src/main.rs:46-49 | distinct prompts give distinct local answers |
| `Versions.NewVersionAI` | src/main.rs:60-66 | the inserts build exactly the go/cpp/swift table, and every list is non-empty, so `unwrap` cannot fail |
| `Versions.VersionAI.Infer` | src/main.rs:68-78 | an unlisted language gives "unknown"; a listed language other than go gives its last version; otherwise the result is a listed version or go's "1.21" override |
| `Versions.InferUnknownIff` | src/main.rs:62-71 | with the built-in table, "unknown" is returned if and only if the language is not go, cpp or swift |
| `Versions.InferGoGenerics` | src/main.rs:73-75 | go with `uses_generics` = "true" gives "1.21", whatever the other metadata |
| `Versions.InferLatest` | src/main.rs:62-77 | with no override, the result is the latest version: go 1.22, cpp 23, swift 6.0; the flag is ignored outside go |
| `Versions.InferListed` | src/main.rs:62-77 | with the built-in table, the result for a listed language is one of its listed versions |
| `Semantics.Analyze` | src/main.rs:91-113 | total; at most one type tag; meaning "unknown" for `Unknown` and "number literal" for numbers; no tag exactly for `Unknown`, "dynamic" exactly for identifiers, "fn" exactly for functions, "number" exactly for numbers and binary ops |
| `Semantics.MeaningRoundTrip` | src/main.rs:91-113 | the meaning text parses back to the node's variant and its identifier, operator or function name; only the exact text "unknown" parses to the unknown label |
| `Semantics.MeaningDeterminesLabel` | src/main.rs:91-113 | two nodes with the same meaning have the same variant and the same quoted name |
| `Security.NewSecurityAI` | src/main.rs:131-139 | the built-in rule set is the single rule POINTER_ARITH, which fires exactly when `pointer_arith` = "true" |
| `Security.Flagged` | src/main.rs:144-148 | the rule loop pushes at most one name per rule |
| `Security.Analyze` | src/main.rs:141-156 | the loop's output is the flagged rule names in rule order followed by the single `LLM: ` entry |
| `Security.FlaggedCount` | src/main.rs:144-148 | exactly one name is pushed per rule whose `detect` holds |
| `Security.FlaggedMembership` | src/main.rs:144-148 | a name is pushed if and only if some rule with that name fires |
| `Security.FlaggedConcat` | src/main.rs:144-148 | rule order is kept: the flags of two concatenated rule lists are the first list's flags followed by the second's |
| `Security.FindingsShape` | src/main.rs:141-156 | `analyze` returns (rules fired) + 1 entries and the last is `LLM: ` + the oracle's answer about the node |
| `Security.PointerArithReported` | src/main.rs:132-155 | with the built-in rules, POINTER_ARITH is reported if and only if `pointer_arith` = "true"; without the key only the oracle entry is returned |
| `Strings.Join` | src/main.rs:184-189 | joining no items gives ""; joining a single item gives that item |
| `Strings.JoinAppend` | src/main.rs:184-189 | the separator goes between consecutive items: appending an item to a non-empty list appends the separator and then the item |
| `Strings.JoinContains` | src/main.rs:184-189 | every joined item occurs in the joined text |
| `CodeGen.GenerateAll` | src/main.rs:185-188 | the body is mapped node by node, same length, same order |
| `CodeGen.GenerateBinaryOp` | src/main.rs:177-181 | a binary op is `generate(left) + " " + op + " " + generate(right)` for every language |
| `CodeGen.FunctionTemplate` | src/main.rs:183-198 | a function is `<kw> name(args) {\n<body>\n}` with args joined by ", " and the body by newlines; kw is func for go and swift, auto for cpp, fn for rust and any other language |
| `CodeGen.LeafTemplates` | src/main.rs:167-200 | an identifier is `var x any` in go, `auto x;` in cpp, `var x: Any` in swift, `let x;` in rust and bare in any other language; a number is its literal text, an unknown node is `/* unsupported */` |
| `CodeGen.IdentifierShowsName` | src/main.rs:167-173 | every identifier template contains the identifier's name |
| `CodeGen.UnsupportedLanguagesAgree` | src/main.rs:165-202 | any two unsupported languages get the same code for every tree |
| `CodeGen.MentionsAppear` | src/main.rs:165-202 | every name, operator, literal and argument anywhere in the tree occurs in the generated code, in every language |
| `Refinement.RefinePrompt` | src/main.rs:213-218 | the prompt opens with "Refine this " and the language, has 46 fixed characters, and ends with a newline and then the code |
| `Refinement.RefinePromptKeepsCode` | src/main.rs:213-218 | for a fixed language and version, distinct code gives distinct prompts |
| `Refinement.LocalRefine` | src/main.rs:213-218 | with the local oracle, the refined code ends with the code and `)` |
| `Compiler.NewCompiler` | src/main.rs:232-239 | the compiler has the built-in table and rules, and the security pass uses the same oracle |
| `Compiler.Compile` | src/main.rs:241-261 | the report text is fixed by the compiler, node, language and debug rendering, so a deterministic oracle gives a deterministic report |
| `Compiler.StagesCompose` | src/main.rs:241-251 | the version comes from `infer`, the base code from `generate`, the refined code is the oracle's answer to the refine prompt, and the findings end with the oracle entry |
| `Compiler.RenderLayout` | src/main.rs:253-260 | the report opens with the banner and the `Language: ` label followed by the language, ends with the findings' debug text, and contains the base and the refined code |
| `Compiler.MainScenario` | src/main.rs:273-278 | identifier x with `uses_generics` for go gives version 1.21, meaning "identifier 'x'", base "var x any", the locally refined prompt, and only the oracle finding |

## Left out

- `main` (src/main.rs:267-285): console output and the blocking read from stdin are I/O only. Its scenario is stated as `Compiler.MainScenario`.
- Formatting of `f64` with `{}`: a `Number` node stores that text.
- Rust's `Debug` text for a node and for the findings vector: both are given functions (`Compiler.Debug`). A node's `Debug` text also depends on `HashMap` iteration order, which can differ between runs.
- The behaviour of a networked LLM: only the `predict` interface, as a fixed function, and the `LocalLLM` stub are modelled.
- `Versions.VersionAI.Infer` requires every listed version list to be non-empty. The source would panic at `unwrap` otherwise, which cannot happen with the built-in table.
- A directory-walking transpiler: no code for one is present in `src/main.rs`, so it is not part of this model.

# Fail-safe import rewriting: a Dafny model of `transformWithAst`

`transformWithAst` rewrites one module's import declarations. No throw from a stage escapes it.
It works in four steps:

1. It resolves the caller's partial options over the defaults: syntax `typescript`, comments preserved, target `react-vite`.
2. It parses the source, runs the import rules on the tree, and prints the tree.
3. It collects the rule engine's warnings, changes and touched imports.
4. A single catch-all wraps the three stages. If any stage throws, the result is the original source, no changes and no imports. The warnings are the ones collected so far plus one `AST transformation error: …` entry.

The model has three files:

- `wrappers.dfy`: `Option` (a value that may be absent) and `Result` (a call that returns or throws).
- `js_objects.dfy`: JavaScript object spread `{ ...a, ...b }` on property maps.
- `ast_transformer.dfy`: the options, the collaborators, the pipeline and its properties.

The collaborators `parseCode`, `transformImports` and `generate` are parameters of the pipeline. Each is a total function that returns a value or the value it throws (`Thrown`, an `Error` with its message or any other value). The syntax tree is an opaque type parameter. `transformImports` mutates the tree in place, so in the model it returns the mutated tree next to its report, and the printer receives that tree.

The order of the stages is defined once, in `RunStages`. It runs the try block and records whether every stage returned or which value was thrown after which warnings. `Conclude` turns that record into the returned value or the fallback.

Two pure pipelines are built from these two functions:

- `Pipeline` hands the collaborators the resolved options of `MergeOptions`.
- `PipelineAsWritten` hands them the literal spread object of line 18.

`TransformWithAst` is a method that keeps the source's local `warnings`/`changes`/`imports` accumulators and its sequence of stage checks. Its contract ties it to `Pipeline`. The lemmas state the properties about `Pipeline`.

The rule engine receives only the tree (line 28), not the resolved `target`.

## Model

| member | source | states |
|---|---|---|
| `AstTransformer.MergeOptions` | src/services/astTransformer.ts:12-18 | each option the caller gives wins; every other option is `"typescript"`, `true` or `"react-vite"` respectively |
| `AstTransformer.MergeNoOptions` | src/services/astTransformer.ts:10-18 | with the default `{}` the resolved options are exactly the defaults |
| `AstTransformer.MergeOnlyTarget` | src/services/astTransformer.ts:12-18 | supplying only `target` yields the defaults with `target` replaced, and differs from the no-options result in `target` alone |
| `AstTransformer.MergeOptionsIsSpread` | src/services/astTransformer.ts:18 | the resolved record, read as an object, is the spread of the defaults with the caller's defined properties |
| `AstTransformer.SpreadAsWrittenAgrees` | src/services/astTransformer.ts:18 | when no property is explicitly `undefined`, the literal spread equals the resolved options record |
| `AstTransformer.ExplicitUndefinedOverridesDefault` | src/services/astTransformer.ts:18 | a `target` written as `undefined` survives the literal spread, so its result is no complete options record, while `MergeOptions` gives `"react-vite"` |
| `AstTransformer.SpreadAsWritten` | src/services/astTransformer.ts:18 | the literal spread has exactly the three option keys; each holds the caller's own property when written, `undefined` included, and otherwise the default |
| `JsObjects.Spread` | src/services/astTransformer.ts:18 | the spread has the keys of both objects; the right operand's properties win and the left operand's other properties stay |
| `AstTransformer.Pipeline` | src/services/astTransformer.ts:19-63 | when a stage throws, the result is the source, the warnings collected so far followed by that value's error entry, and no changes or imports; when none throws, the warnings are the collected ones |
| `AstTransformer.PipelineAsWritten` | src/services/astTransformer.ts:18-63 | for any options, explicit `undefined` included, with the spread object handed to the parser and its `preserveComments` handed to the printer as `comments`: a parser or engine throw gives the source with the single error entry; a printer throw gives the source with the engine's warnings and the entry; success gives the printer's code and the engine's three fields |
| `AstTransformer.TransformWithAst` | src/services/astTransformer.ts:8-64 | with accumulators and the try/catch, the method returns exactly the staged result `Pipeline` for every outcome of the three collaborators, with no precondition |
| `AstTransformer.Transform` | src/services/astTransformer.ts:67-69 | `AstTransformer.transform` returns the same result as `transformWithAst` |
| `AstTransformer.ParseFailureFallback` | src/services/astTransformer.ts:53-62 | when parsing the source with the resolved options throws, the code is the source, changes and imports are empty, and the warnings are exactly `"AST transformation error: "` followed by the error's message or `"Unknown error"` |
| `AstTransformer.RulesFailureFallback` | src/services/astTransformer.ts:28-62 | when the rule engine throws, the result is the source with the single error entry and no changes or imports |
| `AstTransformer.PrintFailureKeepsEngineWarnings` | src/services/astTransformer.ts:31-62 | when printing throws after the engine reported, the warnings are the engine's warnings followed by the error entry, and the engine's changes and imports are dropped |
| `AstTransformer.AnyFailureFallback` | src/services/astTransformer.ts:23-63 | whichever stage throws, the code is the source, changes and imports are empty, and the warnings are the ones already collected followed by the error entry, which is the last warning |
| `AstTransformer.SuccessCarriesEngineReport` | src/services/astTransformer.ts:28-51 | when every stage returns, no failure is recorded, the code is the printer's output for comments = resolved `preserveComments`, compact off and minimal escaping, and each diagnostic channel is the engine's field (empty when absent) |
| `AstTransformer.AbsentReportIsEmpty` | src/services/astTransformer.ts:31-51 | an absent engine result yields the printed code with three empty sequences |
| `AstTransformer.LaterStagesIgnoredAfterFailure` | src/services/astTransformer.ts:23-28 | once parsing throws, the rule engine and the printer have no influence on the result |
| `AstTransformer.PrinterIgnoredAfterRulesFailure` | src/services/astTransformer.ts:28-44 | once the rule engine throws, the printer has no influence on the result |
| `AstTransformer.PipelineAsWrittenAgrees` | src/services/astTransformer.ts:18-44 | without an explicitly `undefined` option, handing the literal spread to the parser and its `preserveComments` to the printer gives the same result as the pipeline over `MergeOptions` |
| `AstTransformer.ExplicitUndefinedReachesPrinter` | src/services/astTransformer.ts:38-39 | with `preserveComments: undefined`, the pipeline as written hands the printer `comments: undefined`, while `MergeOptions` gives `true` |
| `AstTransformer.DegradedIffErrorWarning` | src/services/astTransformer.ts:46-62 | if the engine's own warnings contain no error entry, a stage threw exactly when some result warning is an error entry |

## Left out

- AstTransformer.TransformWithAst: resolves options with the corrected `MergeOptions`. So an option the caller sets explicitly to `undefined` reaches the parser and printer as its default, whereas line 18 passes `undefined` on to `parseCode` (line 25) and `generate` (line 39). `PipelineAsWritten` models that behaviour, and `PipelineAsWrittenAgrees` shows the two agree whenever no option is explicitly `undefined`.
- AstTransformer.Pipeline: resolves options with the corrected `MergeOptions`. An option the caller sets explicitly to `undefined` therefore reaches `parseCode` (line 25) and `generate`'s `comments` (line 39) as its default, not as `undefined`. `PipelineAsWritten` states what the code as written does in that case.
- AstTransformer.Transform: the same gap as `TransformWithAst`, since it returns the same `Pipeline` result.
- Throws outside the `try`. A throwing property getter on `options` (line 18) would escape, and so would a throw from `console.error` or from reading `error.message` inside the `catch`. Options are plain values in the model, and the catch is total.
- Parsing (`parseCode`) and printing (`generate`). They are third-party code and are modelled only as parameters returning a value or a thrown value.
- The import rewrite rules of `transformImports`. They are unseen code, so neither idempotence nor any specific specifier rewrite is stated.
- The `console.error` call at line 54. It is logging with no effect on the result.
- The unused `safeArrayLength`/`safeArraySplice` import at line 6. `src/services/astTransformerHelper.ts` is not part of this model.
- The content of the tree and of `./ast/types`. The tree is an opaque type parameter.
- Exceptions and `instanceof Error`. These become the two-case `Thrown` datatype.
- Throws that can come from the aggregation itself. An engine field that is not iterable, or an array too large to spread into `push`, would throw while partly aggregated. The model types each field as an optional sequence, so neither can occur.
- Truthiness checks, in two parts:
  - `if (importResults)` is modelled as the engine result being present.
  - `if (importResults.warnings)` and its siblings are modelled as the field being present. Arrays are always truthy.
- Aliasing between the returned arrays and the local accumulators. The model returns sequence values.

## Findings

| source | as written | input that shows it | evidently intended | confidence | as-written member | corrected member |
|---|---|---|---|---|---|---|
| src/services/astTransformer.ts:18 | `{ ...defaultOptions, ...options }` copies every own property of `options`, including one whose value is `undefined` | `transformWithAst(code, { target: undefined })`: the resolved `target` is `undefined`, not `'react-vite'` | every option not given a value takes its default | low, not executed; depends on callers passing explicit `undefined` | `AstTransformer.SpreadAsWritten`, `AstTransformer.ExplicitUndefinedOverridesDefault`, `AstTransformer.PipelineAsWritten`, `AstTransformer.ExplicitUndefinedReachesPrinter` | `AstTransformer.MergeOptions`, `AstTransformer.MergeOptionsIsSpread`, `AstTransformer.Pipeline` |

`Pipeline` and `TransformWithAst` use the corrected merge, `MergeOptions`. `SpreadAsWritten` models the literal spread, and `PipelineAsWritten` is the pipeline built on it. `SpreadAsWrittenAgrees` and `PipelineAsWrittenAgrees` show that each pair agrees whenever no property is explicitly `undefined`.

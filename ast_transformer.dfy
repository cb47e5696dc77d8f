/**
  The fail-safe import-rewrite pipeline of `src/services/astTransformer.ts`:
  resolve the options, parse, run the import rules, print, and on any throw
  fall back to the original source with one error warning.

  The three collaborators (parser, import rule engine, printer) are
  parameters: total functions from their inputs to either a value or the
  value they throw. The syntax tree is the opaque type parameter `Tree`;
  the rule engine mutates it in place, so here it returns the mutated tree
  beside its report, and the printer receives that tree.
 */
module AstTransformer {
  import opened Wrappers
  import opened JsObjects

  // ---------------------------------------------------------------------
  // Options
  // ---------------------------------------------------------------------

  /** A property of a `Partial<AstTransformOptions>` object: not written,
      written as `undefined`, or written with a value. */
  datatype Field<T> = Absent | ExplicitUndefined | Given(value: T)

  datatype PartialOptions = PartialOptions(
    syntax: Field<string>,
    preserveComments: Field<bool>,
    target: Field<string>)

  datatype Options = Options(syntax: string, preserveComments: bool, target: string)

  /** The `{}` that `options` defaults to. */
  const NoOptions := PartialOptions(Absent, Absent, Absent)

  const DefaultOptions := Options("typescript", true, "react-vite")

  function FieldOr<T>(f: Field<T>, default: T): T
  {
    if f.Given? then f.value else default
  }

  /** The resolved options: each field the caller gives wins, every other
      field takes its default. */
  function MergeOptions(options: PartialOptions): (r: Options)
    ensures r.syntax == if options.syntax.Given? then options.syntax.value else "typescript"
    ensures r.preserveComments == if options.preserveComments.Given? then options.preserveComments.value else true
    ensures r.target == if options.target.Given? then options.target.value else "react-vite"
  {
    Options(
      FieldOr(options.syntax, DefaultOptions.syntax),
      FieldOr(options.preserveComments, DefaultOptions.preserveComments),
      FieldOr(options.target, DefaultOptions.target))
  }

  lemma MergeNoOptions()
    ensures MergeOptions(NoOptions) == Options("typescript", true, "react-vite")
  {
  }

  lemma MergeOnlyTarget(t: string)
    ensures MergeOptions(PartialOptions(Absent, Absent, Given(t))) == DefaultOptions.(target := t)
    ensures MergeOptions(PartialOptions(Absent, Absent, Given(t))).(target := "react-vite") == MergeOptions(NoOptions)
  {
  }

  // The same merge, read as JavaScript object spread.

  function OptionsObject(o: Options): JsObject
  {
    map["syntax" := JsString(o.syntax),
        "preserveComments" := JsBoolean(o.preserveComments),
        "target" := JsString(o.target)]
  }

  /** The property named `key` that a field contributes to an object; with
      `keepUndefined`, a field written as `undefined` is an own property too. */
  function FieldProperty<T>(key: string, f: Field<T>, inject: T -> JsValue, keepUndefined: bool): (r: JsObject)
    ensures r.Keys <= {key}
    ensures key in r <==> f.Given? || (f.ExplicitUndefined? && keepUndefined)
    ensures key in r ==> r[key] == if f.Given? then inject(f.value) else JsUndefined
  {
    match f
    case Absent => map[]
    case ExplicitUndefined => if keepUndefined then map[key := JsUndefined] else map[]
    case Given(v) => map[key := inject(v)]
  }

  function Properties(p: PartialOptions, keepUndefined: bool): JsObject
  {
    FieldProperty("syntax", p.syntax, (s: string) => JsString(s), keepUndefined)
    + FieldProperty("preserveComments", p.preserveComments, (b: bool) => JsBoolean(b), keepUndefined)
    + FieldProperty("target", p.target, (s: string) => JsString(s), keepUndefined)
  }

  /** Every own property of the caller's object, `undefined`-valued ones included. */
  function OwnProperties(p: PartialOptions): JsObject
  {
    Properties(p, true)
  }

  /** The properties of the caller's object that hold a value. */
  function DefinedProperties(p: PartialOptions): JsObject
  {
    Properties(p, false)
  }

  /** `{ ...defaultOptions, ...options }` exactly as JavaScript evaluates it. */
  function SpreadAsWritten(p: PartialOptions): (r: JsObject)
    ensures r.Keys == {"syntax", "preserveComments", "target"}
    ensures r["syntax"] == (match p.syntax
      case Absent => JsString("typescript") case ExplicitUndefined => JsUndefined case Given(s) => JsString(s))
    ensures r["preserveComments"] == (match p.preserveComments
      case Absent => JsBoolean(true) case ExplicitUndefined => JsUndefined case Given(b) => JsBoolean(b))
    ensures r["target"] == (match p.target
      case Absent => JsString("react-vite") case ExplicitUndefined => JsUndefined case Given(t) => JsString(t))
  {
    Spread(OptionsObject(DefaultOptions), OwnProperties(p))
  }

  predicate NoExplicitUndefined(p: PartialOptions)
  {
    !p.syntax.ExplicitUndefined? && !p.preserveComments.ExplicitUndefined? && !p.target.ExplicitUndefined?
  }

  /** MergeOptions is object spread of the defaults and the defined properties. */
  lemma MergeOptionsIsSpread(p: PartialOptions)
    ensures OptionsObject(MergeOptions(p)) == Spread(OptionsObject(DefaultOptions), DefinedProperties(p))
  {
  }

  /** Without an explicitly `undefined` property the written spread is MergeOptions. */
  lemma SpreadAsWrittenAgrees(p: PartialOptions)
    requires NoExplicitUndefined(p)
    ensures SpreadAsWritten(p) == OptionsObject(MergeOptions(p))
  {
  }

  /** A property written as `undefined` survives the written spread: the
      result is then no complete options record at all. */
  lemma ExplicitUndefinedOverridesDefault(p: PartialOptions)
    requires p.target.ExplicitUndefined?
    ensures "target" in SpreadAsWritten(p) && SpreadAsWritten(p)["target"] == JsUndefined
    ensures forall o: Options :: SpreadAsWritten(p) != OptionsObject(o)
    ensures MergeOptions(p).target == "react-vite"
  {
  }

  // ---------------------------------------------------------------------
  // Collaborators and results
  // ---------------------------------------------------------------------

  /** A thrown value: an `Error` instance with its message, or anything else. */
  datatype Thrown = ErrorInstance(message: string) | NonErrorValue

  /** What `transformImports` returns when it returns an object; each field may be absent. */
  datatype ImportResults = ImportResults(
    warnings: Option<seq<string>>,
    changes: Option<seq<string>>,
    imports: Option<seq<string>>)

  datatype PrintOptions = PrintOptions(comments: bool, compact: bool, minimalEscaping: bool)

  datatype TransformResult = TransformResult(
    code: string,
    warnings: seq<string>,
    changes: seq<string>,
    imports: seq<string>)

  /** `parseCode(sourceCode, opts)`. */
  type Parser<Tree> = (string, Options) -> Result<Tree, Thrown>

  /** `transformImports(ast)`: the mutated tree and the possibly absent report. */
  type ImportRules<!Tree> = Tree -> Result<(Tree, Option<ImportResults>), Thrown>

  /** `generate(ast, printOptions).code`. */
  type Printer<-Tree> = (Tree, PrintOptions) -> Result<string, Thrown>

  /** The printer configuration: comments as resolved, not compact, minimal escaping. */
  function PrinterOptions(opts: Options): PrintOptions
  {
    PrintOptions(opts.preserveComments, false, true)
  }

  const ErrorPrefix := "AST transformation error: "

  function ErrorMessage(e: Thrown): string
  {
    match e
    case ErrorInstance(m) => m
    case NonErrorValue => "Unknown error"
  }

  function ErrorEntry(e: Thrown): string
  {
    ErrorPrefix + ErrorMessage(e)
  }

  predicate IsErrorEntry(w: string)
  {
    ErrorPrefix <= w
  }

  function OrEmpty(field: Option<seq<string>>): seq<string>
  {
    if field.Some? then field.value else []
  }

  function ReportedWarnings(report: Option<ImportResults>): seq<string>
  {
    if report.Some? then OrEmpty(report.value.warnings) else []
  }

  function ReportedChanges(report: Option<ImportResults>): seq<string>
  {
    if report.Some? then OrEmpty(report.value.changes) else []
  }

  function ReportedImports(report: Option<ImportResults>): seq<string>
  {
    if report.Some? then OrEmpty(report.value.imports) else []
  }

  /** The result returned from the catch block. */
  function Fallback(sourceCode: string, accumulated: seq<string>, e: Thrown): TransformResult
  {
    TransformResult(sourceCode, accumulated + [ErrorEntry(e)], [], [])
  }

  // ---------------------------------------------------------------------
  // The pipeline
  // ---------------------------------------------------------------------

  /** How the try block of lines 23-51 ends: every stage returned, or one
      threw after the warnings in `collected` had been pushed. */
  datatype StageRun = Completed(code: string, report: Option<ImportResults>)
                    | Threw(collected: seq<string>, thrown: Thrown)

  /** The stages in order, given the object handed to the parser and the
      options handed to the printer. */
  function RunStages<Tree, Opts, PrintOpts>(sourceCode: string, opts: Opts, printOpts: PrintOpts,
                                            parse: (string, Opts) -> Result<Tree, Thrown>,
                                            rules: ImportRules<Tree>,
                                            generate: (Tree, PrintOpts) -> Result<string, Thrown>): StageRun
  {
    match parse(sourceCode, opts)
    case Failure(e) => Threw([], e)
    case Success(ast) =>
      match rules(ast)
      case Failure(e) => Threw([], e)
      case Success(transformed) =>
        match generate(transformed.0, printOpts)
        case Failure(e) => Threw(ReportedWarnings(transformed.1), e)
        case Success(code) => Completed(code, transformed.1)
  }

  /** The return of lines 46-51, or the catch of lines 53-63. */
  function Conclude(sourceCode: string, run: StageRun): TransformResult
  {
    match run
    case Completed(code, report) =>
      TransformResult(code, ReportedWarnings(report), ReportedChanges(report), ReportedImports(report))
    case Threw(collected, e) => Fallback(sourceCode, collected, e)
  }

  /** The stages run with the resolved options. */
  function PipelineRun<Tree>(sourceCode: string, options: PartialOptions,
                             parse: Parser<Tree>, rules: ImportRules<Tree>, generate: Printer<Tree>): StageRun
  {
    var opts := MergeOptions(options);
    RunStages(sourceCode, opts, PrinterOptions(opts), parse, rules, generate)
  }

  /** The value that reaches the catch block, if any stage throws. */
  function FirstFailure<Tree>(sourceCode: string, options: PartialOptions,
                              parse: Parser<Tree>, rules: ImportRules<Tree>, generate: Printer<Tree>): Option<Thrown>
  {
    var run := PipelineRun(sourceCode, options, parse, rules, generate);
    if run.Threw? then Some(run.thrown) else None
  }

  /** The warnings accumulator by the time the printer returns or a stage throws. */
  function CollectedWarnings<Tree>(sourceCode: string, options: PartialOptions,
                                   parse: Parser<Tree>, rules: ImportRules<Tree>, generate: Printer<Tree>): seq<string>
  {
    match PipelineRun(sourceCode, options, parse, rules, generate)
    case Completed(_, report) => ReportedWarnings(report)
    case Threw(collected, _) => collected
  }

  /** What `transformWithAst` returns: either every stage returned and the
      warnings are the collected ones, or the fallback for the first thrown
      value, with the collected warnings kept. */
  function Pipeline<Tree>(sourceCode: string, options: PartialOptions,
                          parse: Parser<Tree>, rules: ImportRules<Tree>, generate: Printer<Tree>): (r: TransformResult)
    ensures var failure := FirstFailure(sourceCode, options, parse, rules, generate);
      failure.Some? ==> r == Fallback(sourceCode, CollectedWarnings(sourceCode, options, parse, rules, generate), failure.value)
    ensures FirstFailure(sourceCode, options, parse, rules, generate).None? ==>
      r.warnings == CollectedWarnings(sourceCode, options, parse, rules, generate)
  {
    Conclude(sourceCode, PipelineRun(sourceCode, options, parse, rules, generate))
  }

  /** `transformWithAst`: local accumulators, the stages in order, one catch-all. */
  method TransformWithAst<Tree>(sourceCode: string, options: PartialOptions,
                                parse: Parser<Tree>, rules: ImportRules<Tree>, generate: Printer<Tree>)
    returns (r: TransformResult)
    ensures r == Pipeline(sourceCode, options, parse, rules, generate)
  {
    var opts := MergeOptions(options);
    var warnings: seq<string> := [];
    var changes: seq<string> := [];
    var imports: seq<string> := [];
    var thrown: Thrown;
    ghost var run := PipelineRun(sourceCode, options, parse, rules, generate);

    // try
    var parsed := parse(sourceCode, opts);
    if parsed.Success? {
      var transformed := rules(parsed.value);
      if transformed.Success? {
        var ast := transformed.value.0;
        var importResults := transformed.value.1;
        if importResults.Some? {
          var results := importResults.value;
          if results.warnings.Some? { warnings := warnings + results.warnings.value; }
          if results.changes.Some? { changes := changes + results.changes.value; }
          if results.imports.Some? { imports := imports + results.imports.value; }
        }
        assert warnings == ReportedWarnings(importResults);
        var output := generate(ast, PrintOptions(opts.preserveComments, false, true));
        if output.Success? {
          assert run == Completed(output.value, importResults);
          return TransformResult(output.value, warnings, changes, imports);
        }
        thrown := output.error;
      } else {
        thrown := transformed.error;
      }
    } else {
      thrown := parsed.error;
    }

    // catch
    assert run == Threw(warnings, thrown);
    warnings := warnings + [ErrorEntry(thrown)];
    return TransformResult(sourceCode, warnings, [], []);
  }

  /** `AstTransformer.transform`, the exported name of the same function. */
  method Transform<Tree>(sourceCode: string, options: PartialOptions,
                         parse: Parser<Tree>, rules: ImportRules<Tree>, generate: Printer<Tree>)
    returns (r: TransformResult)
    ensures r == Pipeline(sourceCode, options, parse, rules, generate)
  {
    r := TransformWithAst(sourceCode, options, parse, rules, generate);
  }

  // ---------------------------------------------------------------------
  // Properties of the pipeline
  // ---------------------------------------------------------------------

  /** A parse failure returns the source with exactly one warning, the error entry. */
  lemma ParseFailureFallback<Tree>(sourceCode: string, options: PartialOptions,
                                   parse: Parser<Tree>, rules: ImportRules<Tree>, generate: Printer<Tree>, e: Thrown)
    requires parse(sourceCode, MergeOptions(options)) == Failure(e)
    ensures var r := Pipeline(sourceCode, options, parse, rules, generate);
      && r.code == sourceCode
      && r.changes == [] && r.imports == []
      && r.warnings == ["AST transformation error: " + (if e.ErrorInstance? then e.message else "Unknown error")]
  {
  }

  /** An engine failure likewise reports only the error: nothing was accumulated yet. */
  lemma RulesFailureFallback<Tree>(sourceCode: string, options: PartialOptions,
                                   parse: Parser<Tree>, rules: ImportRules<Tree>, generate: Printer<Tree>,
                                   ast: Tree, e: Thrown)
    requires parse(sourceCode, MergeOptions(options)) == Success(ast)
    requires rules(ast) == Failure(e)
    ensures Pipeline(sourceCode, options, parse, rules, generate) == TransformResult(sourceCode, [ErrorEntry(e)], [], [])
  {
  }

  /** A printer failure keeps the engine's warnings, then adds the error entry;
      the engine's changes and imports are dropped. */
  lemma PrintFailureKeepsEngineWarnings<Tree>(sourceCode: string, options: PartialOptions,
                                              parse: Parser<Tree>, rules: ImportRules<Tree>, generate: Printer<Tree>,
                                              ast: Tree, ast': Tree, report: ImportResults, e: Thrown)
    requires parse(sourceCode, MergeOptions(options)) == Success(ast)
    requires rules(ast) == Success((ast', Some(report)))
    requires generate(ast', PrinterOptions(MergeOptions(options))) == Failure(e)
    ensures var r := Pipeline(sourceCode, options, parse, rules, generate);
      && r.code == sourceCode
      && r.warnings == OrEmpty(report.warnings) + [ErrorEntry(e)]
      && r.changes == [] && r.imports == []
  {
  }

  /** Whatever stage throws: the source comes back, changes and imports are
      empty, and the warnings are the accumulated ones followed by the entry. */
  lemma AnyFailureFallback<Tree>(sourceCode: string, options: PartialOptions,
                                 parse: Parser<Tree>, rules: ImportRules<Tree>, generate: Printer<Tree>, e: Thrown)
    requires FirstFailure(sourceCode, options, parse, rules, generate) == Some(e)
    ensures var r := Pipeline(sourceCode, options, parse, rules, generate);
      && r.code == sourceCode
      && r.changes == [] && r.imports == []
      && r.warnings == CollectedWarnings(sourceCode, options, parse, rules, generate) + [ErrorEntry(e)]
      && |r.warnings| > 0 && r.warnings[|r.warnings| - 1] == ErrorEntry(e)
  {
  }

  /** When every stage returns, the result is the printer's code and the
      engine's three fields, an absent field read as empty. */
  lemma SuccessCarriesEngineReport<Tree>(sourceCode: string, options: PartialOptions,
                                         parse: Parser<Tree>, rules: ImportRules<Tree>, generate: Printer<Tree>,
                                         ast: Tree, ast': Tree, report: Option<ImportResults>, code: string)
    requires parse(sourceCode, MergeOptions(options)) == Success(ast)
    requires rules(ast) == Success((ast', report))
    requires generate(ast', PrintOptions(MergeOptions(options).preserveComments, false, true)) == Success(code)
    ensures FirstFailure(sourceCode, options, parse, rules, generate) == None
    ensures var r := Pipeline(sourceCode, options, parse, rules, generate);
      && r.code == code
      && r.warnings == (if report.Some? && report.value.warnings.Some? then report.value.warnings.value else [])
      && r.changes == (if report.Some? && report.value.changes.Some? then report.value.changes.value else [])
      && r.imports == (if report.Some? && report.value.imports.Some? then report.value.imports.value else [])
  {
  }

  /** An absent engine result yields three empty sequences. */
  lemma AbsentReportIsEmpty<Tree>(sourceCode: string, options: PartialOptions,
                                  parse: Parser<Tree>, rules: ImportRules<Tree>, generate: Printer<Tree>,
                                  ast: Tree, ast': Tree, code: string)
    requires parse(sourceCode, MergeOptions(options)) == Success(ast)
    requires rules(ast) == Success((ast', None))
    requires generate(ast', PrinterOptions(MergeOptions(options))) == Success(code)
    ensures Pipeline(sourceCode, options, parse, rules, generate) == TransformResult(code, [], [], [])
  {
  }

  /** Once parsing throws, the rule engine and the printer are never consulted. */
  lemma LaterStagesIgnoredAfterFailure<Tree>(sourceCode: string, options: PartialOptions,
                                             parse: Parser<Tree>, rules: ImportRules<Tree>, generate: Printer<Tree>,
                                             rules2: ImportRules<Tree>, generate2: Printer<Tree>, e: Thrown)
    requires parse(sourceCode, MergeOptions(options)) == Failure(e)
    ensures Pipeline(sourceCode, options, parse, rules, generate) == Pipeline(sourceCode, options, parse, rules2, generate2)
  {
  }

  /** Once the rule engine throws, the printer is never consulted. */
  lemma PrinterIgnoredAfterRulesFailure<Tree>(sourceCode: string, options: PartialOptions,
                                              parse: Parser<Tree>, rules: ImportRules<Tree>, generate: Printer<Tree>,
                                              generate2: Printer<Tree>, ast: Tree, e: Thrown)
    requires parse(sourceCode, MergeOptions(options)) == Success(ast)
    requires rules(ast) == Failure(e)
    ensures Pipeline(sourceCode, options, parse, rules, generate) == Pipeline(sourceCode, options, parse, rules, generate2)
  {
  }

  /** Given an engine that never emits a warning shaped like the error entry,
      a result is degraded exactly when one of its warnings is an error entry. */
  lemma {:induction false} DegradedIffErrorWarning<Tree>(sourceCode: string, options: PartialOptions,
                                     parse: Parser<Tree>, rules: ImportRules<Tree>, generate: Printer<Tree>)
    requires forall w :: w in CollectedWarnings(sourceCode, options, parse, rules, generate) ==> !IsErrorEntry(w)
    ensures FirstFailure(sourceCode, options, parse, rules, generate).Some?
        <==> exists w :: w in Pipeline(sourceCode, options, parse, rules, generate).warnings && IsErrorEntry(w)
  {
    var r := Pipeline(sourceCode, options, parse, rules, generate);
    match FirstFailure(sourceCode, options, parse, rules, generate)
    case Some(e) =>
      AnyFailureFallback(sourceCode, options, parse, rules, generate, e);
      var entry := ErrorEntry(e);
      assert entry[..|ErrorPrefix|] == ErrorPrefix;
      assert entry == r.warnings[|r.warnings| - 1];
      assert entry in r.warnings && IsErrorEntry(entry);
    case None =>
      assert r.warnings == CollectedWarnings(sourceCode, options, parse, rules, generate);
  }

  // ---------------------------------------------------------------------
  // The pipeline with the options spread exactly as written
  // ---------------------------------------------------------------------

  /** The printer options object as written at lines 38-44: `comments` is
      whatever `opts.preserveComments` holds, `undefined` included. */
  datatype JsPrintOptions = JsPrintOptions(comments: JsValue, compact: bool, minimalEscaping: bool)

  /** `parseCode` handed the spread object itself. */
  type JsParser<Tree> = (string, JsObject) -> Result<Tree, Thrown>

  /** `generate` handed the printer options object as written. */
  type JsPrinter<-Tree> = (Tree, JsPrintOptions) -> Result<string, Thrown>

  /** The same parser, seen through a complete options record. */
  function ParserFor<Tree>(parse: JsParser<Tree>): Parser<Tree>
  {
    (s: string, o: Options) => parse(s, OptionsObject(o))
  }

  /** The same printer, seen through boolean print options. */
  function PrinterFor<Tree>(generate: JsPrinter<Tree>): Printer<Tree>
  {
    (t: Tree, po: PrintOptions) => generate(t, JsPrintOptions(JsBoolean(po.comments), po.compact, po.minimalEscaping))
  }

  /** `transformWithAst` with `opts` the literal spread of line 18, passed to
      `parseCode` as it is and read for `comments` as it is. Whatever the
      options, a throw in any stage gives the fallback with the warnings
      collected so far, and success gives the printer's code and the
      engine's report. */
  function PipelineAsWritten<Tree>(sourceCode: string, options: PartialOptions,
                                   parse: JsParser<Tree>, rules: ImportRules<Tree>, generate: JsPrinter<Tree>): (r: TransformResult)
    ensures var parsed := parse(sourceCode, SpreadAsWritten(options));
      parsed.Failure? ==> r == TransformResult(sourceCode, [ErrorEntry(parsed.error)], [], [])
    ensures var parsed := parse(sourceCode, SpreadAsWritten(options));
      parsed.Success? && rules(parsed.value).Failure? ==>
        r == TransformResult(sourceCode, [ErrorEntry(rules(parsed.value).error)], [], [])
    ensures var opts := SpreadAsWritten(options);
      var parsed := parse(sourceCode, opts);
      parsed.Success? && rules(parsed.value).Success? ==>
        var report := rules(parsed.value).value.1;
        var printed := generate(rules(parsed.value).value.0, JsPrintOptions(opts["preserveComments"], false, true));
        && (printed.Failure? ==>
              r == TransformResult(sourceCode, ReportedWarnings(report) + [ErrorEntry(printed.error)], [], []))
        && (printed.Success? ==>
              r == TransformResult(printed.value, ReportedWarnings(report), ReportedChanges(report), ReportedImports(report)))
  {
    var opts := SpreadAsWritten(options);
    Conclude(sourceCode, RunStages(sourceCode, opts, JsPrintOptions(opts["preserveComments"], false, true),
                                   parse, rules, generate))
  }

  /** Without an explicitly `undefined` option, the pipeline as written and
      the pipeline over MergeOptions return the same result. */
  lemma {:induction false} PipelineAsWrittenAgrees<Tree>(sourceCode: string, options: PartialOptions,
                                                         parse: JsParser<Tree>, rules: ImportRules<Tree>, generate: JsPrinter<Tree>)
    requires NoExplicitUndefined(options)
    ensures PipelineAsWritten(sourceCode, options, parse, rules, generate)
         == Pipeline(sourceCode, options, ParserFor(parse), rules, PrinterFor(generate))
  {
    SpreadAsWrittenAgrees(options);
  }

  /** As written, `preserveComments: undefined` reaches the printer as
      `comments: undefined`, where MergeOptions would hand it `true`. */
  lemma ExplicitUndefinedReachesPrinter<Tree>(sourceCode: string, options: PartialOptions,
                                              parse: JsParser<Tree>, rules: ImportRules<Tree>, generate: JsPrinter<Tree>,
                                              ast: Tree, ast': Tree, report: Option<ImportResults>, code: string)
    requires options.preserveComments.ExplicitUndefined?
    requires parse(sourceCode, SpreadAsWritten(options)) == Success(ast)
    requires rules(ast) == Success((ast', report))
    requires generate(ast', JsPrintOptions(JsUndefined, false, true)) == Success(code)
    ensures PipelineAsWritten(sourceCode, options, parse, rules, generate).code == code
    ensures PrinterOptions(MergeOptions(options)).comments
  {
  }
}

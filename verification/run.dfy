/** The application lifecycle: `run` settles the options, then calls the two
    hooks a concrete application supplies, `readOpts` and then `main`. */
module Lifecycle {
  import opened Wrappers
  import opened AppErrors
  import opened CliApp
  import OutputCalls

  /** What a caller may pass to `run`: nothing (`null`), an array of options
      shaped like `getopt`'s result, or any other value, shown by its text. */
  datatype OptionsInput = Null | Array(opts: Options) | Other(repr: string)

  /** The command-line parser: reads the process arguments against the short
      and long option descriptors and returns the options found, or `None`
      when it fails (PHP's `false`). */
  type ArgSource = (string, seq<string>) -> Option<Options>

  /** An exception raised by a hook, with the application as it stood when it
      was raised: what was written before the raise stays written, and the
      options stay set. */
  datatype Raised = Raised(state: App, err: Err)

  /** Stores the options `run` works with: parsed from the arguments when none
      are given (the parser's failure value when it fails), the given array as
      it is, and no options for anything else. No other field changes. */
  function NormaliseOptions(app: App, input: OptionsInput, args: ArgSource): (r: App)
    ensures r == app.(options := r.options)
    ensures input.Null? && args(app.optsShort, app.optsLong).Some? ==>
      r.options == Set(args(app.optsShort, app.optsLong).value)
    ensures input.Null? && args(app.optsShort, app.optsLong).None? ==> r.options == ParseFailed
    ensures input.Array? ==> r.options == Set(input.opts)
    ensures input.Other? ==> r.options == Set(map[])
  {
    match input
    case Null =>
      (match args(app.optsShort, app.optsLong)
       case Some(m) => app.(options := Set(m))
       case None => app.(options := ParseFailed))
    case Array(m) => app.(options := Set(m))
    case Other(_) => app.(options := Set(map[]))
  }

  /** `run`: settle the options, call `readOpts` on the result, then `main` on
      the state `readOpts` leaves, and return what `main` returns. An exception
      raised by either hook ends the run and is returned as it was raised. */
  function Run<S>(app: App, input: OptionsInput, args: ArgSource,
                  readOpts: App -> Result<App, Raised>,
                  main: App -> Result<(App, S), Raised>): (r: Result<(App, S), Raised>)
    ensures var n := NormaliseOptions(app, input, args);
      && (readOpts(n).Failure? ==> r == Failure(readOpts(n).error))
      && (r.Success? ==> readOpts(n).Success? && r == main(readOpts(n).value))
      && (r.Failure? ==> (readOpts(n).Failure? && r.error == readOpts(n).error)
                         || (readOpts(n).Success? && main(readOpts(n).value) == r))
  {
    var configured :- readOpts(NormaliseOptions(app, input, args));
    main(configured)
  }

  /** The application as a hook leaves it, whether it returns or raises. */
  function ReadOptsState(r: Result<App, Raised>): App {
    match r
    case Success(a) => a
    case Failure(x) => x.state
  }

  function MainState<S>(r: Result<(App, S), Raised>): App {
    match r
    case Success((a, _)) => a
    case Failure(x) => x.state
  }

  /** A `readOpts` that, returning or raising, only adds to the output. */
  ghost predicate ReadOptsAppends(readOpts: App -> Result<App, Raised>) {
    forall a :: Extends(ReadOptsState(readOpts(a)).out, a.out)
  }

  /** A `main` that, returning or raising, only adds to the output. */
  ghost predicate MainAppends<S>(main: App -> Result<(App, S), Raised>) {
    forall a :: Extends(MainState(main(a)).out, a.out)
  }

  /** When both hooks only add to the output, so does the whole run, whether
      it returns or ends with an exception. */
  lemma RunOutputGrows<S>(app: App, input: OptionsInput, args: ArgSource,
                          readOpts: App -> Result<App, Raised>,
                          main: App -> Result<(App, S), Raised>)
    requires ReadOptsAppends(readOpts) && MainAppends(main)
    ensures Extends(MainState(Run(app, input, args, readOpts, main)).out, app.out)
  {
  }

  /** A hook that makes a run of output calls only adds to the output. */
  lemma CallsHookAppends(calls: seq<OutputCalls.Call>)
    ensures ReadOptsAppends(a => Success(OutputCalls.PerformAll(a, calls)))
  {
    forall a: App
      ensures Extends(ReadOptsState(Success(OutputCalls.PerformAll(a, calls))).out, a.out)
    {
      OutputCalls.PerformAllAppends(a, calls);
    }
  }

  /** When `readOpts` fails, `main` is never called: whatever `main` would do,
      the run ends with `readOpts`'s exception and the state it left. */
  lemma ReadOptsFailureSkipsMain<S>(app: App, input: OptionsInput, args: ArgSource,
                                    readOpts: App -> Result<App, Raised>,
                                    main1: App -> Result<(App, S), Raised>,
                                    main2: App -> Result<(App, S), Raised>)
    requires readOpts(NormaliseOptions(app, input, args)).Failure?
    ensures Run(app, input, args, readOpts, main1) == Run(app, input, args, readOpts, main2)
    ensures Run(app, input, args, readOpts, main1).error == readOpts(NormaliseOptions(app, input, args)).error
  {
  }

  /** An expected error comes out of `run` exactly as a hook raised it: with
      the same message, still an expected error, and the same state. */
  lemma AppErrorPropagates<S>(app: App, input: OptionsInput, args: ArgSource,
                              readOpts: App -> Result<App, Raised>,
                              main: App -> Result<(App, S), Raised>)
    requires Run(app, input, args, readOpts, main).Failure?
    requires IsExpected(Run(app, input, args, readOpts, main).error.err)
    ensures var n := NormaliseOptions(app, input, args);
      var x := Run(app, input, args, readOpts, main).error;
      readOpts(n) == Failure(x)
      || (readOpts(n).Success? && main(readOpts(n).value) == Failure(x))
  {
  }

  /** Given an array, `run` never consults the command line: any two argument
      sources give the same run. */
  lemma ArrayIgnoresArgs<S>(app: App, opts: Options, args1: ArgSource, args2: ArgSource,
                            readOpts: App -> Result<App, Raised>,
                            main: App -> Result<(App, S), Raised>)
    ensures Run(app, Array(opts), args1, readOpts, main) == Run(app, Array(opts), args2, readOpts, main)
  {
  }

  /** Given nothing, `run` behaves as if it had been given the array the
      command-line parser returns for the declared options; when the parser
      fails, the hooks see its failure value, which no array input produces. */
  lemma NullIsParsedArray<S>(app: App, args: ArgSource, other: ArgSource,
                             readOpts: App -> Result<App, Raised>,
                             main: App -> Result<(App, S), Raised>)
    ensures args(app.optsShort, app.optsLong).Some? ==>
      Run(app, Null, args, readOpts, main)
      == Run(app, Array(args(app.optsShort, app.optsLong).value), other, readOpts, main)
    ensures args(app.optsShort, app.optsLong).None? ==>
      && NormaliseOptions(app, Null, args).options == ParseFailed
      && forall m :: NormaliseOptions(app, Array(m), other).options != ParseFailed
  {
  }

  /** Given any value that is neither nothing nor an array, `run` behaves as if
      it had been given an empty array. */
  lemma OtherIsEmptyArray<S>(app: App, repr: string, args: ArgSource,
                             readOpts: App -> Result<App, Raised>,
                             main: App -> Result<(App, S), Raised>)
    ensures Run(app, Other(repr), args, readOpts, main) == Run(app, Array(map[]), args, readOpts, main)
  {
  }

  /** Example `readOpts`: switches to VERBOSE when the `force` flag is present. */
  function ForceReadOpts(app: App): Result<App, Raised> {
    Success(if app.options.Set? && "force" in app.options.opts then app.(verbosity := VERBOSE) else app)
  }

  /** Example `main`: reports `done` as a VERBOSE message and returns status 0. */
  function DoneMain(app: App): Result<(App, int), Raised> {
    Success((Message(app, "done", Some(VERBOSE)), 0))
  }

  /** Example `readOpts`: rejects its options as a bad flag. */
  function RejectReadOpts(app: App): Result<App, Raised> {
    Failure(Raised(app, AppError("bad flag")))
  }

  /** Example `main`: reports progress, then fails with an expected error. */
  function ProgressThenFailMain(app: App): Result<(App, int), Raised> {
    Failure(Raised(Message(app, "progress", None), AppError("disk full")))
  }

  /** The example hooks run on a new application: with `force`, `DoneMain`'s
      VERBOSE message is written and its status 0 returned; without it, or
      with a non-array input, nothing is written; `RejectReadOpts` ends the run
      with its `AppError`; `ProgressThenFailMain`'s message stays written
      when it raises. */
  lemma RunScenarios(args: ArgSource)
    ensures Run(New(), Array(map["force" := NoValue]), args, ForceReadOpts, DoneMain).Success?
    ensures Run(New(), Array(map["force" := NoValue]), args, ForceReadOpts, DoneMain).value.0.out == ["done"]
    ensures Run(New(), Array(map["force" := NoValue]), args, ForceReadOpts, DoneMain).value.1 == 0
    ensures Run(New(), Array(map[]), args, ForceReadOpts, DoneMain).value.0.out == []
    ensures Run(New(), Other("force"), args, ForceReadOpts, DoneMain).value.0.out == []
    ensures Run(New(), Array(map["force" := NoValue]), args, RejectReadOpts, DoneMain).error.err == AppError("bad flag")
    ensures Run(New(), Array(map[]), args, ForceReadOpts, ProgressThenFailMain).error.err == AppError("disk full")
    ensures Run(New(), Array(map[]), args, ForceReadOpts, ProgressThenFailMain).error.state.out == ["progress"]
  {
  }
}

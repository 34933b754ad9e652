# CliApp, modelled in Dafny

`CliApp` is an abstract base class for PHP command-line applications. A
concrete application declares its short and long options and supplies two
hooks: `readOpts`, which configures the instance from its options, and
`main`, which does the work and returns a status. `run` settles where the
options come from (the command line, a caller-supplied array, or nothing),
then calls `readOpts` and then `main`. Three output helpers write to standard
out: `messageWrite` writes verbatim, `message` writes only when the
application's verbosity (SILENT −1 < NORMAL 0 < VERBOSE 1) reaches the
message's level, and `debugMessage` writes through the `[DEBUG] %s` pattern
only in debug mode. `CliAppException` marks expected, user-facing errors.

The model is functional. An application instance is an immutable record
`CliApp.App`, and standard out is an append-only log `out: seq<string>` with
one entry per `fwrite`; the bytes on standard out are the entries
concatenated (`CliApp.Stdout`), so an empty entry adds nothing to them.
Each helper is a pure function from one state to the next. The command-line
parser and the two hooks are function parameters. A hook's exception is the
`Failure` side of a `Result`. It carries the application as it stood when
the hook raised, so output written before the exception stays written, and
`AppErrors.Err` tells `AppError` apart from every other exception.

Files:
- `wrappers.dfy`: `Option` and `Result`.
- `errors.dfy`: the error kinds.
- `pattern.dfy`: the debug pattern as a one-slot `sprintf` template. An application only holds plain patterns (`PlainPattern`): no `%` in the text around the `%s` slot.
- `app.dfy`: the state, the constants and the three output helpers.
- `calls.dfy`: a sequence of output calls, as a hook makes them, with a state-free description of what it writes, stated directly from the configuration fields rather than through the helpers.
- `run.dfy`: `run`, with option normalisation and the order of the hooks.

## Model

| member | source | states |
|---|---|---|
| CliApp.MessageWrite | src/pjdietz/CliApp/CliApp.php:81-84 | appends exactly one entry, the message verbatim; every earlier entry and every other field stays as it was |
| CliApp.Message | src/pjdietz/CliApp/CliApp.php:93-106 | the output changes exactly when the verbosity is at least the message level, and the level defaults to the application's default when omitted; when it changes, only the message is appended; otherwise the state is untouched |
| CliApp.MessageWriteStdout | src/pjdietz/CliApp/CliApp.php:81-84 | standard out after a write is standard out before it followed by the message, with no separator; writing the empty string leaves standard out as it was |
| CliApp.DebugMessage | src/pjdietz/CliApp/CliApp.php:114-119 | in debug mode, appends exactly the message placed in the pattern's slot; otherwise the state is untouched; no field but the output ever changes |
| CliApp.MessageDefaultLevel | src/pjdietz/CliApp/CliApp.php:97-99 | a message without a level behaves exactly as one at `verbosityMessageDefault` |
| CliApp.MessageMonotone | src/pjdietz/CliApp/CliApp.php:103 | a message shown at some verbosity is also shown at every higher verbosity |
| CliApp.SilentDropsMessages | src/pjdietz/CliApp/CliApp.php:12-14 | at SILENT, every message of level NORMAL or VERBOSE (or higher) is dropped |
| CliApp.DebugIgnoresVerbosity | src/pjdietz/CliApp/CliApp.php:116-118 | what a debug message writes does not depend on the verbosity |
| CliApp.NewDefaults | src/pjdietz/CliApp/CliApp.php:16-33 | a new application has NORMAL verbosity and message default and debugging off: a message without a level is shown, a VERBOSE one is dropped, a debug one is dropped; once debugging is on, it writes `[DEBUG] ` followed by the message; the pattern is what `[DEBUG] %s` reads as |
| DebugPattern.Render | src/pjdietz/CliApp/CliApp.php:117 | `sprintf` on the pattern's template: the template holds `%s` where the prefix ends, and the message takes the place of exactly those two characters, with the text on both sides kept |
| DebugPattern.Parse | src/pjdietz/CliApp/CliApp.php:17 | every pattern read from a template has no `%` outside its slot, and its template is the text it was read from |
| DebugPattern.ParseTemplate | src/pjdietz/CliApp/CliApp.php:17 | every pattern with no `%` outside its slot is read back from its own template; with `Parse`'s contract this makes reading and writing templates inverse |
| DebugPattern.RenderTemplate | src/pjdietz/CliApp/CliApp.php:117 | for every accepted template, the text has `%s` where the prefix ends, and rendering replaces exactly those two characters with the message, keeping the text on both sides |
| DebugPattern.DefaultPatternTemplate | src/pjdietz/CliApp/CliApp.php:17 | `[DEBUG] %s` reads as prefix `[DEBUG] ` and an empty suffix, so a debug message is `[DEBUG] ` followed by the text |
| OutputCalls.Entry | src/pjdietz/CliApp/CliApp.php:81-119 | each output call writes at most one entry (the entry itself is given directly by the source's conditions, without the helpers) |
| OutputCalls.PerformStep | src/pjdietz/CliApp/CliApp.php:81-119 | one call of any helper changes only the output, and appends exactly the entry that the configuration alone determines |
| OutputCalls.PerformAllOutput | src/pjdietz/CliApp/CliApp.php:81-119 | a sequence of output calls keeps every field but the output, and appends exactly the entries that the state-free description gives, in call order |
| OutputCalls.EmittedDependsOnConfig | src/pjdietz/CliApp/CliApp.php:103-117 | what a sequence of calls writes depends only on the configuration, not on what was written earlier |
| OutputCalls.PerformAllAppends | src/pjdietz/CliApp/CliApp.php:83 | the output log only grows: no earlier entry is removed or changed |
| OutputCalls.EmittedMonotone | src/pjdietz/CliApp/CliApp.php:103 | at a higher verbosity, a sequence of calls writes everything it wrote at a lower one, in the same order, and possibly more |
| OutputCalls.SilentWritesNothing | src/pjdietz/CliApp/CliApp.php:12-14 | a SILENT application with debugging off writes nothing for a sequence of messages of level NORMAL or above |
| Lifecycle.NormaliseOptions | src/pjdietz/CliApp/CliApp.php:53-69 | given nothing, the options are what the parser returns for the declared options, or the parser's failure value when it fails; given an array, that array; given anything else, no options; no other field changes |
| Lifecycle.Run | src/pjdietz/CliApp/CliApp.php:50-74 | if `readOpts` raises, the run ends with that same exception and the state it left; a successful run returns exactly `main`'s result on the state `readOpts` produced; a failing run carries the exception of `readOpts` or of `main` |
| Lifecycle.RunOutputGrows | src/pjdietz/CliApp/CliApp.php:71-72 | when both hooks only add to the output, the whole run only adds to it, whether it returns or raises: output written before an exception is kept |
| Lifecycle.CallsHookAppends | src/pjdietz/CliApp/CliApp.php:121-124 | a `readOpts` that only makes output calls only adds to the output |
| Lifecycle.ReadOptsFailureSkipsMain | src/pjdietz/CliApp/CliApp.php:71-72 | when `readOpts` fails, the result is the same whatever `main` is, so `main` is never called, and the error is `readOpts`'s |
| Lifecycle.AppErrorPropagates | src/pjdietz/CliApp/CliApp.php:71-72 | an expected error (`AppError`) that comes out of `run` was raised, with the same message and state, by `readOpts` or by `main` |
| Lifecycle.ArrayIgnoresArgs | src/pjdietz/CliApp/CliApp.php:58-62 | given an array, the run is the same for every command-line parser |
| Lifecycle.NullIsParsedArray | src/pjdietz/CliApp/CliApp.php:53-56 | given nothing, the run equals the run given the parser's result as an array; when the parser fails, the options hold its failure value, which no array input produces |
| Lifecycle.OtherIsEmptyArray | src/pjdietz/CliApp/CliApp.php:64-67 | given any other value, the run equals the run given an empty array |
| Lifecycle.RunScenarios | src/pjdietz/CliApp/CliApp.php:50-74 | an example only, on a new application with fixed hooks: with the `force` flag, `ForceReadOpts` makes `DoneMain`'s VERBOSE message appear and its status 0 come back; without it, or given a non-array, nothing is written; `RejectReadOpts` ends the run with its `AppError("bad flag")`; `ProgressThenFailMain`'s message stays written when it raises |

## Left out

- Opening, writing and closing the real standard out (`fopen` in the constructor, `fclose` in the destructor, `fwrite` in `messageWrite`) are I/O. The stream is the `out` log, so there is no handle to leak or to use after closing.
- `getopt` and the syntax of `optsShort`/`optsLong` belong to PHP's runtime, which reads the real process arguments. The parser is the `ArgSource` parameter of `Run`; it returns `None` where `getopt` returns `false`. `OptVal` only gives the shape of its result. Before `run`, the `options` field is PHP `null`, modelled as `Unset`.
- General `sprintf` semantics are left out: `%%`, other directives, widths, and templates with no slot or several slots. `Parse` accepts only templates whose one directive is a single `%s`. The `debugPattern` field is a `PlainPattern`, so a pattern with any other `%` cannot be set.
- The concrete `readOpts` and `main` are abstract in the class, so they are parameters. The four small hooks in `run.dfy` serve only as examples.
- The entry-point example in the doc comment of `CliAppException.php` is not modelled. It passes the message to PHP's `exit`. Given a string, `exit` prints it and ends with status 0, not with a non-zero status. The exception class has no logic of its own and is the `AppError` variant.
- Lifecycle.NormaliseOptions: an array given to `run` is modelled as a map from string keys to getopt-shaped values. PHP arrays may also have integer keys, keep an insertion order that a hook may iterate over, and hold any value (such as `true`). The model keeps none of these.
- `run`'s status is PHP `mixed`, so `Run` is generic in the status type `S`.
- The verbosity and message levels are unbounded integers. The class does not restrict them to the three constants, and its `>=` is modelled on integers only. PHP's loose comparison of non-integer levels is not modelled.
- The doc comment above the gate in `message` describes the comparison the other way round. The model follows the code: a message is shown when the application's verbosity is at least the message's level.

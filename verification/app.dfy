/** The state of one application instance and its three output helpers.
    The output stream is an append-only log with one entry per write; what
    reaches standard out is the concatenation of the entries (`Stdout`). */
module CliApp {
  import opened Wrappers
  import opened DebugPattern

  /** The three verbosity levels, ordered SILENT < NORMAL < VERBOSE. */
  const VERBOSE: int := 1
  const NORMAL: int := 0
  const SILENT: int := -1

  /** A value in the options map, in the shape `getopt` produces: a flag given
      without a value, a flag's value, or the values of a repeated flag. */
  datatype OptVal = NoValue | Text(value: string) | Repeated(values: seq<OptVal>)

  type Options = map<string, OptVal>

  /** The `options` field: unset before `run` (PHP `null`), the parser's
      failure value (PHP `false`), or a map of options. */
  datatype OptionsField = Unset | ParseFailed | Set(opts: Options)

  /** One application instance. `out` is everything written to standard out. */
  datatype App = App(
    debugMode: bool,
    debugPattern: PlainPattern,
    optsShort: string,
    optsLong: seq<string>,
    options: OptionsField,
    verbosityMessageDefault: int,
    verbosity: int,
    out: seq<string>)

  /** A freshly constructed application: debugging off, the `[DEBUG] %s`
      pattern, no declared options, options unset, NORMAL verbosity and
      message default, nothing written yet. */
  function New(): App {
    App(false, DefaultPattern, "", [], Unset, NORMAL, NORMAL, [])
  }

  /** `a` and `b` agree on every field but the output log. */
  predicate SameConfig(a: App, b: App) {
    a.(out := b.out) == b
  }

  /** `before` is an initial part of `after`: nothing written is ever lost. */
  predicate Extends(after: seq<string>, before: seq<string>) {
    |before| <= |after| && after[..|before|] == before
  }

  /** The bytes on standard out: the log's entries, one after another. */
  function Stdout(log: seq<string>): string
    decreases |log|
  {
    if |log| == 0 then "" else Stdout(log[..|log| - 1]) + log[|log| - 1]
  }

  /** Writes `m` to the output exactly as given: no newline, no formatting. */
  function MessageWrite(app: App, m: string): (r: App)
    ensures SameConfig(r, app)
    ensures Extends(r.out, app.out) && |r.out| == |app.out| + 1
    ensures r.out[|app.out|] == m
  {
    app.(out := app.out + [m])
  }

  /** Standard out after a write is standard out before it followed by the
      message, with no separator; writing the empty string leaves it as it was. */
  lemma MessageWriteStdout(app: App, m: string)
    ensures Stdout(MessageWrite(app, m).out) == Stdout(app.out) + m
    ensures m == "" ==> Stdout(MessageWrite(app, m).out) == Stdout(app.out)
  {
  }

  /** The level a message is given: the caller's, or the application's
      default when the caller gives none. */
  function LevelOf(app: App, level: Option<int>): int {
    match level
    case None => app.verbosityMessageDefault
    case Some(l) => l
  }

  /** Whether an application at `verbosity` shows a message of `level`. */
  predicate Shows(verbosity: int, level: int) {
    verbosity >= level
  }

  /** Writes `m` only when the application's verbosity reaches the
      message's level; otherwise drops it. */
  function Message(app: App, m: string, level: Option<int>): (r: App)
    ensures SameConfig(r, app)
    ensures Shows(app.verbosity, LevelOf(app, level)) <==> r.out != app.out
    ensures Shows(app.verbosity, LevelOf(app, level)) ==> r.out == app.out + [m]
    ensures !Shows(app.verbosity, LevelOf(app, level)) ==> r == app
  {
    if app.verbosity >= LevelOf(app, level) then MessageWrite(app, m) else app
  }

  /** Writes `m`, placed in the debug pattern's slot, only in debug mode. */
  function DebugMessage(app: App, m: string): (r: App)
    ensures SameConfig(r, app)
    ensures !app.debugMode ==> r == app
    ensures app.debugMode ==> r.out == app.out + [Render(app.debugPattern, m)]
  {
    if app.debugMode then MessageWrite(app, Render(app.debugPattern, m)) else app
  }

  /** A message without a level behaves exactly as one at the application's
      default level. */
  lemma MessageDefaultLevel(app: App, m: string)
    ensures Message(app, m, None) == Message(app, m, Some(app.verbosityMessageDefault))
  {
  }

  /** Raising the verbosity never hides a message that was shown. */
  lemma MessageMonotone(app: App, m: string, level: Option<int>, v: int)
    requires app.verbosity <= v
    requires Message(app, m, level).out != app.out
    ensures Message(app.(verbosity := v), m, level).out == app.out + [m]
  {
  }

  /** A SILENT application drops every message of level NORMAL or above. */
  lemma SilentDropsMessages(app: App, m: string, level: Option<int>)
    requires app.verbosity == SILENT
    requires LevelOf(app, level) >= NORMAL
    ensures Message(app, m, level) == app
  {
  }

  /** Debug output depends on debug mode alone, never on the verbosity. */
  lemma DebugIgnoresVerbosity(app: App, m: string, v: int)
    ensures DebugMessage(app.(verbosity := v), m).out == DebugMessage(app, m).out
  {
  }

  /** With the construction defaults: debug messages are dropped, a message
      with no level is shown, a VERBOSE message is dropped, and once debugging
      is switched on a debug message is written as `[DEBUG] ` and the text. */
  lemma NewDefaults(m: string)
    ensures New().verbosityMessageDefault == NORMAL && New().verbosity == NORMAL
    ensures DebugMessage(New(), m) == New()
    ensures Message(New(), m, None).out == [m]
    ensures Message(New(), m, Some(VERBOSE)).out == []
    ensures DebugMessage(New().(debugMode := true), m).out == ["[DEBUG] " + m]
    ensures Parse("[DEBUG] %s") == Some(New().debugPattern)
  {
    DefaultPatternTemplate(m);
  }
}

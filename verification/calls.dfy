/** A run of output calls, as a hook such as `main` makes them one after
    another, and a state-free description of what such a run writes, stated
    directly from the configuration fields rather than through the helpers. */
module OutputCalls {
  import opened Wrappers
  import opened DebugPattern
  import opened CliApp

  /** One call of an output helper. */
  datatype Call =
    | Write(text: string)
    | Say(text: string, level: Option<int>)
    | Debug(text: string)

  /** Performs one call on the application. */
  function Perform(app: App, c: Call): App {
    match c
    case Write(t) => MessageWrite(app, t)
    case Say(t, l) => Message(app, t, l)
    case Debug(t) => DebugMessage(app, t)
  }

  /** Performs the calls in order, first to last. */
  function PerformAll(app: App, cs: seq<Call>): App
    decreases |cs|
  {
    if |cs| == 0 then app else PerformAll(Perform(app, cs[0]), cs[1..])
  }

  /** The entries one call adds, written directly from the configuration
      fields and not through the helpers: a raw write always; a message when
      the verbosity is at least its level, or at least the default level when
      it has none; a debug message, wrapped in the pattern's prefix and
      suffix, when debugging is on. */
  function Entry(cfg: App, c: Call): (r: seq<string>)
    ensures |r| <= 1
  {
    match c
    case Write(t) => [t]
    case Say(t, None) => if cfg.verbosity >= cfg.verbosityMessageDefault then [t] else []
    case Say(t, Some(l)) => if cfg.verbosity >= l then [t] else []
    case Debug(t) =>
      if cfg.debugMode then [cfg.debugPattern.prefix + t + cfg.debugPattern.suffix] else []
  }

  /** Everything a run of calls writes under configuration `cfg`. */
  function Emitted(cfg: App, cs: seq<Call>): seq<string>
    decreases |cs|
  {
    if |cs| == 0 then [] else Entry(cfg, cs[0]) + Emitted(cfg, cs[1..])
  }

  /** `a` can be obtained from `b` by deleting entries. */
  predicate IsSubsequence(a: seq<string>, b: seq<string>)
    decreases |b|
  {
    |a| == 0 || (|b| > 0 && ((a[0] == b[0] && IsSubsequence(a[1..], b[1..])) || IsSubsequence(a, b[1..])))
  }

  /** One call changes the output alone and appends exactly its entry. */
  lemma PerformStep(app: App, c: Call)
    ensures Perform(app, c) == app.(out := app.out + Entry(app, c))
  {
    match c
    case Write(t) =>
    case Say(t, l) =>
      assert Shows(app.verbosity, LevelOf(app, l)) <==> Entry(app, c) == [t];
    case Debug(t) =>
  }

  /** A run of calls leaves the configuration as it was and appends exactly
      the entries `Emitted` describes, in call order. */
  lemma {:induction false} PerformAllOutput(app: App, cs: seq<Call>)
    ensures PerformAll(app, cs) == app.(out := app.out + Emitted(app, cs))
    decreases |cs|
  {
    if |cs| > 0 {
      var next := Perform(app, cs[0]);
      PerformStep(app, cs[0]);
      assert next == app.(out := app.out + Entry(app, cs[0]));
      PerformAllOutput(next, cs[1..]);
      assert Emitted(next, cs[1..]) == Emitted(app, cs[1..]) by {
        EmittedDependsOnConfig(next, app, cs[1..]);
      }
      assert next.out + Emitted(app, cs[1..]) == app.out + Emitted(app, cs);
    }
  }

  /** What a run writes depends only on the configuration, not on what was
      written before. */
  lemma {:induction false} EmittedDependsOnConfig(a: App, b: App, cs: seq<Call>)
    requires SameConfig(a, b)
    ensures Emitted(a, cs) == Emitted(b, cs)
    decreases |cs|
  {
    if |cs| > 0 {
      assert Entry(a, cs[0]) == Entry(b, cs[0]);
      EmittedDependsOnConfig(a, b, cs[1..]);
    }
  }

  /** The output log only grows: a run never removes or rewrites an entry. */
  lemma PerformAllAppends(app: App, cs: seq<Call>)
    ensures Extends(PerformAll(app, cs).out, app.out)
    ensures SameConfig(PerformAll(app, cs), app)
  {
    PerformAllOutput(app, cs);
  }

  /** A more verbose application writes everything a less verbose one
      writes, in the same order, and possibly more. */
  lemma {:induction false} EmittedMonotone(cfg: App, v: int, cs: seq<Call>)
    requires cfg.verbosity <= v
    ensures IsSubsequence(Emitted(cfg, cs), Emitted(cfg.(verbosity := v), cs))
    decreases |cs|
  {
    var hi := cfg.(verbosity := v);
    if |cs| > 0 {
      EmittedMonotone(cfg, v, cs[1..]);
      var lo', hi' := Emitted(cfg, cs[1..]), Emitted(hi, cs[1..]);
      var e, f := Entry(cfg, cs[0]), Entry(hi, cs[0]);
      if |e| == 0 {
        if |f| != 0 {
          assert f == [f[0]];
          SkipOne(f[0], lo', hi');
        } else {
          assert f + hi' == hi';
        }
        assert e + lo' == lo';
      } else {
        assert e == f;
        assert (e + lo')[1..] == lo';
        assert (f + hi')[1..] == hi';
      }
    }
  }

  /** Putting one more entry in front of the longer sequence keeps a
      subsequence a subsequence. */
  lemma SkipOne(x: string, a: seq<string>, b: seq<string>)
    requires IsSubsequence(a, b)
    ensures IsSubsequence(a, [x] + b)
  {
    assert ([x] + b)[1..] == b;
  }

  /** A SILENT application with debugging off writes nothing for a run of
      messages that are all of level NORMAL or above. */
  lemma {:induction false} SilentWritesNothing(cfg: App, cs: seq<Call>)
    requires cfg.verbosity == SILENT && cfg.verbosityMessageDefault >= NORMAL && !cfg.debugMode
    requires forall i :: 0 <= i < |cs| ==> !cs[i].Write? && (cs[i].Say? && cs[i].level.Some? ==> cs[i].level.value >= NORMAL)
    ensures Emitted(cfg, cs) == []
    decreases |cs|
  {
    if |cs| > 0 {
      assert Entry(cfg, cs[0]) == [];
      SilentWritesNothing(cfg, cs[1..]);
    }
  }
}

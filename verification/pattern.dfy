/** The debug pattern: a `sprintf` template with exactly one `%s` slot,
    held as the text before the slot and the text after it. */
module DebugPattern {
  import opened Wrappers

  datatype Pattern = Pattern(prefix: string, suffix: string)

  /** The pattern a new application starts with, `[DEBUG] %s`. */
  const DefaultPattern: Pattern := Pattern("[DEBUG] ", "")

  /** A pattern whose two halves hold no `%`, so that its template has no
      directive other than the one slot. */
  predicate Plain(p: Pattern) {
    '%' !in p.prefix && '%' !in p.suffix
  }

  /** The patterns an application may hold: one `%s` slot and no other `%`. */
  type PlainPattern = p: Pattern | Plain(p) witness DefaultPattern

  /** The template text of a pattern: its prefix, the `%s` slot, its suffix. */
  function Template(p: Pattern): string {
    p.prefix + "%s" + p.suffix
  }

  /** `sprintf(template, m)` for a one-slot template: `m` takes the place of
      the two characters `%s` in the pattern's template, and the template's
      text on both sides of the slot is kept as it was. */
  function Render(p: Pattern, m: string): (r: string)
    ensures Template(p)[|p.prefix|..|p.prefix| + 2] == "%s"
    ensures r == Template(p)[..|p.prefix|] + m + Template(p)[|p.prefix| + 2..]
  {
    p.prefix + m + p.suffix
  }

  /** Reads a template into a pattern. Only templates whose one directive is a
      single `%s` are accepted; anything else gives `None`. */
  function Parse(t: string): (r: Option<Pattern>)
    ensures r.Some? ==> Plain(r.value) && Template(r.value) == t
    decreases |t|
  {
    if |t| == 0 then None
    else if t[0] == '%' then
      if |t| >= 2 && t[1] == 's' && '%' !in t[2..] then Some(Pattern("", t[2..])) else None
    else
      match Parse(t[1..])
      case None => None
      case Some(p) => Some(Pattern([t[0]] + p.prefix, p.suffix))
  }

  /** Every plain pattern is read back from its own template, so together with
      `Parse`'s contract: `Parse(t) == Some(p)` exactly when `p` is plain and
      `t == Template(p)`. */
  lemma {:induction false} ParseTemplate(p: Pattern)
    requires Plain(p)
    ensures Parse(Template(p)) == Some(p)
    decreases |p.prefix|
  {
    var t := Template(p);
    if |p.prefix| == 0 {
      assert t == "%s" + p.suffix;
      assert t[2..] == p.suffix;
    } else {
      var q := Pattern(p.prefix[1..], p.suffix);
      assert t[0] == p.prefix[0];
      assert t[1..] == Template(q);
      ParseTemplate(q);
      assert [t[0]] + q.prefix == p.prefix;
    }
  }

  /** `sprintf` on any accepted template: the message replaces the `%s`
      slot, and the text on both sides of the slot is kept as it was. */
  lemma RenderTemplate(t: string, m: string)
    requires Parse(t).Some?
    ensures var i := |Parse(t).value.prefix|;
      && i + 2 <= |t| && t[i..i + 2] == "%s"
      && Render(Parse(t).value, m) == t[..i] + m + t[i + 2..]
  {
    var p := Parse(t).value;
    var i := |p.prefix|;
    assert t == p.prefix + "%s" + p.suffix;
    assert t[..i] == p.prefix;
    assert t[i + 2..] == p.suffix;
  }

  /** The default pattern is what the template `[DEBUG] %s` reads as, and it
      puts `[DEBUG] ` in front of the message and nothing after it. */
  lemma DefaultPatternTemplate(m: string)
    ensures Parse("[DEBUG] %s") == Some(DefaultPattern)
    ensures Render(DefaultPattern, m) == "[DEBUG] " + m
  {
    assert Template(DefaultPattern) == "[DEBUG] %s";
    ParseTemplate(DefaultPattern);
  }
}

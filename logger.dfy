/**
 * The console logger of the bot (core/utils/logger.js): a table from severity
 * names to numeric levels, a mutable minimum level, the filter that decides
 * whether a message is shown, and the rewrite of `**x**` and `__x__` in string
 * values into ANSI bright and underline spans.
 */
module Logging {
  import opened Wrappers

  // ANSI control codes used by the logger.
  const Esc: char := '\U{1B}'
  const Reset: string := "\U{1B}[0m"
  const Bright: string := "\U{1B}[1m"
  const Underscore: string := "\U{1B}[4m"
  const Red: string := "\U{1B}[31m"
  const Green: string := "\U{1B}[32m"
  const Yellow: string := "\U{1B}[33m"
  const Magenta: string := "\U{1B}[35m"

  /** The severity names of the level table, in declaration order. */
  const SeverityNames: seq<string> := ["debug", "info", "warning", "warn", "err", "error", "none"]

  /** The level table; `warn` and `err` are aliases of `warning` and `error`. */
  const SeverityLevels: map<string, int> :=
    map["debug" := 1, "info" := 2, "warning" := 3, "warn" := 3, "err" := 4, "error" := 4, "none" := 5]

  /** Looking a name up in the level table; `None` is the `undefined` an unknown name yields. */
  function Level(severity: string): (r: Option<int>)
    ensures r.Some? <==> severity in SeverityNames
    ensures r.Some? ==> 1 <= r.value <= 5
  {
    if severity in SeverityLevels then Some(SeverityLevels[severity]) else None
  }

  /** The coloured tag printed for a level; level 5 (`none`) has none. */
  function LevelLabel(level: int): (r: Option<string>)
    ensures r.Some? <==> 1 <= level <= 4
  {
    if level == 1 then Some(Magenta + "[DEBUG]")
    else if level == 2 then Some(Green + "[INFO]")
    else if level == 3 then Some(Yellow + "[WARN]")
    else if level == 4 then Some(Red + "[ERR]")
    else None
  }

  /**
   * The filter of `log`: the minimum level is at most the message's level.
   * A JavaScript comparison with `undefined` on either side is false.
   */
  predicate Shown(minimum: Option<int>, severity: string)
    ensures Shown(minimum, severity) ==> minimum.Some? && severity in SeverityNames
    ensures Shown(minimum, severity) ==> minimum.value <= Level(severity).value
  {
    minimum.Some? && Level(severity).Some? && minimum.value <= Level(severity).value
  }

  lemma SeverityAliases()
    ensures Level("warn") == Level("warning") == Some(3)
    ensures Level("err") == Level("error") == Some(4)
  {
  }

  lemma SeverityOrder()
    ensures Level("debug").value < Level("info").value < Level("warning").value
    ensures Level("warning").value < Level("error").value < Level("none").value
  {
  }

  /** An unknown severity, or an undefined minimum level, shows nothing. */
  lemma UndefinedLevelsHide(minimum: Option<int>, severity: string)
    requires minimum.None? || severity !in SeverityNames
    ensures !Shown(minimum, severity)
  {
  }

  /** Raising the minimum level never shows more messages. */
  lemma RaisingMinimumHidesMore(low: int, high: int, severity: string)
    requires low <= high
    ensures Shown(Some(high), severity) ==> Shown(Some(low), severity)
  {
  }

  /** With the minimum at `none`, only messages of severity `none` pass the filter. */
  lemma NoneMinimumShowsOnlyNone(severity: string)
    ensures Shown(Level("none"), severity) <==> severity == "none"
  {
  }

  // ---------------------------------------------------------------------
  // The markdown rewrite: `/\*\*(.*?)\*\*/g` and then `/__(.*?)__/g`.
  // ---------------------------------------------------------------------

  /** The characters JavaScript's `.` does not match. */
  const LineTerminators: set<char> := {'\n', '\r', '\U{2028}', '\U{2029}'}

  /** The two markdown spans the logger understands. */
  datatype Markup = Bold | Underline {
    /** The character that, doubled, opens and closes the span. */
    function Mark(): char { if Bold? then '*' else '_' }

    function Delimiter(): string { [Mark(), Mark()] }

    /** The control code that replaces the opening delimiter. */
    function Code(): string { if Bold? then Bright else Underscore }
  }

  /** The delimiter of `m` starts at index `k` of `s`. */
  predicate PairAt(s: string, m: Markup, k: nat)
  {
    k + 1 < |s| && s[k] == m.Mark() && s[k + 1] == m.Mark()
  }

  /**
   * Reference definition of the lazy `(.*?)` followed by the delimiter, for a
   * capture starting at `j`: the delimiter starts at `k`, and no earlier
   * position from `j` on holds a line terminator or starts the delimiter.
   */
  ghost predicate IsClose(s: string, m: Markup, j: nat, k: nat)
  {
    j <= k && PairAt(s, m, k) &&
    forall t :: j <= t < k ==> s[t] !in LineTerminators && !PairAt(s, m, t)
  }

  /** A capture has at most one end: the lazy group stops at the first delimiter. */
  lemma CloseUnique(s: string, m: Markup, j: nat, k1: nat, k2: nat)
    requires IsClose(s, m, j, k1) && IsClose(s, m, j, k2)
    ensures k1 == k2
  {
  }

  /**
   * The regular-expression engine extending the lazy group from `j`: try the
   * delimiter here, else consume one character that is not a line terminator.
   */
  function CloseFrom(s: string, m: Markup, j: nat): (r: Option<nat>)
    requires j <= |s|
    ensures r.Some? ==> IsClose(s, m, j, r.value)
    ensures r.None? ==> forall k :: !IsClose(s, m, j, k)
    decreases |s| - j
  {
    if PairAt(s, m, j) then Some(j)
    else if j < |s| && s[j] !in LineTerminators then
      CloseStep(s, m, j);
      CloseFrom(s, m, j + 1)
    else None
  }

  /** Past a character that is neither a line terminator nor a delimiter, the capture goes on. */
  lemma CloseStep(s: string, m: Markup, j: nat)
    requires j < |s| && s[j] !in LineTerminators && !PairAt(s, m, j)
    ensures forall k :: IsClose(s, m, j, k) <==> IsClose(s, m, j + 1, k)
  {
  }

  /** The capture is found exactly when the reference definition has one. */
  lemma CloseFromComplete(s: string, m: Markup, j: nat, k: nat)
    requires j <= |s| && IsClose(s, m, j, k)
    ensures CloseFrom(s, m, j) == Some(k)
  {
    CloseUnique(s, m, j, CloseFrom(s, m, j).value, k);
  }

  /** Shifting a string by one character shifts where the delimiter occurs. */
  lemma PairAtTail(s: string, m: Markup)
    requires |s| > 0
    ensures forall k: nat :: PairAt(s[1..], m, k) == PairAt(s, m, k + 1)
  {
  }

  /**
   * The global `replace` of one span kind: the leftmost match is replaced by
   * the code, the capture and the reset code, and the scan resumes after it;
   * where no match starts, one character is kept. A string in which the
   * delimiter never occurs is unchanged.
   */
  function Rewrite(s: string, m: Markup): (r: string)
    ensures (forall k: nat :: !PairAt(s, m, k)) ==> r == s
    decreases |s|
  {
    if |s| == 0 then []
    else if PairAt(s, m, 0) && CloseFrom(s, m, 2).Some? then
      var k := CloseFrom(s, m, 2).value;
      m.Code() + s[2..k] + Reset + Rewrite(s[k + 2..], m)
    else
      PairAtTail(s, m);
      [s[0]] + Rewrite(s[1..], m)
  }

  /**
   * A span with a capture `x` that holds no line terminator and reaches no
   * delimiter before its closing one is replaced by code + x + reset, and the
   * rest of the string is rewritten on its own.
   */
  lemma {:induction false} RewriteSpan(m: Markup, x: string, rest: string)
    requires forall t :: 0 <= t < |x| ==> x[t] !in LineTerminators
    requires forall t: nat :: t < |x| ==> !PairAt(x + m.Delimiter(), m, t)
    ensures Rewrite(m.Delimiter() + x + m.Delimiter() + rest, m) == m.Code() + x + Reset + Rewrite(rest, m)
  {
    var d := m.Delimiter();
    var s := d + x + d + rest;
    var k := |x| + 2;
    forall t | 2 <= t < k
      ensures s[t] !in LineTerminators && !PairAt(s, m, t)
    {
      assert s[t] == x[t - 2];
      assert (x + d)[t - 2] == s[t] && (x + d)[t - 1] == s[t + 1];
      assert !PairAt(x + d, m, t - 2);
    }
    assert PairAt(s, m, k);
    assert IsClose(s, m, 2, k);
    CloseFromComplete(s, m, 2, k);
    assert PairAt(s, m, 0);
    assert s[2..k] == x;
    assert s[k + 2..] == rest;
  }

  /** A delimiter with no closing one before the next line break is kept as it is. */
  lemma RewriteUnclosed(m: Markup, s: string)
    requires PairAt(s, m, 0)
    requires forall k :: !IsClose(s, m, 2, k)
    ensures Rewrite(s, m) == [m.Mark()] + Rewrite(s[1..], m)
  {
  }

  /** The rewrite `log` applies to a string: the bold pass first, then the underline pass. */
  function Markdown(s: string): (r: string)
    ensures (forall k: nat :: !PairAt(s, Bold, k) && !PairAt(s, Underline, k)) ==> r == s
  {
    Rewrite(Rewrite(s, Bold), Underline)
  }

  // ---------------------------------------------------------------------
  // A partner of the rewrite: the markdown it consumed can be restored.
  // ---------------------------------------------------------------------

  /** The first escape character at or after `j`. */
  function NextEsc(t: string, j: nat): (r: Option<nat>)
    requires j <= |t|
    ensures r.Some? ==> j <= r.value < |t| && t[r.value] == Esc
    ensures r.Some? ==> forall i :: j <= i < r.value ==> t[i] != Esc
    ensures r.None? ==> forall i :: j <= i < |t| ==> t[i] != Esc
    decreases |t| - j
  {
    if j == |t| then None
    else if t[j] == Esc then Some(j)
    else NextEsc(t, j + 1)
  }

  /** Turns every `code x reset` whose `x` holds no escape back into `<d> x <d>`. */
  function Restore(t: string, m: Markup): string
    decreases |t|
  {
    if |t| == 0 then []
    else if 4 <= |t| && t[..4] == m.Code() && NextEsc(t, 4).Some? then
      var k := NextEsc(t, 4).value;
      if k + 4 <= |t| && t[k..k + 4] == Reset then
        m.Delimiter() + t[4..k] + m.Delimiter() + Restore(t[k + 4..], m)
      else
        [t[0]] + Restore(t[1..], m)
    else
      [t[0]] + Restore(t[1..], m)
  }

  /** The escape that opens the reset code is the first one after an escape-free capture. */
  lemma NextEscAfterCode(c: string, x: string, rest: string)
    requires |c| == 4
    requires forall i :: 0 <= i < |x| ==> x[i] != Esc
    ensures NextEsc(c + x + Reset + rest, 4) == Some(4 + |x|)
  {
    var t := c + x + Reset + rest;
    assert t[4 + |x|] == Esc;
    assert forall i :: 4 <= i < 4 + |x| ==> t[i] == x[i - 4];
  }

  /** A code, an escape-free capture and the reset code are turned back into a span. */
  lemma RestoreSpan(m: Markup, x: string, tail: string)
    requires forall i :: 0 <= i < |x| ==> x[i] != Esc
    ensures Restore(m.Code() + x + Reset + tail, m) == m.Delimiter() + x + m.Delimiter() + Restore(tail, m)
  {
    var t := m.Code() + x + Reset + tail;
    NextEscAfterCode(m.Code(), x, tail);
    var e := 4 + |x|;
    assert t[..4] == m.Code();
    assert t[e..e + 4] == Reset;
    assert t[4..e] == x;
    assert t[e + 4..] == tail;
  }

  /** A character other than an escape is kept. */
  lemma RestorePlain(m: Markup, c: char, tail: string)
    requires c != Esc
    ensures Restore([c] + tail, m) == [c] + Restore(tail, m)
  {
    var t := [c] + tail;
    assert t[0] == c;
    assert m.Code()[0] == Esc;
    assert t[1..] == tail;
  }

  /** On input free of escape characters one pass of the rewrite loses no text. */
  lemma {:induction false} RestoreRewrite(s: string, m: Markup)
    requires forall i :: 0 <= i < |s| ==> s[i] != Esc
    ensures Restore(Rewrite(s, m), m) == s
    decreases |s|
  {
    if |s| == 0 {
    } else if PairAt(s, m, 0) && CloseFrom(s, m, 2).Some? {
      var k := CloseFrom(s, m, 2).value;
      RestoreRewrite(s[k + 2..], m);
      RestoreRewriteMatched(s, m, k);
    } else {
      RestoreRewrite(s[1..], m);
      RestoreRewritePlain(s, m);
    }
  }

  /** The step of `RestoreRewrite` where a span starts the string. */
  lemma RestoreRewriteMatched(s: string, m: Markup, k: nat)
    requires forall i :: 0 <= i < |s| ==> s[i] != Esc
    requires PairAt(s, m, 0) && CloseFrom(s, m, 2) == Some(k)
    requires Restore(Rewrite(s[k + 2..], m), m) == s[k + 2..]
    ensures Restore(Rewrite(s, m), m) == s
  {
    var x, rest := s[2..k], s[k + 2..];
    SplitAtClose(s, m, k);
    calc {
      Restore(Rewrite(s, m), m);
      Restore(m.Code() + x + Reset + Rewrite(rest, m), m);
      { RestoreSpan(m, x, Rewrite(rest, m)); }
      m.Delimiter() + x + m.Delimiter() + Restore(Rewrite(rest, m), m);
      m.Delimiter() + x + m.Delimiter() + rest;
      s;
    }
  }

  /** A string with a span at its start is the span followed by the rest. */
  lemma SplitAtClose(s: string, m: Markup, k: nat)
    requires forall i :: 0 <= i < |s| ==> s[i] != Esc
    requires PairAt(s, m, 0) && CloseFrom(s, m, 2) == Some(k)
    ensures k + 2 <= |s|
    ensures s == m.Delimiter() + s[2..k] + m.Delimiter() + s[k + 2..]
    ensures forall i :: 0 <= i < |s[2..k]| ==> s[2..k][i] != Esc
  {
    assert IsClose(s, m, 2, k);
    assert s[..2] == m.Delimiter() && s[k..k + 2] == m.Delimiter();
    assert s == s[..2] + s[2..k] + s[k..k + 2] + s[k + 2..];
  }

  /** The step of `RestoreRewrite` where the first character is kept. */
  lemma RestoreRewritePlain(s: string, m: Markup)
    requires |s| > 0 && s[0] != Esc
    requires !(PairAt(s, m, 0) && CloseFrom(s, m, 2).Some?)
    requires Restore(Rewrite(s[1..], m), m) == s[1..]
    ensures Restore(Rewrite(s, m), m) == s
  {
    assert Rewrite(s, m) == [s[0]] + Rewrite(s[1..], m);
    RestorePlain(m, s[0], Rewrite(s[1..], m));
    assert s == [s[0]] + s[1..];
  }

  // ---------------------------------------------------------------------
  // The logger itself.
  // ---------------------------------------------------------------------

  /** A value handed to `log`: a string, or any other value, known only by an identity. */
  datatype LogValue = Text(text: string) | Other(id: nat)

  /** The per-value step of `log`: strings are rewritten, anything else passes through. */
  function Render(v: LogValue): (r: LogValue)
    ensures v.Other? ==> r == v
    ensures v.Text? ==> r.Text? && r.text == Markdown(v.text)
  {
    match v
    case Text(s) => Text(Markdown(s))
    case Other(_) => v
  }

  /**
   * What one call of `log` does: nothing, print a coloured tag and the rendered
   * values, or throw, because the tag of level 5 is undefined.
   */
  datatype LogOutcome = Suppressed | Printed(tag: string, values: seq<LogValue>) | Thrown

  /** The shorthand of every severity name forwards to that same name. */
  ghost function ShorthandTable(): map<string, string>
  {
    map name | name in SeverityNames :: name
  }

  /** The static state of the `Logger` class: the minimum level and the registered shorthands. */
  class Logger {
    var level: Option<int>
    var shorthands: map<string, string>

    ghost predicate Valid()
      reads this
    {
      shorthands == ShorthandTable()
    }

    /** Module initialisation: the minimum level is `info`, then one shorthand per severity name. */
    constructor ()
      ensures Valid()
      ensures level == Some(2)
    {
      level := Level("info");
      var table := map[];
      var i := 0;
      while i < |SeverityNames|
        invariant 0 <= i <= |SeverityNames|
        invariant table == map name | name in SeverityNames[..i] :: name
      {
        var name := SeverityNames[i];
        assert SeverityNames[..i + 1] == SeverityNames[..i] + [name];
        table := table[name := name];
        i := i + 1;
      }
      assert SeverityNames[..i] == SeverityNames;
      shorthands := table;
    }

    /** Sets the minimum level to the level of `severity` (undefined for an unknown name). */
    method SetSeverity(severity: string)
      modifies this`level
      ensures level == Level(severity)
    {
      level := Level(severity);
    }

    /** One call of `log` with the current minimum level. */
    function Log(severity: string, values: seq<LogValue>): (r: LogOutcome)
      reads this
      ensures r.Suppressed? <==> !Shown(level, severity)
      ensures r.Thrown? <==> Shown(level, severity) && severity == "none"
      ensures r.Printed? ==> Some(r.tag) == LevelLabel(Level(severity).value)
      ensures r.Printed? ==> |r.values| == |values|
      ensures r.Printed? ==> forall i :: 0 <= i < |values| ==> r.values[i] == Render(values[i])
    {
      if !Shown(level, severity) then Suppressed
      else
        match LevelLabel(Level(severity).value)
        case None => Thrown
        case Some(tag) => Printed(tag, seq(|values|, i requires 0 <= i < |values| => Render(values[i])))
    }

    /** Calling the shorthand registered as `Logger[name]`; `None`: no shorthand is registered under that name. */
    function Shorthand(name: string, values: seq<LogValue>): (r: Option<LogOutcome>)
      reads this
      requires Valid()
      ensures r.Some? <==> name in SeverityNames
      ensures r.Some? ==> r.value == Log(name, values)
    {
      if name in shorthands then Some(Log(shorthands[name], values)) else None
    }
  }

  /** Text without the span's character is left alone by its pass. */
  lemma MarkFreeUnchanged(s: string, m: Markup)
    requires m.Mark() !in s
    ensures Rewrite(s, m) == s
  {
    assert forall k: nat :: !PairAt(s, m, k);
  }

  /** A bold span is replaced by bright + capture + reset, and the underline pass then has nothing to do. */
  lemma MarkdownExample()
    ensures Markdown("**hi**") == Bright + "hi" + Reset
  {
    RewriteSpan(Bold, "hi", "");
    assert Bold.Delimiter() + "hi" + Bold.Delimiter() + "" == "**hi**";
    MarkFreeUnchanged(Bright + "hi" + Reset, Underline);
  }

  /** The rendering of the one-span example. */
  lemma RenderExample()
    ensures Render(Text("**hi**")) == Text(Bright + "hi" + Reset)
  {
    MarkdownExample();
  }

  /** With the minimum raised to `warn`, `info` messages are suppressed. */
  method WarnHidesInfoScenario() returns (info: LogOutcome)
    ensures info == Suppressed
  {
    var logger := new Logger();
    logger.SetSeverity("warn");
    info := logger.Log("info", [Text("started")]);
  }

  /** With the minimum raised to `warn`, an error is printed with its tag and rendered values. */
  method WarnShowsErrorScenario() returns (error: LogOutcome)
    ensures error == Printed(Red + "[ERR]", [Text(Bright + "hi" + Reset), Other(7)])
  {
    var logger := new Logger();
    logger.SetSeverity("warn");
    var values := [Text("**hi**"), Other(7)];
    error := logger.Log("err", values);
    RenderExample();
    assert error.values == [Render(values[0]), Render(values[1])];
  }
}

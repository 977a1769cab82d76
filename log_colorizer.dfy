// The serial-monitor filter log_colorizer.py: a buffered colorizer that
// takes the monitor's output in arbitrary chunks, cuts it into lines and
// paints the firmware's log lines with ANSI colours. The three regular
// expressions of `colorize_single_line` are written out as deterministic
// matchers, each proved to accept exactly the texts its pattern describes.
module LogColorizer {
  import opened Wrappers
  import opened Text

  // -----------------------------------------------------------------------
  // ANSI colour codes (the `Colors` class).

  const ESC: char := '\U{1B}'
  const RED: string := [ESC] + "[31m"
  const YELLOW: string := [ESC] + "[33m"
  const GREEN: string := [ESC] + "[32m"
  const CYAN: string := [ESC] + "[36m"
  const MAGENTA: string := [ESC] + "[35m"
  const WHITE: string := [ESC] + "[37m"
  const DARK_GRAY: string := [ESC] + "[90m"
  const RESET: string := [ESC] + "[0m"

  /** A select-graphic-rendition code: ESC, '[', decimal digits, 'm'. */
  predicate IsCode(c: string)
  {
    |c| >= 3 && c[0] == ESC && c[1] == '[' && c[|c| - 1] == 'm'
    && forall k :: 2 <= k < |c| - 1 ==> IsDigit(c[k])
  }

  // -----------------------------------------------------------------------
  // Character classes.

  /** Python's `str.isspace`, which is also the class `\s` matches. */
  predicate IsSpace(c: char)
  {
    c == ' ' || '\t' <= c <= '\r' || '\U{1C}' <= c <= '\U{1F}' || c == '\U{85}' || c == '\U{A0}'
    || c == '\U{1680}' || '\U{2000}' <= c <= '\U{200A}' || c == '\U{2028}' || c == '\U{2029}'
    || c == '\U{202F}' || c == '\U{205F}' || c == '\U{3000}'
  }

  /** `\d`, restricted to the ASCII digits. */
  predicate IsDigit(c: char)
  {
    '0' <= c <= '9'
  }

  /** `\w`, restricted to ASCII letters, digits and the underscore. */
  predicate IsWord(c: char)
  {
    'a' <= c <= 'z' || 'A' <= c <= 'Z' || IsDigit(c) || c == '_'
  }

  /** The classes the patterns use: `\d`, `\w`, `\s` and `[^x]` (which
      also stands for `.`, that is `[^\n]`). */
  datatype CharClass = Digit | Word | Space | Except(excluded: char)

  predicate In(cls: CharClass, c: char)
  {
    match cls
    case Digit => IsDigit(c)
    case Word => IsWord(c)
    case Space => IsSpace(c)
    case Except(x) => c != x
  }

  predicate All(s: string, cls: CharClass)
  {
    forall k :: 0 <= k < |s| ==> In(cls, s[k])
  }

  /** Length of the longest prefix of `s` inside `cls`: a greedy `cls*`. */
  function Span(s: string, cls: CharClass): (n: nat)
    ensures n <= |s| && All(s[..n], cls)
    ensures n == |s| || !In(cls, s[n])
  {
    if s == [] || !In(cls, s[0]) then 0
    else
      assert s[1..][..Span(s[1..], cls)] == s[..1 + Span(s[1..], cls)][1..];
      1 + Span(s[1..], cls)
  }

  /** A greedy run stops exactly where its class ends. */
  lemma {:induction false} SpanExact(a: string, b: string, cls: CharClass)
    requires All(a, cls) && (b == [] || !In(cls, b[0]))
    ensures Span(a + b, cls) == |a|
  {
    if a != [] {
      assert (a + b)[1..] == a[1..] + b;
      SpanExact(a[1..], b, cls);
    } else {
      assert a + b == b;
    }
  }

  // -----------------------------------------------------------------------
  // `str.strip`.

  /** Number of trailing whitespace characters. */
  function TrailLen(s: string): (n: nat)
    ensures n <= |s|
    ensures forall k :: |s| - n <= k < |s| ==> IsSpace(s[k])
    ensures n == |s| || !IsSpace(s[|s| - n - 1])
  {
    if s == [] || !IsSpace(s[|s| - 1]) then 0 else 1 + TrailLen(s[..|s| - 1])
  }

  lemma {:induction false} TrailLenExact(s: string, n: nat)
    requires n <= |s|
    requires forall k :: |s| - n <= k < |s| ==> IsSpace(s[k])
    requires n == |s| || !IsSpace(s[|s| - n - 1])
    ensures TrailLen(s) == n
  {
    if n > 0 {
      var t := s[..|s| - 1];
      assert forall k :: |t| - (n - 1) <= k < |t| ==> t[k] == s[k];
      TrailLenExact(t, n - 1);
    }
  }

  function TrimStart(s: string): string
  {
    s[Span(s, Space)..]
  }

  function TrimEnd(s: string): string
  {
    s[..|s| - TrailLen(s)]
  }

  /** The trailing whitespace of `s`: what follows `TrimEnd(s)`. */
  function Trailing(s: string): (t: string)
    ensures s == TrimEnd(s) + t
    ensures All(t, Space)
  {
    s[|TrimEnd(s)|..]
  }

  /** `str.strip`: without its leading and trailing whitespace, which is
      empty exactly for a blank string. */
  function Strip(s: string): (r: string)
    ensures r == [] || (!IsSpace(r[0]) && !IsSpace(r[|r| - 1]))
    ensures r == [] <==> All(s, Space)
    ensures |r| <= |s|
  {
    var start := Span(s, Space);
    if start == |s| then
      assert s[..start] == s;
      []
    else
      assert start < |s| - TrailLen(s) by {
        assert !IsSpace(s[start]);
      }
      s[start..|s| - TrailLen(s)]
  }

  /** A non-blank string is its leading whitespace, its stripped text and
      its trailing whitespace. */
  lemma StripParts(s: string)
    requires !All(s, Space)
    ensures TrimStart(s) == Strip(s) + Trailing(s)
    ensures Span(s, Space) + |Strip(s)| == |TrimEnd(s)|
  {
    var i := Span(s, Space);
    var t := TrailLen(s);
    assert s[..|s|] == s;
    assert s[i..] == s[i..|s| - t] + s[|s| - t..];
  }

  /** Stripping twice strips no more. */
  lemma StripIdempotent(s: string)
    ensures Strip(Strip(s)) == Strip(s)
  {
    var r := Strip(s);
    if r != [] {
      assert Span(r, Space) == 0 by {
        assert [] + r == r;
        SpanExact([], r, Space);
      }
      assert TrailLen(r[0..]) == 0 by {
        assert r[0..] == r;
        TrailLenExact(r, 0);
      }
      assert r[0..|r| - 0] == r;
    }
  }

  // -----------------------------------------------------------------------
  // The pieces of the three patterns. Every group ends at a character its
  // class excludes, so greedy matching never has to give characters back
  // and a single left-to-right pass finds what `re.match` finds.

  /** A greedy `cls*`: the run and what follows it. */
  function Star(s: string, cls: CharClass): (r: (string, string))
    ensures s == r.0 + r.1 && All(r.0, cls)
    ensures r.1 == [] || !In(cls, r.1[0])
  {
    var n := Span(s, cls);
    assert s == s[..n] + s[n..];
    (s[..n], s[n..])
  }

  lemma StarExact(a: string, b: string, cls: CharClass)
    requires All(a, cls) && (b == [] || !In(cls, b[0]))
    ensures Star(a + b, cls) == (a, b)
  {
    SpanExact(a, b, cls);
    assert (a + b)[..|a|] == a && (a + b)[|a|..] == b;
  }

  /** A greedy `cls+`: no match when `s` does not start inside `cls`. */
  function Plus(s: string, cls: CharClass): (r: Option<(string, string)>)
    ensures r.None? <==> s == [] || !In(cls, s[0])
    ensures r.Some? ==> r.value == Star(s, cls) && r.value.0 != []
  {
    if s == [] || !In(cls, s[0]) then None else Some(Star(s, cls))
  }

  /** Exactly the character `c`. */
  function Lit(s: string, c: char): (r: Option<string>)
    ensures r.Some? <==> |s| > 0 && s[0] == c
    ensures r.Some? ==> s == [c] + r.value
  {
    if |s| > 0 && s[0] == c then Some(s[1..]) else None
  }

  /** `[inner]` followed by `rest`. */
  function Group(inner: string, rest: string): string
  {
    "[" + (inner + ("]" + rest))
  }

  /** `[level pad]` followed by `rest`. */
  function PaddedGroup(level: string, pad: string, rest: string): string
  {
    "[" + (level + (pad + ("]" + rest)))
  }

  /** `[file:line]` followed by `rest`. */
  function LocationGroup(file: string, line: string, rest: string): string
  {
    "[" + (file + (":" + (line + ("]" + rest))))
  }

  /** `\[(cls+)\]`: the timestamp `\[\d+\]`, the function `\[([^\]]+)\]`
      and the simple level `\[(\w+)\]`. */
  function MatchGroup(s: string, cls: CharClass): (r: Option<(string, string)>)
    ensures r.Some? ==> r.value.0 != [] && All(r.value.0, cls) && s == Group(r.value.0, r.value.1)
  {
    var s1 :- Lit(s, '[');
    var inner :- Plus(s1, cls);
    var s2 :- Lit(inner.1, ']');
    Some((inner.0, s2))
  }

  lemma MatchGroupExact(inner: string, rest: string, cls: CharClass)
    requires inner != [] && All(inner, cls) && !In(cls, ']')
    ensures MatchGroup(Group(inner, rest), cls) == Some((inner, rest))
  {
    StarExact(inner, "]" + rest, cls);
  }

  /** `\[(\w+)\s*\]`, the level group of the logger patterns: the level
      and the padding after it. */
  function MatchPaddedLevel(s: string): (r: Option<(string, string, string)>)
    ensures r.Some? ==> r.value.0 != [] && All(r.value.0, Word) && All(r.value.1, Space)
                        && s == PaddedGroup(r.value.0, r.value.1, r.value.2)
  {
    var s1 :- Lit(s, '[');
    var level :- Plus(s1, Word);
    var pad := Star(level.1, Space);
    var s2 :- Lit(pad.1, ']');
    Some((level.0, pad.0, s2))
  }

  lemma MatchPaddedLevelExact(level: string, pad: string, rest: string)
    requires level != [] && All(level, Word) && All(pad, Space)
    ensures MatchPaddedLevel(PaddedGroup(level, pad, rest)) == Some((level, pad, rest))
  {
    assert pad + ("]" + rest) != [] && (pad + ("]" + rest))[0] == (if pad == [] then ']' else pad[0]);
    StarExact(level, pad + ("]" + rest), Word);
    StarExact(pad, "]" + rest, Space);
  }

  /** `\[([^:]+):(\d+)\]`, the source-location group. */
  function MatchLocation(s: string): (r: Option<(string, string, string)>)
    ensures r.Some? ==> r.value.0 != [] && All(r.value.0, Except(':'))
                        && r.value.1 != [] && All(r.value.1, Digit)
                        && s == LocationGroup(r.value.0, r.value.1, r.value.2)
  {
    var s1 :- Lit(s, '[');
    var file :- Plus(s1, Except(':'));
    var s2 :- Lit(file.1, ':');
    var line :- Plus(s2, Digit);
    var s3 :- Lit(line.1, ']');
    Some((file.0, line.0, s3))
  }

  lemma MatchLocationExact(file: string, line: string, rest: string)
    requires file != [] && All(file, Except(':')) && line != [] && All(line, Digit)
    ensures MatchLocation(LocationGroup(file, line, rest)) == Some((file, line, rest))
  {
    StarExact(file, ":" + (line + ("]" + rest)), Except(':'));
    StarExact(line, "]" + rest, Digit);
  }

  /** The end of a line after `\s*(.*)`: the whitespace gap, the message
      group, and what the pattern leaves unmatched. */
  datatype Message = Message(gap: string, text: string, rest: string)

  function MessageText(m: Message): string
  {
    m.gap + (m.text + m.rest)
  }

  /** What `\s*(.*)` can match: a run of whitespace, then a message without
      newlines that does not start with whitespace; the rest is nothing, or
      starts at a newline. */
  predicate WellFormedMessage(m: Message)
  {
    && All(m.gap, Space) && All(m.text, Except('\n'))
    && (m.rest == [] || m.rest[0] == '\n')
    && (m.text == [] ==> m.rest == [])
    && (m.text != [] ==> !IsSpace(m.text[0]))
  }

  /** `\s*(.*)`, which always matches. */
  function MatchMessage(s: string): (m: Message)
    ensures WellFormedMessage(m) && MessageText(m) == s
  {
    var gap := Star(s, Space);
    var text := Star(gap.1, Except('\n'));
    Message(gap.0, text.0, text.1)
  }

  lemma MatchMessageExact(m: Message)
    requires WellFormedMessage(m)
    ensures MatchMessage(MessageText(m)) == m
  {
    StarExact(m.gap, m.text + m.rest, Space);
    StarExact(m.text, m.rest, Except('\n'));
  }

  // -----------------------------------------------------------------------
  // The three patterns of `colorize_single_line`.

  /** The groups of the logger patterns. `sep` is the `\s+` after the
      timestamp and `sep2` the `\s*` after the level in the spaced pattern;
      both are empty in the main pattern. */
  datatype Logger = Logger(timestamp: string, sep: string, level: string, levelPad: string, sep2: string,
                           file: string, lineNum: string, funcName: string, message: Message)

  /** The text of the groups from the source location on. */
  function TailText(file: string, lineNum: string, funcName: string, message: Message): string
  {
    LocationGroup(file, lineNum, Group(funcName, MessageText(message)))
  }

  /** The text a set of logger groups spells out. */
  function LoggerText(f: Logger): string
  {
    Group(f.timestamp, f.sep + PaddedGroup(f.level, f.levelPad, f.sep2 + TailText(f.file, f.lineNum, f.funcName, f.message)))
  }

  predicate WellFormedTail(file: string, lineNum: string, funcName: string, message: Message)
  {
    && file != [] && All(file, Except(':')) && lineNum != [] && All(lineNum, Digit)
    && funcName != [] && All(funcName, Except(']'))
    && WellFormedMessage(message)
  }

  /** The groups the main pattern (`spaced` false) or the spaced pattern
      can produce. */
  predicate WellFormedLogger(f: Logger, spaced: bool)
  {
    && f.timestamp != [] && All(f.timestamp, Digit)
    && (if spaced then f.sep != [] && All(f.sep, Space) && All(f.sep2, Space) else f.sep == [] && f.sep2 == [])
    && f.level != [] && All(f.level, Word) && All(f.levelPad, Space)
    && WellFormedTail(f.file, f.lineNum, f.funcName, f.message)
  }

  /** `(\[([^:]+):(\d+)\])(\[([^\]]+)\])\s*(.*)`, the part both logger
      patterns share. */
  function MatchTail(s: string): (r: Option<(string, string, string, Message)>)
    ensures r.Some? ==> WellFormedTail(r.value.0, r.value.1, r.value.2, r.value.3)
                        && TailText(r.value.0, r.value.1, r.value.2, r.value.3) == s
  {
    var location :- MatchLocation(s);
    var funcName :- MatchGroup(location.2, Except(']'));
    Some((location.0, location.1, funcName.0, MatchMessage(funcName.1)))
  }

  lemma MatchTailExact(file: string, lineNum: string, funcName: string, message: Message)
    requires WellFormedTail(file, lineNum, funcName, message)
    ensures MatchTail(TailText(file, lineNum, funcName, message)) == Some((file, lineNum, funcName, message))
  {
    MatchLocationExact(file, lineNum, Group(funcName, MessageText(message)));
    MatchGroupExact(funcName, MessageText(message), Except(']'));
    MatchMessageExact(message);
  }

  /** `re.match` of the main pattern
      `(\[\d+\])(\[(\w+)\s*\])(\[([^:]+):(\d+)\])(\[([^\]]+)\])\s*(.*)`
      or, when `spaced`, of
      `(\[\d+\])\s+(\[(\w+)\s*\])\s*(\[([^:]+):(\d+)\])(\[([^\]]+)\])\s*(.*)`. */
  function MatchLogger(s: string, spaced: bool): (r: Option<Logger>)
    ensures r.Some? ==> WellFormedLogger(r.value, spaced) && LoggerText(r.value) == s
  {
    var timestamp :- MatchGroup(s, Digit);
    var sep :- if spaced then Plus(timestamp.1, Space) else Some(([], timestamp.1));
    assert timestamp.1 == sep.0 + sep.1;
    var level :- MatchPaddedLevel(sep.1);
    var sep2 := if spaced then Star(level.2, Space) else ([], level.2);
    assert level.2 == sep2.0 + sep2.1;
    var tail :- MatchTail(sep2.1);
    var f := Logger(timestamp.0, sep.0, level.0, level.1, sep2.0, tail.0, tail.1, tail.2, tail.3);
    assert LoggerText(f) == Group(timestamp.0, sep.0 + PaddedGroup(level.0, level.1, sep2.0 + sep2.1));
    Some(f)
  }

  /** Every text the pattern describes is matched, with its own groups. */
  lemma MatchLoggerComplete(f: Logger, spaced: bool)
    requires WellFormedLogger(f, spaced)
    ensures MatchLogger(LoggerText(f), spaced) == Some(f)
  {
    var afterSep2 := TailText(f.file, f.lineNum, f.funcName, f.message);
    var afterLevel := f.sep2 + afterSep2;
    var afterSep := PaddedGroup(f.level, f.levelPad, afterLevel);
    var afterTimestamp := f.sep + afterSep;
    MatchGroupExact(f.timestamp, afterTimestamp, Digit);
    if spaced {
      StarExact(f.sep, afterSep, Space);
      StarExact(f.sep2, afterSep2, Space);
    } else {
      assert afterTimestamp == afterSep && afterLevel == afterSep2;
    }
    MatchPaddedLevelExact(f.level, f.levelPad, afterLevel);
    MatchTailExact(f.file, f.lineNum, f.funcName, f.message);
  }

  /** The groups of `(\[(\w+)\])\s*(.*)`. */
  datatype Simple = Simple(level: string, message: Message)

  function SimpleText(g: Simple): string
  {
    Group(g.level, MessageText(g.message))
  }

  predicate WellFormedSimple(g: Simple)
  {
    g.level != [] && All(g.level, Word) && WellFormedMessage(g.message)
  }

  /** `re.match` of `(\[(\w+)\])\s*(.*)`. */
  function MatchSimple(s: string): (r: Option<Simple>)
    ensures r.Some? ==> WellFormedSimple(r.value) && SimpleText(r.value) == s
  {
    var level :- MatchGroup(s, Word);
    Some(Simple(level.0, MatchMessage(level.1)))
  }

  lemma MatchSimpleComplete(g: Simple)
    requires WellFormedSimple(g)
    ensures MatchSimple(SimpleText(g)) == Some(g)
  {
    MatchGroupExact(g.level, MessageText(g.message), Word);
    MatchMessageExact(g.message);
  }

  /** Which pattern a stripped line matches, tried in the source's order. */
  datatype LineMatch = LoggerLine(f: Logger, spaced: bool) | LevelLine(g: Simple) | PlainLine

  function Classify(s: string): (m: LineMatch)
    ensures m.LoggerLine? ==> MatchLogger(s, m.spaced) == Some(m.f) && (m.spaced ==> MatchLogger(s, false).None?)
    ensures m.LevelLine? ==> MatchLogger(s, false).None? && MatchLogger(s, true).None? && MatchSimple(s) == Some(m.g)
    ensures m.PlainLine? <==> MatchLogger(s, false).None? && MatchLogger(s, true).None? && MatchSimple(s).None?
  {
    match MatchLogger(s, false)
    case Some(f) => LoggerLine(f, false)
    case None =>
      match MatchLogger(s, true)
      case Some(f) => LoggerLine(f, true)
      case None =>
        match MatchSimple(s)
        case Some(g) => LevelLine(g)
        case None => PlainLine
  }

  /** A text of the main pattern is classified with its own groups. */
  lemma ClassifyLogger(f: Logger)
    requires WellFormedLogger(f, false)
    ensures Classify(LoggerText(f)) == LoggerLine(f, false)
  {
    MatchLoggerComplete(f, false);
  }

  /** A text of the spaced pattern never matches the main one (whitespace
      follows its timestamp), so it is classified as spaced, with its own
      groups. */
  lemma ClassifySpacedLogger(f: Logger)
    requires WellFormedLogger(f, true)
    ensures Classify(LoggerText(f)) == LoggerLine(f, true)
  {
    MatchLoggerComplete(f, true);
    var afterSep := PaddedGroup(f.level, f.levelPad, f.sep2 + TailText(f.file, f.lineNum, f.funcName, f.message));
    MatchGroupExact(f.timestamp, f.sep + afterSep, Digit);
    assert (f.sep + afterSep)[0] == f.sep[0];
  }

  /** A level line whose level does not start with a digit matches neither
      logger pattern, so it is classified as a level line. */
  lemma ClassifySimple(g: Simple)
    requires WellFormedSimple(g) && !IsDigit(g.level[0])
    ensures Classify(SimpleText(g)) == LevelLine(g)
  {
    var s := SimpleText(g);
    assert MatchGroup(s, Digit).None? by {
      assert s[1..] == g.level + ("]" + MessageText(g.message));
      assert Plus(s[1..], Digit).None?;
    }
    NoTimestamp(s, false);
    NoTimestamp(s, true);
    MatchSimpleComplete(g);
  }

  /** Both logger patterns start with the timestamp group. */
  lemma NoTimestamp(s: string, spaced: bool)
    requires MatchGroup(s, Digit).None?
    ensures MatchLogger(s, spaced).None?
  {
  }

  // -----------------------------------------------------------------------
  // Colour configuration (`load_config`).

  datatype ColorConfig = ColorConfig(logLevels: map<string, string>, components: map<string, string>)

  /** The component colours `colorize_single_line` looks up. */
  predicate HasComponents(c: ColorConfig)
  {
    "timestamp" in c.components && "filename" in c.components
    && "function" in c.components && "brackets" in c.components
  }

  /** Every configured colour is a colour code. */
  predicate AllCodes(c: ColorConfig)
  {
    (forall k :: k in c.logLevels ==> IsCode(c.logLevels[k]))
    && (forall k :: k in c.components ==> IsCode(c.components[k]))
  }

  /** The built-in colours. */
  function DefaultConfig(): (c: ColorConfig)
    ensures HasComponents(c) && AllCodes(c)
    ensures c.logLevels.Keys == {"ERROR", "WARN", "INFO", "DEBUG", "TRACE"}
  {
    ColorConfig(
      map["ERROR" := RED, "WARN" := YELLOW, "INFO" := GREEN, "DEBUG" := CYAN, "TRACE" := MAGENTA],
      map["timestamp" := WHITE, "filename" := DARK_GRAY, "function" := DARK_GRAY,
          "message" := WHITE, "brackets" := DARK_GRAY])
  }

  /** One entry of the settings file's `themes`. */
  datatype Theme = Theme(logLevels: Option<map<string, string>>, components: Option<map<string, string>>)

  /** The settings file as parsed: its `theme` name and its `themes`. */
  datatype Settings = Settings(theme: Option<string>, themes: Option<map<string, Theme>>)

  /** The theme `load_config` applies: the named one, when the file names
      one that it defines. */
  function ChosenTheme(settings: Option<Settings>): (t: Option<Theme>)
    ensures t.Some? <==> settings.Some? && settings.value.theme.Some? && settings.value.themes.Some?
                         && settings.value.theme.value in settings.value.themes.value
  {
    if settings.None? || settings.value.theme.None? || settings.value.themes.None? then None
    else if settings.value.theme.value !in settings.value.themes.value then None
    else Some(settings.value.themes.value[settings.value.theme.value])
  }

  /** `load_config`: the defaults, with the chosen theme's entries laid
      over them; `settings` is `None` when the file is missing or does not
      parse. The result always has the component colours the painter looks
      up, a theme's entry wins over the default, and every default the
      theme does not mention stays. */
  function LoadConfig(settings: Option<Settings>): (c: ColorConfig)
    ensures HasComponents(c)
    ensures ChosenTheme(settings).None? ==> c == DefaultConfig()
    ensures var t := ChosenTheme(settings);
      t.Some? ==> var levels := t.value.logLevels.GetOr(map[]);
        c.logLevels.Keys == DefaultConfig().logLevels.Keys + levels.Keys
        && forall k :: k in c.logLevels ==>
          c.logLevels[k] == (if k in levels then levels[k] else DefaultConfig().logLevels[k])
    ensures var t := ChosenTheme(settings);
      t.Some? ==> var components := t.value.components.GetOr(map[]);
        c.components.Keys == DefaultConfig().components.Keys + components.Keys
        && forall k :: k in c.components ==>
          c.components[k] == (if k in components then components[k] else DefaultConfig().components[k])
  {
    var defaults := DefaultConfig();
    match ChosenTheme(settings)
    case None => defaults
    case Some(theme) =>
      ColorConfig(defaults.logLevels + theme.logLevels.GetOr(map[]),
                  defaults.components + theme.components.GetOr(map[]))
  }

  /** A theme made only of colour codes keeps every colour a code. */
  lemma LoadConfigCodes(settings: Option<Settings>)
    requires var t := ChosenTheme(settings);
      t.Some? ==> ((forall k :: k in t.value.logLevels.GetOr(map[]) ==> IsCode(t.value.logLevels.GetOr(map[])[k]))
                && (forall k :: k in t.value.components.GetOr(map[]) ==> IsCode(t.value.components.GetOr(map[])[k])))
    ensures AllCodes(LoadConfig(settings))
  {
  }

  /** The colour of a level: its configured one, else white. */
  function LevelColor(config: ColorConfig, level: string): string
  {
    if level in config.logLevels then config.logLevels[level] else WHITE
  }

  // -----------------------------------------------------------------------
  // Painting.

  /** `{bracket}[{color}{text}{bracket}]{reset}` followed by `rest`. */
  function Painted(bracket: string, color: string, text: string, rest: string): string
  {
    bracket + ("[" + (color + (text + (bracket + ("]" + (RESET + rest))))))
  }

  /** The space the spaced pattern's output puts after the timestamp. */
  function Separator(spaced: bool): string
  {
    if spaced then " " else ""
  }

  /** The painted form of a logger line: timestamp, level, location and
      function in brackets, then a space and the message in the level's
      colour. */
  function PaintLogger(f: Logger, spaced: bool, config: ColorConfig): string
    requires HasComponents(config)
  {
    var b := config.components["brackets"];
    var level := LevelColor(config, Strip(f.level));
    Painted(b, config.components["timestamp"], f.timestamp, Separator(spaced)
      + Painted(b, level, f.level, Painted(b, config.components["filename"], f.file + ":" + f.lineNum,
        Painted(b, config.components["function"], f.funcName, " " + (level + (f.message.text + RESET))))))
  }

  /** The painted form of a level line. */
  function PaintSimple(g: Simple, config: ColorConfig): string
    requires HasComponents(config)
  {
    var level := LevelColor(config, g.level);
    Painted(config.components["brackets"], level, g.level, " " + (level + (g.message.text + RESET)))
  }

  /** `colorize_single_line`: a blank line is returned as it is; otherwise
      the stripped line is painted by the first pattern it matches, or
      returned stripped when it matches none. */
  function ColorizeSingleLine(line: string, config: ColorConfig): (r: string)
    requires HasComponents(config)
    ensures All(line, Space) ==> r == line
    ensures !All(line, Space) && Classify(Strip(line)).PlainLine? ==> r == Strip(line)
  {
    var stripped := Strip(line);
    if stripped == [] then line
    else
      match Classify(stripped)
      case LoggerLine(f, spaced) => PaintLogger(f, spaced, config)
      case LevelLine(g) => PaintSimple(g, config)
      case PlainLine => stripped
  }

  // -----------------------------------------------------------------------
  // What a reader sees: the text without its colour codes.

  /** The first position after the escape sequence that starts `s`: past
      the first 'm', or the end when there is none. */
  function CodeEnd(s: string): (n: nat)
    requires s != [] && s[0] == ESC
    ensures 1 <= n <= |s|
  {
    var m := IndexOf(s, 'm', 1);
    if m == -1 then |s| else m + 1
  }

  /** `s` with every escape sequence removed: the characters a terminal
      shows. */
  function StripCodes(s: string): (r: string)
    ensures ESC !in r
    decreases |s|
  {
    if s == [] then []
    else if s[0] == ESC then StripCodes(s[CodeEnd(s)..])
    else [s[0]] + StripCodes(s[1..])
  }

  lemma StripCodesCode(c: string, t: string)
    requires IsCode(c)
    ensures StripCodes(c + t) == StripCodes(t)
  {
    var s := c + t;
    forall k | 1 <= k < |c| - 1
      ensures s[k] != 'm'
    {
      assert s[k] == c[k];
    }
    IndexOfFirst(s, 'm', 1, |c| - 1);
    assert s[|c|..] == t;
  }

  lemma {:induction false} StripCodesText(a: string, t: string)
    requires ESC !in a
    ensures StripCodes(a + t) == a + StripCodes(t)
  {
    if a != [] {
      assert (a + t)[0] == a[0];
      assert (a + t)[1..] == a[1..] + t;
      StripCodesText(a[1..], t);
      assert a == [a[0]] + a[1..];
    } else {
      assert a + t == t;
    }
  }

  /** A painted group reads as the group itself. */
  lemma StripCodesPainted(bracket: string, color: string, text: string, rest: string)
    requires IsCode(bracket) && IsCode(color) && ESC !in text
    ensures StripCodes(Painted(bracket, color, text, rest)) == Group(text, StripCodes(rest))
  {
    assert IsCode(RESET);
    var x5 := RESET + rest;
    var x4 := "]" + x5;
    var x3 := bracket + x4;
    var x2 := text + x3;
    var x1 := color + x2;
    StripCodesCode(RESET, rest);
    StripCodesText("]", x5);
    StripCodesCode(bracket, x4);
    StripCodesText(text, x3);
    StripCodesCode(color, x2);
    StripCodesText("[", x1);
    StripCodesCode(bracket, "[" + x1);
  }

  /** A painted message reads as a space and the message. */
  lemma StripCodesMessage(level: string, message: string)
    requires IsCode(level) && ESC !in message
    ensures StripCodes(" " + (level + (message + RESET))) == " " + message
  {
    assert IsCode(RESET);
    StripCodesCode(RESET, []);
    assert RESET + [] == RESET;
    StripCodesText(message, RESET);
    assert message + [] == message;
    StripCodesCode(level, message + RESET);
    StripCodesText(" ", level + (message + RESET));
  }

  /** The visible text of a painted logger line: its groups in the
      canonical layout, the level padding dropped and a single space
      before the message. */
  function Visible(f: Logger, spaced: bool): string
  {
    Group(f.timestamp, Separator(spaced) + Group(f.level, Group(f.file + ":" + f.lineNum,
      Group(f.funcName, " " + f.message.text))))
  }

  /** A logger line already in the canonical layout. */
  predicate Canonical(f: Logger, spaced: bool)
  {
    f.sep == Separator(spaced) && f.levelPad == [] && f.sep2 == [] && f.message.gap == " " && f.message.rest == []
  }

  lemma CanonicalVisible(f: Logger, spaced: bool)
    requires Canonical(f, spaced)
    ensures Visible(f, spaced) == LoggerText(f)
  {
    var tail := Group(f.funcName, " " + f.message.text);
    assert MessageText(f.message) == " " + f.message.text;
    assert LocationGroup(f.file, f.lineNum, tail) == Group(f.file + ":" + f.lineNum, tail);
    assert f.sep2 + LocationGroup(f.file, f.lineNum, tail) == LocationGroup(f.file, f.lineNum, tail);
    assert PaddedGroup(f.level, f.levelPad, LocationGroup(f.file, f.lineNum, tail))
        == Group(f.level, LocationGroup(f.file, f.lineNum, tail));
  }

  /** Colours change nothing a reader sees: a painted logger line reads as
      its visible text. */
  lemma PaintLoggerReads(f: Logger, spaced: bool, config: ColorConfig)
    requires HasComponents(config) && AllCodes(config)
    requires ESC !in f.timestamp && ESC !in f.level && ESC !in f.file && ESC !in f.lineNum
    requires ESC !in f.funcName && ESC !in f.message.text
    ensures StripCodes(PaintLogger(f, spaced, config)) == Visible(f, spaced)
  {
    var b := config.components["brackets"];
    var level := LevelColor(config, Strip(f.level));
    assert IsCode(WHITE);
    assert IsCode(level);
    var m := " " + (level + (f.message.text + RESET));
    var t3 := Painted(b, config.components["function"], f.funcName, m);
    var t2 := Painted(b, config.components["filename"], f.file + ":" + f.lineNum, t3);
    var t1 := Painted(b, level, f.level, t2);
    StripCodesMessage(level, f.message.text);
    StripCodesPainted(b, config.components["function"], f.funcName, m);
    StripCodesPainted(b, config.components["filename"], f.file + ":" + f.lineNum, t3);
    StripCodesPainted(b, level, f.level, t2);
    StripCodesText(Separator(spaced), t1);
    StripCodesPainted(b, config.components["timestamp"], f.timestamp, Separator(spaced) + t1);
  }

  /** A painted level line reads as `[LEVEL] message`. */
  lemma PaintSimpleReads(g: Simple, config: ColorConfig)
    requires HasComponents(config) && AllCodes(config)
    requires ESC !in g.level && ESC !in g.message.text
    ensures StripCodes(PaintSimple(g, config)) == Group(g.level, " " + g.message.text)
  {
    var level := LevelColor(config, g.level);
    assert IsCode(WHITE);
    assert IsCode(level);
    StripCodesMessage(level, g.message.text);
    StripCodesPainted(config.components["brackets"], level, g.level, " " + (level + (g.message.text + RESET)));
  }

  lemma StripWithin(s: string, c: char)
    requires c in Strip(s)
    ensures c in s
  {
    var i :| 0 <= i < |Strip(s)| && Strip(s)[i] == c;
    assert Strip(s)[i] == s[Span(s, Space) + i];
  }

  /** A line without escape codes that a logger pattern matches reads,
      once colorized, as the matched groups in the canonical layout; a
      line already in that layout reads exactly as its stripped self. */
  lemma ColorizedLoggerReads(line: string, config: ColorConfig)
    requires HasComponents(config) && AllCodes(config) && ESC !in line
    requires Classify(Strip(line)).LoggerLine?
    ensures var m := Classify(Strip(line));
      && StripCodes(ColorizeSingleLine(line, config)) == Visible(m.f, m.spaced)
      && (Canonical(m.f, m.spaced) ==> StripCodes(ColorizeSingleLine(line, config)) == Strip(line))
  {
    var m := Classify(Strip(line));
    assert Strip(line) != [];
    assert ESC !in Strip(line) by {
      if ESC in Strip(line) {
        StripWithin(line, ESC);
      }
    }
    assert LoggerText(m.f) == Strip(line);
    PaintLoggerReads(m.f, m.spaced, config);
    if Canonical(m.f, m.spaced) {
      CanonicalVisible(m.f, m.spaced);
    }
  }

  // -----------------------------------------------------------------------
  // `colorize_line`.

  /** `colorize_line` as written: the "line ending" it re-appends is
      `line[len(stripped):]`, the original line minus as many leading
      characters as the stripped text has. */
  function ColorizeLineAsWritten(line: string, config: ColorConfig): (r: string)
    requires HasComponents(config)
    ensures |Strip(line)| <= |line| && r == ColorizeSingleLine(Strip(line), config) + line[|Strip(line)|..]
  {
    var stripped := Strip(line);
    ColorizeSingleLine(stripped, config) + line[|stripped|..]
  }

  lemma IndentedExample()
    ensures Strip("  abc\n") == "abc" && Trailing("  abc\n") == "\n"
  {
    var line := "  abc\n";
    assert Span(line, Space) == 2;
    assert line[2..] == "abc\n";
    assert TrailLen("abc\n") == 1;
    assert TrailLen(line) == 1;
  }

  lemma PlainExample(config: ColorConfig)
    requires HasComponents(config)
    ensures ColorizeSingleLine("abc", config) == "abc"
  {
    assert Strip("abc") == "abc" by {
      assert Span("abc", Space) == 0;
      assert TrailLen("abc") == 0;
    }
    assert !All("abc", Space) by {
      assert !In(Space, "abc"[0]);
    }
    assert Classify("abc") == PlainLine by {
      assert MatchGroup("abc", Digit).None? && MatchGroup("abc", Word).None?;
    }
  }

  /** With leading whitespace the re-appended "ending" repeats the end of
      the text: an indented plain line comes out with characters doubled,
      where the corrected version keeps just the newline. */
  lemma AsWrittenRepeatsText()
    ensures ColorizeLineAsWritten("  abc\n", DefaultConfig()) == "abcbc\n"
    ensures ColorizeLine("  abc\n", DefaultConfig()) == "abc\n"
  {
    IndentedExample();
    PlainExample(DefaultConfig());
    assert ColorizeLineAsWritten("  abc\n", DefaultConfig()) == "abc" + "bc\n" by {
      assert "  abc\n"[3..] == "bc\n";
    }
    assert ColorizeLine("  abc\n", DefaultConfig()) == "abc" + "\n";
  }

  /** `colorize_line` as evidently intended: the painted line followed by
      the original line's trailing whitespace. */
  function ColorizeLine(line: string, config: ColorConfig): string
    requires HasComponents(config)
  {
    ColorizeSingleLine(Strip(line), config) + Trailing(line)
  }

  /** The corrected line ends with the trailing whitespace of the original;
      a blank line passes through unchanged, and a line no pattern matches
      passes through without its indentation. */
  lemma ColorizeLineKeepsText(line: string, config: ColorConfig)
    requires HasComponents(config)
    ensures var r := ColorizeLine(line, config);
      && |Trailing(line)| <= |r| && r[|r| - |Trailing(line)|..] == Trailing(line)
      && (All(line, Space) ==> r == line)
      && (!All(line, Space) && Classify(Strip(line)).PlainLine? ==> r == TrimStart(line))
  {
    var r := ColorizeLine(line, config);
    var c := ColorizeSingleLine(Strip(line), config);
    assert r[|r| - |Trailing(line)|..] == Trailing(line) by {
      assert r == c + Trailing(line);
    }
    if All(line, Space) {
      TrailLenExact(line, |line|);
    } else {
      StripIdempotent(line);
      StripParts(line);
      assert !IsSpace(Strip(line)[0]);
    }
  }

  /** Without leading whitespace the code as written does what was
      intended. */
  lemma AsWrittenAgreesWithoutIndent(line: string, config: ColorConfig)
    requires HasComponents(config)
    requires line == [] || !IsSpace(line[0])
    ensures ColorizeLineAsWritten(line, config) == ColorizeLine(line, config)
  {
    if line != [] {
      StripParts(line);
    }
  }

  // -----------------------------------------------------------------------
  // The buffered colorizer.

  /** What `process_chunk` does with one complete line (newline included)
      under a configuration: a control line of the monitor, starting with
      "---", passes as it is; another is colorized. */
  function LineOutput(config: ColorConfig): string -> string
    requires HasComponents(config)
  {
    line => if "---" <= line then line else ColorizeLine(line, config)
  }

  // The stream rules below hold whatever is done with each complete line,
  // so they take that as a parameter, `process`.

  /** The output for the first `n` lines. */
  function EmitFirst(process: string -> string, lines: seq<string>, n: nat): string
    requires n <= |lines|
  {
    if n == 0 then [] else EmitFirst(process, lines, n - 1) + process(lines[n - 1] + "\n")
  }

  /** The output for a prefix does not depend on the lines after it. */
  lemma {:induction false} EmitFirstPrefix(process: string -> string, a: seq<string>, b: seq<string>, n: nat)
    requires n <= |a|
    ensures EmitFirst(process, a + b, n) == EmitFirst(process, a, n)
  {
    if n > 0 {
      assert (a + b)[n - 1] == a[n - 1];
      EmitFirstPrefix(process, a, b, n - 1);
    }
  }

  /** The output for two runs of lines is the output for the first run
      followed by the output for the second. */
  lemma {:induction false} EmitFirstAppend(process: string -> string, a: seq<string>, b: seq<string>, k: nat)
    requires k <= |b|
    ensures EmitFirst(process, a + b, |a| + k) == EmitFirst(process, a, |a|) + EmitFirst(process, b, k)
  {
    if k == 0 {
      EmitFirstPrefix(process, a, b, |a|);
    } else {
      assert (a + b)[|a| + k - 1] == b[k - 1];
      EmitFirstAppend(process, a, b, k - 1);
      Associative(EmitFirst(process, a, |a|), EmitFirst(process, b, k - 1), process(b[k - 1] + "\n"));
    }
  }

  lemma Associative(x: string, y: string, z: string)
    ensures (x + y) + z == x + (y + z)
  {
  }

  /** The output for the completed lines of a text followed by more lines
      is the output for each in turn. */
  lemma EmitAfterLines(process: string -> string, lines: seq<string>, more: seq<string>)
    requires |lines| >= 1 && |more| >= 1
    ensures var all := lines[..|lines| - 1] + more;
      EmitFirst(process, all, |all| - 1)
      == EmitFirst(process, lines, |lines| - 1) + EmitFirst(process, more, |more| - 1)
  {
    var done := lines[..|lines| - 1];
    assert lines == done + [lines[|lines| - 1]];
    EmitFirstPrefix(process, done, [lines[|lines| - 1]], |done|);
    EmitFirstAppend(process, done, more, |more| - 1);
  }

  /** The lines of a text split at its newlines: all but the last are
      completed, emitted each with its newline; the last is the new partial
      line. */
  function Advance(process: string -> string, lines: seq<string>): (string, string)
    requires |lines| >= 1
  {
    (EmitFirst(process, lines, |lines| - 1), lines[|lines| - 1])
  }

  /** One chunk's effect on the stream: the lines it completes, emitted,
      and the new partial line. */
  function Step(process: string -> string, buffer: string, chunk: string): (string, string)
  {
    Advance(process, Segments(buffer + chunk, '\n'))
  }

  /** Nothing is lost: the lines a chunk completes, each with its newline,
      followed by the new partial line, are the old partial line and the
      chunk; there is one completed line per newline, and the partial line
      holds none. */
  lemma StepKeepsText(process: string -> string, buffer: string, chunk: string)
    ensures var lines := Segments(buffer + chunk, '\n');
      && Terminated(lines[..|lines| - 1], '\n') + Step(process, buffer, chunk).1 == buffer + chunk
      && |lines| - 1 == Count(buffer + chunk, '\n')
      && '\n' !in Step(process, buffer, chunk).1
  {
    SegmentsAsTerminated(buffer + chunk, '\n');
    SegmentsCount(buffer + chunk, '\n');
    SegmentsFree(buffer + chunk, '\n');
  }

  /** A chunk without a newline only extends the partial line. */
  lemma StepWithoutNewline(process: string -> string, buffer: string, chunk: string)
    requires '\n' !in buffer + chunk
    ensures Step(process, buffer, chunk) == ([], buffer + chunk)
  {
    CountAbsent(buffer + chunk, '\n');
    SegmentsCount(buffer + chunk, '\n');
    SegmentsAsTerminated(buffer + chunk, '\n');
  }

  /** Cutting a text after its completed lines: the lines of the whole
      are those completed lines followed by the lines of the partial line
      and what comes after it. */
  lemma SegmentsAfterLines(s: string, b: string)
    ensures var lines := Segments(s, '\n');
      Segments(s + b, '\n') == lines[..|lines| - 1] + Segments(lines[|lines| - 1] + b, '\n')
  {
    var lines := Segments(s, '\n');
    var done := lines[..|lines| - 1];
    var partial := lines[|lines| - 1];
    SegmentsAsTerminated(s, '\n');
    SegmentsFree(s, '\n');
    forall k | 0 <= k < |done|
      ensures '\n' !in done[k]
    {
      assert done[k] == lines[k];
    }
    assert s + b == Terminated(done, '\n') + (partial + b);
    SegmentsAfterTerminated(done, partial + b, '\n');
  }

  /** Where the stream is cut does not matter: two chunks in a row do what
      their concatenation does in one. */
  lemma StepChunking(process: string -> string, buffer: string, a: string, b: string)
    ensures var first := Step(process, buffer, a);
      var second := Step(process, first.1, b);
      Step(process, buffer, a + b) == (first.0 + second.0, second.1)
  {
    var lines := Segments(buffer + a, '\n');
    var partial := lines[|lines| - 1];
    var more := Segments(partial + b, '\n');
    assert Segments(buffer + (a + b), '\n') == lines[..|lines| - 1] + more by {
      assert buffer + (a + b) == (buffer + a) + b;
      SegmentsAfterLines(buffer + a, b);
    }
    StepJoin(process, buffer, a, b, lines, more);
  }

  /** The chunking step on the lines themselves: `lines` are those of the
      old partial line and the first chunk, `more` those of the new partial
      line and the second chunk. */
  lemma StepJoin(process: string -> string, buffer: string, a: string, b: string, lines: seq<string>, more: seq<string>)
    requires lines == Segments(buffer + a, '\n')
    requires more == Segments(lines[|lines| - 1] + b, '\n')
    requires Segments(buffer + (a + b), '\n') == lines[..|lines| - 1] + more
    ensures var first := Step(process, buffer, a);
      var second := Step(process, first.1, b);
      Step(process, buffer, a + b) == (first.0 + second.0, second.1)
  {
    var all := lines[..|lines| - 1] + more;
    assert Step(process, buffer, a) == Advance(process, lines);
    assert Step(process, lines[|lines| - 1], b) == Advance(process, more);
    assert Step(process, buffer, a + b) == Advance(process, all);
    EmitAfterLines(process, lines, more);
    assert all[|all| - 1] == more[|more| - 1];
  }

  /** A stream fed chunk by chunk: the output so far and the partial line. */
  function Feed(process: string -> string, buffer: string, chunks: seq<string>): (string, string)
  {
    if chunks == [] then ([], buffer)
    else
      var before := Feed(process, buffer, chunks[..|chunks| - 1]);
      var last := Step(process, before.1, chunks[|chunks| - 1]);
      (before.0 + last.0, last.1)
  }

  /** However the stream is cut into chunks, feeding it emits what feeding
      it in one piece does. */
  lemma {:induction false} FeedIsOneStep(process: string -> string, buffer: string, chunks: seq<string>)
    requires '\n' !in buffer
    ensures Feed(process, buffer, chunks) == Step(process, buffer, Concat(chunks))
  {
    if chunks == [] {
      assert buffer + [] == buffer;
      StepWithoutNewline(process, buffer, []);
    } else {
      var init := chunks[..|chunks| - 1];
      var last := chunks[|chunks| - 1];
      assert chunks == init + [last];
      ConcatAppend(init, last);
      FeedIsOneStep(process, buffer, init);
      StepChunking(process, buffer, Concat(init), last);
    }
  }

  /** The loop of `process_chunk` over the complete lines: each with its
      newline restored and passed through `process`, which is
      `LineOutput(config)` (control lines as they are, others colorized). */
  method EmitLines(process: string -> string, lines: seq<string>, count: nat) returns (output: string)
    requires count <= |lines|
    ensures output == EmitFirst(process, lines, count)
  {
    output := [];
    var i := 0;
    while i < count
      invariant 0 <= i <= count
      invariant output == EmitFirst(process, lines, i)
    {
      var completeLine := lines[i] + "\n";
      output := output + process(completeLine);
      i := i + 1;
    }
  }

  /** The body of `process_chunk` on its buffer: nothing for an empty
      chunk; otherwise the buffer and the chunk are split at newlines, the
      last piece is the new buffer and the others are emitted in order.
      The buffer holds no newline between calls. */
  method SplitAndEmit(process: string -> string, buffer: string, chunk: string) returns (output: string, partial: string)
    requires '\n' !in buffer
    ensures (output, partial) == Step(process, buffer, chunk)
    ensures '\n' !in partial
  {
    if chunk == [] {
      assert buffer + chunk == buffer;
      StepWithoutNewline(process, buffer, chunk);
      return [], buffer;
    }
    var text := buffer + chunk;
    var lines := Segments(text, '\n');
    SegmentsFree(text, '\n');
    partial := lines[|lines| - 1];
    output := EmitLines(process, lines, |lines| - 1);
  }

  /** The colorizer with its partial-line buffer. */
  class BufferedColorizer {
    const config: ColorConfig
    var buffer: string

    ghost predicate Valid()
      reads this
    {
      HasComponents(config) && '\n' !in buffer
    }

    /** The given configuration, or the one `load_config` reads. */
    constructor (config: Option<ColorConfig>, settings: Option<Settings>)
      requires config.Some? ==> HasComponents(config.value)
      ensures Valid() && buffer == []
      ensures this.config == if config.Some? then config.value else LoadConfig(settings)
    {
      this.config := if config.Some? then config.value else LoadConfig(settings);
      buffer := [];
    }

    /** `process_chunk`: the complete lines the chunk finishes, emitted in
        order; the unfinished last line stays buffered. */
    method ProcessChunk(chunk: string) returns (output: string)
      requires Valid()
      modifies this
      ensures Valid()
      ensures (output, buffer) == Step(LineOutput(config), old(buffer), chunk)
    {
      output, buffer := SplitAndEmit(LineOutput(config), buffer, chunk);
    }

    /** `flush`: the buffered partial line, as a control line or colorized,
        and an empty buffer. */
    method Flush() returns (output: string)
      requires Valid()
      modifies this
      ensures Valid() && buffer == []
      ensures old(buffer) == [] ==> output == []
      ensures old(buffer) != [] && "---" <= old(buffer) ==> output == old(buffer)
      ensures old(buffer) != [] && !("---" <= old(buffer)) ==> output == ColorizeLine(old(buffer), config)
    {
      if buffer != [] {
        var remaining := buffer;
        buffer := [];
        if "---" <= remaining {
          return remaining;
        }
        return ColorizeLine(remaining, config);
      }
      return [];
    }

    /** `clear_buffer`. */
    method ClearBuffer()
      requires Valid()
      modifies this
      ensures Valid() && buffer == []
    {
      buffer := [];
    }
  }
}

/** Saving a configuration as an INI file and loading it back. */
module Ini {
  import opened Text
  import opened Seqs
  import opened Model
  import opened Config
  import opened Settings
  import opened Quoting

  // ---------------------------------------------------------------------------
  // Lines

  predicate IsOneLine(s: string)
  {
    '\n' !in s && '\r' !in s
  }

  ghost predicate AllOneLine(lines: seq<string>)
  {
    forall line :: line in lines ==> IsOneLine(line)
  }

  function JoinLines(lines: seq<string>): string
  {
    if lines == [] then [] else lines[0] + "\n" + JoinLines(lines[1..])
  }

  function LineEnd(text: string): nat
    ensures LineEnd(text) <= |text|
  {
    if text == [] || text[0] == '\n' then 0 else 1 + LineEnd(text[1..])
  }

  function DropCarriageReturn(line: string): string
  {
    if line != [] && line[|line| - 1] == '\r' then line[..|line| - 1] else line
  }

  /** bufio.ScanLines: lines end at line feeds, and one trailing carriage return is dropped. */
  function ScanLines(text: string): seq<string>
  {
    if text == [] then []
    else
      var n := LineEnd(text);
      [DropCarriageReturn(text[..n])] + if n == |text| then [] else ScanLines(text[n + 1..])
  }

  lemma {:induction false} LineEndAt(line: string, rest: string)
    requires IsOneLine(line)
    ensures LineEnd(line + "\n" + rest) == |line|
  {
    var text := line + "\n" + rest;
    if line != [] {
      assert text[1..] == line[1..] + "\n" + rest;
      LineEndAt(line[1..], rest);
    }
  }

  lemma {:induction false} ScanJoined(lines: seq<string>)
    requires AllOneLine(lines)
    ensures ScanLines(JoinLines(lines)) == lines
  {
    if lines != [] {
      var rest := JoinLines(lines[1..]);
      var text := lines[0] + "\n" + rest;
      LineEndAt(lines[0], rest);
      assert text[..|lines[0]|] == lines[0] && text[|lines[0]| + 1..] == rest;
      ScanJoined(lines[1..]);
    }
  }

  lemma {:induction false} JoinAppend(lines: seq<string>, line: string)
    ensures JoinLines(lines + [line]) == JoinLines(lines) + line + "\n"
  {
    if lines == [] {
      assert [line][1..] == [];
      assert lines + [line] == [line];
    } else {
      JoinAppend(lines[1..], line);
      assert (lines + [line])[1..] == lines[1..] + [line];
    }
  }

  // ---------------------------------------------------------------------------
  // Values

  /** The position of a comment sign that follows a blank, or the length. */
  function CommentStart(s: string, i: nat): nat
    requires i <= |s|
    ensures i <= CommentStart(s, i) <= |s|
    decreases |s| - i
  {
    if i == |s| then i
    else if (s[i] == '#' || s[i] == ';') && i > 0 && (s[i - 1] == ' ' || s[i - 1] == '\t') then i
    else CommentStart(s, i + 1)
  }

  function StripComment(value: string): string
  {
    var s := TrimSpace(value);
    var n := CommentStart(s, 0);
    if n == |s| then s else TrimSpace(s[..n])
  }

  /** A comment sign after a blank or a tab. */
  predicate IsCommentSign(s: string, i: nat)
    requires i < |s|
  {
    (s[i] == '#' || s[i] == ';') && i > 0 && (s[i - 1] == ' ' || s[i - 1] == '\t')
  }

  /** The least position of a comment sign, or the length if there is none. */
  predicate IsCut(s: string, n: nat)
  {
    n <= |s| && (n < |s| ==> IsCommentSign(s, n)) && forall i :: 0 <= i < n ==> !IsCommentSign(s, i)
  }

  lemma {:induction false} CommentStartIsFirst(s: string, i: nat)
    requires i <= |s| && forall k :: 0 <= k < i ==> !IsCommentSign(s, k)
    ensures IsCut(s, CommentStart(s, i))
    decreases |s| - i
  {
    if i < |s| && !IsCommentSign(s, i) {
      CommentStartIsFirst(s, i + 1);
    }
  }

  /** The value without its comment: the trimmed text up to the least comment sign
      that follows a blank, trimmed again, or the whole trimmed text. */
  lemma CutsAtFirstComment(value: string, n: nat)
    requires IsCut(TrimSpace(value), n)
    ensures n < |TrimSpace(value)| ==> StripComment(value) == TrimSpace(TrimSpace(value)[..n])
    ensures n == |TrimSpace(value)| ==> StripComment(value) == TrimSpace(value)
  {
    var s := TrimSpace(value);
    CommentStartIsFirst(s, 0);
    var m := CommentStart(s, 0);
    assert m == n || m < n || n < m;
    hide CommentStart, TrimSpace;
  }

  method StripInlineComment(value: string) returns (result: string)
    ensures exists n: nat :: IsCut(TrimSpace(value), n)
              && result == if n < |TrimSpace(value)| then TrimSpace(TrimSpace(value)[..n]) else TrimSpace(value)
    ensures result == StripComment(value)
  {
    var s := TrimSpace(value);
    hide TrimSpace;
    for index := 0 to |s|
      invariant CommentStart(s, index) == CommentStart(s, 0)
      invariant forall k :: 0 <= k < index ==> !IsCommentSign(s, k)
    {
      if s[index] != '#' && s[index] != ';' {
        continue;
      }
      if index > 0 && (s[index - 1] == ' ' || s[index - 1] == '\t') {
        assert IsCut(s, index);
        return TrimSpace(s[..index]);
      }
    }
    assert IsCut(s, |s|);
    return s;
  }

  function ParseValue(raw: string): Option<string>
  {
    var value := TrimSpace(raw);
    if value == "" then Some("")
    else if value[0] == '"' then
      match SplitQuoted(value)
      case None => None
      case Some((quoted, rest)) =>
        if rest != "" && rest[0] != '#' && rest[0] != ';' then None else Unquote(quoted)
    else Some(StripComment(value))
  }

  method ParseINIValue(raw: string) returns (result: Option<string>)
    ensures result == ParseValue(raw)
  {
    var value := TrimSpace(raw);
    if value == "" {
      return Some("");
    }
    if value[0] == '"' {
      var split := SplitQuotedINIValue(value);
      if split.None? {
        return None;
      }
      var (quoted, rest) := split.value;
      if rest != "" && rest[0] != '#' && rest[0] != ';' {
        return None;
      }
      return Unquote(quoted);
    }
    var plain := StripInlineComment(value);
    return Some(plain);
  }

  // ---------------------------------------------------------------------------
  // Loading

  datatype Progress = Progress(section: Option<Section>, seenSections: set<Section>, seenKeys: set<Setting>, cfg: Config)

  function SplitAtEquals(line: string): Option<(string, string)>
  {
    if line == [] then None
    else if line[0] == '=' then Some(([], line[1..]))
    else
      match SplitAtEquals(line[1..])
      case None => None
      case Some((left, right)) => Some(([line[0]] + left, right))
  }

  /** One `key = value` line of a section. */
  function LoadSetting(env: Env, p: Progress, section: Section, left: string, right: string): Option<Progress>
  {
    match Find(section, ToLower(TrimSpace(left)))
    case None => None
    case Some(setting) =>
      if setting in p.seenKeys then None
      else
        var seen := p.(seenKeys := p.seenKeys + {setting});
        match ParseValue(right)
        case None => None
        case Some(value) =>
          if value == "" then Some(seen)
          else
            match ApplySetting(env, p.cfg, setting, value)
            case None => None
            case Some(cfg) => Some(seen.(cfg := cfg.(explicit := cfg.explicit + {setting})))
  }

  function LoadLine(env: Env, p: Progress, raw: string): Option<Progress>
  {
    var line := TrimSpace(raw);
    if line == "" || line[0] == '#' || line[0] == ';' then Some(p)
    else if line[0] == '[' && line[|line| - 1] == ']' then
      match FindSection(ToLower(TrimSpace(line[1..|line| - 1])))
      case None => None
      case Some(section) =>
        if section in p.seenSections then None
        else Some(p.(section := Some(section), seenSections := p.seenSections + {section}))
    else if p.section.None? then None
    else
      match SplitAtEquals(line)
      case None => None
      case Some((left, right)) => LoadSetting(env, p, p.section.value, left, right)
  }

  function LoadLines(env: Env, start: Progress, lines: seq<string>): Option<Progress>
  {
    if lines == [] then Some(start)
    else
      match LoadLines(env, start, lines[..|lines| - 1])
      case None => None
      case Some(p) => LoadLine(env, p, lines[|lines| - 1])
  }

  /** display.show_commands = false also silences the API trace in files that do not mention it. */
  function InheritLegacy(c: Config): Config
  {
    if DisplayShowCommands in c.explicit && !c.display.showCommands && DisplayShowApiRequests !in c.explicit
    then c.(display := c.display.(showApiRequests := false))
    else c
  }

  function Start(c: Config): Progress
  {
    Progress(None, {}, {}, c)
  }

  function Load(env: Env, text: string, c: Config): Option<Config>
  {
    match LoadLines(env, Start(c), ScanLines(text))
    case None => None
    case Some(p) => Some(InheritLegacy(p.cfg))
  }

  method LoadINI(env: Env, text: string, c: Config) returns (result: Option<Config>)
    ensures result == Load(env, text, c)
  {
    var lines := ScanLines(text);
    var p := Start(c);
    for i := 0 to |lines|
      invariant LoadLines(env, Start(c), lines[..i]) == Some(p)
    {
      PrefixStep(lines, i);
      var next := LoadLine(env, p, lines[i]);
      if next.None? {
        FailureStays(env, Start(c), lines, i + 1);
        return None;
      }
      p := next.value;
    }
    assert lines[..|lines|] == lines;
    return Some(InheritLegacy(p.cfg));
  }

  lemma {:induction false} FailureStays(env: Env, start: Progress, lines: seq<string>, n: nat)
    requires n <= |lines| && LoadLines(env, start, lines[..n]).None?
    ensures LoadLines(env, start, lines).None?
    decreases |lines| - n
  {
    if n == |lines| {
      assert lines[..n] == lines;
    } else {
      PrefixStep(lines, n);
      FailureStays(env, start, lines, n + 1);
    }
  }

  // ---------------------------------------------------------------------------
  // Saving

  /** The fixed texts of the file: its head comments and one comment per setting. */
  datatype Texts = Texts(head: seq<string>, comment: Setting -> string, isPrint: char -> bool)

  ghost predicate TextsValid(t: Texts)
  {
    && (forall i :: 0 <= i < |t.head| ==> t.head[i] != "" && t.head[i][0] == '#' && IsOneLine(t.head[i]))
    && (forall s: Setting :: IsOneLine(t.comment(s)))
    && PrintsNoControls(t.isPrint)
  }

  function SectionLines(i: nat): seq<string>
    requires i < COUNT
  {
    if i > 0 && SectionOf(Nth(i - 1)) == SectionOf(Nth(i)) then []
    else ["", "[" + SectionName(SectionOf(Nth(i))) + "]"]
  }

  function ValueText(t: Texts, c: Config, s: Setting): string
  {
    if s in c.explicit then Quote(t.isPrint, SettingValue(c, s)) else ""
  }

  function SettingLine(t: Texts, c: Config, s: Setting): string
  {
    KeyOf(s) + " = " + ValueText(t, c, s)
  }

  /** What the file says about one setting, with the heading of its section if it opens one. */
  function EntryLines(t: Texts, c: Config, i: nat): seq<string>
    requires i < COUNT
  {
    SectionLines(i) + ["# " + t.comment(Nth(i)), SettingLine(t, c, Nth(i))]
  }

  function Rendered(t: Texts, c: Config, n: nat): seq<string>
    requires n <= COUNT
  {
    if n == 0 then t.head
    else
      Rendered(t, c, n - 1) + EntryLines(t, c, n - 1)
  }

  function Render(env: Env, t: Texts, c: Config): Option<string>
  {
    if Valid(env, c) then Some(JoinLines(Rendered(t, c, COUNT))) else None
  }

  /** The buffer after the heading of the i-th setting, if it opens a section. */
  function WithHeading(buffer: string, i: nat): string
    requires i < COUNT
  {
    if i > 0 && SectionOf(Nth(i - 1)) == SectionOf(Nth(i)) then buffer
    else buffer + "" + "\n" + ("[" + SectionName(SectionOf(Nth(i))) + "]") + "\n"
  }

  lemma RenderStep(t: Texts, c: Config, i: nat)
    requires i < COUNT
    ensures JoinLines(Rendered(t, c, i + 1))
            == WithHeading(JoinLines(Rendered(t, c, i)), i) + ("# " + t.comment(Nth(i))) + "\n" + SettingLine(t, c, Nth(i)) + "\n"
  {
    var lines, comment := Rendered(t, c, i), "# " + t.comment(Nth(i));
    var title := "[" + SectionName(SectionOf(Nth(i))) + "]";
    var more := lines + SectionLines(i);
    assert lines + EntryLines(t, c, i) == more + [comment] + [SettingLine(t, c, Nth(i))];
    hide SectionName, Nth, SectionOf, SettingLine, JoinLines, EntryLines;
    if SectionLines(i) == [] {
      assert more == lines;
    } else {
      JoinAppend(lines, "");
      JoinAppend(lines + [""], title);
      assert more == lines + [""] + [title];
    }
    JoinAppend(more, comment);
    JoinAppend(more + [comment], SettingLine(t, c, Nth(i)));
  }

  method RenderHead(t: Texts, c: Config) returns (buffer: string)
    ensures buffer == JoinLines(Rendered(t, c, 0))
  {
    buffer := "";
    for i := 0 to |t.head|
      invariant buffer == JoinLines(t.head[..i])
    {
      assert t.head[..i + 1] == t.head[..i] + [t.head[i]];
      JoinAppend(t.head[..i], t.head[i]);
      buffer := buffer + t.head[i] + "\n";
    }
    assert t.head[..|t.head|] == t.head;
  }

  method RenderINI(env: Env, t: Texts, c: Config) returns (result: Option<string>)
    ensures result == Render(env, t, c)
  {
    hide Valid, SettingLine, SectionName, SectionOf, Nth, JoinLines, Rendered;
    if !Valid(env, c) {
      return None;
    }
    var buffer := RenderHead(t, c);
    var section: Option<Section> := None;
    for i := 0 to COUNT
      invariant buffer == JoinLines(Rendered(t, c, i))
      invariant section == if i == 0 then None else Some(SectionOf(Nth(i - 1)))
    {
      RenderStep(t, c, i);
      var setting := Nth(i);
      ghost var before := buffer;
      if section != Some(SectionOf(setting)) {
        section := Some(SectionOf(setting));
        buffer := buffer + "" + "\n" + ("[" + SectionName(SectionOf(setting)) + "]") + "\n";
      }
      assert buffer == WithHeading(before, i);
      buffer := buffer + ("# " + t.comment(setting)) + "\n" + SettingLine(t, c, setting) + "\n";
    }
    return Some(buffer);
  }

  // ---------------------------------------------------------------------------
  // Round trip

  /** The settings that the file gives a value. */
  predicate Saved(c: Config, s: Setting)
  {
    s in c.explicit && SettingValue(c, s) != ""
  }

  function RestoreOne(base: Config, c: Config, s: Setting): Config
  {
    if Saved(c, s) then
      var copy := CopySetting(base, c, s);
      copy.(explicit := copy.explicit + {s})
    else base
  }

  /** The defaults with the first n settings of the catalogue restored from c. */
  function Restored(c: Config, n: nat): Config
    requires n <= COUNT
  {
    if n == 0 then Defaults() else RestoreOne(Restored(c, n - 1), c, Nth(n - 1))
  }

  function Earlier(n: nat): set<Setting>
  {
    set i: nat | i < n && i < COUNT :: Nth(i)
  }

  function EarlierSections(n: nat): set<Section>
  {
    set i: nat | i < n && i < COUNT :: SectionOf(Nth(i))
  }

  function Reached(c: Config, n: nat): Progress
    requires n <= COUNT
  {
    Progress(if n == 0 then None else Some(SectionOf(Nth(n - 1))), EarlierSections(n), Earlier(n), Restored(c, n))
  }

  // --- lines

  lemma {:induction false} TrimAround(s: string)
    requires IsTrimmed(s)
    ensures TrimSpace(" " + s) == s && TrimSpace(s + " ") == s && TrimSpace(s) == s
  {
    assert (" " + s)[1..] == s;
    assert (s + " ")[..|s|] == s;
    TrimmedUnchanged(s);
  }

  lemma PlainIsTrimmed(s: string)
    requires s != "" && forall c :: c in s ==> IsKeyChar(c)
    ensures IsTrimmed(s) && ToLower(s) == s && '=' !in s && IsOneLine(s)
  {
    assert s[0] in s && s[|s| - 1] in s;
    forall i | 0 <= i < |s| ensures !('A' <= s[i] <= 'Z') {
      assert s[i] in s;
    }
    LowerIsIdentity(s);
  }

  lemma {:induction false} SplitAtFirstEquals(left: string, right: string)
    requires '=' !in left
    ensures SplitAtEquals(left + "=" + right) == Some((left, right))
  {
    var line := left + "=" + right;
    if left == [] {
      assert line[1..] == right;
    } else {
      assert line[1..] == left[1..] + "=" + right;
      SplitAtFirstEquals(left[1..], right);
      assert left == [left[0]] + left[1..];
    }
  }

  lemma QuotedIsTrimmed(t: Texts, text: string)
    requires TextsValid(t)
    ensures IsTrimmed(Quote(t.isPrint, text)) && IsOneLine(Quote(t.isPrint, text))
  {
    EscapeHasNoControls(t.isPrint, text);
  }

  /** What the parser reads from the part of the line after the equals sign. */
  lemma ValueReadsBack(t: Texts, c: Config, s: Setting)
    requires TextsValid(t)
    ensures ParseValue(" " + ValueText(t, c, s)) == Some(if s in c.explicit then SettingValue(c, s) else "")
    ensures ParseValue("") == Some("") && IsOneLine(ValueText(t, c, s))
    ensures if s in c.explicit then IsTrimmed(ValueText(t, c, s)) else ValueText(t, c, s) == ""
  {
    if s in c.explicit {
      var v := SettingValue(c, s);
      QuotedIsTrimmed(t, v);
      TrimAround(Quote(t.isPrint, v));
      SplitQuotedQuoted(t.isPrint, v);
      UnquoteQuoted(t.isPrint, v);
    } else {
      assert TrimSpace(" ") == "" by { assert " "[1..] == ""; }
      assert " " + "" == " ";
    }
  }

  lemma CommentIsSkipped(env: Env, p: Progress, line: string)
    requires line != "" && line[0] == '#'
    ensures LoadLine(env, p, line) == Some(p)
  {
    TrimKeepsHead(line);
  }

  lemma TrimKeepsHead(line: string)
    requires line != "" && !IsSpace(line[0])
    ensures TrimSpace(line) != "" && TrimSpace(line)[0] == line[0]
  {
    TrimRightKeepsHead(line);
  }

  lemma {:induction false} TrimRightKeepsHead(s: string)
    requires s != "" && !IsSpace(s[0])
    ensures TrimRight(s) != "" && TrimRight(s)[0] == s[0]
  {
    if IsSpace(s[|s| - 1]) {
      TrimRightKeepsHead(s[..|s| - 1]);
    }
  }

  lemma SectionLineLoads(env: Env, p: Progress, section: Section)
    requires section !in p.seenSections
    ensures LoadLine(env, p, "[" + SectionName(section) + "]")
            == Some(p.(section := Some(section), seenSections := p.seenSections + {section}))
  {
    var name := SectionName(section);
    var line := "[" + name + "]";
    SectionNamesArePlain(section);
    PlainIsTrimmed(name);
    hide SectionName, FindSection, ToLower;
    TrimmedUnchanged(line);
    TrimmedUnchanged(name);
    assert line[1..|line| - 1] == name;
  }

  lemma BlankLineLoads(env: Env, p: Progress)
    ensures LoadLine(env, p, "") == Some(p)
  {
  }

  lemma EmptyLineSplits(key: string)
    requires IsTrimmed(key) && '=' !in key
    ensures TrimSpace(key + " = ") == key + " =" && SplitAtEquals(key + " =") == Some((key + " ", ""))
  {
    TrimAround(key + " =");
    assert key + " = " == (key + " =") + " ";
    SplitAtFirstEquals(key + " ", "");
    assert key + " =" == (key + " ") + "=" + "";
  }

  lemma FullLineSplits(key: string, value: string)
    requires IsTrimmed(key) && '=' !in key && IsTrimmed(value)
    ensures var line := key + " = " + value;
            TrimSpace(line) == line && SplitAtEquals(line) == Some((key + " ", " " + value))
  {
    var line := key + " = " + value;
    TrimmedUnchanged(line);
    SplitAtFirstEquals(key + " ", " " + value);
    assert line == (key + " ") + "=" + (" " + value);
  }

  /** A setting line reaches its own setting with the printed value. */
  lemma SettingLineFound(env: Env, p: Progress, section: Section, key: string, value: string)
    requires p.section == Some(section)
    requires key != "" && (forall c :: c in key ==> IsKeyChar(c)) && (value == "" || IsTrimmed(value))
    ensures LoadLine(env, p, key + " = " + value)
            == LoadSetting(env, p, section, key + " ", if value == "" then "" else " " + value)
  {
    PlainIsTrimmed(key);
    var line := key + " = " + value;
    assert key[0] in key;
    hide SplitAtEquals, LoadSetting, FindSection, ToLower;
    if value == "" {
      EmptyLineSplits(key);
      assert line == key + " = ";
    } else {
      FullLineSplits(key, value);
    }
    assert TrimSpace(line) != "" && TrimSpace(line)[0] == key[0];
    hide TrimSpace;
  }

  lemma SettingLoads(env: Env, t: Texts, c: Config, p: Progress, s: Setting)
    requires TextsValid(t) && ParsesOwnNumbers(env) && Valid(env, c) && !c.cli.version && Written(c)
    requires s !in p.seenKeys
    ensures var v := ValueText(t, c, s);
            LoadSetting(env, p, SectionOf(s), KeyOf(s) + " ", if v == "" then "" else " " + v)
            == Some(p.(seenKeys := p.seenKeys + {s}, cfg := RestoreOne(p.cfg, c, s)))
  {
    hide Valid, ParseValue, KeyOf, Find, SectionOf, SettingValue, ApplySetting, CopySetting, ToLower, TrimSpace, Quote;
    ValueReadsBack(t, c, s);
    KeysArePlain(s);
    PlainIsTrimmed(KeyOf(s));
    TrimAround(KeyOf(s));
    FindNamed(s);
    if Saved(c, s) {
      ApplyRestores(env, p.cfg, c, s);
    }
  }

  lemma SettingLineLoads(env: Env, t: Texts, c: Config, p: Progress, s: Setting)
    requires TextsValid(t) && ParsesOwnNumbers(env) && Valid(env, c) && !c.cli.version && Written(c)
    requires p.section == Some(SectionOf(s)) && s !in p.seenKeys
    ensures LoadLine(env, p, SettingLine(t, c, s))
            == Some(p.(seenKeys := p.seenKeys + {s}, cfg := RestoreOne(p.cfg, c, s)))
  {
    hide Valid, ValueText, KeyOf, LoadLine, LoadSetting, TextsValid, RestoreOne, SectionOf;
    KeysArePlain(s);
    ValueReadsBack(t, c, s);
    SettingLineFound(env, p, SectionOf(s), KeyOf(s), ValueText(t, c, s));
    SettingLoads(env, t, c, p, s);
  }

  // --- the whole file

  lemma ReachedStep(n: nat)
    requires n < COUNT
    ensures Nth(n) !in Earlier(n) && Earlier(n + 1) == Earlier(n) + {Nth(n)}
    ensures EarlierSections(n + 1) == EarlierSections(n) + {SectionOf(Nth(n))}
    ensures n > 0 && SectionOf(Nth(n - 1)) == SectionOf(Nth(n)) ==> SectionOf(Nth(n)) in EarlierSections(n)
    ensures !(n > 0 && SectionOf(Nth(n - 1)) == SectionOf(Nth(n))) ==> SectionOf(Nth(n)) !in EarlierSections(n)
  {
    hide Nth, SectionOf, Rank, OrdinalOf;
    forall i: nat | i < n ensures Nth(i) != Nth(n) && Rank(SectionOf(Nth(i))) <= Rank(SectionOf(Nth(n))) {
      CatalogueOrder(i);
      CatalogueOrder(n);
      SectionsAreGrouped(Nth(i), Nth(n));
    }
    if n > 0 && SectionOf(Nth(n - 1)) != SectionOf(Nth(n)) {
      forall i: nat | i < n ensures SectionOf(Nth(i)) != SectionOf(Nth(n)) {
        CatalogueOrder(i);
        CatalogueOrder(n - 1);
        if i < n - 1 {
          SectionsAreGrouped(Nth(i), Nth(n - 1));
        }
        RankDecides(SectionOf(Nth(n - 1)), SectionOf(Nth(n)));
      }
    }
  }

  lemma RankDecides(a: Section, b: Section)
    ensures Rank(a) == Rank(b) ==> a == b
  {
  }

  lemma LoadConcat(env: Env, start: Progress, lines: seq<string>, line: string)
    requires LoadLines(env, start, lines).Some?
    ensures LoadLines(env, start, lines + [line]) == LoadLine(env, LoadLines(env, start, lines).value, line)
  {
  }

  lemma {:induction false} HeadLoads(env: Env, start: Progress, head: seq<string>)
    requires forall i :: 0 <= i < |head| ==> head[i] != "" && head[i][0] == '#'
    ensures LoadLines(env, start, head) == Some(start)
  {
    if head != [] {
      HeadLoads(env, start, head[..|head| - 1]);
      CommentIsSkipped(env, start, head[|head| - 1]);
    }
  }

  /** After the heading lines of the i-th setting the loader is in its section. */
  lemma HeadingLoads(env: Env, start: Progress, lines: seq<string>, p: Progress, i: nat)
    requires i < COUNT && LoadLines(env, start, lines) == Some(p) && Expects(p, i)
    ensures LoadLines(env, start, lines + SectionLines(i)) == Some(Entered(p, SectionOf(Nth(i))))
  {
    var section := SectionOf(Nth(i));
    hide LoadLine, LoadLines, Nth, SectionOf, SectionName;
    if SectionLines(i) == [] {
      assert lines + SectionLines(i) == lines;
      assert p.seenSections + {section} == p.seenSections;
    } else {
      var title := "[" + SectionName(section) + "]";
      LoadConcat(env, start, lines, "");
      BlankLineLoads(env, p);
      LoadConcat(env, start, lines + [""], title);
      SectionLineLoads(env, p, section);
      assert lines + SectionLines(i) == lines + [""] + [title];
    }
  }

  function Entered(p: Progress, section: Section): Progress
  {
    p.(section := Some(section), seenSections := p.seenSections + {section})
  }

  /** The loader is in the section of the i-th setting, or has not seen it yet if the setting opens one. */
  predicate Expects(p: Progress, i: nat)
    requires i < COUNT
  {
    var section := SectionOf(Nth(i));
    && Nth(i) !in p.seenKeys
    && if SectionLines(i) == [] then p.section == Some(section) && section in p.seenSections
       else section !in p.seenSections
  }

  lemma {:induction false} RenderedLoads(env: Env, t: Texts, c: Config, n: nat)
    requires TextsValid(t) && ParsesOwnNumbers(env) && Valid(env, c) && !c.cli.version && Written(c)
    requires n <= COUNT
    ensures LoadLines(env, Start(Defaults()), Rendered(t, c, n)) == Some(Reached(c, n))
  {
    var start := Start(Defaults());
    FirstProgress(t, c);
    hide Reached, Valid, LoadLines, Start, Defaults, EntryLines, ParsesOwnNumbers, Written, Entered, RestoreOne, Nth;
    if n == 0 {
      HeadLoads(env, start, t.head);
    } else {
      RenderedLoads(env, t, c, n - 1);
      ReachedNext(c, n - 1);
      EntryLoads(env, t, c, start, Rendered(t, c, n - 1), Reached(c, n - 1), n - 1);
    }
  }

  lemma FirstProgress(t: Texts, c: Config)
    ensures Reached(c, 0) == Start(Defaults()) && Rendered(t, c, 0) == t.head
  {
  }

  lemma ReachedNext(c: Config, n: nat)
    requires n < COUNT
    ensures var s, p := Nth(n), Reached(c, n);
            Expects(p, n) && Reached(c, n + 1)
                             == Entered(p, SectionOf(s)).(seenKeys := p.seenKeys + {s}, cfg := RestoreOne(p.cfg, c, s))
  {
    ReachedStep(n);
    hide Nth, SectionOf, Earlier, EarlierSections, RestoreOne, SectionName;
  }

  /** Loading the lines of the i-th setting marks it as seen and restores it. */
  lemma EntryLoads(env: Env, t: Texts, c: Config, start: Progress, lines: seq<string>, p: Progress, i: nat)
    requires TextsValid(t) && ParsesOwnNumbers(env) && Valid(env, c) && !c.cli.version && Written(c)
    requires i < COUNT && LoadLines(env, start, lines) == Some(p) && Expects(p, i)
    ensures LoadLines(env, start, lines + EntryLines(t, c, i))
            == Some(Entered(p, SectionOf(Nth(i))).(seenKeys := p.seenKeys + {Nth(i)}, cfg := RestoreOne(p.cfg, c, Nth(i))))
  {
    hide LoadLine, LoadLines, SettingLine, RestoreOne, Valid, TextsValid, SectionOf, Nth, ParsesOwnNumbers, Written, SectionLines;
    var s := Nth(i);
    var more, comment, line := lines + SectionLines(i), "# " + t.comment(s), SettingLine(t, c, s);
    var entered := Entered(p, SectionOf(s));
    HeadingLoads(env, start, lines, p, i);
    LoadConcat(env, start, more, comment);
    CommentIsSkipped(env, entered, comment);
    LoadConcat(env, start, more + [comment], line);
    SettingLineLoads(env, t, c, entered, s);
    assert lines + EntryLines(t, c, i) == more + [comment] + [line];
  }

  lemma {:induction false} RenderedIsOneLine(t: Texts, c: Config, n: nat)
    requires TextsValid(t) && n <= COUNT
    ensures AllOneLine(Rendered(t, c, n))
  {
    hide IsOneLine, PrintsNoControls, EntryLines;
    if n > 0 {
      hide TextsValid;
      RenderedIsOneLine(t, c, n - 1);
      EntryIsOneLine(t, c, n - 1);
      AllOneLineConcat(Rendered(t, c, n - 1), EntryLines(t, c, n - 1));
    }
  }

  lemma EntryIsOneLine(t: Texts, c: Config, i: nat)
    requires TextsValid(t) && i < COUNT
    ensures AllOneLine(EntryLines(t, c, i))
  {
    hide IsOneLine, TextsValid, Nth, SectionLines, SettingLine;
    SectionLinesAreOneLine(i);
    SettingLineIsOneLine(t, c, Nth(i));
  }

  lemma AllOneLineConcat(a: seq<string>, b: seq<string>)
    requires AllOneLine(a) && AllOneLine(b)
    ensures AllOneLine(a + b)
  {
  }

  lemma SectionLinesAreOneLine(n: nat)
    requires n < COUNT
    ensures AllOneLine(SectionLines(n))
  {
    var name := SectionName(SectionOf(Nth(n)));
    SectionNamesArePlain(SectionOf(Nth(n)));
    PlainIsTrimmed(name);
    hide SectionName, SectionOf, Nth;
    assert IsOneLine("[" + name + "]");
  }

  lemma SettingLineIsOneLine(t: Texts, c: Config, s: Setting)
    requires TextsValid(t)
    ensures IsOneLine("# " + t.comment(s)) && IsOneLine(SettingLine(t, c, s))
  {
    KeysArePlain(s);
    PlainIsTrimmed(KeyOf(s));
    ValueReadsBack(t, c, s);
    hide KeyOf, ValueText, ParseValue, PrintsNoControls;
    assert IsOneLine(t.comment(s));
  }

  lemma {:induction false} RestoredReads(c: Config, n: nat, s: Setting)
    requires n <= COUNT
    ensures SettingValue(Restored(c, n), s)
            == if OrdinalOf(s) < n && Saved(c, s) then SettingValue(c, s) else SettingValue(Defaults(), s)
    ensures s in Restored(c, n).explicit <==> OrdinalOf(s) < n && Saved(c, s)
  {
    hide Nth, OrdinalOf, SettingValue, CopySetting;
    CatalogueComplete(s);
    if n > 0 {
      var t := Nth(n - 1);
      RestoredReads(c, n - 1, s);
      CatalogueOrder(n - 1);
      var base := Restored(c, n - 1);
      CopyReads(base, c, t, s);
      ExplicitIsNoValue(CopySetting(base, c, t), {t}, s);
    }
  }

  lemma ExplicitIsNoValue(c: Config, names: set<Setting>, s: Setting)
    ensures SettingValue(c.(explicit := c.explicit + names), s) == SettingValue(c, s)
  {
  }

  /** Loading a saved configuration over the defaults succeeds and restores the
      value and the explicit mark of every explicit setting with a value; every
      other setting is back at its default and not explicit. */
  lemma SavedLoadsBack(env: Env, t: Texts, c: Config)
    requires TextsValid(t) && ParsesOwnNumbers(env) && Valid(env, c) && !c.cli.version && Written(c)
    ensures Render(env, t, c).Some?
    ensures var loaded := Load(env, Render(env, t, c).value, Defaults());
            && loaded.Some?
            && forall s :: && (s in loaded.value.explicit <==> Saved(c, s))
                           && SettingValue(loaded.value, s)
                              == if Saved(c, s) then SettingValue(c, s) else SettingValue(Defaults(), s)
  {
    hide LoadLines, Rendered, TextsValid, JoinLines, ScanLines, SettingValue, Restored, Defaults, Valid, OrdinalOf, Nth;
    RenderedIsOneLine(t, c, COUNT);
    ScanJoined(Rendered(t, c, COUNT));
    RenderedLoads(env, t, c, COUNT);
    var r := Restored(c, COUNT);
    NoLegacyInheritance(c);
    forall s
      ensures (s in r.explicit <==> Saved(c, s))
              && SettingValue(r, s) == if Saved(c, s) then SettingValue(c, s) else SettingValue(Defaults(), s)
    {
      RestoredReads(c, COUNT, s);
      CatalogueComplete(s);
    }
  }

  /** The inherited silence is already the default. */
  lemma NoLegacyInheritance(c: Config)
    ensures InheritLegacy(Restored(c, COUNT)) == Restored(c, COUNT)
  {
    var r := Restored(c, COUNT);
    RestoredReads(c, COUNT, DisplayShowApiRequests);
    CatalogueComplete(DisplayShowApiRequests);
    hide Restored, Nth;
    if DisplayShowApiRequests !in r.explicit {
      assert FormatBool(r.display.showApiRequests) == FormatBool(false);
      assert "true" != "false";
    }
  }
}

/** What loading a file written by hand does: which files are accepted, and what
    every setting then reads. */
module IniLaws {
  import opened Text
  import opened Seqs
  import opened Model
  import opened Config
  import opened Settings
  import opened Ini

  // ---------------------------------------------------------------------------
  // The meaning of one value

  predicate IsSwitch(s: Setting)
  {
    s in {DiagnosisLogs, DiagnosisUnused, ConnectionEnabled, DebugEnabled,
          DisplayMaskSecrets, DisplayExitZero, DisplayShowCommands, DisplayShowApiRequests}
  }

  predicate IsNumber(s: Setting)
  {
    s in {TargetTimeout, TargetBurst, TargetPageSize, DiagnosisEventsLimit, DiagnosisRestartThreshold,
          DiagnosisNodeHeartbeatTimeout, DiagnosisWatch, DiagnosisWorkers, DiagnosisLogSignatureLines, ConnectionPort,
          DisplayTail, ReportMaxIssues, HistoryWindow, HistoryFlapThreshold, HistoryRestartGrowth, HistoryRetain,
          NotificationTimeout}
  }

  /** The least number that a setting accepts. */
  function Least(s: Setting): int
  {
    if s == ConnectionPort then 1024
    else if s == HistoryWindow then 2
    else if s == DiagnosisRestartThreshold || s == ReportMaxIssues then 0
    else 1
  }

  predicate IsYes(word: string) { ToLower(word) in {"1", "yes", "true", "on"} }

  predicate IsNo(word: string) { ToLower(word) in {"0", "no", "false", "off"} }

  /** The number that a sequence of digits stands for. */
  function DecimalValue(digits: string): nat
    requires forall i :: 0 <= i < |digits| ==> '0' <= digits[i] <= '9'
  {
    if digits == [] then 0
    else
      10 * DecimalValue(digits[..|digits| - 1]) + (digits[|digits| - 1] - '0') as nat
  }

  /** One or more digits with the value n. */
  predicate Spells(digits: string, n: nat)
  {
    digits != "" && (forall i :: 0 <= i < |digits| ==> '0' <= digits[i] <= '9') && DecimalValue(digits) == n
  }

  /** A decimal number with an optional sign. */
  predicate IsNumeral(word: string, n: GoInt)
  {
    || (n >= 0 && Spells(word, n as nat))
    || (n >= 0 && HasPrefix(word, "+") && Spells(word[1..], n as nat))
    || (n <= 0 && HasPrefix(word, "-") && Spells(word[1..], -(n as int)))
  }

  /** A line that gives the setting this value makes it read this text. */
  ghost predicate Means(env: Env, s: Setting, value: string, text: string)
  {
    if IsSwitch(s) then (IsYes(value) && text == "true") || (IsNo(value) && text == "false")
    else if IsNumber(s) then exists n :: IsNumeral(value, n) && n as int >= Least(s) && text == Itoa(n)
    else if s == DiagnosisMode then value in {"all", "select", "list", "triage"} && text == value
    else if s == TargetQps then env.parseQps(value) == Some(text)
    else if s in {ReportFormat, ReportFailOn, NotificationFormat} then text == ToLower(value)
    else text == value
  }

  lemma {:induction false} DigitsSpell(s: string, n: nat)
    ensures ParseDigits(s) == Some(n) <==> Spells(s, n)
  {
    if s != "" {
      var init, last := s[..|s| - 1], s[|s| - 1];
      assert s == init + [last];
      forall m: nat ensures ParseDigits(init) == Some(m) <==> Spells(init, m) {
        DigitsSpell(init, m);
      }
      if |s| > 1 && forall i :: 0 <= i < |init| ==> '0' <= init[i] <= '9' {
        assert Spells(init, DecimalValue(init));
      }
    }
  }

  lemma AtoiSpells(word: string, n: GoInt)
    ensures Atoi(word) == Some(n) <==> IsNumeral(word, n)
  {
    forall digits, m: nat ensures ParseDigits(digits) == Some(m) <==> Spells(digits, m) {
      DigitsSpell(digits, m);
    }
    assert word != "" && (word[0] == '+' || word[0] == '-') ==> word[0] in word;
    assert HasPrefix(word, "+") <==> word != "" && word[0] == '+';
    assert HasPrefix(word, "-") <==> word != "" && word[0] == '-';
    hide ParseDigits, DecimalValue;
  }

  lemma AtoiUnique(word: string, n: GoInt, m: GoInt)
    requires IsNumeral(word, n) && IsNumeral(word, m)
    ensures n == m
  {
    AtoiSpells(word, n);
    AtoiSpells(word, m);
    hide Atoi, IsNumeral;
  }

  lemma WordsParse(word: string)
    ensures ParseBool(word) == if IsYes(word) then Some(true) else if IsNo(word) then Some(false) else None
    ensures !(IsYes(word) && IsNo(word))
  {
    hide ToLower;
  }

  lemma SwitchApplies(env: Env, c: Config, s: Setting, value: string)
    requires IsSwitch(s)
    ensures ApplySetting(env, c, s, value).Some? <==> ParseBool(value).Some?
  {
    hide ParseBool;
  }

  lemma SwitchReads(env: Env, c: Config, s: Setting, value: string, d: Config)
    requires IsSwitch(s) && ApplySetting(env, c, s, value) == Some(d) && ParseBool(value).Some?
    ensures SettingValue(d, s) == (if ParseBool(value).value then "true" else "false") && d == CopySetting(c, d, s)
  {
    hide ParseBool;
  }

  lemma NumberApplies(env: Env, c: Config, s: Setting, value: string)
    requires IsNumber(s)
    ensures ApplySetting(env, c, s, value).Some? <==> Atoi(value).Some? && Atoi(value).value as int >= Least(s)
  {
    hide Atoi;
  }

  lemma NumberReads(env: Env, c: Config, s: Setting, value: string, d: Config)
    requires IsNumber(s) && ApplySetting(env, c, s, value) == Some(d) && Atoi(value).Some?
    ensures SettingValue(d, s) == Itoa(Atoi(value).value) && d == CopySetting(c, d, s)
  {
    if SectionOf(s) in {TargetSection, DiagnosisSection} {
      NumberReadsEarly(env, c, s, value, d);
    } else {
      NumberReadsLate(env, c, s, value, d);
    }
    hide ApplySetting, SettingValue, CopySetting, SectionOf, Atoi, Itoa;
  }

  lemma NumberReadsEarly(env: Env, c: Config, s: Setting, value: string, d: Config)
    requires IsNumber(s) && ApplySetting(env, c, s, value) == Some(d) && Atoi(value).Some?
    requires SectionOf(s) in {TargetSection, DiagnosisSection}
    ensures SettingValue(d, s) == Itoa(Atoi(value).value) && d == CopySetting(c, d, s)
  {
    hide Atoi, Itoa;
  }

  lemma NumberReadsLate(env: Env, c: Config, s: Setting, value: string, d: Config)
    requires IsNumber(s) && ApplySetting(env, c, s, value) == Some(d) && Atoi(value).Some?
    requires SectionOf(s) !in {TargetSection, DiagnosisSection}
    ensures SettingValue(d, s) == Itoa(Atoi(value).value) && d == CopySetting(c, d, s)
  {
    hide Atoi, Itoa;
  }

  /** The value is accepted exactly when it means something, and only the setting
      changes, to read that. */
  ghost predicate AppliesAsMeant(env: Env, c: Config, s: Setting, value: string)
  {
    var r := ApplySetting(env, c, s, value);
    && (r.Some? <==> exists text :: Means(env, s, value, text))
    && (r.Some? ==> Means(env, s, value, SettingValue(r.value, s)) && r.value == CopySetting(c, r.value, s))
  }

  lemma OtherApplies(env: Env, c: Config, s: Setting, value: string)
    requires !IsNumber(s) && !IsSwitch(s)
    ensures AppliesAsMeant(env, c, s, value)
  {
    hide Atoi, Itoa, ToLower;
    var r := ApplySetting(env, c, s, value);
    if r.Some? {
      assert Means(env, s, value, SettingValue(r.value, s));
    }
    if text :| Means(env, s, value, text) {
      assert r.Some?;
    }
  }

  lemma SwitchMeans(env: Env, c: Config, s: Setting, value: string)
    requires IsSwitch(s)
    ensures AppliesAsMeant(env, c, s, value)
  {
    hide ApplySetting, SettingValue, CopySetting, ParseBool, IsYes, IsNo;
    SwitchApplies(env, c, s, value);
    WordsParse(value);
    if ApplySetting(env, c, s, value).Some? {
      SwitchReads(env, c, s, value, ApplySetting(env, c, s, value).value);
    }
    assert Means(env, s, value, "true") <==> IsYes(value);
    assert Means(env, s, value, "false") <==> IsNo(value);
  }

  lemma SwitchIsNoNumber(s: Setting)
    requires IsNumber(s)
    ensures !IsSwitch(s)
  {
  }

  lemma NumberMeans(env: Env, c: Config, s: Setting, value: string)
    requires IsNumber(s)
    ensures AppliesAsMeant(env, c, s, value)
  {
    hide ApplySetting, SettingValue, CopySetting, Atoi, IsNumeral, Itoa, Least, IsSwitch, IsNumber;
    NumberApplies(env, c, s, value);
    assert !IsSwitch(s) by { SwitchIsNoNumber(s); }
    forall n ensures Atoi(value) == Some(n) <==> IsNumeral(value, n) {
      AtoiSpells(value, n);
    }
    if ApplySetting(env, c, s, value).Some? {
      NumberReads(env, c, s, value, ApplySetting(env, c, s, value).value);
      assert Means(env, s, value, Itoa(Atoi(value).value));
    }
  }

  /** A value is accepted exactly when it means something for the setting; the
      setting then reads that text and no other setting changes. */
  lemma AppliesExactly(env: Env, c: Config, s: Setting, value: string)
    ensures var r := ApplySetting(env, c, s, value);
            && (r.Some? <==> exists text :: Means(env, s, value, text))
            && (r.Some? ==> && Means(env, s, value, SettingValue(r.value, s))
                            && (forall t :: t != s ==> SettingValue(r.value, t) == SettingValue(c, t))
                            && r.value.explicit == c.explicit && r.value.cli == c.cli)
  {
    hide ApplySetting, SettingValue, CopySetting, Means;
    var r := ApplySetting(env, c, s, value);
    if IsSwitch(s) {
      SwitchMeans(env, c, s, value);
    } else if IsNumber(s) {
      NumberMeans(env, c, s, value);
    } else {
      OtherApplies(env, c, s, value);
    }
    if r.Some? {
      forall t ensures t != s ==> SettingValue(r.value, t) == SettingValue(c, t) {
        CopyReads(c, r.value, s, t);
      }
      CopyReads(c, r.value, s, s);
    }
  }

  // ---------------------------------------------------------------------------
  // Lines

  /** Blank lines and comment lines. */
  predicate IsIgnored(raw: string)
  {
    var line := TrimSpace(raw);
    line == "" || line[0] == '#' || line[0] == ';'
  }

  predicate IsHeading(raw: string)
  {
    var line := TrimSpace(raw);
    !IsIgnored(raw) && line[0] == '[' && line[|line| - 1] == ']'
  }

  predicate IsEntry(raw: string) { !IsIgnored(raw) && !IsHeading(raw) }

  /** A heading with the name of this section, in any letter case. */
  predicate Opens(raw: string, section: Section)
  {
    IsHeading(raw) && var line := TrimSpace(raw); ToLower(TrimSpace(line[1..|line| - 1])) == SectionName(section)
  }

  /** An entry with the key of this setting, in any letter case, before the first
      equals sign and a readable value behind it. */
  predicate Gives(raw: string, s: Setting, value: string)
  {
    && IsEntry(raw)
    && exists i :: && 0 <= i < |TrimSpace(raw)| && IsFirstEquals(TrimSpace(raw), i)
                   && ToLower(TrimSpace(TrimSpace(raw)[..i])) == KeyOf(s) && ParseValue(TrimSpace(raw)[i + 1..]) == Some(value)
  }

  predicate IsFirstEquals(line: string, i: nat)
  {
    i < |line| && line[i] == '=' && '=' !in line[..i]
  }

  /** Line i is below the heading of the section and no other. */
  ghost predicate Under(lines: seq<string>, i: nat, section: Section)
    requires i <= |lines|
  {
    exists h :: 0 <= h < i && Opens(lines[h], section) && forall k :: h < k < i ==> !IsHeading(lines[k])
  }

  /** Line i gives the setting a value, which may be empty. */
  ghost predicate Sets(lines: seq<string>, i: nat, s: Setting, value: string)
    requires i < |lines|
  {
    Under(lines, i, SectionOf(s)) && Gives(lines[i], s, value)
  }

  // The first n lines

  ghost predicate Opened(lines: seq<string>, n: nat, section: Section)
    requires n <= |lines|
  {
    exists i :: 0 <= i < n && Opens(lines[i], section)
  }

  ghost predicate Mentioned(lines: seq<string>, n: nat, s: Setting)
    requires n <= |lines|
  {
    exists i, value :: 0 <= i < n && Sets(lines, i, s, value)
  }

  /** One of the first n lines makes the setting read this text. */
  ghost predicate Reads(env: Env, lines: seq<string>, n: nat, s: Setting, text: string)
    requires n <= |lines|
  {
    exists i, value :: 0 <= i < n && Sets(lines, i, s, value) && value != "" && Means(env, s, value, text)
  }

  /** One of the first n lines gives the setting a value. */
  ghost predicate Valued(lines: seq<string>, n: nat, s: Setting)
    requires n <= |lines|
  {
    exists i, value :: 0 <= i < n && Sets(lines, i, s, value) && value != ""
  }

  /** Line i is ignored, opens a known section for the first time, or gives a
      known setting of the open section its first value, an empty or an acceptable one. */
  ghost predicate LineAccepted(env: Env, lines: seq<string>, i: nat)
    requires i < |lines|
  {
    || IsIgnored(lines[i])
    || (exists section :: Opens(lines[i], section) && !Opened(lines, i, section))
    || (exists s, value :: && Sets(lines, i, s, value) && !Mentioned(lines, i, s)
                           && (value == "" || exists text :: Means(env, s, value, text)))
  }

  // ---------------------------------------------------------------------------
  // One line

  lemma SectionFound(name: string, section: Section)
    ensures FindSection(name) == Some(section) <==> name == SectionName(section)
  {
  }

  lemma {:induction false} SplitsAtFirst(line: string, i: nat)
    ensures IsFirstEquals(line, i) <==> SplitAtEquals(line).Some? && |SplitAtEquals(line).value.0| == i
    ensures IsFirstEquals(line, i) ==> SplitAtEquals(line) == Some((line[..i], line[i + 1..]))
  {
    if line != "" && line[0] != '=' {
      if i > 0 {
        SplitsAtFirst(line[1..], i - 1);
        if i < |line| {
          assert line[..i] == [line[0]] + line[1..][..i - 1];
          assert line[i + 1..] == line[1..][i..];
        }
      }
    }
  }

  lemma KeyFound(section: Section, key: string, s: Setting)
    ensures Find(section, key) == Some(s) <==> SectionOf(s) == section && key == KeyOf(s)
  {
    hide SectionOf, KeyOf, Find;
    FindNamed(s);
    if Find(section, key) == Some(s) {
      FoundIsNamed(section, key);
    }
  }

  lemma FoundIsNamed(section: Section, key: string)
    ensures Find(section, key).Some? ==> SectionOf(Find(section, key).value) == section && KeyOf(Find(section, key).value) == key
  {
    if section in {TargetSection, DiagnosisSection} {
      FoundEarly(section, key);
    } else if section in {ConnectionSection, DebugSection, DisplaySection} {
      FoundMiddle(section, key);
    } else if section == ReportSection {
      FoundInReport(key);
    } else {
      FoundLate(section, key);
    }
  }

  lemma FoundEarly(section: Section, key: string)
    requires section in {TargetSection, DiagnosisSection}
    ensures Find(section, key).Some? ==> SectionOf(Find(section, key).value) == section && KeyOf(Find(section, key).value) == key
  {
  }

  lemma FoundLate(section: Section, key: string)
    requires section in {HistorySection, NotificationSection}
    ensures Find(section, key).Some? ==> SectionOf(Find(section, key).value) == section && KeyOf(Find(section, key).value) == key
  {
  }

  lemma FoundInReport(key: string)
    ensures var s := Find(ReportSection, key); s.Some? ==> SectionOf(s.value) == ReportSection && KeyOf(s.value) == key
  {
  }

  lemma FoundMiddle(section: Section, key: string)
    requires section in {ConnectionSection, DebugSection, DisplaySection}
    ensures Find(section, key).Some? ==> SectionOf(Find(section, key).value) == section && KeyOf(Find(section, key).value) == key
  {
  }

  lemma IgnoredLineLoads(env: Env, p: Progress, raw: string)
    requires IsIgnored(raw)
    ensures LoadLine(env, p, raw) == Some(p)
  {
  }

  lemma HeadingLineLoads(env: Env, p: Progress, raw: string)
    requires IsHeading(raw)
    ensures forall section :: Opens(raw, section) ==>
              LoadLine(env, p, raw) == if section in p.seenSections then None else Some(Entered(p, section))
    ensures (forall section :: !Opens(raw, section)) ==> LoadLine(env, p, raw).None?
  {
    var line := TrimSpace(raw);
    var name := ToLower(TrimSpace(line[1..|line| - 1]));
    hide TrimSpace, ToLower, FindSection, SectionName, LoadSetting;
    forall section ensures FindSection(name) == Some(section) <==> Opens(raw, section) {
      SectionFound(name, section);
    }
  }

  /** What an entry of the open section does. */
  function AfterEntry(env: Env, p: Progress, s: Setting, value: string): Option<Progress>
  {
    var seen := p.(seenKeys := p.seenKeys + {s});
    if s in p.seenKeys then None
    else if value == "" then Some(seen)
    else
      match ApplySetting(env, p.cfg, s, value)
      case None => None
      case Some(cfg) => Some(seen.(cfg := cfg.(explicit := cfg.explicit + {s})))
  }

  ghost predicate GivesHere(p: Progress, raw: string, s: Setting, value: string)
  {
    p.section == Some(SectionOf(s)) && Gives(raw, s, value)
  }

  lemma EntryLineLoads(env: Env, p: Progress, raw: string)
    requires IsEntry(raw)
    ensures forall s, value :: GivesHere(p, raw, s, value) ==> LoadLine(env, p, raw) == AfterEntry(env, p, s, value)
    ensures (forall s, value :: !GivesHere(p, raw, s, value)) ==> LoadLine(env, p, raw).None?
  {
    var line := TrimSpace(raw);
    hide TrimSpace, ToLower, ParseValue, Find, SectionOf, KeyOf, ApplySetting, SplitAtEquals;
    forall i: nat ensures IsFirstEquals(line, i) <==> SplitAtEquals(line).Some? && |SplitAtEquals(line).value.0| == i
                  ensures IsFirstEquals(line, i) ==> SplitAtEquals(line) == Some((line[..i], line[i + 1..]))
    {
      SplitsAtFirst(line, i);
    }
    forall section, key, s ensures Find(section, key) == Some(s) <==> SectionOf(s) == section && key == KeyOf(s) {
      KeyFound(section, key, s);
    }
    if LoadLine(env, p, raw).Some? {
      var (left, right) := SplitAtEquals(line).value;
      var s := Find(p.section.value, ToLower(TrimSpace(left))).value;
      assert IsFirstEquals(line, |left|);
      assert GivesHere(p, raw, s, ParseValue(right).value);
    }
    hide IsFirstEquals;
  }

  // ---------------------------------------------------------------------------
  // The first n lines

  /** The loader knows which sections and settings the first n lines name. */
  ghost predicate Tracks(p: Progress, lines: seq<string>, n: nat)
    requires n <= |lines|
  {
    && (forall section :: p.section == Some(section) <==> Under(lines, n, section))
    && (forall section :: section in p.seenSections <==> Opened(lines, n, section))
    && (forall s :: s in p.seenKeys <==> Mentioned(lines, n, s))
  }

  /** Every setting reads what its line says, and otherwise what it did. */
  ghost predicate ReadsItsLine(env: Env, c: Config, d: Config, lines: seq<string>, n: nat, s: Setting)
    requires n <= |lines|
  {
    && (if Valued(lines, n, s) then Reads(env, lines, n, s, SettingValue(d, s)) else SettingValue(d, s) == SettingValue(c, s))
    && (s in d.explicit <==> s in c.explicit || Valued(lines, n, s))
  }

  ghost predicate AllRead(env: Env, c: Config, d: Config, lines: seq<string>, n: nat)
    requires n <= |lines|
  {
    forall s :: ReadsItsLine(env, c, d, lines, n, s)
  }

  /** Line n leads from p to q, or fails. */
  ghost predicate LineTaken(env: Env, c: Config, p: Progress, lines: seq<string>, n: nat, q: Option<Progress>)
    requires n < |lines|
  {
    && (q.Some? <==> LineAccepted(env, lines, n))
    && (q.Some? ==> Tracks(q.value, lines, n + 1) && AllRead(env, c, q.value.cfg, lines, n + 1) && q.value.cfg.cli == p.cfg.cli)
  }

  lemma OpensOne(raw: string, a: Section, b: Section)
    requires Opens(raw, a) && Opens(raw, b)
    ensures a == b
  {
    var line := TrimSpace(raw);
    var name := ToLower(TrimSpace(line[1..|line| - 1]));
    hide TrimSpace, ToLower, SectionName, FindSection;
    SectionFound(name, a);
    SectionFound(name, b);
  }

  lemma GivesOne(raw: string, s: Setting, value: string, t: Setting, other: string)
    requires Gives(raw, s, value) && Gives(raw, t, other) && SectionOf(s) == SectionOf(t)
    ensures s == t && value == other
  {
    var line := TrimSpace(raw);
    hide TrimSpace, ToLower, SectionOf, KeyOf, ParseValue, Find;
    var i :| 0 <= i < |line| && IsFirstEquals(line, i) && ToLower(TrimSpace(line[..i])) == KeyOf(s) && ParseValue(line[i + 1..]) == Some(value);
    var j :| 0 <= j < |line| && IsFirstEquals(line, j) && ToLower(TrimSpace(line[..j])) == KeyOf(t) && ParseValue(line[j + 1..]) == Some(other);
    SplitsAtFirst(line, i);
    SplitsAtFirst(line, j);
    FindNamed(s);
    FindNamed(t);
  }

  lemma UnderNext(lines: seq<string>, n: nat, section: Section)
    requires n < |lines|
    ensures Under(lines, n + 1, section) <==> Opens(lines[n], section) || (!IsHeading(lines[n]) && Under(lines, n, section))
    ensures Opened(lines, n + 1, section) <==> Opened(lines, n, section) || Opens(lines[n], section)
  {
    hide IsHeading, Opens;
    if Under(lines, n + 1, section) && !Opens(lines[n], section) {
      var h :| 0 <= h < n + 1 && Opens(lines[h], section) && forall k :: h < k < n + 1 ==> !IsHeading(lines[k]);
      assert h < n;
    }
    if !IsHeading(lines[n]) && Under(lines, n, section) {
      var h :| 0 <= h < n && Opens(lines[h], section) && forall k :: h < k < n ==> !IsHeading(lines[k]);
      assert forall k :: h < k < n + 1 ==> !IsHeading(lines[k]);
    }
  }

  lemma SetNext(env: Env, lines: seq<string>, n: nat, s: Setting)
    requires n < |lines|
    ensures Mentioned(lines, n + 1, s) <==> Mentioned(lines, n, s) || exists value :: Sets(lines, n, s, value)
    ensures Valued(lines, n + 1, s) <==> Valued(lines, n, s) || exists value :: Sets(lines, n, s, value) && value != ""
    ensures forall text :: Reads(env, lines, n, s, text) ==> Reads(env, lines, n + 1, s, text)
    ensures Valued(lines, n, s) ==> Mentioned(lines, n, s)
    ensures forall value, text :: Sets(lines, n, s, value) && value != "" && Means(env, s, value, text) ==> Reads(env, lines, n + 1, s, text)
  {
    hide Sets, Means;
  }

  /** The next line loads exactly when it is acceptable, and the loader keeps track. */
  lemma NextLine(env: Env, c: Config, lines: seq<string>, n: nat, p: Progress)
    requires n < |lines| && Tracks(p, lines, n) && AllRead(env, c, p.cfg, lines, n)
    ensures LineTaken(env, c, p, lines, n, LoadLine(env, p, lines[n]))
  {
    hide LoadLine, Tracks, AllRead, LineAccepted, LineTaken, IsIgnored, IsHeading;
    if IsIgnored(lines[n]) {
      NextIgnored(env, c, lines, n, p);
    } else if IsHeading(lines[n]) {
      NextHeading(env, c, lines, n, p);
    } else {
      NextEntry(env, c, lines, n, p);
    }
  }

  /** A line that gives no value changes nothing that is read. */
  lemma QuietLine(env: Env, c: Config, d: Config, lines: seq<string>, n: nat)
    requires n < |lines| && AllRead(env, c, d, lines, n) && forall s, value :: !Sets(lines, n, s, value)
    ensures AllRead(env, c, d, lines, n + 1) && forall s :: Mentioned(lines, n + 1, s) <==> Mentioned(lines, n, s)
  {
    hide Sets, Mentioned, Valued, Reads, SettingValue;
    var m := n + 1;
    forall s ensures ReadsItsLine(env, c, d, lines, m, s) && (Mentioned(lines, m, s) <==> Mentioned(lines, n, s)) {
      assert ReadsItsLine(env, c, d, lines, n, s);
      SetNext(env, lines, n, s);
    }
  }

  lemma NextIgnored(env: Env, c: Config, lines: seq<string>, n: nat, p: Progress)
    requires n < |lines| && Tracks(p, lines, n) && AllRead(env, c, p.cfg, lines, n)
    requires IsIgnored(lines[n])
    ensures LineTaken(env, c, p, lines, n, LoadLine(env, p, lines[n]))
  {
    IgnoredLineLoads(env, p, lines[n]);
    assert !IsHeading(lines[n]) && forall s, value :: !Gives(lines[n], s, value);
    assert forall section :: !Opens(lines[n], section);
    hide LoadLine, IsIgnored, IsHeading, Opens, Gives, Under, Opened, Mentioned, AllRead;
    forall section { UnderNext(lines, n, section); }
    QuietLine(env, c, p.cfg, lines, n);
  }

  lemma HeadingSetsNothing(lines: seq<string>, n: nat)
    requires n < |lines| && IsHeading(lines[n])
    ensures !IsIgnored(lines[n]) && forall s, value :: !Sets(lines, n, s, value)
    ensures forall a, b :: Opens(lines[n], a) && Opens(lines[n], b) ==> a == b
  {
    hide Opens;
    forall a, b ensures Opens(lines[n], a) && Opens(lines[n], b) ==> a == b {
      if Opens(lines[n], a) && Opens(lines[n], b) {
        OpensOne(lines[n], a, b);
      }
    }
  }

  lemma NextHeading(env: Env, c: Config, lines: seq<string>, n: nat, p: Progress)
    requires n < |lines| && Tracks(p, lines, n) && AllRead(env, c, p.cfg, lines, n)
    requires IsHeading(lines[n])
    ensures LineTaken(env, c, p, lines, n, LoadLine(env, p, lines[n]))
  {
    hide LoadLine, IsIgnored, IsHeading, Opens, Sets, Under, Opened, Mentioned, AllRead, TrimSpace, Gives;
    HeadingLineLoads(env, p, lines[n]);
    HeadingSetsNothing(lines, n);
    QuietLine(env, c, p.cfg, lines, n);
    if section :| Opens(lines[n], section) {
      assert LineAccepted(env, lines, n) <==> section !in p.seenSections;
      var q := LoadLine(env, p, lines[n]);
      forall other { UnderNext(lines, n, other); }
    }
  }

  lemma NextEntry(env: Env, c: Config, lines: seq<string>, n: nat, p: Progress)
    requires n < |lines| && Tracks(p, lines, n) && AllRead(env, c, p.cfg, lines, n)
    requires IsEntry(lines[n])
    ensures LineTaken(env, c, p, lines, n, LoadLine(env, p, lines[n]))
  {
    var raw := lines[n];
    EntryLineLoads(env, p, raw);
    assert forall section :: !Opens(raw, section);
    assert forall s, value :: GivesHere(p, raw, s, value) <==> Sets(lines, n, s, value);
    assert !IsIgnored(raw) && !IsHeading(raw);
    hide LoadLine, IsIgnored, IsHeading, Opens, Gives, Under, AfterEntry, Tracks, ReadsItsLine, Means;
    if s, value :| Sets(lines, n, s, value) {
      assert GivesHere(p, raw, s, value);
      NextValue(env, c, lines, n, p, s, value);
    }
  }

  /** No line of the file gives a value to two settings or two values to one. */
  lemma OneSetting(lines: seq<string>, n: nat, s: Setting, value: string)
    requires n < |lines| && Sets(lines, n, s, value)
    ensures forall t, other :: Sets(lines, n, t, other) <==> t == s && other == value
    ensures !IsIgnored(lines[n]) && !IsHeading(lines[n]) && forall section :: !Opens(lines[n], section)
  {
    forall t, other ensures Sets(lines, n, t, other) ==> t == s && other == value {
      if Sets(lines, n, t, other) {
        OneSection(lines, n, SectionOf(s), SectionOf(t));
        hide SectionOf;
        GivesOne(lines[n], s, value, t, other);
      }
    }
  }

  lemma OneSection(lines: seq<string>, n: nat, a: Section, b: Section)
    requires n <= |lines| && Under(lines, n, a) && Under(lines, n, b)
    ensures a == b
  {
    var h :| 0 <= h < n && Opens(lines[h], a) && forall k :: h < k < n ==> !IsHeading(lines[k]);
    var i :| 0 <= i < n && Opens(lines[i], b) && forall k :: i < k < n ==> !IsHeading(lines[k]);
    assert IsHeading(lines[h]) && IsHeading(lines[i]);
    assert h == i;
    hide IsHeading, Opens;
    OpensOne(lines[h], a, b);
  }

  lemma NextValue(env: Env, c: Config, lines: seq<string>, n: nat, p: Progress, s: Setting, value: string)
    requires n < |lines| && Tracks(p, lines, n) && AllRead(env, c, p.cfg, lines, n)
    requires Sets(lines, n, s, value)
    ensures LineTaken(env, c, p, lines, n, AfterEntry(env, p, s, value))
  {
    OneSetting(lines, n, s, value);
    ValueAccepted(env, lines, n, p, s, value);
    hide Sets, LineAccepted, Tracks, AllRead, AfterEntry;
    var q := AfterEntry(env, p, s, value);
    if q.Some? {
      NextTracks(env, lines, n, p, s, value, q.value);
      NextReads(env, c, lines, n, p, s, value, q.value);
    }
  }

  lemma ValueAccepted(env: Env, lines: seq<string>, n: nat, p: Progress, s: Setting, value: string)
    requires n < |lines| && Tracks(p, lines, n) && Sets(lines, n, s, value)
    ensures AfterEntry(env, p, s, value).Some? <==> LineAccepted(env, lines, n)
  {
    hide IsIgnored, IsHeading, Opens, Sets, Under, Opened, Mentioned, SettingValue, Means, ApplySetting, TrimSpace, Gives;
    OneSetting(lines, n, s, value);
    AppliesExactly(env, p.cfg, s, value);
    assert LineAccepted(env, lines, n) <==> s !in p.seenKeys && (value == "" || exists text :: Means(env, s, value, text));
  }

  lemma NextTracks(env: Env, lines: seq<string>, n: nat, p: Progress, s: Setting, value: string, q: Progress)
    requires n < |lines| && Tracks(p, lines, n) && Sets(lines, n, s, value) && AfterEntry(env, p, s, value) == Some(q)
    ensures Tracks(q, lines, n + 1) && q.cfg.cli == p.cfg.cli
  {
    hide IsIgnored, IsHeading, Opens, Sets, Under, Opened, Mentioned, ApplySetting, TrimSpace, Gives;
    AppliesExactly(env, p.cfg, s, value);
    OneSetting(lines, n, s, value);
    forall section { UnderNext(lines, n, section); }
    forall t ensures Mentioned(lines, n + 1, t) <==> t == s || Mentioned(lines, n, t) {
      SetNext(env, lines, n, t);
    }
  }

  lemma NextReads(env: Env, c: Config, lines: seq<string>, n: nat, p: Progress, s: Setting, value: string, q: Progress)
    requires n < |lines| && AllRead(env, c, p.cfg, lines, n) && Sets(lines, n, s, value)
    requires AfterEntry(env, p, s, value) == Some(q)
    ensures AllRead(env, c, q.cfg, lines, n + 1)
  {
    hide Sets, Mentioned, Valued, Reads, SettingValue, Means, ApplySetting, TrimSpace, Gives;
    OneSetting(lines, n, s, value);
    var d := q.cfg;
    var m := n + 1;
    forall t ensures ReadsItsLine(env, c, d, lines, m, t) {
      assert ReadsItsLine(env, c, p.cfg, lines, n, t);
      SetNext(env, lines, n, t);
      if value != "" {
        AppliedReads(env, p, s, value, t);
      }
    }
  }

  lemma AppliedReads(env: Env, p: Progress, s: Setting, value: string, t: Setting)
    requires value != "" && AfterEntry(env, p, s, value).Some?
    ensures var d := AfterEntry(env, p, s, value).value.cfg;
            && d.explicit == p.cfg.explicit + {s}
            && if t == s then Means(env, s, value, SettingValue(d, s)) else SettingValue(d, t) == SettingValue(p.cfg, t)
  {
    AppliesExactly(env, p.cfg, s, value);
    ExplicitIsNoValue(ApplySetting(env, p.cfg, s, value).value, {s}, t);
    hide SettingValue, Means, ApplySetting;
  }

  lemma NothingRead(env: Env, c: Config, lines: seq<string>)
    ensures Tracks(Start(c), lines, 0) && AllRead(env, c, c, lines, 0)
  {
    hide SettingValue;
  }

  /** Which files are accepted, and what the loaded configuration reads. */
  lemma {:induction false} LoadsExactly(env: Env, c: Config, lines: seq<string>, n: nat)
    requires n <= |lines|
    ensures var p := LoadLines(env, Start(c), lines[..n]);
            && (p.Some? <==> AllAccepted(env, lines, n))
            && (p.Some? ==> && Tracks(p.value, lines, n) && p.value.cfg.cli == c.cli
                            && AllRead(env, c, p.value.cfg, lines, n))
  {
    hide LoadLine, LineAccepted, Tracks, AllRead;
    if n > 0 {
      LoadsExactly(env, c, lines, n - 1);
      assert lines[..n][..n - 1] == lines[..n - 1];
      var p := LoadLines(env, Start(c), lines[..n - 1]);
      if p.Some? {
        NextLine(env, c, lines, n - 1, p.value);
      }
    } else {
      NothingRead(env, c, lines);
    }
  }

  // ---------------------------------------------------------------------------
  // The file

  /** What the configuration d reads after c was loaded with these lines: every
      setting reads what its line says, and what it did before if it has no line or
      an empty one; but a file that turns the commands off and does not mention the
      API trace turns the trace off as well. */
  ghost predicate Loaded(env: Env, c: Config, lines: seq<string>, d: Config)
  {
    && d.cli == c.cli
    && forall s :: && (s in d.explicit <==> s in c.explicit || Valued(lines, |lines|, s))
                   && if Silences(c, lines, d, s) then SettingValue(d, s) == "false"
                      else if Valued(lines, |lines|, s) then Reads(env, lines, |lines|, s, SettingValue(d, s))
                      else SettingValue(d, s) == SettingValue(c, s)
  }

  /** The first n lines are acceptable. */
  ghost predicate AllAccepted(env: Env, lines: seq<string>, n: nat)
    requires n <= |lines|
  {
    forall i :: 0 <= i < n ==> LineAccepted(env, lines, i)
  }

  lemma LegacyLoaded(env: Env, c: Config, lines: seq<string>, d: Config)
    requires AllRead(env, c, d, lines, |lines|) && d.cli == c.cli
    ensures Loaded(env, c, lines, InheritLegacy(d))
  {
    hide Valued, Reads, SettingValue, InheritLegacy;
    LegacyReads(d, DisplayShowApiRequests);
    LegacyReads(d, DisplayShowCommands);
    assert ReadsItsLine(env, c, d, lines, |lines|, DisplayShowCommands);
    forall s ensures && (s in InheritLegacy(d).explicit <==> s in c.explicit || Valued(lines, |lines|, s))
                     && if Silences(c, lines, InheritLegacy(d), s) then SettingValue(InheritLegacy(d), s) == "false"
                        else if Valued(lines, |lines|, s) then Reads(env, lines, |lines|, s, SettingValue(InheritLegacy(d), s))
                        else SettingValue(InheritLegacy(d), s) == SettingValue(c, s)
    {
      LegacyReads(d, s);
      assert ReadsItsLine(env, c, d, lines, |lines|, s);
    }
  }

  /** A file loads exactly when each of its lines is acceptable. */
  lemma FileLoadsExactly(env: Env, text: string, c: Config)
    ensures Load(env, text, c).Some? <==> AllAccepted(env, ScanLines(text), |ScanLines(text)|)
    ensures Load(env, text, c).Some? ==> Loaded(env, c, ScanLines(text), Load(env, text, c).value)
  {
    hide LoadLine, Tracks, Start, AllAccepted, AllRead, Loaded;
    var lines := ScanLines(text);
    assert lines[..|lines|] == lines;
    LoadsExactly(env, c, lines, |lines|);
    var p := LoadLines(env, Start(c), lines);
    if p.Some? {
      LegacyLoaded(env, c, lines, p.value.cfg);
    }
  }

  /** The API trace is silent because the commands were turned off and nothing asks for it. */
  ghost predicate Silences(c: Config, lines: seq<string>, loaded: Config, s: Setting)
  {
    && s == DisplayShowApiRequests && s !in c.explicit && !Valued(lines, |lines|, s)
    && (DisplayShowCommands in c.explicit || Valued(lines, |lines|, DisplayShowCommands))
    && SettingValue(loaded, DisplayShowCommands) == "false"
  }

  lemma LegacyReads(c: Config, s: Setting)
    ensures InheritLegacy(c).explicit == c.explicit && InheritLegacy(c).cli == c.cli
    ensures s != DisplayShowApiRequests ==> SettingValue(InheritLegacy(c), s) == SettingValue(c, s)
    ensures SettingValue(c, DisplayShowCommands) == (if c.display.showCommands then "true" else "false")
    ensures SettingValue(InheritLegacy(c), DisplayShowApiRequests)
            == if DisplayShowCommands in c.explicit && !c.display.showCommands && DisplayShowApiRequests !in c.explicit then "false"
               else SettingValue(c, DisplayShowApiRequests)
  {
  }

  // ---------------------------------------------------------------------------
  // A file with one setting

  /** A word without quotation mark in front, line break or comment. */
  predicate IsPlainWord(word: string)
  {
    IsTrimmed(word) && IsOneLine(word) && word[0] != '"' && forall i :: 0 <= i < |word| ==> !IsCommentSign(word, i)
  }

  lemma WordIsItsValue(word: string)
    requires IsPlainWord(word)
    ensures ParseValue(" " + word) == Some(word) && word != ""
  {
    TrimAround(word);
    hide TrimSpace, IsCommentSign;
    CutsAtFirstComment(word, |word|);
  }

  lemma OneLineLoads(env: Env, c: Config, s: Setting, word: string)
    requires IsPlainWord(word)
    ensures var text := "[" + SectionName(SectionOf(s)) + "]\n" + KeyOf(s) + " = " + word + "\n";
            Load(env, text, c)
            == match ApplySetting(env, c, s, word)
               case None => None
               case Some(d) => Some(InheritLegacy(d.(explicit := d.explicit + {s})))
  {
    hide SectionName, SectionOf, KeyOf, ApplySetting, LoadLine, IsTrimmed, IsOneLine, IsCommentSign, IsKeyChar, InheritLegacy, TrimSpace, ParseValue;
    var heading, entry := "[" + SectionName(SectionOf(s)) + "]", KeyOf(s) + " = " + word;
    var p := Progress(Some(SectionOf(s)), {SectionOf(s)}, {}, c);
    LinesOfTwo(heading, entry, SectionOf(s), s, word);
    assert heading + "\n" + entry + "\n" == "[" + SectionName(SectionOf(s)) + "]\n" + KeyOf(s) + " = " + word + "\n";
    SectionLineLoads(env, Start(c), SectionOf(s));
    assert {} + {SectionOf(s)} == {SectionOf(s)};
    assert LoadLine(env, Start(c), heading) == Some(p);
    OneEntryLoads(env, p, s, word);
    LoadConcat(env, Start(c), [], heading);
    LoadConcat(env, Start(c), [heading], entry);
    assert [] + [heading] == [heading] && [heading] + [entry] == [heading, entry];
    assert LoadLines(env, Start(c), [heading, entry]) == LoadLine(env, p, entry);
  }

  lemma OneEntryLoads(env: Env, p: Progress, s: Setting, word: string)
    requires IsPlainWord(word) && p.section == Some(SectionOf(s)) && p.seenKeys == {}
    ensures LoadLine(env, p, KeyOf(s) + " = " + word)
            == match ApplySetting(env, p.cfg, s, word)
               case None => None
               case Some(d) => Some(p.(seenKeys := {s}, cfg := d.(explicit := d.explicit + {s})))
  {
    hide IsCommentSign, SectionOf, KeyOf, ApplySetting, LoadLine, LoadSetting, IsOneLine, IsKeyChar;
    KeysArePlain(s);
    SettingLineFound(env, p, SectionOf(s), KeyOf(s), word);
    PairLoads(env, p, s, word);
  }

  lemma PairLoads(env: Env, p: Progress, s: Setting, word: string)
    requires IsPlainWord(word) && p.seenKeys == {}
    ensures LoadSetting(env, p, SectionOf(s), KeyOf(s) + " ", " " + word)
            == match ApplySetting(env, p.cfg, s, word)
               case None => None
               case Some(d) => Some(p.(seenKeys := {s}, cfg := d.(explicit := d.explicit + {s})))
  {
    hide SectionOf, KeyOf, ApplySetting, ToLower, ParseValue, Find, IsKeyChar, IsPlainWord, IsTrimmed, IsOneLine, TrimSpace;
    KeysArePlain(s);
    WordIsItsValue(word);
    PlainIsTrimmed(KeyOf(s));
    TrimAround(KeyOf(s));
    FindNamed(s);
    assert {} + {s} == {s};
  }

  lemma LinesOfTwo(heading: string, entry: string, section: Section, s: Setting, word: string)
    requires heading == "[" + SectionName(section) + "]" && entry == KeyOf(s) + " = " + word && IsOneLine(word)
    ensures ScanLines(heading + "\n" + entry + "\n") == [heading, entry]
  {
    hide SectionName, KeyOf, IsTrimmed, ToLower, IsKeyChar, FindSection;
    SectionNamesArePlain(section);
    KeysArePlain(s);
    PlainIsTrimmed(SectionName(section));
    PlainIsTrimmed(KeyOf(s));
    TwoLines(heading, entry);
  }

  lemma TwoLines(first: string, second: string)
    requires IsOneLine(first) && IsOneLine(second)
    ensures ScanLines(first + "\n" + second + "\n") == [first, second]
  {
    JoinAppend([], first);
    JoinAppend([first], second);
    assert [] + [first] == [first] && [first] + [second] == [first, second];
    assert "" + first + "\n" == first + "\n";
    ScanJoined([first, second]);
  }

  predicate SwitchAt(heading: string, key: string, s: Setting)
  {
    match s
    case DiagnosisLogs => heading == "diagnosis" && key == "logs"
    case DiagnosisUnused => heading == "diagnosis" && key == "unused"
    case ConnectionEnabled => heading == "connection" && key == "enabled"
    case DebugEnabled => heading == "debug" && key == "enabled"
    case DisplayMaskSecrets => heading == "display" && key == "mask_secrets"
    case DisplayExitZero => heading == "display" && key == "exit_zero"
    case DisplayShowCommands => heading == "display" && key == "show_commands"
    case DisplayShowApiRequests => heading == "display" && key == "show_api_requests"
    case _ => false
  }

  /** The field behind a switch. */
  function SwitchField(c: Config, s: Setting): bool
    requires IsSwitch(s)
  {
    match s
    case DiagnosisLogs => c.diagnosis.logs
    case DiagnosisUnused => c.diagnosis.unused
    case ConnectionEnabled => c.connection.enabled
    case DebugEnabled => c.debug.enabled
    case DisplayMaskSecrets => c.display.maskSecrets
    case DisplayExitZero => c.display.exitZero
    case DisplayShowCommands => c.display.showCommands
    case _ => c.display.showApiRequests
  }

  /** d is c with one setting changed and marked, except that the API trace goes
      silent with the commands. */
  ghost predicate OnlyChanges(c: Config, d: Config, s: Setting)
  {
    && d.explicit == c.explicit + {s} && d.cli == c.cli
    && forall t :: t != s ==>
                     SettingValue(d, t)
                     == if t == DisplayShowApiRequests && t !in c.explicit && DisplayShowCommands in d.explicit && !d.display.showCommands
                        then "false" else SettingValue(c, t)
  }

  lemma MarkedAndInherited(c: Config, e: Config, s: Setting)
    requires e.explicit == c.explicit && e.cli == c.cli && forall t :: t != s ==> SettingValue(e, t) == SettingValue(c, t)
    ensures var d := InheritLegacy(e.(explicit := e.explicit + {s})); OnlyChanges(c, d, s) && SettingValue(d, s) == SettingValue(e, s)
  {
    hide SettingValue;
    var m := e.(explicit := e.explicit + {s});
    forall t ensures SettingValue(m, t) == SettingValue(e, t)
             ensures SettingValue(InheritLegacy(m), t)
                     == if t == DisplayShowApiRequests && t !in m.explicit && DisplayShowCommands in m.explicit && !m.display.showCommands
                        then "false" else SettingValue(e, t)
    {
      ExplicitIsNoValue(e, {s}, t);
      LegacyReads(m, t);
      LegacyReads(m, DisplayShowApiRequests);
    }
  }

  /** A one-line file is accepted exactly when its word means something for the
      setting, which then reads that; nothing else changes. */
  lemma SettingLineMeans(env: Env, c: Config, s: Setting, word: string)
    requires IsPlainWord(word)
    ensures var r := Load(env, "[" + SectionName(SectionOf(s)) + "]\n" + KeyOf(s) + " = " + word + "\n", c);
            && (r.Some? <==> exists text :: Means(env, s, word, text))
            && (r.Some? ==> Means(env, s, word, SettingValue(r.value, s)) && OnlyChanges(c, r.value, s))
  {
    hide SectionName, SectionOf, KeyOf, ApplySetting, SettingValue, Load, IsPlainWord, Means, OnlyChanges, InheritLegacy;
    OneLineLoads(env, c, s, word);
    AppliesExactly(env, c, s, word);
    var e := ApplySetting(env, c, s, word);
    if e.Some? {
      MarkedAndInherited(c, e.value, s);
    }
  }

  /** A one-line file switches a switch on with 1, yes, true or on, and off with 0, no,
      false or off, in any letter case; every other word is an error. */
  lemma SwitchLoads(env: Env, c: Config, heading: string, key: string, s: Setting, word: string)
    requires SwitchAt(heading, key, s) && IsPlainWord(word)
    ensures var r := Load(env, "[" + heading + "]\n" + key + " = " + word + "\n", c);
            && (r.Some? && SwitchField(r.value, s) <==> ToLower(word) in {"1", "yes", "true", "on"})
            && (r.Some? && !SwitchField(r.value, s) <==> ToLower(word) in {"0", "no", "false", "off"})
            && (r.Some? ==> OnlyChanges(c, r.value, s))
  {
    hide ToLower, Load, SettingValue, OnlyChanges, IsPlainWord;
    SwitchTexts(heading, key, s);
    SettingLineMeans(env, c, s, word);
    WordsParse(word);
    hide SectionName, SectionOf, KeyOf, ParseBool;
    var r := Load(env, "[" + heading + "]\n" + key + " = " + word + "\n", c);
    assert Means(env, s, word, "true") <==> IsYes(word);
    assert Means(env, s, word, "false") <==> IsNo(word);
    if r.Some? {
      FieldIsRead(r.value, s);
    }
  }

  lemma SwitchTexts(heading: string, key: string, s: Setting)
    requires SwitchAt(heading, key, s)
    ensures IsSwitch(s) && heading == SectionName(SectionOf(s)) && key == KeyOf(s)
  {
  }

  lemma FieldIsRead(c: Config, s: Setting)
    requires IsSwitch(s)
    ensures SettingValue(c, s) == if SwitchField(c, s) then "true" else "false"
  {
  }

  predicate NumberAt(heading: string, key: string, s: Setting, least: int)
  {
    match s
    case TargetTimeout => heading == "target" && key == "timeout" && least == 1
    case TargetBurst => heading == "target" && key == "burst" && least == 1
    case TargetPageSize => heading == "target" && key == "page_size" && least == 1
    case DiagnosisEventsLimit => heading == "diagnosis" && key == "events_limit" && least == 1
    case DiagnosisRestartThreshold => heading == "diagnosis" && key == "restart_threshold" && least == 0
    case DiagnosisNodeHeartbeatTimeout => heading == "diagnosis" && key == "node_heartbeat_timeout" && least == 1
    case DiagnosisWatch => heading == "diagnosis" && key == "watch" && least == 1
    case DiagnosisWorkers => heading == "diagnosis" && key == "workers" && least == 1
    case DiagnosisLogSignatureLines => heading == "diagnosis" && key == "log_signature_lines" && least == 1
    case ConnectionPort => heading == "connection" && key == "port" && least == 1024
    case DisplayTail => heading == "display" && key == "tail" && least == 1
    case ReportMaxIssues => heading == "report" && key == "max_issues" && least == 0
    case HistoryWindow => heading == "history" && key == "window" && least == 2
    case HistoryFlapThreshold => heading == "history" && key == "flap_threshold" && least == 1
    case HistoryRestartGrowth => heading == "history" && key == "restart_growth" && least == 1
    case HistoryRetain => heading == "history" && key == "retain" && least == 1
    case NotificationTimeout => heading == "notification" && key == "timeout" && least == 1
    case _ => false
  }

  /** A one-line file gives a number to a setting exactly when its word is a decimal
      64-bit integer that is at least the setting's least number. */
  lemma NumberLoads(env: Env, c: Config, heading: string, key: string, s: Setting, least: int, word: string)
    requires NumberAt(heading, key, s, least) && IsPlainWord(word)
    ensures var r := Load(env, "[" + heading + "]\n" + key + " = " + word + "\n", c);
            && (r.Some? <==> exists n :: IsNumeral(word, n) && n as int >= least)
            && (forall n :: r.Some? && IsNumeral(word, n) ==> SettingValue(r.value, s) == Itoa(n))
            && (r.Some? ==> OnlyChanges(c, r.value, s))
  {
    hide Load, SettingValue, OnlyChanges, IsPlainWord, IsNumeral, Itoa;
    NumberTexts(heading, key, s, least);
    SettingLineMeans(env, c, s, word);
    hide SectionName, SectionOf, KeyOf, NumberAt;
    forall n, m ensures IsNumeral(word, n) && IsNumeral(word, m) ==> n == m {
      if IsNumeral(word, n) && IsNumeral(word, m) {
        AtoiUnique(word, n, m);
      }
    }
    forall n ensures IsNumeral(word, n) && n as int >= least ==> Means(env, s, word, Itoa(n)) {}
  }

  lemma NumberTexts(heading: string, key: string, s: Setting, least: int)
    requires NumberAt(heading, key, s, least)
    ensures IsNumber(s) && !IsSwitch(s) && Least(s) == least && heading == SectionName(SectionOf(s)) && key == KeyOf(s)
  {
    NumberHasKey(heading, key, s, least);
    NumberHasHeading(heading, key, s, least);
    hide NumberAt, SectionName, SectionOf, KeyOf, Least, IsNumber, IsSwitch;
  }

  lemma NumberHasKey(heading: string, key: string, s: Setting, least: int)
    requires NumberAt(heading, key, s, least)
    ensures key == KeyOf(s)
  {
  }

  lemma NumberHasHeading(heading: string, key: string, s: Setting, least: int)
    requires NumberAt(heading, key, s, least)
    ensures IsNumber(s) && !IsSwitch(s) && Least(s) == least && heading == SectionName(SectionOf(s))
  {
  }
}

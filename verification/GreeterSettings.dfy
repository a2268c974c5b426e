/** The line editor that puts one setting of the General section into the greeter's configuration:
    a second writer of the files that ConfigReader reads. */
module GreeterSettings {
  import opened ConfigText
  import opened ConfigScan

  // ---------- single lines, as this writer takes them apart ----------

  /** Unlike the reader, this trims inside the brackets and does not care about an `=`. */
  function SectionName(line: string): string {
    var bare := WithoutComment(line);
    if bare == "" || bare[0] != '[' || bare[|bare| - 1] != ']' then ""
    else Trim(bare[1..|bare| - 1])
  }

  function AssignmentName(line: string): string {
    var bare := WithoutComment(line);
    var k := Find(bare, '=');
    if k == |bare| then "" else Trim(bare[..k])
  }

  function SettingLine(line: string, key: string, value: string): string {
    key + "=" + value + if Comment(line) == "" then "" else " " + Comment(line)
  }

  // ---------- texts and lines ----------

  function Split(s: string): (parts: seq<string>)
    ensures parts != [] && forall part <- parts :: '\n' !in part
  {
    var k := Find(s, '\n');
    [s[..k]] + if k < |s| then Split(s[k + 1..]) else []
  }

  function JoinLines(lines: seq<string>): string {
    if lines == [] then ""
    else if |lines| == 1 then lines[0]
    else lines[0] + "\n" + JoinLines(lines[1..])
  }

  predicate EndsInNewline(s: string) {
    s != "" && s[|s| - 1] == '\n'
  }

  /** The lines of a file; the empty piece behind the last newline is none. */
  function LinesOf(content: string): seq<string> {
    if EndsInNewline(content) then Split(content)[..|Split(content)| - 1] else Split(content)
  }

  function TextOf(lines: seq<string>): string {
    JoinLines(lines) + "\n"
  }

  // ---------- what the writer does, line by line ----------

  /** Whether the writer takes the line after `lines` to be in the General section. */
  predicate InGeneral(lines: seq<string>) {
    if lines == [] then true
    else
      var section := SectionName(lines[|lines| - 1]);
      if section != "" then section == GENERAL else InGeneral(lines[..|lines| - 1])
  }

  /** The line after `before` assigns to `key` in the General section. */
  predicate Sets(before: seq<string>, line: string, key: string) {
    SectionName(line) == "" && InGeneral(before) && AssignmentName(line) == key
  }

  predicate Has(lines: seq<string>, key: string) {
    lines != [] && (Has(lines[..|lines| - 1], key) || Sets(lines[..|lines| - 1], lines[|lines| - 1], key))
  }

  function Replaced(lines: seq<string>, key: string, value: string): (r: seq<string>)
    ensures |r| == |lines|
  {
    if lines == [] then []
    else
      var (init, last) := (lines[..|lines| - 1], lines[|lines| - 1]);
      Replaced(init, key, value)
      + [if Sets(init, last, key) then SettingLine(last, key, value) else last]
  }

  /** The place behind the last line of the General section. */
  function EndOfGeneral(lines: seq<string>): (e: nat)
    ensures e <= |lines|
  {
    if lines == [] then 0
    else if InGeneral(lines) then |lines|
    else EndOfGeneral(lines[..|lines| - 1])
  }

  function WithSetting(lines: seq<string>, key: string, value: string): seq<string> {
    if Has(lines, key) then Replaced(lines, key, value)
    else if lines == [] then ["[" + GENERAL + "]", SettingLine("", key, value)]
    else lines[..EndOfGeneral(lines)] + [SettingLine("", key, value)] + lines[EndOfGeneral(lines)..]
  }

  // ---------- the program ----------

  /** `present` tells whether the file exists; the new text of the file is returned. */
  method SaveGeneralSetting(present: bool, content: string, key: string, value: string) returns (text: string)
    requires key != ""
    ensures text == TextOf(WithSetting(if present then LinesOf(content) else [], key, value))
  {
    hide SectionName, SettingLine, InGeneral, Has, Replaced, EndOfGeneral, JoinLines, Split;
    var lines: seq<string> := [];
    if present {
      lines := Split(content);
      if EndsInNewline(content) {
        lines := lines[..|lines| - 1];
      }
    }
    ghost var was := lines;
    assert was == if present then LinesOf(content) else [];
    var sawGeneral, wroteSetting, firstNonGeneralSection, generalInsertIndex;
    lines, sawGeneral, wroteSetting, firstNonGeneralSection, generalInsertIndex := EditLines(lines, key, value);
    if !wroteSetting {
      NothingReplaced(was, key, value);
      var configLine := SettingLine("", key, value);
      assert lines == was;
      if lines == [] {
        lines := ["[" + GENERAL + "]", configLine];
      } else if sawGeneral || firstNonGeneralSection >= 0 {
        var insertIndex := if sawGeneral then generalInsertIndex else firstNonGeneralSection;
        lines := lines[..insertIndex] + [configLine] + lines[insertIndex..];
      } else {
        assert lines[..|lines|] == lines && lines[|lines|..] == [];
        lines := lines + [configLine];
      }
    }
    assert lines == WithSetting(was, key, value);
    text := JoinLines(lines) + "\n";
  }

  /** The loop over the lines: rewrites assignments to `key` and finds where one could be inserted. */
  method EditLines(was: seq<string>, key: string, value: string)
    returns (lines: seq<string>, sawGeneral: bool, wroteSetting: bool,
             firstNonGeneralSection: int, generalInsertIndex: nat)
    ensures lines == Replaced(was, key, value) && wroteSetting == Has(was, key)
    ensures !wroteSetting && was != [] ==>
      if sawGeneral then generalInsertIndex == EndOfGeneral(was)
      else if firstNonGeneralSection >= 0 then firstNonGeneralSection == EndOfGeneral(was)
      else EndOfGeneral(was) == |was|
  {
    hide SectionName, AssignmentName, SettingLine, InGeneral, Has, Replaced, EndOfGeneral, Sets;
    lines := was;
    var inGeneral := true;
    sawGeneral, wroteSetting := false, false;
    firstNonGeneralSection, generalInsertIndex := -1, |lines|;
    var i := 0;
    NoLine(key, value);
    while i < |lines|
      invariant 0 <= i <= |lines| == |was|
      invariant lines[..i] == Replaced(was[..i], key, value) && lines[i..] == was[i..]
      invariant inGeneral == InGeneral(was[..i])
      invariant wroteSetting == Has(was[..i], key)
      invariant !sawGeneral && firstNonGeneralSection < 0 ==> inGeneral
      invariant i > 0 && !wroteSetting ==> generalInsertIndex == EndOfGeneral(was[..i])
      invariant !sawGeneral && firstNonGeneralSection >= 0 ==>
        firstNonGeneralSection == EndOfGeneral(was[..i]) && !inGeneral
    {
      assert was[..i + 1] == was[..i] + [was[i]];
      assert lines[i] == lines[i..][0] == was[i];
      OneLineMore(was[..i], was[i], key, value);
      assert lines[i + 1..] == lines[i..][1..] == was[i + 1..];
      var section := SectionName(lines[i]);
      if section != "" {
        if section == GENERAL {
          inGeneral, sawGeneral := true, true;
          generalInsertIndex := i + 1;
        } else {
          if inGeneral && firstNonGeneralSection < 0 {
            firstNonGeneralSection := i;
          }
          if inGeneral {
            generalInsertIndex := i;
          }
          inGeneral := false;
        }
      } else if inGeneral {
        if AssignmentName(lines[i]) == key {
          lines := lines[i := SettingLine(lines[i], key, value)];
          wroteSetting := true;
        } else {
          generalInsertIndex := i + 1;
        }
      }
      i := i + 1;
    }
    assert was[..i] == was && lines[..i] == lines;
    FullIfInGeneral(was);
  }

  lemma NoLine(key: string, value: string)
    ensures InGeneral([]) && !Has([], key) && Replaced([], key, value) == []
  {
  }

  lemma FullIfInGeneral(lines: seq<string>)
    ensures InGeneral(lines) ==> EndOfGeneral(lines) == |lines|
  {
  }

  lemma OneLineMore(before: seq<string>, line: string, key: string, value: string)
    ensures var lines := before + [line];
      && InGeneral(lines) == (if SectionName(line) != "" then SectionName(line) == GENERAL else InGeneral(before))
      && Has(lines, key) == (Has(before, key) || Sets(before, line, key))
      && Replaced(lines, key, value)
         == Replaced(before, key, value) + [if Sets(before, line, key) then SettingLine(line, key, value) else line]
      && EndOfGeneral(lines) == (if InGeneral(lines) then |lines| else EndOfGeneral(before))
      && (InGeneral(before) ==> EndOfGeneral(before) == |before|)
    ensures Sets(before, line, key) == (SectionName(line) == "" && InGeneral(before) && AssignmentName(line) == key)
  {
    assert (before + [line])[..|before|] == before;
  }

  lemma {:induction false} NothingReplaced(lines: seq<string>, key: string, value: string)
    requires !Has(lines, key)
    ensures Replaced(lines, key, value) == lines
  {
    hide SectionName, AssignmentName, SettingLine, InGeneral, Has, Replaced, EndOfGeneral, Sets;
    if lines == [] {
      NoLine(key, value);
    } else {
      var (init, last) := (lines[..|lines| - 1], lines[|lines| - 1]);
      assert lines == init + [last];
      OneLineMore(init, last, key, value);
      NothingReplaced(init, key, value);
    }
  }

  // ---------- what the reader makes of it ----------

  /** A line whose header, if any, means the same section to writer and reader. */
  predicate Agreed(line: string) {
    match Classify(line)
    case Header(name) => Trimmed(name) && name != ""
    case Assignment(_, _) => SectionName(line) == ""
    case Remark => true
  }

  predicate AllAgreed(lines: seq<string>) {
    forall line <- lines :: Agreed(line)
  }

  /** Keys and values that may stand in a setting. */
  predicate Settable(key: string, value: string) {
    Key(key) && key[0] != '[' && Plain(value)
  }

  lemma AgreedMeans(line: string)
    requires Agreed(line)
    ensures Classify(line).Header? <==> SectionName(line) != ""
    ensures Classify(line).Header? ==> Classify(line).name == SectionName(line)
    ensures AssignmentName(line) != "" ==> Classify(line).Assignment? && Classify(line).name == AssignmentName(line)
    ensures Classify(line).Assignment? ==> AssignmentName(line) == Classify(line).name
  {
    if Classify(line).Header? { TrimOfTrimmed(Classify(line).name); }
  }

  /** Writer and reader agree on where the General section is. */
  lemma {:induction false} GeneralAgrees(lines: seq<string>)
    requires AllAgreed(lines)
    ensures InGeneral(lines) <==> ScanLines(START, lines).section == GENERAL
    ensures Renamed(ScanLines(START, lines).section) == GENERAL <==> ScanLines(START, lines).section == GENERAL
  {
    if lines != [] {
      assert Agreed(lines[|lines| - 1]);
      assert forall line <- lines[..|lines| - 1] :: line in lines;
      GeneralAgrees(lines[..|lines| - 1]);
      AgreedMeans(lines[|lines| - 1]);
      RenamedGeneral(ScanLines(START, lines[..|lines| - 1]).section);
    }
    hide SectionName, AssignmentName, Classify, Agreed, Renamed;
    RenamedGeneral(ScanLines(START, lines).section);
  }

  lemma SettingLineReads(line: string, key: string, value: string)
    requires Settable(key, value)
    ensures Classify(SettingLine(line, key, value)) == Assignment(key, value)
    ensures Agreed(SettingLine(line, key, value)) && AssignmentName(SettingLine(line, key, value)) == key
    ensures SectionName(SettingLine(line, key, value)) == ""
    ensures Comment(SettingLine(line, key, value)) == Comment(line)
    ensures SettingLine(SettingLine(line, key, value), key, value) == SettingLine(line, key, value)
  {
    var (s, text) := (key + "=" + value, SettingLine(line, key, value));
    AssignmentRead(key, value);
    CommentIsComment(line);
    var tail := text[|s|..];
    assert text == s + tail;
    FindInSum(s, tail, '#');
    TailIsComment(line, tail);
    WithoutCommentOf(s, tail);
    assert s[0] == key[0];
    assert text[Find(text, '#')..] == tail[Find(tail, '#')..];
    AgreedAssignment(text);
  }

  lemma AgreedAssignment(line: string)
    requires WithoutComment(line) != "" && WithoutComment(line)[0] != '['
    ensures SectionName(line) == "" && (Classify(line).Assignment? ==> Agreed(line))
  {
  }

  lemma TailIsComment(line: string, tail: string)
    requires tail == if Comment(line) == "" then "" else " " + Comment(line)
    ensures AllSpace(tail[..Find(tail, '#')]) && Trim(tail[Find(tail, '#')..]) == Comment(line)
  {
    CommentIsComment(line);
    TrimOfTrimmed(Comment(line));
    if Comment(line) != "" {
      assert !IsSpace('#');
      FindIs(tail, '#', 1);
      assert tail[1..] == Comment(line);
    }
  }

  // ---------- an existing assignment is replaced ----------

  lemma OneLineScanned(s: Scan, line: string, key: string)
    requires Agreed(line) && key != "" && (Renamed(s.section) == GENERAL <==> s.section == GENERAL)
    ensures var t := ScanLine(s, line);
      if SectionName(line) == "" && s.section == GENERAL && AssignmentName(line) == key
      then
        && Classify(line).Assignment? && Classify(line).name == key
        && t == Scan(GENERAL, s.found + [Found(GENERAL, key, Classify(line).value)], s.modern)
      else Lookup(t.found, GENERAL, key) == Lookup(s.found, GENERAL, key)
  {
    AgreedMeans(line);
    if Classify(line).Assignment? {
      LookupOneMore(s.found, Found(Renamed(s.section), Classify(line).name, Classify(line).value), GENERAL, key);
    }
  }

  /** The writer sees an assignment exactly if the reader finds one. */
  lemma {:induction false} HasAgrees(lines: seq<string>, key: string)
    requires AllAgreed(lines) && key != ""
    ensures Has(lines, key) <==> Lookup(ScanLines(START, lines).found, GENERAL, key).SetTo?
  {
    if lines != [] {
      var (init, last) := (lines[..|lines| - 1], lines[|lines| - 1]);
      assert last in lines && forall line <- init :: line in lines;
      HasAgrees(init, key);
      GeneralAgrees(init);
      OneLineScanned(ScanLines(START, init), last, key);
    }
  }

  /** The reader takes the line after `before` for an assignment of this setting. */
  predicate Assigns(before: seq<string>, line: string, section: string, key: string) {
    var m := Classify(line);
    m.Assignment? && m.name == key && Renamed(ScanLines(START, before).section) == section
  }

  /** The line that decides for the reader is one that the writer sets. */
  predicate LastIsSet(lines: seq<string>, section: string, key: string) {
    lines != []
    && var (init, last) := (lines[..|lines| - 1], lines[|lines| - 1]);
      if Assigns(init, last, section, key) then Sets(init, last, key) else LastIsSet(init, section, key)
  }

  /** What a line that the writer sets is to the reader. */
  lemma SetsAssignment(before: seq<string>, line: string, key: string)
    requires Sets(before, line, key) && key != ""
    ensures Classify(line).Assignment? && Classify(line).name == key
  {
  }

  lemma {:induction false} ReplacedScans(lines: seq<string>, key: string, value: string, section: string, name: string)
    requires Settable(key, value)
    ensures ScanLines(START, Replaced(lines, key, value)).section == ScanLines(START, lines).section
    ensures Lookup(ScanLines(START, Replaced(lines, key, value)).found, section, name)
         == if name == key && LastIsSet(lines, section, key) then SetTo(value)
            else Lookup(ScanLines(START, lines).found, section, name)
  {
    if lines != [] {
      hide ScanLines, Settable, LastIsSet;
      var (init, last) := (lines[..|lines| - 1], lines[|lines| - 1]);
      assert init + [last] == lines;
      ReplacedScans(init, key, value, section, name);
      ReplacedLineScans(init, last, key, value, section, name);
    }
  }

  lemma LineScanned(before: seq<string>, line: string, section: string, name: string)
    ensures ScanLines(START, before + [line]) == ScanLine(ScanLines(START, before), line)
    ensures Lookup(ScanLines(START, before + [line]).found, section, name)
         == if Assigns(before, line, section, name) then SetTo(Classify(line).value)
            else Lookup(ScanLines(START, before).found, section, name)
  {
    var (s, m) := (ScanLines(START, before), Classify(line));
    assert (before + [line])[..|before|] == before;
    if m.Assignment? { LookupOneMore(s.found, Found(Renamed(s.section), m.name, m.value), section, name); }
  }

  lemma ReplacedLineScans(init: seq<string>, last: string, key: string, value: string, section: string, name: string)
    requires Settable(key, value)
    requires ScanLines(START, Replaced(init, key, value)).section == ScanLines(START, init).section
    requires Lookup(ScanLines(START, Replaced(init, key, value)).found, section, name)
          == if name == key && LastIsSet(init, section, key) then SetTo(value)
             else Lookup(ScanLines(START, init).found, section, name)
    ensures var (lines, lines') := (init + [last], Replaced(init + [last], key, value));
      && ScanLines(START, lines').section == ScanLines(START, lines).section
      && Lookup(ScanLines(START, lines').found, section, name)
        == if name == key && LastIsSet(lines, section, key) then SetTo(value)
           else Lookup(ScanLines(START, lines).found, section, name)
  {
    var (line', init') := (if Sets(init, last, key) then SettingLine(last, key, value) else last,
                           Replaced(init, key, value));
    OneLineMore(init, last, key, value);
    LineScanned(init, last, section, name);
    LineScanned(init', line', section, name);
    LastIsSetMore(init, last, section, key);
    LineRead(init, init', last, key, value, section, name);
    hide ScanLines, Sets, SettingLine, Settable, Replaced, InGeneral, Has, EndOfGeneral, Classify, LastIsSet, Assigns;
    assert ScanLines(START, init' + [line']).section == ScanLines(START, init + [last]).section;
  }

  lemma LastIsSetMore(init: seq<string>, last: string, section: string, key: string)
    ensures LastIsSet(init + [last], section, key)
         == if Assigns(init, last, section, key) then Sets(init, last, key) else LastIsSet(init, section, key)
  {
    assert (init + [last])[..|init|] == init;
  }

  /** The line means to the reader what it meant, but for its value if it has been set. */
  lemma LineRead(init: seq<string>, init': seq<string>, last: string, key: string, value: string,
                 section: string, name: string)
    requires Settable(key, value) && ScanLines(START, init').section == ScanLines(START, init).section
    ensures var line' := if Sets(init, last, key) then SettingLine(last, key, value) else last;
      && Assigns(init', line', section, name) == Assigns(init, last, section, name)
      && ScanLine(ScanLines(START, init'), line').section == ScanLine(ScanLines(START, init), last).section
      && (Assigns(init, last, section, name) ==>
        Classify(line').value == if name == key && Sets(init, last, key) then value else Classify(last).value)
      && (Sets(init, last, key) && Assigns(init, last, section, name) ==> name == key)
  {
    if Sets(init, last, key) {
      SetsAssignment(init, last, key);
      SettingLineReads(last, key, value);
    }
    hide Sets, SettingLine, ScanLines, Settable;
  }

  /** Where the assignments to the key are, nothing else changes; where there are none, no line does. */
  lemma OtherLinesStay(lines: seq<string>, key: string, value: string, i: nat)
    requires i < |lines| && !Sets(lines[..i], lines[i], key)
    ensures Replaced(lines, key, value)[i] == lines[i]
    decreases |lines|
  {
    if i < |lines| - 1 {
      assert lines[..|lines| - 1][..i] == lines[..i];
      OtherLinesStay(lines[..|lines| - 1], key, value, i);
    }
  }

  lemma {:induction false} ReplacedTwice(lines: seq<string>, key: string, value: string)
    requires Settable(key, value)
    ensures InGeneral(Replaced(lines, key, value)) == InGeneral(lines)
        && Has(Replaced(lines, key, value), key) == Has(lines, key)
    ensures Replaced(Replaced(lines, key, value), key, value) == Replaced(lines, key, value)
  {
    if lines != [] {
      var (init, last) := (lines[..|lines| - 1], lines[|lines| - 1]);
      ReplacedTwice(init, key, value);
      SettingLineReads(last, key, value);
      assert Replaced(lines, key, value)[..|init|] == Replaced(init, key, value);
    }
  }

  // ---------- a missing assignment is inserted ----------

  lemma EndIs(lines: seq<string>)
    ensures if InGeneral(lines) then EndOfGeneral(lines) == |lines|
            else lines != [] && EndOfGeneral(lines) == EndOfGeneral(lines[..|lines| - 1])
  {
  }

  /** The place of insertion is the last one that is in General. */
  lemma {:induction false} EndIsInGeneral(lines: seq<string>)
    ensures InGeneral(lines[..EndOfGeneral(lines)])
    ensures forall k | EndOfGeneral(lines) < k <= |lines| :: !InGeneral(lines[..k])
  {
    hide InGeneral, EndOfGeneral;
    EndIs(lines);
    assert lines[..|lines|] == lines;
    if !InGeneral(lines) {
      var init := lines[..|lines| - 1];
      EndIsInGeneral(init);
      assert forall k | 0 <= k <= |init| :: init[..k] == lines[..k];
    }
  }

  /** A header of another section, with none of General after it. */
  ghost predicate Stands(lines: seq<string>, i: nat) {
    && i < |lines| && SectionName(lines[i]) != "" && SectionName(lines[i]) != GENERAL
    && forall j | i < j < |lines| :: SectionName(lines[j]) != GENERAL
  }

  lemma {:induction false} InGeneralIs(lines: seq<string>)
    ensures InGeneral(lines) <==> forall i: nat :: !Stands(lines, i)
  {
    hide SectionName;
    if lines != [] {
      var (init, n) := (lines[..|lines| - 1], |lines| - 1);
      InGeneralIs(init);
      var last := SectionName(lines[n]);
      if last == "" {
        forall i: nat ensures Stands(lines, i) <==> Stands(init, i) {
          assert lines == init + [lines[n]];
          StandsMore(init, lines[n], i);
        }
      } else if last != GENERAL {
        assert Stands(lines, n);
      }
    }
  }

  lemma StandsMore(init: seq<string>, line: string, i: nat)
    requires SectionName(line) == ""
    ensures Stands(init + [line], i) <==> Stands(init, i)
  {
    hide SectionName;
    var lines := init + [line];
    assert forall j | 0 <= j < |init| :: lines[j] == init[j];
  }

  /** A renamed section is scanned under its new name. */
  lemma {:induction false} RenamedScans(c: string, lines: seq<string>)
    ensures ScanLines(Scan(Renamed(c), [], true), lines).found == ScanLines(Scan(c, [], true), lines).found
    ensures Renamed(ScanLines(Scan(Renamed(c), [], true), lines).section)
         == Renamed(ScanLines(Scan(c, [], true), lines).section)
  {
    if lines != [] { RenamedScans(c, lines[..|lines| - 1]); }
  }

  /** What is found in `b` after the lines `a`. */
  function FoundAfter(a: seq<string>, b: seq<string>): seq<Found> {
    ScanLines(Scan(ScanLines(START, a).section, [], true), b).found
  }

  lemma FoundSplits(a: seq<string>, b: seq<string>)
    ensures ScanLines(START, a + b).found == ScanLines(START, a).found + FoundAfter(a, b)
  {
    ScanSplit(START, a, b);
    ScanMore(ScanLines(START, a), b);
  }

  lemma InsertedScans(a: seq<string>, b: seq<string>, line: string, f: Found)
    requires Classify(line) == Assignment(f.name, f.value) && f.section == Renamed(ScanLines(START, a).section)
    ensures ScanLines(START, a + [line] + b).found == ScanLines(START, a).found + [f] + FoundAfter(a, b)
  {
    var s := ScanLines(START, a);
    ScanSplit(START, a + [line], b);
    assert (a + [line])[..|a|] == a && ScanLine(s, line) == Scan(f.section, s.found + [f], s.modern);
    ScanMore(Scan(f.section, s.found + [f], s.modern), b);
    RenamedScans(s.section, b);
  }

  lemma LookupInserted(a: seq<Found>, f: Found, b: seq<Found>, section: string, name: string)
    ensures Lookup(a + [f] + b, section, name)
         == if section == f.section && name == f.name && Lookup(b, section, name).Unset? then SetTo(f.value)
            else Lookup(a + b, section, name)
  {
    LookupSum(a, b, section, name);
    LookupSum(a + [f], b, section, name);
    LookupOneMore(a, f, section, name);
  }

  /** `lines'` is `lines` with a line inserted that sets the key as it should be set. */
  predicate Settled(lines: seq<string>, lines': seq<string>, key: string, value: string) {
    Has(lines', key) && InGeneral(lines') == InGeneral(lines) && Replaced(lines', key, value) == lines'
  }

  lemma SettledByLine(a: seq<string>, line: string, key: string, value: string)
    requires InGeneral(a) && !Has(a, key) && key != ""
    requires SectionName(line) == "" && AssignmentName(line) == key && SettingLine(line, key, value) == line
    ensures Settled(a, a + [line], key, value)
  {
    OneLineMore(a, line, key, value);
    NothingReplaced(a, key, value);
  }

  lemma StaysSettled(lines: seq<string>, lines': seq<string>, last: string, key: string, value: string)
    requires Settled(lines, lines', key, value) && !Has(lines + [last], key)
    ensures Settled(lines + [last], lines' + [last], key, value) && !Has(lines, key)
  {
    hide SectionName, AssignmentName, SettingLine, InGeneral, Has, Replaced, EndOfGeneral, Sets;
    OneLineMore(lines, last, key, value);
    OneLineMore(lines', last, key, value);
  }

  lemma LastMoved(a: seq<string>, line: string, b: seq<string>)
    requires b != []
    ensures var (init, last) := (b[..|b| - 1], b[|b| - 1]);
      a + b == (a + init) + [last] && a + [line] + b == (a + [line] + init) + [last]
  {
    assert b == b[..|b| - 1] + [b[|b| - 1]];
  }

  lemma {:induction false} InsertedTwice(a: seq<string>, b: seq<string>, line: string, key: string, value: string)
    requires InGeneral(a) && !Has(a + b, key) && key != ""
    requires SectionName(line) == "" && AssignmentName(line) == key && SettingLine(line, key, value) == line
    ensures Settled(a + b, a + [line] + b, key, value)
  {
    hide SectionName, AssignmentName, SettingLine, InGeneral, Has, Replaced, Settled;
    if b == [] {
      assert a + b == a && a + [line] + b == a + [line];
      SettledByLine(a, line, key, value);
    } else {
      var (init, last) := (b[..|b| - 1], b[|b| - 1]);
      LastMoved(a, line, b);
      HasMore(a + init, last, key);
      InsertedTwice(a, init, line, key, value);
      StaysSettled(a + init, a + [line] + init, last, key, value);
    }
  }

  lemma HasMore(lines: seq<string>, last: string, key: string)
    ensures Has(lines, key) ==> Has(lines + [last], key)
  {
    assert (lines + [last])[..|lines|] == lines;
  }

  // ---------- the writer refines a map update under the reader ----------

  lemma FreshFileStays(header: string, line: string, key: string, value: string)
    requires SectionName(header) == GENERAL && SectionName(line) == ""
    requires AssignmentName(line) == key != "" && SettingLine(line, key, value) == line
    ensures Has([header, line], key) && Replaced([header, line], key, value) == [header, line]
  {
    hide SectionName, AssignmentName, SettingLine, InGeneral, Has, Replaced, EndOfGeneral, Sets;
    assert [header, line] == [header] + [line] && [header] == [] + [header];
    NoLine(key, value);
    OneLineMore([], header, key, value);
    OneLineMore([header], line, key, value);
  }

  lemma FreshFileScans(header: string, section: string, line: string, key: string, value: string)
    requires Classify(header) == Header(section) && Classify(line) == Assignment(key, value)
    ensures ScanLines(START, [header, line]).found == [Found(Renamed(section), key, value)]
  {
    assert [header, line][..1] == [header] && [header][..0] == [];
    assert ScanLines(START, [header]).section == section && ScanLines(START, [header]).found == [];
  }

  lemma LookupOnly(f: Found, section: string, name: string)
    ensures Lookup([f], section, name) == if f.section == section && f.name == name then SetTo(f.value) else Unset
  {
    assert [] + [f] == [f];
    LookupOneMore([], f, section, name);
  }

  lemma FreshFile(header: string, line: string, key: string, value: string)
    requires SectionName(header) == GENERAL && Classify(header) == Header(GENERAL) && Agreed(header)
    requires Classify(line) == Assignment(key, value) && SectionName(line) == "" && Agreed(line)
    requires AssignmentName(line) == key != "" && SettingLine(line, key, value) == line
    ensures AllAgreed([header, line]) && WithSetting([header, line], key, value) == [header, line]
    ensures ScanLines(START, [header, line]).found == [Found(GENERAL, key, value)]
  {
    FreshFileStays(header, line, key, value);
    FreshFileScans(header, GENERAL, line, key, value);
    hide SectionName, AssignmentName, SettingLine, InGeneral, Replaced, EndOfGeneral, Sets, Classify, Agreed, ScanLines;
  }

  lemma FreshFileReads(key: string, value: string)
    requires Settable(key, value)
    ensures var lines' := WithSetting([], key, value);
      && AllAgreed(lines') && ScanLines(START, lines').found == [Found(GENERAL, key, value)]
      && WithSetting(lines', key, value) == lines'
  {
    SettingLineReads("", key, value);
    PlainHeaderIs(GENERAL);
    hide SectionName, AssignmentName, SettingLine, Classify, Agreed, ScanLines, AllAgreed;
    FreshFile("[" + GENERAL + "]", SettingLine("", key, value), key, value);
    assert WithSetting([], key, value) == ["[" + GENERAL + "]", SettingLine("", key, value)];
  }

  lemma PlainHeaderIs(name: string)
    requires Trimmed(name) && name != "" && '#' !in name && '=' !in name
    ensures var header := "[" + name + "]";
      SectionName(header) == name && Classify(header) == Header(name) && AssignmentName(header) == "" && Agreed(header)
  {
    assert name == "" + name + "";
    HeaderIs(name, "", "", name);
  }

  lemma HeaderIs(name: string, a: string, b: string, inner: string)
    requires Trimmed(name) && name != "" && AllSpace(a) && AllSpace(b) && inner == a + name + b
    requires '#' !in name && '=' !in name
    ensures var header := "[" + inner + "]";
      SectionName(header) == name && Classify(header) == Header(inner) && AssignmentName(header) == ""
  {
    var header := "[" + inner + "]";
    assert !IsSpace('#') && !IsSpace('=');
    NoComment(header);
    TrimOfTrimmed(header);
    FindIs(header, '=', |header|);
    assert header[1..|header| - 1] == inner;
    TrimUnique(a, name, b);
  }

  /** What the reader takes for a setting after the key has been saved. */
  function After(lines: seq<string>, key: string, value: string, section: string, name: string): Setting {
    var before := Lookup(ScanLines(START, lines).found, section, name);
    if name == key && IsSet(lines, key, section) then SetTo(value) else before
  }

  /** Saving the key sets it for the reader in this section: the line that decides is rewritten; or the
      new line is inserted where the reader is in the section, and nothing behind it decides. */
  predicate IsSet(lines: seq<string>, key: string, section: string) {
    if Has(lines, key) then LastIsSet(lines, section, key)
    else if lines == [] then section == GENERAL
    else
      var (a, b) := (lines[..EndOfGeneral(lines)], lines[EndOfGeneral(lines)..]);
      section == Renamed(ScanLines(START, a).section) && Lookup(FoundAfter(a, b), section, key).Unset?
  }

  /** What saving does to every setting, on any file. */
  lemma EffectIsExact(lines: seq<string>, key: string, value: string, section: string, name: string)
    requires Settable(key, value)
    ensures Lookup(ScanLines(START, WithSetting(lines, key, value)).found, section, name)
         == After(lines, key, value, section, name)
  {
    if Has(lines, key) {
      ReplacedScans(lines, key, value, section, name);
    } else if lines == [] {
      FreshFileReads(key, value);
      LookupOnly(Found(GENERAL, key, value), section, name);
    } else {
      var (a, b) := (lines[..EndOfGeneral(lines)], lines[EndOfGeneral(lines)..]);
      var f := Found(Renamed(ScanLines(START, a).section), key, value);
      assert a + b == lines;
      SettingLineReads("", key, value);
      hide Classify, SettingLine, ScanLines, FoundAfter, Has, Settable;
      FoundSplits(a, b);
      InsertedScans(a, b, SettingLine("", key, value), f);
      LookupInserted(ScanLines(START, a).found, f, FoundAfter(a, b), section, name);
    }
  }

  /** General/key reads as the value afterwards if and only if it is set, or had the value before. */
  lemma SavedIff(lines: seq<string>, key: string, value: string)
    requires Settable(key, value)
    ensures Lookup(ScanLines(START, WithSetting(lines, key, value)).found, GENERAL, key) == SetTo(value)
      <==> IsSet(lines, key, GENERAL) || Lookup(ScanLines(START, lines).found, GENERAL, key) == SetTo(value)
  {
    EffectIsExact(lines, key, value, GENERAL, key);
  }

  /** For a key that neither writer nor reader finds, all depends on the section in which the reader
      is at the place of insertion. */
  lemma NewKeySavedIff(lines: seq<string>, key: string, value: string)
    requires Settable(key, value) && lines != [] && !Has(lines, key)
    requires Lookup(ScanLines(START, lines).found, GENERAL, key) == Unset
    ensures Lookup(ScanLines(START, WithSetting(lines, key, value)).found, GENERAL, key) == SetTo(value)
      <==> ScanLines(START, lines[..EndOfGeneral(lines)]).section == GENERAL
  {
    SavedIff(lines, key, value);
    NothingBehind(lines, EndOfGeneral(lines), GENERAL, key);
    hide Has, EndOfGeneral, WithSetting, Settable, ScanLines, FoundAfter, Lookup, Renamed;
    RenamedGeneral(ScanLines(START, lines[..EndOfGeneral(lines)]).section);
  }

  /** What is not found at all is not found behind a line either. */
  lemma NothingBehind(lines: seq<string>, e: nat, section: string, key: string)
    requires e <= |lines| && Lookup(ScanLines(START, lines).found, section, key).Unset?
    ensures Lookup(FoundAfter(lines[..e], lines[e..]), section, key).Unset?
  {
    assert lines[..e] + lines[e..] == lines;
    hide ScanLines, FoundAfter;
    FoundSplits(lines[..e], lines[e..]);
    LookupSum(ScanLines(START, lines[..e]).found, FoundAfter(lines[..e], lines[e..]), section, key);
  }

  lemma RenamedGeneral(section: string)
    ensures Renamed(section) == GENERAL <==> section == GENERAL
  {
    assert GENERAL[0] == 'G' && "X11"[0] == 'X' && "Wayland"[0] == 'W';
  }

  /** The settings of `found'` are those of `found`, but for the one that has been set. */
  ghost predicate Updated(found: seq<Found>, found': seq<Found>, key: string, value: string) {
    forall section, name :: Lookup(found', section, name)
      == if section == GENERAL && name == key then SetTo(value) else Lookup(found, section, name)
  }

  /** Exactly when the save is the update it should be: the key is set, and in no other section. */
  lemma UpdatedIff(lines: seq<string>, key: string, value: string)
    requires Settable(key, value)
    ensures var before := ScanLines(START, lines).found;
      Updated(before, ScanLines(START, WithSetting(lines, key, value)).found, key, value) <==>
        && (IsSet(lines, key, GENERAL) || Lookup(before, GENERAL, key) == SetTo(value))
        && (forall section | section != GENERAL && IsSet(lines, key, section) ::
             Lookup(before, section, key) == SetTo(value))
  {
    var (before, after) := (ScanLines(START, lines).found, ScanLines(START, WithSetting(lines, key, value)).found);
    hide ScanLines, WithSetting, IsSet, Lookup, Settable;
    forall section, name ensures Lookup(after, section, name) == After(lines, key, value, section, name) {
      EffectIsExact(lines, key, value, section, name);
    }
    if Updated(before, after, key, value) {
      forall section | section != GENERAL && IsSet(lines, key, section)
        ensures Lookup(before, section, key) == SetTo(value)
      {
        assert Lookup(after, section, key) == Lookup(before, section, key);
      }
      assert Lookup(after, GENERAL, key) == SetTo(value);
    }
  }

  /** Writer and reader agree on which line decides. */
  lemma {:induction false} LastIsSetAgrees(lines: seq<string>, section: string, key: string)
    requires AllAgreed(lines) && key != ""
    ensures LastIsSet(lines, section, key) <==> section == GENERAL && Has(lines, key)
  {
    if lines != [] {
      var (init, last) := (lines[..|lines| - 1], lines[|lines| - 1]);
      assert last in lines && forall line <- init :: line in lines;
      LastIsSetAgrees(init, section, key);
      GeneralAgrees(init);
      AgreedMeans(last);
      hide SectionName, AssignmentName, Classify, Agreed, InGeneral;
    }
  }

  /** Where writer and reader agree, General/key reads as `value` afterwards and every other setting as
      before. */
  lemma SettingIsSaved(lines: seq<string>, key: string, value: string)
    requires AllAgreed(lines) && Settable(key, value)
    ensures AllAgreed(WithSetting(lines, key, value))
    ensures Updated(ScanLines(START, lines).found, ScanLines(START, WithSetting(lines, key, value)).found, key, value)
  {
    StaysAgreed(lines, key, value);
    forall section, name ensures After(lines, key, value, section, name)
      == if section == GENERAL && name == key then SetTo(value)
         else Lookup(ScanLines(START, lines).found, section, name)
    {
      IsSetAgrees(lines, section, key);
    }
    forall section, name ensures After(lines, key, value, section, name)
      == Lookup(ScanLines(START, WithSetting(lines, key, value)).found, section, name)
    {
      EffectIsExact(lines, key, value, section, name);
    }
  }

  lemma IsSetAgrees(lines: seq<string>, section: string, key: string)
    requires AllAgreed(lines) && key != ""
    ensures IsSet(lines, key, section) <==> section == GENERAL
  {
    if Has(lines, key) {
      LastIsSetAgrees(lines, section, key);
    } else if lines != [] {
      var (a, b) := (lines[..EndOfGeneral(lines)], lines[EndOfGeneral(lines)..]);
      assert AllAgreed(a) by { assert forall l <- a :: l in lines; }
      EndIsInGeneral(lines);
      GeneralAgrees(a);
      HasAgrees(lines, key);
      hide AllAgreed, ScanLines, FoundAfter, Has, EndOfGeneral, Lookup;
      if section == GENERAL { NothingBehind(lines, EndOfGeneral(lines), section, key); }
    }
  }

  lemma StaysAgreed(lines: seq<string>, key: string, value: string)
    requires AllAgreed(lines) && Settable(key, value)
    ensures AllAgreed(WithSetting(lines, key, value))
  {
    SettingLineReads("", key, value);
    if Has(lines, key) {
      ReplacedAgreed(lines, key, value);
    } else if lines == [] {
      FreshFileReads(key, value);
    } else {
      hide Agreed, SettingLine;
      var e := EndOfGeneral(lines);
      assert forall l <- WithSetting(lines, key, value) :: l in lines || l == SettingLine("", key, value);
    }
  }

  lemma {:induction false} ReplacedAgreed(lines: seq<string>, key: string, value: string)
    requires AllAgreed(lines) && Settable(key, value)
    ensures AllAgreed(Replaced(lines, key, value))
  {
    if lines != [] {
      hide Agreed, SettingLine, Settable, Sets;
      var (init, last) := (lines[..|lines| - 1], lines[|lines| - 1]);
      assert last in lines && forall line <- init :: line in lines;
      ReplacedAgreed(init, key, value);
      SettingLineReads(last, key, value);
    }
  }

  /** Saving the same setting again changes nothing. */
  lemma SavingTwice(lines: seq<string>, key: string, value: string)
    requires Settable(key, value)
    ensures WithSetting(WithSetting(lines, key, value), key, value) == WithSetting(lines, key, value)
  {
    if Has(lines, key) {
      ReplacedTwice(lines, key, value);
    } else if lines == [] {
      FreshFileReads(key, value);
    } else {
      var (a, b) := (lines[..EndOfGeneral(lines)], lines[EndOfGeneral(lines)..]);
      assert a + b == lines;
      EndIsInGeneral(lines);
      SettingLineReads("", key, value);
      InsertedTwice(a, b, SettingLine("", key, value), key, value);
    }
  }

  /** Two settings may be saved in either order: all is read alike. */
  lemma SavingCommutes(lines: seq<string>, key1: string, value1: string, key2: string, value2: string)
    requires AllAgreed(lines) && Settable(key1, value1) && Settable(key2, value2) && key1 != key2
    ensures forall section, name ::
      Lookup(ScanLines(START, WithSetting(WithSetting(lines, key1, value1), key2, value2)).found, section, name)
      == Lookup(ScanLines(START, WithSetting(WithSetting(lines, key2, value2), key1, value1)).found, section, name)
  {
    hide AllAgreed, Settable, WithSetting, ScanLines, Lookup;
    SettingIsSaved(lines, key1, value1);
    SettingIsSaved(WithSetting(lines, key1, value1), key2, value2);
    SettingIsSaved(lines, key2, value2);
    SettingIsSaved(WithSetting(lines, key2, value2), key1, value1);
  }

  // ---------- headers that writer and reader understand differently ----------

  lemma OneHeader(header: string, section: string, key: string, value: string)
    requires Classify(header) == Header(section) && Settable(key, value)
    ensures ScanLines(START, [header]).section == section
    ensures Lookup(ScanLines(START, [header]).found, GENERAL, key) == Unset
  {
    assert [header][..0] == [];
  }

  lemma InGeneralToTheEnd(header: string, key: string)
    requires SectionName(header) == "" || SectionName(header) == GENERAL
    requires AssignmentName(header) != key
    ensures !Has([header], key) && EndOfGeneral([header]) == 1
  {
    hide SectionName, AssignmentName, SettingLine, InGeneral, Has, EndOfGeneral;
    assert [header] == [] + [header];
    NoLine(key, "");
    OneLineMore([], header, key, "");
  }

  /** Behind a header that leads the reader elsewhere, a new key is not found. */
  lemma LostBehind(header: string, section: string, key: string, value: string)
    requires Classify(header) == Header(section) && section != GENERAL && Settable(key, value)
    requires (SectionName(header) == "" || SectionName(header) == GENERAL) && AssignmentName(header) != key
    ensures Lookup(ScanLines(START, WithSetting([header], key, value)).found, GENERAL, key) != SetTo(value)
  {
    OneHeader(header, section, key, value);
    InGeneralToTheEnd(header, key);
    assert [header][..1] == [header];
    NewKeySavedIff([header], key, value);
  }

  /** A header with spaces inside its brackets is General to the writer and not to the reader. */
  lemma PaddedHeaderMisleads(general: string, spaces: string, key: string, value: string)
    requires general == GENERAL && Settable(key, value) && AllSpace(spaces) && spaces != ""
    ensures Lookup(ScanLines(START, WithSetting(["[" + (spaces + general) + "]"], key, value)).found, GENERAL, key)
         != SetTo(value)
  {
    var inner := spaces + general;
    assert inner == spaces + general + "" && inner[0] == spaces[0] && IsSpace(spaces[0]);
    HeaderIs(general, spaces, "", inner);
    LostBehind("[" + inner + "]", inner, key, value);
  }

  /** An empty header is none to the writer, but leads the reader into a section without a name. */
  lemma EmptyHeaderMisleads(key: string, value: string)
    requires Settable(key, value)
    ensures Lookup(ScanLines(START, WithSetting(["[]"], key, value)).found, GENERAL, key) != SetTo(value)
  {
    EmptyHeaderIs();
    LostBehind("[]", "", key, value);
  }

  lemma EmptyHeaderIs()
    ensures Classify("[]") == Header("") && SectionName("[]") == "" && AssignmentName("[]") == ""
  {
    var header := "[]";
    NoComment(header);
    TrimOfTrimmed(header);
    FindIs(header, '=', |header|);
    assert header[1..|header| - 1] == "";
  }

  /** A header with an `=` is an assignment to the reader: the lines after it are still in General, and
      one of them decides. */
  lemma EqualsInHeaderMisleads(a: string, b: string, key: string, old_: string, value: string)
    requires Trimmed(a + "=" + b) && a != "" && '#' !in a && '#' !in b && '=' !in a
    requires Settable(key, value) && Settable(key, old_) && value != old_
    ensures var lines := ["[" + (a + "=" + b) + "]", SettingLine("", key, old_)];
      Lookup(ScanLines(START, WithSetting(lines, key, value)).found, GENERAL, key) == SetTo(old_)
  {
    var (header, line) := ("[" + (a + "=" + b) + "]", SettingLine("", key, old_));
    BracketedAssignment(a, b);
    SettingLineReads("", key, old_);
    hide SettingLine, SectionName, Classify, ScanLines, WithSetting, Lookup, IsSet, Settable;
    OldValueWins(header, line, key, old_, value);
  }

  lemma OldValueWins(header: string, line: string, key: string, old_: string, value: string)
    requires Settable(key, value) && value != old_
    requires Classify(header).Assignment? && SectionName(header) != "" && SectionName(header) != GENERAL
    requires Classify(line) == Assignment(key, old_) && SectionName(line) == ""
    ensures Lookup(ScanLines(START, WithSetting([header, line], key, value)).found, GENERAL, key) == SetTo(old_)
  {
    var lines := [header, line];
    BothInGeneral(header, line, key, old_);
    BeforeHeader(header, line, key);
    assert lines[..0] == [] && lines[0..] == lines;
    EffectIsExact(lines, key, value, GENERAL, key);
  }

  lemma BothInGeneral(header: string, line: string, key: string, old_: string)
    requires Classify(header).Assignment? && Classify(line) == Assignment(key, old_)
    ensures Lookup(ScanLines(START, [header, line]).found, GENERAL, key) == SetTo(old_)
  {
    assert [header, line] == [] + [header] + [line];
    LineScanned([], header, GENERAL, key);
    LineScanned([header], line, GENERAL, key);
  }

  lemma BeforeHeader(header: string, line: string, key: string)
    requires SectionName(header) != "" && SectionName(header) != GENERAL && SectionName(line) == ""
    ensures !Has([header, line], key) && EndOfGeneral([header, line]) == 0
  {
    hide SectionName, AssignmentName, SettingLine, InGeneral, Has, EndOfGeneral;
    assert [header] == [] + [header] && [header, line] == [header] + [line];
    NoLine(key, "");
    OneLineMore([], header, key, "");
    OneLineMore([header], line, key, "");
  }

  lemma Bracketed(inner: string)
    requires Trimmed(inner) && inner != "" && '#' !in inner
    ensures WithoutComment("[" + inner + "]") == "[" + inner + "]" && SectionName("[" + inner + "]") == inner
  {
    var header := "[" + inner + "]";
    NoComment(header);
    TrimOfTrimmed(header);
    TrimOfTrimmed(inner);
    assert header[1..|header| - 1] == inner;
  }

  lemma BracketedAssignment(a: string, b: string)
    requires Trimmed(a + "=" + b) && a != "" && '#' !in a && '#' !in b && '=' !in a
    ensures var header := "[" + (a + "=" + b) + "]";
      Classify(header).Assignment? && SectionName(header) != "" && SectionName(header) != GENERAL
  {
    var inner := a + "=" + b;
    assert '#' !in inner && inner[|a|] == '=';
    Bracketed(inner);
    NotGeneral(inner, |a|);
    hide SectionName, WithoutComment, Trimmed, MeaningOf;
    EqualsSplits("[" + a, b + "]");
    BracketsInside(a, b);
  }

  lemma BracketsInside(a: string, b: string)
    ensures "[" + (a + "=" + b) + "]" == ("[" + a) + "=" + (b + "]")
  {
  }

  lemma NotGeneral(s: string, i: nat)
    requires i < |s| && s[i] == '='
    ensures s != GENERAL
  {
    assert '=' !in GENERAL;
  }

  // ---------- whole files ----------

  lemma SplitFront(line: string, rest: string)
    requires '\n' !in line
    ensures Split(line + "\n" + rest) == [line] + Split(rest)
  {
    var text := line + "\n" + rest;
    assert text[..|line|] == line && text[|line| + 1..] == rest;
    FindIs(text, '\n', |line|);
  }

  lemma SplitOne(line: string)
    requires '\n' !in line
    ensures Split(line) == [line]
  {
    assert line[..|line|] == line;
    FindIs(line, '\n', |line|);
  }

  lemma {:induction false} SplitOfJoin(lines: seq<string>)
    requires lines != [] && forall line <- lines :: '\n' !in line
    ensures Split(JoinLines(lines) + "\n") == lines + [""]
  {
    hide Split;
    assert lines[0] in lines;
    if |lines| == 1 {
      SplitFront(lines[0], "");
      SplitOne("");
      assert lines[0] + "\n" + "" == lines[0] + "\n";
    } else {
      assert forall line <- lines[1..] :: line in lines;
      SplitOfJoin(lines[1..]);
      SplitFront(lines[0], JoinLines(lines[1..]) + "\n");
      assert JoinLines(lines) + "\n" == lines[0] + "\n" + (JoinLines(lines[1..]) + "\n");
    }
  }

  lemma LinesOfText(lines: seq<string>)
    requires lines != [] && forall line <- lines :: '\n' !in line
    ensures LinesOf(TextOf(lines)) == lines
  {
    SplitOfJoin(lines);
  }

  lemma NewlineIsIgnored(line: string)
    ensures Classify(line + "\n") == Classify(line)
  {
    assert line + "\n" == "" + line + "\n";
    TrimAbsorbs("", line, "\n");
    TrimFirst(line + "\n");
    TrimFirst(line);
  }

  lemma ScanFromFront(line: string, rest: seq<string>, c: string)
    ensures ScanLines(Scan(c, [], true), [line] + rest) == ScanLines(ScanLine(Scan(c, [], true), line), rest)
  {
    ScanSplit(Scan(c, [], true), [line], rest);
    assert ScanLines(Scan(c, [], true), [line][..0]) == Scan(c, [], true);
  }

  lemma FrontLineRead(line: string, rest: string)
    requires '\n' !in line
    ensures Lines(line + "\n" + rest) == [line + "\n"] + Lines(rest)
  {
    OneLine(line);
    LinesOfSum(line + "\n", rest);
  }

  lemma FrontLine(line: string, rest: string)
    requires '\n' !in line
    ensures LinesOf(line + "\n" + rest) == [line] + if rest == "" then [] else LinesOf(rest)
  {
    SplitFront(line, rest);
    if rest == "" { SplitOne(""); }
    EndOfSum(line + "\n", rest);
    AllButLast(line, Split(rest));
    hide Split, EndsInNewline;
  }

  lemma EndOfSum(a: string, b: string)
    requires EndsInNewline(a)
    ensures EndsInNewline(a + b) <==> b == "" || EndsInNewline(b)
  {
    if b == "" { assert a + b == a; } else { assert (a + b)[|a + b| - 1] == b[|b| - 1]; }
  }

  lemma AllButLast(line: string, tail: seq<string>)
    requires tail != []
    ensures ([line] + tail)[..|[line] + tail| - 1] == [line] + tail[..|tail| - 1]
  {
  }

  lemma FrontLineScans(line: string, tail: seq<string>, tail': seq<string>, c: string)
    requires forall section: string ::
        ScanLines(Scan(section, [], true), tail) == ScanLines(Scan(section, [], true), tail')
    ensures ScanLines(Scan(c, [], true), [line + "\n"] + tail) == ScanLines(Scan(c, [], true), [line] + tail')
  {
    NewlineIsIgnored(line);
    ScanFromFront(line + "\n", tail, c);
    ScanFromFront(line, tail', c);
    ScanMore(ScanLine(Scan(c, [], true), line), tail);
    ScanMore(ScanLine(Scan(c, [], true), line), tail');
  }

  /** The writer's lines say what the reader finds in the text. */
  lemma {:induction false} LinesOfScan(content: string, c: string)
    requires content != ""
    ensures ScanText(content, c) == ScanLines(Scan(c, [], true), LinesOf(content))
    decreases |content|
  {
    var k := Find(content, '\n');
    if k == |content| {
      assert content[..k] == content && content[|content| - 1] in content;
      SplitOne(content);
    } else {
      var (line, rest) := (content[..k], content[k + 1..]);
      assert content == line + "\n" + rest;
      FrontLine(line, rest);
      FrontLineRead(line, rest);
      hide LinesOf, Lines, ScanLines;
      if rest == "" {
        assert Lines("") == [] by { NoLines(); }
        FrontLineScans(line, [], [], c);
      } else {
        forall section: string
          ensures ScanLines(Scan(section, [], true), Lines(rest)) == ScanLines(Scan(section, [], true), LinesOf(rest))
        {
          LinesOfScan(rest, section);
        }
        FrontLineScans(line, Lines(rest), LinesOf(rest), c);
      }
    }
  }

  lemma NoLines()
    ensures Lines("") == []
  {
  }

  lemma {:induction false} NoNewlines(lines: seq<string>, key: string, value: string)
    requires Settable(key, value) && forall line <- lines :: '\n' !in line
    ensures forall line <- Replaced(lines, key, value) :: '\n' !in line
    ensures '\n' !in SettingLine("", key, value)
  {
    CommentIn("");
    if lines != [] {
      assert forall line <- lines[..|lines| - 1] :: line in lines;
      assert lines[|lines| - 1] in lines;
      NoNewlines(lines[..|lines| - 1], key, value);
      CommentIn(lines[|lines| - 1]);
    }
  }

  lemma CommentIn(line: string)
    ensures forall c <- Comment(line) :: c in line
  {
    var i, j := TrimSplits(line[Find(line, '#')..]);
  }

  lemma WithSettingIsLines(lines: seq<string>, key: string, value: string)
    requires Settable(key, value) && forall line <- lines :: '\n' !in line
    ensures WithSetting(lines, key, value) != [] && forall line <- WithSetting(lines, key, value) :: '\n' !in line
  {
    NoNewlines(lines, key, value);
  }

  /** The file that is written: the reader finds in it what the effect on the lines says, and to save
      the same again leaves its text as it is. */
  lemma SavedFileReads(present: bool, content: string, key: string, value: string, section: string, name: string)
    requires Settable(key, value)
    ensures var lines := if present then LinesOf(content) else [];
      var text := TextOf(WithSetting(lines, key, value));
      && ScanLines(START, lines).found == (if present then Contents(content) else [])
      && Lookup(Contents(text), section, name) == After(lines, key, value, section, name)
      && TextOf(WithSetting(LinesOf(text), key, value)) == text
  {
    var lines := if present then LinesOf(content) else [];
    var lines' := WithSetting(lines, key, value);
    assert present ==> Contents(content) == ScanLines(START, lines).found by {
      if present && content != "" { LinesOfScan(content, GENERAL); }
      if content == "" { EmptyFile(); }
    }
    WithSettingIsLines(lines, key, value);
    EffectIsExact(lines, key, value, section, name);
    SavingTwice(lines, key, value);
    LinesOfText(lines');
    LinesOfScan(TextOf(lines'), GENERAL);
  }

  lemma EmptyFile()
    ensures LinesOf("") == [""] && ScanLines(START, [""]).found == [] == Contents("")
  {
    FindIs("", '\n', 0);
    BlankLine("");
    assert ScanLines(START, [""][..0]) == START;
  }
}

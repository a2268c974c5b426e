/** What a reader of a configuration file finds in it, and how that depends on the parts the file is
    put together from. */
module ConfigScan {
  import opened ConfigText

  const GENERAL := "General"

  /** An assignment as the reader finds it: in which section, what to what. */
  datatype Found = Found(section: string, name: string, value: string)

  /** The current section, what has been found, and that no header was a legacy one. */
  datatype Scan = Scan(section: string, found: seq<Found>, modern: bool)

  /** Sections that were renamed in version 0.14.0; the old headers still work. */
  predicate Legacy(section: string) {
    section == "XDisplay" || section == "WaylandDisplay"
  }

  predicate NoneLegacy(known: set<string>) {
    GENERAL in known && forall s <- known :: !Legacy(s)
  }

  function Renamed(section: string): string {
    if section == "XDisplay" then "X11" else if section == "WaylandDisplay" then "Wayland" else section
  }

  const START := Scan(GENERAL, [], true)

  function ScanLine(s: Scan, line: string): Scan {
    var section := Renamed(s.section);
    match Classify(line)
    case Assignment(name, value) => Scan(section, s.found + [Found(section, name, value)], s.modern)
    case Header(name) => Scan(name, s.found, s.modern && !Legacy(name))
    case Remark => Scan(section, s.found, s.modern)
  }

  function ScanLines(s: Scan, lines: seq<string>): Scan {
    if lines == [] then s else ScanLine(ScanLines(s, lines[..|lines| - 1]), lines[|lines| - 1])
  }

  function ScanText(text: string, section: string): Scan {
    ScanLines(Scan(section, [], true), Lines(text))
  }

  /** All that is found in a file. */
  function Contents(file: string): seq<Found> {
    ScanText(file, GENERAL).found
  }

  datatype Setting = Unset | SetTo(value: string)

  /** What the reader finds last for a setting is what it takes. */
  function Lookup(found: seq<Found>, section: string, name: string): Setting {
    if found == [] then Unset
    else
      var f := found[|found| - 1];
      if f.section == section && f.name == name then SetTo(f.value)
      else Lookup(found[..|found| - 1], section, name)
  }

  lemma LookupOneMore(found: seq<Found>, f: Found, section: string, name: string)
    ensures Lookup(found + [f], section, name)
         == if f.section == section && f.name == name then SetTo(f.value) else Lookup(found, section, name)
  {
    assert (found + [f])[..|found|] == found;
  }

  lemma {:induction false} LookupSum(a: seq<Found>, b: seq<Found>, section: string, name: string)
    ensures Lookup(a + b, section, name)
         == if Lookup(b, section, name).SetTo? then Lookup(b, section, name) else Lookup(a, section, name)
  {
    if b == [] {
      assert a + b == a;
    } else {
      assert (a + b)[..|a + b| - 1] == a + b[..|b| - 1];
      LookupSum(a, b[..|b| - 1], section, name);
    }
  }

  // ---------- putting texts together ----------

  lemma {:induction false} ScanSplit(s: Scan, a: seq<string>, b: seq<string>)
    ensures ScanLines(s, a + b) == ScanLines(ScanLines(s, a), b)
  {
    if b == [] {
      assert a + b == a;
    } else {
      assert (a + b)[..|a + b| - 1] == a + b[..|b| - 1];
      ScanSplit(s, a, b[..|b| - 1]);
    }
  }

  function Both(s: Scan, t: Scan): Scan {
    Scan(t.section, s.found + t.found, s.modern && t.modern)
  }

  lemma {:induction false} ScanMore(s: Scan, lines: seq<string>)
    ensures var t := ScanLines(Scan(s.section, [], true), lines); ScanLines(s, lines) == Both(s, t)
  {
    if lines != [] { ScanMore(s, lines[..|lines| - 1]); }
  }

  lemma ScanSum(a: string, b: string, section: string)
    requires Whole(a)
    ensures ScanText(a + b, section) == Both(ScanText(a, section), ScanText(b, ScanText(a, section).section))
  {
    LinesOfSum(a, b);
    ScanSplit(Scan(section, [], true), Lines(a), Lines(b));
    ScanMore(ScanText(a, section), Lines(b));
  }

  /** An assignment belongs to the header before it; those of two renamed sections to their new names. */
  lemma HeaderCounts(s: Scan, header: string, line: string, section: string, name: string, value: string)
    requires Classify(header) == Header(section) && Classify(line) == Assignment(name, value)
    ensures var known :=
        if section == "XDisplay" then "X11" else if section == "WaylandDisplay" then "Wayland" else section;
      ScanLines(s, [header, line]).found == s.found + [Found(known, name, value)]
  {
    var t := ScanLine(s, header);
    assert [header][..0] == [] && ScanLines(s, [header]) == t;
    assert [header, line][..1] == [header] && ScanLines(s, [header, line]) == ScanLine(t, line);
    hide Classify;
  }

  predicate IsLine(line: string) {
    line != "" && line[|line| - 1] == '\n' && '\n' !in line[..|line| - 1]
  }

  lemma ScanOne(line: string, section: string)
    requires IsLine(line)
    ensures ScanText(line, section) == ScanLine(Scan(section, [], true), line)
  {
    var s := line[..|line| - 1];
    OneLine(s);
    assert s + "\n" == line;
    assert ScanLines(Scan(section, [], true), [line][..0]) == Scan(section, [], true);
  }

  lemma {:induction false} LinesAreLines(text: string)
    requires Whole(text)
    ensures forall line <- Lines(text) :: IsLine(line)
  {
    if text != "" {
      var k := Find(text, '\n');
      assert text[|text| - 1] in text;
      assert k < |text| by { assert text[..|text|] == text; }
      assert text[..k + 1][..k] == text[..k];
      LinesAreLines(text[k + 1..]);
    }
  }

  // ---------- parts of a file ----------

  /** A text that says nothing wherever it stands. */
  ghost predicate Silent(text: string) {
    Whole(text) && forall c: string | !Legacy(c) :: ScanText(text, c) == Scan(c, [], true)
  }

  /** A text that leads into a section by itself. */
  ghost predicate Headed(text: string, section: string) {
    forall c: string | !Legacy(c) :: ScanText(text, c) == ScanText(text, section)
  }

  lemma SilentSum(a: string, b: string)
    requires Silent(a) && Silent(b)
    ensures Silent(a + b)
  {
    forall c: string | !Legacy(c) ensures ScanText(a + b, c) == Scan(c, [], true) { ScanSum(a, b, c); }
  }

  lemma SilentLine(line: string)
    requires IsLine(line) && Classify(line) == Remark
    ensures Silent(line)
  {
    forall c: string | !Legacy(c) ensures ScanText(line, c) == Scan(c, [], true) { ScanOne(line, c); }
  }

  lemma NothingIsSilent()
    ensures Silent("")
  {
  }

  /** A part goes on: silent lines, then `more`. */
  lemma Continued(text: string, junk: string, more: string, section: string)
    requires Whole(text) && Whole(more) && Silent(junk) && !Legacy(ScanText(text, section).section)
    ensures Whole(text + junk + more)
    ensures ScanText(text + junk + more, section)
         == Both(ScanText(text, section), ScanText(more, ScanText(text, section).section))
    ensures Headed(text, section) && !Legacy(section) ==> Headed(text + junk + more, section)
  {
    assert Whole(text + junk + more);
    hide ScanText, Silent, Whole;
    ContinuedFrom(text, junk, more, section);
    if Headed(text, section) && !Legacy(section) {
      forall c: string | !Legacy(c) ensures ScanText(text + junk + more, c) == ScanText(text + junk + more, section) {
        ContinuedFrom(text, junk, more, c);
      }
    }
  }

  lemma {:induction false} ModernSection(s: Scan, lines: seq<string>)
    requires !Legacy(s.section)
    ensures ScanLines(s, lines).modern ==> !Legacy(ScanLines(s, lines).section) && s.modern
  {
    if lines != [] { ModernSection(s, lines[..|lines| - 1]); }
  }

  lemma ContinuedFrom(text: string, junk: string, more: string, c: string)
    requires Whole(text) && Whole(more) && Silent(junk) && !Legacy(ScanText(text, c).section)
    ensures ScanText(text + junk + more, c) == Both(ScanText(text, c), ScanText(more, ScanText(text, c).section))
  {
    hide ScanText;
    var section := ScanText(text, c).section;
    assert text + junk + more == text + (junk + more);
    assert ScanText(junk, section) == Scan(section, [], true);
    ScanSum(text, junk + more, c);
    ScanSum(junk, more, section);
    hide Silent;
  }

  /** A header after silent lines leads into its section. */
  lemma LedIn(junk: string, line: string, section: string)
    requires Silent(junk) && IsLine(line) && Classify(line) == Header(section) && !Legacy(section)
    ensures Whole(junk + line) && Headed(junk + line, section)
    ensures ScanText(junk + line, section) == Scan(section, [], true)
  {
    forall c: string | !Legacy(c) ensures ScanText(junk + line, c) == Scan(section, [], true) {
      ScanSum(junk, line, c);
      ScanOne(line, c);
    }
  }

  // ---------- trimming a part ----------

  lemma {:induction false} TrimmedLeftScans(text: string, c: string)
    requires Whole(text) && !Legacy(c)
    ensures TrimLeft(text) == "" || Whole(TrimLeft(text))
    ensures ScanText(TrimLeft(text), c) == ScanText(text, c)
  {
    if text != "" && IsSpace(text[0]) {
      var rest := text[1..];
      if text[0] == '\n' {
        BlankLine("\n");
        SilentLine("\n");
        ScanSum("\n", rest, c);
        assert text == "\n" + rest;
      } else {
        IndentedLine(text, c);
      }
      TrimmedLeftScans(rest, c);
    }
  }

  lemma FirstLine(text: string) returns (line: string, tail: string)
    requires Whole(text) && text != ""
    ensures text == line + tail && IsLine(line) && Whole(tail)
  {
    var k := Find(text, '\n');
    assert text[|text| - 1] in text;
    assert k < |text| by { assert text[..|text|] == text; }
    line, tail := text[..k + 1], text[k + 1..];
    assert line[..k] == text[..k];
  }

  /** Two first lines that mean the same. */
  lemma FirstLineScans(line: string, line': string, tail: string, c: string)
    requires IsLine(line) && IsLine(line') && Classify(line) == Classify(line')
    ensures ScanText(line + tail, c) == ScanText(line' + tail, c)
  {
    LineIsWhole(line);
    LineIsWhole(line');
    ScanOne(line, c);
    ScanOne(line', c);
    hide ScanText, IsLine, Classify, Whole;
    ScanSum(line, tail, c);
    ScanSum(line', tail, c);
  }

  /** A space in front of the first line changes nothing. */
  lemma IndentedLine(text: string, c: string)
    requires Whole(text) && text != "" && IsSpace(text[0]) && text[0] != '\n' && !Legacy(c)
    ensures Whole(text[1..]) && ScanText(text[1..], c) == ScanText(text, c)
  {
    var (x, rest) := ([text[0]], text[1..]);
    assert text == x + rest && rest != "";
    var line, tail := FirstLine(rest);
    assert text == (x + line) + tail;
    assert IsLine(x + line) by { assert (x + line)[..|line|] == x + line[..|line| - 1]; }
    SpaceBefore(text[0], line);
    hide ScanText, IsLine, IsSpace, Classify;
    FirstLineScans(x + line, line, tail, c);
  }

  lemma LineIsWhole(line: string)
    requires IsLine(line)
    ensures Whole(line)
  {
  }

  lemma SpaceBefore(x: char, line: string)
    requires IsSpace(x)
    ensures Classify([x] + line) == Classify(line)
  {
    assert [x] + line == [x] + line + "" && line == "" + line + "";
    TrimAbsorbs([x], line, "");
    TrimFirst([x] + line);
    TrimFirst(line);
  }

  /** Spaces at the end of a text change nothing once there is a newline after them. */
  lemma {:induction false} TrimmedRightScans(text: string, c: string)
    requires !Legacy(c)
    ensures ScanText(TrimRight(text) + "\n", c).found == ScanText(text + "\n", c).found
    ensures ScanText(TrimRight(text) + "\n", c).modern == ScanText(text + "\n", c).modern
    ensures Renamed(ScanText(TrimRight(text) + "\n", c).section) == Renamed(ScanText(text + "\n", c).section)
  {
    if text != "" && IsSpace(text[|text| - 1]) {
      var (init, x) := (text[..|text| - 1], text[|text| - 1]);
      assert text == init + [x];
      TrimmedRightScans(init, c);
      if x == '\n' {
        assert text + "\n" == (init + "\n") + "\n";
        ScanSum(init + "\n", "\n", c);
        BlankLine("\n");
        ScanOne("\n", ScanText(init + "\n", c).section);
      } else {
        SpaceAfter(init, x, c);
      }
    }
  }

  lemma SpaceAfter(text: string, x: char, c: string)
    requires IsSpace(x) && x != '\n'
    ensures ScanText(text + [x] + "\n", c) == ScanText(text + "\n", c)
    decreases |text|
  {
    var k := Find(text, '\n');
    if k == |text| {
      assert text[..|text|] == text;
      assert IsLine(text + "\n") by { assert (text + "\n")[..|text|] == text; }
      assert IsLine(text + [x] + "\n") by { assert (text + [x] + "\n")[..|text| + 1] == text + [x]; }
      ScanOne(text + "\n", c);
      ScanOne(text + [x] + "\n", c);
      SpaceBehind(text, x);
    } else {
      var (line, tail) := (text[..k + 1], text[k + 1..]);
      assert text == line + tail;
      assert text + "\n" == line + (tail + "\n");
      assert text + [x] + "\n" == line + (tail + [x] + "\n");
      ScanSum(line, tail + "\n", c);
      ScanSum(line, tail + [x] + "\n", c);
      SpaceAfter(tail, x, ScanText(line, c).section);
    }
  }

  lemma SpaceBehind(text: string, x: char)
    requires IsSpace(x)
    ensures Classify(text + [x] + "\n") == Classify(text + "\n")
  {
    assert text + [x] + "\n" == "" + text + ([x] + "\n") && text + "\n" == "" + text + "\n";
    TrimAbsorbs("", text, [x] + "\n");
    TrimAbsorbs("", text, "\n");
    TrimFirst(text + [x] + "\n");
    TrimFirst(text + "\n");
  }

  /** A part may be trimmed at both ends if a newline is put behind it. */
  lemma TrimmedPartScans(text: string, c: string)
    requires Whole(text) && !Legacy(c)
    ensures ScanText(Trim(text) + "\n", c).found == ScanText(text, c).found
    ensures ScanText(Trim(text) + "\n", c).modern == ScanText(text, c).modern
  {
    TrimmedLeftScans(text, c);
    var s := TrimLeft(text);
    if s == "" {
      NothingScans(c);
    } else {
      LastNewline(s);
      hide ScanText, Whole, Legacy, TrimLeft;
      TrimmedRightScans(s[..|s| - 1], c);
    }
  }

  lemma NothingScans(c: string)
    requires !Legacy(c)
    ensures TrimRight("") == "" && "" + "\n" == "\n" && ScanText("\n", c) == ScanText("", c)
  {
    BlankLine("\n");
    ScanOne("\n", c);
  }

  lemma LastNewline(s: string)
    requires Whole(s) && s != ""
    ensures s == s[..|s| - 1] + "\n" && TrimRight(s) == TrimRight(s[..|s| - 1])
  {
    assert IsSpace(s[|s| - 1]) && TrimRight(s) == TrimRight(s[..|s| - 1]);
    hide TrimRight, IsSpace;
  }
}

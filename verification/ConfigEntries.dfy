/** The entries of a configuration, what reading assignments does to them, and which assignments a
    file should have. */
module ConfigEntries {
  import opened ConfigText
  import opened ConfigValue
  import opened ConfigScan

  datatype Id = Id(section: string, name: string)

  datatype Entry = Entry(description: string, default: Value, value: Value, isDefault: bool)
  {
    predicate MatchesDefault() {
      value == default
    }

    function SetDefault(): Entry {
      this.(value := default, isDefault := true)
    }

    function SetValue(s: string): Entry {
      this.(value := Parse(value, s), isDefault := false)
    }
  }

  type Entries = map<Id, Entry>

  /** The comment over an entry, a line for each of the description. */
  function Described(description: string): string {
    var k := Find(description, '\n');
    "# " + description[..k] + "\n" + if k < |description| then Described(description[k + 1..]) else ""
  }

  /** An entry as it is added to a file. */
  function ToConfigFull(name: string, e: Entry): string {
    Described(e.description) + (name + "=" + Print(e.value) + "\n" + "\n")
  }

  // ---------- reading ----------

  function Apply(entries: Entries, found: seq<Found>): Entries {
    if found == [] then entries
    else
      var (before, f) := (Apply(entries, found[..|found| - 1]), found[|found| - 1]);
      if Id(f.section, f.name) in before then
          before[Id(f.section, f.name) := before[Id(f.section, f.name)].SetValue(f.value)]
      else before
  }

  lemma {:induction false} ApplyKeepsKind(entries: Entries, found: seq<Found>)
    ensures Apply(entries, found).Keys == entries.Keys
    ensures forall id <- entries :: SameKind(Apply(entries, found)[id].value, entries[id].value)
  {
    if found != [] { ApplyKeepsKind(entries, found[..|found| - 1]); }
  }

  predicate SameKind(a: Value, b: Value) {
    a.Text? == b.Text? && a.Flag? == b.Flag? && a.Items? == b.Items? && a.Number? == b.Number?
  }

  predicate WellTyped(entries: Entries) {
    forall id <- entries :: SameKind(entries[id].value, entries[id].default)
  }

  function Wiped(entries: Entries): Entries {
    map id | id in entries :: entries[id].SetDefault()
  }

  function Latest(found: seq<Found>, id: Id): Setting {
    Lookup(found, id.section, id.name)
  }

  /** After reading, an entry has the value that was found last, if any was. */
  lemma {:induction false} ApplyIs(start: Entries, found: seq<Found>, id: Id)
    requires id in start
    ensures Apply(start, found).Keys == start.Keys
    ensures Apply(start, found)[id].value == match Latest(found, id)
      case Unset => start[id].value
      case SetTo(x) => Parse(start[id].value, x)
  {
    if found != [] {
      var (init, f) := (found[..|found| - 1], found[|found| - 1]);
      ApplyIs(start, init, id);
      ApplyKeepsKind(start, init);
      ParseDependsOnKind(Apply(start, init)[id].value, start[id].value, f.value);
    }
  }

  lemma ParseDependsOnKind(a: Value, b: Value, s: string)
    requires SameKind(a, b)
    ensures Parse(a, s) == Parse(b, s)
  {
  }

  // ---------- what a file should say ----------

  predicate Known(entries: Entries, f: Found) {
    Id(f.section, f.name) in entries
  }

  predicate AllKnown(entries: Entries, found: seq<Found>) {
    forall f <- found :: Known(entries, f)
  }

  /** An assignment to an entry that has another value by now. */
  predicate Stale(entries: Entries, f: Found) {
    Known(entries, f) && f.value != Print(entries[Id(f.section, f.name)].value)
  }

  predicate AnyStale(entries: Entries, found: seq<Found>) {
    exists f <- found :: Stale(entries, f)
  }

  function Unsaved(entries: Entries, found: seq<Found>): set<Id> {
    set id | id in entries && !entries[id].MatchesDefault() && Latest(found, id).Unset?
  }

  /** The file says of every entry what the configuration says. */
  predicate Faithful(entries: Entries, found: seq<Found>) {
    !AnyStale(entries, found) && Unsaved(entries, found) == {}
  }

  /** The assignments of a file that the program does not know. */
  function Strays(entries: Entries, found: seq<Found>): seq<Found> {
    if found == [] then []
    else
      var (init, last) := (found[..|found| - 1], found[|found| - 1]);
      Strays(entries, init) + if Known(entries, last) then [] else [last]
  }

  /** A file the program can rewrite: it ends in a newline and has none of the renamed headers. */
  predicate Ready(file: string) {
    Whole(file) && ScanText(file, GENERAL).modern
  }

  /** A configuration whose names and values can stand in a file. */
  predicate Writable(sections: set<string>, entries: Entries) {
    && NoneLegacy(sections)
    && (forall s <- sections :: '#' !in s && '=' !in s && '\n' !in s)
    && (forall id <- entries :: id.section in sections && Key(id.name)
         && '%' !in id.name && Printable(entries[id].value))
  }

  // ---------- an entry that is added ----------

  /** Every line of a description becomes a comment line. */
  lemma DescribedIs(line: string, more: string)
    requires '\n' !in line
    ensures Described(line) == "# " + line + "\n"
    ensures Described(line + "\n" + more) == "# " + line + "\n" + Described(more)
  {
    var text := line + "\n" + more;
    assert line[..|line|] == line;
    FindIs(line, '\n', |line|);
    assert text[..|line|] == line && text[|line| + 1..] == more;
    FindIs(text, '\n', |line|);
  }

  lemma {:induction false} DescribedIsSilent(description: string)
    ensures Silent(Described(description))
  {
    var k := Find(description, '\n');
    var line := "# " + description[..k] + "\n";
    assert line == "#" + (" " + description[..k] + "\n") && line[..|line| - 1] == "# " + description[..k];
    CommentLine(" " + description[..k] + "\n");
    SilentLine(line);
    if k < |description| {
      DescribedIsSilent(description[k + 1..]);
      SilentSum(line, Described(description[k + 1..]));
    } else {
      assert Described(description) == line;
    }
  }

  lemma AddedLineScans(name: string, value: string, section: string)
    requires Key(name) && Plain(value) && !Legacy(section)
    ensures var text := name + "=" + value + "\n" + "\n";
      Whole(text) && ScanText(text, section) == Scan(section, [Found(section, name, value)], true)
  {
    var line := name + "=" + value + "\n";
    PlainAssignmentLine(name, value);
    assert line[..|line| - 1] == name + "=" + value;
    BlankLine("\n");
    SilentLine("\n");
    ScanOne(line, section);
    ScanSum(line, "\n", section);
  }

  lemma FullEntryScans(name: string, e: Entry, section: string)
    requires Key(name) && Printable(e.value) && !Legacy(section)
    ensures Whole(ToConfigFull(name, e))
    ensures ScanText(ToConfigFull(name, e), section) == Scan(section, [Found(section, name, Print(e.value))], true)
  {
    var text := name + "=" + Print(e.value) + "\n" + "\n";
    PrintedReadsBack(e.value);
    AddedLineScans(name, Print(e.value), section);
    DescribedIsSilent(e.description);
    hide ScanText, Described;
    ScanSum(Described(e.description), text, section);
  }

  lemma AddedScans(id: Id, e: Entry, section: string)
    requires Key(id.name) && Printable(e.value) && !Legacy(section)
    ensures var text := "\n" + ToConfigFull(id.name, e);
      Whole(text) && ScanText(text, section) == Scan(section, [Found(section, id.name, Print(e.value))], true)
  {
    FullEntryScans(id.name, e, section);
    BlankLine("\n");
    SilentLine("\n");
    ScanSum("\n", ToConfigFull(id.name, e), section);
  }
}

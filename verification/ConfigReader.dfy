/** A configuration that is read from a file and written back into it, section by section, with what the
    program does not know. */
module ConfigReader {
  import opened ConfigText
  import opened ConfigValue
  import opened ConfigScan
  import opened ConfigDraft
  import opened PlaceMarkers
  import opened ConfigLines
  import opened ConfigEntries
  import opened ConfigSaved

  // ---------- copying the lines of a file ----------

  function PlaceOf(section: string, sections: set<string>): Place {
    if section in sections then In(section) else Nowhere
  }

  /** After the lines a reader has scanned as `s`, the draft holds what has been written for them. */
  ghost predicate Copied(d: Draft, s: Scan, written: seq<Found>, sections: set<string>) {
    && Sorted(d, sections) && Placed(d, sections) && d.Section() == s.section && s.modern && !Legacy(s.section)
    && d.place == PlaceOf(s.section, sections) && Holds(d, written, sections)
  }

  lemma BeginCopy(sections: set<string>, entries: Entries)
    requires NoneLegacy(sections)
    ensures Copied(Draft(In(GENERAL), "", [], map[]), START, [], sections)
    ensures PlaceOf(GENERAL, sections) == In(GENERAL) && AllWritten(entries, []) == []
    ensures !AnyStale(entries, []) && Unsaved(entries, []) == set id | id in entries && !entries[id].MatchesDefault()
  {
    NothingIsSilent();
  }

  lemma HoldsSame(d: Draft, d': Draft, found: seq<Found>, known: set<string>)
    requires Holds(d, found, known) && forall p :: d'.At(p) == d.At(p)
    ensures Holds(d', found, known)
  {
  }

  /** Something has been written for an assignment that does not lead elsewhere. */
  lemma AssignmentCopied(d: Draft, s: Scan, text: string, written: seq<Found>, sections: set<string>)
    requires NoneLegacy(sections) && Copied(d, s, written, sections)
    requires IsLine(text) && !Classify(text).Header?
    ensures Copied(d.Write(text), s.(found := []), written + Assigned(s.section, text), sections)
  {
    LineIsWhole(text);
    ScanOne(text, s.section);
    assert ScanText(text, s.section) == Scan(s.section, Assigned(s.section, text), true);
    assert forall f <- Assigned(s.section, text) :: Sent(f, sections) == d.place;
    hide Sorted, Placed, Holds, Gained, ScanText, Classify, Assigned, Sent, Draft.Write;
    WriteMore(d, text, sections);
    HoldsMore(d, d.Write(text), d.place, written, Assigned(s.section, text), sections);
  }

  lemma HeaderScanned(s: Scan, line: string, name: string)
    requires Classify(line) == Header(name) && !Legacy(name) && s.modern
    ensures ScanLine(s, line) == Scan(name, s.found, true)
  {
  }

  lemma RepeatedHeaderCopied(d: Draft, s: Scan, written: seq<Found>, name: string, sections: set<string>)
    requires NoneLegacy(sections) && Copied(d, s, written, sections) && name in sections && name in d.order
    ensures Copied(d.(place := In(name)), Scan(name, [], true), written, sections)
  {
    var moved := d.(place := In(name));
    assert Silent(d.junk) && !Legacy(name);
    hide Silent, Sorted, ScanText, Legacy, Holds;
    JunkOrPlace(d, moved, sections);
    HoldsSame(d, moved, written, sections);
  }

  lemma FirstHeaderCopied(d: Draft, s: Scan, written: seq<Found>, line: string, name: string, sections: set<string>)
    requires NoneLegacy(sections) && Copied(d, s, written, sections) && IsLine(line) && Classify(line) == Header(name)
    requires name in sections && name !in d.order
    ensures Copied(d.(place := In(name)).Write(line), Scan(name, [], true), written, sections)
  {
    var moved := d.(place := In(name));
    assert Silent(d.junk) && !Legacy(name);
    hide Silent, Sorted, Classify, IsLine, ScanText, Legacy, Holds;
    JunkOrPlace(d, moved, sections);
    WriteHeader(moved, line, name, sections);
    HoldsSame(d, moved.Write(line), written, sections);
  }

  lemma LostHeaderCopied(d: Draft, s: Scan, written: seq<Found>, line: string, name: string, sections: set<string>)
    requires NoneLegacy(sections) && Copied(d, s, written, sections) && IsLine(line) && Classify(line) == Header(name)
    requires name !in sections && !Legacy(name)
    ensures Copied(d.(place := Nowhere).Write(line), Scan(name, [], true), written, sections)
  {
    var moved := d.(place := Nowhere);
    assert Silent(d.junk);
    hide Silent, Sorted, Classify, IsLine, ScanText, Holds;
    JunkOrPlace(d, moved, sections);
    WriteLostHeader(moved, line, name, sections);
    HoldsSame(d, moved.Write(line), written, sections);
  }

  lemma RemarkCopied(d: Draft, s: Scan, written: seq<Found>, line: string, sections: set<string>)
    requires Copied(d, s, written, sections) && IsLine(line) && Classify(line) == Remark
    ensures Copied(d.(junk := d.junk + line), ScanLine(s, line), written, sections)
    ensures Copied(d, ScanLine(s, line), written, sections)
  {
    var d' := d.(junk := d.junk + line);
    SilentLine(line);
    SilentSum(d.junk, line);
    SectionStays(s, line);
    hide Silent, Sorted, Holds, ScanText, ScanLine, Classify;
    JunkOrPlace(d, d', sections);
    HoldsSame(d, d', written, sections);
  }

  lemma FoundDoesNotMatter(d: Draft, s: Scan, s': Scan, written: seq<Found>, sections: set<string>)
    requires Copied(d, s, written, sections) && s'.section == s.section && s'.modern
    ensures Copied(d, s', written, sections)
  {
  }

  // ---------- the remaining entries ----------

  /** The draft after an entry has been added that the file did not have. */
  function Add(d: Draft, id: Id, e: Entry): Draft {
    var moved := d.(place := In(id.section));
    var headed := if id.section in d.order then moved else moved.Write("[" + id.section + "]");
    headed.Write("\n").Write(ToConfigFull(id.name, e))
  }

  lemma OneWritten(d: Draft, text: string, f: Found, found: seq<Found>, sections: set<string>)
    requires NoneLegacy(sections) && Sorted(d, sections) && Placed(d, sections) && Holds(d, found, sections)
    requires d.place == In(f.section) && Whole(text) && ScanText(text, f.section) == Scan(f.section, [f], true)
    ensures Sorted(d.Write(text), sections) && Holds(d.Write(text), found + [f], sections)
  {
    assert Sent(f, sections) == d.place;
    hide Sorted, ScanText, Holds, Gained, Draft.Write, Sent;
    WriteMore(d, text, sections);
    HoldsMore(d, d.Write(text), d.place, found, [f], sections);
  }

  lemma AddIs(d: Draft, id: Id, e: Entry)
    ensures var (moved, text) := (d.(place := In(id.section)), ToConfigFull(id.name, e));
      Add(d, id, e) ==
        if id.section in d.order then moved.Write("\n" + text)
        else moved.Write("[" + id.section + "]" + "\n").Write(text)
  {
    var (moved, text) := (d.(place := In(id.section)), ToConfigFull(id.name, e));
    hide ToConfigFull, Draft.Write;
    WriteTwice(moved, "\n", text);
    WriteTwice(moved, "[" + id.section + "]", "\n");
  }

  lemma AddToPresent(d: Draft, id: Id, e: Entry, found: seq<Found>, sections: set<string>)
    requires NoneLegacy(sections) && Sorted(d, sections) && id.section in sections && id.section in d.order
    requires Key(id.name) && Printable(e.value) && Holds(d, found, sections)
    ensures Sorted(Add(d, id, e), sections)
    ensures Holds(Add(d, id, e), found + [Found(id.section, id.name, Print(e.value))], sections)
  {
    var (moved, f) := (d.(place := In(id.section)), Found(id.section, id.name, Print(e.value)));
    assert Silent(d.junk) && !Legacy(id.section);
    AddIs(d, id, e);
    AddedScans(id, e, id.section);
    hide Sorted, ScanText, ToConfigFull, Legacy, Silent, Holds, Add, Draft.Write, Print, Whole;
    JunkOrPlace(d, moved, sections);
    HoldsSame(d, moved, found, sections);
    OneWritten(moved, "\n" + ToConfigFull(id.name, e), f, found, sections);
  }

  lemma ShortHeader(section: string)
    requires '#' !in section && '=' !in section && '\n' !in section
    ensures var header := "[" + section + "]" + "\n"; IsLine(header) && Classify(header) == Header(section)
  {
    HeaderLine(section);
    Regroup("[" + section, "]", "\n");
    assert "]" + "\n" == "]\n";
    NewlineBehind("[" + section + "]");
  }

  lemma UnderHeader(d: Draft, header: string, text: string, f: Found, found: seq<Found>, sections: set<string>)
    requires NoneLegacy(sections) && Sorted(d, sections) && Holds(d, found, sections)
    requires d.place == In(f.section) && f.section in sections && f.section !in d.order
    requires IsLine(header) && Classify(header) == Header(f.section)
    requires Whole(text) && ScanText(text, f.section) == Scan(f.section, [f], true)
    ensures var d' := d.Write(header).Write(text); Sorted(d', sections) && Holds(d', found + [f], sections)
  {
    assert d.Write(header).place == d.place;
    hide Sorted, ScanText, IsLine, Classify, Holds, Draft.Write;
    WriteHeader(d, header, f.section, sections);
    HoldsSame(d, d.Write(header), found, sections);
    OneWritten(d.Write(header), text, f, found, sections);
  }

  lemma AddToAbsent(d: Draft, id: Id, e: Entry, found: seq<Found>, sections: set<string>)
    requires NoneLegacy(sections) && Sorted(d, sections) && id.section in sections && id.section !in d.order
    requires '#' !in id.section && '=' !in id.section && '\n' !in id.section
    requires Key(id.name) && Printable(e.value) && Holds(d, found, sections)
    ensures Sorted(Add(d, id, e), sections)
    ensures Holds(Add(d, id, e), found + [Found(id.section, id.name, Print(e.value))], sections)
  {
    var (moved, f) := (d.(place := In(id.section)), Found(id.section, id.name, Print(e.value)));
    assert Silent(d.junk) && !Legacy(id.section);
    ShortHeader(id.section);
    AddIs(d, id, e);
    FullEntryScans(id.name, e, id.section);
    hide Sorted, ScanText, ToConfigFull, Legacy, Silent, IsLine, Classify, Holds, Add, Draft.Write, Print, Whole;
    JunkOrPlace(d, moved, sections);
    HoldsSame(d, moved, found, sections);
    UnderHeader(moved, "[" + id.section + "]" + "\n", ToConfigFull(id.name, e), f, found, sections);
  }

  /** One more id among those added. */
  lemma AddedOneMore(entries: Entries, missing: set<Id>, remaining: set<Id>, id: Id)
    requires id in remaining && remaining <= missing <= entries.Keys
    ensures AllAdded(entries, missing - (remaining - {id}))
         == AllAdded(entries, missing - remaining) + multiset{Added(entries, id)}
  {
    var ids := missing - remaining;
    assert missing - (remaining - {id}) == ids + {id};
    var (before, after) := (set i <- ids :: Added(entries, i), set i <- ids + {id} :: Added(entries, i));
    assert after == before + {Added(entries, id)};
    assert Added(entries, id) !in before;
  }

  // ---------- the program ----------

  class ConfigBase {
    const sections: set<string>
    var entries: Entries
    var file: string            // the text at the configuration's path; no file reads as an empty one
    var unusedVariables: bool
    var unusedSections: bool

    constructor (sections: set<string>, entries: Entries, file: string)
      ensures this.sections == sections && this.entries == entries && this.file == file
    {
      this.sections, this.entries, this.file := sections, entries, file;
      unusedVariables, unusedSections := false, false;
    }

    method Set(id: Id, value: Value)
      requires id in entries
      modifies this`entries
      ensures entries == old(entries)[id := old(entries)[id].(value := value, isDefault := false)]
    {
      entries := entries[id := entries[id].(value := value, isDefault := false)];
    }

    method Wipe()
      modifies this`entries
      ensures entries == Wiped(old(entries))
    {
      var ids := entries.Keys;
      while ids != {}
        invariant ids <= entries.Keys == old(entries).Keys
        invariant forall id <- entries ::
            entries[id] == if id in ids then old(entries)[id] else old(entries)[id].SetDefault()
        decreases |ids|
      {
        var id :| id in ids;
        entries := entries[id := entries[id].SetDefault()];
        ids := ids - {id};
      }
    }

    method LoadInternal()
      modifies this`entries, this`unusedVariables
      ensures entries == Apply(old(entries), Contents(file))
      ensures unusedVariables <==> old(unusedVariables) || !AllKnown(old(entries), Contents(file))
    {
      hide Apply, AllKnown, ScanLine, ScanLines, Lines, Contents, Entry.SetValue, Classify, Renamed;
      var currentSection := GENERAL;
      var lines := Lines(file);
      ghost var s := START;
      LoadBegins(entries, file);
      var i := 0;
      while i < |lines|
        invariant 0 <= i <= |lines|
        invariant s == ScanLines(START, lines[..i]) && currentSection == s.section
        invariant entries == Apply(old(entries), s.found)
        invariant unusedVariables <==> old(unusedVariables) || !AllKnown(old(entries), s.found)
      {
        LoadNext(old(entries), lines, i);
        currentSection := LoadLine(lines[i], currentSection, s);
        s := ScanLine(s, lines[i]);
        i := i + 1;
      }
      assert lines[..i] == lines;
    }

    method LoadLine(line: string, section: string, ghost s: Scan) returns (currentSection: string)
      requires section == s.section
      modifies this`entries, this`unusedVariables
      ensures currentSection == ScanLine(s, line).section
      ensures match Classify(line)
        case Assignment(name, value) =>
          var id := Id(Renamed(section), name);
          && entries == (if id in old(entries) then old(entries)[id := old(entries)[id].SetValue(value)]
                         else old(entries))
          && unusedVariables == (old(unusedVariables) || id !in old(entries))
        case _ => entries == old(entries) && unusedVariables == old(unusedVariables)
    {
      TrimFirst(line);
      var bare := WithoutComment(Trim(line));
      currentSection := section;
      if currentSection == "XDisplay" {
        currentSection := "X11";
      } else if currentSection == "WaylandDisplay" {
        currentSection := "Wayland";
      }
      match MeaningOf(bare)
      case Assignment(name, value) =>
        if Id(currentSection, name) in entries {
          entries := entries[Id(currentSection, name) := entries[Id(currentSection, name)].SetValue(value)];
        } else {
          unusedVariables := true;
        }
      case Header(name) =>
        currentSection := name;
      case Remark =>
    }

    /** Writes the configuration into its file: every known assignment gets the current value, what
        has no default value and is missing is added, and the rest is kept. Nothing is written if
        the file says it all already. */
    method Save()
      requires Writable(sections, entries) && Ready(file)
      modifies this`file, this`unusedVariables, this`unusedSections
      ensures Faithful(entries, old(Contents(file))) ==> file == old(file)
      ensures !Faithful(entries, old(Contents(file))) && Steady(old(Lines(file))) ==>
        Ready(file) && Saved(sections, entries, old(Lines(file)), Contents(file))
      ensures !Faithful(entries, old(Contents(file))) ==> TextsKept(sections, entries, old(Lines(file)), file)
      ensures unusedVariables <==> old(unusedVariables) || AnyUnknownVariable(sections, entries, old(Lines(file)))
      ensures unusedSections <==> old(unusedSections) || AnyUnknownSection(sections, old(Lines(file)))
    {
      hide TextsKept, AnyUnknownVariable, AnyUnknownSection, Copy, InParts, Keeps;
      hide Writable, AnyStale, Unsaved, Sorted, Holds, Ready, Steady, Saved, Contents, Lines, AllAdded, AllWritten;
      ghost var (lines, was) := (Lines(file), Contents(file));
      ScanBegins(file);
      var draft, changed, remaining := CopyFile();
      if remaining != {} {
        changed := true;
      }
      UnsavedAreEntries(entries, was);
      ghost var added;
      draft, added := AddRemaining(draft, remaining, AllWritten(entries, lines));
      if changed {
        file := draft.Rendered();
        if Steady(lines) { DraftIsSaved(draft, entries, lines, was, added, sections); }
        DraftHasTexts(sections, entries, lines, draft);
      }
    }

    /** The loading and checking phase. */
    method CopyFile() returns (draft: Draft, changed: bool, remaining: set<Id>)
      requires Writable(sections, entries) && Ready(file)
      modifies this`unusedVariables, this`unusedSections
      ensures draft == Copy(sections, entries, Lines(file))
      ensures changed <==> AnyStale(entries, Contents(file))
      ensures remaining == Unsaved(entries, Contents(file))
      ensures Steady(Lines(file)) ==>
        Sorted(draft, sections) && Holds(draft, AllWritten(entries, Lines(file)), sections)
      ensures unusedVariables <==> old(unusedVariables) || AnyUnknownVariable(sections, entries, Lines(file))
      ensures unusedSections <==> old(unusedSections) || AnyUnknownSection(sections, Lines(file))
    {
      hide AnyStale, Unsaved, Ready, Writable, ScanLine, ScanLines, Lines, Follow, Copy, InStep, Legacy, PlaceOf;
      hide Contents, Entry.MatchesDefault, Steady, Sorted, Holds, AllWritten;
      hide UnknownSection, UnknownVariable, AnyUnknownSection, AnyUnknownVariable;
      remaining := set id | id in entries && !entries[id].MatchesDefault();
      changed := false;
      draft := Draft(In(GENERAL), "", [], map[]);
      var lines := Lines(file);
      ghost var before := Progress(draft, changed, remaining, unusedVariables, unusedSections);
      InStepFirst(sections, entries, lines, before);
      var i := 0;
      while i < |lines|
        invariant 0 <= i <= |lines|
        invariant InStep(sections, entries, lines, i, before,
                         Progress(draft, changed, remaining, unusedVariables, unusedSections))
      {
        ghost var now := Progress(draft, changed, remaining, unusedVariables, unusedSections);
        InStepNow(sections, entries, file, i, before, now);
        draft, changed, remaining := CopyLine(lines[i], draft, changed, remaining, ScanLines(START, lines[..i]));
        InStepNext(sections, entries, file, i, before, now,
                   Progress(draft, changed, remaining, unusedVariables, unusedSections));
        i := i + 1;
      }
      InStepLast(sections, entries, file, before,
                 Progress(draft, changed, remaining, unusedVariables, unusedSections));
    }

    /** One line; `s` is what a reader has made of the lines before it. */
    method CopyLine(line: string, d: Draft, c: bool, r: set<Id>, ghost s: Scan)
      returns (draft: Draft, changed: bool, remaining: set<Id>)
      requires Writable(sections, entries) && !Legacy(s.section) && d.place == PlaceOf(s.section, sections)
      requires c <==> AnyStale(entries, s.found)
      requires r == Unsaved(entries, s.found)
      modifies this`unusedVariables, this`unusedSections
      ensures Advanced(sections, entries, s, line,
                       Progress(d, c, r, old(unusedVariables), old(unusedSections)),
                       Progress(draft, changed, remaining, unusedVariables, unusedSections))
    {
      hide AnyStale, Unsaved, Writable;
      draft, changed, remaining := d, c, r;
      var bare := WithoutComment(line);
      match MeaningOf(bare)
      case Assignment(name, value) =>
        draft, changed, remaining := CopyAssignment(line, name, value, d, c, r, s);
      case Header(name) =>
        if name in sections {
          draft := draft.(place := In(name));
          if name !in draft.order {
            draft := draft.Write(line);
          }
        } else {
          unusedSections := true;
          draft := draft.(place := Nowhere).Write(line);
        }
      case Remark =>
        if line != UNUSED_SECTIONS {
          draft := draft.(junk := draft.junk + line);
        }
    }

    method CopyAssignment(line: string, name: string, value: string, d: Draft, c: bool, r: set<Id>, ghost s: Scan)
      returns (draft: Draft, changed: bool, remaining: set<Id>)
      requires Writable(sections, entries) && Classify(line) == Assignment(name, value)
      requires !Legacy(s.section) && d.place == PlaceOf(s.section, sections)
      requires c <==> AnyStale(entries, s.found)
      requires r == Unsaved(entries, s.found)
      modifies this`unusedVariables
      ensures Advanced(sections, entries, s, line,
                       Progress(d, c, r, old(unusedVariables), unusedSections),
                       Progress(draft, changed, remaining, unusedVariables, unusedSections))
    {
      hide AnyStale, Unsaved, WithoutComment, Comment, Classify, Rewritten, Marked, Writable;
      draft, changed, remaining := d, c, r;
      OneMoreFound(entries, s.found, Found(s.section, name, value));
      KnownPlace(sections, entries, s.section, name);
      var text := line;
      if draft.place.In? && Id(draft.place.section, name) in entries {
        var id := Id(draft.place.section, name);
        var printed := Print(entries[id].value);
        if value != printed {
          changed := true;
          text := Rewritten(name, printed, Comment(line));
        }
        remaining := remaining - {id};
      } else {
        if draft.place.In? {
          unusedVariables := true;
        }
        UnsavedAreEntries(entries, s.found);
        text := Marked(WithoutComment(line));
      }
      draft := draft.Write(text);
    }

    /** Entries that the file does not have, in whatever order. */
    method AddRemaining(d: Draft, missing: set<Id>, ghost found: seq<Found>)
      returns (draft: Draft, ghost added: seq<Found>)
      requires Writable(sections, entries) && missing <= entries.Keys
      ensures multiset(added) == AllAdded(entries, missing)
      ensures Sorted(d, sections) && Holds(d, found, sections) ==>
        Sorted(draft, sections) && Holds(draft, found + added, sections)
      ensures forall x: string :: InParts(d, x) || (missing != {} && Keeps(d, x)) ==> InParts(draft, x)
    {
      draft, added := d, [];
      var remaining := missing;
      assert missing - missing == {} && AllAdded(entries, {}) == multiset{} && found + [] == found;
      hide Sorted, Writable, AllAdded, Added, Add, Holds, InParts;
      while remaining != {}
        invariant remaining <= missing
        invariant multiset(added) == AllAdded(entries, missing - remaining)
        invariant Sorted(d, sections) && Holds(d, found, sections) ==>
          Sorted(draft, sections) && Holds(draft, found + added, sections)
        invariant forall x: string :: Keeps(d, x) ==> if remaining == missing then draft == d else InParts(draft, x)
        decreases |remaining|
      {
        var id :| id in remaining;
        forall x: string | Keeps(draft, x) ensures InParts(Add(draft, id, entries[id]), x) {
          AddKeeps(draft, id, entries[id], x);
        }
        draft := AddEntry(draft, id, found + added);
        AddedOneMore(entries, missing, remaining, id);
        Regroup(found, added, [Added(entries, id)]);
        added := added + [Added(entries, id)];
        remaining := remaining - {id};
      }
      assert missing - {} == missing;
    }

    method AddEntry(d: Draft, id: Id, ghost found: seq<Found>) returns (draft: Draft)
      requires Writable(sections, entries) && id in entries
      ensures draft == Add(d, id, entries[id])
      ensures Sorted(d, sections) && Holds(d, found, sections) ==>
        Sorted(draft, sections) && Holds(draft, found + [Added(entries, id)], sections)
    {
      hide Sorted, Holds, ToConfigFull;
      draft := d.(place := In(id.section));
      if id.section !in draft.order {
        draft := draft.Write("[" + id.section + "]");
      }
      draft := draft.Write("\n");
      draft := draft.Write(ToConfigFull(id.name, entries[id]));
      if Sorted(d, sections) && Holds(d, found, sections) {
        if id.section in d.order {
          AddToPresent(d, id, entries[id], found, sections);
        } else {
          AddToAbsent(d, id, entries[id], found, sections);
        }
      }
    }

    /** Saving, wiping and loading: exactly the restorable entries have the values they had, and the
        file keeps what it should. */
    method SaveAndReload()
      requires Writable(sections, entries) && WellTyped(entries) && Ready(file)
      modifies this
      ensures entries.Keys == old(entries).Keys
      ensures Steady(old(Lines(file))) ==> forall id <- entries ::
        entries[id].value == old(entries)[id].value <==> Restorable(old(entries), old(Contents(file)), id)
      ensures Steady(old(Lines(file))) && !Faithful(old(entries), old(Contents(file))) ==>
        && (multiset(Strays(old(entries), Contents(file))) == multiset(Strays(old(entries), old(Contents(file))))
          <==> AllMarkable(old(entries), old(Lines(file))))
        && (Faithful(old(entries), Contents(file)) <==> AllSurvive(old(entries), old(Contents(file))))
    {
      ghost var (was, lines, found) := (entries, Lines(file), Contents(file));
      Save();
      if Faithful(was, found) {
        forall id <- was ensures Comes(was, Contents(file), found, id) {
          FaithfulComesBack(was, sections, found, id);
        }
      } else if Steady(lines) {
        forall id <- was ensures Comes(was, Contents(file), found, id) {
          ValuesComeBack(sections, was, lines, Contents(file), id);
        }
        StraysAreKept(sections, was, lines, Contents(file));
        SavedIsFaithful(sections, was, lines, Contents(file));
      }
      ApplyKeepsKind(Wiped(was), Contents(file));
      Wipe();
      LoadInternal();
    }

    /** If all that is rewritten survives, a second save finds nothing to do. */
    method SaveTwice() returns (text: string)
      requires Writable(sections, entries) && Ready(file) && Steady(Lines(file))
      modifies this`file, this`unusedVariables, this`unusedSections
      ensures AllSurvive(entries, old(Contents(file))) ==> file == text && Faithful(entries, Contents(file))
    {
      ghost var (lines, found) := (Lines(file), Contents(file));
      Save();
      text := file;
      if !Faithful(entries, found) { SavedIsFaithful(sections, entries, lines, Contents(file)); }
      Save();
    }
  }

  ghost predicate Comes(entries: Entries, found: seq<Found>, was: seq<Found>, id: Id)
    requires id in entries
  {
    && Apply(Wiped(entries), found).Keys == entries.Keys
    && (Apply(Wiped(entries), found)[id].value == entries[id].value <==> Restorable(entries, was, id))
  }

  // ---------- in the loop ----------

  /** What the loop over the lines works on. */
  datatype Progress = Progress(draft: Draft, changed: bool, remaining: set<Id>,
                               unusedVariables: bool, unusedSections: bool)

  /** What one line does to it. */
  ghost predicate Advanced(sections: set<string>, entries: Entries, s: Scan, line: string, p: Progress, p': Progress) {
    && p'.draft == Follow(sections, entries, p.draft, line)
    && p'.draft.place == PlaceOf(ScanLine(s, line).section, sections)
    && (p'.changed <==> AnyStale(entries, ScanLine(s, line).found))
    && p'.remaining == Unsaved(entries, ScanLine(s, line).found)
    && (p'.unusedVariables <==> p.unusedVariables || UnknownVariable(sections, entries, s.section, line))
    && (p'.unusedSections <==> p.unusedSections || UnknownSection(sections, line))
  }

  /** Where the loop is after `i` lines. */
  ghost predicate InStep(sections: set<string>, entries: Entries, lines: seq<string>, i: nat, before: Progress,
                         p: Progress)
    requires i <= |lines|
  {
    var s := ScanLines(START, lines[..i]);
    && p.draft == Copy(sections, entries, lines[..i]) && p.draft.place == PlaceOf(s.section, sections)
    && (p.changed <==> AnyStale(entries, s.found)) && p.remaining == Unsaved(entries, s.found)
    && (p.unusedVariables <==> before.unusedVariables || AnyUnknownVariable(sections, entries, lines[..i]))
    && (p.unusedSections <==> before.unusedSections || AnyUnknownSection(sections, lines[..i]))
  }

  lemma InStepFirst(sections: set<string>, entries: Entries, lines: seq<string>, p: Progress)
    requires Writable(sections, entries) && p.draft == Draft(In(GENERAL), "", [], map[]) && !p.changed
    requires p.remaining == set id | id in entries && !entries[id].MatchesDefault()
    ensures InStep(sections, entries, lines, 0, p, p)
  {
    WritableIsModern(sections, entries);
    BeginCopy(sections, entries);
    assert lines[..0] == [] && ScanLines(START, []) == START;
  }

  lemma InStepNow(sections: set<string>, entries: Entries, file: string, i: nat, before: Progress, p: Progress)
    requires Ready(file) && i < |Lines(file)| && InStep(sections, entries, Lines(file), i, before, p)
    ensures var s := ScanLines(START, Lines(file)[..i]);
      && !Legacy(s.section) && p.draft.place == PlaceOf(s.section, sections)
      && (p.changed <==> AnyStale(entries, s.found)) && p.remaining == Unsaved(entries, s.found)
  {
    ScanNext(file, i);
  }

  lemma InStepNext(sections: set<string>, entries: Entries, file: string, i: nat, before: Progress,
                   p: Progress, p': Progress)
    requires Ready(file) && i < |Lines(file)| && InStep(sections, entries, Lines(file), i, before, p)
    requires Advanced(sections, entries, ScanLines(START, Lines(file)[..i]), Lines(file)[i], p, p')
    ensures InStep(sections, entries, Lines(file), i + 1, before, p')
  {
    var lines := Lines(file);
    ScanNext(file, i);
    CopyNext(sections, entries, lines, i);
    UnknownNext(sections, entries, lines, i);
    SectionIs(lines[..i]);
    hide Ready, Lines, ScanLines, ScanLine, Copy, Follow, AnyStale, Unsaved, Legacy, SectionAt, IsLine, PlaceOf;
    hide AnyUnknownVariable, AnyUnknownSection, UnknownVariable, UnknownSection;
  }

  lemma InStepLast(sections: set<string>, entries: Entries, file: string, before: Progress, p: Progress)
    requires Writable(sections, entries) && Ready(file)
    requires InStep(sections, entries, Lines(file), |Lines(file)|, before, p)
    ensures p.draft == Copy(sections, entries, Lines(file))
    ensures p.changed <==> AnyStale(entries, Contents(file))
    ensures p.remaining == Unsaved(entries, Contents(file))
    ensures Steady(Lines(file)) ==>
      Sorted(p.draft, sections) && Holds(p.draft, AllWritten(entries, Lines(file)), sections)
    ensures p.unusedVariables <==> before.unusedVariables || AnyUnknownVariable(sections, entries, Lines(file))
    ensures p.unusedSections <==> before.unusedSections || AnyUnknownSection(sections, Lines(file))
  {
    assert Lines(file)[..|Lines(file)|] == Lines(file);
    ScanBegins(file);
    if Steady(Lines(file)) { CopyHolds(sections, entries, file, |Lines(file)|); }
    hide Ready, Lines, ScanLines, Copy, AnyStale, Unsaved, Contents, Sorted, Holds, AllWritten, Steady;
    hide AnyUnknownVariable, AnyUnknownSection;
  }

  lemma OneMoreFound(entries: Entries, found: seq<Found>, f: Found)
    ensures AnyStale(entries, found + [f]) <==> AnyStale(entries, found) || Stale(entries, f)
    ensures Unsaved(entries, found + [f]) == Unsaved(entries, found) - {Id(f.section, f.name)}
  {
    OneOnly(entries, f);
    SurviveOneMore(entries, found, [f]);
    assert forall id: Id ::
      Latest(found + [f], id).Unset? <==> Latest(found, id).Unset? && id != Id(f.section, f.name) by {
      forall id: Id ensures Latest(found + [f], id)
          == if id == Id(f.section, f.name) then SetTo(f.value) else Latest(found, id) {
        LatestOneMore(found, f, id);
      }
    }
  }

  lemma KnownPlace(sections: set<string>, entries: Entries, section: string, name: string)
    requires Writable(sections, entries)
    ensures Id(section, name) in entries ==> PlaceOf(section, sections) == In(section)
    ensures PlaceOf(section, sections).In? ==> PlaceOf(section, sections).section == section
  {
  }

  /** Trimming removes a newline at the end. */
  lemma TrimmedIsOneLine(s: string)
    requires s != "" ==> '\n' !in s[..|s| - 1]
    ensures '\n' !in Trim(s)
  {
    var i, j := TrimSplits(s);
    assert IsSpace('\n');
    assert forall m | 0 <= m < |s| - 1 :: s[m] in s[..|s| - 1];
    assert forall m | i <= m < j :: s[m] == Trim(s)[m - i];
  }

  lemma NoNewlineInside(line: string)
    requires IsLine(line)
    ensures '\n' !in WithoutComment(line) && '\n' !in Comment(line) && IsComment(Comment(line))
  {
    var (k, n) := (Find(line, '#'), |line| - 1);
    CommentIsComment(line);
    assert k <= n ==> line[..k] == line[..n][..k] && line[k..][..n - k] == line[..n][k..];
    if k > n { assert line[k..] == "" && line[..k][..n] == line[..n]; }
    TrimmedIsOneLine(line[..k]);
    TrimmedIsOneLine(line[k..]);
  }

  lemma ReplacementIsLine(sections: set<string>, entries: Entries, section: string, line: string)
    requires Writable(sections, entries) && IsLine(line) && Classify(line).Assignment?
    ensures IsLine(Replacement(entries, section, line))
  {
    var id := Id(section, Classify(line).name);
    NoNewlineInside(line);
    if id in entries {
      PrintedReadsBack(entries[id].value);
      RewrittenIsLine(id.name, Print(entries[id].value), Comment(line));
    } else {
      MarkedIsLine(WithoutComment(line));
    }
  }

  lemma LineCopied(entries: Entries, d: Draft, s: Scan, written: seq<Found>, line: string, sections: set<string>)
    requires Writable(sections, entries) && Copied(d, s, written, sections)
    requires IsLine(line) && Classify(line).Assignment? && !Derails(line)
    ensures var text := Replacement(entries, s.section, line);
      Copied(d.Write(text), ScanLine(s, line), written + Written(entries, s.section, line), sections)
  {
    var text := Replacement(entries, s.section, line);
    ReplacementIsLine(sections, entries, s.section, line);
    LineReplaced(sections, entries, s.section, line);
    WritableIsModern(sections, entries);
    SectionStays(s, line);
    assert !Legacy(s.section) && s.modern;
    hide Classify, IsLine, Copied, Writable, Replacement, Derails, Draft.Write, ScanLine, Assigned, Legacy;
    AssignmentCopied(d, s, text, written, sections);
    FoundDoesNotMatter(d.Write(text), s.(found := []), ScanLine(s, line),
                       written + Written(entries, s.section, line), sections);
  }

  /** One more line keeps the draft in step with a reader. */
  lemma FollowHolds(sections: set<string>, entries: Entries, d: Draft, s: Scan, written: seq<Found>, line: string)
    requires Writable(sections, entries) && Copied(d, s, written, sections)
    requires IsLine(line) && !Derails(line) && ScanLine(s, line).modern
    ensures Copied(Follow(sections, entries, d, line), ScanLine(s, line),
                   written + Written(entries, s.section, line), sections)
  {
    WritableIsModern(sections, entries);
    assert written + [] == written;
    hide ScanLine, Copied, IsLine, Derails, Draft.Write, Following, Classify, Legacy, Assigned, Replacement, Marked;
    match Classify(line)
    case Assignment(name, _) =>
      LineCopied(entries, d, s, written, line, sections);
      SamePlace(sections, entries, d, s, written, line);
    case Header(name) =>
      HeaderCopied(d, s, written, line, name, sections);
    case Remark =>
      RemarkCopied(d, s, written, line, sections);
  }

  lemma SamePlace(sections: set<string>, entries: Entries, d: Draft, s: Scan, written: seq<Found>, line: string)
    requires Writable(sections, entries) && Copied(d, s, written, sections) && Classify(line).Assignment?
    ensures Follow(sections, entries, d, line) == d.Write(Replacement(entries, s.section, line))
  {
    hide Classify, Sorted, Placed, Holds, Marked, Rewritten;
    KnownPlace(sections, entries, s.section, Classify(line).name);
  }

  /** As long as no line derails, the draft holds what the lines have been replaced by. */
  lemma {:induction false} CopyHolds(sections: set<string>, entries: Entries, file: string, i: nat)
    requires Writable(sections, entries) && Ready(file) && Steady(Lines(file)) && i <= |Lines(file)|
    ensures var lines := Lines(file)[..i];
      Copied(Copy(sections, entries, lines), ScanLines(START, lines), AllWritten(entries, lines), sections)
    ensures var lines := Lines(file)[..i];
      Sorted(Copy(sections, entries, lines), sections)
      && Holds(Copy(sections, entries, lines), AllWritten(entries, lines), sections)
  {
    var (lines, n) := (Lines(file), i - 1);
    WritableIsModern(sections, entries);
    if i == 0 {
      BeginCopy(sections, entries);
    } else {
      CopyHolds(sections, entries, file, n);
      ScanNext(file, n);
      WrittenNext(entries, lines, n);
      SteadyAt(lines, n);
      CopyNext(sections, entries, lines, n);
      hide Copied, Ready, Writable, IsLine, ScanLine, ScanLines, Lines, Written, AllWritten, Derails, Steady, Copy;
      FollowHolds(sections, entries, Copy(sections, entries, lines[..n]), ScanLines(START, lines[..n]),
                  AllWritten(entries, lines[..n]), lines[n]);
    }
    hide Copy, ScanLines, Lines, AllWritten, Sorted, Holds;
  }

  // ---------- what stays of the text ----------

  /** The draft after a line, as the program follows the file. */
  function Follow(sections: set<string>, entries: Entries, d: Draft, line: string): Draft {
    match Classify(line)
    case Assignment(_, _) =>
      d.Write(if d.place.In? then Replacement(entries, d.place.section, line) else Marked(WithoutComment(line)))
    case Header(name) => Following(d, line, name, sections)
    case Remark => if line == UNUSED_SECTIONS then d else d.(junk := d.junk + line)
  }

  function Copy(sections: set<string>, entries: Entries, lines: seq<string>): Draft {
    if lines == [] then Draft(In(GENERAL), "", [], map[])
    else Follow(sections, entries, Copy(sections, entries, lines[..|lines| - 1]), lines[|lines| - 1])
  }

  lemma CopyNext(sections: set<string>, entries: Entries, lines: seq<string>, i: nat)
    requires i < |lines|
    ensures Copy(sections, entries, lines[..i + 1])
         == Follow(sections, entries, Copy(sections, entries, lines[..i]), lines[i])
    ensures Copy(sections, entries, []) == Draft(In(GENERAL), "", [], map[])
  {
    assert lines[..i + 1][..i] == lines[..i];
  }

  /** The name in the last header; a file begins in General. */
  function Heading(lines: seq<string>): string {
    if lines == [] then GENERAL
    else if Classify(lines[|lines| - 1]).Header? then Classify(lines[|lines| - 1]).name
    else Heading(lines[..|lines| - 1])
  }

  /** A section of which something has been written. */
  predicate Opened(lines: seq<string>, section: string) {
    lines != []
    && var (init, last) := (lines[..|lines| - 1], lines[|lines| - 1]);
      || Opened(init, section)
      || Classify(last) == Header(section)
      || (Classify(last).Assignment? && Heading(init) == section)
  }

  /** The next line goes into the new file, and takes the comments before it along. */
  predicate Writes(sections: set<string>, before: seq<string>, line: string) {
    match Classify(line)
    case Assignment(_, _) => true
    case Header(name) => name !in sections || !Opened(before, name)
    case Remark => false
  }

  predicate Note(line: string) {
    Classify(line).Remark? && line != UNUSED_SECTIONS
  }

  /** Something follows line `i` that is written. */
  ghost predicate Followed(sections: set<string>, lines: seq<string>, i: nat) {
    exists j | i < j < |lines| :: Writes(sections, lines[..j], lines[j])
  }

  /** In the new file stand, but for spaces around them: what assignments have been replaced by, the
      first header of each section, every header of an unknown one, and all remarks that something
      follows, be it an entry that has been added. */
  ghost predicate TextsKept(sections: set<string>, entries: Entries, lines: seq<string>, file: string) {
    forall i: nat | i < |lines| ::
      && (Classify(lines[i]).Assignment? ==>
          Within(Trim(Replacement(entries, Heading(lines[..i]), lines[i])), file))
      && (Classify(lines[i]).Header? && Writes(sections, lines[..i], lines[i]) ==> Within(Trim(lines[i]), file))
      && (Note(lines[i]) && (Followed(sections, lines, i) || Unsaved(entries, ScanLines(START, lines).found) != {}) ==>
          Within(Trim(lines[i]), file))
  }

  lemma {:induction false} CopyOpens(sections: set<string>, entries: Entries, lines: seq<string>, section: string)
    requires NoneLegacy(sections)
    ensures Copy(sections, entries, lines).place == PlaceOf(Heading(lines), sections)
    ensures section in Copy(sections, entries, lines).order <==> section in sections && Opened(lines, section)
  {
    if lines != [] {
      var (init, last) := (lines[..|lines| - 1], lines[|lines| - 1]);
      CopyOpens(sections, entries, init, section);
      if Classify(last).Header? { CopyOpens(sections, entries, init, Classify(last).name); }
      hide Classify, Replacement, Marked;
    }
  }

  lemma MovedKeeps(d: Draft, p: Place, x: string)
    ensures InParts(d.(place := p), x) <==> InParts(d, x)
    ensures Keeps(d.(place := p), x) <==> Keeps(d, x)
  {
  }

  lemma CollectedKeeps(d: Draft, line: string, x: string)
    ensures var d' := d.(junk := d.junk + line);
      (InParts(d', x) <==> InParts(d, x)) && (Keeps(d, x) ==> Keeps(d', x)) && Keeps(d', line)
  {
    if Within(x, d.junk) { InFront(x, d.junk, line); }
    assert d.junk + line == d.junk + line + "";
    assert Within(line, d.junk + line);
  }

  lemma WrittenIsThere(d: Draft, text: string)
    ensures InParts(d.Write(text), text)
  {
    var part := if d.place.In? && d.place.section !in d.order then "" else d.Part(d.place);
    assert d.Write(text).data[d.place] == part + d.junk + text + "";
    assert Within(text, d.Write(text).data[d.place]);
  }

  /** What a line brings into the draft, and what it leaves there. */
  lemma FollowKeeps(sections: set<string>, entries: Entries, lines: seq<string>, line: string, x: string)
    requires Writable(sections, entries)
    ensures var (d, d') := (Copy(sections, entries, lines), Copy(sections, entries, lines + [line]));
      && (InParts(d, x) ==> InParts(d', x)) && (Keeps(d, x) ==> Keeps(d', x))
      && (Keeps(d, x) && Writes(sections, lines, line) ==> InParts(d', x))
      && (Classify(line).Assignment? ==> InParts(d', Replacement(entries, Heading(lines), line)))
      && (Classify(line).Header? && Writes(sections, lines, line) ==> InParts(d', line))
      && (Note(line) ==> Keeps(d', line))
  {
    var d := Copy(sections, entries, lines);
    WritableIsModern(sections, entries);
    CopyNext(sections, entries, lines + [line], |lines|);
    assert (lines + [line])[..|lines|] == lines && (lines + [line])[..|lines| + 1] == lines + [line];
    CollectedKeeps(d, line, x);
    match Classify(line)
    case Assignment(name, _) =>
      CopyOpens(sections, entries, lines, "");
      var text := Replacement(entries, Heading(lines), line);
      assert text == if d.place.In? then Replacement(entries, d.place.section, line) else Marked(WithoutComment(line));
      hide Copy, InParts, Replacement, Marked, Draft.Write;
      WrittenIsThere(d, text);
      if Keeps(d, x) { WriteKeeps(d, text, x); }
    case Header(name) =>
      CopyOpens(sections, entries, lines, name);
      hide Copy, InParts, Draft.Write, Opened;
      var moved := d.(place := PlaceOf(name, sections));
      MovedKeeps(d, PlaceOf(name, sections), x);
      WrittenIsThere(moved, line);
      if Keeps(d, x) { WriteKeeps(moved, line, x); }
    case Remark =>
      hide Copy, InParts;
  }

  lemma {:induction false} TextsInCopy(sections: set<string>, entries: Entries, lines: seq<string>, i: nat)
    requires Writable(sections, entries) && i < |lines|
    ensures var d := Copy(sections, entries, lines);
      && (Classify(lines[i]).Assignment? ==> InParts(d, Replacement(entries, Heading(lines[..i]), lines[i])))
      && (Classify(lines[i]).Header? && Writes(sections, lines[..i], lines[i]) ==> InParts(d, lines[i]))
      && (Note(lines[i]) ==> Keeps(d, lines[i]))
      && (Note(lines[i]) && Followed(sections, lines, i) ==> InParts(d, lines[i]))
    decreases |lines|
  {
    var (init, last) := (lines[..|lines| - 1], lines[|lines| - 1]);
    assert lines == init + [last];
    hide Copy, InParts, Keeps, Classify, Replacement, Heading, Writes, Writable, Note;
    if i == |init| {
      assert lines[..i] == init;
      FollowKeeps(sections, entries, init, last, "");
    } else {
      TextsInCopy(sections, entries, init, i);
      assert init[..i] == lines[..i] && init[i] == lines[i];
      FollowKeeps(sections, entries, init, last, lines[i]);
      if Classify(lines[i]).Assignment? {
        FollowKeeps(sections, entries, init, last, Replacement(entries, Heading(lines[..i]), lines[i]));
      }
      if Followed(sections, lines, i) && !Writes(sections, init, last) {
        var j :| i < j < |lines| && Writes(sections, lines[..j], lines[j]);
        assert lines[..|init|] == init;
        assert init[..j] == lines[..j] && init[j] == lines[j];
      }
    }
  }

  /** So they stand in the file that is rendered from the draft, entries added or not. */
  lemma DraftHasTexts(sections: set<string>, entries: Entries, lines: seq<string>, d: Draft)
    requires Writable(sections, entries)
    requires forall x: string | InParts(Copy(sections, entries, lines), x) :: InParts(d, x)
    requires Unsaved(entries, ScanLines(START, lines).found) != {} ==>
      forall x: string | Keeps(Copy(sections, entries, lines), x) :: InParts(d, x)
    ensures TextsKept(sections, entries, lines, d.Rendered())
  {
    hide Copy, InParts, Keeps, Classify, Replacement, Heading, Writable, Note, Followed, Writes, Unsaved, ScanLines;
    hide Within;
    forall i: nat | i < |lines|
      ensures Classify(lines[i]).Assignment? ==>
        Within(Trim(Replacement(entries, Heading(lines[..i]), lines[i])), d.Rendered())
      ensures Classify(lines[i]).Header? && Writes(sections, lines[..i], lines[i]) ==>
        Within(Trim(lines[i]), d.Rendered())
      ensures (Note(lines[i])
               && (Followed(sections, lines, i) || Unsaved(entries, ScanLines(START, lines).found) != {})) ==>
        Within(Trim(lines[i]), d.Rendered())
    {
      TextsInCopy(sections, entries, lines, i);
      if Classify(lines[i]).Assignment? {
        RenderedHas(d, Replacement(entries, Heading(lines[..i]), lines[i]));
      }
      if InParts(d, lines[i]) { RenderedHas(d, lines[i]); }
    }
  }

  lemma AddKeeps(d: Draft, id: Id, e: Entry, x: string)
    requires Keeps(d, x)
    ensures InParts(Add(d, id, e), x)
  {
    var moved := d.(place := In(id.section));
    var header := "[" + id.section + "]";
    hide InParts, Draft.Write, ToConfigFull;
    MovedKeeps(d, In(id.section), x);
    WriteKeeps(moved, header, x);
    WriteKeeps(moved, "\n", x);
    WriteKeeps(moved.Write(header), "\n", x);
    WriteKeeps(moved.Write("\n"), ToConfigFull(id.name, e), x);
    WriteKeeps(moved.Write(header).Write("\n"), ToConfigFull(id.name, e), x);
  }

  // ---------- unknown names ----------

  predicate UnknownSection(sections: set<string>, line: string) {
    Classify(line).Header? && Classify(line).name !in sections
  }

  predicate UnknownVariable(sections: set<string>, entries: Entries, section: string, line: string) {
    Classify(line).Assignment? && section in sections && Id(section, Classify(line).name) !in entries
  }

  predicate AnyUnknownSection(sections: set<string>, lines: seq<string>) {
    exists line <- lines :: UnknownSection(sections, line)
  }

  predicate AnyUnknownVariable(sections: set<string>, entries: Entries, lines: seq<string>) {
    exists i: nat | i < |lines| :: UnknownVariable(sections, entries, SectionAt(lines[..i]), lines[i])
  }

  lemma SectionIs(lines: seq<string>)
    requires !Legacy(ScanLines(START, lines).section)
    ensures SectionAt(lines) == ScanLines(START, lines).section
  {
  }

  lemma UnknownNext(sections: set<string>, entries: Entries, lines: seq<string>, i: nat)
    requires i < |lines|
    ensures AnyUnknownSection(sections, lines[..i + 1])
      <==> AnyUnknownSection(sections, lines[..i]) || UnknownSection(sections, lines[i])
    ensures AnyUnknownVariable(sections, entries, lines[..i + 1])
      <==> (AnyUnknownVariable(sections, entries, lines[..i])
            || UnknownVariable(sections, entries, SectionAt(lines[..i]), lines[i]))
    ensures !AnyUnknownSection(sections, []) && !AnyUnknownVariable(sections, entries, [])
  {
    hide UnknownSection, UnknownVariable, SectionAt;
    var more := lines[..i + 1];
    assert more == lines[..i] + [lines[i]];
    assert forall k: nat | k <= i :: more[..k] == lines[..i][..k];
  }

  lemma SectionStays(s: Scan, line: string)
    requires !Legacy(s.section) && !Classify(line).Header?
    ensures ScanLine(s, line).section == s.section && ScanLine(s, line).modern == s.modern
  {
  }

  /** A header, as the program follows it. */
  function Following(d: Draft, line: string, name: string, sections: set<string>): Draft {
    var moved := d.(place := PlaceOf(name, sections));
    if name in sections && name in d.order then moved else moved.Write(line)
  }

  lemma HeaderCopied(d: Draft, s: Scan, written: seq<Found>, line: string, name: string, sections: set<string>)
    requires NoneLegacy(sections) && IsLine(line) && Classify(line) == Header(name) && ScanLine(s, line).modern
    requires Copied(d, s, written, sections)
    ensures Copied(Following(d, line, name, sections), ScanLine(s, line), written, sections)
  {
    assert !Legacy(name);
    HeaderScanned(s, line, name);
    hide Copied, Classify, ScanLine, IsLine, Legacy, Draft.Write;
    if name !in sections {
      LostHeaderCopied(d, s, written, line, name, sections);
    } else if name in d.order {
      RepeatedHeaderCopied(d, s, written, name, sections);
    } else {
      FirstHeaderCopied(d, s, written, line, name, sections);
    }
    FoundDoesNotMatter(Following(d, line, name, sections), Scan(name, [], true), Scan(name, s.found, true),
                       written, sections);
  }

  lemma UnsavedAreEntries(entries: Entries, found: seq<Found>)
    ensures Unsaved(entries, found) <= entries.Keys
  {
  }

  lemma WritableIsModern(sections: set<string>, entries: Entries)
    requires Writable(sections, entries)
    ensures NoneLegacy(sections)
  {
  }

  lemma LoadBegins(entries: Entries, file: string)
    ensures ScanLines(START, Lines(file)[..0]) == START && ScanLines(START, Lines(file)).found == Contents(file)
    ensures Apply(entries, []) == entries && AllKnown(entries, [])
  {
  }

  /** One more line read. */
  lemma LoadNext(was: Entries, lines: seq<string>, i: nat)
    requires i < |lines|
    ensures var (s, s') := (ScanLines(START, lines[..i]), ScanLines(START, lines[..i + 1]));
      && s' == ScanLine(s, lines[i])
      && match Classify(lines[i])
         case Assignment(name, value) =>
           var (id, loaded) := (Id(Renamed(s.section), name), Apply(was, s.found));
           && loaded.Keys == was.Keys
           && Apply(was, s'.found) == (if id in was then loaded[id := loaded[id].SetValue(value)] else loaded)
           && (AllKnown(was, s'.found) <==> AllKnown(was, s.found) && id in was)
         case _ => s'.found == s.found
  {
    assert lines[..i + 1][..i] == lines[..i];
    var s := ScanLines(START, lines[..i]);
    ApplyKeepsKind(was, s.found);
    if Classify(lines[i]).Assignment? {
      var f := Found(Renamed(s.section), Classify(lines[i]).name, Classify(lines[i]).value);
      assert (s.found + [f])[..|s.found|] == s.found;
      KnownMore(was, s.found, f);
    }
    hide Classify, Renamed, AllKnown;
  }

  lemma KnownMore(entries: Entries, found: seq<Found>, f: Found)
    ensures AllKnown(entries, found + [f]) <==> AllKnown(entries, found) && Known(entries, f)
  {
    assert forall g: Found :: g in found + [f] <==> g in found || g == f;
    assert f in found + [f];
  }

  lemma ScanBegins(file: string)
    ensures ScanLines(START, Lines(file)[..0]) == START && ScanLines(START, Lines(file)).found == Contents(file)
  {
  }

  lemma DraftIsSaved(d: Draft, entries: Entries, lines: seq<string>, was: seq<Found>, added: seq<Found>,
                     sections: set<string>)
    requires Writable(sections, entries) && was == ScanLines(START, lines).found
    requires Sorted(d, sections) && Holds(d, AllWritten(entries, lines) + added, sections)
    requires multiset(added) == AllAdded(entries, Unsaved(entries, was))
    ensures Ready(d.Rendered()) && Saved(sections, entries, lines, Contents(d.Rendered()))
  {
    WritableIsModern(sections, entries);
    hide Writable, Sorted, Holds, Contents, ScanLines, AllAdded, AllWritten, Unsaved, SameByPlace;
    RenderedScans(d, AllWritten(entries, lines) + added, sections);
  }

  lemma ScanNext(file: string, i: nat)
    requires Ready(file) && i < |Lines(file)|
    ensures var s := ScanLines(START, Lines(file)[..i]);
      && ScanLines(START, Lines(file)[..i + 1]) == ScanLine(s, Lines(file)[i])
      && ScanLine(s, Lines(file)[i]).modern && IsLine(Lines(file)[i]) && !Legacy(s.section) && s.modern
  {
    assert Lines(file)[..i + 1][..i] == Lines(file)[..i];
    assert Lines(file)[i] in Lines(file);
    LinesAreLines(file);
    StillModern(file, i);
    StillModern(file, i + 1);
    ModernSection(START, Lines(file)[..i]);
  }

  lemma StillModern(file: string, i: nat)
    requires Ready(file) && i <= |Lines(file)|
    ensures ScanLines(START, Lines(file)[..i]).modern
  {
    var lines := Lines(file);
    assert lines == lines[..i] + lines[i..];
    ScanSplit(START, lines[..i], lines[i..]);
    ScanMore(ScanLines(START, lines[..i]), lines[i..]);
  }

  lemma SteadyAt(lines: seq<string>, i: nat)
    requires i < |lines|
    ensures Steady(lines) ==> !Derails(lines[i])
  {
  }

  lemma WrittenNext(entries: Entries, lines: seq<string>, i: nat)
    requires i < |lines| && !Legacy(ScanLines(START, lines[..i]).section)
    ensures AllWritten(entries, lines[..i + 1])
         == AllWritten(entries, lines[..i]) + Written(entries, ScanLines(START, lines[..i]).section, lines[i])
  {
    hide ScanLines, AllWritten, Written, AllMarkable, Markable, SectionAt, Legacy;
    OneFurther(lines, i);
    SectionIs(lines[..i]);
    OneLineMore(entries, lines[..i], lines[i]);
  }

  lemma OneFurther(lines: seq<string>, i: nat)
    requires i < |lines|
    ensures lines[..i + 1] == lines[..i] + [lines[i]]
  {
  }
}

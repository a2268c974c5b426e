/** What save makes of the assignments of a file, and what of it survives: a value or an unknown
    variable is lost exactly if it goes through a template with place markers of low numbers in it. */
module ConfigSaved {
  import opened ConfigText
  import opened ConfigValue
  import opened ConfigScan
  import opened ConfigDraft
  import opened PlaceMarkers
  import opened ConfigLines
  import opened ConfigEntries

  /** What is written in the place of an assignment. */
  function Replacement(entries: Entries, section: string, line: string): string
    requires Classify(line).Assignment?
  {
    var id := Id(section, Classify(line).name);
    if id !in entries then Marked(WithoutComment(line))
    else if Classify(line).value == Print(entries[id].value) then line
    else Rewritten(id.name, Print(entries[id].value), Comment(line))
  }

  /** What a line assigns. */
  function Assigned(section: string, line: string): seq<Found> {
    match Classify(line)
    case Assignment(name, value) => [Found(section, name, value)]
    case _ => []
  }

  function Written(entries: Entries, section: string, line: string): seq<Found> {
    if Classify(line).Assignment? then Assigned(section, Replacement(entries, section, line)) else []
  }

  /** The assignments of a file after each has been replaced. */
  function AllWritten(entries: Entries, lines: seq<string>): seq<Found> {
    if lines == [] then []
    else
      var (init, last) := (lines[..|lines| - 1], lines[|lines| - 1]);
      AllWritten(entries, init) + Written(entries, Renamed(ScanLines(START, init).section), last)
  }

  /** An unknown assignment whose replacement would be a header, which changes what follows. */
  predicate Derails(line: string) {
    Classify(line).Assignment? && Classify(Marked(WithoutComment(line))).Header?
  }

  predicate Steady(lines: seq<string>) {
    forall line <- lines :: !Derails(line)
  }

  /** Markers with higher numbers are safe in every template. */
  predicate Unmarked(v: Value) {
    Lowest(Print(v)) > 3
  }

  /** An assignment of which the reader makes the same after it has been rewritten. */
  predicate Survives(entries: Entries, f: Found) {
    Stale(entries, f) ==> Unmarked(entries[Id(f.section, f.name)].value)
  }

  predicate AllSurvive(entries: Entries, found: seq<Found>) {
    forall f <- found :: Survives(entries, f)
  }

  /** An assignment that the program does not know and may mark as such. */
  predicate Markable(entries: Entries, section: string, line: string) {
    Classify(line).Assignment? && Id(section, Classify(line).name) !in entries ==> Lowest(WithoutComment(line)) > 2
  }

  predicate AllMarkable(entries: Entries, lines: seq<string>) {
    forall i: nat | i < |lines| ::
      Markable(entries, Renamed(ScanLines(START, lines[..i]).section), lines[i])
  }

  function Added(entries: Entries, id: Id): Found
    requires id in entries
  {
    Found(id.section, id.name, Print(entries[id].value))
  }

  function AllAdded(entries: Entries, ids: set<Id>): multiset<Found>
    requires ids <= entries.Keys
  {
    multiset(set id <- ids :: Added(entries, id))
  }

  /** What save leaves in a file with these lines: each assignment replaced, each missing entry added
      once, and the order of all assignments of a section kept. */
  ghost predicate Saved(sections: set<string>, entries: Entries, lines: seq<string>, found: seq<Found>) {
    exists added: seq<Found> ::
      && multiset(added) == AllAdded(entries, Unsaved(entries, ScanLines(START, lines).found))
      && SameByPlace(AllWritten(entries, lines) + added, found, sections)
  }

  // ---------- one line ----------

  lemma LineReplaced(sections: set<string>, entries: Entries, section: string, line: string)
    requires Writable(sections, entries) && Classify(line).Assignment? && !Derails(line)
    ensures !Classify(Replacement(entries, section, line)).Header?
  {
    var (name, bare) := (Classify(line).name, WithoutComment(line));
    var id := Id(section, name);
    if id in entries {
      PrintedReadsBack(entries[id].value);
      CommentIsComment(line);
      var w := RewrittenReads(name, Print(entries[id].value), Comment(line));
    }
  }

  /** A known assignment: how it reads afterwards. */
  lemma KnownWritten(sections: set<string>, entries: Entries, section: string, line: string) returns (w: string)
    requires Writable(sections, entries) && Classify(line).Assignment? && Id(section, Classify(line).name) in entries
    ensures var (f, v) := (Found(section, Classify(line).name, Classify(line).value),
                           entries[Id(section, Classify(line).name)].value);
      && Written(entries, section, line) == [f.(value := w)]
      && (w == Print(v) <==> Survives(entries, f)) && (Parse(v, w) == v <==> Survives(entries, f))
  {
    var (name, x) := (Classify(line).name, Classify(line).value);
    var v := entries[Id(section, name)].value;
    PrintedReadsBack(v);
    if x == Print(v) {
      w := x;
    } else {
      CommentIsComment(line);
      w := ValueRewritten(name, v, Comment(line));
    }
  }

  /** An unknown assignment stays what it is or, at best, loses a part of its value. */
  lemma StrayWritten(entries: Entries, section: string, line: string)
    requires Classify(line).Assignment? && Id(section, Classify(line).name) !in entries
    ensures var (f, after) := (Found(section, Classify(line).name, Classify(line).value),
                           Written(entries, section, line));
      if Markable(entries, section, line) then after == [f]
      else after == [] || exists v :: after == [f.(value := v)] && Count(v, '%') < Count(f.value, '%')
  {
    WithoutCommentSplits(line);
    MarkedReads(WithoutComment(line));
  }

  /** For one, a bracketed name with a marker behind it: its line is marked as a comment from there on,
      and what is left is a header. */
  lemma BecomesHeader(name: string, rest: string)
    requires '%' !in name && '#' !in name && '=' !in name
    requires '%' !in rest && '#' !in rest && Trimmed(rest) && rest != "" && rest[0] == '='
    ensures var bare := "[" + name + "]" + Mark('1', rest);
      Derails(bare + "\n") && Classify(Marked(bare)) == Header(name)
  {
    var front := "[" + name + "]";
    var bare := front + Mark('1', rest);
    StaysBare(front, rest);
    OnlyMarker(front, '1', rest);
    OnlyMarkerReplaced(front, '1', rest, 1, UNUSED_VARIABLE);
    MarkedIs(bare);
    assert Digit('1') == 1;
    hide Mark, Lowest, Replace, Marked;
    MarkedFront(name, front, UNUSED_VARIABLE, rest, " " + Mark('2', "\n"));
  }

  lemma StaysBare(front: string, rest: string)
    requires '#' !in front && front != "" && !IsSpace(front[0])
    requires '#' !in rest && Trimmed(rest) && rest != "" && rest[0] == '='
    ensures var bare := front + Mark('1', rest); WithoutComment(bare + "\n") == bare && MeaningOf(bare).Assignment?
  {
    var bare := front + Mark('1', rest);
    assert bare[0] == front[0] && bare[|bare| - 1] == rest[|rest| - 1] && bare[|front| + 2] == '=';
    assert bare[..|bare|] == bare;
    WithoutCommentOf(bare, "\n") by { assert AllSpace("\n"[..Find("\n", '#')]); }
  }

  lemma MarkedFront(name: string, front: string, x: string, rest: string, tail: string)
    requires front == "[" + name + "]" && '#' !in name && '=' !in name && x != "" && x[0] == '#'
    ensures Classify(front + x + rest + tail) == Header(name)
  {
    CommentBehind(front, x + (rest + tail));
    assert front + x + rest + tail == front + (x + (rest + tail));
    TrimOfTrimmed(front);
    FindIs(front, '=', |front|);
    assert front[1..|front| - 1] == name;
  }

  // ---------- all lines ----------

  function SectionAt(lines: seq<string>): string {
    Renamed(ScanLines(START, lines).section)
  }

  lemma OneLineMore(entries: Entries, init: seq<string>, last: string)
    ensures ScanLines(START, init + [last]).found == ScanLines(START, init).found + Assigned(SectionAt(init), last)
    ensures AllWritten(entries, init + [last]) == AllWritten(entries, init) + Written(entries, SectionAt(init), last)
    ensures AllMarkable(entries, init + [last]) <==>
      AllMarkable(entries, init) && Markable(entries, SectionAt(init), last)
  {
    var lines := init + [last];
    assert lines[..|init|] == init;
    MarkableOneMore(entries, init, last);
    hide AllMarkable, Markable, Written;
  }

  lemma MarkableOneMore(entries: Entries, init: seq<string>, last: string)
    ensures AllMarkable(entries, init + [last]) <==>
      AllMarkable(entries, init) && Markable(entries, SectionAt(init), last)
  {
    var lines := init + [last];
    hide Markable, ScanLines;
    assert lines[..|init|] == init && lines[|init|] == last;
    assert forall i: nat | i < |init| :: lines[..i] == init[..i] && lines[i] == init[i];
  }

  lemma SurviveOneMore(entries: Entries, a: seq<Found>, b: seq<Found>)
    ensures AllSurvive(entries, a + b) <==> AllSurvive(entries, a) && AllSurvive(entries, b)
    ensures AnyStale(entries, a + b) <==> AnyStale(entries, a) || AnyStale(entries, b)
  {
    assert forall f: Found :: f in a + b <==> f in a || f in b;
  }

  lemma LatestOneMore(found: seq<Found>, f: Found, id: Id)
    ensures Latest(found + [f], id) == if id == Id(f.section, f.name) then SetTo(f.value) else Latest(found, id)
  {
    LookupOneMore(found, f, id.section, id.name);
  }

  /** Exactly the values that survive are not stale after they have been rewritten. */
  lemma {:induction false} WrittenIsRight(sections: set<string>, entries: Entries, lines: seq<string>)
    requires Writable(sections, entries)
    ensures !AnyStale(entries, AllWritten(entries, lines)) <==> AllSurvive(entries, ScanLines(START, lines).found)
  {
    if lines != [] {
      var (init, last) := (lines[..|lines| - 1], lines[|lines| - 1]);
      assert lines == init + [last];
      WrittenIsRight(sections, entries, init);
      LineIsRight(sections, entries, SectionAt(init), last);
      hide AllSurvive, AnyStale, Written, Assigned, ScanLines, AllWritten, Writable, AllMarkable;
      OneLineMore(entries, init, last);
      SurviveOneMore(entries, ScanLines(START, init).found, Assigned(SectionAt(init), last));
      SurviveOneMore(entries, AllWritten(entries, init), Written(entries, SectionAt(init), last));
    }
  }

  lemma OneOnly(entries: Entries, f: Found)
    ensures AnyStale(entries, [f]) <==> Stale(entries, f)
    ensures AllSurvive(entries, [f]) <==> Survives(entries, f)
    ensures !AnyStale(entries, []) && AllSurvive(entries, [])
  {
    assert f in [f];
  }

  lemma LineIsRight(sections: set<string>, entries: Entries, section: string, line: string)
    requires Writable(sections, entries)
    ensures !AnyStale(entries, Written(entries, section, line)) <==> AllSurvive(entries, Assigned(section, line))
  {
    var m := Classify(line);
    if m.Assignment? {
      var (f, after) := (Found(section, m.name, m.value), Written(entries, section, line));
      OneOnly(entries, f);
      if Id(section, m.name) in entries {
        var w := KnownWritten(sections, entries, section, line);
        OneOnly(entries, f.(value := w));
      } else {
        StrayWritten(entries, section, line);
        if after != [] { OneOnly(entries, after[0]); }
      }
      hide AnyStale, AllSurvive, Written, Writable, Classify, Markable;
    } else {
      OneOnly(entries, Found("", "", ""));
    }
  }

  /** How an entry reads after all lines have been replaced. */
  ghost predicate ReadsAs(entries: Entries, id: Id, before: Setting, after: Setting)
    requires id in entries
  {
    match before
    case Unset => after == Unset
    case SetTo(x) =>
      after.SetTo? && (Parse(entries[id].value, after.value) == entries[id].value
        <==> Survives(entries, Found(id.section, id.name, x)))
  }

  lemma LineReadsAs(sections: set<string>, entries: Entries, section: string, line: string, id: Id,
                    found: seq<Found>, after: seq<Found>)
    requires Writable(sections, entries) && id in entries && ReadsAs(entries, id, Latest(found, id), Latest(after, id))
    ensures ReadsAs(entries, id, Latest(found + Assigned(section, line), id),
                    Latest(after + Written(entries, section, line), id))
  {
    if Classify(line).Assignment? {
      var f := Found(section, Classify(line).name, Classify(line).value);
      LatestOneMore(found, f, id);
      if Id(section, f.name) in entries {
        var w := KnownWritten(sections, entries, section, line);
        LatestOneMore(after, f.(value := w), id);
      } else {
        StrayWritten(entries, section, line);
        var more := Written(entries, section, line);
        if more != [] { LatestOneMore(after, more[0], id); } else { assert after + [] == after; }
      }
    } else {
      assert found + [] == found && after + [] == after;
    }
  }

  lemma {:induction false} LastWritten(sections: set<string>, entries: Entries, lines: seq<string>, id: Id)
    requires Writable(sections, entries) && id in entries
    ensures ReadsAs(entries, id, Latest(ScanLines(START, lines).found, id), Latest(AllWritten(entries, lines), id))
  {
    if lines != [] {
      var (init, last) := (lines[..|lines| - 1], lines[|lines| - 1]);
      assert lines == init + [last];
      LastWritten(sections, entries, init, id);
      OneLineMore(entries, init, last);
      hide ReadsAs, Written, Assigned, ScanLines, AllWritten, Writable, AllMarkable;
      LineReadsAs(sections, entries, SectionAt(init), last, id,
                  ScanLines(START, init).found, AllWritten(entries, init));
    }
  }

  // ---------- added entries ----------

  lemma {:induction false} LookupIn(found: seq<Found>, f: Found)
    requires forall g <- found :: g.section == f.section && g.name == f.name ==> g == f
    ensures Lookup(found, f.section, f.name) == if f in found then SetTo(f.value) else Unset
  {
    if found != [] {
      var (init, last) := (found[..|found| - 1], found[|found| - 1]);
      assert found == init + [last];
      assert last in found && forall g <- init :: g in found;
      LookupIn(init, f);
    }
  }

  lemma LatestAdded(entries: Entries, ids: set<Id>, added: seq<Found>, id: Id)
    requires ids <= entries.Keys && multiset(added) == AllAdded(entries, ids) && id in entries
    ensures Latest(added, id) == if id in ids then SetTo(Print(entries[id].value)) else Unset
  {
    forall g: Found ensures g in added <==> Id(g.section, g.name) in ids && g == Added(entries, Id(g.section, g.name)) {
      assert g in added <==> g in multiset(added);
    }
    LookupIn(added, Added(entries, id));
  }

  lemma {:induction false} NoStrays(entries: Entries, found: seq<Found>)
    requires AllKnown(entries, found)
    ensures Strays(entries, found) == []
  {
    if found != [] {
      assert found[|found| - 1] in found && forall f <- found[..|found| - 1] :: f in found;
      NoStrays(entries, found[..|found| - 1]);
    }
  }

  /** How an entry reads in the file that has been written. */
  lemma SavedReads(sections: set<string>, entries: Entries, lines: seq<string>, found: seq<Found>, id: Id)
    requires Writable(sections, entries) && Saved(sections, entries, lines, found) && id in entries
    ensures id in Unsaved(entries, ScanLines(START, lines).found) ==>
      Latest(found, id) == SetTo(Print(entries[id].value))
    ensures id !in Unsaved(entries, ScanLines(START, lines).found) ==>
      ReadsAs(entries, id, Latest(ScanLines(START, lines).found, id), Latest(found, id))
  {
    var (was, written) := (ScanLines(START, lines).found, AllWritten(entries, lines));
    var added: seq<Found> :|
      multiset(added) == AllAdded(entries, Unsaved(entries, was)) && SameByPlace(written + added, found, sections);
    LastWritten(sections, entries, lines, id);
    LatestAdded(entries, Unsaved(entries, was), added, id);
    hide ReadsAs, SameByPlace, AllWritten, ScanLines, AllAdded, Writable;
    LookupSum(written, added, id.section, id.name);
    SameLookup(written + added, found, sections, id.section, id.name);
  }

  // ---------- what survives ----------

  /** The value of an entry comes back from a file whose assignments were these: what the reader takes
      is right already, or can be rewritten, or is missing and will be added. */
  predicate Restorable(entries: Entries, was: seq<Found>, id: Id)
    requires id in entries
  {
    match Latest(was, id)
    case Unset => true
    case SetTo(x) => Survives(entries, Found(id.section, id.name, x))
  }

  /** The round trip: written, wiped and read back, exactly the restorable entries are as they were. */
  lemma ValuesComeBack(sections: set<string>, entries: Entries, lines: seq<string>, found: seq<Found>, id: Id)
    requires Writable(sections, entries) && WellTyped(entries) && Saved(sections, entries, lines, found)
    requires id in entries
    ensures Apply(Wiped(entries), found).Keys == entries.Keys
    ensures Apply(Wiped(entries), found)[id].value == entries[id].value
      <==> Restorable(entries, ScanLines(START, lines).found, id)
  {
    var (v, was) := (entries[id].value, ScanLines(START, lines).found);
    SavedReads(sections, entries, lines, found, id);
    PrintedReadsBack(v);
    hide Saved, ScanLines, Survives, Writable, Print;
    ReadsBack(entries, found, id);
  }

  lemma ReadsBack(entries: Entries, found: seq<Found>, id: Id)
    requires WellTyped(entries) && id in entries
    ensures Apply(Wiped(entries), found).Keys == entries.Keys
    ensures Apply(Wiped(entries), found)[id].value
         == match Latest(found, id) case Unset => entries[id].default case SetTo(x) => Parse(entries[id].value, x)
  {
    ApplyIs(Wiped(entries), found, id);
    if Latest(found, id).SetTo? {
      ParseDependsOnKind(entries[id].default, entries[id].value, Latest(found, id).value);
    }
  }

  lemma {:induction false} LatestIsFound(found: seq<Found>, id: Id)
    ensures match Latest(found, id) case Unset => true case SetTo(x) => Found(id.section, id.name, x) in found
  {
    if found != [] { LatestIsFound(found[..|found| - 1], id); }
  }

  /** A file that says everything already gives everything back. */
  lemma FaithfulComesBack(entries: Entries, sections: set<string>, found: seq<Found>, id: Id)
    requires Writable(sections, entries) && WellTyped(entries) && Faithful(entries, found) && id in entries
    ensures Apply(Wiped(entries), found).Keys == entries.Keys
    ensures Apply(Wiped(entries), found)[id].value == entries[id].value && Restorable(entries, found, id)
  {
    ReadsBack(entries, found, id);
    LatestIsFound(found, id);
    PrintedReadsBack(entries[id].value);
    assert id !in Unsaved(entries, found);
  }

  lemma SavedIsComplete(sections: set<string>, entries: Entries, lines: seq<string>, found: seq<Found>)
    requires Writable(sections, entries) && Saved(sections, entries, lines, found)
    ensures Unsaved(entries, found) == {}
  {
    forall id | id in entries ensures id !in Unsaved(entries, found) {
      SavedReads(sections, entries, lines, found, id);
      hide Saved, Writable, ScanLines;
    }
  }

  /** The written file says what the configuration says exactly if all that was rewritten survives. */
  lemma SavedIsFaithful(sections: set<string>, entries: Entries, lines: seq<string>, found: seq<Found>)
    requires Writable(sections, entries) && Saved(sections, entries, lines, found)
    ensures Faithful(entries, found) <==> AllSurvive(entries, ScanLines(START, lines).found)
  {
    var (was, written) := (ScanLines(START, lines).found, AllWritten(entries, lines));
    SavedIsComplete(sections, entries, lines, found);
    WrittenIsRight(sections, entries, lines);
    var added: seq<Found> :|
      multiset(added) == AllAdded(entries, Unsaved(entries, was)) && SameByPlace(written + added, found, sections);
    AddedAreRight(entries, Unsaved(entries, was), added);
    SameMultiset(written + added, found, sections);
    hide Writable, Saved, ScanLines, AllWritten, Unsaved, AllSurvive, SameByPlace, AnyStale, AllAdded;
    SurviveOneMore(entries, written, added);
    SameStale(entries, written + added, found);
  }

  lemma SameStale(entries: Entries, a: seq<Found>, b: seq<Found>)
    requires multiset(a) == multiset(b)
    ensures AnyStale(entries, a) <==> AnyStale(entries, b)
  {
    forall f: Found ensures f in a <==> f in b { assert f in multiset(a) <==> f in multiset(b); }
  }

  lemma AddedAreRight(entries: Entries, ids: set<Id>, added: seq<Found>)
    requires ids <= entries.Keys && multiset(added) == AllAdded(entries, ids)
    ensures !AnyStale(entries, added) && Strays(entries, added) == []
  {
    forall g <- added ensures Known(entries, g) && !Stale(entries, g) { assert g in multiset(added); }
    NoStrays(entries, added);
  }

  // ---------- strays ----------

  lemma {:induction false} StraysSum(entries: Entries, a: seq<Found>, b: seq<Found>)
    ensures Strays(entries, a + b) == Strays(entries, a) + Strays(entries, b)
  {
    if b == [] {
      assert a + b == a;
    } else {
      assert (a + b)[..|a + b| - 1] == a + b[..|b| - 1];
      StraysSum(entries, a, b[..|b| - 1]);
    }
  }

  lemma {:induction false} StrayCount(entries: Entries, found: seq<Found>, f: Found)
    ensures multiset(Strays(entries, found))[f] == if Known(entries, f) then 0 else multiset(found)[f]
  {
    if found != [] {
      var (init, last) := (found[..|found| - 1], found[|found| - 1]);
      StrayCount(entries, init, f);
      assert found == init + [last];
      assert Strays(entries, found) == Strays(entries, init) + if Known(entries, last) then [] else [last];
      hide Strays, Known;
    }
  }

  lemma SameStrays(entries: Entries, a: seq<Found>, b: seq<Found>)
    requires multiset(a) == multiset(b)
    ensures multiset(Strays(entries, a)) == multiset(Strays(entries, b))
  {
    forall f: Found ensures multiset(Strays(entries, a))[f] == multiset(Strays(entries, b))[f] {
      StrayCount(entries, a, f);
      StrayCount(entries, b, f);
    }
  }

  /** Something that shrinks whenever a stray loses a part. */
  function Weight(found: seq<Found>): nat {
    if found == [] then 0 else Weight(found[..|found| - 1]) + 1 + Count(found[|found| - 1].value, '%')
  }

  lemma {:induction false} WeightSum(a: seq<Found>, b: seq<Found>)
    ensures Weight(a + b) == Weight(a) + Weight(b)
  {
    if b == [] {
      assert a + b == a;
    } else {
      assert (a + b)[..|a + b| - 1] == a + b[..|b| - 1];
      WeightSum(a, b[..|b| - 1]);
    }
  }

  lemma {:induction false} SameWeight(a: seq<Found>, b: seq<Found>)
    requires multiset(a) == multiset(b)
    ensures Weight(a) == Weight(b)
  {
    if a == [] {
      assert |multiset(b)| == 0;
    } else {
      var (init, f) := (a[..|a| - 1], a[|a| - 1]);
      assert a == init + [f] && f in multiset(b);
      var x, y := Around(b, f);
      hide Weight;
      Removed(x, f, y);
      WeightSum(init, [f]);
      SameRest(multiset(init), multiset(x + y), f);
      SameWeight(init, x + y);
    }
  }

  lemma Around(b: seq<Found>, f: Found) returns (x: seq<Found>, y: seq<Found>)
    requires f in b
    ensures b == x + [f] + y
  {
    var i :| 0 <= i < |b| && b[i] == f;
    x, y := b[..i], b[i + 1..];
  }

  lemma SameRest(m: multiset<Found>, n: multiset<Found>, f: Found)
    requires m + multiset{f} == n + multiset{f}
    ensures m == n
  {
    assert m == m + multiset{f} - multiset{f} && n == n + multiset{f} - multiset{f};
  }

  lemma Removed(x: seq<Found>, f: Found, y: seq<Found>)
    ensures multiset(x + [f] + y) == multiset(x + y) + multiset{f}
    ensures Weight(x + [f] + y) == Weight(x + y) + Weight([f])
  {
    WeightSum(x + [f], y);
    WeightSum(x, [f]);
    WeightSum(x, y);
  }

  lemma LineStrays(sections: set<string>, entries: Entries, section: string, line: string)
    requires Writable(sections, entries)
    ensures var (before, after) := (Strays(entries, Assigned(section, line)),
                                Strays(entries, Written(entries, section, line)));
      if Markable(entries, section, line) then before == after else Weight(after) < Weight(before)
  {
    var m := Classify(line);
    if m.Assignment? {
      var (f, after) := (Found(section, m.name, m.value), Written(entries, section, line));
      OneStray(entries, f);
      if Id(section, m.name) in entries {
        var w := KnownWritten(sections, entries, section, line);
        OneStray(entries, f.(value := w));
      } else {
        StrayWritten(entries, section, line);
        if after != [] { OneStray(entries, after[0]); }
      }
      hide Strays, Written, Writable, Classify, Weight;
    }
  }

  lemma OneStray(entries: Entries, f: Found)
    ensures Strays(entries, [f]) == (if Known(entries, f) then [] else [f]) && Strays(entries, []) == []
    ensures Weight([f]) == 1 + Count(f.value, '%') && Weight([]) == 0
  {
    assert [f][..0] == [];
  }

  lemma {:induction false} StraysWritten(sections: set<string>, entries: Entries, lines: seq<string>)
    requires Writable(sections, entries)
    ensures var (was, written) := (Strays(entries, ScanLines(START, lines).found),
                               Strays(entries, AllWritten(entries, lines)));
      && (AllMarkable(entries, lines) ==> written == was)
      && Weight(written) <= Weight(was)
      && (!AllMarkable(entries, lines) ==> Weight(written) < Weight(was))
  {
    if lines != [] {
      var (init, last) := (lines[..|lines| - 1], lines[|lines| - 1]);
      assert lines == init + [last];
      StraysWritten(sections, entries, init);
      var section := SectionAt(init);
      var (was, written) := (ScanLines(START, init).found, AllWritten(entries, init));
      LineStrays(sections, entries, section, last);
      hide AllMarkable, Markable, ScanLines, AllWritten, Strays, Weight, Written, Assigned, SectionAt, Writable;
      OneLineMore(entries, init, last);
      StraysSum(entries, was, Assigned(section, last));
      StraysSum(entries, written, Written(entries, section, last));
      WeightSum(Strays(entries, was), Strays(entries, Assigned(section, last)));
      WeightSum(Strays(entries, written), Strays(entries, Written(entries, section, last)));
    }
  }

  /** What the program does not know is neither lost nor invented, exactly if no unknown assignment has
      a place marker of one of the numbers 0 to 2. */
  lemma StraysAreKept(sections: set<string>, entries: Entries, lines: seq<string>, found: seq<Found>)
    requires Writable(sections, entries) && Saved(sections, entries, lines, found)
    ensures multiset(Strays(entries, found)) == multiset(Strays(entries, ScanLines(START, lines).found))
      <==> AllMarkable(entries, lines)
  {
    var (was, written) := (ScanLines(START, lines).found, AllWritten(entries, lines));
    var added: seq<Found> :|
      multiset(added) == AllAdded(entries, Unsaved(entries, was)) && SameByPlace(written + added, found, sections);
    SameMultiset(written + added, found, sections);
    SameStrays(entries, written + added, found);
    StraysSum(entries, written, added);
    AddedAreRight(entries, Unsaved(entries, was), added);
    StraysWritten(sections, entries, lines);
    assert Strays(entries, written) + [] == Strays(entries, written);
    if multiset(Strays(entries, found)) == multiset(Strays(entries, was)) {
      SameWeight(Strays(entries, written), Strays(entries, was));
    }
  }
}

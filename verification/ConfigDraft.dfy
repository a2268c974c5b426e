/** The new text of a configuration file while it is being put together: one part for each known
    section, in the order of first writing, and one for everything under unknown headers. */
module ConfigDraft {
  import opened ConfigText
  import opened ConfigScan

  const UNUSED_SECTIONS := "### These sections " + "and their variables " + "were not used: ###" + "\n"

  /** What stands under unknown headers, as it is written. */
  function LostText(lost: string): string {
    "\n" + UNUSED_SECTIONS + Trim(lost) + "\n"
  }

  /** The section that is being copied; `Nowhere` stands for those the program does not know. */
  datatype Place = In(section: string) | Nowhere

  datatype Draft = Draft(place: Place, junk: string, order: seq<string>, data: map<Place, string>)
  {
    function Part(p: Place): string {
      if p in data then data[p] else ""
    }

    /** Appends the collected junk and `text` to the part of the current place. */
    function Write(text: string): Draft {
      Draft(place, "",
            if place.In? && place.section !in order then order + [place.section] else order,
            data[place := (if place.In? && place.section !in order then "" else Part(place)) + junk + text])
    }

    function Rendered(): string {
      Concat(order) + if Nowhere in data then LostText(data[Nowhere]) else ""
    }

    function Concat(sections: seq<string>): string {
      if sections == [] then "" else Concat(sections[..|sections| - 1]) + Part(In(sections[|sections| - 1]))
    }

    /** What a reader finds in a part. */
    function Yield(p: Place): Scan {
      ScanText(Part(p), if p.In? then p.section else GENERAL)
    }

    /** What a reader finds in the parts of the finished file that belong to a place. */
    function At(p: Place): seq<Found> {
      if p.In? && p.section !in order then [] else Yield(p).found
    }

    /** The section a reader would be in at the end of the current part. */
    function Section(): string {
      if place.In? then place.section else Yield(Nowhere).section
    }
  }

  /** A part of a known section: it leads into the section by itself, unless it comes first and the
      section is the one every file begins in. */
  ghost predicate PartFits(d: Draft, k: nat)
    requires k < |d.order|
  {
    var (s, part) := (d.order[k], d.Part(In(d.order[k])));
    && Whole(part) && ScanText(part, s).section == s && ScanText(part, s).modern
    && (Headed(part, s) || (k == 0 && s == GENERAL))
  }

  ghost predicate LostFits(d: Draft, known: set<string>) {
    Nowhere in d.data ==>
      && Whole(d.data[Nowhere]) && Headed(d.data[Nowhere], GENERAL)
      && d.Yield(Nowhere).modern && d.Yield(Nowhere).section !in known
  }

  ghost predicate Sorted(d: Draft, known: set<string>) {
    && Silent(d.junk)
    && (forall i, j | 0 <= i < j < |d.order| :: d.order[i] != d.order[j])
    && (forall s <- d.order :: s in known)
    && (forall k: nat | k < |d.order| :: PartFits(d, k))
    && LostFits(d, known)
  }

  /** Text may be written at the current place. */
  ghost predicate Placed(d: Draft, known: set<string>) {
    if d.place.In? then d.place.section in known
        && (d.place.section in d.order || (d.place.section == GENERAL && d.order == []))
    else Nowhere in d.data
  }

  // ---------- what is where ----------

  function Sent(f: Found, known: set<string>): Place {
    if f.section in known then In(f.section) else Nowhere
  }

  /** The assignments that belong to a place, in their order. */
  function Going(found: seq<Found>, p: Place, known: set<string>): seq<Found> {
    if found == [] then []
    else
      var (init, last) := (found[..|found| - 1], found[|found| - 1]);
      Going(init, p, known) + if Sent(last, known) == p then [last] else []
  }

  /** The draft has the assignments of `found`, each where it belongs. */
  ghost predicate Holds(d: Draft, found: seq<Found>, known: set<string>) {
    forall p :: d.At(p) == Going(found, p, known)
  }

  ghost predicate Gained(d: Draft, d': Draft, p: Place, more: seq<Found>) {
    d'.At(p) == d.At(p) + more && forall q | q != p :: d'.At(q) == d.At(q)
  }

  /** The same assignments, in the same order as far as they belong to the same place. */
  ghost predicate SameByPlace(a: seq<Found>, b: seq<Found>, known: set<string>) {
    forall p :: Going(a, p, known) == Going(b, p, known)
  }

  lemma {:induction false} GoingSum(a: seq<Found>, b: seq<Found>, p: Place, known: set<string>)
    ensures Going(a + b, p, known) == Going(a, p, known) + Going(b, p, known)
  {
    if b == [] {
      assert a + b == a;
    } else {
      assert (a + b)[..|a + b| - 1] == a + b[..|b| - 1];
      GoingSum(a, b[..|b| - 1], p, known);
    }
  }

  lemma {:induction false} GoingTogether(found: seq<Found>, p: Place, q: Place, known: set<string>)
    requires forall f <- found :: Sent(f, known) == p
    ensures Going(found, q, known) == if q == p then found else []
  {
    if found != [] {
      var (init, last) := (found[..|found| - 1], found[|found| - 1]);
      assert last in found && forall f <- init :: f in found;
      GoingTogether(init, p, q, known);
      assert found == init + [last];
    }
  }

  lemma {:induction false} GoingAreSent(found: seq<Found>, p: Place, known: set<string>)
    ensures forall f <- Going(found, p, known) :: Sent(f, known) == p
  {
    if found != [] { GoingAreSent(found[..|found| - 1], p, known); }
  }

  lemma HoldsMore(d: Draft, d': Draft, p: Place, found: seq<Found>, more: seq<Found>, known: set<string>)
    requires Holds(d, found, known) && Gained(d, d', p, more) && forall f <- more :: Sent(f, known) == p
    ensures Holds(d', found + more, known)
  {
    hide Going, Sent;
    forall q ensures d'.At(q) == Going(found + more, q, known) {
      GoingSum(found, more, q, known);
      GoingTogether(more, p, q, known);
    }
  }

  /** Both read alike, whatever is looked up. */
  lemma {:induction false} LookupGoing(found: seq<Found>, section: string, name: string, known: set<string>)
    ensures Lookup(Going(found, Sent(Found(section, name, ""), known), known), section, name)
         == Lookup(found, section, name)
  {
    var p := Sent(Found(section, name, ""), known);
    if found != [] {
      var (init, last) := (found[..|found| - 1], found[|found| - 1]);
      LookupGoing(init, section, name, known);
      LookupOneMore(Going(init, p, known), last, section, name);
      assert Sent(last, known) != p ==> Going(found, p, known) == Going(init, p, known);
    }
  }

  lemma SameLookup(a: seq<Found>, b: seq<Found>, known: set<string>, section: string, name: string)
    requires SameByPlace(a, b, known)
    ensures Lookup(a, section, name) == Lookup(b, section, name)
  {
    LookupGoing(a, section, name, known);
    LookupGoing(b, section, name, known);
  }

  lemma {:induction false} GoingCount(found: seq<Found>, f: Found, known: set<string>)
    ensures multiset(Going(found, Sent(f, known), known))[f] == multiset(found)[f]
  {
    if found != [] {
      var (init, last) := (found[..|found| - 1], found[|found| - 1]);
      GoingCount(init, f, known);
      assert found == init + [last];
    }
  }

  lemma SameMultiset(a: seq<Found>, b: seq<Found>, known: set<string>)
    requires SameByPlace(a, b, known)
    ensures multiset(a) == multiset(b)
  {
    forall f: Found ensures multiset(a)[f] == multiset(b)[f] {
      GoingCount(a, f, known);
      GoingCount(b, f, known);
    }
  }

  // ---------- writing ----------

  /** What is written at one place leaves the other parts as they are. */
  lemma OtherPartsFit(d: Draft, d': Draft, n: nat)
    requires n <= |d.order| && d.order <= d'.order
    requires forall k: nat | k < |d.order| && k != n :: d'.Part(In(d.order[k])) == d.Part(In(d.order[k]))
    requires forall k: nat | k < |d.order| :: PartFits(d, k)
    ensures forall k: nat | k < |d.order| && k != n :: PartFits(d', k)
  {
    forall k: nat | k < |d.order| && k != n ensures PartFits(d', k) { assert PartFits(d, k); }
  }

  lemma LostUntouched(d: Draft, d': Draft, known: set<string>)
    requires LostFits(d, known) && d'.Part(Nowhere) == d.Part(Nowhere) && (Nowhere in d'.data <==> Nowhere in d.data)
    ensures LostFits(d', known)
  {
  }

  lemma KnownReplaced(d: Draft, d': Draft, n: nat, more: seq<Found>, known: set<string>)
    requires Sorted(d, known) && n < |d.order| && d'.order == d.order && Silent(d'.junk) && PartFits(d', n)
    requires forall p | p != In(d.order[n]) :: d'.Part(p) == d.Part(p)
    requires Nowhere in d'.data <==> Nowhere in d.data
    requires d'.Yield(In(d.order[n])).found == d.Yield(In(d.order[n])).found + more
    ensures Sorted(d', known) && Gained(d, d', In(d.order[n]), more)
  {
    LostUntouched(d, d', known);
    GainedInPart(d, d', d.order[n], more);
    hide Silent, PartFits, LostFits, Draft.Yield, Gained;
    OtherPartsFit(d, d', n);
  }

  lemma GainedInPart(d: Draft, d': Draft, s: string, more: seq<Found>)
    requires s in d.order && d'.order == d.order && d'.Yield(In(s)).found == d.Yield(In(s)).found + more
    requires forall p | p != In(s) :: d'.Part(p) == d.Part(p)
    ensures Gained(d, d', In(s), more)
  {
    hide ScanText, Draft.Part;
  }

  lemma KnownAppended(d: Draft, n: nat, text: string, s: string)
    requires n < |d.order| && d.order[n] == s && d.place == In(s) && PartFits(d, n) && Silent(d.junk) && !Legacy(s)
    requires Whole(text) && ScanText(text, s).modern && ScanText(text, s).section == s
    ensures var d' := d.Write(text);
      PartFits(d', n) && d'.order == d.order && d'.Yield(In(s)).found == d.Yield(In(s)).found + ScanText(text, s).found
  {
    Continued(d.Part(d.place), d.junk, text, s);
  }

  lemma AppendKnown(d: Draft, text: string, known: set<string>)
    requires NoneLegacy(known) && Sorted(d, known) && Placed(d, known) && d.place.In? && d.place.section in d.order
    requires Whole(text) && ScanText(text, d.place.section).modern
        && ScanText(text, d.place.section).section == d.place.section
    ensures var d' := d.Write(text);
      Sorted(d', known) && Placed(d', known) && d'.order == d.order
      && Gained(d, d', d.place, ScanText(text, d.place.section).found)
  {
    var (s, d') := (d.place.section, d.Write(text));
    var n: nat :| n < |d.order| && d.order[n] == s;
    hide ScanText, Whole, LostFits, Headed;
    KnownAppended(d, n, text, s);
    NothingIsSilent();
    hide PartFits, Silent;
    KnownReplaced(d, d', n, ScanText(text, s).found, known);
  }

  /** Assignments before any header belong to the section that every file begins in. */
  lemma BeginGeneral(d: Draft, text: string, known: set<string>)
    requires NoneLegacy(known) && Sorted(d, known) && d.place == In(GENERAL) && d.order == []
    requires Whole(text) && ScanText(text, GENERAL).modern && ScanText(text, GENERAL).section == GENERAL
    ensures var d' := d.Write(text);
      Sorted(d', known) && Placed(d', known) && d'.order == [GENERAL]
      && Gained(d, d', d.place, ScanText(text, GENERAL).found)
  {
    var d' := d.Write(text);
    Continued("", d.junk, text, GENERAL);
    NothingIsSilent();
    assert d'.Part(In(GENERAL)) == "" + d.junk + text;
    hide Silent, Headed, ScanText;
    assert d'.Part(Nowhere) == d.Part(Nowhere);
  }

  /** The part under unknown headers is replaced; the others stay. */
  lemma LostReplaced(d: Draft, d': Draft, more: seq<Found>, known: set<string>)
    requires Sorted(d, known) && d'.order == d.order && Silent(d'.junk) && LostFits(d', known)
    requires forall p | p != Nowhere :: d'.Part(p) == d.Part(p)
    requires d'.Yield(Nowhere).found == d.Yield(Nowhere).found + more
    ensures Sorted(d', known) && Gained(d, d', Nowhere, more)
  {
    hide Silent, Headed, ScanText, Whole, PartFits, LostFits;
    OtherPartsFit(d, d', |d.order|);
  }

  lemma AppendLost(d: Draft, text: string, known: set<string>)
    requires NoneLegacy(known) && Sorted(d, known) && Placed(d, known) && d.place.Nowhere?
    requires Whole(text) && ScanText(text, d.Section()).modern && ScanText(text, d.Section()).section !in known
    ensures var d' := d.Write(text);
      Sorted(d', known) && Placed(d', known) && d'.order == d.order
      && d'.Section() == ScanText(text, d.Section()).section
      && Gained(d, d', Nowhere, ScanText(text, d.Section()).found)
  {
    var d' := d.Write(text);
    ModernSection(Scan(GENERAL, [], true), Lines(d.data[Nowhere]));
    Continued(d.data[Nowhere], d.junk, text, GENERAL);
    NothingIsSilent();
    assert LostFits(d', known);
    hide Silent, Headed, ScanText, Whole, PartFits, LostFits;
    LostReplaced(d, d', ScanText(text, d.Section()).found, known);
  }

  /** Lines that leave the reader in the section that is being copied. */
  lemma WriteMore(d: Draft, text: string, known: set<string>)
    requires NoneLegacy(known) && Sorted(d, known) && Placed(d, known)
    requires Whole(text) && ScanText(text, d.Section()).modern && ScanText(text, d.Section()).section == d.Section()
    ensures var d' := d.Write(text);
      Sorted(d', known) && Placed(d', known) && d'.place == d.place && d'.Section() == d.Section()
      && Gained(d, d', d.place, ScanText(text, d.Section()).found)
  {
    if d.place.Nowhere? { AppendLost(d, text, known); }
    else if d.place.section in d.order { AppendKnown(d, text, known); }
    else { BeginGeneral(d, text, known); }
  }

  lemma KnownAdded(d: Draft, d': Draft, s: string, known: set<string>)
    requires Sorted(d, known) && s in known && s !in d.order && d'.order == d.order + [s] && Silent(d'.junk)
    requires PartFits(d', |d.order|) && d'.Yield(In(s)).found == []
    requires forall p | p != In(s) :: d'.Part(p) == d.Part(p)
    requires Nowhere in d'.data <==> Nowhere in d.data
    ensures Sorted(d', known) && forall p :: d'.At(p) == d.At(p)
  {
    LostUntouched(d, d', known);
    hide Silent, PartFits, LostFits, ScanText;
    OtherPartsFit(d, d', |d.order|);
  }

  /** The first header of a known section. */
  lemma WriteHeader(d: Draft, line: string, s: string, known: set<string>)
    requires NoneLegacy(known) && Sorted(d, known) && d.place == In(s) && s in known && s !in d.order
    requires IsLine(line) && Classify(line) == Header(s)
    ensures var d' := d.Write(line);
      Sorted(d', known) && Placed(d', known) && d'.order == d.order + [s] && forall p :: d'.At(p) == d.At(p)
  {
    HeaderLeadsIn(d, line, s);
    NothingIsSilent();
    hide Silent, Headed, ScanText, Whole, IsLine, Classify, PartFits, LostFits;
    KnownAdded(d, d.Write(line), s, known);
  }

  lemma FirstWritten(d: Draft, text: string)
    requires d.place !in d.data || (d.place.In? && d.place.section !in d.order)
    ensures d.Write(text).Part(d.place) == d.junk + text && d.place in d.Write(text).data
  {
    assert "" + d.junk + text == d.junk + text;
  }

  lemma HeaderLeadsIn(d: Draft, line: string, s: string)
    requires Silent(d.junk) && d.place == In(s) && s !in d.order && !Legacy(s)
    requires IsLine(line) && Classify(line) == Header(s)
    ensures var d' := d.Write(line);
      d'.order == d.order + [s] && PartFits(d', |d.order|) && d'.Yield(In(s)).found == []
  {
    assert d.Write(line).order == d.order + [s];
    FirstWritten(d, line);
    hide Draft.Write, Draft.Part, ScanText;
    LedIn(d.junk, line, s);
    hide IsLine, Classify, Silent, Headed, Whole;
  }

  lemma FirstLostHeader(d: Draft, line: string, name: string, known: set<string>)
    requires Sorted(d, known) && d.place.Nowhere? && Nowhere !in d.data && name !in known && !Legacy(name)
    requires IsLine(line) && Classify(line) == Header(name)
    ensures var d' := d.Write(line);
      LostFits(d', known) && d'.Yield(Nowhere) == Scan(name, [], true) && d.Yield(Nowhere).found == []
  {
    assert Silent(d.junk);
    FirstWritten(d, line);
    NothingFound(d);
    hide Draft.Write, ScanText, Sorted;
    LedIn(d.junk, line, name);
    hide IsLine, Classify, Silent, Whole;
    assert ScanText(d.junk + line, GENERAL) == Scan(name, [], true);
  }

  lemma NothingFound(d: Draft)
    requires Nowhere !in d.data
    ensures d.Yield(Nowhere).found == []
  {
  }

  /** A header of a section that is not known. */
  lemma WriteLostHeader(d: Draft, line: string, name: string, known: set<string>)
    requires NoneLegacy(known) && Sorted(d, known) && d.place.Nowhere? && name !in known && !Legacy(name)
    requires IsLine(line) && Classify(line) == Header(name)
    ensures var d' := d.Write(line);
      Sorted(d', known) && Placed(d', known) && d'.Section() == name && d'.order == d.order
      && forall p :: d'.At(p) == d.At(p)
  {
    LineIsWhole(line);
    hide IsLine, Classify;
    if Nowhere in d.data {
      ScanOne(line, d.Section());
      hide Sorted, ScanText;
      AppendLost(d, line, known);
    } else {
      FirstLostHeader(d, line, name, known);
      NothingIsSilent();
      hide Silent, Headed, ScanText, Whole, PartFits, LostFits;
      LostReplaced(d, d.Write(line), [], known);
    }
  }

  /** Junk and place do not matter to what has been written. */
  lemma JunkOrPlace(d: Draft, d': Draft, known: set<string>)
    requires Sorted(d, known) && d' == d.(place := d'.place, junk := d'.junk) && Silent(d'.junk)
    ensures Sorted(d', known) && (forall p :: d'.At(p) == d.At(p)) && d'.Yield(Nowhere) == d.Yield(Nowhere)
    ensures d'.place == d.place && Placed(d, known) ==> Placed(d', known) && d'.Section() == d.Section()
  {
    LostUntouched(d, d', known);
    hide Silent, PartFits, LostFits, ScanText;
    OtherPartsFit(d, d', |d.order|);
  }

  lemma WriteTwice(d: Draft, a: string, b: string)
    ensures d.Write(a).Write(b) == d.Write(a + b)
  {
    var d' := d.Write(a).Write(b);
    assert d'.data[d.place] == d.Write(a + b).data[d.place];
  }

  // ---------- the finished text ----------

  /** One more part at the end of a text. */
  lemma OnePartMore(d: Draft, before: string, n: nat)
    requires n < |d.order| && PartFits(d, n) && !Legacy(d.order[n])
    requires Whole(before) && ScanText(before, GENERAL).modern && !Legacy(ScanText(before, GENERAL).section)
    requires n == 0 ==> before == ""
    ensures var (s, text) := (d.order[n], before + d.Part(In(d.order[n])));
      && Whole(text) && ScanText(text, GENERAL).modern && ScanText(text, GENERAL).section == s
      && ScanText(text, GENERAL).found == ScanText(before, GENERAL).found + d.Yield(In(s)).found
  {
    var part := d.Part(In(d.order[n]));
    ScanSum(before, part, GENERAL);
    assert ScanText(part, ScanText(before, GENERAL).section) == ScanText(part, d.order[n]);
  }

  /** What the parts hold, in the order of the parts. */
  function Gathered(d: Draft, sections: seq<string>): seq<Found> {
    if sections == [] then []
    else Gathered(d, sections[..|sections| - 1]) + d.Yield(In(sections[|sections| - 1])).found
  }

  lemma {:induction false} ConcatScans(d: Draft, n: nat, known: set<string>)
    requires NoneLegacy(known) && Sorted(d, known) && n <= |d.order|
    ensures var text := d.Concat(d.order[..n]);
      && Whole(text) && ScanText(text, GENERAL).modern && !Legacy(ScanText(text, GENERAL).section)
      && ScanText(text, GENERAL).found == Gathered(d, d.order[..n])
      && (n == 0 ==> text == "")
  {
    if n > 0 {
      ConcatScans(d, n - 1, known);
      assert d.order[..n][..n - 1] == d.order[..n - 1] && d.order[..n][n - 1] == d.order[n - 1];
      hide ScanText, Headed, PartFits, Whole;
      assert d.order[n - 1] in known;
      OnePartMore(d, d.Concat(d.order[..n - 1]), n - 1);
    }
  }

  lemma LostScans(lost: string, c: string)
    requires Whole(lost) && Headed(lost, GENERAL) && ScanText(lost, GENERAL).modern && !Legacy(c)
    ensures var text := "\n" + UNUSED_SECTIONS + Trim(lost) + "\n";
      Whole(text) && ScanText(text, c).found == ScanText(lost, GENERAL).found && ScanText(text, c).modern
  {
    var (title, rest) := ("\n" + UNUSED_SECTIONS, Trim(lost) + "\n");
    TitleIsSilent();
    TrimmedPartScans(lost, c);
    assert title + rest == "\n" + UNUSED_SECTIONS + Trim(lost) + "\n";
    assert Whole(title + rest);
    assert ScanText(title, c) == Scan(c, [], true) && ScanText(lost, c) == ScanText(lost, GENERAL);
    hide ScanText, Silent, Headed;
    ScanSum(title, rest, c);
  }

  lemma TitleIsSilent()
    ensures Silent("\n" + UNUSED_SECTIONS)
  {
    BlankLine("\n");
    SilentLine("\n");
    UnusedSectionsIsSilent();
    SilentSum("\n", UNUSED_SECTIONS);
  }

  lemma UnusedSectionsIsSilent()
    ensures Silent(UNUSED_SECTIONS)
  {
    var (a, b, c) := ("### These sections ", "and their variables ", "were not used: ###");
    assert a[0] == '#' && '\n' !in a && '\n' !in b && '\n' !in c;
    RemarkIsSilent(a + b + c);
  }

  lemma RemarkIsSilent(title: string)
    requires title != "" && title[0] == '#' && '\n' !in title
    ensures Silent(title + "\n")
  {
    var line := title + "\n";
    CommentLine(line[1..]);
    assert line == "#" + line[1..] && line[..|title|] == title;
    SilentLine(line);
  }

  lemma LostPart(d: Draft, known: set<string>)
    requires NoneLegacy(known) && Sorted(d, known) && Nowhere in d.data
    ensures Whole(d.Rendered()) && ScanText(d.Rendered(), GENERAL).modern
    ensures Contents(d.Rendered()) == Gathered(d, d.order) + d.At(Nowhere)
  {
    ConcatScans(d, |d.order|, known);
    assert d.order[..|d.order|] == d.order;
    var (text, lost) := (d.Concat(d.order), "\n" + UNUSED_SECTIONS + Trim(d.data[Nowhere]) + "\n");
    LostScans(d.data[Nowhere], ScanText(text, GENERAL).section);
    ScanSum(text, lost, GENERAL);
  }

  lemma RenderedIs(d: Draft, known: set<string>)
    requires NoneLegacy(known) && Sorted(d, known)
    ensures Whole(d.Rendered()) && ScanText(d.Rendered(), GENERAL).modern
    ensures Contents(d.Rendered()) == Gathered(d, d.order) + d.At(Nowhere)
  {
    if Nowhere in d.data {
      LostPart(d, known);
    } else {
      ConcatScans(d, |d.order|, known);
      assert d.order[..|d.order|] == d.order;
      assert d.At(Nowhere) == [];
      assert d.Concat(d.order) + "" == d.Concat(d.order);
    }
  }

  /** Gathering the parts leaves the assignments of each place together and in their order. */
  lemma {:induction false} GoingGathered(d: Draft, n: nat, found: seq<Found>, known: set<string>, p: Place)
    requires Holds(d, found, known) && n <= |d.order| && (forall s <- d.order :: s in known)
    requires forall i, j | 0 <= i < j < |d.order| :: d.order[i] != d.order[j]
    ensures Going(Gathered(d, d.order[..n]), p, known) == if p.In? && p.section in d.order[..n] then d.At(p) else []
  {
    if n > 0 {
      var (q, init) := (In(d.order[n - 1]), d.order[..n - 1]);
      assert d.order[..n] == init + [d.order[n - 1]];
      GoingGathered(d, n - 1, found, known, p);
      OneGatheredMore(d, init, d.order[n - 1], found, known, p);
      assert d.order[n - 1] !in init;
    }
  }

  lemma OneGatheredMore(d: Draft, init: seq<string>, s: string, found: seq<Found>, known: set<string>, p: Place)
    requires Holds(d, found, known) && s in d.order && s in known
    ensures Going(Gathered(d, init + [s]), p, known)
         == Going(Gathered(d, init), p, known) + if p == In(s) then d.At(p) else []
  {
    var q := In(s);
    assert Gathered(d, init + [s]) == Gathered(d, init) + d.At(q) by {
      hide ScanText, Going;
      assert (init + [s])[..|init|] == init;
    }
    GoingAreSent(found, q, known);
    hide Gathered, Going, Sent;
    GoingSum(Gathered(d, init), d.At(q), p, known);
    GoingTogether(d.At(q), q, p, known);
  }

  /** A reader finds in the finished text exactly what the draft holds: place by place in the same
      order, and nothing else. */
  lemma RenderedScans(d: Draft, found: seq<Found>, known: set<string>)
    requires NoneLegacy(known) && Sorted(d, known) && Holds(d, found, known)
    ensures Whole(d.Rendered()) && ScanText(d.Rendered(), GENERAL).modern
    ensures SameByPlace(found, Contents(d.Rendered()), known)
  {
    RenderedIs(d, known);
    assert d.order[..|d.order|] == d.order;
    hide Silent, PartFits, LostFits, Sent, ScanText, Contents;
    forall p ensures Going(Contents(d.Rendered()), p, known) == Going(found, p, known) {
      GoingGathered(d, |d.order|, found, known, p);
      GoingSum(Gathered(d, d.order), d.At(Nowhere), p, known);
      GoingAreSent(found, Nowhere, known);
      GoingTogether(d.At(Nowhere), Nowhere, p, known);
    }
  }

  // ---------- texts that are kept ----------

  ghost predicate Within(x: string, text: string) {
    exists a, b :: text == a + x + b
  }

  lemma WithinSum(x: string, a: string, text: string, b: string)
    requires Within(x, text)
    ensures Within(x, a + text + b)
  {
    var before, after :| text == before + x + after;
    assert a + text + b == (a + before) + x + (after + b);
  }

  /** Trimming a text takes nothing from what stands in it but spaces at the ends. */
  lemma WithinTrimmed(x: string, text: string)
    requires Within(x, text)
    ensures Within(Trim(x), Trim(text))
  {
    TrimmedWithin(x, text);
    var (t, all) := (Trim(x), Trim(text));
    if t == "" {
      assert all == "" + t + all;
    } else {
      var i, j := TrimSplits(x);
      var before, after :| text == before + t + after;
      MiddleStays(before, t, after);
    }
  }

  lemma MiddleStays(before: string, t: string, after: string)
    requires t != "" && Trimmed(t)
    ensures Within(t, Trim(before + t + after))
  {
    var i := TrimLeftSplits(before);
    var j := TrimRightSplits(after);
    var middle := before[i..] + t + after[..j];
    assert Trimmed(middle) by {
      assert middle[0] == if i < |before| then before[i] else t[0];
      assert middle[|middle| - 1] == if j > 0 then after[j - 1] else t[|t| - 1];
    }
    TrimUnique(before[..i], middle, after[j..]);
    Halves(before, i);
    Halves(after, j);
    Nested(before[..i], before[i..], t, after[..j], after[j..]);
  }

  lemma Halves(s: string, i: nat)
    requires i <= |s|
    ensures s == s[..i] + s[i..]
  {
  }

  lemma Nested(a: string, b: string, t: string, c: string, d: string)
    ensures (a + b) + t + (c + d) == a + (b + t + c) + d
    ensures Within(t, (a + b) + t + (c + d))
  {
  }

  lemma TrimmedWithin(x: string, text: string)
    requires Within(x, text)
    ensures Within(Trim(x), text)
  {
    var i, j := TrimSplits(x);
    var before, after :| text == before + x + after;
    assert x == x[..i] + Trim(x) + x[j..];
    Nested(before, x[..i], Trim(x), x[j..], after);
  }

  /** A text stands in a part that will be in the file. */
  ghost predicate InParts(d: Draft, x: string) {
    exists p <- d.data :: (p.In? ==> p.section in d.order) && Within(x, d.data[p])
  }

  /** A text has not been lost so far: it is in a part, or will go into one with the next line written. */
  ghost predicate Keeps(d: Draft, x: string) {
    InParts(d, x) || Within(x, d.junk)
  }

  lemma WriteKeeps(d: Draft, text: string, x: string)
    requires Keeps(d, x)
    ensures InParts(d.Write(text), x)
  {
    var (d', p) := (d.Write(text), d.place);
    var part := if p.In? && p.section !in d.order then "" else d.Part(p);
    assert d'.data[p] == part + d.junk + text;
    if Within(x, d.junk) {
      WithinSum(x, part, d.junk, text);
    } else {
      var q :| q in d.data && (q.In? ==> q.section in d.order) && Within(x, d.data[q]);
      if q == p {
        WithinSum(x, "", part, d.junk + text);
        assert "" + part + (d.junk + text) == part + d.junk + text;
      }
      assert q in d'.data;
    }
  }

  lemma {:induction false} ConcatHas(d: Draft, sections: seq<string>, s: string, x: string)
    requires s in sections && Within(x, d.Part(In(s)))
    ensures Within(x, d.Concat(sections))
  {
    var (init, last) := (sections[..|sections| - 1], sections[|sections| - 1]);
    assert sections == init + [last] && d.Concat(sections) == d.Concat(init) + d.Part(In(last));
    hide Draft.Concat, Draft.Part, Within;
    if last == s {
      Behind(x, d.Concat(init), d.Part(In(s)));
    } else {
      ConcatHas(d, init, s, x);
      InFront(x, d.Concat(init), d.Part(In(last)));
    }
  }

  /** What is in a part is in the file, but for spaces around it. */
  lemma RenderedHas(d: Draft, x: string)
    requires InParts(d, x)
    ensures Within(Trim(x), d.Rendered())
  {
    var p :| p in d.data && (p.In? ==> p.section in d.order) && Within(x, d.data[p]);
    if p.In? {
      ConcatHas(d, d.order, p.section, x);
      TrimmedWithin(x, d.Concat(d.order));
      InFront(Trim(x), d.Concat(d.order), if Nowhere in d.data then LostText(d.data[Nowhere]) else "");
    } else {
      WithinTrimmed(x, d.data[Nowhere]);
      WithinSum(Trim(x), "\n" + UNUSED_SECTIONS, Trim(d.data[Nowhere]), "\n");
      Behind(Trim(x), d.Concat(d.order), LostText(d.data[Nowhere]));
    }
  }

  lemma InFront(x: string, text: string, rest: string)
    requires Within(x, text)
    ensures Within(x, text + rest)
  {
    WithinSum(x, "", text, rest);
    assert "" + text + rest == text + rest;
  }

  lemma Behind(x: string, before: string, text: string)
    requires Within(x, text)
    ensures Within(x, before + text)
  {
    WithinSum(x, before, text, "");
    assert before + text + "" == before + text;
  }
}

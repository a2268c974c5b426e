/** The lines that save writes, filled into their templates as the program does it, and what a reader
    makes of them. */
module ConfigLines {
  import opened ConfigText
  import opened ConfigScan
  import opened ConfigValue
  import opened PlaceMarkers

  const UNUSED_VARIABLE := "# Unused variable"

  /** An assignment whose value is not the one in the file. */
  function Rewritten(name: string, value: string, comment: string): string {
    Arg(Arg(Arg("%1=%2 %3\n", name), value), comment)
  }

  /** An assignment to a variable that is not known. */
  function Marked(bare: string): string {
    Arg(Arg("%1 %2\n", bare), UNUSED_VARIABLE)
  }

  // ---------- filling in ----------

  /** A marker, and text after it. */
  function Mark(c: char, rest: string): string {
    "%" + [c] + rest
  }

  lemma MarkerInFront(c: char, rest: string, n: nat, a: string)
    requires IsDigit(c) && Separates(rest)
    ensures Lowest(Mark(c, rest)) == Min(Digit(c), Lowest(rest))
    ensures n == Digit(c) ==> Replace(Mark(c, rest), n, a) == a + Replace(rest, n, a)
    ensures n != Digit(c) ==> Replace(Mark(c, rest), n, a) == Mark(c, Replace(rest, n, a))
  {
    var s := Mark(c, rest);
    assert s[0] == '%' && s[1] == c && s[2..] == rest && s[..2] == "%" + [c];
    assert MarkerOf(s) == Marker(2, Digit(c));
  }

  /** The marker `%c` is filled in if all others have higher numbers. */
  lemma FilledIn(before: string, c: char, rest: string, a: string)
    requires IsDigit(c) && Separates(rest) && Digit(c) < Lowest(before) && Digit(c) < Lowest(rest)
    ensures Arg(before + Mark(c, rest), a) == before + a + rest
  {
    var (m, n) := (Mark(c, rest), Digit(c));
    assert Lowest(m) == n && Replace(m, n, a) == a + rest by {
      MarkerInFront(c, rest, n, a);
      NothingReplaced(rest, n, a);
    }
    assert Separates(m) by { assert m[0] == '%'; }
    NothingReplaced(before, n, a);
    hide Mark, Lowest, Replace, Digit, Separates;
    LowestOfSum(before, m);
    ReplaceOfSum(before, m, n, a);
    Regroup(before, a, rest);
  }

  /** A marker between two texts without any. */
  lemma OnlyMarker(a: string, c: char, b: string)
    requires IsDigit(c) && '%' !in a && '%' !in b && Separates(b)
    ensures Lowest(a + Mark(c, b)) == Digit(c)
  {
    PlainText(a);
    PlainText(b);
    MarkerInFront(c, b, 0, "");
    LowestOfSum(a, Mark(c, b));
  }

  lemma OnlyMarkerReplaced(a: string, c: char, b: string, n: nat, x: string)
    requires IsDigit(c) && '%' !in a && '%' !in b && Separates(b) && n <= Digit(c)
    ensures Replace(a + Mark(c, b), n, x) == if n == Digit(c) then a + x + b else a + Mark(c, b)
  {
    OnlyMarker(a, c, b);
    PlainText(a);
    PlainText(b);
    NothingReplaced(a, n, x);
    NothingReplaced(b, n, x);
    MarkerInFront(c, b, n, x);
    ReplaceOfSum(a, Mark(c, b), n, x);
    Regroup(a, x, b);
  }

  /** The last argument: markers in front of its own that have a lower number, or the same, get it. */
  lemma LastArg(front: string, a: string, c: char, b: string, x: string)
    requires IsDigit(c) && '%' !in a && '%' !in b && Separates(a) && Separates(b) && a != ""
    ensures var (n, d) := (Lowest(front), Digit(c));
      Arg(front + (a + Mark(c, b)), x) ==
        if n > d then front + (a + x + b)
        else Replace(front, n, x) + (if n == d then a + x + b else a + Mark(c, b))
  {
    var (n, rest) := (Lowest(front), a + Mark(c, b));
    OnlyMarker(a, c, b);
    assert Separates(rest) by { assert rest[0] == a[0]; }
    var m := Min(n, Digit(c));
    OnlyMarkerReplaced(a, c, b, m, x);
    hide Mark, Separates, Replace, Lowest, Digit;
    LowestOfSum(front, rest);
    ReplaceOfSum(front, rest, m, x);
    if n > Digit(c) { NothingReplaced(front, m, x); }
  }

  lemma {:induction false} NoMarkerInFront(a: string, b: string, n: nat, x: string)
    requires '%' !in a
    ensures Lowest(a + b) == Lowest(b) && Replace(a + b, n, x) == a + Replace(b, n, x)
  {
    if a == "" {
      assert a + b == b && "" + Replace(b, n, x) == Replace(b, n, x);
    } else {
      assert (a + b)[1..] == a[1..] + b && (a + b)[0] == a[0];
      assert forall c <- a[1..] :: c in a;
      NoMarkerInFront(a[1..], b, n, x);
      assert (a + b)[..1] == [a[0]] && a == [a[0]] + a[1..];
      Regroup([a[0]], a[1..], Replace(b, n, x));
    }
  }

  /** A marker that the template begins with. */
  lemma FirstArg(c: char, rest: string, a: string)
    requires IsDigit(c) && Separates(rest) && Digit(c) < Lowest(rest)
    ensures Arg(Mark(c, rest), a) == a + rest
  {
    hide Mark, Lowest, Replace, Digit, Separates;
    MarkerInFront(c, rest, Digit(c), a);
    NothingReplaced(rest, Digit(c), a);
  }

  lemma AfterName(equals: string, tail: string)
    requires equals == "=" && Separates(tail) && Lowest(tail) > 2
    ensures Separates(equals + Mark('2', tail)) && Lowest(equals + Mark('2', tail)) == 2
  {
    assert (equals + Mark('2', tail))[0] == '=';
    PlainText(equals);
    MarkerInFront('2', tail, 0, "");
    LowestOfSum(equals, Mark('2', tail));
  }

  /** Name and value are filled in where they belong; `tail` is what follows them in the template. */
  lemma NameAndValue(name: string, value: string, tail: string)
    requires '%' !in name && Separates(tail) && Lowest(tail) > 2
    ensures Arg(Arg(Mark('1', "=" + Mark('2', tail)), name), value) == name + "=" + value + tail
  {
    var equals := "=";
    AfterName(equals, tail);
    PlainText(name + equals);
    assert Digit('1') == 1 && Digit('2') == 2;
    hide Mark, Lowest, Digit, Separates, Arg;
    FirstArg('1', equals + Mark('2', tail), name);
    Regroup(name, equals, Mark('2', tail));
    FilledIn(name + equals, '2', tail, value);
  }

  lemma RewrittenTemplate()
    ensures "%1=%2 %3\n" == Mark('1', "=" + Mark('2', " " + Mark('3', "\n")))
  {
  }

  /** The line as it comes out: with a marker numbered up to 3 in it, the value gets the comment, and
      the comment's own marker may stay. */
  lemma RewrittenIs(name: string, value: string, comment: string)
    requires '%' !in name
    ensures var (n, open) := (Lowest(value), name + "=");
      Rewritten(name, value, comment) ==
        if n > 3 then open + value + (" " + comment + "\n")
        else open + Replace(value, n, comment) + (if n == 3 then " " + comment + "\n" else " " + Mark('3', "\n"))
  {
    var (n, open, tail) := (Lowest(value), name + "=", " " + Mark('3', "\n"));
    RewrittenTemplate();
    OnlyMarker(" ", '3', "\n");
    assert tail[0] == ' ' && Separates(tail) && Separates(" ") && Separates("\n") && Digit('3') == 3;
    hide Mark, Separates, Digit, Lowest, Replace, Arg;
    NameAndValue(name, value, tail);
    LastArg(open + value, " ", '3', "\n", comment);
    NoMarkerInFront(open, value, n, comment);
  }

  lemma MarkedTemplate()
    ensures "%1 %2\n" == Mark('1', " " + Mark('2', "\n"))
  {
  }

  /** Likewise for the line of an unknown variable, with markers numbered up to 2 in it. */
  lemma MarkedIs(bare: string)
    ensures var n := Lowest(bare);
      Marked(bare) ==
        if n > 2 then bare + (" " + UNUSED_VARIABLE + "\n")
        else Replace(bare, n, UNUSED_VARIABLE) + (if n == 2 then " " + UNUSED_VARIABLE + "\n"
               else " " + Mark('2', "\n"))
  {
    MarkedWith(bare, UNUSED_VARIABLE);
  }

  lemma MarkedWith(bare: string, x: string)
    ensures var n := Lowest(bare);
      Arg(Arg("%1 %2\n", bare), x) ==
        if n > 2 then bare + (" " + x + "\n")
        else Replace(bare, n, x) + (if n == 2 then " " + x + "\n" else " " + Mark('2', "\n"))
  {
    assert Separates(" ") && Separates("\n") && Digit('2') == 2;
    MarkedTemplate();
    BareFilledIn(bare);
    hide Mark, Separates, Digit, Lowest, Replace, Arg;
    LastArg(bare, " ", '2', "\n", x);
  }

  lemma BareFilledIn(bare: string)
    ensures Arg(Mark('1', " " + Mark('2', "\n")), bare) == bare + (" " + Mark('2', "\n"))
  {
    var tail := " " + Mark('2', "\n");
    assert Separates(tail) by { assert tail[0] == ' '; }
    OnlyMarker(" ", '2', "\n");
    assert Digit('1') == 1 && Digit('2') == 2;
    FirstArg('1', tail, bare);
  }

  // ---------- what a reader makes of the lines ----------

  /** Whatever stands behind the `=` is read without its comment. */
  lemma AnyValueRead(name: string, y: string)
    requires Key(name)
    ensures Classify(name + "=" + y) == Assignment(name, WithoutComment(y))
  {
    var (v, comment) := (y[..Find(y, '#')], y[Find(y, '#')..]);
    assert v + comment == y && name + "=" + y == (name + "=" + v) + comment;
    CommentBehind(v, comment);
    CommentBehind(name + "=" + v, comment);
    hide WithoutComment, Find, Trim, MeaningOf;
    AssignmentTrimmed(name + "=" + v);
    EqualsSplits(name, v);
    TrimOfTrimmed(name);
  }

  /** A text that a comment has been put into ends there. */
  lemma CommentInside(s: string, k: nat, comment: string, rest: string)
    requires k <= |s| && '#' !in s && comment != "" && comment[0] == '#'
    ensures WithoutComment(s[..k] + comment + rest) == Trim(s[..k])
  {
    Regroup(s[..k], comment, rest);
    CommentBehind(s[..k], comment + rest);
  }

  lemma ValueGivenComment(value: string, comment: string, tail: string)
    requires Plain(value) && Lowest(value) < 10 && comment != "" && comment[0] == '#'
    ensures var d := DigitChar(Lowest(value));
      Count(WithoutComment(Replace(value, Lowest(value), comment) + tail), d) < Count(value, d)
  {
    var k, rest := FirstReplaced(value, Lowest(value), comment);
    Regroup(value[..k] + comment, rest, tail);
    CommentInside(value, k, comment, rest + tail);
    CountOfTrim(value[..k], DigitChar(Lowest(value)));
  }

  lemma ValueGivenNothing(value: string, tail: string)
    requires Plain(value) && Lowest(value) < 10 && '#' !in tail && DigitChar(Lowest(value)) !in tail
    ensures var d := DigitChar(Lowest(value));
      Count(WithoutComment(Replace(value, Lowest(value), "") + tail), d) < Count(value, d)
  {
    var (n, y) := (Lowest(value), Replace(value, Lowest(value), ""));
    var d := DigitChar(n);
    ReplaceBringsNothing(value, n, "", '#');
    ReplacedByNothing(value, n);
    CountIn(tail, d);
    CountOfSum(y, tail, d);
    NoComment(y + tail);
    CountOfTrim(y + tail, d);
  }

  lemma UnmarkedReads(name: string, value: string, comment: string)
    requires Key(name) && '%' !in name && Plain(value) && IsComment(comment) && Lowest(value) > 3
    ensures Classify(Rewritten(name, value, comment)) == Assignment(name, value)
  {
    var tail := " " + comment + "\n";
    RewrittenIs(name, value, comment);
    SpacesThenComment(" ", comment);
    WithoutCommentOf(value, tail);
    hide Rewritten, WithoutComment, Classify, Lowest;
    AnyValueRead(name, value + tail);
    Regroup(name + "=", value, tail);
  }

  lemma MarkerReads(name: string, value: string, comment: string) returns (w: string)
    requires Key(name) && '%' !in name && Plain(value) && IsComment(comment) && Lowest(value) <= 3
    ensures Classify(Rewritten(name, value, comment)) == Assignment(name, w)
    ensures Count(w, DigitChar(Lowest(value))) < Count(value, DigitChar(Lowest(value)))
  {
    var n := Lowest(value);
    var tail := if n == 3 then " " + comment + "\n" else " " + Mark('3', "\n");
    RewrittenIs(name, value, comment);
    if comment == "" {
      NothingInTail(n, tail);
      ValueGivenNothing(value, tail);
    } else {
      ValueGivenComment(value, comment, tail);
    }
    hide Rewritten, WithoutComment, Classify, Lowest, Replace, Count, Mark, DigitChar;
    AnyValueRead(name, Replace(value, n, comment) + tail);
    Regroup(name + "=", Replace(value, n, comment), tail);
    w := WithoutComment(Replace(value, n, comment) + tail);
  }

  lemma NothingInTail(n: nat, tail: string)
    requires n <= 3 && tail == if n == 3 then " " + "" + "\n" else " " + Mark('3', "\n")
    ensures '#' !in tail && DigitChar(n) !in tail
  {
  }

  /** A rewritten value is read back if no marker in it has one of the numbers 0 to 3, and otherwise
      it has fewer such numbers in it than before. */
  lemma RewrittenReads(name: string, value: string, comment: string) returns (w: string)
    requires Key(name) && '%' !in name && Plain(value) && IsComment(comment)
    ensures Classify(Rewritten(name, value, comment)) == Assignment(name, w)
    ensures Lowest(value) > 3 ==> w == value
    ensures Lowest(value) <= 3 ==> Count(w, DigitChar(Lowest(value))) < Count(value, DigitChar(Lowest(value)))
  {
    if Lowest(value) > 3 {
      UnmarkedReads(name, value, comment);
      w := value;
    } else {
      w := MarkerReads(name, value, comment);
    }
  }

  lemma LineBehind(a: string, line: string)
    requires '\n' !in a && IsLine(line)
    ensures IsLine(a + line)
  {
    assert (a + line)[..|a + line| - 1] == a + line[..|line| - 1];
  }

  lemma NewlineBehind(a: string)
    requires '\n' !in a
    ensures IsLine(a + "\n")
  {
    assert (a + "\n")[..|a|] == a;
  }

  lemma TailIsLine(text: string, c: char)
    requires '\n' !in text && IsDigit(c)
    ensures IsLine(" " + text + "\n") && IsLine(" " + Mark(c, "\n"))
  {
    NewlineBehind(" " + text);
    NewlineBehind(" " + ("%" + [c]));
    assert " " + Mark(c, "\n") == " " + ("%" + [c]) + "\n";
  }

  lemma RewrittenIsLine(name: string, value: string, comment: string)
    requires '%' !in name && '\n' !in name && '\n' !in value && '\n' !in comment
    ensures IsLine(Rewritten(name, value, comment))
  {
    var (n, open) := (Lowest(value), name + "=");
    assert '\n' !in open;
    ReplaceBringsNothing(value, n, comment, '\n');
    TailIsLine(comment, '3');
    hide IsLine, Lowest, Replace, Mark, Rewritten;
    RewrittenIs(name, value, comment);
    var tail := if n >= 3 then " " + comment + "\n" else " " + Mark('3', "\n");
    LineBehind(open + (if n > 3 then value else Replace(value, n, comment)), tail);
  }

  /** What becomes of an unknown assignment: with a marker of one of the numbers 0 to 2 in it, at
      best a part of its value is left. */
  lemma MarkedReads(bare: string)
    requires Trimmed(bare) && '#' !in bare && MeaningOf(bare).Assignment?
    ensures Lowest(bare) > 2 ==> Classify(Marked(bare)) == MeaningOf(bare)
    ensures Lowest(bare) <= 2 && Classify(Marked(bare)).Assignment? ==>
      && Classify(Marked(bare)).name == MeaningOf(bare).name
      && Count(Classify(Marked(bare)).value, '%') < Count(MeaningOf(bare).value, '%')
  {
    var (n, x) := (Lowest(bare), UNUSED_VARIABLE);
    MarkedIs(bare);
    assert x != "" && x[0] == '#' && IsComment(x);
    if n > 2 {
      SpacesThenComment(" ", x);
      WithoutCommentOf(bare, " " + x + "\n");
    } else {
      var tail := if n == 2 then " " + x + "\n" else " " + Mark('2', "\n");
      var k, rest := FirstReplaced(bare, n, x);
      Regroup(bare[..k] + x, rest, tail);
      CommentInside(bare, k, x, rest + tail);
      CutOff(bare, k);
    }
  }

  /** What an assignment is that is cut off at a `%`. */
  lemma CutOff(bare: string, k: nat)
    requires MeaningOf(bare).Assignment? && k < |bare| && bare[k] == '%'
    ensures var m := MeaningOf(Trim(bare[..k]));
      m.Assignment? ==> m.name == MeaningOf(bare).name && Count(m.value, '%') < Count(MeaningOf(bare).value, '%')
  {
    var (e, t) := (Find(bare, '='), bare[..k]);
    if e < k {
      var (name, v) := (bare[..e], bare[e + 1..]);
      assert t == name + "=" + v[..k - e - 1];
      AssignmentTrimmed(t);
      EqualsSplits(name, v[..k - e - 1]);
      ValueCutOff(v, k - e - 1);
    } else {
      assert forall c <- t :: c in bare[..e];
      NoAssignment(t);
    }
  }

  lemma NoAssignment(t: string)
    requires '=' !in t
    ensures !MeaningOf(Trim(t)).Assignment?
  {
    NoEquals(t);
  }

  lemma ValueCutOff(v: string, k: nat)
    requires k < |v| && v[k] == '%'
    ensures Count(Trim(v[..k]), '%') < Count(Trim(v), '%')
  {
    CountOfPrefix(v, k, '%');
    assert v[k..][0] == '%';
    CountIn(v[k..], '%');
    CountOfTrim(v, '%');
    CountOfTrim(v[..k], '%');
  }

  lemma MarkedIsLine(bare: string)
    requires '\n' !in bare
    ensures IsLine(Marked(bare))
  {
    var (n, x) := (Lowest(bare), UNUSED_VARIABLE);
    assert '\n' !in x;
    ReplaceBringsNothing(bare, n, x, '\n');
    TailIsLine(x, '2');
    hide IsLine, Lowest, Replace, Mark, Marked;
    MarkedIs(bare);
    LineBehind(if n > 2 then bare else Replace(bare, n, x), if n >= 2 then " " + x + "\n" else " " + Mark('2', "\n"));
  }

  // ---------- values ----------

  lemma {:induction false} CountOfParts(s: string, d: char)
    requires !IsSpace(d) && d != ','
    ensures Count(Join(Parts(s)), d) == Count(s, d)
    decreases |s|
  {
    var k := Find(s, ',');
    var piece := s[..k];
    if k == |s| {
      assert piece == s;
      LastPiece(piece);
      CountOfTrim(piece, d);
    } else {
      var rest := s[k + 1..];
      CountOfParts(rest, d);
      hide Parts, Join, Count, Find, IsSpace;
      AroundComma(s, k);
      CountOfTwo(piece, rest, d);
    }
  }

  lemma CountOfTwo(piece: string, rest: string, d: char)
    requires ',' !in piece && !IsSpace(d) && d != ',' && Count(Join(Parts(rest)), d) == Count(rest, d)
    ensures Count(Join(Parts(piece + "," + rest)), d) == Count(piece + "," + rest, d)
  {
    CountOfTrim(piece, d);
    NoneInComma(d);
    hide Parts, Join, Count, Trim, IsSpace;
    PieceInFront(piece, rest);
    CountOfSum(piece + ",", rest, d);
    CountOfSum(piece, ",", d);
    if Trim(piece) != "" {
      CountOfJoin(Trim(piece), Parts(rest), d);
    } else {
      NothingInFront(Parts(rest));
    }
  }

  lemma NoneInComma(d: char)
    requires d != ','
    ensures Count(",", d) == 0 && Count("", d) == 0
  {
    assert ","[1..] == "" && ","[0] == ',';
  }

  lemma AroundComma(s: string, k: nat)
    requires k < |s| && s[k] == ','
    ensures s == s[..k] + "," + s[k + 1..]
  {
  }

  lemma NothingInFront(items: seq<string>)
    ensures [] + items == items
  {
  }

  lemma CountOfJoin(part: string, items: seq<string>, d: char)
    requires d != ','
    ensures Count(Join([part] + items), d) == Count(part, d) + Count(Join(items), d)
  {
    assert ([part] + items)[1..] == items;
    if items != [] {
      assert Join([part] + items) == part + ("," + Join(items));
      CountOfSum(part, "," + Join(items), d);
    }
  }

  /** A text in which a character is missing is not read as the value. */
  lemma CharacterLost(v: Value, w: string, d: char)
    requires Printable(v) && (v.Text? || v.Items?) && !IsSpace(d) && d != ',' && Count(w, d) < Count(Print(v), d)
    ensures Parse(v, w) != v
  {
    if v.Text? { CountOfTrim(w, d); } else { CountOfParts(w, d); }
  }

  lemma NoMarkers(v: Value)
    requires v.Flag? || v.Number?
    ensures Lowest(Print(v)) == NO_NUMBER
  {
    if v.Number? { DigitsAreDigits(if v.n < 0 then -v.n else v.n); }
    PlainText(Print(v));
  }

  /** A rewritten value is read back if and only if no marker in its text has one of the numbers 0 to 3. */
  lemma ValueRewritten(name: string, v: Value, comment: string) returns (w: string)
    requires Key(name) && '%' !in name && Printable(v) && IsComment(comment)
    ensures Classify(Rewritten(name, Print(v), comment)) == Assignment(name, w)
    ensures w == Print(v) <==> Lowest(Print(v)) > 3
    ensures Parse(v, w) == v <==> Lowest(Print(v)) > 3
  {
    PrintedReadsBack(v);
    w := RewrittenReads(name, Print(v), comment);
    if Lowest(Print(v)) <= 3 {
      if v.Flag? || v.Number? { NoMarkers(v); }
      CharacterLost(v, w, DigitChar(Lowest(Print(v))));
    }
  }

  lemma PlainMark(v: string)
    requires Plain(v) && v != ""
    ensures Plain(Mark('1', v))
  {
    var s := Mark('1', v);
    assert s[0] == '%' && s[|s| - 1] == v[|v| - 1];
  }

  lemma BehindMarker(v: string)
    requires '%' !in v && Separates(v)
    ensures Lowest(Mark('1', v)) == 1 && Replace(Mark('1', v), 1, "") == v
  {
    assert Digit('1') == 1;
    hide Mark, Lowest, Replace, Separates;
    PlainText(v);
    MarkerInFront('1', v, 1, "");
    NothingReplaced(v, 1, "");
    assert "" + v == v;
  }

  lemma MarkerGone(name: string, y: string)
    requires Key(name) && Trimmed(y) && '#' !in y
    ensures Classify(name + "=" + (y + "\n")) == Assignment(name, y)
  {
    WithoutCommentOf(y, "\n") by { assert AllSpace("\n"[..Find("\n", '#')]); }
    AnyValueRead(name, y + "\n");
  }

  lemma LastMarkStays()
    ensures " " + Mark('3', "\n") == " %3" + "\n"
  {
  }

  /** For example, `%1f` comes back as `f %3`. */
  lemma MarkerIsLost(name: string, v: string)
    requires Key(name) && '%' !in name && Plain(v) && v != "" && '%' !in v && Separates(v)
    ensures Plain(Mark('1', v)) && Lowest(Mark('1', v)) == 1
    ensures Classify(Rewritten(name, Mark('1', v), "")) == Assignment(name, v + " %3")
  {
    PlainMark(v);
    BehindMarker(v);
    RewrittenIs(name, Mark('1', v), "");
    hide Replace, Lowest, Mark, Rewritten;
    var y := v + " %3";
    assert Trimmed(y) && '#' !in y by { assert y[0] == v[0]; }
    assert " " + Mark('3', "\n") == " %3" + "\n" by { LastMarkStays(); }
    Regroup(name + "=", v, " %3" + "\n");
    Regroup(v, " %3", "\n");
    MarkerGone(name, y);
  }
}

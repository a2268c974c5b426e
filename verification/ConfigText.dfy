/** The text of a configuration file: lines, comments, headers and assignments, as every reader and
    writer of such a file takes them apart. */
module ConfigText {

  // ---------- trimming ----------

  predicate IsSpace(c: char) {
    c == ' ' || ('\t' <= c <= '\r')
  }

  predicate IsDigit(c: char) {
    '0' <= c <= '9'
  }

  function TrimLeft(s: string): string {
    if s != "" && IsSpace(s[0]) then TrimLeft(s[1..]) else s
  }

  function TrimRight(s: string): string {
    if s != "" && IsSpace(s[|s| - 1]) then TrimRight(s[..|s| - 1]) else s
  }

  function Trim(s: string): string {
    TrimRight(TrimLeft(s))
  }

  predicate Trimmed(s: string) {
    s == "" || (!IsSpace(s[0]) && !IsSpace(s[|s| - 1]))
  }

  predicate AllSpace(s: string) {
    forall c <- s :: IsSpace(c)
  }

  lemma {:induction false} TrimLeftSplits(s: string) returns (k: nat)
    ensures k <= |s| && TrimLeft(s) == s[k..] && AllSpace(s[..k]) && (k < |s| ==> !IsSpace(s[k]))
  {
    if s != "" && IsSpace(s[0]) {
      var j := TrimLeftSplits(s[1..]);
      k := j + 1;
      assert s[..k] == [s[0]] + s[1..][..j];
    } else {
      k := 0;
    }
  }

  lemma {:induction false} TrimRightSplits(s: string) returns (k: nat)
    ensures k <= |s| && TrimRight(s) == s[..k] && AllSpace(s[k..]) && (0 < k ==> !IsSpace(s[k - 1]))
  {
    if s != "" && IsSpace(s[|s| - 1]) {
      k := TrimRightSplits(s[..|s| - 1]);
      assert s[k..] == s[..|s| - 1][k..] + [s[|s| - 1]];
    } else {
      k := |s|;
    }
  }

  /** Trim cuts spaces off both ends, and all of them. */
  lemma TrimSplits(s: string) returns (i: nat, j: nat)
    ensures i <= j <= |s| && Trim(s) == s[i..j] && AllSpace(s[..i]) && AllSpace(s[j..]) && Trimmed(Trim(s))
  {
    i := TrimLeftSplits(s);
    var k := TrimRightSplits(s[i..]);
    j := i + k;
    assert s[i..][k..] == s[j..] && s[i..][..k] == s[i..j];
    if k > 0 { assert s[i..][0] == s[i..j][0]; }
  }

  lemma {:induction false} TrimLeftOfSpaces(a: string, s: string)
    requires AllSpace(a)
    ensures TrimLeft(a + s) == TrimLeft(s)
  {
    if a == "" {
      assert a + s == s;
    } else {
      assert (a + s)[1..] == a[1..] + s;
      TrimLeftOfSpaces(a[1..], s);
    }
  }

  lemma {:induction false} TrimRightOfSpaces(s: string, b: string)
    requires AllSpace(b)
    ensures TrimRight(s + b) == TrimRight(s)
  {
    if b == "" {
      assert s + b == s;
    } else {
      assert (s + b)[..|s + b| - 1] == s + b[..|b| - 1];
      TrimRightOfSpaces(s, b[..|b| - 1]);
    }
  }

  /** Spaces around a text that is trimmed are all that Trim removes. */
  lemma TrimUnique(a: string, s: string, b: string)
    requires AllSpace(a) && AllSpace(b) && Trimmed(s)
    ensures Trim(a + s + b) == s
  {
    assert a + s + b == a + (s + b);
    TrimLeftOfSpaces(a, s + b);
    if s == "" {
      assert s + b == b + "";
      TrimLeftOfSpaces(b, "");
    } else {
      TrimRightOfSpaces(s, b);
    }
  }

  lemma TrimAbsorbs(a: string, s: string, b: string)
    requires AllSpace(a) && AllSpace(b)
    ensures Trim(a + s + b) == Trim(s)
  {
    var i, j := TrimSplits(s);
    assert a + s + b == (a + s[..i]) + s[i..j] + (s[j..] + b);
    TrimUnique(a + s[..i], s[i..j], s[j..] + b);
  }

  lemma TrimOfTrimmed(s: string)
    requires Trimmed(s)
    ensures Trim(s) == s
  {
    TrimUnique("", s, "");
    assert "" + s + "" == s;
  }

  // ---------- searching ----------

  /** Where `c` first occurs; the length of the text if it does not. */
  function Find(s: string, c: char): (k: nat)
    ensures k <= |s| && c !in s[..k] && (k < |s| ==> s[k] == c)
  {
    if s == "" || s[0] == c then 0
    else
      var k := Find(s[1..], c);
      assert s[..k + 1] == [s[0]] + s[1..][..k];
      k + 1
  }

  lemma FindIs(s: string, c: char, k: nat)
    requires k <= |s| && c !in s[..k] && (k < |s| ==> s[k] == c)
    ensures Find(s, c) == k
  {
    assert forall j | 0 <= j < k :: s[j] in s[..k];
    assert forall j | 0 <= j < Find(s, c) :: s[j] in s[..Find(s, c)];
  }

  lemma FindInSum(a: string, b: string, c: char)
    ensures c !in a ==> Find(a + b, c) == |a| + Find(b, c)
    ensures c in a ==> Find(a + b, c) == Find(a, c) < |a|
  {
    if c in a {
      assert a[..|a|] == a;
      assert (a + b)[..Find(a, c)] == a[..Find(a, c)];
      FindIs(a + b, c, Find(a, c));
    } else {
      assert (a + b)[..|a| + Find(b, c)] == a + b[..Find(b, c)];
      FindIs(a + b, c, |a| + Find(b, c));
    }
  }

  // ---------- one line ----------

  /** What a line says once its comment is cut off. An `=` makes it an assignment, whatever else. */
  datatype Meaning = Assignment(name: string, value: string) | Header(name: string) | Remark

  function WithoutComment(line: string): string {
    Trim(line[..Find(line, '#')])
  }

  function Comment(line: string): string {
    Trim(line[Find(line, '#')..])
  }

  function MeaningOf(bare: string): Meaning {
    var k := Find(bare, '=');
    if k < |bare| then Assignment(Trim(bare[..k]), Trim(bare[k + 1..]))
    else if bare != "" && bare[0] == '[' && bare[|bare| - 1] == ']' then Header(bare[1..|bare| - 1])
    else Remark
  }

  function Classify(line: string): Meaning {
    MeaningOf(WithoutComment(line))
  }

  lemma SpacesAround(s: string, i: nat, j: nat, k: nat)
    requires i <= j <= |s| && AllSpace(s[..i]) && AllSpace(s[j..]) && k < |s| && !IsSpace(s[k])
    ensures i <= k < j
  {
    assert forall m | 0 <= m < i :: s[m] == s[..i][m];
    assert forall m | j <= m < |s| :: s[m] == s[j..][m - j];
  }

  lemma EqualsSplits(name: string, value: string)
    requires '=' !in name
    ensures MeaningOf(name + "=" + value) == Assignment(Trim(name), Trim(value))
  {
    var s := name + "=" + value;
    assert s[..|name|] == name && s[|name| + 1..] == value && s[|name|] == '=';
    FindIs(s, '=', |name|);
  }

  /** Spaces around an assignment make no difference. */
  lemma AssignmentTrimmed(s: string)
    requires '=' in s
    ensures MeaningOf(Trim(s)) == MeaningOf(s)
  {
    var i, j := TrimSplits(s);
    var e := Find(s, '=');
    assert s[..|s|] == s;
    SpacesAround(s, i, j, e);
    var (name, value) := (s[i..e], s[e + 1..j]);
    assert '=' !in name by { assert forall c <- name :: c in s[..e]; }
    assert s == s[..i] + name + "=" + value + s[j..] && s[i..j] == name + "=" + value;
    SpacesOutside(s[..i], name, value, s[j..]);
  }

  lemma SpacesOutside(a: string, name: string, value: string, b: string)
    requires AllSpace(a) && AllSpace(b) && '=' !in name
    ensures MeaningOf(a + name + "=" + value + b) == MeaningOf(name + "=" + value)
  {
    assert !IsSpace('=') && '=' !in a + name;
    assert a + name + "=" + value + b == (a + name) + "=" + (value + b);
    EqualsSplits(a + name, value + b);
    EqualsSplits(name, value);
    hide MeaningOf, Trim;
    assert a + name + "" == a + name && "" + value + b == value + b;
    TrimAbsorbs(a, name, "");
    TrimAbsorbs("", value, b);
  }

  /** A comment, or nothing, is cut off. */
  lemma CommentBehind(s: string, comment: string)
    requires '#' !in s && (comment == "" || comment[0] == '#')
    ensures WithoutComment(s + comment) == Trim(s)
  {
    assert (s + comment)[..|s|] == s;
    FindIs(s + comment, '#', |s|);
  }

  /** A trimmed text is what is left of it when spaces and a comment have been added and cut off. */
  lemma WithoutCommentOf(s: string, b: string)
    requires Trimmed(s) && '#' !in s && AllSpace(b[..Find(b, '#')])
    ensures WithoutComment(s + b) == s
  {
    var k := Find(b, '#');
    FindInSum(s, b, '#');
    assert (s + b)[..|s| + k] == "" + s + b[..k];
    TrimUnique("", s, b[..k]);
  }

  lemma WithoutCommentSplits(line: string)
    ensures Trimmed(WithoutComment(line)) && '#' !in WithoutComment(line)
  {
    var i, j := TrimSplits(line[..Find(line, '#')]);
    assert forall c <- WithoutComment(line) :: c in line[..Find(line, '#')];
  }

  lemma NoComment(line: string)
    requires '#' !in line
    ensures WithoutComment(line) == Trim(line)
  {
    FindIs(line, '#', |line|);
    assert line[..|line|] == line;
  }

  lemma TrimFirstAt(a: string, s: string, b: string)
    requires AllSpace(a) && AllSpace(b) && Trimmed(s)
    ensures WithoutComment(a + s + b) == WithoutComment(s)
  {
    assert '#' !in a && '#' !in b by { assert !IsSpace('#'); }
    if '#' in s {
      var k := Find(s, '#');
      assert a + s + b == a + (s + b);
      FindInSum(a, s + b, '#');
      FindInSum(s, b, '#');
      assert (a + s + b)[..|a| + k] == a + s[..k] + "";
      TrimAbsorbs(a, s[..k], "");
    } else {
      NoComment(a + s + b);
      NoComment(s);
      TrimAbsorbs(a, s, b);
    }
  }

  /** It makes no difference whether a line is trimmed before its comment is cut off. */
  lemma TrimFirst(line: string)
    ensures WithoutComment(Trim(line)) == WithoutComment(line)
  {
    var i, j := TrimSplits(line);
    assert line == line[..i] + line[i..j] + line[j..];
    TrimFirstAt(line[..i], line[i..j], line[j..]);
  }

  // ---------- the lines that are written ----------

  /** Text that may stand on one line outside a comment. */
  predicate Plain(s: string) {
    Trimmed(s) && '#' !in s && '\n' !in s
  }

  predicate Key(s: string) {
    Plain(s) && s != "" && '=' !in s
  }

  lemma AssignmentRead(name: string, value: string)
    requires Key(name) && Plain(value)
    ensures MeaningOf(name + "=" + value) == Assignment(name, value)
    ensures name + "=" + value != "" && Trimmed(name + "=" + value) && '#' !in name + "=" + value
  {
    var s := name + "=" + value;
    FindIs(s, '=', |name|) by { assert s[..|name|] == name; }
    assert s[..|name|] == name && s[|name| + 1..] == value;
    TrimOfTrimmed(name);
    TrimOfTrimmed(value);
    if value == "" { assert s[|s| - 1] == '='; } else { assert s[|s| - 1] == value[|value| - 1]; }
    assert s[0] == name[0];
  }

  predicate IsComment(c: string) {
    c == "" || c[0] == '#'
  }

  lemma PlainAssignmentLine(name: string, value: string)
    requires Key(name) && Plain(value)
    ensures Classify(name + "=" + value + "\n") == Assignment(name, value)
  {
    AssignmentRead(name, value);
    assert AllSpace("\n"[..Find("\n", '#')]);
    WithoutCommentOf(name + "=" + value, "\n");
  }

  lemma SpacesThenComment(spaces: string, comment: string)
    requires AllSpace(spaces) && IsComment(comment)
    ensures var b := spaces + comment + "\n"; AllSpace(b[..Find(b, '#')])
  {
    var b := spaces + comment + "\n";
    if comment == "" {
      assert AllSpace(b);
    } else {
      assert !IsSpace('#') && b[..|spaces|] == spaces;
      FindIs(b, '#', |spaces|);
    }
  }

  lemma HeaderLine(name: string)
    requires '#' !in name && '=' !in name
    ensures Classify("[" + name + "]\n") == Header(name)
  {
    var s := "[" + name + "]";
    assert AllSpace("\n"[..Find("\n", '#')]);
    WithoutCommentOf(s, "\n");
    assert s + "\n" == "[" + name + "]\n";
    FindIs(s, '=', |s|);
    assert s[1..|s| - 1] == name;
  }

  lemma CommentLine(text: string)
    ensures Classify("#" + text) == Remark
  {
    FindIs("#" + text, '#', 0);
    assert ("#" + text)[..0] == "";
  }

  lemma BlankLine(s: string)
    requires AllSpace(s)
    ensures Classify(s) == Remark
  {
    assert !IsSpace('#');
    FindIs(s, '#', |s|);
    assert s[..|s|] == s == s + "" + "";
    TrimUnique(s, "", "");
  }

  lemma CommentIsComment(line: string)
    ensures IsComment(Comment(line)) && Trimmed(Comment(line))
  {
    var rest := line[Find(line, '#')..];
    var i, j := TrimSplits(rest);
    if rest != "" {
      assert TrimLeft(rest) == rest by { assert rest[0] == '#' && !IsSpace('#'); }
      var z := TrimRightSplits(rest);
    }
  }

  // ---------- any line ----------

  /** Every line is some text without `#` and a comment or nothing. */
  lemma AnyLine(line: string) returns (text: string, comment: string)
    ensures line == text + comment && '#' !in text && IsComment(comment)
  {
    text, comment := line[..Find(line, '#')], line[Find(line, '#')..];
  }

  /** With an `=`, it is what stands before and after the first of them, trimmed. */
  lemma AssignmentReads(name: string, value: string, comment: string)
    requires '=' !in name && '#' !in name && '#' !in value && IsComment(comment)
    ensures Classify(name + "=" + value + comment) == Assignment(Trim(name), Trim(value))
  {
    var text := name + "=" + value;
    assert '#' !in text && text[|name|] == '=';
    CommentBehind(text, comment);
    hide WithoutComment, Trim;
    AssignmentTrimmed(text);
    EqualsSplits(name, value);
  }

  /** Without one, it is the name between brackets that enclose it, spaces and all. */
  lemma HeaderReads(a: string, name: string, b: string, comment: string)
    requires '=' !in name && '#' !in name && AllSpace(a) && AllSpace(b) && IsComment(comment)
    ensures Classify(a + ("[" + name + "]") + b + comment) == Header(name)
  {
    var header := "[" + name + "]";
    assert !IsSpace('#') && '#' !in a + header + b;
    CommentBehind(a + header + b, comment);
    TrimUnique(a, header, b);
    hide WithoutComment, Trim;
    FindIs(header, '=', |header|);
    assert header[1..|header| - 1] == name;
  }

  /** Everything else says nothing. */
  lemma RemarkReads(text: string, comment: string)
    requires '=' !in text && '#' !in text && IsComment(comment)
    requires var t := Trim(text); t == "" || t[0] != '[' || t[|t| - 1] != ']'
    ensures Classify(text + comment) == Remark
  {
    CommentBehind(text, comment);
    NoEquals(text);
  }

  lemma NoEquals(text: string)
    requires '=' !in text
    ensures Find(Trim(text), '=') == |Trim(text)|
  {
    var i, j := TrimSplits(text);
    FindIs(Trim(text), '=', |Trim(text)|) by { assert forall c <- Trim(text) :: c in text; }
  }

  // ---------- lines of a text ----------

  lemma Regroup<T>(a: seq<T>, b: seq<T>, c: seq<T>)
    ensures (a + b) + c == a + (b + c)
  {
  }

  /** The lines as they are read: each with its newline, which only the last may lack. */
  function Lines(text: string): (lines: seq<string>) {
    if text == "" then []
    else
      var k := Find(text, '\n');
      if k == |text| then [text] else [text[..k + 1]] + Lines(text[k + 1..])
  }

  predicate Whole(text: string) {
    text == "" || text[|text| - 1] == '\n'
  }

  lemma FirstNewline(text: string) returns (line: string, tail: string)
    requires Whole(text) && text != ""
    ensures text == line + "\n" + tail && '\n' !in line && Whole(tail)
  {
    var k := Find(text, '\n');
    assert text[|text| - 1] in text;
    assert k < |text| by { assert text[..|text|] == text; }
    line, tail := text[..k], text[k + 1..];
  }

  lemma LinesFront(line: string, tail: string)
    requires '\n' !in line
    ensures Lines(line + "\n" + tail) == [line + "\n"] + Lines(tail)
  {
    var text := line + "\n" + tail;
    assert text[..|line|] == line && text[..|line| + 1] == line + "\n" && text[|line| + 1..] == tail;
    FindIs(text, '\n', |line|);
  }

  lemma {:induction false} LinesOfSum(a: string, b: string)
    requires Whole(a)
    ensures Lines(a + b) == Lines(a) + Lines(b)
    decreases |a|
  {
    if a == "" {
      assert a + b == b;
    } else {
      var line, tail := FirstNewline(a);
      hide Lines, Whole;
      Regroup(line + "\n", tail, b);
      LinesFront(line, tail);
      LinesFront(line, tail + b);
      LinesOfSum(tail, b);
      Regroup([line + "\n"], Lines(tail), Lines(b));
    }
  }

  lemma OneLine(s: string)
    requires '\n' !in s
    ensures Lines(s + "\n") == [s + "\n"]
  {
    LinesFront(s, "");
    assert s + "\n" + "" == s + "\n";
  }
}

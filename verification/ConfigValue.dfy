/** The values of configuration entries and their text. */
module ConfigValue {
  import opened ConfigText

  datatype Value = Text(text: string) | Flag(on: bool) | Items(items: seq<string>) | Number(n: int)

  function Join(items: seq<string>): string {
    if items == [] then ""
    else if |items| == 1 then items[0]
    else items[0] + "," + Join(items[1..])
  }

  /** The trimmed parts between commas, empty ones left out. */
  function Parts(s: string): seq<string> {
    var k := Find(s, ',');
    var part := Trim(s[..k]);
    (if part == "" then [] else [part]) + if k < |s| then Parts(s[k + 1..]) else []
  }

  function Lower(s: string): string {
    seq(|s|, i requires 0 <= i < |s| => if 'A' <= s[i] <= 'Z' then (s[i] as int + 32) as char else s[i])
  }

  function Digits(n: nat): string {
    (if n < 10 then "" else Digits(n / 10)) + [('0' as int + n % 10) as char]
  }

  /** The number in front of a text; nothing in front is 0. */
  function Digested(s: string): nat {
    if s == "" || !IsDigit(s[0]) then 0 else Folded(s, 0)
  }

  function Folded(s: string, n: nat): nat {
    if s == "" || !IsDigit(s[0]) then n else Folded(s[1..], 10 * n + (s[0] as int - '0' as int))
  }

  function Print(v: Value): string {
    match v
    case Text(text) => text
    case Flag(on) => if on then "true" else "false"
    case Items(items) => Join(items)
    case Number(n) => if n < 0 then "-" + Digits(-n) else Digits(n)
  }

  /** Reads a value of the kind that `like` is. */
  function Parse(like: Value, s: string): Value {
    match like
    case Text(_) => Text(Trim(s))
    case Flag(_) => Flag(Lower(Trim(s)) == "true")
    case Items(_) => Items(Parts(s))
    case Number(_) =>
      Number(if s != "" && s[0] == '-' then -(Digested(s[1..]) as int)
             else if s != "" && s[0] == '+' then Digested(s[1..]) else Digested(s))
  }

  /** Values whose text can stand in a file and be read back. */
  predicate Printable(v: Value) {
    match v
    case Text(text) => Plain(text)
    case Items(items) => forall item <- items :: Plain(item) && item != "" && ',' !in item
    case _ => true
  }

  lemma {:induction false} JoinIsPlain(items: seq<string>)
    requires Printable(Items(items))
    ensures Plain(Join(items)) && (items != [] ==> Join(items) != "")
  {
    if |items| > 1 {
      assert items[0] in items;
      assert forall item <- items[1..] :: item in items;
      JoinIsPlain(items[1..]);
      var (s, rest) := (Join(items), Join(items[1..]));
      assert s[0] == items[0][0] && s[|s| - 1] == rest[|rest| - 1];
    } else if |items| == 1 {
      assert items[0] in items;
    }
  }

  lemma PartsOfOne(item: string)
    requires Trimmed(item) && item != "" && ',' !in item
    ensures Parts(item) == [item]
  {
    assert item[..|item|] == item;
    FindIs(item, ',', |item|);
    TrimOfTrimmed(item);
  }

  lemma PartsOfMore(item: string, rest: string)
    requires Trimmed(item) && item != "" && ',' !in item
    ensures Parts(item + "," + rest) == [item] + Parts(rest)
  {
    var s := item + "," + rest;
    assert s[..|item|] == item;
    FindIs(s, ',', |item|);
    assert s[|item| + 1..] == rest;
    TrimOfTrimmed(item);
  }

  lemma {:induction false} PartsOfJoin(items: seq<string>)
    requires Printable(Items(items))
    ensures Parts(Join(items)) == items
  {
    hide Parts;
    if items == [] {
      assert Parts("") == [] by { PartsOfNothing(); }
    } else {
      assert items[0] in items;
      if |items| == 1 {
        PartsOfOne(items[0]);
      } else {
        assert forall item <- items[1..] :: item in items;
        PartsOfMore(items[0], Join(items[1..]));
        PartsOfJoin(items[1..]);
      }
    }
  }

  lemma PartsOfNothing()
    ensures Parts("") == []
  {
    FindIs("", ',', 0);
  }

  lemma {:induction false} DigitsAreDigits(n: nat)
    ensures Digits(n) != "" && forall c <- Digits(n) :: IsDigit(c)
  {
    if n >= 10 { DigitsAreDigits(n / 10); }
  }

  lemma {:induction false} FoldedSum(s: string, c: char, n: nat)
    requires (forall x <- s :: IsDigit(x)) && IsDigit(c)
    ensures Folded(s + [c], n) == 10 * Folded(s, n) + (c as int - '0' as int)
  {
    if s == "" {
      assert s + [c] == [c] && [c][1..] == "";
    } else {
      assert (s + [c])[1..] == s[1..] + [c];
      assert s[0] in s;
      assert forall x <- s[1..] :: x in s;
      FoldedSum(s[1..], c, 10 * n + (s[0] as int - '0' as int));
    }
  }

  lemma {:induction false} FoldedDigits(n: nat)
    ensures Folded(Digits(n), 0) == n
  {
    DigitsAreDigits(n);
    var c := ('0' as int + n % 10) as char;
    if n >= 10 {
      DigitsAreDigits(n / 10);
      FoldedDigits(n / 10);
      FoldedSum(Digits(n / 10), c, 0);
    } else {
      assert Digits(n) == [c] && [c][1..] == "";
    }
  }

  lemma NumberReadsBack(n: int)
    ensures Plain(Print(Number(n))) && Parse(Number(n), Print(Number(n))) == Number(n)
  {
    var digits := Digits(if n < 0 then -n else n);
    DigitsAreDigits(if n < 0 then -n else n);
    FoldedDigits(if n < 0 then -n else n);
    assert digits[0] in digits && digits[|digits| - 1] in digits;
    if n < 0 { assert ("-" + digits)[1..] == digits; }
  }

  /** What is printed can stand in a file, and is read back as it was. */
  lemma PrintedReadsBack(v: Value)
    requires Printable(v)
    ensures Plain(Print(v)) && Parse(v, Print(v)) == v
  {
    match v
    case Text(text) => TrimOfTrimmed(text);
    case Flag(on) =>
      TrimOfTrimmed(Print(v));
      assert Lower("true") == "true" && Lower("false")[0] == 'f';
    case Items(items) => JoinIsPlain(items); PartsOfJoin(items);
    case Number(n) => NumberReadsBack(n);
  }

  // ---------- any text that a file may have ----------

  /** The letter `c`, which is a small one, in either case. */
  predicate IsLetter(x: char, c: char)
    requires 'a' <= c <= 'z'
  {
    x == c || x as int == c as int - 32
  }

  /** Whatever the spaces and the case of its letters, `true` is a flag that is on; nothing else is. */
  lemma FlagReads(like: bool, s: string)
    ensures var t := Trim(s);
      Parse(Flag(like), s) == Flag(|t| == 4
        && IsLetter(t[0], 't') && IsLetter(t[1], 'r') && IsLetter(t[2], 'u') && IsLetter(t[3], 'e'))
  {
    var t := Trim(s);
    if |t| == 4 { assert Lower(t) == [Lower(t)[0], Lower(t)[1], Lower(t)[2], Lower(t)[3]]; }
  }

  /** Pieces with commas between them. */
  function Rejoined(pieces: seq<string>): string
    requires pieces != []
  {
    if |pieces| == 1 then pieces[0] else pieces[0] + "," + Rejoined(pieces[1..])
  }

  /** `items` are the pieces that are not blank, trimmed, in order; `from` says which. */
  ghost predicate Chosen(pieces: seq<string>, items: seq<string>, from: seq<nat>) {
    && |from| == |items| && (forall i | 0 <= i < |from| :: from[i] < |pieces|)
    && (forall i, j | 0 <= i < j < |from| :: from[i] < from[j])
    && (forall i | 0 <= i < |items| :: items[i] == Trim(pieces[from[i]]) != "")
    && (forall k: nat | k < |pieces| && Trim(pieces[k]) != "" :: k in from)
  }

  function Shifted(from: seq<nat>): seq<nat> {
    seq(|from|, i requires 0 <= i < |from| => from[i] + 1)
  }

  lemma ShiftedIs(from: seq<nat>, k: nat)
    ensures |Shifted(from)| == |from| && (forall i | 0 <= i < |from| :: Shifted(from)[i] == from[i] + 1)
    ensures k in from ==> k + 1 in Shifted(from)
  {
    if k in from {
      var i :| 0 <= i < |from| && from[i] == k;
      assert Shifted(from)[i] == k + 1;
    }
  }

  lemma BlankInFront(first: string, pieces: seq<string>, items: seq<string>, from: seq<nat>)
    requires Chosen(pieces, items, from) && Trim(first) == ""
    ensures Chosen([first] + pieces, items, Shifted(from))
  {
    hide Trim, Shifted;
    var all := [first] + pieces;
    assert all[0] == first && forall k: nat | k < |pieces| :: all[k + 1] == pieces[k];
    ShiftedIs(from, 0);
    forall k: nat | k < |all| && Trim(all[k]) != "" ensures k in Shifted(from) { ShiftedIs(from, k - 1); }
  }

  lemma ItemInFront(first: string, pieces: seq<string>, items: seq<string>, from: seq<nat>)
    requires Chosen(pieces, items, from) && Trim(first) != ""
    ensures Chosen([first] + pieces, [Trim(first)] + items, [0] + Shifted(from))
  {
    hide Trim, Shifted;
    var (all, more, later) := ([first] + pieces, [Trim(first)] + items, [0] + Shifted(from));
    ShiftedIs(from, 0);
    forall i | 0 <= i < |later| ensures later[i] < |all| && more[i] == Trim(all[later[i]]) != "" {
      if i > 0 {
        assert later[i] == from[i - 1] + 1 && more[i] == items[i - 1];
        assert all[from[i - 1] + 1] == pieces[from[i - 1]];
      }
    }
    forall i, j | 0 <= i < j < |later| ensures later[i] < later[j] {
      assert later[j] == from[j - 1] + 1 && (i > 0 ==> later[i] == from[i - 1] + 1);
    }
    forall k: nat | k < |all| && Trim(all[k]) != "" ensures k in later {
      if k > 0 {
        assert all[k] == pieces[k - 1];
        ShiftedIs(from, k - 1);
      }
    }
  }

  /** The items of a list are the pieces between its commas that are not blank, trimmed, in order. */
  lemma {:induction false} ItemsRead(pieces: seq<string>) returns (from: seq<nat>)
    requires pieces != [] && forall piece <- pieces :: ',' !in piece
    ensures Chosen(pieces, Parts(Rejoined(pieces)), from)
  {
    var first := pieces[0];
    assert first in pieces;
    if |pieces| == 1 {
      LastPiece(first);
      from := if Trim(first) == "" then [] else [0];
    } else {
      var tail := pieces[1..];
      assert pieces == [first] + tail && forall piece <- tail :: piece in pieces;
      assert Rejoined(pieces) == first + "," + Rejoined(tail);
      hide Parts, Trim, Rejoined, Chosen, Shifted;
      PieceInFront(first, Rejoined(tail));
      var later := ItemsRead(tail);
      if Trim(first) == "" {
        BlankInFront(first, tail, Parts(Rejoined(tail)), later);
        assert [] + Parts(Rejoined(tail)) == Parts(Rejoined(tail));
        from := Shifted(later);
      } else {
        ItemInFront(first, tail, Parts(Rejoined(tail)), later);
        from := [0] + Shifted(later);
      }
    }
  }

  lemma LastPiece(piece: string)
    requires ',' !in piece
    ensures Parts(piece) == if Trim(piece) == "" then [] else [Trim(piece)]
  {
    assert piece[..|piece|] == piece;
    FindIs(piece, ',', |piece|);
  }

  lemma PieceInFront(piece: string, rest: string)
    requires ',' !in piece
    ensures Parts(piece + "," + rest) == (if Trim(piece) == "" then [] else [Trim(piece)]) + Parts(rest)
  {
    var s := piece + "," + rest;
    assert s[..|piece|] == piece && s[|piece| + 1..] == rest;
    FindIs(s, ',', |piece|);
  }

  /** Every text is pieces with commas between them. */
  lemma {:induction false} AnyTextIsPieces(s: string) returns (pieces: seq<string>)
    ensures pieces != [] && Rejoined(pieces) == s && forall piece <- pieces :: ',' !in piece
  {
    var k := Find(s, ',');
    if k == |s| {
      assert s[..k] == s;
      pieces := [s];
    } else {
      var rest := AnyTextIsPieces(s[k + 1..]);
      pieces := [s[..k]] + rest;
      assert pieces[1..] == rest && s == s[..k] + "," + s[k + 1..];
    }
  }

  /** What a row of digits stands for. */
  function Decimal(digits: string): nat
    requires forall c <- digits :: IsDigit(c)
  {
    if digits == "" then 0
    else
      var (init, last) := (digits[..|digits| - 1], digits[|digits| - 1]);
      assert IsDigit(last);
      10 * Decimal(init) + (last as int - '0' as int)
  }

  lemma {:induction false} FoldedStops(digits: string, tail: string, n: nat)
    requires (forall c <- digits :: IsDigit(c)) && (tail == "" || !IsDigit(tail[0]))
    ensures Folded(digits + tail, n) == Folded(digits, n)
  {
    if digits == "" {
      assert digits + tail == tail;
    } else {
      assert digits[0] in digits && forall c <- digits[1..] :: c in digits;
      assert (digits + tail)[1..] == digits[1..] + tail;
      FoldedStops(digits[1..], tail, 10 * n + (digits[0] as int - '0' as int));
    }
  }

  lemma {:induction false} FoldedIsDecimal(digits: string)
    requires forall c <- digits :: IsDigit(c)
    ensures Folded(digits, 0) == Decimal(digits)
  {
    if digits != "" {
      var (init, last) := (digits[..|digits| - 1], digits[|digits| - 1]);
      assert digits == init + [last] && last in digits && forall c <- init :: c in digits;
      FoldedIsDecimal(init);
      FoldedSum(init, last, 0);
    }
  }

  /** A row of digits, with a sign or without, and whatever follows it, is read as what it stands for;
      no digits are 0. */
  lemma NumberReads(like: int, sign: string, digits: string, tail: string)
    requires sign == "" || sign == "+" || sign == "-"
    requires (forall c <- digits :: IsDigit(c)) && (tail == "" || !IsDigit(tail[0]))
    requires sign + digits == "" && tail != "" ==> tail[0] != '+' && tail[0] != '-'
    ensures Parse(Number(like), sign + digits + tail)
         == Number(if sign == "-" then -(Decimal(digits) as int) else Decimal(digits))
  {
    var (s, rest) := (sign + digits + tail, digits + tail);
    assert digits != "" ==> digits[0] in digits;
    FoldedIsDecimal(digits);
    FoldedStops(digits, tail, 0);
    assert if sign == "" then s == rest else s[0] == sign[0] && s[1..] == rest;
    assert Digested(rest) == Decimal(digits);
  }

  lemma {:induction false} JoinedIs(items: seq<string>)
    requires items != []
    ensures Join(items) == Rejoined(items)
  {
    if |items| > 1 { JoinedIs(items[1..]); }
  }

  lemma {:induction false} DigitsAre(n: nat)
    ensures Digits(n) != "" && (forall c <- Digits(n) :: IsDigit(c))
    ensures Decimal(Digits(n)) == n && (Digits(n)[0] == '0' ==> n == 0)
  {
    DigitsAreDigits(n);
    if n >= 10 {
      DigitsAreDigits(n / 10);
      DigitsAre(n / 10);
      var last := ('0' as int + n % 10) as char;
      assert Digits(n) == Digits(n / 10) + [last];
      assert Digits(n)[..|Digits(n)| - 1] == Digits(n / 10) && Digits(n)[|Digits(n)| - 1] == last;
    }
  }

  /** What is written: a flag in small letters, items with bare commas between them, a number in decimal
      without leading zeros. */
  lemma PrintedIs(v: Value)
    ensures match v
      case Text(text) => Print(v) == text
      case Flag(on) => Print(v) == if on then "true" else "false"
      case Items(items) => if items == [] then Print(v) == "" else Print(v) == Rejoined(items)
      case Number(n) => exists digits: string ::
        && digits != "" && (forall c <- digits :: IsDigit(c)) && (digits[0] == '0' ==> n == 0)
        && Decimal(digits) == (if n < 0 then -n else n) && Print(v) == (if n < 0 then "-" else "") + digits
  {
    match v
    case Items(items) => if items != [] { JoinedIs(items); }
    case Number(n) =>
      var digits := Digits(if n < 0 then -n else n);
      DigitsAreDigits(if n < 0 then -n else n);
      DigitsAre(if n < 0 then -n else n);
      assert Print(v) == (if n < 0 then "-" else "") + digits;
    case _ =>
  }
}

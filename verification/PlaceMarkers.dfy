/** Templates with numbered place markers, as the program fills them in: each argument goes to the
    markers with the lowest number, those that came with an earlier argument included. */
module PlaceMarkers {
  import opened ConfigText

  /** A marker is `%`, perhaps an `L`, and one or two digits. */
  datatype Marker = NoMarker | Marker(length: nat, number: nat)

  const NO_NUMBER := 100

  function Digit(c: char): (d: nat)
    requires IsDigit(c)
    ensures d < 10
  {
    c as int - '0' as int
  }

  /** The marker that a text begins with. */
  function MarkerOf(s: string): (m: Marker)
    ensures m.Marker? ==> s != "" && s[0] == '%' && 2 <= m.length <= |s| && m.number < NO_NUMBER
  {
    if |s| < 2 || s[0] != '%' then NoMarker
    else
      var k := if s[1] == 'L' then 2 else 1;
      if k >= |s| || !IsDigit(s[k]) then NoMarker
      else if k + 1 < |s| && IsDigit(s[k + 1]) then Marker(k + 2, 10 * Digit(s[k]) + Digit(s[k + 1]))
      else Marker(k + 1, Digit(s[k]))
  }

  /** A digit is the number; a second one makes it two digits, a third is text again. */
  lemma MarkerForms(a: char, b: char, rest: string)
    requires IsDigit(a) && IsDigit(b)
    ensures rest == "" || !IsDigit(rest[0]) ==>
      MarkerOf(['%', a] + rest) == Marker(2, Digit(a)) && MarkerOf(['%', 'L', a] + rest) == Marker(3, Digit(a))
    ensures MarkerOf(['%', a, b] + rest) == Marker(3, 10 * Digit(a) + Digit(b))
    ensures MarkerOf(['%', 'L', a, b] + rest) == Marker(4, 10 * Digit(a) + Digit(b))
  {
  }

  function Min(a: nat, b: nat): nat {
    if a <= b then a else b
  }

  /** The lowest number of a marker in a text; `NO_NUMBER` if it has none. */
  function Lowest(s: string): (n: nat)
    ensures n <= NO_NUMBER
    decreases |s|
  {
    if s == "" then NO_NUMBER
    else
      match MarkerOf(s)
      case Marker(length, number) => Min(number, Lowest(s[length..]))
      case NoMarker => Lowest(s[1..])
  }

  /** How much of a text is dealt with at a time: a marker or a character. */
  function Front(s: string): (k: nat)
    requires s != ""
    ensures 1 <= k <= |s|
  {
    if MarkerOf(s).Marker? then MarkerOf(s).length else 1
  }

  function Replace(s: string, n: nat, a: string): string
    decreases |s|
  {
    if s == "" then ""
    else
      (if MarkerOf(s).Marker? && MarkerOf(s).number == n then a else s[..Front(s)]) + Replace(s[Front(s)..], n, a)
  }

  /** QString::arg. Without a marker it only warns. */
  function Arg(template: string, a: string): string {
    if Lowest(template) == NO_NUMBER then template else Replace(template, Lowest(template), a)
  }

  // ---------- texts put together ----------

  /** No marker goes on into a text that begins like this. */
  predicate Separates(s: string) {
    s == "" || (!IsDigit(s[0]) && s[0] != 'L')
  }

  lemma MarkerOfSum(a: string, b: string)
    requires a != "" && Separates(b)
    ensures MarkerOf(a + b) == MarkerOf(a)
  {
    if |a| >= 2 { assert (a + b)[1] == a[1]; }
    if |a| >= 3 { assert (a + b)[2] == a[2]; }
    if |a| >= 4 { assert (a + b)[3] == a[3]; }
  }

  lemma {:induction false} LowestOfSum(a: string, b: string)
    requires Separates(b)
    ensures Lowest(a + b) == Min(Lowest(a), Lowest(b))
    decreases |a|
  {
    if a == "" {
      assert a + b == b;
    } else {
      MarkerOfSum(a, b);
      assert (a + b)[Front(a)..] == a[Front(a)..] + b;
      LowestOfSum(a[Front(a)..], b);
    }
  }

  lemma {:induction false} ReplaceOfSum(a: string, b: string, n: nat, x: string)
    requires Separates(b)
    ensures Replace(a + b, n, x) == Replace(a, n, x) + Replace(b, n, x)
    decreases |a|
  {
    if a == "" {
      assert a + b == b && "" + Replace(b, n, x) == Replace(b, n, x);
    } else {
      var k := Front(a);
      MarkerOfSum(a, b);
      assert (a + b)[k..] == a[k..] + b && (a + b)[..k] == a[..k];
      ReplaceOfSum(a[k..], b, n, x);
      Regroup(if MarkerOf(a).Marker? && MarkerOf(a).number == n then x else a[..k],
              Replace(a[k..], n, x), Replace(b, n, x));
    }
  }

  /** Numbers that no marker has are not replaced. */
  lemma {:induction false} NothingReplaced(s: string, n: nat, a: string)
    requires n < Lowest(s)
    ensures Replace(s, n, a) == s
    decreases |s|
  {
    if s != "" {
      NothingReplaced(s[Front(s)..], n, a);
      assert s == s[..Front(s)] + s[Front(s)..];
    }
  }

  lemma {:induction false} PlainText(s: string)
    requires '%' !in s
    ensures Lowest(s) == NO_NUMBER
  {
    if s != "" {
      assert forall c <- s[1..] :: c in s;
      PlainText(s[1..]);
    }
  }

  // ---------- counting what a replacement takes away ----------

  function Count(s: string, c: char): nat {
    if s == "" then 0 else (if s[0] == c then 1 else 0) + Count(s[1..], c)
  }

  lemma {:induction false} CountOfSum(a: string, b: string, c: char)
    ensures Count(a + b, c) == Count(a, c) + Count(b, c)
  {
    if a == "" {
      assert a + b == b;
    } else {
      assert (a + b)[1..] == a[1..] + b;
      CountOfSum(a[1..], b, c);
    }
  }

  lemma CountOfPrefix(s: string, k: nat, c: char)
    requires k <= |s|
    ensures Count(s[..k], c) + Count(s[k..], c) == Count(s, c)
  {
    assert s == s[..k] + s[k..];
    CountOfSum(s[..k], s[k..], c);
  }

  lemma {:induction false} CountIn(s: string, c: char)
    ensures Count(s, c) > 0 <==> c in s
  {
    if s != "" { CountIn(s[1..], c); }
  }

  function DigitChar(n: nat): char
    requires n < 10
  {
    ('0' as int + n) as char
  }

  /** Each marker of a one-digit number has that digit in it. */
  lemma MarkerHasDigit(s: string)
    requires MarkerOf(s).Marker? && MarkerOf(s).number < 10
    ensures Count(s[..MarkerOf(s).length], DigitChar(MarkerOf(s).number)) > 0
  {
    var m := MarkerOf(s);
    assert s[..m.length][m.length - 1] == s[m.length - 1] == DigitChar(m.number);
    CountIn(s[..m.length], DigitChar(m.number));
  }

  lemma {:induction false} ReplacedByNothing(s: string, n: nat)
    requires n < 10
    ensures Count(Replace(s, n, ""), DigitChar(n)) <= Count(s, DigitChar(n))
    ensures Lowest(s) == n ==> Count(Replace(s, n, ""), DigitChar(n)) < Count(s, DigitChar(n))
    decreases |s|
  {
    if s != "" {
      var (m, d, k) := (MarkerOf(s), DigitChar(n), Front(s));
      ReplacedByNothing(s[k..], n);
      CountOfPrefix(s, k, d);
      if m.Marker? && m.number == n {
        MarkerHasDigit(s);
        assert "" + Replace(s[k..], n, "") == Replace(s[k..], n, "");
      } else {
        CountOfSum(s[..k], Replace(s[k..], n, ""), d);
      }
    }
  }

  lemma BehindFront(s: string, l: nat, j: nat)
    requires l <= |s| && j < |s| - l
    ensures s[..l + j] == s[..l] + s[l..][..j] && s[l + j] == s[l..][j]
  {
  }

  /** Where the first marker with the lowest number stands. */
  lemma {:induction false} FirstReplaced(s: string, n: nat, a: string) returns (k: nat, rest: string)
    requires n == Lowest(s) < NO_NUMBER
    ensures k < |s| && s[k] == '%' && Replace(s, n, a) == s[..k] + a + rest
    ensures n < 10 ==> Count(s[..k], DigitChar(n)) < Count(s, DigitChar(n))
    decreases |s|
  {
    var m := MarkerOf(s);
    if m.Marker? && m.number == n {
      k, rest := 0, Replace(s[m.length..], n, a);
      assert s[..0] + a + rest == a + rest;
      if n < 10 {
        MarkerHasDigit(s);
        CountOfPrefix(s, m.length, DigitChar(n));
      }
    } else {
      var l := Front(s);
      assert Lowest(s[l..]) == n && Replace(s, n, a) == s[..l] + Replace(s[l..], n, a);
      hide MarkerOf, Lowest, Replace, Count;
      var j;
      j, rest := FirstReplaced(s[l..], n, a);
      k := l + j;
      BehindFront(s, l, j);
      Regroup(s[..l], s[l..][..j], a);
      Regroup(s[..l], s[l..][..j] + a, rest);
      if n < 10 {
        CountOfSum(s[..l], s[l..][..j], DigitChar(n));
        CountOfPrefix(s, l, DigitChar(n));
      }
    }
  }

  /** Nothing is in the outcome that was in neither text. */
  lemma {:induction false} ReplaceBringsNothing(s: string, n: nat, a: string, c: char)
    requires c !in s && c !in a
    ensures c !in Replace(s, n, a)
    decreases |s|
  {
    if s != "" {
      assert forall x <- s[Front(s)..] :: x in s;
      ReplaceBringsNothing(s[Front(s)..], n, a, c);
    }
  }

  lemma CountOfTrim(s: string, c: char)
    requires !IsSpace(c)
    ensures Count(Trim(s), c) == Count(s, c)
  {
    var i, j := TrimSplits(s);
    CountIn(s[..i], c);
    CountIn(s[j..], c);
    CountOfPrefix(s, i, c);
    CountOfPrefix(s[i..], j - i, c);
    assert s[i..][..j - i] == s[i..j] && s[i..][j - i..] == s[j..];
  }
}

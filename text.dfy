/**
 * The string operations the Python and JavaScript sources lean on: `str.split()`,
 * `sep.join(...)`, `str.split(sep)`, substring tests, ASCII case mapping, `str(n)` and
 * the `{:,}` thousands format.
 */
module Text {
  import opened Prelude

  /**
   * The ASCII whitespace characters: the blanks Python's `str.split()` splits on within ASCII
   * (it also splits on the separators `\x1c`-`\x1f` and on non-ASCII spaces, which are not modelled).
   */
  predicate IsSpace(c: char)
  {
    c == ' ' || c == '\t' || c == '\n' || c == '\r' || c == '\U{0B}' || c == '\U{0C}'
  }

  predicate NoSpace(w: string)
  {
    forall i :: 0 <= i < |w| ==> !IsSpace(w[i])
  }

  /** A word as `str.split()` produces it: non-empty, without whitespace. */
  predicate IsWord(w: string)
  {
    w != "" && NoSpace(w)
  }

  /** Length of the leading run of non-space characters. */
  function WordEnd(s: string): (k: nat)
    ensures k <= |s|
    ensures forall i :: 0 <= i < k ==> !IsSpace(s[i])
    ensures k < |s| ==> IsSpace(s[k])
  {
    if s == [] || IsSpace(s[0]) then 0 else 1 + WordEnd(s[1..])
  }

  /** Python's `s.split()` with no argument: the maximal runs of non-space characters. */
  function SplitWords(s: string): (ws: seq<string>)
    decreases |s|
    ensures forall i :: 0 <= i < |ws| ==> IsWord(ws[i])
  {
    if s == [] then []
    else if IsSpace(s[0]) then SplitWords(s[1..])
    else
      var k := WordEnd(s);
      [s[..k]] + SplitWords(s[k..])
  }

  /** Python's `sep.join(xs)`. */
  function Join(xs: seq<string>, sep: string): string
  {
    if xs == [] then ""
    else if |xs| == 1 then xs[0]
    else xs[0] + sep + Join(xs[1..], sep)
  }

  lemma {:induction false} WordEndOfWord(w: string, rest: string)
    requires IsWord(w)
    requires rest == [] || IsSpace(rest[0])
    ensures WordEnd(w + rest) == |w|
  {
    if |w| == 1 {
      assert (w + rest)[1..] == rest;
    } else {
      assert (w + rest)[1..] == w[1..] + rest;
      WordEndOfWord(w[1..], rest);
    }
  }

  lemma {:induction false} JoinWordsStartsWithWord(ws: seq<string>)
    requires |ws| > 0 && forall i :: 0 <= i < |ws| ==> IsWord(ws[i])
    ensures |Join(ws, " ")| > 0 && !IsSpace(Join(ws, " ")[0])
  {
  }

  /** A word followed by a space or nothing splits off as the first word. */
  lemma SplitWordsAfterWord(w: string, rest: string)
    requires IsWord(w)
    requires rest == [] || IsSpace(rest[0])
    ensures SplitWords(w + rest) == [w] + SplitWords(rest)
  {
    var s := w + rest;
    WordEndOfWord(w, rest);
    assert s[..|w|] == w && s[|w|..] == rest;
  }

  /** Joining words with single spaces and splitting again gives the words back. */
  lemma {:induction false} SplitJoinWords(ws: seq<string>)
    requires forall i :: 0 <= i < |ws| ==> IsWord(ws[i])
    ensures SplitWords(Join(ws, " ")) == ws
  {
    if |ws| == 1 {
      SplitWordsAfterWord(ws[0], "");
      assert ws[0] + "" == ws[0];
    } else if |ws| > 1 {
      var rest := Join(ws[1..], " ");
      assert Join(ws, " ") == ws[0] + (" " + rest);
      SplitWordsAfterWord(ws[0], " " + rest);
      assert (" " + rest)[1..] == rest;
      SplitJoinWords(ws[1..]);
      assert [ws[0]] + ws[1..] == ws;
    }
  }

  /** `sep` occurs in `s` at index `i`. */
  predicate Occurs(s: string, sep: string, i: int)
  {
    0 <= i && i + |sep| <= |s| && s[i..i + |sep|] == sep
  }

  lemma OccursShift(s: string, sep: string)
    requires |s| > 0
    ensures forall j :: 1 <= j ==> (Occurs(s, sep, j) <==> Occurs(s[1..], sep, j - 1))
  {
    forall j | 1 <= j ensures Occurs(s, sep, j) <==> Occurs(s[1..], sep, j - 1) {
      if j + |sep| <= |s| {
        var here, there := s[j..j + |sep|], s[1..][j - 1..j - 1 + |sep|];
        assert forall k :: 0 <= k < |here| ==> here[k] == there[k];
        assert here == there;
      }
    }
  }

  /** Python's substring test `needle in hay`. */
  predicate Contains(hay: string, needle: string)
  {
    exists i | 0 <= i <= |hay| :: Occurs(hay, needle, i)
  }

  lemma ContainsAt(hay: string, needle: string, i: nat)
    requires i + |needle| <= |hay| && hay[i..i + |needle|] == needle
    ensures Contains(hay, needle)
  {
    assert Occurs(hay, needle, i);
  }

  /** A text without the needle's first character does not contain the needle. */
  lemma MissingFirstChar(hay: string, needle: string)
    requires needle != [] && forall i :: 0 <= i < |hay| ==> hay[i] != needle[0]
    ensures !Contains(hay, needle)
  {
    forall i | 0 <= i <= |hay| ensures !Occurs(hay, needle, i) {
      if i + |needle| <= |hay| {
        assert hay[i..i + |needle|][0] == hay[i];
      }
    }
  }

  /** `any(k in hay for k in keys)`. */
  predicate ContainsAny(hay: string, keys: seq<string>)
  {
    exists k :: 0 <= k < |keys| && Contains(hay, keys[k])
  }


  /** Index of the first occurrence of `sep` in `s`, or -1 (Python's `s.find(sep)`). */
  function Find(s: string, sep: string): (r: int)
    decreases |s|
    ensures r == -1 || Occurs(s, sep, r)
    ensures r == -1 ==> forall j :: 0 <= j <= |s| - |sep| ==> !Occurs(s, sep, j)
    ensures r >= 0 ==> forall j :: 0 <= j < r ==> !Occurs(s, sep, j)
  {
    if |s| < |sep| then -1
    else if s[..|sep|] == sep then 0
    else
      var k := Find(s[1..], sep);
      OccursShift(s, sep);
      if k < 0 then -1 else k + 1
  }

  /** Python's `s.split(sep)` for a non-empty separator. */
  function Split(s: string, sep: string): (parts: seq<string>)
    requires sep != ""
    decreases |s|
    ensures |parts| > 0
  {
    var i := Find(s, sep);
    if i < 0 then [s] else [s[..i]] + Split(s[i + |sep|..], sep)
  }

  /** The first occurrence of ", " in `x + ", " + rest` is the one after `x`, when `x` has none. */
  lemma FindCommaAfter(x: string, rest: string)
    requires !Contains(x, ", ")
    ensures Find(x + ", " + rest, ", ") == |x|
  {
    var s := x + ", " + rest;
    assert Occurs(s, ", ", |x|) by { assert s[|x|..|x| + 2] == ", "; }
    forall j | 0 <= j < |x| ensures !Occurs(s, ", ", j) {
      if j + 2 <= |x| {
        assert s[j..j + 2] == x[j..j + 2];
        assert !Occurs(x, ", ", j);
      } else {
        assert s[j + 1] == ',';
      }
    }
  }

  /** A comma-free first part splits off at the first ", ". */
  lemma SplitAfterComma(x: string, rest: string)
    requires !Contains(x, ", ")
    ensures Split(x + ", " + rest, ", ") == [x] + Split(rest, ", ")
  {
    var s := x + ", " + rest;
    FindCommaAfter(x, rest);
    assert s[..|x|] == x;
    assert s[|x| + 2..] == rest;
  }

  /**
   * Splitting a ", "-joined list on ", " recovers the list, provided no element contains
   * ", " itself; this is how the database turns `GROUP_CONCAT(..., ', ')` back into a list.
   */
  lemma {:induction false} SplitJoinComma(xs: seq<string>)
    requires |xs| > 0
    requires forall i :: 0 <= i < |xs| ==> !Contains(xs[i], ", ")
    ensures Split(Join(xs, ", "), ", ") == xs
  {
    var s := Join(xs, ", ");
    if |xs| == 1 {
      assert s == xs[0];
      assert Find(s, ", ") == -1;
    } else {
      var rest := Join(xs[1..], ", ");
      assert s == xs[0] + ", " + rest;
      SplitAfterComma(xs[0], rest);
      SplitJoinComma(xs[1..]);
      assert [xs[0]] + xs[1..] == xs;
    }
  }

  function LowerChar(c: char): char
  {
    if 'A' <= c <= 'Z' then (c as int + 32) as char else c
  }

  function UpperChar(c: char): char
  {
    if 'a' <= c <= 'z' then (c as int - 32) as char else c
  }

  predicate IsCased(c: char)
  {
    'A' <= c <= 'Z' || 'a' <= c <= 'z'
  }

  /** `s.lower()` on the ASCII letters. */
  function Lower(s: string): (r: string)
    ensures |r| == |s|
    ensures forall i :: 0 <= i < |s| ==> r[i] == LowerChar(s[i])
  {
    seq(|s|, i requires 0 <= i < |s| => LowerChar(s[i]))
  }

  /** `s.upper()` on the ASCII letters. */
  function Upper(s: string): (r: string)
    ensures |r| == |s|
    ensures forall i :: 0 <= i < |s| ==> r[i] == UpperChar(s[i])
  {
    seq(|s|, i requires 0 <= i < |s| => UpperChar(s[i]))
  }

  /**
   * `s.title()` on the ASCII letters: a letter is upper-cased when the character before it
   * is not a letter, lower-cased otherwise.
   */
  function TitleCase(s: string): (r: string)
    ensures |r| == |s|
    ensures forall i :: 0 <= i < |s| ==>
      r[i] == if !IsCased(s[i]) then s[i]
              else if i > 0 && IsCased(s[i - 1]) then LowerChar(s[i])
              else UpperChar(s[i])
  {
    seq(|s|, i requires 0 <= i < |s| =>
      if !IsCased(s[i]) then s[i]
      else if i > 0 && IsCased(s[i - 1]) then LowerChar(s[i])
      else UpperChar(s[i]))
  }

  /** The decimal digit character of `d`. */
  function Digit(d: int): (c: char)
    requires 0 <= d < 10
    ensures '0' <= c <= '9' && DigitValue(c) == d
  {
    ('0' as int + d) as char
  }

  predicate AllDigits(s: string)
  {
    forall i :: 0 <= i < |s| ==> '0' <= s[i] <= '9'
  }

  function DigitValue(c: char): int
  {
    c as int - '0' as int
  }

  /** Value of a string of decimal digits. */
  function DigitsValue(s: string): int
  {
    if s == [] then 0 else 10 * DigitsValue(s[..|s| - 1]) + DigitValue(s[|s| - 1])
  }

  /** Python's `str(n)` for `n >= 0`. */
  function NatToString(n: nat): (s: string)
    ensures |s| > 0 && AllDigits(s)
    ensures DigitsValue(s) == n
    ensures |s| > 1 ==> s[0] != '0'
  {
    if n < 10 then [Digit(n)]
    else
      var s := NatToString(n / 10) + [Digit(n % 10)];
      assert s[..|s| - 1] == NatToString(n / 10);
      s
  }

  /** Python's `str(i)`. */
  function IntToString(i: int): (s: string)
    ensures |s| > 0
  {
    if i < 0 then "-" + NatToString(-i) else NatToString(i)
  }

  /** `str` is one-to-one on integers: the digits give the magnitude back, the '-' the sign. */
  lemma IntToStringInjective(a: int, b: int)
    requires IntToString(a) == IntToString(b)
    ensures a == b
  {
    var s := IntToString(a);
    if a < 0 && b < 0 {
      assert NatToString(-a) == s[1..] == NatToString(-b);
    }
  }

  /** Three digits with leading zeros. */
  function Pad3(n: nat): (s: string)
    requires n < 1000
    ensures |s| == 3 && AllDigits(s)
  {
    [Digit(n / 100), Digit(n / 10 % 10), Digit(n % 10)]
  }

  /** Python's `f"{n:,}"` for `n >= 0`: groups of three digits separated by commas. */
  function NatWithThousands(n: nat): string
  {
    if n < 1000 then NatToString(n) else NatWithThousands(n / 1000) + "," + Pad3(n % 1000)
  }

  /** Python's `f"{i:,}"`. */
  function WithThousands(i: int): string
  {
    if i < 0 then "-" + NatWithThousands(-i) else NatWithThousands(i)
  }

  function RemoveCommas(s: string): (r: string)
  {
    if s == [] then [] else (if s[0] == ',' then "" else [s[0]]) + RemoveCommas(s[1..])
  }

  lemma {:induction false} RemoveCommasAppend(a: string, b: string)
    ensures RemoveCommas(a + b) == RemoveCommas(a) + RemoveCommas(b)
  {
    if a != [] {
      assert (a + b)[1..] == a[1..] + b;
      RemoveCommasAppend(a[1..], b);
    } else {
      assert a + b == b;
    }
  }

  lemma {:induction false} RemoveCommasDigits(s: string)
    requires AllDigits(s)
    ensures RemoveCommas(s) == s
  {
    if s != [] { RemoveCommasDigits(s[1..]); }
  }

  /** The last three digits of `str(n)` are `n % 1000` padded to three places. */
  lemma NatToStringSplit(n: nat)
    requires n >= 1000
    ensures NatToString(n) == NatToString(n / 1000) + Pad3(n % 1000)
  {
    var a, b, c := n / 10, n / 100, n / 1000;
    DecimalDigits(n);
    assert NatToString(n) == NatToString(a) + [Digit(n % 10)];
    assert NatToString(a) == NatToString(b) + [Digit(a % 10)];
    assert NatToString(b) == NatToString(c) + [Digit(b % 10)];
  }

  lemma DivUnique10(n: int, q: int, r: int)
    requires n == 10 * q + r && 0 <= r < 10
    ensures n / 10 == q && n % 10 == r
  {
  }

  lemma DivUnique100(n: int, q: int, r: int)
    requires n == 100 * q + r && 0 <= r < 100
    ensures n / 100 == q && n % 100 == r
  {
  }

  /** How the last three decimal digits of `n` relate to `n % 1000`. */
  lemma DecimalDigits(n: nat)
    ensures n / 100 == n / 10 / 10 && n / 1000 == n / 100 / 10
    ensures (n % 1000) / 100 == n / 100 % 10
    ensures (n % 1000) / 10 % 10 == n / 10 % 10
    ensures (n % 1000) % 10 == n % 10
  {
    var c, m := n / 1000, n % 1000;
    var m2, m1, m0 := m / 100, m / 10 % 10, m % 10;
    assert m == 100 * m2 + 10 * m1 + m0;
    DivUnique10(n, 100 * c + 10 * m2 + m1, m0);
    DivUnique100(n, 10 * c + m2, 10 * m1 + m0);
    DivUnique10(n / 10, 10 * c + m2, m1);
    DivUnique10(n / 100, c, m2);
    DivUnique10(n / 10 / 10, c, m2);
  }

  /** A character other than a comma survives at the head. */
  lemma RemoveCommasCons(c: char, t: string)
    requires c != ','
    ensures RemoveCommas([c] + t) == [c] + RemoveCommas(t)
  {
    assert ([c] + t)[1..] == t;
  }

  /** The thousands format only inserts commas: removing them gives back `str(n)`. */
  lemma {:induction false} WithThousandsDigits(i: int)
    ensures RemoveCommas(WithThousands(i)) == IntToString(i)
  {
    if i < 0 {
      var n: nat := -i;
      var t := NatWithThousands(n);
      assert WithThousands(i) == ['-'] + t;
      NatWithThousandsDigits(n);
      RemoveCommasCons('-', t);
    } else {
      NatWithThousandsDigits(i);
    }
  }

  lemma {:induction false} NatWithThousandsDigits(n: nat)
    ensures RemoveCommas(NatWithThousands(n)) == NatToString(n)
    decreases n
  {
    if n < 1000 {
      RemoveCommasDigits(NatToString(n));
    } else {
      var head, tail := NatWithThousands(n / 1000), Pad3(n % 1000);
      NatWithThousandsDigits(n / 1000);
      RemoveCommasGroup(head, tail);
      NatToStringSplit(n);
    }
  }

  /** Removing the commas of `head,ddd` keeps the group's digits after `head`'s. */
  lemma RemoveCommasGroup(head: string, tail: string)
    requires AllDigits(tail)
    ensures RemoveCommas(head + "," + tail) == RemoveCommas(head) + tail
  {
    RemoveCommasComma(tail);
    RemoveCommasAppend(head, [','] + tail);
    assert head + "," + tail == head + ([','] + tail);
  }

  lemma RemoveCommasComma(tail: string)
    requires AllDigits(tail)
    ensures RemoveCommas([','] + tail) == tail
  {
    assert ([','] + tail)[1..] == tail;
    RemoveCommasDigits(tail);
  }
}

/** String helpers shared by the firmware text generators: JavaScript's rendering
    of integers in template literals, ASCII upper-casing, character replacement,
    substring search (`String.prototype.includes`), `Array.prototype.join`, and a
    line view of generated text with its inverse. */
module Strings {

  datatype Option<T> = None | Some(value: T)

  // ---------------------------------------------------------------------------
  // Decimal rendering of integers (what `${n}` produces for an integer n)

  function Digit(d: nat): (c: char)
    requires d < 10
    ensures '0' <= c <= '9'
  {
    "0123456789"[d]
  }

  function DigitValue(c: char): (d: nat)
    requires '0' <= c <= '9'
    ensures d < 10 && Digit(d) == c
  {
    (c as int - '0' as int) as nat
  }

  predicate IsDigits(s: string)
  {
    |s| > 0 && forall i :: 0 <= i < |s| ==> '0' <= s[i] <= '9'
  }

  function NatToString(n: nat): (s: string)
    ensures IsDigits(s) && NoNewline(s)
  {
    if n < 10 then [Digit(n)] else NatToString(n / 10) + [Digit(n % 10)]
  }

  function IntToString(i: int): (s: string)
    ensures |s| > 0 && NoNewline(s)
  {
    if i < 0 then "-" + NatToString(-i) else NatToString(i)
  }

  function ParseNat(s: string): nat
    requires IsDigits(s)
  {
    if |s| == 1 then DigitValue(s[0])
    else ParseNat(s[..|s| - 1]) * 10 + DigitValue(s[|s| - 1])
  }

  /** Reads back an optionally signed decimal integer; None when `s` is not one. */
  function ParseInt(s: string): Option<int>
  {
    if |s| > 1 && s[0] == '-' && IsDigits(s[1..]) then Some(0 - ParseNat(s[1..]) as int)
    else if IsDigits(s) then Some(ParseNat(s))
    else None
  }

  lemma {:induction false} ParseNatOfNatToString(n: nat)
    ensures ParseNat(NatToString(n)) == n
  {
    if n >= 10 {
      var s := NatToString(n);
      assert s[..|s| - 1] == NatToString(n / 10);
      ParseNatOfNatToString(n / 10);
    }
  }

  /** Decimal rendering is undone by parsing: the integer written into a
      declaration is the one a reader of the text recovers. */
  lemma IntToStringRoundTrip(i: int)
    ensures ParseInt(IntToString(i)) == Some(i)
  {
    if i < 0 {
      var n: nat := -i;
      assert IntToString(i) == "-" + NatToString(n);
      NegativeRoundTrip(n);
    } else {
      assert IntToString(i) == NatToString(i);
      NonNegativeRoundTrip(i);
    }
  }

  lemma NonNegativeRoundTrip(n: nat)
    ensures ParseInt(NatToString(n)) == Some(n)
  {
    var s := NatToString(n);
    assert s[0] != '-';
    ParseNatOfNatToString(n);
  }

  lemma NegativeRoundTrip(n: nat)
    requires n > 0
    ensures ParseInt("-" + NatToString(n)) == Some(-(n as int))
  {
    var d := NatToString(n);
    var s := "-" + d;
    assert s[1..] == d;
    ParseNatOfNatToString(n);
  }

  lemma IntToStringInjective(i: int, j: int)
    requires IntToString(i) == IntToString(j)
    ensures i == j
  {
    IntToStringRoundTrip(i);
    IntToStringRoundTrip(j);
  }

  // ---------------------------------------------------------------------------
  // Character-level helpers

  /** ASCII `toUpperCase`: lower-case letters a-z become A-Z, everything else is kept. */
  function UpperChar(c: char): char
  {
    if 'a' <= c <= 'z' then (c as int - 32) as char else c
  }

  function Upper(s: string): string
  {
    if s == [] then [] else [UpperChar(s[0])] + Upper(s[1..])
  }

  /** Upper-casing works character by character and keeps the length. */
  lemma {:induction false} UpperChars(s: string)
    ensures |Upper(s)| == |s|
    ensures forall i :: 0 <= i < |s| ==> Upper(s)[i] == UpperChar(s[i])
  {
    if s != [] {
      UpperChars(s[1..]);
    }
  }

  /** `s.replace(/x/g, y)` for single characters x and y. */
  function ReplaceChar(s: string, x: char, y: char): string
  {
    if s == [] then [] else [if s[0] == x then y else s[0]] + ReplaceChar(s[1..], x, y)
  }

  /** Replacement works character by character and keeps the length. */
  lemma {:induction false} ReplaceCharChars(s: string, x: char, y: char)
    ensures |ReplaceChar(s, x, y)| == |s|
    ensures forall i :: 0 <= i < |s| ==> ReplaceChar(s, x, y)[i] == (if s[i] == x then y else s[i])
  {
    if s != [] {
      ReplaceCharChars(s[1..], x, y);
    }
  }

  predicate IsPrefix(p: string, s: string)
  {
    |p| <= |s| && s[..|p|] == p
  }

  /** t occurs in s at position k (checked character by character from m on). */
  predicate MatchAt(s: string, t: string, k: nat, m: nat)
    requires k + |t| <= |s| && m <= |t|
    decreases |t| - m
  {
    m == |t| || (s[k + m] == t[m] && MatchAt(s, t, k, m + 1))
  }

  /** t occurs in s at some position k' >= k. */
  predicate ContainsFrom(s: string, t: string, k: nat)
    decreases |s| - k
  {
    k + |t| <= |s| && (MatchAt(s, t, k, 0) || ContainsFrom(s, t, k + 1))
  }

  /** `s.includes(t)`. */
  predicate Contains(s: string, t: string)
  {
    ContainsFrom(s, t, 0)
  }

  /** No occurrence of t from k on when no position can begin one: at every
      position where t would fit, its first or second character differs. */
  lemma {:induction false} NotContainsFrom(s: string, t: string, k: nat)
    requires |t| >= 2
    requires forall j :: k <= j && j + |t| <= |s| ==> s[j] != t[0] || s[j + 1] != t[1]
    ensures !ContainsFrom(s, t, k)
    decreases |s| - k
  {
    if k + |t| <= |s| {
      assert !MatchAt(s, t, k, 0);
      NotContainsFrom(s, t, k + 1);
    }
  }

  /** `parts.join(sep)`. */
  function Join(parts: seq<string>, sep: string): string
  {
    if parts == [] then ""
    else if |parts| == 1 then parts[0]
    else parts[0] + sep + Join(parts[1..], sep)
  }

  // ---------------------------------------------------------------------------
  // Line view of generated text

  predicate NoNewline(s: string)
  {
    forall i :: 0 <= i < |s| ==> s[i] != '\n'
  }

  lemma NoNewlineConcat(a: string, b: string)
    requires NoNewline(a) && NoNewline(b)
    ensures NoNewline(a + b)
  {
    forall i | 0 <= i < |a + b| ensures (a + b)[i] != '\n' {
      if i < |a| { assert (a + b)[i] == a[i]; } else { assert (a + b)[i] == b[i - |a|]; }
    }
  }

  predicate AllLines(ls: seq<string>)
  {
    forall i :: 0 <= i < |ls| ==> NoNewline(ls[i])
  }

  lemma AllLinesConcat(a: seq<string>, b: seq<string>)
    requires AllLines(a) && AllLines(b)
    ensures AllLines(a + b)
  {
    forall i | 0 <= i < |a + b| ensures NoNewline((a + b)[i]) {
      if i < |a| { assert (a + b)[i] == a[i]; } else { assert (a + b)[i] == b[i - |a|]; }
    }
  }

  /** The text built by appending `line + "\n"` for each line in turn. */
  function Text(ls: seq<string>): string
  {
    if ls == [] then "" else Text(ls[..|ls| - 1]) + ls[|ls| - 1] + "\n"
  }

  /** Lines separated by "\n", without a newline after the last one. */
  function JoinLines(ls: seq<string>): string
  {
    if ls == [] then "" else Text(ls[..|ls| - 1]) + ls[|ls| - 1]
  }

  /** `s.split("\n")`. */
  function SplitLines(s: string): (r: seq<string>)
    ensures |r| > 0
  {
    if s == [] then [""]
    else if s[0] == '\n' then [""] + SplitLines(s[1..])
    else var r := SplitLines(s[1..]); [[s[0]] + r[0]] + r[1..]
  }

  lemma {:induction false} TextConcat(a: seq<string>, b: seq<string>)
    ensures Text(a + b) == Text(a) + Text(b)
    decreases |b|
  {
    if b != [] {
      var b' := b[..|b| - 1];
      assert (a + b)[..|a + b| - 1] == a + b';
      TextConcat(a, b');
    } else {
      assert a + b == a;
    }
  }

  /** Appending a line appends it and a newline to the text. */
  lemma TextSnoc(ls: seq<string>, l: string)
    ensures Text(ls + [l]) == Text(ls) + l + "\n"
  {
    assert (ls + [l])[..|ls|] == ls;
  }

  /** The text is empty exactly when there are no lines. */
  lemma TextEmpty(ls: seq<string>)
    ensures Text(ls) == "" <==> ls == []
  {
    if ls != [] {
      assert |Text(ls)| >= |Text(ls[..|ls| - 1]) + ls[|ls| - 1] + "\n"|;
    }
  }

  lemma TextFront(ls: seq<string>)
    requires ls != []
    ensures Text(ls) == ls[0] + "\n" + Text(ls[1..])
  {
    assert ls == [ls[0]] + ls[1..];
    TextConcat([ls[0]], ls[1..]);
    assert [ls[0]][..0] == [];
  }

  lemma JoinLinesAppend(ls: seq<string>, s: string)
    ensures JoinLines(ls + [s]) == Text(ls) + s
  {
    assert (ls + [s])[..|ls|] == ls;
  }

  lemma JoinLinesConcat(a: seq<string>, b: seq<string>)
    requires b != []
    ensures JoinLines(a + b) == Text(a) + JoinLines(b)
  {
    var b', last := b[..|b| - 1], b[|b| - 1];
    assert b == b' + [last];
    assert a + b == (a + b') + [last];
    JoinLinesConcatLast(a, b', last);
  }

  lemma JoinLinesConcatLast(a: seq<string>, b: seq<string>, last: string)
    ensures JoinLines((a + b) + [last]) == Text(a) + JoinLines(b + [last])
  {
    JoinLinesAppend(a + b, last);
    JoinLinesAppend(b, last);
    TextConcat(a, b);
    ConcatAssoc(Text(a), Text(b), last);
  }

  lemma ConcatAssoc<T>(x: seq<T>, y: seq<T>, z: seq<T>)
    ensures (x + y) + z == x + (y + z)
  {
  }

  lemma {:induction false} SplitLinesPrefix(x: string, y: string)
    requires NoNewline(x)
    ensures SplitLines(x + y) == [x + SplitLines(y)[0]] + SplitLines(y)[1..]
    decreases |x|
  {
    if x != [] {
      assert (x + y)[1..] == x[1..] + y;
      SplitLinesPrefix(x[1..], y);
      assert [x[0]] + (x[1..] + SplitLines(y)[0]) == x + SplitLines(y)[0];
    } else {
      var r := SplitLines(y);
      assert x + y == y;
      assert x + r[0] == r[0];
      assert [r[0]] + r[1..] == r;
    }
  }

  lemma SplitLinesLine(x: string, y: string)
    requires NoNewline(x)
    ensures SplitLines(x + "\n" + y) == [x] + SplitLines(y)
  {
    assert x + "\n" + y == x + ("\n" + y);
    SplitLinesPrefix(x, "\n" + y);
    assert ("\n" + y)[1..] == y;
    var r := SplitLines("\n" + y);
    assert r == [""] + SplitLines(y);
    assert x + r[0] == x;
    assert r[1..] == SplitLines(y);
  }

  /** Splitting at a line break splits the text before it and the text after it
      separately. */
  lemma {:induction false} SplitLinesNewline(a: string, b: string)
    ensures SplitLines(a + "\n" + b) == SplitLines(a) + SplitLines(b)
    decreases |a|
  {
    var s := a + "\n" + b;
    if a == [] {
      assert s == "\n" + b && s[1..] == b;
    } else {
      assert s[0] == a[0] && s[1..] == a[1..] + "\n" + b;
      SplitLinesNewline(a[1..], b);
      var p, q := SplitLines(a[1..]), SplitLines(b);
      if a[0] == '\n' {
        assert SplitLines(s) == [""] + (p + q);
      } else {
        assert (p + q)[0] == p[0] && (p + q)[1..] == p[1..] + q;
        assert SplitLines(s) == [[a[0]] + p[0]] + (p[1..] + q);
      }
    }
  }

  lemma {:induction false} SplitLinesOfText(ls: seq<string>, rest: string)
    requires AllLines(ls)
    ensures SplitLines(Text(ls) + rest) == ls + SplitLines(rest)
    decreases |ls|
  {
    if ls != [] {
      var y := Text(ls[1..]);
      TextFront(ls);
      ConcatAssoc(ls[0] + "\n", y, rest);
      SplitLinesLine(ls[0], y + rest);
      SplitLinesOfText(ls[1..], rest);
      assert ls == [ls[0]] + ls[1..];
      ConcatAssoc([ls[0]], ls[1..], SplitLines(rest));
    } else {
      assert Text(ls) + rest == rest;
    }
  }

  /** Splitting the joined text at its newlines gives the lines back. */
  lemma SplitJoinLines(ls: seq<string>)
    requires ls != [] && AllLines(ls)
    ensures SplitLines(JoinLines(ls)) == ls
  {
    var init := ls[..|ls| - 1];
    var last := ls[|ls| - 1];
    SplitLinesOfText(init, last);
    SplitLinesPrefix(last, "");
    assert last + "" == last;
    assert init + [last] == ls;
  }

  // ---------------------------------------------------------------------------
  // `const int NAME = VALUE;` declarations

  function DeclarationPrefix(name: string): string
  {
    "const int " + name + " = "
  }

  function DeclarationLine(name: string, value: string): string
  {
    DeclarationPrefix(name) + value + ";"
  }

  lemma DeclarationLineNoNewline(name: string, value: string)
    requires NoNewline(name) && NoNewline(value)
    ensures NoNewline(DeclarationLine(name, value))
  {
    assert NoNewline("const int ") && NoNewline(" = ") && NoNewline(";");
    NoNewlineConcat("const int ", name);
    NoNewlineConcat("const int " + name, " = ");
    NoNewlineConcat("const int " + name + " = ", value);
    NoNewlineConcat("const int " + name + " = " + value, ";");
  }

  predicate IsDeclarationOf(line: string, name: string)
  {
    IsPrefix(DeclarationPrefix(name), line) && |line| > |DeclarationPrefix(name)|
      && line[|line| - 1] == ';'
  }

  /** The value text of the first line that declares `name`, as a reader of the
      generated sketch finds it. */
  function DeclaredValue(lines: seq<string>, name: string): Option<string>
  {
    if lines == [] then None
    else if IsDeclarationOf(lines[0], name) then
      Some(lines[0][|DeclarationPrefix(name)|..|lines[0]| - 1])
    else DeclaredValue(lines[1..], name)
  }

  lemma {:induction false} DeclaredValueAt(lines: seq<string>, name: string, i: nat, value: string)
    requires i < |lines| && lines[i] == DeclarationLine(name, value)
    requires forall j :: 0 <= j < i ==> !IsDeclarationOf(lines[j], name)
    ensures DeclaredValue(lines, name) == Some(value)
  {
    var p := DeclarationPrefix(name);
    if i == 0 {
      var l := lines[0];
      assert l[..|p|] == p;
      assert l[|p|..|l| - 1] == value;
    } else {
      assert !IsDeclarationOf(lines[0], name);
      DeclaredValueAt(lines[1..], name, i - 1, value);
    }
  }

  /** A line that differs from the declaration prefix of `name` at some position
      inside that prefix declares nothing of that name. */
  lemma NotDeclarationAt(line: string, name: string, k: nat)
    requires k < |DeclarationPrefix(name)| && k < |line| && line[k] != DeclarationPrefix(name)[k]
    ensures !IsDeclarationOf(line, name)
  {
    var p := DeclarationPrefix(name);
    if |p| <= |line| {
      assert line[..|p|][k] == line[k];
    }
  }

  /** A blank line or a comment line declares nothing: the search moves on. */
  lemma DeclaredValueSkip(lines: seq<string>, name: string)
    requires |lines| > 0 && (|lines[0]| == 0 || lines[0][0] == '/')
    ensures DeclaredValue(lines, name) == DeclaredValue(lines[1..], name)
  {
    if |lines[0]| > 0 {
      NotDeclarationByFirstChar(lines[0], name);
    }
  }

  /** When the lines before position i are blank or comments, and lines i and i+1
      declare two names with different first letters, those are the values found. */
  lemma FirstDeclarations(ls: seq<string>, i: nat, n1: string, v1: string, n2: string, v2: string)
    requires i + 1 < |ls| && ls[i] == DeclarationLine(n1, v1) && ls[i + 1] == DeclarationLine(n2, v2)
    requires |n1| > 0 && |n2| > 0 && n1[0] != n2[0]
    requires forall j :: 0 <= j < i ==> |ls[j]| == 0 || ls[j][0] == '/'
    ensures DeclaredValue(ls, n1) == Some(v1) && DeclaredValue(ls, n2) == Some(v2)
  {
    forall j | 0 <= j < i ensures !IsDeclarationOf(ls[j], n1) && !IsDeclarationOf(ls[j], n2) {
      if |ls[j]| > 0 {
        NotDeclarationByFirstChar(ls[j], n1);
        NotDeclarationByFirstChar(ls[j], n2);
      }
    }
    DeclaredValueAt(ls, n1, i, v1);
    DeclarationOfOtherName(n1, v1, n2, 0);
    DeclaredValueAt(ls, n2, i + 1, v2);
  }

  /** A declaration of one name is not a declaration of a name that differs from it
      at some position both have. */
  lemma DeclarationOfOtherName(n1: string, v: string, n2: string, k: nat)
    requires k < |n1| && k < |n2| && n1[k] != n2[k]
    ensures !IsDeclarationOf(DeclarationLine(n1, v), n2)
  {
    var line := DeclarationLine(n1, v);
    assert line == "const int " + (n1 + " = " + v + ";");
    assert line[10 + k] == n1[k];
    var p := DeclarationPrefix(n2);
    assert p == "const int " + (n2 + " = ");
    assert p[10 + k] == n2[k];
    NotDeclarationAt(line, n2, 10 + k);
  }

  /** A line whose first character is not 'c' declares nothing. */
  lemma NotDeclarationByFirstChar(line: string, name: string)
    requires |line| > 0 && line[0] != 'c'
    ensures !IsDeclarationOf(line, name)
  {
    NotDeclarationAt(line, name, 0);
  }
}

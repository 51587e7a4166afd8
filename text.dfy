/** String operations with the meaning the Python standard library gives them:
    str.strip, str.startswith, the `in` substring test, str.split with one
    separator character, str.splitlines, str.join, str.lower and str(int). */
module Text {

  /** The characters for which Python's str.isspace() holds. */
  predicate IsSpace(c: char) {
    || c == ' '
    || ('\t' <= c <= '\r')               // \t \n \v \f \r
    || ('\U{1C}' <= c <= '\U{1F}')       // file, group, record and unit separators
    || c == '\U{85}' || c == '\U{A0}' || c == '\U{1680}'
    || ('\U{2000}' <= c <= '\U{200A}')
    || c == '\U{2028}' || c == '\U{2029}' || c == '\U{202F}' || c == '\U{205F}'
    || c == '\U{3000}'
  }

  /** What a strip removes: whitespace (`strip()`) or one given character (`strip(c)`). */
  datatype Strippable = Whitespace | Only(c: char)

  predicate Drops(what: Strippable, c: char) {
    match what
    case Whitespace => IsSpace(c)
    case Only(d) => c == d
  }

  /** Removes the leading characters that `what` drops (str.lstrip). */
  function DropLeading(s: string, what: Strippable): string
    decreases |s|
  {
    if |s| > 0 && Drops(what, s[0]) then DropLeading(s[1..], what) else s
  }

  /** Removes the trailing characters that `what` drops (str.rstrip). */
  function DropTrailing(s: string, what: Strippable): string
    decreases |s|
  {
    if |s| > 0 && Drops(what, s[|s| - 1]) then DropTrailing(s[..|s| - 1], what) else s
  }

  /** str.strip() (surrounding whitespace) and str.strip(c) (surrounding copies of c). */
  function StripOf(s: string, what: Strippable): string {
    DropTrailing(DropLeading(s, what), what)
  }

  function Strip(s: string): string {
    StripOf(s, Whitespace)
  }

  /** lstrip keeps a suffix that does not start with a dropped character and cuts off
      only dropped characters. */
  lemma {:induction false} DropLeadingShape(s: string, what: Strippable)
    ensures var r := DropLeading(s, what);
      && |r| <= |s| && r == s[|s| - |r|..]
      && (r == [] || !Drops(what, r[0]))
      && (forall i :: 0 <= i < |s| - |r| ==> Drops(what, s[i]))
    decreases |s|
  {
    if |s| > 0 && Drops(what, s[0]) {
      DropLeadingShape(s[1..], what);
    }
  }

  /** rstrip keeps a prefix that does not end with a dropped character and cuts off
      only dropped characters. */
  lemma {:induction false} DropTrailingShape(s: string, what: Strippable)
    ensures var r := DropTrailing(s, what);
      && |r| <= |s| && r == s[..|r|]
      && (r == [] || !Drops(what, r[|r| - 1]))
      && (forall i :: |r| <= i < |s| ==> Drops(what, s[i]))
    decreases |s|
  {
    if |s| > 0 && Drops(what, s[|s| - 1]) {
      DropTrailingShape(s[..|s| - 1], what);
    }
  }

  /** A stripped string is a contiguous piece s[lo..hi] of the original, and everything
      cut off around it is dropped. */
  lemma StripShape(s: string, what: Strippable) returns (lo: nat, hi: nat)
    ensures lo <= hi <= |s| && StripOf(s, what) == s[lo..hi]
    ensures forall i :: 0 <= i < lo ==> Drops(what, s[i])
    ensures forall i :: hi <= i < |s| ==> Drops(what, s[i])
  {
    var l := DropLeading(s, what);
    var r := DropTrailing(l, what);
    DropLeadingShape(s, what);
    DropTrailingShape(l, what);
    lo, hi := |s| - |l|, |s| - |l| + |r|;
    assert r == s[lo..hi];
    forall i | hi <= i < |s| ensures Drops(what, s[i]) {
      assert s[i] == l[i - lo];
    }
  }

  /** A stripped string neither starts nor ends with a dropped character. */
  lemma StripEdges(s: string, what: Strippable)
    ensures var r := StripOf(s, what); r == [] || (!Drops(what, r[0]) && !Drops(what, r[|r| - 1]))
  {
    var l := DropLeading(s, what);
    var r := DropTrailing(l, what);
    DropLeadingShape(s, what);
    DropTrailingShape(l, what);
    if r != [] {
      assert r[0] == l[0];
    }
  }

  /** Stripping twice removes nothing more than stripping once. */
  lemma StripIdempotent(s: string, what: Strippable)
    ensures StripOf(StripOf(s, what), what) == StripOf(s, what)
  {
    var r := StripOf(s, what);
    StripEdges(s, what);
    assert DropLeading(r, what) == r;
    assert DropTrailing(r, what) == r;
  }

  /** Neither end of s is a character `what` drops. */
  predicate Unpadded(s: string, what: Strippable) {
    s == [] || (!Drops(what, s[0]) && !Drops(what, s[|s| - 1]))
  }

  /** A text with nothing to drop at either end is its own strip. */
  lemma StripOfUnpadded(s: string, what: Strippable)
    requires Unpadded(s, what)
    ensures StripOf(s, what) == s
  {
  }

  /** A final newline after such a text is stripped away. */
  lemma StripFinalNewline(s: string)
    requires s != [] && !IsSpace(s[0]) && !IsSpace(s[|s| - 1])
    ensures Strip(s + "\n") == s
  {
    var t := s + "\n";
    assert t[0] == s[0];
    assert DropLeading(t, Whitespace) == t;
    assert t[|t| - 1] == '\n' && t[..|t| - 1] == s;
    assert DropTrailing(s, Whitespace) == s;
  }

  /** str.startswith(prefix) */
  predicate StartsWith(s: string, prefix: string) {
    |prefix| <= |s| && s[..|prefix|] == prefix
  }

  /** Python's `sub in s` on strings: some position of s starts a copy of sub. */
  predicate Contains(s: string, sub: string)
    decreases |s|
  {
    StartsWith(s, sub) || (|s| > 0 && Contains(s[1..], sub))
  }

  lemma {:induction false} ContainsIff(s: string, sub: string)
    ensures Contains(s, sub) <==> exists i :: 0 <= i <= |s| && StartsWith(s[i..], sub)
    decreases |s|
  {
    if StartsWith(s, sub) {
      assert s[0..] == s;
    } else if |s| > 0 {
      ContainsIff(s[1..], sub);
      if Contains(s[1..], sub) {
        var i :| 0 <= i <= |s| - 1 && StartsWith(s[1..][i..], sub);
        assert s[1..][i..] == s[i + 1..];
      }
      if exists i :: 0 <= i <= |s| && StartsWith(s[i..], sub) {
        var i :| 0 <= i <= |s| && StartsWith(s[i..], sub);
        assert s[0..] == s;
        assert i > 0;
        assert s[1..][i - 1..] == s[i..];
      }
    } else {
      assert forall i :: 0 <= i <= |s| ==> s[i..] == s;
    }
  }

  /** The position of the first `c` in s, or |s| when there is none (str.find, with |s| for -1). */
  function IndexOf(s: string, c: char): (i: nat)
    ensures i <= |s|
    ensures i < |s| ==> s[i] == c
    ensures forall j :: 0 <= j < i ==> s[j] != c
    decreases |s|
  {
    if |s| == 0 then 0
    else if s[0] == c then 0
    else 1 + IndexOf(s[1..], c)
  }

  /** The first occurrence is where IndexOf stops. */
  lemma {:induction false} IndexOfFirst(s: string, c: char, n: nat)
    requires n < |s| && s[n] == c
    requires forall j :: 0 <= j < n ==> s[j] != c
    ensures IndexOf(s, c) == n
    decreases n
  {
    if n > 0 {
      IndexOfFirst(s[1..], c, n - 1);
    }
  }

  /** str.split(sep) for a one-character separator: always at least one part. The
      first character either ends an empty first part or opens the first part. */
  function Split(s: string, sep: char): (parts: seq<string>)
    ensures |parts| >= 1
    decreases |s|
  {
    if |s| == 0 then [""]
    else
      var rest := Split(s[1..], sep);
      if s[0] == sep then [""] + rest else [[s[0]] + rest[0]] + rest[1..]
  }

  /** A text without the separator is one part. */
  lemma {:induction false} SplitWithout(s: string, sep: char)
    requires sep !in s
    ensures Split(s, sep) == [s]
    decreases |s|
  {
    if |s| > 0 {
      assert sep !in s[1..] by {
        assert forall j :: 0 <= j < |s| - 1 ==> s[1..][j] == s[j + 1];
      }
      SplitWithout(s[1..], sep);
      assert [s[0]] + s[1..] == s;
    }
  }

  /** The first separator ends the first part. */
  lemma {:induction false} SplitAt(a: string, sep: char, b: string)
    requires sep !in a
    ensures Split(a + [sep] + b, sep) == [a] + Split(b, sep)
    decreases |a|
  {
    var s := a + [sep] + b;
    if |a| == 0 {
      assert s[0] == sep && s[1..] == b;
    } else {
      assert s[0] == a[0] && s[1..] == a[1..] + [sep] + b;
      assert sep !in a[1..] by {
        assert forall j :: 0 <= j < |a| - 1 ==> a[1..][j] == a[j + 1];
      }
      SplitAt(a[1..], sep, b);
      assert [a[0]] + a[1..] == a;
    }
  }

  /** str.join: the parts with sep between neighbours. */
  function Join(parts: seq<string>, sep: string): string
    decreases |parts|
  {
    if |parts| == 0 then ""
    else if |parts| == 1 then parts[0]
    else parts[0] + sep + Join(parts[1..], sep)
  }

  /** A character put in front of the first part comes out in front of the join. */
  lemma JoinConsFirst(c: char, p: string, ps: seq<string>, sep: string)
    ensures Join([[c] + p] + ps, sep) == [c] + Join([p] + ps, sep)
  {
    if |ps| > 0 {
      assert ([[c] + p] + ps)[1..] == ps == ([p] + ps)[1..];
    }
  }

  /** Splitting and joining back with the same separator gives the text back. */
  lemma {:induction false} SplitJoin(s: string, sep: char)
    ensures Join(Split(s, sep), [sep]) == s
    decreases |s|
  {
    if |s| > 0 {
      var rest := Split(s[1..], sep);
      SplitJoin(s[1..], sep);
      if s[0] == sep {
        assert ([""] + rest)[1..] == rest;
      } else {
        JoinConsFirst(s[0], rest[0], rest[1..], [sep]);
        assert [rest[0]] + rest[1..] == rest;
      }
      assert [s[0]] + s[1..] == s;
    }
  }

  /** Appending a part to a non-empty list adds the separator and the part at the end. */
  lemma {:induction false} JoinAppend(parts: seq<string>, p: string, sep: string)
    requires |parts| > 0
    ensures Join(parts + [p], sep) == Join(parts, sep) + sep + p
    decreases |parts|
  {
    if |parts| == 1 {
      assert (parts + [p])[1..] == [p];
    } else {
      JoinAppend(parts[1..], p, sep);
      assert (parts + [p])[1..] == parts[1..] + [p];
    }
  }

  /** The last part of Split(s, sep): what follows the last separator, or all of s. */
  function LastPart(s: string, sep: char): string {
    var parts := Split(s, sep);
    parts[|parts| - 1]
  }

  /** When Split gives a single part, that part is the whole text. */
  lemma LastPartWhole(s: string, sep: char)
    requires |Split(s, sep)| == 1
    ensures LastPart(s, sep) == s
  {
    SplitJoin(s, sep);
  }

  /** How the last part of a non-empty text comes from the last part of its tail: a
      leading character joins it only when the tail is a single part with no separator. */
  lemma LastPartStep(s: string, sep: char)
    requires |s| > 0
    ensures s[0] == sep || |Split(s[1..], sep)| > 1 ==> LastPart(s, sep) == LastPart(s[1..], sep)
    ensures s[0] != sep && |Split(s[1..], sep)| == 1 ==> LastPart(s, sep) == s
  {
    var rest := Split(s[1..], sep);
    if s[0] != sep && |rest| == 1 {
      LastPartWhole(s[1..], sep);
      assert [s[0]] + s[1..] == s;
    }
  }

  /** The last part holds no separator. */
  lemma {:induction false} LastPartNoSep(s: string, sep: char)
    ensures sep !in LastPart(s, sep)
    decreases |s|
  {
    if |s| > 0 {
      LastPartNoSep(s[1..], sep);
      LastPartStep(s, sep);
      if LastPart(s, sep) != LastPart(s[1..], sep) {
        LastPartWhole(s[1..], sep);
        assert s == [s[0]] + s[1..];
      }
    }
  }

  /** What the source relies on about `s.split(sep)[-1]`: it is a suffix of s without
      the separator, and it is either all of s or comes right after a separator. */
  lemma LastPartShape(s: string, sep: char)
    ensures var r := LastPart(s, sep);
      && |r| <= |s| && r == s[|s| - |r|..] && sep !in r
      && (|r| == |s| || s[|s| - |r| - 1] == sep)
  {
    LastPartNoSep(s, sep);
    var parts := Split(s, sep);
    var r := parts[|parts| - 1];
    if |parts| == 1 {
      LastPartWhole(s, sep);
    } else {
      var init := parts[..|parts| - 1];
      assert parts == init + [r];
      SplitJoin(s, sep);
      JoinAppend(init, r, [sep]);
      assert s == Join(init, [sep]) + [sep] + r;
    }
  }

  /** A text holding the separator splits into at least two parts. */
  lemma {:induction false} SplitMany(x: string, sep: char, y: string)
    ensures |Split(x + [sep] + y, sep)| >= 2
    decreases |x|
  {
    var s := x + [sep] + y;
    if |x| == 0 {
      assert s[0] == sep && s[1..] == y;
    } else {
      assert s[1..] == x[1..] + [sep] + y;
      SplitMany(x[1..], sep, y);
    }
  }

  /** The last part is what follows the last separator. */
  lemma {:induction false} LastPartAfter(a: string, sep: char, b: string)
    requires sep !in b
    ensures LastPart(a + [sep] + b, sep) == b
    decreases |a|
  {
    var s := a + [sep] + b;
    if |a| == 0 {
      assert s[0] == sep && s[1..] == b;
      LastPartStep(s, sep);
      SplitWithout(b, sep);
    } else {
      assert s[1..] == a[1..] + [sep] + b;
      SplitMany(a[1..], sep, b);
      LastPartStep(s, sep);
      LastPartAfter(a[1..], sep, b);
    }
  }

  /** The characters at which str.splitlines() breaks a line. */
  predicate IsLineBreak(c: char) {
    || c == '\n' || c == '\r' || c == '\U{0B}' || c == '\U{0C}'
    || c == '\U{1C}' || c == '\U{1D}' || c == '\U{1E}'
    || c == '\U{85}' || c == '\U{2028}' || c == '\U{2029}'
  }

  /** Length of the first line: the position of the first line break, or |s|. */
  function LineLength(s: string): (n: nat)
    ensures n <= |s|
    ensures n < |s| ==> IsLineBreak(s[n])
    ensures forall j :: 0 <= j < n ==> !IsLineBreak(s[j])
    decreases |s|
  {
    if |s| == 0 || IsLineBreak(s[0]) then 0 else 1 + LineLength(s[1..])
  }

  /** str.splitlines(): "\r\n" counts as one break and a final break opens no empty line. */
  function SplitLines(s: string): (lines: seq<string>)
    ensures forall k :: 0 <= k < |lines| ==> forall j :: 0 <= j < |lines[k]| ==> !IsLineBreak(lines[k][j])
    decreases |s|
  {
    if |s| == 0 then []
    else
      var n := LineLength(s);
      if n == |s| then [s]
      else
        var width := if s[n] == '\r' && n + 1 < |s| && s[n + 1] == '\n' then 2 else 1;
        [s[..n]] + SplitLines(s[n + width..])
  }

  /** A text without line breaks is one line; the empty text is no line at all. */
  lemma SplitLinesSingle(s: string)
    requires forall j :: 0 <= j < |s| ==> !IsLineBreak(s[j])
    ensures SplitLines(s) == if s == [] then [] else [s]
  {
  }

  /** ASCII letters lowered one by one; every other character is kept. */
  function LowerChar(c: char): char {
    if 'A' <= c <= 'Z' then (c as int - 'A' as int + 'a' as int) as char else c
  }

  function Lower(s: string): (r: string)
    ensures |r| == |s|
    ensures forall i :: 0 <= i < |s| ==> r[i] == LowerChar(s[i])
  {
    seq(|s|, i requires 0 <= i < |s| => LowerChar(s[i]))
  }

  /** Lowering twice lowers no further. */
  lemma LowerIdempotent(s: string)
    ensures Lower(Lower(s)) == Lower(s)
  {
  }

  /** No character of the text is an ASCII letter. */
  predicate NoLetters(sub: string) {
    forall j :: 0 <= j < |sub| ==> !('a' <= sub[j] <= 'z') && !('A' <= sub[j] <= 'Z')
  }

  /** Lowering a text does not change whether it starts with a prefix that has
      no letters. */
  lemma LowerStartsWith(s: string, sub: string)
    requires NoLetters(sub)
    ensures StartsWith(Lower(s), sub) <==> StartsWith(s, sub)
  {
    if |sub| <= |s| {
      if StartsWith(Lower(s), sub) {
        forall j | 0 <= j < |sub| ensures s[j] == sub[j] {
          assert Lower(s)[..|sub|][j] == LowerChar(s[j]);
        }
        assert s[..|sub|] == sub;
      }
      if StartsWith(s, sub) {
        forall j | 0 <= j < |sub| ensures LowerChar(s[j]) == sub[j] {
          assert s[..|sub|][j] == s[j];
        }
        assert Lower(s)[..|sub|] == sub;
      }
    }
  }

  /** Lowering a text does not change whether it holds a needle that has no
      letters. */
  lemma {:induction false} LowerContains(s: string, sub: string)
    requires NoLetters(sub)
    ensures Contains(Lower(s), sub) <==> Contains(s, sub)
    decreases |s|
  {
    LowerStartsWith(s, sub);
    if |s| > 0 {
      assert Lower(s)[1..] == Lower(s[1..]);
      LowerContains(s[1..], sub);
    }
  }

  function DigitChar(d: nat): char
    requires d < 10
  {
    ('0' as int + d) as char
  }

  /** str(n) for a natural number: its decimal digits, most significant first. */
  function NatToString(n: nat): (r: string)
    ensures |r| >= 1
    ensures forall i :: 0 <= i < |r| ==> '0' <= r[i] <= '9'
    decreases n
  {
    if n < 10 then [DigitChar(n)] else NatToString(n / 10) + [DigitChar(n % 10)]
  }

  /** str(n) for any integer: a minus sign before the digits of a negative number. */
  function IntToString(n: int): (r: string)
    ensures |r| >= 1
    ensures (r[0] == '-') <==> n < 0
  {
    if n < 0 then "-" + NatToString(-n) else NatToString(n)
  }
}

/** The JavaScript string built-ins the extension relies on, modelled on `seq<char>`:
    `split` with a one-character separator, `trim`, `replace` of the first occurrence of a
    string, `toLowerCase` (ASCII only), `' '.repeat(n)`, and joining. */
module Strings {
  import opened Wrappers

  // ---------------------------------------------------------------------------
  // split

  /** `s.split(c)`: the pieces of `s` between the occurrences of `c`. The empty string
      splits into one empty piece, and two adjacent separators give an empty piece. */
  function Split(s: string, c: char): (r: seq<string>)
    ensures |r| >= 1
    decreases |s|
  {
    if s == [] then [""]
    else if s[0] == c then [""] + Split(s[1..], c)
    else
      var rest := Split(s[1..], c);
      [[s[0]] + rest[0]] + rest[1..]
  }

  /** `parts.join(sep)`. */
  function JoinWith(parts: seq<string>, sep: string): string
    decreases |parts|
  {
    if |parts| == 0 then ""
    else if |parts| == 1 then parts[0]
    else parts[0] + sep + JoinWith(parts[1..], sep)
  }

  /** Every piece of `parts` is free of the character `c`. */
  predicate NoneContains(parts: seq<string>, c: char) {
    forall i :: 0 <= i < |parts| ==> c !in parts[i]
  }

  lemma {:induction false} SplitNoSeparator(s: string, c: char)
    requires c !in s
    ensures Split(s, c) == [s]
    decreases |s|
  {
    if s != [] {
      assert c !in s[1..];
      SplitNoSeparator(s[1..], c);
      assert [s[0]] + s[1..] == s;
    }
  }

  /** Splitting at the first separator: the text before it is the first piece. */
  lemma {:induction false} SplitAtFirst(a: string, c: char, b: string)
    requires c !in a
    ensures Split(a + [c] + b, c) == [a] + Split(b, c)
    decreases |a|
  {
    var s := a + [c] + b;
    if a == [] {
      assert s[0] == c && s[1..] == b;
    } else {
      assert s[0] == a[0] && s[1..] == a[1..] + [c] + b;
      SplitAtFirst(a[1..], c, b);
      assert [a[0]] + a[1..] == a;
    }
  }

  /** `split` is undone by `join`: the pieces glue back to the input, and none holds the
      separator. */
  lemma {:induction false} SplitJoin(s: string, c: char)
    ensures JoinWith(Split(s, c), [c]) == s
    ensures NoneContains(Split(s, c), c)
    decreases |s|
  {
    if c !in s {
      SplitNoSeparator(s, c);
    } else {
      var k :| 0 <= k < |s| && s[k] == c;
      var i := FirstIndex(s, c, k);
      assert s == s[..i] + [c] + s[i + 1..];
      SplitAtFirst(s[..i], c, s[i + 1..]);
      SplitJoin(s[i + 1..], c);
      var rest := Split(s[i + 1..], c);
      assert Split(s, c) == [s[..i]] + rest;
      assert ([s[..i]] + rest)[1..] == rest;
    }
  }

  /** The position of the first `c` in `s`, given that `s[k] == c`. */
  function FirstIndex(s: string, c: char, k: nat): (i: nat)
    requires k < |s| && s[k] == c
    ensures i <= k && s[i] == c && c !in s[..i]
  {
    if c in s[..k] then
      var j :| 0 <= j < k && s[..k][j] == c;
      FirstIndex(s, c, j)
    else k
  }

  lemma {:induction false} SplitOfJoin(parts: seq<string>, c: char)
    requires |parts| >= 1 && NoneContains(parts, c)
    ensures Split(JoinWith(parts, [c]), c) == parts
    decreases |parts|
  {
    if |parts| == 1 {
      SplitNoSeparator(parts[0], c);
    } else {
      SplitOfJoin(parts[1..], c);
      SplitAtFirst(parts[0], c, JoinWith(parts[1..], [c]));
      assert [parts[0]] + parts[1..] == parts;
    }
  }

  /** The first piece of a split is the longest prefix free of the separator. */
  lemma SplitFirstPiece(s: string, c: char)
    ensures var p := Split(s, c)[0];
      |p| <= |s| && p == s[..|p|] && c !in p && (|p| < |s| ==> s[|p|] == c) &&
      (|Split(s, c)| >= 2 ==> |p| < |s|)
  {
    SplitJoin(s, c);
    var ps := Split(s, c);
    if |ps| >= 2 {
      assert s == ps[0] + [c] + JoinWith(ps[1..], [c]);
    }
    assert c !in ps[0];
  }

  // ---------------------------------------------------------------------------
  // lines

  /** `s.split("\n")` and its last element: the text after the last line break. */
  function LastLine(s: string): string {
    var lines := Split(s, '\n');
    lines[|lines| - 1]
  }

  /** The last line is the suffix of `s` after its final line break, or all of `s`. */
  lemma LastLineSuffix(s: string)
    ensures |LastLine(s)| <= |s|
    ensures LastLine(s) == s[|s| - |LastLine(s)|..]
    ensures '\n' !in LastLine(s)
    ensures |LastLine(s)| < |s| ==> s[|s| - |LastLine(s)| - 1] == '\n'
  {
    SplitJoin(s, '\n');
    LastPieceOfJoin(Split(s, '\n'), '\n');
  }

  lemma {:induction false} LastPieceOfJoin(parts: seq<string>, c: char)
    requires |parts| >= 1
    ensures var s := JoinWith(parts, [c]); var last := parts[|parts| - 1];
      |last| <= |s| && s[|s| - |last|..] == last && (|parts| > 1 ==> |last| < |s| && s[|s| - |last| - 1] == c)
    decreases |parts|
  {
    if |parts| > 1 {
      LastPieceOfJoin(parts[1..], c);
      var tail := JoinWith(parts[1..], [c]);
      var s := parts[0] + [c] + tail;
      assert JoinWith(parts, [c]) == s;
      assert s[|s| - |tail|..] == tail;
      var last := parts[|parts| - 1];
      if |parts| > 2 {
        assert s[|s| - |last| - 1] == tail[|tail| - |last| - 1];
      } else {
        assert last == tail;
      }
    }
  }

  /** The last line of `s` is its only suffix that holds no line feed and starts the
      text or follows a line feed. */
  lemma LastLineUnique(s: string, t: string)
    requires |t| <= |s| && s[|s| - |t|..] == t && '\n' !in t
    requires |t| == |s| || s[|s| - |t| - 1] == '\n'
    ensures LastLine(s) == t
  {
    LastLineSuffix(s);
  }

  /** Appending text without a line feed lengthens the last line; appending text with one
      starts a new last line inside the appended text. */
  lemma LastLineAppend(a: string, b: string)
    ensures '\n' !in b ==> LastLine(a + b) == LastLine(a) + b
    ensures '\n' in b ==> LastLine(a + b) == LastLine(b)
  {
    var s := a + b;
    LastLineSuffix(a);
    LastLineSuffix(b);
    if '\n' !in b {
      var t := LastLine(a) + b;
      assert s[|s| - |t|..] == t;
      assert '\n' !in t;
      if |t| < |s| {
        assert s[|s| - |t| - 1] == a[|a| - |LastLine(a)| - 1];
      }
      LastLineUnique(s, t);
    } else {
      var t := LastLine(b);
      assert s[|s| - |t|..] == t;
      assert s[|s| - |t| - 1] == b[|b| - |t| - 1];
      LastLineUnique(s, t);
    }
  }

  /** `s` followed by a line break, for each element in order. */
  function Unlines(lines: seq<string>): string
    decreases |lines|
  {
    if lines == [] then "" else lines[0] + "\n" + Unlines(lines[1..])
  }

  lemma UnlinesOne(line: string)
    ensures Unlines([line]) == line + "\n"
  {
    assert [line][1..] == [];
  }

  lemma {:induction false} UnlinesAppend(a: seq<string>, b: seq<string>)
    ensures Unlines(a + b) == Unlines(a) + Unlines(b)
    decreases |a|
  {
    if a != [] {
      assert (a + b)[1..] == a[1..] + b;
      UnlinesAppend(a[1..], b);
    } else {
      assert a + b == b;
    }
  }

  /** Text made of lines, each ending in a break, splits back into those lines and one
      empty piece after the final break. */
  lemma {:induction false} SplitUnlines(lines: seq<string>)
    requires NoneContains(lines, '\n')
    ensures Split(Unlines(lines), '\n') == lines + [""]
    decreases |lines|
  {
    if lines == [] {
    } else {
      SplitUnlines(lines[1..]);
      SplitAtFirst(lines[0], '\n', Unlines(lines[1..]));
      assert [lines[0]] + (lines[1..] + [""]) == lines + [""];
    }
  }

  // ---------------------------------------------------------------------------
  // concatenation

  function Concat(parts: seq<string>): string
    decreases |parts|
  {
    if parts == [] then "" else parts[0] + Concat(parts[1..])
  }

  lemma {:induction false} ConcatAppend(a: seq<string>, b: seq<string>)
    ensures Concat(a + b) == Concat(a) + Concat(b)
    decreases |a|
  {
    if a != [] {
      assert (a + b)[1..] == a[1..] + b;
      ConcatAppend(a[1..], b);
    } else {
      assert a + b == b;
    }
  }

  lemma JoinWithAppendOne(parts: seq<string>, sep: string, x: string)
    requires |parts| >= 1
    ensures JoinWith(parts + [x], sep) == JoinWith(parts, sep) + sep + x
    decreases |parts|
  {
    if |parts| > 1 {
      assert (parts + [x])[1..] == parts[1..] + [x];
      JoinWithAppendOne(parts[1..], sep, x);
    }
  }

  /** The prefix of `parts` one longer: the next part, after the separator unless it is
      the first. */
  lemma JoinWithSnoc(parts: seq<string>, sep: string, i: nat)
    requires i < |parts|
    ensures JoinWith(parts[..i + 1], sep) == (if i == 0 then "" else JoinWith(parts[..i], sep) + sep) + parts[i]
  {
    assert parts[..i + 1] == parts[..i] + [parts[i]];
    if i != 0 {
      JoinWithAppendOne(parts[..i], sep, parts[i]);
    }
  }

  // ---------------------------------------------------------------------------
  // ' '.repeat(n)

  function Spaces(n: nat): (r: string)
    ensures |r| == n && forall i :: 0 <= i < n ==> r[i] == ' '
  {
    seq(n, _ => ' ')
  }

  // ---------------------------------------------------------------------------
  // trim

  /** The characters `String.prototype.trim` removes: JavaScript's WhiteSpace
      (tab, vertical tab, form feed, space, no-break space, byte-order mark and the
      Unicode space separators) and LineTerminator (LF, CR, LS, PS) sets. */
  predicate IsSpace(ch: char) {
    ch == '\t' || ch == '\n' || ch == '\U{000B}' || ch == '\U{000C}' || ch == '\r' ||
    ch == ' ' || ch == '\U{00A0}' || ch == '\U{1680}' || ('\U{2000}' <= ch <= '\U{200A}') ||
    ch == '\U{2028}' || ch == '\U{2029}' || ch == '\U{202F}' || ch == '\U{205F}' ||
    ch == '\U{3000}' || ch == '\U{FEFF}'
  }

  function TrimStart(s: string): (r: string)
    ensures |r| <= |s|
    decreases |s|
  {
    if s != [] && IsSpace(s[0]) then TrimStart(s[1..]) else s
  }

  function TrimEnd(s: string): string
    decreases |s|
  {
    if s != [] && IsSpace(s[|s| - 1]) then TrimEnd(s[..|s| - 1]) else s
  }

  /** `s.trim()`. */
  function Trim(s: string): string {
    TrimEnd(TrimStart(s))
  }

  lemma {:induction false} TrimStartSuffix(s: string)
    ensures var t := TrimStart(s);
      |t| <= |s| && t == s[|s| - |t|..] &&
      (forall k :: 0 <= k < |s| - |t| ==> IsSpace(s[k])) &&
      (t != [] ==> !IsSpace(t[0]))
    decreases |s|
  {
    if s != [] && IsSpace(s[0]) {
      TrimStartSuffix(s[1..]);
      var t := TrimStart(s[1..]);
      forall k | 0 <= k < |s| - |t| ensures IsSpace(s[k]) {
        if k > 0 { assert s[k] == s[1..][k - 1]; }
      }
    }
  }

  lemma {:induction false} TrimEndPrefix(s: string)
    ensures var t := TrimEnd(s);
      |t| <= |s| && t == s[..|t|] &&
      (forall k :: |t| <= k < |s| ==> IsSpace(s[k])) &&
      (t != [] ==> !IsSpace(t[|t| - 1]))
    decreases |s|
  {
    if s != [] && IsSpace(s[|s| - 1]) {
      TrimEndPrefix(s[..|s| - 1]);
      var t := TrimEnd(s[..|s| - 1]);
      forall k | |t| <= k < |s| ensures IsSpace(s[k]) {
        if k < |s| - 1 { assert s[k] == s[..|s| - 1][k]; }
      }
    }
  }

  /** How many white-space characters `trim` drops from the front of `s`. */
  function TrimmedFront(s: string): nat {
    |s| - |TrimStart(s)|
  }

  /** `trim` keeps one contiguous slice of its input, starting after the leading white
      space: only white space lies outside it, and the slice neither starts nor ends with
      white space. */
  lemma TrimSlice(s: string)
    ensures TrimmedFront(s) + |Trim(s)| <= |s|
    ensures Trim(s) == s[TrimmedFront(s)..TrimmedFront(s) + |Trim(s)|]
    ensures forall k :: 0 <= k < TrimmedFront(s) ==> IsSpace(s[k])
    ensures forall k :: TrimmedFront(s) + |Trim(s)| <= k < |s| ==> IsSpace(s[k])
    ensures Trim(s) != [] ==> !IsSpace(Trim(s)[0]) && !IsSpace(Trim(s)[|Trim(s)| - 1])
  {
    var u := TrimStart(s);
    TrimStartSuffix(s);
    TrimEndPrefix(u);
    var t := TrimEnd(u);
    var i := |s| - |u|;
    assert u == s[i..];
    assert t == u[..|t|];
    assert s[i..][..|t|] == s[i..i + |t|];
    forall k | i + |t| <= k < |s| ensures IsSpace(s[k]) {
      assert s[k] == u[k - i];
    }
  }

  // ---------------------------------------------------------------------------
  // replace (first occurrence of a string pattern)

  /** `pat` occurs in `s` starting at position `k`. */
  predicate OccursAt(s: string, pat: string, k: nat) {
    k + |pat| <= |s| && s[k..k + |pat|] == pat
  }

  /** Index of the first occurrence of `pat` in `s` at or after `from`. */
  function IndexFrom(s: string, pat: string, from: nat): (r: Option<nat>)
    requires from <= |s|
    ensures r.Some? ==> from <= r.value && OccursAt(s, pat, r.value)
    ensures forall k: nat :: from <= k && (r.None? || k < r.value) ==> !OccursAt(s, pat, k)
    decreases |s| - from
  {
    if from + |pat| > |s| then None
    else if s[from..from + |pat|] == pat then Some(from)
    else IndexFrom(s, pat, from + 1)
  }

  /** `s.indexOf(pat)`, as an option. */
  function IndexOf(s: string, pat: string): Option<nat> {
    IndexFrom(s, pat, 0)
  }

  /** `s.replace(pat, replacement)` with a string pattern: only the first occurrence is
      replaced. */
  function ReplaceFirst(s: string, pat: string, replacement: string): string {
    match IndexOf(s, pat)
    case None => s
    case Some(i) => s[..i] + replacement + s[i + |pat|..]
  }

  /** Replacing changes nothing when `pat` does not occur, and otherwise substitutes the
      first occurrence only. */
  lemma ReplaceFirstSpec(s: string, pat: string, replacement: string)
    ensures (forall k: nat :: !OccursAt(s, pat, k)) ==> ReplaceFirst(s, pat, replacement) == s
    ensures forall i: nat :: OccursAt(s, pat, i) && (forall k: nat :: k < i ==> !OccursAt(s, pat, k)) ==>
      ReplaceFirst(s, pat, replacement) == s[..i] + replacement + s[i + |pat|..]
  {
    if forall k: nat :: !OccursAt(s, pat, k) {
      assert IndexOf(s, pat).None?;
    }
    forall i: nat | OccursAt(s, pat, i) && (forall k: nat :: k < i ==> !OccursAt(s, pat, k))
      ensures ReplaceFirst(s, pat, replacement) == s[..i] + replacement + s[i + |pat|..]
    {
      FirstOccurrence(s, pat, i);
    }
  }

  /** The first occurrence is the one `indexOf` finds. */
  lemma FirstOccurrence(s: string, pat: string, i: nat)
    requires OccursAt(s, pat, i) && forall k: nat :: k < i ==> !OccursAt(s, pat, k)
    ensures IndexOf(s, pat) == Some(i)
  {
    var r := IndexOf(s, pat);
    assert r.Some?;
    assert !(r.value < i) && !(i < r.value);
  }

  // ---------------------------------------------------------------------------
  // toLowerCase (ASCII)

  function LowerChar(ch: char): char {
    if 'A' <= ch <= 'Z' then (ch as int - 'A' as int + 'a' as int) as char else ch
  }

  /** `s.toLowerCase()`, restricted to the ASCII letters. */
  function Lower(s: string): (r: string)
    ensures |r| == |s| && forall i :: 0 <= i < |s| ==> r[i] == LowerChar(s[i])
  {
    seq(|s|, i requires 0 <= i < |s| => LowerChar(s[i]))
  }

  /** Lowercasing keeps a name free of line feeds. */
  lemma LowerKeepsLines(s: string)
    ensures '\n' !in s ==> '\n' !in Lower(s)
  {
    if '\n' !in s {
      forall k | 0 <= k < |s| ensures Lower(s)[k] != '\n' {
        assert s[k] != '\n';
      }
    }
  }

  /** Every name in lower case, in order. */
  function LowerAll(names: seq<string>): (r: seq<string>)
    ensures |r| == |names| && forall i :: 0 <= i < |names| ==> r[i] == Lower(names[i])
  {
    seq(|names|, i requires 0 <= i < |names| => Lower(names[i]))
  }
}

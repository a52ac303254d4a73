/** The ctags layer of the extension (src/ctags.ts): the `Symbol` record, the parser for
    one tab-separated line of ctags output, and the `Ctags` symbol table that the three
    generation commands fill from the whole output of one ctags run. */
module Tags {
  import opened Wrappers
  import opened Strings
  import opened Seqs

  /** One declaration reported by ctags. `kind` is the source's `type` field; `bus` and
      `parentScope` may be `undefined` in the source. Nothing updates a symbol after it is
      built. */
  datatype Symbol = Symbol(
    name: string,
    kind: string,
    bus: Option<string>,
    pattern: string,
    parentScope: Option<string>,
    parentType: string,
    isValid: bool)

  /** The kinds `Ctags.buildSymbolsList` keeps. */
  const TagKinds: set<string> := {"module", "input", "output", "parameter"}

  /** The kinds the `ModuleTags` override in each command file keeps. */
  const LegacyKinds: set<string> := {"module", "port", "constant"}

  // ---------------------------------------------------------------------------
  // parseTagLine

  /** The tokens of a tag line's third field: the first `"/^"` is removed, the result is
      trimmed and split at every single space. */
  function Declaration(field: string): (tokens: seq<string>)
    ensures |tokens| >= 1
  {
    Split(Trim(ReplaceFirst(field, "/^", "")), ' ')
  }

  /** The position of the last token after the first that contains `[`, or 0 when no
      token after the first does. */
  function LastBracketIndex(tokens: seq<string>): (j: nat)
    ensures j < |tokens| || j == 0
    ensures j != 0 ==> '[' in tokens[j]
    ensures forall k :: j < k < |tokens| ==> '[' !in tokens[k]
    decreases |tokens|
  {
    if |tokens| <= 1 then 0
    else if '[' in tokens[|tokens| - 1] then |tokens| - 1
    else
      var init := tokens[..|tokens| - 1];
      assert forall k :: 0 <= k < |init| ==> init[k] == tokens[k];
      LastBracketIndex(init)
  }

  /** The token the source's loop leaves in `bus`: the last one after the first that
      contains `[`, if any. */
  function LastBracket(tokens: seq<string>): Option<string> {
    var j := LastBracketIndex(tokens);
    if j == 0 then None else Some(tokens[j])
  }

  /** The bus width of a tag whose declaration tokens are `decl`: only inputs and
      outputs have one. */
  function BusOf(decl: seq<string>): Option<string>
    requires |decl| >= 1
  {
    if decl[0] == "input" || decl[0] == "output" then LastBracket(decl) else None
  }

  /** The fifth field split at colons, or nothing for a line without exactly five fields. */
  function ScopeOf(parts: seq<string>): (scope: seq<string>)
    ensures |scope| >= 1
  {
    Split(if |parts| == 5 then parts[4] else "", ':')
  }

  /** What `parseTagLine` returns for `line`: `undefined` (`None`) when the line has fewer
      than three tab-separated fields, since reading the third field then throws and the
      error is caught. */
  function Tag(line: string): Option<Symbol> {
    var parts := Split(line, '\t');
    if |parts| < 3 then None
    else
      var decl := Declaration(parts[2]);
      var scope := ScopeOf(parts);
      var parentType := if |parts| == 5 then scope[0] else "";
      var parentScope := if |parts| != 5 then Some("") else if |scope| >= 2 then Some(scope[1]) else None;
      Some(Symbol(parts[0], decl[0], BusOf(decl), "", parentScope, parentType, false))
  }

  /** `Ctags.parseTagLine`: the same computation with the source's loop over the
      declaration tokens, which overwrites `bus` at each token holding `[`. */
  method ParseTagLine(line: string) returns (r: Option<Symbol>)
    ensures r == Tag(line)
  {
    var parts := Split(line, '\t');
    if |parts| < 3 {
      // parts[2] is undefined: `replace` throws a TypeError, which the catch turns into undefined
      return None;
    }
    var name := parts[0];
    var declaration := Declaration(parts[2]);
    var kind := declaration[0];
    var bus: Option<string> := None;
    if kind == "input" || kind == "output" {
      bus := LastBracketLoop(declaration);
    }
    assert bus == BusOf(declaration);
    var parentScope: Option<string>;
    var parentType: string;
    if |parts| == 5 {
      var scope := Split(parts[4], ':');
      assert scope == ScopeOf(parts);
      parentType := scope[0];
      parentScope := if |scope| >= 2 then Some(scope[1]) else None;
    } else {
      parentScope := Some("");
      parentType := "";
    }
    r := Some(Symbol(name, kind, bus, "", parentScope, parentType, false));
  }

  /** The loop of `parseTagLine` over the declaration tokens after the first: `bus` is
      overwritten by every token that contains `[`. */
  method LastBracketLoop(declaration: seq<string>) returns (bus: Option<string>)
    ensures bus == LastBracket(declaration)
  {
    bus := None;
    if |declaration| <= 1 {
      return;
    }
    for i := 1 to |declaration|
      invariant bus == LastBracket(declaration[..i])
    {
      ghost var prefix := declaration[..i + 1];
      TakeTake(declaration, i, i + 1);
      if '[' in declaration[i] {
        bus := Some(declaration[i]);
        assert LastBracketIndex(prefix) == i;
      } else {
        assert LastBracketIndex(prefix) == LastBracketIndex(declaration[..i]);
      }
    }
    TakeAll(declaration);
  }

  /** A line has fewer than three fields exactly when it holds fewer than two tabs. */
  lemma {:induction false} SplitCount(s: string, c: char)
    ensures |Split(s, c)| == multiset(s)[c] + 1
    decreases |s|
  {
    if s != [] {
      SplitCount(s[1..], c);
      assert s == [s[0]] + s[1..];
      assert multiset(s) == multiset([s[0]]) + multiset(s[1..]);
    }
  }

  /** `parseTagLine` gives `undefined` exactly for a line with fewer than two tabs, and
      otherwise always an empty `pattern` and `isValid` false. */
  lemma TagDefined(line: string)
    ensures Tag(line).None? <==> multiset(line)['\t'] < 2
    ensures Tag(line).Some? ==> Tag(line).value.pattern == "" && !Tag(line).value.isValid
  {
    SplitCount(line, '\t');
  }

  /** The name is exactly the text before the first tab. */
  lemma TagName(line: string)
    requires Tag(line).Some?
    ensures var name := Tag(line).value.name;
      |name| < |line| && name == line[..|name|] && '\t' !in name && line[|name|] == '\t'
  {
    SplitFirstPiece(line, '\t');
  }

  /** The kind is the text of the third field, with its first `"/^"` removed and trimmed,
      up to the first space. */
  lemma TagKind(line: string)
    requires Tag(line).Some?
    ensures var d := Trim(ReplaceFirst(Split(line, '\t')[2], "/^", ""));
      var kind := Tag(line).value.kind;
      |kind| <= |d| && kind == d[..|kind|] && ' ' !in kind && (|kind| < |d| ==> d[|kind|] == ' ')
  {
    SplitFirstPiece(Trim(ReplaceFirst(Split(line, '\t')[2], "/^", "")), ' ');
  }

  /** The bus the source's loop finds is undefined exactly when no token after the first
      holds `[`, and otherwise is the last token that does. */
  lemma LastBracketSpec(tokens: seq<string>)
    ensures LastBracket(tokens).None? <==> forall k :: 1 <= k < |tokens| ==> '[' !in tokens[k]
    ensures LastBracket(tokens).Some? ==>
      var j := LastBracketIndex(tokens);
      1 <= j < |tokens| && tokens[j] == LastBracket(tokens).value && '[' in tokens[j] &&
      forall k :: j < k < |tokens| ==> '[' !in tokens[k]
  {
    var j := LastBracketIndex(tokens);
    assert j != 0 ==> 1 <= j < |tokens| && '[' in tokens[j];
  }

  /** `bus` is set only for `input` and `output` tags, and then it is whatever the loop over
      the declaration tokens leaves (see `LastBracketSpec`). */
  lemma TagBus(line: string)
    requires Tag(line).Some?
    ensures var t := Tag(line).value;
      t.bus == if t.kind == "input" || t.kind == "output"
        then LastBracket(Declaration(Split(line, '\t')[2])) else None
  {
  }

  /** `s.split(c)[1]` is the first piece of what follows the first `c`. */
  lemma SplitSecondPiece(s: string, c: char)
    requires |Split(s, c)| >= 2
    ensures |Split(s, c)[0]| < |s| && Split(s, c)[1] == Split(s[|Split(s, c)[0]| + 1..], c)[0]
  {
    var p := Split(s, c)[0];
    SplitFirstPiece(s, c);
    assert s == p + [c] + s[|p| + 1..];
    SplitAtFirst(p, c, s[|p| + 1..]);
  }

  /** With exactly five fields, the fifth reads `parentType:parentScope`: the type is the
      text before the first colon, the scope the text after it up to any second colon, and
      the scope is undefined when there is no colon. With any other number of fields both
      are empty. */
  lemma TagParent(line: string)
    requires Tag(line).Some?
    ensures var parts := Split(line, '\t'); var t := Tag(line).value;
      (|parts| != 5 ==> t.parentType == "" && t.parentScope == Some("")) &&
      (|parts| == 5 ==>
        var f := parts[4];
        |t.parentType| <= |f| && t.parentType == f[..|t.parentType|] && ':' !in t.parentType &&
        (t.parentScope.None? <==> ':' !in f) &&
        (t.parentScope.Some? ==>
          var rest := f[|t.parentType| + 1..];
          f[|t.parentType|] == ':' &&
          |t.parentScope.value| <= |rest| && t.parentScope.value == rest[..|t.parentScope.value|] &&
          ':' !in t.parentScope.value &&
          (|t.parentScope.value| < |rest| ==> rest[|t.parentScope.value|] == ':')))
  {
    var parts := Split(line, '\t');
    if |parts| == 5 {
      var f := parts[4];
      SplitFirstPiece(f, ':');
      SplitCount(f, ':');
      var p := Split(f, ':')[0];
      if ':' !in f {
        assert multiset(f)[':'] == 0;
      } else {
        assert multiset(f)[':'] > 0;
        SplitSecondPiece(f, ':');
        SplitFirstPiece(f[|p| + 1..], ':');
      }
    }
  }

  // ---------------------------------------------------------------------------
  // buildSymbolsList

  function DropCR(s: string): string {
    if s != [] && s[|s| - 1] == '\r' then s[..|s| - 1] else s
  }

  /** Drops one trailing carriage return from every piece but the last. */
  function DropCRs(pieces: seq<string>): (r: seq<string>)
    ensures |r| == |pieces|
    decreases |pieces|
  {
    if |pieces| <= 1 then pieces else [DropCR(pieces[0])] + DropCRs(pieces[1..])
  }

  /** `tags.split(/\r?\n/)`: split at every line feed, each line feed taking one carriage
      return just before it along as part of the separator. */
  function Lines(tags: string): seq<string> {
    DropCRs(Split(tags, '\n'))
  }

  /** The three equations that determine `Lines`: text without a line feed is one line; a
      line ends at the first line feed, and a carriage return just before it is not part
      of the line. */
  lemma LinesEquations(a: string, b: string)
    requires '\n' !in a
    ensures Lines(a) == [a]
    ensures Lines(a + "\r\n" + b) == [a] + Lines(b)
    ensures (a == [] || a[|a| - 1] != '\r') ==> Lines(a + "\n" + b) == [a] + Lines(b)
  {
    SplitNoSeparator(a, '\n');
    SplitAtFirst(a + "\r", '\n', b);
    assert a + "\r\n" + b == (a + "\r") + ['\n'] + b;
    assert DropCR(a + "\r") == a;
    SplitAtFirst(a, '\n', b);
    assert a + "\n" + b == a + ['\n'] + b;
  }

  /** No line holds a line feed. */
  lemma LinesHaveNoLineFeed(tags: string)
    ensures NoneContains(Lines(tags), '\n')
  {
    SplitJoin(tags, '\n');
    DropCRsKeep(Split(tags, '\n'));
  }

  lemma {:induction false} DropCRsKeep(pieces: seq<string>)
    requires NoneContains(pieces, '\n')
    ensures NoneContains(DropCRs(pieces), '\n')
    decreases |pieces|
  {
    if |pieces| > 1 {
      DropCRsKeep(pieces[1..]);
      assert '\n' !in DropCR(pieces[0]);
    }
  }

  /** Every non-empty line parses: otherwise `buildSymbolsList` dereferences the
      `undefined` that `parseTagLine` returned and throws a TypeError. */
  predicate AllParse(lines: seq<string>)
    decreases |lines|
  {
    lines == [] || ((lines[0] == "" || Tag(lines[0]).Some?) && AllParse(lines[1..]))
  }

  /** `AllParse` line by line: every non-empty line has a tag. */
  lemma {:induction false} AllParseMeans(lines: seq<string>)
    ensures AllParse(lines) <==> forall i :: 0 <= i < |lines| && lines[i] != "" ==> Tag(lines[i]).Some?
    decreases |lines|
  {
    if lines != [] {
      AllParseMeans(lines[1..]);
      assert forall i :: 1 <= i < |lines| ==> lines[i] == lines[1..][i - 1];
    }
  }

  lemma {:induction false} AllParseAppend(a: seq<string>, b: seq<string>)
    ensures AllParse(a + b) <==> AllParse(a) && AllParse(b)
    decreases |a|
  {
    if a == [] {
      assert a + b == b;
    } else {
      assert (a + b)[1..] == a[1..] + b;
      assert (a + b)[0] == a[0];
      AllParseAppend(a[1..], b);
    }
  }

  /** The symbols one `buildSymbolsList` pass appends, in line order: the tags of the
      non-empty lines whose kind is in `kinds`, up to the first non-empty line that does
      not parse, where the pass throws. */
  function Accepted(lines: seq<string>, kinds: set<string>): seq<Symbol>
    decreases |lines|
  {
    if lines == [] then []
    else if lines[0] == "" then Accepted(lines[1..], kinds)
    else match Tag(lines[0])
      case None => []
      case Some(t) => (if t.kind in kinds then [t] else []) + Accepted(lines[1..], kinds)
  }

  /** A line that parses, in front of more lines, adds what it adds before them. */
  lemma AcceptedCons(line: string, rest: seq<string>, kinds: set<string>)
    requires line == "" || Tag(line).Some?
    ensures Accepted([line] + rest, kinds) == Added(line, kinds) + Accepted(rest, kinds)
  {
    var lines := [line] + rest;
    assert lines[0] == line;
    assert lines[1..] == rest;
  }

  lemma {:induction false} AcceptedAppend(a: seq<string>, b: seq<string>, kinds: set<string>)
    requires AllParse(a)
    ensures Accepted(a + b, kinds) == Accepted(a, kinds) + Accepted(b, kinds)
    decreases |a|
  {
    if a == [] {
      assert a + b == b;
    } else {
      var line := a[0];
      var rest := a[1..];
      AcceptedAppend(rest, b, kinds);
      ConsSplit(a);
      AppendAssoc([line], rest, b);
      AcceptedCons(line, rest + b, kinds);
      AcceptedCons(line, rest, kinds);
      AppendAssoc(Added(line, kinds), Accepted(rest, kinds), Accepted(b, kinds));
    }
  }

  /** Only symbols of the kinds of interest are kept. */
  lemma {:induction false} AcceptedKinds(lines: seq<string>, kinds: set<string>)
    ensures forall i :: 0 <= i < |Accepted(lines, kinds)| ==> Accepted(lines, kinds)[i].kind in kinds
    decreases |lines|
  {
    if lines != [] {
      AcceptedKinds(lines[1..], kinds);
    }
  }

  predicate NonEmpty(line: string) {
    line != ""
  }

  /** Empty lines, such as the one after a trailing line break, contribute nothing: the
      pass gives the same symbols with every empty line deleted. */
  lemma {:induction false} EmptyLinesIgnored(lines: seq<string>, kinds: set<string>)
    ensures Accepted(lines, kinds) == Accepted(Filter(lines, NonEmpty), kinds)
    decreases |lines|
  {
    if lines != [] {
      EmptyLinesIgnored(lines[1..], kinds);
      var rest := Filter(lines[1..], NonEmpty);
      if lines[0] != "" {
        assert Filter(lines, NonEmpty) == [lines[0]] + rest;
        assert ([lines[0]] + rest)[0] == lines[0];
        assert ([lines[0]] + rest)[1..] == rest;
      } else {
        assert Filter(lines, NonEmpty) == rest;
      }
    }
  }

  /** A non-empty line that does not parse ends the pass: nothing from it or after it is
      kept. */
  lemma FailureStops(lines: seq<string>, kinds: set<string>, i: nat)
    requires i < |lines| && lines[i] != "" && Tag(lines[i]).None? && AllParse(lines[..i])
    ensures Accepted(lines, kinds) == Accepted(lines[..i], kinds)
    ensures !AllParse(lines)
  {
    TakeDrop(lines, i);
    AcceptedAppend(lines[..i], lines[i..], kinds);
    AllParseAppend(lines[..i], lines[i..]);
    assert lines[i..][0] == lines[i];
  }

  /** What one line adds to the table: nothing for an empty line or a line that does not
      parse, and otherwise its tag when the tag's kind is kept. */
  function Added(line: string, kinds: set<string>): seq<Symbol> {
    if line != "" && Tag(line).Some? && Tag(line).value.kind in kinds then [Tag(line).value] else []
  }

  /** One more line of a pass that has parsed so far. */
  lemma AcceptedSnoc(lines: seq<string>, line: string, kinds: set<string>)
    requires AllParse(lines) && (line != "" ==> Tag(line).Some?)
    ensures AllParse(lines + [line])
    ensures Accepted(lines + [line], kinds) == Accepted(lines, kinds) + Added(line, kinds)
  {
    AcceptedAppend(lines, [line], kinds);
    AllParseAppend(lines, [line]);
    Singleton(line);
    AppendNil([line]);
    AcceptedCons(line, [], kinds);
    AppendNil(Added(line, kinds));
  }

  /** One round of the pass over the lines: either line `i` parses and the table grows by
      what it adds, or the pass throws with the table it had. */
  lemma PassStep(lines: seq<string>, i: nat, kinds: set<string>, start: seq<Symbol>, before: seq<Symbol>, after: seq<Symbol>, parsed: bool)
    requires i < |lines| && AllParse(lines[..i]) && before == start + Accepted(lines[..i], kinds)
    requires parsed <==> lines[i] == "" || Tag(lines[i]).Some?
    requires parsed ==> after == before + Added(lines[i], kinds)
    ensures parsed ==> AllParse(lines[..i + 1]) && after == start + Accepted(lines[..i + 1], kinds)
    ensures !parsed ==> !AllParse(lines) && before == start + Accepted(lines, kinds)
  {
    if parsed {
      TakeSnoc(lines, i);
      AcceptedSnoc(lines[..i], lines[i], kinds);
      var prev := Accepted(lines[..i], kinds);
      var more := Added(lines[i], kinds);
      assert after == start + prev + more;
      assert start + prev + more == start + (prev + more);
    } else {
      FailureStops(lines, kinds, i);
    }
  }

  /** The symbol table (class `Ctags`). Each generation command creates one, fills it from
      one ctags output and reads `symbols`. */
  class Ctags {
    var symbols: seq<Symbol>

    constructor ()
      ensures symbols == []
    {
      symbols := [];
    }

    /** `buildSymbolsList` with the kinds of interest as a parameter. `ok` is false when a
        non-empty line failed to parse and the pass threw; the symbols of the lines before
        it stay appended. The table is appended to, never reset. */
    method BuildSymbolsListOf(tags: string, kinds: set<string>) returns (ok: bool)
      modifies this
      ensures ok == AllParse(Lines(tags))
      ensures symbols == old(symbols) + Accepted(Lines(tags), kinds)
    {
      if tags == "" {
        // "No output from ctags"
        EmptyOutput(kinds);
        return true;
      }
      var lines := Lines(tags);
      for i := 0 to |lines|
        invariant AllParse(lines[..i])
        invariant symbols == old(symbols) + Accepted(lines[..i], kinds)
      {
        ghost var before := symbols;
        var parsed := AddLine(lines[i], kinds);
        PassStep(lines, i, kinds, old(symbols), before, symbols, parsed);
        if !parsed {
          return false;
        }
      }
      TakeAll(lines);
      return true;
    }

    /** The callback `buildSymbolsList` runs on each line: an empty line is passed over,
        and a line whose tag has a kind of interest is pushed onto the table. `parsed` is
        false when the line does not parse and the callback throws. */
    method AddLine(line: string, kinds: set<string>) returns (parsed: bool)
      modifies this
      ensures parsed <==> line == "" || Tag(line).Some?
      ensures symbols == old(symbols) + Added(line, kinds)
    {
      if line != "" {
        var tag := ParseTagLine(line);
        if tag.None? {
          return false;
        }
        if tag.value.kind in kinds {
          symbols := symbols + [tag.value];
        }
      }
      return true;
    }

    /** `Ctags.buildSymbolsList`: keeps modules, inputs, outputs and parameters. */
    method BuildSymbolsList(tags: string) returns (ok: bool)
      modifies this
      ensures ok == AllParse(Lines(tags))
      ensures symbols == old(symbols) + Accepted(Lines(tags), TagKinds)
    {
      ok := BuildSymbolsListOf(tags, TagKinds);
    }

    /** `ModuleTags.buildSymbolsList`, identical in the three command files: keeps
        modules, ports and constants. */
    method BuildModuleSymbolsList(tags: string) returns (ok: bool)
      modifies this
      ensures ok == AllParse(Lines(tags))
      ensures symbols == old(symbols) + Accepted(Lines(tags), LegacyKinds)
    {
      ok := BuildSymbolsListOf(tags, LegacyKinds);
    }
  }

  /** The table a command builds from ctags output: a fresh `ModuleTags` filled once, or
      nothing when the pass threw. */
  function ModuleTable(output: string): Option<seq<Symbol>> {
    if AllParse(Lines(output)) then Some(Accepted(Lines(output), LegacyKinds)) else None
  }

  /** Empty ctags output gives an empty table and no error. */
  lemma EmptyOutput(kinds: set<string>)
    ensures AllParse(Lines("")) && Accepted(Lines(""), kinds) == []
  {
    SplitNoSeparator("", '\n');
  }
}

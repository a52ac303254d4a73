/** `appendNames` in src/utils.ts: a list of names appended to a line Python style,
    separated by commas and wrapped under the first name. */
module Utils {
  import opened Strings
  import opened Seqs
  import opened Wrap

  /** The rounds of `appendNames`: each name is measured with a following comma and space,
      and every name but the last is followed by them. */
  function NamePieces(names: seq<string>): seq<Piece> {
    seq(|names|, i requires 0 <= i < |names| =>
      Piece(|names[i]| + 2, "", if i != |names| - 1 then names[i] + ", " else names[i]))
  }

  /** The break: a line feed and as many spaces as the last line of the start is long. */
  function NameBreak(start: string): string {
    "\n" + Spaces(|LastLine(start)|)
  }

  method AppendNames(start: string, names: seq<string>) returns (r: string)
    ensures r == Flow(start, NamePieces(names), NameBreak(start))
  {
    var curr := start;
    var splitInput := Split(start, '\n');
    var offset := Spaces(|splitInput[|splitInput| - 1]|);
    ghost var ps := NamePieces(names);
    var brk := "\n" + offset;
    assert ps[..0] == [];
    for i := 0 to |names|
      invariant curr == Flow(start, ps[..i], brk)
    {
      curr := AppendName(curr, names, i, brk);
      FlowSnoc(start, ps[..i], ps[i], brk);
      TakeSnoc(ps, i);
    }
    TakeAll(ps);
    r := curr;
  }

  /** One round of `appendNames`: the break when the name and its comma would pass the
      limit, then the name, then a comma and a space unless it is the last. */
  method AppendName(curr: string, names: seq<string>, i: nat, brk: string) returns (next: string)
    requires i < |names|
    ensures next == Step(curr, NamePieces(names)[i], brk)
  {
    ghost var p := NamePieces(names)[i];
    next := curr;
    if |LastLine(curr)| + |names[i]| + 2 > Limit {
      next := next + brk;
    }
    ghost var mid := next;
    next := next + names[i];
    if i != |names| - 1 {
      next := next + ", ";
    }
    assert next == mid + p.text;
  }

  lemma {:induction false} PlainNames(names: seq<string>)
    requires |names| >= 1
    ensures Plain(NamePieces(names)) == JoinWith(names, ", ")
    decreases |names|
  {
    if |names| > 1 {
      assert NamePieces(names)[1..] == NamePieces(names[1..]);
      PlainNames(names[1..]);
    }
  }

  /** Deleting every break `appendNames` inserted leaves the start followed by the names
      joined with a comma and a space, in their order. */
  lemma AppendNamesErased(start: string, names: seq<string>)
    ensures var ps := NamePieces(names); var ds := Breaks(start, ps, NameBreak(start));
      |ds| == |ps| && start + Weave(ps, "", ds) == start + JoinWith(names, ", ")
  {
    var ps := NamePieces(names);
    FlowIsWeave(start, ps, NameBreak(start));
    WeaveErased(ps, Breaks(start, ps, NameBreak(start)));
    if names != [] {
      PlainNames(names);
    }
  }

  /** The layout `appendNames` produces: the start followed by the names, a break before
      exactly those names that would carry the current line past column 79 with their
      comma and space, each broken line continuing under the first name; names that fit
      on the line are simply joined with commas. */
  lemma AppendNamesLayout(start: string, names: seq<string>)
    ensures var ps := NamePieces(names); var brk := NameBreak(start); var ds := Breaks(start, ps, brk);
      |ds| == |names| &&
      Flow(start, ps, brk) == start + Weave(ps, brk, ds) &&
      (forall i :: 0 <= i < |names| ==>
         (ds[i] <==> |LastLine(Flow(start, ps[..i], brk))| + |names[i]| + 2 > Limit)) &&
      (forall i :: 0 <= i < |names| && ds[i] && '\n' !in names[i] ==>
         LastLine(Flow(start, ps[..i + 1], brk)) == Spaces(|LastLine(start)|) + ps[i].text)
    ensures ((forall i :: 0 <= i < |names| ==> '\n' !in names[i]) &&
             |LastLine(start)| + |JoinWith(names, ", ")| + 2 <= Limit) ==>
      Flow(start, NamePieces(names), NameBreak(start)) == start + JoinWith(names, ", ")
  {
    var ps := NamePieces(names);
    var brk := NameBreak(start);
    FlowIsWeave(start, ps, brk);
    var ds := Breaks(start, ps, brk);
    forall i | 0 <= i < |names|
      ensures ds[i] <==> |LastLine(Flow(start, ps[..i], brk))| + |names[i]| + 2 > Limit
    {
      BreakAt(start, ps, brk, i);
    }
    forall i | 0 <= i < |names| && ds[i] && '\n' !in names[i]
      ensures LastLine(Flow(start, ps[..i + 1], brk)) == Spaces(|LastLine(start)|) + ps[i].text
    {
      NameBreakLine(start);
      NamePieceLines(names, i);
      ContinuationLine(start, ps, brk, i);
    }
    if (forall i :: 0 <= i < |names| ==> '\n' !in names[i]) &&
       |LastLine(start)| + |JoinWith(names, ", ")| + 2 <= Limit
    {
      if names == [] {
        assert ps == [];
      } else {
        PlainNames(names);
        forall k | 0 <= k < |ps| ensures '\n' !in ps[k].glue && '\n' !in ps[k].text {
          NamePieceLines(names, k);
        }
        FitsUnbroken(start, ps, brk, 2);
      }
    }
  }

  /** The break of `appendNames` starts a new line indented as far as the start's last line. */
  lemma NameBreakLine(start: string)
    ensures '\n' in NameBreak(start) && LastLine(NameBreak(start)) == Spaces(|LastLine(start)|)
  {
    var brk := NameBreak(start);
    assert brk[0] == '\n';
    LastLineUnique(brk, Spaces(|LastLine(start)|));
  }

  lemma NamePieceLines(names: seq<string>, i: nat)
    requires i < |names| && '\n' !in names[i]
    ensures NamePieces(names)[i].glue == "" && '\n' !in NamePieces(names)[i].text
  {
    var t := NamePieces(names)[i].text;
    assert t == names[i] || t == names[i] + ", ";
  }
}

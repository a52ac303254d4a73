/** The line-wrapping loop that every snippet builder repeats: pieces of text are appended
    one at a time, and before each piece the builder measures the current last line; when
    the piece would carry that line past column 79 it first appends a break (a quote, a line
    feed and an indentation, depending on the builder). */
module Wrap {
  import opened Strings
  import opened Seqs

  /** The column the generated Python and Verilog is kept to. */
  const Limit: nat := 79

  /** One round of a wrapping loop: the builder checks `width` more columns against the
      limit and then appends `text`, after `glue` when the line has room and after the
      break when it does not. */
  datatype Piece = Piece(width: nat, glue: string, text: string)

  predicate Overflows(acc: string, p: Piece) {
    |LastLine(acc)| + p.width > Limit
  }

  function Step(acc: string, p: Piece, brk: string): string {
    if Overflows(acc, p) then acc + brk + p.text else acc + p.glue + p.text
  }

  /** The text a wrapping loop has built after appending every piece to `acc`. */
  function Flow(acc: string, ps: seq<Piece>, brk: string): string
    decreases |ps|
  {
    if ps == [] then acc else Flow(Step(acc, ps[0], brk), ps[1..], brk)
  }

  /** For each piece, whether the loop broke the line before it. */
  function Breaks(acc: string, ps: seq<Piece>, brk: string): seq<bool>
    decreases |ps|
  {
    if ps == [] then [] else [Overflows(acc, ps[0])] + Breaks(Step(acc, ps[0], brk), ps[1..], brk)
  }

  /** The pieces laid out with a break before exactly those marked in `ds`. */
  function Weave(ps: seq<Piece>, brk: string, ds: seq<bool>): string
    requires |ds| == |ps|
    decreases |ps|
  {
    if ps == [] then ""
    else (if ds[0] then brk else ps[0].glue) + ps[0].text + Weave(ps[1..], brk, ds[1..])
  }

  /** The pieces on one line, with their glue and no break. */
  function Plain(ps: seq<Piece>): string
    decreases |ps|
  {
    if ps == [] then "" else ps[0].glue + ps[0].text + Plain(ps[1..])
  }

  /** What a wrapping loop builds is its start followed by every piece in order, each
      after either its glue or the break. */
  lemma {:induction false} FlowIsWeave(acc: string, ps: seq<Piece>, brk: string)
    ensures |Breaks(acc, ps, brk)| == |ps|
    ensures Flow(acc, ps, brk) == acc + Weave(ps, brk, Breaks(acc, ps, brk))
    decreases |ps|
  {
    if ps != [] {
      var p := ps[0];
      FlowIsWeave(Step(acc, p, brk), ps[1..], brk);
      var ds := Breaks(acc, ps, brk);
      assert ds[1..] == Breaks(Step(acc, p, brk), ps[1..], brk);
    }
  }

  /** Appending one more piece is one more round of the loop. */
  lemma {:induction false} FlowSnoc(acc: string, ps: seq<Piece>, p: Piece, brk: string)
    ensures Flow(acc, ps + [p], brk) == Step(Flow(acc, ps, brk), p, brk)
    decreases |ps|
  {
    if ps == [] {
      assert [] + [p] == [p];
    } else {
      assert (ps + [p])[1..] == ps[1..] + [p];
      FlowSnoc(Step(acc, ps[0], brk), ps[1..], p, brk);
    }
  }

  /** The last line after piece `i` of a wrapping loop that broke the line before it: the
      last line of the break followed by the piece. */
  lemma ContinuationLine(acc: string, ps: seq<Piece>, brk: string, i: nat)
    requires i < |ps| && '\n' in brk && '\n' !in ps[i].text
    requires |Breaks(acc, ps, brk)| == |ps| && Breaks(acc, ps, brk)[i]
    ensures LastLine(Flow(acc, ps[..i + 1], brk)) == LastLine(brk) + ps[i].text
  {
    BreakAt(acc, ps, brk, i);
    TakeSnoc(ps, i);
    FlowSnoc(acc, ps[..i], ps[i], brk);
    BreakRestartsLine(Flow(acc, ps[..i], brk), ps[i], brk);
  }

  /** The loop breaks the line before piece `i` exactly when that piece would carry the
      line built so far past the limit. */
  lemma {:induction false} BreakAt(acc: string, ps: seq<Piece>, brk: string, i: nat)
    requires i < |ps|
    ensures |Breaks(acc, ps, brk)| == |ps|
    ensures Breaks(acc, ps, brk)[i] == Overflows(Flow(acc, ps[..i], brk), ps[i])
    decreases i
  {
    FlowIsWeave(acc, ps, brk);
    if i > 0 {
      var next := Step(acc, ps[0], brk);
      BreakAt(next, ps[1..], brk, i - 1);
      TakeTail(ps, i);
    }
  }

  lemma {:induction false} WeaveUnbroken(ps: seq<Piece>, brk: string, ds: seq<bool>)
    requires |ds| == |ps| && forall k :: 0 <= k < |ds| ==> !ds[k]
    ensures Weave(ps, brk, ds) == Plain(ps)
    decreases |ps|
  {
    if ps != [] {
      WeaveUnbroken(ps[1..], brk, ds[1..]);
    }
  }

  /** Deleting the breaks of a layout whose pieces carry no glue (laying it out again with
      an empty break) leaves the pieces on one line, whichever breaks were taken. */
  lemma {:induction false} WeaveErased(ps: seq<Piece>, ds: seq<bool>)
    requires |ds| == |ps| && forall k :: 0 <= k < |ps| ==> ps[k].glue == ""
    ensures Weave(ps, "", ds) == Plain(ps)
    decreases |ps|
  {
    if ps != [] {
      WeaveErased(ps[1..], ds[1..]);
    }
  }

  lemma {:induction false} PlainAppend(a: seq<Piece>, b: seq<Piece>)
    ensures Plain(a + b) == Plain(a) + Plain(b)
    decreases |a|
  {
    if a == [] {
      assert a + b == b;
    } else {
      assert (a + b)[1..] == a[1..] + b;
      PlainAppend(a[1..], b);
    }
  }

  /** Pieces that fit on the current line are laid out on it without any break. A piece
      may be measured as up to `slack` columns wider than it is, and then the line must
      leave that room after the last piece; only the last piece may hold a line feed. */
  lemma FitsUnbroken(acc: string, ps: seq<Piece>, brk: string, slack: nat)
    requires forall k :: 0 <= k < |ps| - 1 ==> '\n' !in ps[k].glue && '\n' !in ps[k].text
    requires forall k :: 0 <= k < |ps| ==> ps[k].width <= |ps[k].glue| + |ps[k].text| + slack
    requires |LastLine(acc)| + |Plain(ps)| + slack <= Limit
    ensures |Breaks(acc, ps, brk)| == |ps|
    ensures forall k :: 0 <= k < |ps| ==> !Breaks(acc, ps, brk)[k]
    ensures Flow(acc, ps, brk) == acc + Plain(ps)
  {
    NeverBreaks(acc, ps, brk, slack);
    NoBreaksMeans(|ps|);
    FlowIsWeave(acc, ps, brk);
    WeaveUnbroken(ps, brk, Breaks(acc, ps, brk));
  }

  /** `n` rounds without a break. */
  function NoBreaks(n: nat): seq<bool>
    decreases n
  {
    if n == 0 then [] else [false] + NoBreaks(n - 1)
  }

  lemma {:induction false} NoBreaksMeans(n: nat)
    ensures |NoBreaks(n)| == n && forall k :: 0 <= k < n ==> !NoBreaks(n)[k]
    decreases n
  {
    if n > 0 {
      NoBreaksMeans(n - 1);
    }
  }

  lemma {:induction false} NeverBreaks(acc: string, ps: seq<Piece>, brk: string, slack: nat)
    requires forall k :: 0 <= k < |ps| - 1 ==> '\n' !in ps[k].glue && '\n' !in ps[k].text
    requires forall k :: 0 <= k < |ps| ==> ps[k].width <= |ps[k].glue| + |ps[k].text| + slack
    requires |LastLine(acc)| + |Plain(ps)| + slack <= Limit
    ensures Breaks(acc, ps, brk) == NoBreaks(|ps|)
    decreases |ps|
  {
    if ps != [] {
      var p := ps[0];
      assert !Overflows(acc, p);
      var next := acc + p.glue + p.text;
      assert Step(acc, p, brk) == next;
      if |ps| > 1 {
        var rest := ps[1..];
        assert Plain(ps) == p.glue + p.text + Plain(rest);
        assert '\n' !in p.glue + p.text;
        LastLineAppend(acc, p.glue + p.text);
        assert acc + p.glue + p.text == acc + (p.glue + p.text);
        assert |LastLine(next)| + |Plain(rest)| + slack <= Limit;
        assert forall k :: 0 <= k < |rest| ==> rest[k] == ps[k + 1];
        NeverBreaks(next, rest, brk, slack);
      }
    }
  }

  /** When the break holds a line feed, a piece placed after a break starts a new line that
      holds the break's last line followed by the piece. */
  lemma BreakRestartsLine(acc: string, p: Piece, brk: string)
    requires '\n' in brk && '\n' !in p.text
    ensures Overflows(acc, p) ==> LastLine(Step(acc, p, brk)) == LastLine(brk) + p.text
  {
    if Overflows(acc, p) {
      assert Step(acc, p, brk) == acc + (brk + p.text);
      LastLineAppend(acc, brk + p.text);
      LastLineAppend(brk, p.text);
    }
  }

  /** A wrapping loop's text: its start, then every piece after the break exactly when the
      piece would carry the line built so far past the limit, and after its glue otherwise. */
  lemma FlowLayout(acc: string, ps: seq<Piece>, brk: string)
    ensures var ds := Breaks(acc, ps, brk);
      |ds| == |ps| && Flow(acc, ps, brk) == acc + Weave(ps, brk, ds) &&
      forall i :: 0 <= i < |ps| ==> (ds[i] <==> |LastLine(Flow(acc, ps[..i], brk))| + ps[i].width > Limit)
  {
    FlowIsWeave(acc, ps, brk);
    forall i | 0 <= i < |ps|
      ensures Breaks(acc, ps, brk)[i] <==> |LastLine(Flow(acc, ps[..i], brk))| + ps[i].width > Limit
    {
      BreakAt(acc, ps, brk, i);
    }
  }

  /** One round of a loop over words: the word is appended, after the break when it would
      carry the last line past the limit. */
  lemma WordRound(start: string, ps: seq<Piece>, brk: string, i: nat, add: string)
    requires i < |ps| && ps[i] == Piece(|add|, "", add)
    ensures var before := Flow(start, ps[..i], brk);
      Flow(start, ps[..i + 1], brk) ==
        (if |LastLine(before)| + |add| > Limit then before + brk else before) + add
  {
    FlowSnoc(start, ps[..i], ps[i], brk);
    TakeSnoc(ps, i);
  }

  // ---------------------------------------------------------------------------
  // the fields of a Python tuple

  /** The leading fields of a tuple literal: each is measured and appended with a comma,
      after a space except for the first. */
  function FieldPieces(heads: seq<string>): seq<Piece> {
    seq(|heads|, i requires 0 <= i < |heads| => Piece(|heads[i]| + 1, if i == 0 then "" else " ", heads[i] + ","))
  }

  function Commas(heads: seq<string>): seq<string> {
    seq(|heads|, i requires 0 <= i < |heads| => heads[i] + ",")
  }

  /** Unbroken, the leading fields are the fields with commas, separated by spaces. */
  lemma {:induction false} PlainFields(heads: seq<string>)
    ensures Plain(FieldPieces(heads)) == JoinWith(Commas(heads), " ")
    decreases |heads|
  {
    var n := |heads|;
    if n == 1 {
      assert Plain(FieldPieces(heads)) == "" + (heads[0] + ",") + Plain([]);
    } else if n > 1 {
      var init := heads[..n - 1];
      var p := Piece(|heads[n - 1]| + 1, " ", heads[n - 1] + ",");
      assert FieldPieces(heads) == FieldPieces(init) + [p];
      assert Commas(heads) == Commas(init) + [heads[n - 1] + ","];
      PlainFields(init);
      PlainAppend(FieldPieces(init), [p]);
      assert Plain([p]) == " " + (heads[n - 1] + ",");
      JoinWithAppendOne(Commas(init), " ", heads[n - 1] + ",");
    }
  }

  /** No field holds a line feed. */
  predicate NoLineFeeds(fields: seq<string>) {
    forall k :: 0 <= k < |fields| ==> '\n' !in fields[k]
  }

  lemma NoLineFeedsInit(fields: seq<string>)
    requires |fields| >= 1 && NoLineFeeds(fields)
    ensures NoLineFeeds(fields[..|fields| - 1])
  {
    var init := fields[..|fields| - 1];
    forall k | 0 <= k < |init| ensures '\n' !in init[k] {
      assert init[k] == fields[k];
    }
  }

  /** Lowercasing keeps fields on one line. */
  lemma NoLineFeedsLower(fields: seq<string>)
    requires NoLineFeeds(fields)
    ensures NoLineFeeds(LowerAll(fields))
  {
    forall k | 0 <= k < |fields| ensures '\n' !in LowerAll(fields)[k] {
      LowerKeepsLines(fields[k]);
    }
  }

  /** The leading fields, measured exactly as wide as they are laid out, hold no line feed
      when the names do not. */
  lemma FieldPiecesShape(heads: seq<string>)
    ensures forall k :: 0 <= k < |FieldPieces(heads)| ==> FieldPieces(heads)[k].width <= |FieldPieces(heads)[k].glue| + |FieldPieces(heads)[k].text|
    ensures NoLineFeeds(heads) ==>
      forall k :: 0 <= k < |FieldPieces(heads)| ==> '\n' !in FieldPieces(heads)[k].glue && '\n' !in FieldPieces(heads)[k].text
  {
    var ps := FieldPieces(heads);
    if NoLineFeeds(heads) {
      forall k | 0 <= k < |ps| ensures '\n' !in ps[k].glue && '\n' !in ps[k].text {
        assert ps[k].text == heads[k] + ",";
        assert '\n' !in heads[k];
      }
    }
  }

  /** A tuple whose leading fields and closing piece fit on the current line is laid out
      on it unbroken: the fields with commas, separated by spaces, then the closing piece. */
  lemma FieldsFit(acc: string, heads: seq<string>, last: Piece, brk: string)
    requires NoLineFeeds(heads)
    requires last.width <= |last.glue| + |last.text|
    requires |LastLine(acc)| + |JoinWith(Commas(heads), " ")| + |last.glue| + |last.text| <= Limit
    ensures var ps := FieldPieces(heads) + [last];
      |Breaks(acc, ps, brk)| == |ps| && (forall k :: 0 <= k < |ps| ==> !Breaks(acc, ps, brk)[k]) &&
      Flow(acc, ps, brk) == acc + JoinWith(Commas(heads), " ") + last.glue + last.text
  {
    var ps := FieldPieces(heads) + [last];
    FieldPiecesShape(heads);
    PlainFields(heads);
    PlainAppend(FieldPieces(heads), [last]);
    assert Plain([last]) == last.glue + last.text;
    assert forall k :: 0 <= k < |ps| - 1 ==> ps[k] == FieldPieces(heads)[k];
    FitsUnbroken(acc, ps, brk, 0);
    var fields := JoinWith(Commas(heads), " ");
    assert Plain(ps) == fields + (last.glue + last.text);
    AppendAssoc(acc, fields, last.glue + last.text);
    AppendAssoc(acc + fields, last.glue, last.text);
  }

  /** The pieces holding each word as it is, measured as it is. */
  function Words(ws: seq<string>): seq<Piece> {
    seq(|ws|, i requires 0 <= i < |ws| => Piece(|ws[i]|, "", ws[i]))
  }

  lemma {:induction false} PlainWords(ws: seq<string>)
    ensures Plain(Words(ws)) == Concat(ws)
    decreases |ws|
  {
    if ws != [] {
      assert Words(ws)[1..] == Words(ws[1..]);
      PlainWords(ws[1..]);
    }
  }
}

/** The "unittest" command (src/commands/UnittestInstantiation.ts): a Python `unittest`
    test case that builds the module's `Ports` and `Params` namedtuples, runs the module
    under MyHDL with a clock generator and a test generator, and a sample test. */
module Unittest {
  import opened Wrappers
  import opened Strings
  import opened Seqs
  import opened Tags
  import opened Selection
  import opened Wrap

  // ---------------------------------------------------------------------------
  // header

  /** The MyHDL names the test uses. */
  const MyhdlImport: string := "from myhdl import " + "Signal, intbv, " + "Simulation, always, " + "delay, StopSimulation"

  function HeaderString(moduleName: string): string {
    "import unittest\n\n" + MyhdlImport + "\n\n" +
    "from " + moduleName + " import " + moduleName + ", Ports, Params\n\n\n"
  }

  function HeaderLines(moduleName: string): seq<string> {
    ["import unittest", "", MyhdlImport, "",
     "from " + moduleName + " import " + moduleName + ", Ports, Params", "", ""]
  }

  lemma MyhdlImportIsOneLine()
    ensures '\n' !in MyhdlImport
  {
    assert '\n' !in "from myhdl import ";
    assert '\n' !in "Signal, intbv, ";
    assert '\n' !in "Simulation, always, ";
    assert '\n' !in "delay, StopSimulation";
  }

  /** The header imports `unittest`, the MyHDL names the test uses, and the module with its
      two namedtuples from the module's Python wrapper, each import followed by an empty
      line and the last by two. */
  lemma HeaderIsLines(moduleName: string)
    ensures HeaderString(moduleName) == Unlines(HeaderLines(moduleName))
  {
    var ls := HeaderLines(moduleName);
    var from := "from " + moduleName + " import " + moduleName + ", Ports, Params";
    var p, q, r := [ls[0], ls[1]], [ls[2], ls[3]], [ls[4], ls[5], ls[6]];
    assert ls == (p + q) + r;
    UnlinesAppend(p + q, r);
    UnlinesAppend(p, q);
    var x, y, z := "import unittest\n\n", MyhdlImport + "\n\n", from + "\n\n\n";
    assert Unlines(p) == x by {
      assert Unlines(p) == ls[0] + "\n" + (ls[1] + "\n" + Unlines([]));
    }
    assert Unlines(q) == y by {
      assert Unlines(q) == ls[2] + "\n" + (ls[3] + "\n" + Unlines([]));
    }
    assert Unlines(r) == z by {
      assert Unlines(r) == ls[4] + "\n" + (ls[5] + "\n" + (ls[6] + "\n" + Unlines([])));
    }
    assert ", Ports, Params\n\n\n" == ", Ports, Params" + "\n\n\n";
    Regroup("import unittest\n\n", MyhdlImport, "\n\n", "from ", moduleName, " import ",
      ", Ports, Params\n\n\n", ", Ports, Params", "\n\n\n");
  }

  /** How the header's pieces group into its three blocks of lines. */
  lemma Regroup(x: string, mi: string, nn: string, fr: string, m: string, im: string,
                tail: string, t: string, nnn: string)
    requires tail == t + nnn
    ensures x + mi + nn + fr + m + im + m + tail == x + (mi + nn) + (fr + m + im + m + t + nnn)
  {
  }

  /** Split into lines, the header gives back its lines and the empty text after the last
      break. */
  lemma HeaderSplits(moduleName: string)
    requires '\n' !in moduleName
    ensures Split(HeaderString(moduleName), '\n') == HeaderLines(moduleName) + [""]
  {
    var ls := HeaderLines(moduleName);
    HeaderIsLines(moduleName);
    forall k | 0 <= k < |ls| ensures '\n' !in ls[k] {
      if k == 2 {
        MyhdlImportIsOneLine();
      } else if k == 4 {
        assert ls[4] == "from " + moduleName + " import " + moduleName + ", Ports, Params";
      }
    }
    SplitUnlines(ls);
  }

  // ---------------------------------------------------------------------------
  // the run method's signature

  /** The class line and the start of the `runTest` signature (written without `def`). */
  function ClassOpening(moduleName: string): string {
    "class Test" + moduleName + "(unittest.TestCase):\n\n" + ("\t" + "runTest(self, test, ")
  }

  /** The break in the signature: a new line indented under the first argument. */
  const SigBreak: string := "\n\t        "

  /** The signature's arguments after `test`: every parameter lowercased, then the clock
      period with its default. */
  function SigWords(params: seq<string>): seq<string> {
    seq(|params|, i requires 0 <= i < |params| => Lower(params[i]) + ", ") + ["delay_ns=10):"]
  }

  function SignatureText(moduleName: string, params: seq<string>): string {
    Flow(ClassOpening(moduleName), Words(SigWords(params)), SigBreak) + "\n"
  }

  // ---------------------------------------------------------------------------
  // the Ports and Params values

  /** The note asking for the signals, and the indentation of the line naming them. */
  const SignalsNote: string := "\t\t" + "# FIXME: Instantiate registers and wires as `Signals`\n" + "\t\t"

  const PortsOpen: string := "\t\t" + "ports = Ports("
  const PortBreak: string := "\n" + ("\t\t" + "              ")
  const ParamsOpen: string := "\t\t" + "params = Params("
  const ParamBreak: string := "\n" + ("\t\t" + "                ")

  /** The arguments of a namedtuple call: every name but the last with a comma, after a
      space except for the first; the last one after a space, closing the call, and measured
      without that space. */
  function ListPieces(heads: seq<string>, last: string): seq<Piece> {
    FieldPieces(heads) + [Piece(|last|, "", " " + last)]
  }

  /** The arguments of the `Ports` or the `Params` call for `names`, the leading ones
      lowercased when `lowered` holds; with no name the call is left open. */
  function CallPieces(names: seq<string>, lowered: bool): seq<Piece> {
    if names == [] then []
    else
      var init := names[..|names| - 1];
      ListPieces(if lowered then LowerAll(init) else init, names[|names| - 1] + ")")
  }

  // ---------------------------------------------------------------------------
  // the class

  function SignalsText(moduleName: string, params: seq<string>, ports: seq<string>): string {
    SignatureText(moduleName, params) + SignalsNote + JoinWith(ports, ", ") + "\n\n"
  }

  function PortsText(moduleName: string, params: seq<string>, ports: seq<string>): string {
    Flow(SignalsText(moduleName, params, ports) + PortsOpen, CallPieces(ports, false), PortBreak) + "\n\n"
  }

  function ParamsText(moduleName: string, params: seq<string>, ports: seq<string>): string {
    Flow(PortsText(moduleName, params, ports) + ParamsOpen, CallPieces(params, true), ParamBreak) + "\n\n"
  }

  /** The fixed end of the class after `text`: the run method's body, which instantiates
      the module and runs it with a clock generator and the test, and a sample test with the
      script's entry point. */
  function WithTail(text: string, moduleName: string): string {
    var nested := "\t\t" + "\t";
    text +
    ("\t\t" + "dut = " + moduleName + "(ports, params)\n\n") +
    ("\t\t" + "@always(delay(delay_ns))\n") +
    ("\t\t" + "def clockGen():\n") +
    ("\t\t" + "\t" + "clk.next = not clk\n\n") +
    ("\t\t" + "check = test(ports, params)\n\n") +
    ("\t\t" + "sim = Simulation(dut, clockGen, check)\n") +
    ("\t\t" + "sim.run()\n\n") +
    "\tdef testExample(self):\n" +
    ("\t\t" + "def test(ports, params):\n") +
    (nested + "yield ports.clk.negedge\n") +
    (nested + "ports.rst.next = 0\n") +
    (nested + "yield ports.clk.negedge\n") +
    (nested + "raise StopSimulation\n\n") +
    "\t\t# FIXME: Add parameters to function call\n" +
    "\t\tself.runTest(test)\n\n\n" +
    "if __name__ == '__main__':\n" +
    "\tunittest.main(verbosity=2)\n\n"
  }

  /** The whole class: the signature, the signals, the two namedtuples, and the fixed
      end. */
  function ClassText(moduleName: string, params: seq<string>, ports: seq<string>): string {
    WithTail(ParamsText(moduleName, params, ports), moduleName)
  }

  /** One round of a namedtuple loop, as the source writes it. */
  lemma ListRound(start: string, heads: seq<string>, last: string, brk: string, i: nat)
    requires i <= |heads|
    ensures var ps := ListPieces(heads, last); var before := Flow(start, ps[..i], brk);
      Flow(start, ps[..i + 1], brk) ==
        if i < |heads| then
          var next := heads[i] + ",";
          if |LastLine(before)| + |next| > Limit then before + brk + next
          else if i != 0 then before + " " + next
          else before + next
        else
          (if |LastLine(before)| + |last| > Limit then before + brk else before) + (" " + last)
  {
    var ps := ListPieces(heads, last);
    FlowSnoc(start, ps[..i], ps[i], brk);
    TakeSnoc(ps, i);
  }

  method ClassString(moduleName: string, parameters: seq<string>, ports: seq<string>) returns (cls: string)
    ensures cls == ClassText(moduleName, parameters, ports)
  {
    cls := "class Test" + moduleName + "(unittest.TestCase):\n\n";
    var offset := "\t";
    cls := cls + (offset + "runTest(self, test, ");
    assert cls == ClassOpening(moduleName);
    cls := Signature(cls, parameters);
    cls := cls + "\n";
    assert cls == SignatureText(moduleName, parameters);
    offset := "\t\t";
    cls := cls + (offset + "# FIXME: Instantiate registers and wires as `Signals`\n" + offset);
    assert offset + "# FIXME: Instantiate registers and wires as `Signals`\n" + offset == SignalsNote;
    cls := SignalNames(cls, ports);
    cls := cls + "\n\n";
    assert cls == SignalsText(moduleName, parameters, ports);
    cls := cls + (offset + "ports = Ports(");
    assert offset + "ports = Ports(" == PortsOpen;
    assert "\n" + (offset + "              ") == PortBreak;
    cls := CallArguments(cls, ports, false, offset + "              ");
    cls := cls + "\n\n";
    assert cls == PortsText(moduleName, parameters, ports);
    offset := "\t\t";
    cls := cls + (offset + "params = Params(");
    assert offset + "params = Params(" == ParamsOpen;
    assert "\n" + (offset + "                ") == ParamBreak;
    cls := CallArguments(cls, parameters, true, offset + "                ");
    cls := cls + "\n\n";
    assert cls == ParamsText(moduleName, parameters, ports);
    ghost var body := cls;
    cls := cls + (offset + "dut = " + moduleName + "(ports, params)\n\n");
    cls := cls + (offset + "@always(delay(delay_ns))\n");
    cls := cls + (offset + "def clockGen():\n");
    cls := cls + (offset + "\t" + "clk.next = not clk\n\n");
    cls := cls + (offset + "check = test(ports, params)\n\n");
    cls := cls + (offset + "sim = Simulation(dut, clockGen, check)\n");
    cls := cls + (offset + "sim.run()\n\n");
    cls := cls + "\tdef testExample(self):\n";
    cls := cls + (offset + "def test(ports, params):\n");
    offset := offset + "\t";
    cls := cls + (offset + "yield ports.clk.negedge\n");
    cls := cls + (offset + "ports.rst.next = 0\n");
    cls := cls + (offset + "yield ports.clk.negedge\n");
    cls := cls + (offset + "raise StopSimulation\n\n");
    cls := cls + "\t\t# FIXME: Add parameters to function call\n";
    cls := cls + "\t\tself.runTest(test)\n\n\n";
    cls := cls + "if __name__ == '__main__':\n";
    cls := cls + "\tunittest.main(verbosity=2)\n\n";
    assert cls == WithTail(body, moduleName);
  }

  /** The signature loop of `classString`: every parameter lowercased, then the clock
      period, each on a new indented line when it would pass column 79. */
  method Signature(start: string, parameters: seq<string>) returns (cls: string)
    ensures cls == Flow(start, Words(SigWords(parameters)), SigBreak)
  {
    cls := start;
    var offset := "\t" + "        ";
    var brk := "\n" + offset;
    assert brk == SigBreak;
    ghost var ws := Words(SigWords(parameters));
    assert ws[..0] == [];
    for i := 0 to |parameters|
      invariant cls == Flow(start, ws[..i], SigBreak)
    {
      var add := Lower(parameters[i]) + ", ";
      WordRound(start, ws, SigBreak, i, add);
      if |LastLine(cls)| + |add| > Limit {
        cls := cls + brk;
      }
      cls := cls + add;
    }
    var add := "delay_ns=10):";
    WordRound(start, ws, SigBreak, |parameters|, add);
    if |LastLine(cls)| + |add| > Limit {
      cls := cls + brk;
    }
    cls := cls + add;
    TakeAll(ws);
  }

  /** The signal loop of `classString`: the ports separated by commas. */
  method SignalNames(start: string, ports: seq<string>) returns (cls: string)
    ensures cls == start + JoinWith(ports, ", ")
  {
    cls := start;
    assert ports[..0] == [];
    for i := 0 to |ports|
      invariant cls == start + JoinWith(ports[..i], ", ") + (if 0 < i < |ports| then ", " else "")
    {
      JoinWithSnoc(ports, ", ", i);
      cls := cls + ports[i];
      if i != |ports| - 1 {
        cls := cls + ", ";
      }
    }
    TakeAll(ports);
  }

  /** The loop of `classString` that writes the arguments of the `Ports` or the `Params`
      call, the leading ones lowercased when `lowered` holds, breaking to `offset`. */
  method CallArguments(start: string, names: seq<string>, lowered: bool, offset: string) returns (cls: string)
    ensures cls == Flow(start, CallPieces(names, lowered), "\n" + offset)
  {
    cls := start;
    var brk := "\n" + offset;
    ghost var init := if names == [] then [] else names[..|names| - 1];
    ghost var heads := if lowered then LowerAll(init) else init;
    ghost var last := if names == [] then "" else names[|names| - 1] + ")";
    ghost var ps := CallPieces(names, lowered);
    assert ps[..0] == [];
    for i := 0 to |names|
      invariant cls == Flow(start, ps[..i], brk)
    {
      ListRound(start, heads, last, brk, i);
      if i != |names| - 1 {
        var next := (if lowered then Lower(names[i]) else names[i]) + ",";
        assert heads[i] == if lowered then Lower(names[i]) else names[i];
        if |LastLine(cls)| + |next| > Limit {
          cls := cls + brk;
          cls := cls + next;
        } else if i != 0 {
          cls := cls + " " + next;
        } else {
          cls := cls + next;
        }
      } else {
        var next := names[i] + ")";
        if |LastLine(cls)| + |next| > Limit {
          cls := cls + brk;
        }
        cls := cls + (" " + next);
      }
    }
    if names != [] {
      TakeAll(ps);
    }
  }

  /** The arguments of a `Ports` or `Params` call are its start followed by every piece in
      order, with a break before a piece exactly when the last line plus that piece exceeds
      79; with at least one name the call ends with a space, the last name and `)`,
      whether or not the line broke before it. */
  lemma CallLayout(start: string, names: seq<string>, lowered: bool, offset: string)
    ensures var ps := CallPieces(names, lowered); var brk := "\n" + offset;
      var ds := Breaks(start, ps, brk);
      |ds| == |ps| && Flow(start, ps, brk) == start + Weave(ps, brk, ds) &&
      (forall i :: 0 <= i < |ps| ==>
        (ds[i] <==> |LastLine(Flow(start, ps[..i], brk))| + ps[i].width > Limit))
    ensures var text := Flow(start, CallPieces(names, lowered), "\n" + offset);
      names != [] ==>
        var tail := " " + names[|names| - 1] + ")";
        |tail| <= |text| && text[|text| - |tail|..] == tail
  {
    var ps := CallPieces(names, lowered);
    var brk := "\n" + offset;
    if names != [] {
      CallTail(start, names, lowered, brk);
    }
    FlowLayout(start, ps, brk);
  }

  /** A closed call ends with its last piece, whether or not the line broke before it. */
  lemma CallTail(start: string, names: seq<string>, lowered: bool, brk: string)
    requires names != []
    ensures var text := Flow(start, CallPieces(names, lowered), brk);
      var tail := " " + names[|names| - 1] + ")";
      |tail| <= |text| && text[|text| - |tail|..] == tail
  {
    var init := names[..|names| - 1];
    var heads := if lowered then LowerAll(init) else init;
    var close := names[|names| - 1] + ")";
    var last := Piece(|close|, "", " " + close);
    assert CallPieces(names, lowered) == FieldPieces(heads) + [last];
    FlowSnoc(start, FieldPieces(heads), last, brk);
    StepTail(Flow(start, FieldPieces(heads), brk), last, brk);
  }

  /** A piece without glue ends the text its step builds. */
  lemma StepTail(acc: string, p: Piece, brk: string)
    requires p.glue == ""
    ensures var text := Step(acc, p, brk);
      |p.text| <= |text| && text[|text| - |p.text|..] == p.text
  {
    var head := if Overflows(acc, p) then acc + brk else acc;
    assert Step(acc, p, brk) == head + p.text;
  }

  // ---------------------------------------------------------------------------
  // layout

  /** The `runTest` signature: each argument after a break to the indented continuation
      exactly when it would carry the line past column 79. */
  lemma SignatureLayout(moduleName: string, params: seq<string>)
    ensures var ws := Words(SigWords(params)); var ds := Breaks(ClassOpening(moduleName), ws, SigBreak);
      |ds| == |params| + 1 &&
      SignatureText(moduleName, params) == ClassOpening(moduleName) + Weave(ws, SigBreak, ds) + "\n" &&
      forall i :: 0 <= i < |ws| ==>
        (ds[i] <==> |LastLine(Flow(ClassOpening(moduleName), ws[..i], SigBreak))| + |SigWords(params)[i]| > Limit)
  {
    FlowLayout(ClassOpening(moduleName), Words(SigWords(params)), SigBreak);
  }

  /** Deleting every break of the signature leaves each lowercased parameter with its comma
      and space, in order, then the clock period. */
  lemma SignatureErased(moduleName: string, params: seq<string>)
    ensures var ws := Words(SigWords(params)); var ds := Breaks(ClassOpening(moduleName), ws, SigBreak);
      |ds| == |ws| && Weave(ws, "", ds) == Concat(SigWords(params))
  {
    var ws := Words(SigWords(params));
    FlowIsWeave(ClassOpening(moduleName), ws, SigBreak);
    WeaveErased(ws, Breaks(ClassOpening(moduleName), ws, SigBreak));
    PlainWords(SigWords(params));
  }

  /** Text that ends in a line break followed by a line opener has the opener as its last
      line. */
  lemma OpenerLastLine(text: string, opener: string)
    requires |text| >= 1 && text[|text| - 1] == '\n' && '\n' !in opener
    ensures LastLine(text + opener) == opener
  {
    LastLineUnique(text + opener, opener);
  }

  /** The last line of the class opening is the start of the signature. */
  lemma OpeningLastLine(moduleName: string)
    ensures LastLine(ClassOpening(moduleName)) == "\t" + "runTest(self, test, "
  {
    var text := "class Test" + moduleName + "(unittest.TestCase):\n\n";
    assert text[|text| - 1] == '\n';
    OpenerLastLine(text, "\t" + "runTest(self, test, ");
  }

  /** A signature that fits on its line: the lowercased parameters and the clock period,
      unbroken. */
  lemma SignatureFits(moduleName: string, params: seq<string>)
    requires NoLineFeeds(params)
    requires |"\t" + "runTest(self, test, "| + |Concat(SigWords(params))| <= Limit
    ensures SignatureText(moduleName, params) == ClassOpening(moduleName) + Concat(SigWords(params)) + "\n"
  {
    var words := SigWords(params);
    var ws := Words(words);
    PlainWords(words);
    OpeningLastLine(moduleName);
    forall k | 0 <= k < |ws| - 1 ensures '\n' !in ws[k].glue && '\n' !in ws[k].text {
      LowerKeepsLines(params[k]);
      assert ws[k].text == Lower(params[k]) + ", ";
    }
    FitsUnbroken(ClassOpening(moduleName), ws, SigBreak, 0);
  }

  /** The arguments of a `Ports` or `Params` call that fit on the line: the leading names
      with commas, separated by spaces, then a space and the last name closing the call. */
  lemma CallFits(text: string, opener: string, names: seq<string>, lowered: bool, offset: string)
    requires names != [] && NoLineFeeds(names)
    requires |text| >= 1 && text[|text| - 1] == '\n' && '\n' !in opener
    requires var init := names[..|names| - 1];
      |opener| + |JoinWith(Commas(if lowered then LowerAll(init) else init), " ")| + |names[|names| - 1]| + 2 <= Limit
    ensures var init := names[..|names| - 1];
      Flow(text + opener, CallPieces(names, lowered), "\n" + offset) ==
        text + opener + JoinWith(Commas(if lowered then LowerAll(init) else init), " ") + (" " + names[|names| - 1] + ")")
  {
    var init := names[..|names| - 1];
    var heads := if lowered then LowerAll(init) else init;
    assert NoLineFeeds(heads) by {
      forall k | 0 <= k < |heads| ensures '\n' !in heads[k] {
        assert init[k] == names[k];
        LowerKeepsLines(names[k]);
      }
    }
    OpenerLastLine(text, opener);
    var last := names[|names| - 1] + ")";
    FieldsFit(text + opener, heads, Piece(|last|, "", " " + last), "\n" + offset);
  }

  /** The `Ports` call of ports that fit on its line. */
  lemma PortsFit(moduleName: string, params: seq<string>, ports: seq<string>)
    requires ports != [] && NoLineFeeds(ports)
    requires |PortsOpen| + |JoinWith(Commas(ports[..|ports| - 1]), " ")| + |ports[|ports| - 1]| + 2 <= Limit
    ensures PortsText(moduleName, params, ports) ==
      SignalsText(moduleName, params, ports) + PortsOpen + JoinWith(Commas(ports[..|ports| - 1]), " ") +
      (" " + ports[|ports| - 1] + ")") + "\n\n"
  {
    var text := SignalsText(moduleName, params, ports);
    assert text[|text| - 1] == '\n';
    CallFits(text, PortsOpen, ports, false, "\t\t" + "              ");
  }

  /** The `Params` call of parameters that fit on its line: all but the last lowercased. */
  lemma ParamsFit(moduleName: string, params: seq<string>, ports: seq<string>)
    requires params != [] && NoLineFeeds(params)
    requires |ParamsOpen| + |JoinWith(Commas(LowerAll(params[..|params| - 1])), " ")| + |params[|params| - 1]| + 2 <= Limit
    ensures ParamsText(moduleName, params, ports) ==
      PortsText(moduleName, params, ports) + ParamsOpen + JoinWith(Commas(LowerAll(params[..|params| - 1])), " ") +
      (" " + params[|params| - 1] + ")") + "\n\n"
  {
    var text := PortsText(moduleName, params, ports);
    assert text[|text| - 1] == '\n';
    CallFits(text, ParamsOpen, params, true, "\t\t" + "                ");
  }

  /** An argument of a `Ports` or `Params` call placed after a break starts a line indented
      under the first argument. */
  lemma CallContinuation(start: string, names: seq<string>, lowered: bool, offset: string, i: nat)
    requires '\n' !in offset
    requires i < |CallPieces(names, lowered)| && '\n' !in CallPieces(names, lowered)[i].text
    requires var ps := CallPieces(names, lowered);
      |Breaks(start, ps, "\n" + offset)| == |ps| && Breaks(start, ps, "\n" + offset)[i]
    ensures LastLine(Flow(start, CallPieces(names, lowered)[..i + 1], "\n" + offset)) == offset + CallPieces(names, lowered)[i].text
  {
    LastLineUnique("\n" + offset, offset);
    ContinuationLine(start, CallPieces(names, lowered), "\n" + offset, i);
  }

  // ---------------------------------------------------------------------------
  // the command

  function UnittestText(t: Target): string {
    HeaderString(t.unit.name) + ClassText(t.unit.name, t.params, t.ports)
  }

  /** What the unittest command produces for the ctags output of the chosen file, where
      `chosen` is the answer to the quick pick. */
  function UnittestOutcome(output: string, chosen: Option<string>): Outcome {
    match Locate(output, chosen)
    case Halted(o) => o
    case Located(t) => Generated(UnittestText(t))
  }

  method InstantiateUnittest(output: string, chosen: Option<string>) returns (result: Outcome)
    ensures result == UnittestOutcome(output, chosen)
  {
    var located := LocateModule(output, chosen);
    if located.Halted? {
      return located.outcome;
    }
    var m := located.target.unit;
    var cls := ClassString(m.name, located.target.params, located.target.ports);
    result := Generated(HeaderString(m.name) + cls);
  }
}

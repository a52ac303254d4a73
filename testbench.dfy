/** The "testbench" command (src/commands/TestbenchInstantiation.ts): a Verilog testbench
    module that declares a register per port, hands the registers to MyHDL, instantiates the
    chosen module with every port connected to the register of the same name, and ties each
    parameter to a macro of its lowercased name. */
module Testbench {
  import opened Wrappers
  import opened Strings
  import opened Seqs
  import opened Tags
  import opened Selection

  // ---------------------------------------------------------------------------
  // header and fixed blocks

  function HeaderString(moduleName: string): string {
    "`timescale 1ns / 1ps\n" + "`include ../../sources/" + moduleName + ".v\n\n" + "module " + moduleName + "_tests;\n\n"
  }

  function HeaderLines(moduleName: string): seq<string> {
    ["`timescale 1ns / 1ps", "`include ../../sources/" + moduleName + ".v", "", "module " + moduleName + "_tests;", ""]
  }

  /** The header is the timescale, the include of the module's source file and the opening
      of the `<module>_tests` module, each on a line of its own with an empty line after the
      include and after the opening. */
  lemma HeaderIsLines(moduleName: string)
    requires '\n' !in moduleName
    ensures HeaderString(moduleName) == Unlines(HeaderLines(moduleName))
    ensures Split(HeaderString(moduleName), '\n') == HeaderLines(moduleName) + [""]
  {
    var ls := HeaderLines(moduleName);
    var inc, mo := "`include ../../sources/" + moduleName + ".v", "module " + moduleName + "_tests;";
    UnlinesFive(ls[0], inc, "", mo, "");
    assert "`timescale 1ns / 1ps\n" == "`timescale 1ns / 1ps" + "\n";
    assert ".v\n\n" == ".v" + "\n" + "" + "\n";
    assert "_tests;\n\n" == "_tests;" + "\n" + "" + "\n";
    Regroup("`timescale 1ns / 1ps\n", "`timescale 1ns / 1ps", "`include ../../sources/", moduleName,
      ".v\n\n", ".v", "module ", "_tests;\n\n", "_tests;");
    HeaderLinesOneLine(moduleName);
    SplitUnlines(ls);
  }

  lemma UnlinesFive(a: string, b: string, c: string, d: string, e: string)
    ensures Unlines([a, b, c, d, e]) == a + "\n" + b + "\n" + c + "\n" + d + "\n" + e + "\n"
  {
    var ls := [a, b, c, d, e];
    assert ls[1..] == [b, c, d, e] && ls[2..] == [c, d, e] && ls[3..] == [d, e] && ls[4..] == [e];
    UnlinesOne(e);
    assert Unlines([d, e]) == d + "\n" + (e + "\n");
    assert Unlines([c, d, e]) == c + "\n" + (d + "\n" + (e + "\n"));
    assert Unlines([b, c, d, e]) == b + "\n" + (c + "\n" + (d + "\n" + (e + "\n")));
  }

  /** How the header's pieces group into its lines. */
  lemma Regroup(x: string, ts: string, inc: string, m: string, vnn: string, v: string,
                mo: string, tnn: string, t: string)
    requires x == ts + "\n" && vnn == v + "\n" + "" + "\n" && tnn == t + "\n" + "" + "\n"
    ensures x + inc + m + vnn + mo + m + tnn ==
      ts + "\n" + (inc + m + v) + "\n" + "" + "\n" + (mo + m + t) + "\n" + "" + "\n"
  {
  }

  lemma HeaderLinesOneLine(moduleName: string)
    requires '\n' !in moduleName
    ensures NoneContains(HeaderLines(moduleName), '\n')
  {
    var ls := HeaderLines(moduleName);
    forall k | 0 <= k < |ls| ensures '\n' !in ls[k] {
      if k == 0 {
        assert '\n' !in "`timescale " && '\n' !in "1ns / 1ps";
        assert ls[0] == "`timescale " + "1ns / 1ps";
      } else if k == 1 {
        assert '\n' !in "`include " && '\n' !in "../../sources/";
        assert ls[1] == "`include " + "../../sources/" + moduleName + ".v";
      } else if k == 3 {
        assert ls[3] == "module " + moduleName + "_tests;";
      }
    }
  }

  function InitialBlock(): string {
    "initial begin\n" + "\t$from_myhdl()\n" + "\t$to_myhdl()\n" + "end\n\n"
  }

  function InitialLines(): seq<string> {
    ["initial begin", "\t$from_myhdl()", "\t$to_myhdl()", "end", ""]
  }

  /** The initial block hands the registers to MyHDL and takes them back, one call per
      line between `initial begin` and `end`, followed by an empty line. */
  lemma InitialBlockLines()
    ensures InitialBlock() == Unlines(InitialLines())
    ensures Split(InitialBlock(), '\n') == InitialLines() + [""]
  {
    var ls := InitialLines();
    UnlinesFive(ls[0], ls[1], ls[2], ls[3], ls[4]);
    assert "initial begin\n" == "initial begin" + "\n";
    assert "\t$from_myhdl()\n" == "\t$from_myhdl()" + "\n";
    assert "\t$to_myhdl()\n" == "\t$to_myhdl()" + "\n";
    assert "end\n\n" == "end" + "\n" + "" + "\n";
    RegroupBlock("initial begin\n", ls[0], "\t$from_myhdl()\n", ls[1], "\t$to_myhdl()\n", ls[2], "end\n\n", ls[3]);
    forall k | 0 <= k < |ls| ensures '\n' !in ls[k] {
      if k == 0 {
        assert '\n' !in "initial begin";
      } else if k == 1 {
        assert '\n' !in "\t$from_myhdl()";
      } else if k == 2 {
        assert '\n' !in "\t$to_myhdl()";
      }
    }
    SplitUnlines(ls);
  }

  /** How the initial block's pieces group into its lines. */
  lemma RegroupBlock(a: string, a0: string, b: string, b0: string, c: string, c0: string, d: string, d0: string)
    requires a == a0 + "\n" && b == b0 + "\n" && c == c0 + "\n" && d == d0 + "\n" + "" + "\n"
    ensures a + b + c + d == a0 + "\n" + b0 + "\n" + c0 + "\n" + d0 + "\n" + "" + "\n"
  {
  }

  // ---------------------------------------------------------------------------
  // net declarations

  /** One `reg` declaration naming every port, separated by commas; with no port the
      declaration is left as the bare keyword. */
  function NetsText(ports: seq<string>): string {
    if ports == [] then "reg " else "reg " + JoinWith(ports, ", ") + ";\n\n"
  }

  method NetDeclarations(ports: seq<string>) returns (nets: string)
    ensures nets == NetsText(ports)
  {
    nets := "reg ";
    for i := 0 to |ports|
      invariant i == 0 ==> nets == "reg "
      invariant 0 < i ==> nets == "reg " + JoinWith(ports[..i], ", ") + (if i == |ports| then ";\n\n" else ", ")
    {
      JoinWithSnoc(ports, ", ", i);
      nets := nets + ports[i];
      assert nets == "reg " + JoinWith(ports[..i + 1], ", ");
      if i != |ports| - 1 {
        nets := nets + ", ";
      } else {
        nets := nets + ";\n\n";
      }
    }
    if ports != [] {
      TakeAll(ports);
    }
  }

  // ---------------------------------------------------------------------------
  // parameter ties

  function DefParamLine(moduleName: string, param: string): string {
    "`defparam " + moduleName + "_tb." + param + " = `" + Lower(param)
  }

  /** A `defparam` line per parameter, in order, then an empty line. */
  function TieLines(moduleName: string, params: seq<string>): seq<string> {
    seq(|params|, i requires 0 <= i < |params| => DefParamLine(moduleName, params[i])) + [""]
  }

  method TieParams(moduleName: string, parametersName: seq<string>) returns (tied: string)
    ensures tied == Unlines(TieLines(moduleName, parametersName))
  {
    tied := "";
    ghost var lines := TieLines(moduleName, parametersName);
    for i := 0 to |parametersName|
      invariant tied == Unlines(lines[..i])
    {
      TakeSnoc(lines, i);
      UnlinesAppend(lines[..i], [lines[i]]);
      assert Unlines([lines[i]]) == lines[i] + "\n";
      tied := tied + ("`defparam " + moduleName + "_tb." + parametersName[i] + " = `" + Lower(parametersName[i]) + "\n");
    }
    var n := |parametersName|;
    assert lines == lines[..n] + [lines[n]];
    UnlinesAppend(lines[..n], [lines[n]]);
    tied := tied + "\n";
  }

  /** Line `i` of the ties sets parameter `i` of the instance to the macro of its
      lowercased name, and the block ends in an empty line. */
  lemma TieParamsLines(moduleName: string, params: seq<string>)
    requires '\n' !in moduleName && NoneContains(params, '\n')
    ensures var pieces := Split(Unlines(TieLines(moduleName, params)), '\n');
      |pieces| == |params| + 2 && pieces[|params|] == "" && pieces[|params| + 1] == "" &&
      forall i :: 0 <= i < |params| ==> pieces[i] == "`defparam " + moduleName + "_tb." + params[i] + " = `" + Lower(params[i])
  {
    var lines := TieLines(moduleName, params);
    forall k | 0 <= k < |lines| ensures '\n' !in lines[k] {
      if k < |params| {
        LowerKeepsLines(params[k]);
      }
    }
    SplitUnlines(lines);
  }

  // ---------------------------------------------------------------------------
  // port list

  /** The length of the longest name, or 0 for none. */
  function MaxLength(names: seq<string>): (m: nat)
    ensures forall i :: 0 <= i < |names| ==> |names[i]| <= m
    ensures m == 0 || exists i :: 0 <= i < |names| && |names[i]| == m
    decreases |names|
  {
    if names == [] then 0
    else
      var init := names[..|names| - 1];
      var m := MaxLength(init);
      assert forall i :: 0 <= i < |init| ==> names[i] == init[i];
      if |names[|names| - 1]| > m then |names[|names| - 1]| else m
  }

  /** A name padded with spaces to one more than the longest. */
  function Pad(name: string, width: nat): string
    requires |name| <= width
  {
    name + Spaces(width - |name| + 1)
  }

  /** `.NAME(NAME)` for each port, tab-indented, the names padded so that the opening
      parentheses line up; a comma after every connection but the last. */
  function Connection(ports: seq<string>, i: nat): string
    requires i < |ports|
  {
    var element := Pad(ports[i], MaxLength(ports));
    "\t." + element + "(" + element + ")" + (if i != |ports| - 1 then "," else "")
  }

  function Connections(ports: seq<string>): seq<string> {
    seq(|ports|, i requires 0 <= i < |ports| => Connection(ports, i))
  }

  method InstantiatePort(ports: seq<string>) returns (port: string)
    ensures port == Unlines(Connections(ports))
  {
    port := "";
    var maxLen := 0;
    for i := 0 to |ports|
      invariant maxLen == MaxLength(ports[..i])
    {
      MaxLengthSnoc(ports, i);
      if |ports[i]| > maxLen {
        maxLen := |ports[i]|;
      }
    }
    TakeAll(ports);
    ghost var lines := Connections(ports);
    for i := 0 to |ports|
      invariant port == Unlines(lines[..i])
    {
      ghost var before := port;
      port := AppendConnection(port, ports, i, maxLen);
      TakeSnoc(lines, i);
      UnlinesAppend(lines[..i], [lines[i]]);
      UnlinesOne(lines[i]);
      AppendAssoc(before, lines[i], "\n");
    }
    TakeAll(lines);
  }

  /** The longest of the first `i + 1` names. */
  lemma MaxLengthSnoc(names: seq<string>, i: nat)
    requires i < |names|
    ensures MaxLength(names[..i + 1]) == if |names[i]| > MaxLength(names[..i]) then |names[i]| else MaxLength(names[..i])
  {
    TakeTake(names, i, i + 1);
    assert names[..i + 1][..i] == names[..i];
  }

  /** One round of the connection loop: the padded name twice, a comma unless it is the
      last, and a line feed. */
  method AppendConnection(port: string, ports: seq<string>, i: nat, maxLen: nat) returns (next: string)
    requires i < |ports| && maxLen == MaxLength(ports)
    ensures next == port + Connection(ports, i) + "\n"
  {
    var element := ports[i];
    var padding := maxLen - |element| + 1;
    element := element + Spaces(padding);
    ghost var before := port;
    next := port + ("\t." + element + "(" + element + ")");
    if i != |ports| - 1 {
      next := next + ",";
    }
    assert next == before + Connection(ports, i);
    next := next + "\n";
  }

  /** Every padded name is as wide as the longest name plus one column, and starts with the
      name itself followed only by spaces. */
  lemma PadAligned(ports: seq<string>)
    ensures forall i :: 0 <= i < |ports| ==>
      |Pad(ports[i], MaxLength(ports))| == MaxLength(ports) + 1 &&
      Pad(ports[i], MaxLength(ports))[..|ports[i]|] == ports[i] &&
      forall j :: |ports[i]| <= j <= MaxLength(ports) ==> Pad(ports[i], MaxLength(ports))[j] == ' '
  {
  }

  /** Line `i` of the port list connects port `i` to the register of the same name. */
  lemma InstantiatePortLines(ports: seq<string>)
    requires NoneContains(ports, '\n')
    ensures Split(Unlines(Connections(ports)), '\n') == Connections(ports) + [""]
  {
    var lines := Connections(ports);
    forall k | 0 <= k < |lines| ensures '\n' !in lines[k] {
      var element := Pad(ports[k], MaxLength(ports));
      assert '\n' !in element;
    }
    SplitUnlines(lines);
  }

  /** The `#( ... )` parameter block of the instance: absent without parameters, otherwise
      every parameter connected to the register of the same name. */
  function ParamString(params: seq<string>): (r: string)
    ensures r == "" <==> params == []
    ensures params != [] ==> |r| >= 6 && r[..4] == "\n#(\n" && r[|r| - 2..] == ")\n"
  {
    if |params| > 0 then "\n#(\n" + Unlines(Connections(params)) + ")\n" else ""
  }

  // ---------------------------------------------------------------------------
  // the command

  function TestbenchText(t: Target): string {
    var name := t.unit.name;
    HeaderString(name) + NetsText(t.ports) + InitialBlock() + (name + " ") + ParamString(t.params) +
    (name + "_tb(\n") + Unlines(Connections(t.ports)) + ");\n\n" + Unlines(TieLines(name, t.params)) + "endmodule\n"
  }

  /** What the testbench command produces for the ctags output of the chosen file, where
      `chosen` is the answer to the quick pick. */
  function TestbenchOutcome(output: string, chosen: Option<string>): Outcome {
    match Locate(output, chosen)
    case Halted(o) => o
    case Located(t) => Generated(TestbenchText(t))
  }

  method InstantiateTestbench(output: string, chosen: Option<string>) returns (result: Outcome)
    ensures result == TestbenchOutcome(output, chosen)
  {
    var located := LocateModule(output, chosen);
    if located.Halted? {
      return located.outcome;
    }
    var m := located.target.unit;
    var portsName := located.target.ports;
    var parametersName := located.target.params;
    var paramString := "";
    if |parametersName| > 0 {
      var inner := InstantiatePort(parametersName);
      paramString := "\n#(\n" + inner + ")\n";
    }
    assert paramString == ParamString(parametersName);
    var nets := NetDeclarations(portsName);
    var connections := InstantiatePort(portsName);
    var tied := TieParams(m.name, parametersName);
    var text := HeaderString(m.name) + nets + InitialBlock() + (m.name + " ") + paramString +
      (m.name + "_tb(\n") + connections + ");\n\n" + tied + "endmodule\n";
    assert text == TestbenchText(located.target);
    result := Generated(text);
  }
}

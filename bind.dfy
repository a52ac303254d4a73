/** The "bind" command (src/commands/BindInstantiation.ts): the Python module that wraps a
    Verilog module for MyHDL co-simulation. It holds the iverilog command line, a `Ports`
    and a `Params` namedtuple, and the function that starts the co-simulation. */
module Bind {
  import opened Wrappers
  import opened Strings
  import opened Seqs
  import opened Tags
  import opened Selection
  import opened Wrap

  // ---------------------------------------------------------------------------
  // header

  function HeaderString(moduleName: string): string {
    "import os\n" + "from collections import namedtuple\n\n" + "from myhdl import Cosimulation\n\n\n"
  }

  /** The imports do not depend on the module. */
  lemma HeaderIgnoresModule(a: string, b: string)
    ensures HeaderString(a) == HeaderString(b)
  {
  }

  // ---------------------------------------------------------------------------
  // the iverilog command

  /** The break inside the command: the string literal is closed, the line broken, and a
      new literal opened seven columns in. */
  const Continuation: string := "'\n       '"

  function CommandStart(moduleName: string): string {
    "cmd = ('iverilog -o " + moduleName + ".o "
  }

  function IncludeFlag(sourcesPath: string): string {
    "-I " + sourcesPath + " "
  }

  function DefineFlag(param: string): string {
    "-D" + Lower(param) + "=%s "
  }

  function TestFile(moduleName: string): string {
    "test_" + moduleName + ".v')\n\n\n"
  }

  /** After the include flag: a define per parameter, then the test bench file. */
  function CommandWords(moduleName: string, params: seq<string>): seq<string> {
    seq(|params|, i requires 0 <= i < |params| => DefineFlag(params[i])) + [TestFile(moduleName)]
  }

  /** The include flag is the one word checked against the whole command rather than its
      last line. */
  function CommandOpening(moduleName: string, sourcesPath: string): string {
    var cmd := CommandStart(moduleName);
    var add := IncludeFlag(sourcesPath);
    if |cmd| + |add| > Limit then cmd + Continuation + add else cmd + add
  }

  function CommandText(moduleName: string, params: seq<string>, sourcesPath: string): string {
    Flow(CommandOpening(moduleName, sourcesPath), Words(CommandWords(moduleName, params)), Continuation)
  }

  method CommandString(moduleName: string, parameters: seq<string>, sourcesPath: string) returns (cmd: string)
    ensures cmd == CommandText(moduleName, parameters, sourcesPath)
  {
    cmd := OpenCommand(moduleName, sourcesPath);
    ghost var opening := cmd;
    ghost var ps := Words(CommandWords(moduleName, parameters));
    CommandWordAt(moduleName, parameters, 0);
    assert ps[..0] == [];
    var add;
    for i := 0 to |parameters|
      invariant cmd == Flow(opening, ps[..i], Continuation)
    {
      add := "-D" + Lower(parameters[i]) + "=%s ";
      CommandWordAt(moduleName, parameters, i);
      WordRound(opening, ps, Continuation, i, add);
      cmd := AppendWord(cmd, add);
    }
    add := TestFile(moduleName);
    CommandWordAt(moduleName, parameters, |parameters|);
    WordRound(opening, ps, Continuation, |parameters|, add);
    cmd := AppendWord(cmd, add);
    TakeAll(ps);
  }

  /** The start of the command, with the include flag checked against its whole length. */
  method OpenCommand(moduleName: string, sourcesPath: string) returns (cmd: string)
    ensures cmd == CommandOpening(moduleName, sourcesPath)
  {
    cmd := "cmd = ('iverilog -o ";
    cmd := cmd + moduleName + ".o ";
    var add := "-I " + sourcesPath + " ";
    if |cmd| + |add| > Limit {
      cmd := cmd + Continuation;
    }
    cmd := cmd + add;
  }

  /** The words after the include flag: a define per parameter, then the test bench file. */
  lemma CommandWordAt(moduleName: string, params: seq<string>, i: nat)
    requires i <= |params|
    ensures var ps := Words(CommandWords(moduleName, params));
      |ps| == |params| + 1 &&
      ps[i] == (if i < |params| then Piece(|DefineFlag(params[i])|, "", DefineFlag(params[i]))
                else Piece(|TestFile(moduleName)|, "", TestFile(moduleName)))
  {
  }

  /** One round of the command loop: the continuation when the word would carry the last
      line past the limit, then the word. */
  method AppendWord(cmd: string, add: string) returns (r: string)
    ensures r == (if |LastLine(cmd)| + |add| > Limit then cmd + Continuation else cmd) + add
  {
    r := cmd;
    if |LastLine(r)| + |add| > Limit {
      r := r + Continuation;
    }
    r := r + add;
  }

  /** The command line: its opening, then every define and the test bench file, each
      after a break exactly when it would carry the current line past column 79. */
  lemma CommandLayout(moduleName: string, params: seq<string>, sourcesPath: string)
    ensures var ws := Words(CommandWords(moduleName, params));
      var opening := CommandOpening(moduleName, sourcesPath);
      var ds := Breaks(opening, ws, Continuation);
      |ds| == |params| + 1 &&
      CommandText(moduleName, params, sourcesPath) == opening + Weave(ws, Continuation, ds) &&
      forall i :: 0 <= i < |ws| ==>
        (ds[i] <==> |LastLine(Flow(opening, ws[..i], Continuation))| + |ws[i].text| > Limit)
  {
    FlowLayout(CommandOpening(moduleName, sourcesPath), Words(CommandWords(moduleName, params)), Continuation);
  }

  /** The command line with `brk` in every place where the loop broke it: after the start
      when the include flag does not fit, and before each word marked in `ds`. */
  function CommandWith(moduleName: string, params: seq<string>, sourcesPath: string, brk: string, ds: seq<bool>): string
    requires |ds| == |params| + 1
  {
    var start := CommandStart(moduleName);
    var flag := IncludeFlag(sourcesPath);
    start + (if |start| + |flag| > Limit then brk else "") + flag + Weave(Words(CommandWords(moduleName, params)), brk, ds)
  }

  /** The command line is its plain text with a continuation inserted at each break, and
      deleting every continuation it received, the one before the include flag included,
      leaves the start, the include flag, every define in parameter order and the test
      bench file. */
  lemma CommandErased(moduleName: string, params: seq<string>, sourcesPath: string)
    ensures var ws := Words(CommandWords(moduleName, params));
      var ds := Breaks(CommandOpening(moduleName, sourcesPath), ws, Continuation);
      |ds| == |params| + 1 &&
      CommandText(moduleName, params, sourcesPath) == CommandWith(moduleName, params, sourcesPath, Continuation, ds) &&
      CommandWith(moduleName, params, sourcesPath, "", ds) ==
        CommandStart(moduleName) + IncludeFlag(sourcesPath) + Concat(CommandWords(moduleName, params))
  {
    var ws := Words(CommandWords(moduleName, params));
    var opening := CommandOpening(moduleName, sourcesPath);
    var start := CommandStart(moduleName);
    var flag := IncludeFlag(sourcesPath);
    FlowIsWeave(opening, ws, Continuation);
    var ds := Breaks(opening, ws, Continuation);
    WeaveErased(ws, ds);
    PlainWords(CommandWords(moduleName, params));
    AppendNil(start);
    assert opening == start + (if |start| + |flag| > Limit then Continuation else "") + flag;
  }

  /** A command that fits on one line is the plain concatenation of its words. */
  lemma CommandFits(moduleName: string, params: seq<string>, sourcesPath: string)
    requires '\n' !in moduleName && '\n' !in sourcesPath && NoLineFeeds(params)
    requires |CommandStart(moduleName) + IncludeFlag(sourcesPath) + Concat(CommandWords(moduleName, params))| <= Limit
    ensures CommandText(moduleName, params, sourcesPath) ==
      CommandStart(moduleName) + IncludeFlag(sourcesPath) + Concat(CommandWords(moduleName, params))
  {
    var words := CommandWords(moduleName, params);
    var ws := Words(words);
    var start := CommandStart(moduleName) + IncludeFlag(sourcesPath);
    PlainWords(words);
    assert |start| + |Plain(ws)| <= Limit;
    assert CommandOpening(moduleName, sourcesPath) == start;
    SplitNoSeparator(start, '\n');
    assert LastLine(start) == start;
    forall k | 0 <= k < |ws| - 1 ensures '\n' !in ws[k].glue && '\n' !in ws[k].text {
      LowerKeepsLines(params[k]);
      assert ws[k].text == "-D" + Lower(params[k]) + "=%s ";
    }
    FitsUnbroken(start, ws, Continuation, 0);
  }

  // ---------------------------------------------------------------------------
  // the Ports and Params namedtuples

  const PortsHead: string := "Ports = namedtuple('ports', "
  const ParamsHead: string := "Params = namedtuple('params', "

  lemma HeadsOneLine()
    ensures '\n' !in PortsHead && '\n' !in ParamsHead
  {
  }

  /** The break inside a tuple's field list: the string literal is closed, the line broken,
      and a new literal opened under the first one. */
  function TupleBreak(indent: nat): string {
    "'\n" + Spaces(indent) + "'"
  }

  /** The fields of a namedtuple declaration: every field but the last followed by a
      comma, and the last one closing the field string and the call. */
  function TuplePieces(heads: seq<string>, last: string): seq<Piece> {
    FieldPieces(heads) + [Piece(|last|, "", last)]
  }

  /** A namedtuple declaration, with its field string wrapped at column 79 and continued
      under its opening quote. */
  function TupleText(head: string, heads: seq<string>, last: string): string {
    Flow(head + "'", TuplePieces(heads, last), TupleBreak(|head|)) + "\n\n"
  }

  /** With no ports the field string is left open. */
  function PortTupleText(ports: seq<string>): string {
    if ports == [] then PortsHead + "'" + "\n\n"
    else TupleText(PortsHead, ports[..|ports| - 1], ports[|ports| - 1] + "')")
  }

  /** Parameter fields are lowercased, except the last one. */
  function ParamsTupleText(params: seq<string>): string {
    if params == [] then ParamsHead + "'" + "\n\n"
    else TupleText(ParamsHead, LowerAll(params[..|params| - 1]), params[|params| - 1] + "')")
  }

  /** One round of a namedtuple loop: a leading field is appended with its comma after a
      break, a space or (the first) nothing; the last field after a break or nothing. */
  lemma TupleRound(start: string, heads: seq<string>, last: string, brk: string, i: nat)
    requires i <= |heads|
    ensures var ps := TuplePieces(heads, last); var before := Flow(start, ps[..i], brk);
      Flow(start, ps[..i + 1], brk) ==
        if i < |heads| then
          var next := heads[i] + ",";
          if |LastLine(before)| + |next| > Limit then before + brk + next
          else if i != 0 then before + " " + next
          else before + next
        else
          (if |LastLine(before)| + |last| > Limit then before + brk else before) + last
  {
    var ps := TuplePieces(heads, last);
    FlowSnoc(start, ps[..i], ps[i], brk);
    TakeSnoc(ps, i);
  }

  method PortTuple(ports: seq<string>) returns (tuple: string)
    ensures tuple == PortTupleText(ports)
  {
    tuple := "Ports = namedtuple('ports', ";
    var offset := "";
    for i := 0 to |tuple|
      invariant offset == Spaces(i)
    {
      offset := offset + " ";
    }
    tuple := tuple + "'";
    var brk := "'\n" + offset + "'";
    ghost var start := tuple;
    ghost var heads := if ports == [] then [] else ports[..|ports| - 1];
    ghost var last := if ports == [] then "" else ports[|ports| - 1] + "')";
    ghost var ps := TuplePieces(heads, last);
    assert ps[..0] == [];
    for i := 0 to |ports|
      invariant tuple == Flow(start, ps[..i], brk)
    {
      TupleRound(start, heads, last, brk, i);
      if i != |ports| - 1 {
        assert heads[i] == ports[i];
        tuple := AppendField(tuple, ports[i] + ",", i, brk);
      } else {
        tuple := AppendLastField(tuple, ports[i] + "')", brk);
      }
    }
    assert brk == TupleBreak(|PortsHead|);
    if ports != [] {
      TakeAll(ps);
    }
    tuple := tuple + "\n\n";
  }

  method ParamsTuple(params: seq<string>) returns (tuple: string)
    ensures tuple == ParamsTupleText(params)
  {
    tuple := "Params = namedtuple('params', ";
    var offset := "";
    for i := 0 to |tuple|
      invariant offset == Spaces(i)
    {
      offset := offset + " ";
    }
    tuple := tuple + "'";
    var brk := "'\n" + offset + "'";
    ghost var start := tuple;
    ghost var heads := if params == [] then [] else LowerAll(params[..|params| - 1]);
    ghost var last := if params == [] then "" else params[|params| - 1] + "')";
    ghost var ps := TuplePieces(heads, last);
    assert ps[..0] == [];
    for i := 0 to |params|
      invariant tuple == Flow(start, ps[..i], brk)
    {
      TupleRound(start, heads, last, brk, i);
      if i != |params| - 1 {
        assert heads[i] == Lower(params[i]);
        tuple := AppendField(tuple, Lower(params[i]) + ",", i, brk);
      } else {
        tuple := AppendLastField(tuple, params[i] + "')", brk);
      }
    }
    assert brk == TupleBreak(|ParamsHead|);
    if params != [] {
      TakeAll(ps);
    }
    tuple := tuple + "\n\n";
  }

  /** One round of a namedtuple loop for a field before the last: the field and its comma,
      after a break when they would pass the limit and after a space unless first. */
  method AppendField(tuple: string, next: string, i: nat, brk: string) returns (r: string)
    ensures r == if |LastLine(tuple)| + |next| > Limit then tuple + brk + next
                 else if i != 0 then tuple + " " + next
                 else tuple + next
  {
    r := tuple;
    if |LastLine(r)| + |next| > Limit {
      r := r + brk;
      r := r + next;
    } else if i != 0 {
      r := r + " " + next;
    } else {
      r := r + next;
    }
  }

  /** The last round of a namedtuple loop: the field closing the call, after a break when
      it would pass the limit. */
  method AppendLastField(tuple: string, next: string, brk: string) returns (r: string)
    ensures r == (if |LastLine(tuple)| + |next| > Limit then tuple + brk else tuple) + next
  {
    r := tuple;
    if |LastLine(r)| + |next| > Limit {
      r := r + brk;
    }
    r := r + next;
  }

  /** A namedtuple declaration: its head and the opening quote, then every field, each
      after a break exactly when it would carry the current line past column 79. */
  lemma TupleLayout(head: string, heads: seq<string>, last: string)
    ensures var ps := TuplePieces(heads, last); var brk := TupleBreak(|head|);
      var start := head + "'"; var ds := Breaks(start, ps, brk);
      |ds| == |ps| &&
      TupleText(head, heads, last) == start + Weave(ps, brk, ds) + "\n\n" &&
      (forall i :: 0 <= i < |ps| ==>
        (ds[i] <==> |LastLine(Flow(start, ps[..i], brk))| + ps[i].width > Limit))
  {
    FlowLayout(head + "'", TuplePieces(heads, last), TupleBreak(|head|));
  }

  /** A field placed after a break starts a line that reopens the field string under the
      first quote. */
  lemma TupleContinuation(head: string, heads: seq<string>, last: string, i: nat)
    requires i < |TuplePieces(heads, last)| && '\n' !in TuplePieces(heads, last)[i].text
    requires var ps := TuplePieces(heads, last);
      |Breaks(head + "'", ps, TupleBreak(|head|))| == |ps| && Breaks(head + "'", ps, TupleBreak(|head|))[i]
    ensures var ps := TuplePieces(heads, last);
      LastLine(Flow(head + "'", ps[..i + 1], TupleBreak(|head|))) == Spaces(|head|) + "'" + ps[i].text
  {
    var indent := Spaces(|head|) + "'";
    assert TupleBreak(|head|) == "'\n" + indent;
    assert '\n' !in indent;
    LastLineUnique(TupleBreak(|head|), indent);
    ContinuationLine(head + "'", TuplePieces(heads, last), TupleBreak(|head|), i);
    assert indent + TuplePieces(heads, last)[i].text == Spaces(|head|) + "'" + TuplePieces(heads, last)[i].text;
  }

  /** A namedtuple declaration that fits on one line: the fields with commas, separated by
      spaces, and the last field directly after the previous comma. */
  lemma TupleFits(head: string, heads: seq<string>, last: string)
    requires '\n' !in head && NoLineFeeds(heads)
    requires |head| + 1 + |JoinWith(Commas(heads), " ")| + |last| <= Limit
    ensures TupleText(head, heads, last) == head + "'" + JoinWith(Commas(heads), " ") + last + "\n\n"
  {
    var start := head + "'";
    SplitNoSeparator(start, '\n');
    assert LastLine(start) == start;
    FieldsFit(start, heads, Piece(|last|, "", last), TupleBreak(|head|));
  }

  /** The `Ports` declaration of one or more ports that fit on one line. */
  lemma PortTupleFits(ports: seq<string>)
    requires |ports| >= 1 && NoLineFeeds(ports)
    requires |PortsHead| + 1 + |JoinWith(Commas(ports[..|ports| - 1]), " ")| + |ports[|ports| - 1]| + 2 <= Limit
    ensures PortTupleText(ports) ==
      PortsHead + "'" + JoinWith(Commas(ports[..|ports| - 1]), " ") + ports[|ports| - 1] + "')\n\n"
  {
    var n := |ports|;
    NoLineFeedsInit(ports);
    HeadsOneLine();
    TupleFits(PortsHead, ports[..n - 1], ports[n - 1] + "')");
  }

  /** The `Params` declaration of parameters that fit on one line: all but the last
      lowercased. */
  lemma ParamsTupleFits(params: seq<string>)
    requires |params| >= 1 && NoLineFeeds(params)
    requires |ParamsHead| + 1 + |JoinWith(Commas(LowerAll(params[..|params| - 1])), " ")| + |params[|params| - 1]| + 2 <= Limit
    ensures ParamsTupleText(params) ==
      ParamsHead + "'" + JoinWith(Commas(LowerAll(params[..|params| - 1])), " ") + params[|params| - 1] + "')\n\n"
  {
    var n := |params|;
    NoLineFeedsInit(params);
    NoLineFeedsLower(params[..n - 1]);
    HeadsOneLine();
    TupleFits(ParamsHead, LowerAll(params[..n - 1]), params[n - 1] + "')");
  }

  // ---------------------------------------------------------------------------
  // the co-simulation function

  /** The indentation of the second and later arguments of the `os.system` call. */
  const ArgIndent: string := "\t                 "

  /** The indentation of the second argument of `Cosimulation`. */
  const ReturnIndent: string := "\t                    "

  /** The argument for parameter `i`: a comma after every one but the last, which closes
      the call. */
  function ArgText(params: seq<string>, i: nat): string
    requires i < |params|
  {
    "params." + Lower(params[i]) + (if i != |params| - 1 then ",\n" else "))\n")
  }

  function Args(params: seq<string>): seq<string> {
    seq(|params|, i requires 0 <= i < |params| => ArgText(params, i))
  }

  function FnOpening(moduleName: string): string {
    "def " + moduleName + "(ports, params):\n" + "\tos.system(cmd % ("
  }

  function FnClosing(moduleName: string, vpiPath: string): string {
    "\treturn Cosimulation(" + ("\"vvp -m " + vpiPath + " " + moduleName + ".o, \"\n") + (ReturnIndent + "**ports._asdict())\n\n")
  }

  /** The ports are not used: the function passes them on as `**ports._asdict()`. */
  function FnDefText(moduleName: string, ports: seq<string>, params: seq<string>, vpiPath: string): string {
    FnOpening(moduleName) + JoinWith(Args(params), ArgIndent) + FnClosing(moduleName, vpiPath)
  }

  method FnDef(moduleName: string, ports: seq<string>, parameters: seq<string>, vpiPath: string) returns (fn: string)
    ensures fn == FnDefText(moduleName, ports, parameters, vpiPath)
  {
    fn := "def " + moduleName + "(ports, params):\n";
    fn := fn + "\tos.system(cmd % (";
    var offset := ArgIndent;
    ghost var opening := fn;
    assert opening == FnOpening(moduleName);
    ghost var args := Args(parameters);
    for i := 0 to |parameters|
      invariant fn == opening + JoinWith(args[..i], ArgIndent)
    {
      ghost var joined := JoinWith(args[..i], ArgIndent);
      ghost var ind := if i != 0 then ArgIndent else "";
      fn := AppendArg(fn, parameters, i, offset);
      ArgRound(args, i);
      AppendAssoc(opening, joined, ind);
      AppendAssoc(opening, joined + ind, args[i]);
    }
    TakeAll(args);
    ghost var body := fn;
    fn := fn + "\treturn Cosimulation(";
    offset := ReturnIndent;
    fn := fn + ("\"vvp -m " + vpiPath + " " + moduleName + ".o, \"\n");
    fn := fn + (offset + "**ports._asdict())\n\n");
    ghost var call := "\treturn Cosimulation(";
    ghost var run := "\"vvp -m " + vpiPath + " " + moduleName + ".o, \"\n";
    AppendAssoc(body, call, run);
    AppendAssoc(body, call + run, ReturnIndent + "**ports._asdict())\n\n");
  }

  /** One round of the argument loop: the indentation before every argument but the first,
      then the lowercased parameter, a comma and a line feed, or the closing of the call
      after the last. */
  method AppendArg(fn: string, parameters: seq<string>, i: nat, offset: string) returns (next: string)
    requires i < |parameters|
    ensures next == fn + (if i != 0 then offset else "") + ArgText(parameters, i)
  {
    next := fn;
    if i != 0 {
      next := next + offset;
    }
    if i != |parameters| - 1 {
      next := next + ("params." + Lower(parameters[i]) + ",\n");
    } else {
      next := next + ("params." + Lower(parameters[i]) + "))\n");
    }
  }

  /** One round of the argument loop: the indentation before every argument but the first. */
  lemma ArgRound(args: seq<string>, i: nat)
    requires i < |args|
    ensures JoinWith(args[..i + 1], ArgIndent) == JoinWith(args[..i], ArgIndent) + (if i != 0 then ArgIndent else "") + args[i]
  {
    JoinWithSnoc(args, ArgIndent, i);
    if i == 0 {
      assert args[..0] == [];
    }
  }

  /** The line of the call for parameter `i`: indented under the first argument after the
      first, and closing the call after the last. */
  function ArgLine(params: seq<string>, i: nat): string
    requires i < |params|
  {
    (if i == 0 then "" else ArgIndent) + "params." + Lower(params[i]) + (if i != |params| - 1 then "," else "))")
  }

  function ArgLines(params: seq<string>): seq<string> {
    seq(|params|, i requires 0 <= i < |params| => ArgLine(params, i))
  }

  /** The arguments of the `os.system` call stand one per line, each parameter lowercased
      and every line after the first aligned under the first argument. */
  lemma ArgsAreLines(params: seq<string>)
    ensures JoinWith(Args(params), ArgIndent) == Unlines(ArgLines(params))
  {
    ArgsPrefixAreLines(params, |params|);
    assert Args(params)[..|params|] == Args(params);
    assert ArgLines(params)[..|params|] == ArgLines(params);
  }

  lemma {:induction false} ArgsPrefixAreLines(params: seq<string>, k: nat)
    requires k <= |params|
    ensures JoinWith(Args(params)[..k], ArgIndent) == Unlines(ArgLines(params)[..k])
    decreases k
  {
    if k == 0 {
      assert Args(params)[..0] == [];
      assert ArgLines(params)[..0] == [];
    } else {
      ArgsPrefixAreLines(params, k - 1);
      ArgsStep(params, k);
    }
  }

  lemma ArgsStep(params: seq<string>, k: nat)
    requires 0 < k <= |params|
    requires JoinWith(Args(params)[..k - 1], ArgIndent) == Unlines(ArgLines(params)[..k - 1])
    ensures JoinWith(Args(params)[..k], ArgIndent) == Unlines(ArgLines(params)[..k])
  {
    var lines := ArgLines(params);
    var args := Args(params);
    var joined := JoinWith(args[..k - 1], ArgIndent);
    TakeSnoc(lines, k - 1);
    UnlinesAppend(lines[..k - 1], [lines[k - 1]]);
    var last := Unlines([lines[k - 1]]);
    assert Unlines(lines[..k]) == joined + last;
    ArgRound(args, k - 1);
    ArgLineText(params, k - 1);
    var ind := if k - 1 != 0 then ArgIndent else "";
    assert JoinWith(args[..k], ArgIndent) == joined + ind + args[k - 1];
    assert last == ind + args[k - 1];
    AppendAssoc(joined, ind, args[k - 1]);
  }

  lemma ArgLineText(params: seq<string>, i: nat)
    requires i < |params|
    ensures Unlines([ArgLines(params)[i]]) == (if i != 0 then ArgIndent else "") + Args(params)[i]
  {
    var line := ArgLines(params)[i];
    assert [line][1..] == [];
    var ind := if i == 0 then "" else ArgIndent;
    var x := "params." + Lower(params[i]);
    var e := if i != |params| - 1 then "," else "))";
    assert line == ind + x + e;
    assert Unlines([line]) == ind + x + e + "\n";
    assert Args(params)[i] == x + (e + "\n");
  }

  // ---------------------------------------------------------------------------
  // the command

  function BindText(t: Target, sourcesPath: string, vpiPath: string): string {
    HeaderString(t.unit.name) + CommandText(t.unit.name, t.params, sourcesPath) +
    PortTupleText(t.ports) + ParamsTupleText(t.params) + FnDefText(t.unit.name, t.ports, t.params, vpiPath)
  }

  /** What the bind command produces for the ctags output of the chosen file, where
      `chosen` is the answer to the quick pick and the two paths are the settings
      `myhdltools.bindInstantiation.sourcesPath` and `myhdlvpiPath`. */
  function BindOutcome(output: string, chosen: Option<string>, sourcesPath: string, vpiPath: string): Outcome {
    match Locate(output, chosen)
    case Halted(o) => o
    case Located(t) => Generated(BindText(t, sourcesPath, vpiPath))
  }

  method InstantiateBind(output: string, chosen: Option<string>, sourcesPath: string, vpiPath: string)
    returns (result: Outcome)
    ensures result == BindOutcome(output, chosen, sourcesPath, vpiPath)
  {
    var located := LocateModule(output, chosen);
    if located.Halted? {
      return located.outcome;
    }
    var m := located.target.unit;
    var ports := located.target.ports;
    var params := located.target.params;
    var command := CommandString(m.name, params, sourcesPath);
    var portTuple := PortTuple(ports);
    var paramsTuple := ParamsTuple(params);
    var fn := FnDef(m.name, ports, params, vpiPath);
    result := Generated(HeaderString(m.name) + command + portTuple + paramsTuple + fn);
  }
}

/** Choosing the module a command generates code for, and the ports and parameters that
    belong to it. Each of the three command files does this inline, with identical code:
    the modules of the table, a choice among them, the module's qualified scope, and two
    filters of the table by kind and scope. */
module Selection {
  import opened Wrappers
  import opened Seqs
  import opened Tags

  predicate IsModule(t: Symbol) {
    t.kind == "module"
  }

  /** The symbols whose kind is `module`, in their original order. */
  function Modules(symbols: seq<Symbol>): seq<Symbol> {
    Filter(symbols, IsModule)
  }

  /** The first module carrying the given name, or nothing when no module has it. */
  function FirstNamed(modules: seq<Symbol>, name: string): Option<Symbol> {
    var named := Filter(modules, (t: Symbol) => t.name == name);
    if named == [] then None else Some(named[0])
  }

  /** How the choice of a module ends. */
  datatype Choice = Chosen(m: Symbol) | NoModules | Dismissed | Unknown

  /** The module a command uses. With no module the command shows an error; with one it
      uses it directly; with several, `chosen` is the name picked from the quick pick, or
      `None` when the pick was dismissed, and a name no module carries leaves the module
      undefined. */
  function SelectModule(symbols: seq<Symbol>, chosen: Option<string>): Choice {
    var modules := Modules(symbols);
    if |modules| == 0 then NoModules
    else if |modules| == 1 then Chosen(modules[0])
    else match chosen
      case None => Dismissed
      case Some(name) =>
        match FirstNamed(modules, name)
        case None => Unknown
        case Some(m) => Chosen(m)
  }

  /** The case analysis of the module choice: an error without modules, the only module
      when there is one, and otherwise the first module carrying the chosen name. */
  lemma SelectModuleCases(symbols: seq<Symbol>, chosen: Option<string>)
    ensures var modules := Modules(symbols); var r := SelectModule(symbols, chosen);
      (r == NoModules <==> |modules| == 0) &&
      (|modules| == 1 ==> r == Chosen(modules[0])) &&
      (r == Dismissed <==> |modules| > 1 && chosen == None) &&
      (|modules| > 1 && chosen.Some? ==>
        (var i := FirstWhere(modules, (t: Symbol) => t.name == chosen.value);
         (r == Unknown <==> forall j :: 0 <= j < |modules| ==> modules[j].name != chosen.value) &&
         (r.Chosen? ==> i < |modules| && r == Chosen(modules[i]) && r.m.name == chosen.value &&
                        forall j :: 0 <= j < i ==> modules[j].name != chosen.value)))
  {
    var modules := Modules(symbols);
    if |modules| > 1 && chosen.Some? {
      var p := (t: Symbol) => t.name == chosen.value;
      FilterHead(modules, p);
      assert FirstNamed(modules, chosen.value) == (if Filter(modules, p) == [] then None else Some(Filter(modules, p)[0]));
    }
  }

  /** Whatever is chosen is a module of the table. */
  lemma SelectedIsModule(symbols: seq<Symbol>, chosen: Option<string>)
    ensures var r := SelectModule(symbols, chosen);
      r.Chosen? ==> r.m in symbols && r.m.kind == "module"
  {
    var modules := Modules(symbols);
    FilterSatisfies(symbols, IsModule);
    FilterSubsequenceMembers(symbols, IsModule);
    if |modules| > 1 && chosen.Some? {
      var p := (t: Symbol) => t.name == chosen.value;
      FilterHead(modules, p);
      assert FirstNamed(modules, chosen.value) == (if Filter(modules, p) == [] then None else Some(Filter(modules, p)[0]));
    }
  }

  /** The scope a module's ports and parameters name as their parent: the module's own
      parent scope, a dot and its name, or just its name at top level. An undefined parent
      scope is not `""`, so JavaScript concatenates it as the text `undefined`. */
  function QualifiedScope(m: Symbol): (scope: string)
    ensures |scope| >= |m.name| && scope[|scope| - |m.name|..] == m.name
    ensures scope == m.name <==> m.parentScope == Some("")
    ensures scope != m.name ==> scope[|scope| - |m.name| - 1] == '.'
  {
    match m.parentScope
    case None => "undefined." + m.name
    case Some(parent) => if parent != "" then parent + "." + m.name else m.name
  }

  /** A symbol declared directly in the module whose qualified scope is `scope`. */
  predicate InScope(t: Symbol, kind: string, scope: string) {
    t.kind == kind && t.parentType == "module" && t.parentScope == Some(scope)
  }

  /** The symbols of the given kind declared directly inside the module whose scope is
      given, in their original order. */
  function Children(symbols: seq<Symbol>, kind: string, scope: string): seq<Symbol> {
    Filter(symbols, (t: Symbol) => InScope(t, kind, scope))
  }

  /** The name of every symbol, in order. */
  function Names(symbols: seq<Symbol>): (names: seq<string>)
    ensures |names| == |symbols| && forall i :: 0 <= i < |symbols| ==> names[i] == symbols[i].name
  {
    seq(|symbols|, i requires 0 <= i < |symbols| => symbols[i].name)
  }

  /** The children of a scope are the symbols of the table in that scope with that kind, in
      table order, each as often as the table holds it, and nothing else. */
  lemma ChildrenSpec(symbols: seq<Symbol>, kind: string, scope: string)
    ensures IsSubsequence(Children(symbols, kind, scope), symbols)
    ensures forall i :: 0 <= i < |Children(symbols, kind, scope)| ==> InScope(Children(symbols, kind, scope)[i], kind, scope)
    ensures forall t :: multiset(Children(symbols, kind, scope))[t] == if InScope(t, kind, scope) then multiset(symbols)[t] else 0
  {
    var p := (t: Symbol) => InScope(t, kind, scope);
    FilterSubsequence(symbols, p);
    FilterSatisfies(symbols, p);
    forall t ensures multiset(Children(symbols, kind, scope))[t] == if InScope(t, kind, scope) then multiset(symbols)[t] else 0 {
      FilterCount(symbols, p, t);
    }
  }

  /** Two modules with different qualified scopes share no port or parameter, even when
      both declare one with the same name. */
  lemma ChildrenDisjoint(symbols: seq<Symbol>, kind: string, a: Symbol, b: Symbol)
    requires QualifiedScope(a) != QualifiedScope(b)
    ensures forall t :: t in Children(symbols, kind, QualifiedScope(a)) ==> t !in Children(symbols, kind, QualifiedScope(b))
  {
    ChildrenSpec(symbols, kind, QualifiedScope(a));
    ChildrenSpec(symbols, kind, QualifiedScope(b));
    forall t | t in Children(symbols, kind, QualifiedScope(a))
      ensures t !in Children(symbols, kind, QualifiedScope(b))
    {
      assert multiset(Children(symbols, kind, QualifiedScope(a)))[t] > 0;
    }
  }

  /** Two top-level modules with different names have different scopes. */
  lemma TopLevelScopesDiffer(a: Symbol, b: Symbol)
    requires a.parentScope == Some("") && b.parentScope == Some("") && a.name != b.name
    ensures QualifiedScope(a) != QualifiedScope(b)
  {
  }

  /** What a command extracts from the table: the module and the names of its ports and of
      its parameters, in table order. */
  datatype Target = Target(unit: Symbol, ports: seq<string>, params: seq<string>)

  /** How a command ends: with the generated snippet, with the error message about a file
      without modules, silently when the quick pick is dismissed, or with an exception (a
      line of ctags output that does not parse, or a module left undefined). */
  datatype Outcome = Generated(text: string) | NoModulesError | Cancelled | Failed

  /** The table a command works on and the module it picks, or how it stops before
      generating anything. */
  datatype Located = Located(target: Target) | Halted(outcome: Outcome)

  function TargetOf(symbols: seq<Symbol>, m: Symbol): Target {
    var scope := QualifiedScope(m);
    Target(m, Names(Children(symbols, "port", scope)), Names(Children(symbols, "constant", scope)))
  }

  function Locate(output: string, chosen: Option<string>): Located {
    match ModuleTable(output)
    case None => Halted(Failed)
    case Some(symbols) =>
      match SelectModule(symbols, chosen)
      case NoModules => Halted(NoModulesError)
      case Dismissed => Halted(Cancelled)
      case Unknown => Halted(Failed)
      case Chosen(m) => Located(TargetOf(symbols, m))
  }

  /** A command generates for a module of the parsed table, with the ports and parameters
      of that module's scope. */
  lemma LocatedSpec(output: string, chosen: Option<string>)
    ensures Locate(output, chosen).Located? ==>
      var t := Locate(output, chosen).target;
      var symbols := Accepted(Lines(output), LegacyKinds);
      AllParse(Lines(output)) && t.unit in symbols && t.unit.kind == "module" &&
      t == TargetOf(symbols, t.unit)
  {
    if AllParse(Lines(output)) {
      var symbols := Accepted(Lines(output), LegacyKinds);
      SelectedIsModule(symbols, chosen);
    }
  }

  /** A command fails exactly when the ctags output has a line that does not parse or the
      picked name belongs to no module; it reports the missing modules exactly when the
      table has none and is cancelled exactly when the pick among several is dismissed. */
  lemma HaltedCases(output: string, chosen: Option<string>)
    ensures var modules := Modules(Accepted(Lines(output), LegacyKinds));
      (Locate(output, chosen) == Halted(Failed) <==>
        !AllParse(Lines(output)) ||
        (|modules| > 1 && chosen.Some? && forall s :: s in modules ==> s.name != chosen.value)) &&
      (Locate(output, chosen) == Halted(NoModulesError) <==> AllParse(Lines(output)) && |modules| == 0) &&
      (Locate(output, chosen) == Halted(Cancelled) <==> AllParse(Lines(output)) && |modules| > 1 && chosen == None)
  {
    var modules := Modules(Accepted(Lines(output), LegacyKinds));
    SelectModuleCases(Accepted(Lines(output), LegacyKinds), chosen);
    if chosen.Some? {
      assert (forall s :: s in modules ==> s.name != chosen.value) <==>
             (forall j :: 0 <= j < |modules| ==> modules[j].name != chosen.value);
    }
  }

  /** The part every command runs before it builds its snippet: ctags output parsed into a
      fresh table, the module chosen, and its ports and parameters collected. */
  method LocateModule(output: string, chosen: Option<string>) returns (r: Located)
    ensures r == Locate(output, chosen)
  {
    var ctags := new Ctags();
    var ok := ctags.BuildModuleSymbolsList(output);
    if !ok {
      return Halted(Failed);
    }
    var symbols := ctags.symbols;
    AppendNil(Accepted(Lines(output), LegacyKinds));
    assert ModuleTable(output) == Some(symbols);
    var choice := ChooseModule(symbols, chosen);
    match choice
    case NoModules => r := Halted(NoModulesError);
    case Dismissed => r := Halted(Cancelled);
    case Unknown => r := Halted(Failed);
    case Chosen(m) =>
      var scope := QualifiedScope(m);
      var ports := Names(Children(symbols, "port", scope));
      var params := Names(Children(symbols, "constant", scope));
      r := Located(Target(m, ports, params));
  }

  /** The choice every command makes inline: the only module, or the first one carrying
      the name picked among several. */
  method ChooseModule(symbols: seq<Symbol>, chosen: Option<string>) returns (c: Choice)
    ensures c == SelectModule(symbols, chosen)
  {
    var modules := Modules(symbols);
    if |modules| <= 0 {
      return NoModules;
    } else if |modules| == 1 {
      return Chosen(modules[0]);
    }
    if chosen == None {
      return Dismissed;
    }
    var named := FirstNamed(modules, chosen.value);
    if named == None {
      return Unknown;
    }
    c := Chosen(named.value);
  }
}

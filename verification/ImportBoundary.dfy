/**
  What the check is for: when it reports nothing about a file, no run of that file imports
  across the package boundary by a statement or by a loader it reached directly.  And the
  other ways to a loader, each of which it can miss.
 */
module ImportBoundary {
  import opened Options
  import opened ImportLanguage
  import opened DynamicImports
  import opened ImportSoundness

  datatype SourceKind = Research | Production | Adapter

  predicate IsModuleOrSubmodule(name: string, root: string) {
    name == root || root + "." <= name
  }

  predicate Forbidden(kind: SourceKind, name: string) {
    match kind
    case Research => IsModuleOrSubmodule(name, "mytradingalpha")
    case Production => IsModuleOrSubmodule(name, "tradingagents")
    case Adapter => false
  }

  ghost function NamesOf(program: seq<Stmt>): set<string> {
    {"__import__"} + Bound(program)
  }

  const START: State := map["__import__" := {DunderImport}]

  ghost function Analysis(program: seq<Stmt>): Flow {
    AnalyzeBlock(program, START, NamesOf(program))
  }

  /** The file yields no violation: nothing forbidden, nothing left to manual review. */
  ghost predicate Passes(kind: SourceKind, program: seq<Stmt>) {
    && (forall name | name in Imported(program) :: !Forbidden(kind, name))
    && (forall f | f in Analysis(program).found :: f.name.Some? && !Forbidden(kind, f.name.value))
  }

  /**
    Whatever a file starts with, every run of it stays inside the computed states, and what
    must be recorded is: the head of each of its loops absorbs the states at its `continue`s.
   */
  lemma ProgramSound(program: seq<Stmt>, env: Env, choices: seq<Choice>, plain: bool)
    requires Covers(START, env, plain) && BlockInScope(program, START, NamesOf(program), plain) && (plain ==> PlainChoices(choices))
    ensures SoundResult(ExecBlock(program, env, choices), Analysis(program), ContinuingBlock(program, START, NamesOf(program)),
                        Imported(program), plain)
  {
    BlockSound(program, START, env, choices, NamesOf(program), plain);
  }

  /** No run of a file without violations loads a forbidden module by a statement or a directly reached loader. */
  lemma PassingLoadsNothingForbidden(kind: SourceKind, program: seq<Stmt>, env: Env, choices: seq<Choice>)
    requires Covers(START, env, false) && BlockInScope(program, START, NamesOf(program), false) && Passes(kind, program)
    ensures forall l | l in ExecBlock(program, env, choices).loads && Accounted(l) :: !Forbidden(kind, l.name)
  {
    hide Forbidden, Covers, BlockInScope, ExecBlock;
    ProgramSound(program, env, choices, false);
  }

  /**
    In a file that shows no other way to a loader, and a run in which nothing the text leaves
    open is one, every load counts: such a file without violations loads nothing forbidden.
   */
  lemma PlainRunsLoadNothingForbidden(kind: SourceKind, program: seq<Stmt>, env: Env, choices: seq<Choice>)
    requires Covers(START, env, true) && BlockInScope(program, START, NamesOf(program), true) && PlainChoices(choices)
    requires Passes(kind, program)
    ensures forall l | l in ExecBlock(program, env, choices).loads :: Accounted(l) && !Forbidden(kind, l.name)
  {
    hide Forbidden, Covers, BlockInScope, ExecBlock, PlainChoices;
    ProgramSound(program, env, choices, true);
  }

  // ----- Other ways to a loader -----

  /** A call of `func` with "tradingagents" as a statement */
  function CallOf(func: Expr): Stmt { ExprStmt(Call(0, func, [Text("tradingagents")], [])) }

  /** `import importlib as m` */
  function ImportAs(m: string): Stmt { Import([Alias("importlib", "importlib", Some(m))]) }

  /** Some run loads a forbidden module that the check says nothing about. */
  ghost predicate Missed(program: seq<Stmt>) {
    && Passes(Production, program) && Covers(START, STARTING, true)
    && exists choices, l :: l in ExecBlock(program, STARTING, choices).loads && Forbidden(Production, l.name)
  }

  /** The loader every module sees before its first statement. */
  const STARTING: Env := map["__import__" := Value(BuiltinImport, true)]

  lemma StartingIsCovered()
    ensures Covers(START, STARTING, true)
  {
  }

  lemma AttributeBinding(owner: Expr, attr: string, s: State, l: Label)
    requires Binding(owner, s) == {l}
    ensures Binding(Attribute(owner, attr), s) == {AttributeOf(l, attr)} && FoundIn(Attribute(owner, attr), s) == FoundIn(owner, s)
  {
    assert forall o | o in Binding(owner, s) :: o == l;
    assert l in Binding(owner, s);
  }

  /** `import importlib as m`, then `m.__import__("tradingagents")` */
  lemma ImportlibImportMissed(m: string)
    ensures Missed([ImportAs(m), CallOf(Attribute(Name(m), "__import__"))])
  {
    var func, c := Attribute(Name(m), "__import__"), Choice(true, "", Plain, map[]);
    var env := STARTING[m := Value(ImportlibModule, true)];
    AttributeBinding(Name(m), "__import__", START[m := {Importlib}], Importlib);
    ModulePasses(m, func);
    ImportRuns(m, STARTING, [c, c, c]);
    assert [c, c, c][1..] == [c, c] && [c, c][1..] == [c];
    assert Eval(Name(m), env, [c, c]) == EvalResult(false, env[m], [], [c, c]);
    assert Eval(func, env, [c, c]) == EvalResult(false, Value(ImportlibImport, true), [], [c]);
    CallMissed(ImportAs(m), func, env, [c, c, c], [c, c], [c]);
  }

  /** `from importlib import __import__ as f`, then `f("tradingagents")` */
  lemma FromImportMissed(member: Alias, f: string)
    requires member == Alias("__import__", "__import__", Some(f))
    ensures Missed([ImportFrom(Some("importlib"), 0, [member]), CallOf(Name(f))])
  {
    var a, c := ImportFrom(Some("importlib"), 0, [member]), Choice(true, "", Plain, map[]);
    var env := STARTING[f := Value(ImportlibImport, true)];
    assert [member][1..] == [] && member in [member] && [c, c][1..] == [c];
    assert AfterMembers(Some("importlib"), 0, [member], START) == START[f := {Unknown}];
    assert forall x | x in [member] :: BoundName(x, true) == f;
    assert BoundBy(a) == {f};
    NothingForbidden();
    CallPasses(a, Name(f));
    assert BindMembers(Some("importlib"), 0, [], env, [c]) == RunResult(Finished, env, [], [c]);
    assert BindMembers(Some("importlib"), 0, [member], STARTING, [c, c]) == RunResult(Finished, env, [], [c]);
    CallMissed(a, Name(f), env, [c, c], [c], [c]);
  }

  /** `from importlib import *`, then `import_module("tradingagents")` */
  lemma StarImportMissed(star: Alias)
    requires star == Alias("*", "*", None)
    ensures Missed([ImportFrom(Some("importlib"), 0, [star]), CallOf(Name("import_module"))])
  {
    var a, func, c := ImportFrom(Some("importlib"), 0, [star]), Name("import_module"), Choice(true, "", Plain, map[]);
    assert [star][1..] == [] && [c, c][1..] == [c];
    StarPasses(star);
    var env := WithStar(STARTING["*" := PLAIN], StarNames(Some("importlib"), 0, c));
    assert BindMembers(Some("importlib"), 0, [], env, [c]) == RunResult(Finished, env, [], [c]);
    assert BindMembers(Some("importlib"), 0, [star], STARTING, [c, c]) == RunResult(Finished, env, [], [c]);
    assert env["import_module"] == Value(ImportModuleFunction, false);
    CallMissed(a, func, env, [c, c], [c], [c]);
  }

  /** `import importlib as m`, then `[m][0].import_module("tradingagents")` */
  lemma DisplayMissed(m: string)
    ensures Missed([ImportAs(m), CallOf(Attribute(Composite([Composite([Name(m)]), Number(0)]), "import_module"))])
  {
    var display := Composite([Name(m)]);
    var item := Composite([display, Number(0)]);
    var func := Attribute(item, "import_module");
    var p, i := Choice(true, "", Plain, map[]), Choice(true, "", ImportlibModule, map[]);
    var env := STARTING[m := Value(ImportlibModule, true)];
    DisplayFinds(m, START[m := {Importlib}]);
    ModulePasses(m, func);
    ImportRuns(m, STARTING, [p, p, i, p, p]);
    assert [p, p, i, p, p][1..] == [p, i, p, p] && [p, i, p, p][1..] == [i, p, p] && [i, p, p][1..] == [p, p] && [p, p][1..] == [p];
    assert [Name(m)][1..] == [] && [display, Number(0)][1..] == [Number(0)] && [Number(0)][1..] == [];
    assert EvalAll([Name(m)], env, [p, i, p, p]) == EvalResult(false, PLAIN, [], [p, i, p, p]);
    assert Eval(display, env, [p, i, p, p]) == EvalResult(false, Value(Plain, false), [], [i, p, p]);
    assert EvalAll([Number(0)], env, [i, p, p]) == EvalResult(false, PLAIN, [], [i, p, p]);
    assert EvalAll([display, Number(0)], env, [p, i, p, p]) == EvalResult(false, PLAIN, [], [i, p, p]);
    assert Eval(item, env, [p, i, p, p]) == EvalResult(false, Value(ImportlibModule, false), [], [p, p]);
    assert Eval(func, env, [p, i, p, p]) == EvalResult(false, Value(ImportModuleFunction, false), [], [p]);
    CallMissed(ImportAs(m), func, env, [p, p, i, p, p], [p, i, p, p], [p]);
  }

  /** `m.f = m.import_module` */
  function StoreLoader(m: string, f: string): Stmt {
    Assign([ExprTarget(Attribute(Name(m), f))], Attribute(Name(m), "import_module"))
  }

  /** `import importlib as m`, `m.f = m.import_module`, then `m.f("tradingagents")` */
  lemma AttributeStoreMissed(m: string, f: string)
    requires f !in {"import_module", "__import__"}
    ensures Missed([ImportAs(m), StoreLoader(m, f), CallOf(Attribute(Name(m), f))])
  {
    var func, p, i := Attribute(Name(m), f), Choice(true, "", Plain, map[]), Choice(true, "", ImportModuleFunction, map[]);
    var env := STARTING[m := Value(ImportlibModule, true)];
    StorePasses(m, f);
    ImportRuns(m, STARTING, [p, p, p, i, p]);
    StoreRuns(m, f, env, p, [i, p]);
    assert [p, p, p, i, p][1..] == [p, p] + [i, p] && [i, p][1..] == [p];
    assert Eval(Name(m), env, [i, p]) == EvalResult(false, env[m], [], [i, p]);
    assert Eval(func, env, [i, p]) == EvalResult(false, Value(ImportModuleFunction, false), [], [p]);
    var l := CallRuns(func, env, [i, p], [p]);
    ForbiddenRoot();
    StartingIsCovered();
    assert l in ExecBlock([ImportAs(m), StoreLoader(m, f), CallOf(func)], STARTING, [p, p, p, i, p]).loads by {
      hide Exec;
      assert [ImportAs(m), StoreLoader(m, f), CallOf(func)][1..] == [StoreLoader(m, f), CallOf(func)];
      assert [StoreLoader(m, f), CallOf(func)][1..] == [CallOf(func)] && [CallOf(func)][1..] == [];
      assert l in ExecBlock([CallOf(func)], env, [i, p]).loads;
    }
    hide Covers, Passes, ExecBlock, Exec, Eval, Forbidden;
  }

  lemma StorePasses(m: string, f: string)
    requires f !in {"import_module", "__import__"}
    ensures Passes(Production, [ImportAs(m), StoreLoader(m, f), CallOf(Attribute(Name(m), f))])
  {
    var a, b, c := ImportAs(m), StoreLoader(m, f), CallOf(Attribute(Name(m), f));
    var s, names := START[m := {Importlib}], {"__import__"} + {m};
    var alias := a.aliases[0];
    assert a.aliases == [alias] && alias in a.aliases && forall x | x in a.aliases :: x == alias;
    assert BoundBy(a) == {m} && ImportedBy(a) == {"importlib"} && BoundBy(b) == {} && BoundBy(c) == {};
    ImportBinds(m, START);
    AttributeBinding(Name(m), f, s, Importlib);
    AttributeBinding(Name(m), "import_module", s, Importlib);
    NothingFound(Attribute(Name(m), f), s);
    assert b.targets[1..] == [];
    assert AfterStores(b.targets, {ImportModule}, s) == Flow(s, None, {});
    ThreeStatements(a, b, c, START, s, s, s, names);
    assert Imported([a, b, c]) == {"importlib"} by {
      assert [a, b, c][1..] == [b, c];
      TwoBound(b, c);
    }
    NothingForbidden();
  }

  lemma StoreRuns(m: string, f: string, env: Env, p: Choice, rest: seq<Choice>)
    requires p.bit && m in env && env[m] == Value(ImportlibModule, true) && f !in {"import_module", "__import__"}
    ensures var r := Exec(StoreLoader(m, f), env, [p, p] + rest); r.outcome == Finished && r.env == env && r.rest == rest
  {
    assert ([p, p] + rest)[1..] == [p] + rest && ([p] + rest)[1..] == rest;
    var targets, place := StoreLoader(m, f).targets, Attribute(Name(m), f);
    assert targets == [ExprTarget(place)] && targets[1..] == [];
    assert Eval(Name(m), env, [p, p] + rest) == EvalResult(false, env[m], [], [p, p] + rest);
    assert Eval(Name(m), env, [p] + rest) == EvalResult(false, env[m], [], [p] + rest);
    assert Eval(StoreLoader(m, f).value, env, [p, p] + rest) == EvalResult(false, Value(ImportModuleFunction, true), [], [p] + rest);
    assert Eval(place, env, [p] + rest) == EvalResult(false, Value(p.entity, false), [], rest);
    assert Store([], Value(ImportModuleFunction, true), env, rest) == RunResult(Finished, env, [], rest);
  }

  function OrOwner(m: string): Expr { BoolOr(Number(0), Name(m)) }

  /** `import importlib as m`, then `(0 or m).import_module("tradingagents")` */
  lemma BooleanOperatorMissed(m: string)
    ensures Missed([ImportAs(m), CallOf(Attribute(OrOwner(m), "import_module"))])
  {
    var func := Attribute(OrOwner(m), "import_module");
    var c, no := Choice(true, "", Plain, map[]), Choice(false, "", Plain, map[]);
    var env := STARTING[m := Value(ImportlibModule, true)];
    AttributeBinding(OrOwner(m), "import_module", START[m := {Importlib}], Unknown);
    ModulePasses(m, func);
    ImportRuns(m, STARTING, [c, no, c, c]);
    assert [c, no, c, c][1..] == [no, c, c] && [no, c, c][1..] == [c, c] && [c, c][1..] == [c];
    assert Eval(OrOwner(m), env, [no, c, c]) == EvalResult(false, Value(ImportlibModule, false), [], [c, c]);
    assert Eval(func, env, [no, c, c]) == EvalResult(false, Value(ImportModuleFunction, false), [], [c]);
    CallMissed(ImportAs(m), func, env, [c, no, c, c], [no, c, c], [c]);
  }

  /** `for x in [1]:` with `import importlib as m`, `if 1: continue`, `m = 0`; the head never sees the module. */
  function LoopWithContinue(x: string, m: string): Stmt {
    For(NameTarget(x), Composite([Number(1)]), [ImportAs(m), If(Number(1), [Continue], []), Assign([NameTarget(m)], Number(0))], [])
  }

  /** That loop, then `m.import_module("tradingagents")` */
  lemma ContinueMissed(x: string, m: string)
    requires x != m && x != "__import__" && m != "__import__"
    ensures Missed([LoopWithContinue(x, m), CallOf(Attribute(Name(m), "import_module"))])
  {
    var func := Attribute(Name(m), "import_module");
    var c, no := Choice(true, "", Plain, map[]), Choice(false, "", Plain, map[]);
    ContinuePasses(x, m);
    ContinueRun(x, m, c, no);
    var env := STARTING[x := Value(Plain, false)][m := Value(ImportlibModule, true)];
    assert [c, c][1..] == [c];
    assert Eval(Name(m), env, [c, c]) == EvalResult(false, env[m], [], [c, c]);
    assert Eval(func, env, [c, c]) == EvalResult(false, Value(ImportModuleFunction, true), [], [c]);
    CallMissed(LoopWithContinue(x, m), func, env, [c, c, c, c, no, c, c], [c, c], [c]);
  }

  // ----- Files of two statements -----

  lemma TwoBound(a: Stmt, b: Stmt)
    ensures Bound([a, b]) == BoundBy(a) + BoundBy(b) && Imported([a, b]) == ImportedBy(a) + ImportedBy(b)
  {
    hide BoundBy, ImportedBy;
    assert [a, b][1..] == [b] && [b][1..] == [];
    assert Bound([b]) == BoundBy(b) && Imported([b]) == ImportedBy(b);
  }

  lemma TwoStatements(a: Stmt, b: Stmt, s: State, names: set<string>)
    requires Fits(s, names) && BoundBy(a) + BoundBy(b) <= names
    requires Bound([a, b]) <= names
    ensures var f := Analyze(a, s, names); AnalyzeBlock([a, b], s, names).found == f.found + Analyze(b, f.after, names).found
  {
    assert [a, b][1..] == [b] && [b][1..] == [];
    var f := Analyze(a, s, names);
    assert AnalyzeBlock([b], f.after, names).found == Analyze(b, f.after, names).found;
  }

  /** A file that finds nothing in a first statement, and then calls what is no known loader. */
  lemma CallPasses(a: Stmt, func: Expr)
    requires (forall name | name in ImportedBy(a) :: !Forbidden(Production, name))
    requires var names := {"__import__"} + BoundBy(a); var f := Analyze(a, START, names);
      f.found == {} && FoundIn(func, f.after) == {} && Binding(func, f.after) == {Unknown}
    ensures Passes(Production, [a, CallOf(func)])
  {
    var program, names := [a, CallOf(func)], {"__import__"} + BoundBy(a);
    TwoBound(a, CallOf(func));
    assert NamesOf(program) == names;
    TwoStatements(a, CallOf(func), START, names);
    NothingFound(func, Analyze(a, START, names).after);
    hide Forbidden;
  }

  lemma NothingFound(func: Expr, s: State)
    requires Binding(func, s) == {Unknown} && FoundIn(func, s) == {}
    ensures FoundIn(CallOf(func).expr, s) == {}
  {
    var e := CallOf(func).expr;
    assert e.args[1..] == [] && FoundIn(e.args[0], s) == {};
    assert FoundInAll(e.args, s) == {} && FoundInKeywords(e.keywords, s) == {};
    assert FoundHere(e, s) == {};
    hide FoundHere, FoundInAll, FoundInKeywords;
  }

  /** The same after `import importlib as m`. */
  lemma ModulePasses(m: string, func: Expr)
    requires FoundIn(func, START[m := {Importlib}]) == {} && Binding(func, START[m := {Importlib}]) == {Unknown}
    ensures Passes(Production, [ImportAs(m), CallOf(func)])
  {
    var alias := Alias("importlib", "importlib", Some(m));
    assert ImportAs(m).aliases == [alias] && alias in ImportAs(m).aliases;
    ImportBinds(m, START);
    assert ImportedBy(ImportAs(m)) == {"importlib"};
    NothingForbidden();
    CallPasses(ImportAs(m), func);
  }

  lemma NothingForbidden()
    ensures !Forbidden(Production, "importlib")
  {
    var root := "tradingagents" + ".";
    assert "importlib"[0] == 'i' && root[0] == 't';
  }

  lemma ImportBinds(m: string, s: State)
    ensures AfterImports(ImportAs(m).aliases, s) == s[m := {Importlib}]
  {
    assert ImportAs(m).aliases[1..] == [];
  }

  lemma StarPasses(star: Alias)
    requires star == Alias("*", "*", None)
    ensures Passes(Production, [ImportFrom(Some("importlib"), 0, [star]), CallOf(Name("import_module"))])
  {
    var a := ImportFrom(Some("importlib"), 0, [star]);
    assert [star][1..] == [] && star in [star];
    assert AfterMembers(Some("importlib"), 0, [star], START) == START["*" := {Unknown}];
    assert forall x | x in [star] :: BoundName(x, true) == "*";
    assert BoundBy(a) == {"*"};
    NothingForbidden();
    CallPasses(a, Name("import_module"));
  }

  lemma DisplayFinds(m: string, s: State)
    ensures var func := Attribute(Composite([Composite([Name(m)]), Number(0)]), "import_module");
      FoundIn(func, s) == {} && Binding(func, s) == {Unknown}
  {
    var display := Composite([Name(m)]);
    assert [Name(m)][1..] == [] && [display, Number(0)][1..] == [Number(0)] && [Number(0)][1..] == [];
    assert FoundInAll([Name(m)], s) == {};
    assert FoundInAll([Number(0)], s) == {};
    assert FoundInAll([display, Number(0)], s) == {};
    AttributeBinding(Composite([display, Number(0)]), "import_module", s, Unknown);
  }

  /** A run of a first statement, and the call after it. */
  lemma CallMissed(a: Stmt, func: Expr, env: Env, choices: seq<Choice>, middle: seq<Choice>, rest: seq<Choice>)
    requires Passes(Production, [a, CallOf(func)])
    requires var r := Exec(a, STARTING, choices); r.outcome == Finished && r.env == env && r.rest == middle
    requires var f := Eval(func, env, middle); !f.halted && IsLoader(f.value.entity) && f.loads == [] && f.rest == rest && rest != []
    ensures Missed([a, CallOf(func)])
  {
    hide Covers, Passes, ExecBlock, Exec, Eval, Forbidden;
    var l := CallRuns(func, env, middle, rest);
    BlockRuns(a, CallOf(func), env, choices, middle);
    ForbiddenRoot();
    StartingIsCovered();
    assert l in ExecBlock([a, CallOf(func)], STARTING, choices).loads;
  }

  lemma ForbiddenRoot()
    ensures Forbidden(Production, "tradingagents")
  {
  }

  lemma CallRuns(func: Expr, env: Env, choices: seq<Choice>, rest: seq<Choice>) returns (l: Load)
    requires var f := Eval(func, env, choices); !f.halted && IsLoader(f.value.entity) && f.loads == [] && f.rest == rest && rest != []
    ensures l.name == "tradingagents" && l in Exec(CallOf(func), env, choices).loads
  {
    var e, f := CallOf(func).expr, Eval(func, env, choices);
    assert e.args[1..] == [];
    assert EvalAll(e.args, env, rest) == EvalResult(false, PLAIN, [], rest);
    l := Dynamic(0, "tradingagents", f.value.entity, f.value.direct);
    assert LoadedName(f.value.entity, e, rest[0].text) == "tradingagents";
    assert Eval(e, env, choices).loads == [l];
  }

  lemma BlockRuns(a: Stmt, b: Stmt, env: Env, choices: seq<Choice>, middle: seq<Choice>)
    requires var r := Exec(a, STARTING, choices); r.outcome == Finished && r.env == env && r.rest == middle
    ensures forall l | l in Exec(b, env, middle).loads :: l in ExecBlock([a, b], STARTING, choices).loads
  {
    hide Exec;
    assert [a, b][1..] == [b] && [b][1..] == [];
    var last := Exec(b, env, middle);
    assert forall l | l in last.loads :: l in ExecBlock([b], env, middle).loads;
  }

  lemma ImportRuns(m: string, env: Env, choices: seq<Choice>)
    requires choices != []
    ensures var r := Exec(ImportAs(m), env, choices);
      r.outcome == Finished && r.env == env[m := Value(ImportlibModule, true)] && r.rest == choices[1..]
  {
    var next := env[m := Value(ImportlibModule, true)];
    assert ImportAs(m).aliases[1..] == [];
    assert BindImports([], next, choices[1..]) == RunResult(Finished, next, [], choices[1..]);
  }

  // ----- The loop with `continue` -----

  lemma SkipContinue(s: State, names: set<string>)
    requires Fits(s, names)
    ensures Analyze(If(Number(1), [Continue], []), s, names) == Flow(s, None, {})
  {
    var c := [Continue];
    assert c[1..] == [];
    assert AnalyzeBlock(c, s, names) == Flow(s, None, {});
    JoinSelf(s);
  }

  lemma Forget(m: string, s: State, names: set<string>)
    requires Fits(s, names) && m in names
    ensures Analyze(Assign([NameTarget(m)], Number(0)), s, names) == Flow(s[m := {Unknown}], None, {})
  {
    var ts := [NameTarget(m)];
    assert ts[1..] == [];
    assert AfterStores(ts, {Unknown}, s) == Flow(s[m := {Unknown}], None, {});
  }

  lemma ThreeStatements(a: Stmt, b: Stmt, c: Stmt, s: State, t: State, u: State, v: State, names: set<string>)
    requires Fits(s, names) && Fits(t, names) && Fits(u, names)
    requires BoundBy(a) <= names && BoundBy(b) <= names && BoundBy(c) <= names
    requires Analyze(a, s, names) == Flow(t, None, {}) && Analyze(b, t, names) == Flow(u, None, {})
    requires Analyze(c, u, names) == Flow(v, None, {})
    ensures Bound([a, b, c]) == BoundBy(a) + BoundBy(b) + BoundBy(c)
    ensures AnalyzeBlock([a, b, c], s, names) == Flow(v, None, {})
  {
    assert [a, b, c][1..] == [b, c] && [b, c][1..] == [c] && [c][1..] == [];
    assert Bound([c]) == BoundBy(c);
    assert Bound([b, c]) == BoundBy(b) + BoundBy(c);
    assert AnalyzeBlock([c], u, names) == Flow(v, None, {});
    assert AnalyzeBlock([b, c], t, names) == Flow(v, None, {});
  }

  lemma ContinueNames(x: string, m: string)
    ensures BoundBy(LoopWithContinue(x, m)) == {x, m} && ImportedBy(LoopWithContinue(x, m)) == {"importlib"}
  {
    var w := LoopWithContinue(x, m);
    var a, b, c := w.body[0], w.body[1], w.body[2];
    assert w.body[1..] == [b, c];
    TwoBound(b, c);
    var k := [Continue];
    assert k[1..] == [] && b == If(Number(1), k, []);
    assert BoundBy(b) == {} && ImportedBy(b) == {};
    assert c.targets == [NameTarget(m)] && BoundBy(c) == {m} && ImportedBy(c) == {};
    var alias := a.aliases[0];
    assert a.aliases == [alias] && alias in a.aliases && BoundName(alias, false) == m;
    assert forall y | y in a.aliases :: y == alias;
    assert BoundBy(a) == {m} && ImportedBy(a) == {"importlib"};
    assert Bound(w.body) == {m} && Imported(w.body) == {"importlib"};
    assert Written([w.target]) == {x} by { assert w.target in [w.target]; }
    assert Bound(w.orelse) == {} && Imported(w.orelse) == {};
  }

  lemma ContinueBody(x: string, m: string, s: State, names: set<string>)
    requires BoundBy(LoopWithContinue(x, m)) <= names && Fits(s, names)
    ensures Round(LoopWithContinue(x, m), s, names) == Flow(s[x := {Unknown}][m := {Unknown}], None, {})
  {
    ContinueNames(x, m);
    var w, i := LoopWithContinue(x, m), s[x := {Unknown}];
    assert [w.target][1..] == [];
    assert AfterStores([w.target], {Unknown}, s) == Flow(i, None, {});
    assert EnterBody(w, s, names) == Flow(i, None, {});
    var t := i[m := {Importlib}];
    ImportBinds(m, i);
    SkipContinue(t, names);
    Forget(m, t, names);
    assert t[m := {Unknown}] == i[m := {Unknown}];
    ThreeStatements(w.body[0], w.body[1], w.body[2], i, t, t, i[m := {Unknown}], names);
    assert w.body == [w.body[0], w.body[1], w.body[2]];
  }

  lemma JoinSelf(s: State)
    ensures Join(s, s) == s
  {
    var j := Join(s, s);
    assert forall id | id in s :: j[id] == s[id] + s[id] == s[id];
  }

  /** Forgetting names the state does not know changes nothing but its domain. */
  lemma HeadSettles(s: State, x: string, m: string)
    requires x !in s && m !in s
    ensures var t := s[x := {Unknown}][m := {Unknown}]; NextHead(s, s, t) == t && NextHead(s, t, t) == t
  {
    var t := s[x := {Unknown}][m := {Unknown}];
    JoinSelf(s);
    var j := Join(s, t);
    assert j.Keys == t.Keys;
    assert forall id | id in s :: t[id] == s[id] && j[id] == s[id] + s[id] == s[id];
    assert j[m] == {Unknown} + {Unknown} == t[m] && j[x] == {Unknown} + {Unknown} == t[x];
    assert j == t;
    JoinSelf(t);
  }

  /** A loop whose head settles after one more round. */
  lemma SecondRound(w: Stmt, s: State, t: State, names: set<string>)
    requires IsLoop(w) && BoundBy(w) <= names && Fits(s, names) && Fits(t, names)
    requires Round(w, s, names) == Flow(t, None, {}) && Round(w, t, names) == Flow(t, None, {})
    requires NextHead(s, s, t) == t && NextHead(s, t, t) == t
    ensures LoopFlow(w, s, s, names) == Flow(t, None, {})
  {
    assert LoopFlow(w, s, t, names) == Flow(t, None, {});
  }

  lemma ContinueLoop(x: string, m: string, names: set<string>)
    requires x != m && x != "__import__" && m != "__import__" && BoundBy(LoopWithContinue(x, m)) <= names && Fits(START, names)
    ensures Analyze(LoopWithContinue(x, m), START, names) == Flow(START[x := {Unknown}][m := {Unknown}], None, {})
  {
    ContinueNames(x, m);
    var w := LoopWithContinue(x, m);
    var t := START[x := {Unknown}][m := {Unknown}];
    ContinueBody(x, m, START, names);
    ContinueBody(x, m, t, names);
    assert t[x := {Unknown}][m := {Unknown}] == t;
    HeadSettles(START, x, m);
    SecondRound(w, START, t, names);
    ForLoopIs(w, START, t, names);
  }

  /** A `for` over a list of one number, without an else block, is as its rounds. */
  lemma ForLoopIs(w: Stmt, s: State, t: State, names: set<string>)
    requires w.For? && w.iter == Composite([Number(1)]) && w.orelse == []
    requires BoundBy(w) <= names && Fits(s, names) && LoopFlow(w, s, s, names) == Flow(t, None, {})
    ensures Analyze(w, s, names) == Flow(t, None, {})
  {
    hide LoopFlow;
    assert AnalyzeBlock(w.orelse, t, names) == Flow(t, None, {});
    assert [Number(1)][1..] == [];
    assert FoundInAll([Number(1)], s) == {};
    assert FoundIn(w.iter, s) == {};
  }

  lemma ContinuePasses(x: string, m: string)
    requires x != m && x != "__import__" && m != "__import__"
    ensures Passes(Production, [LoopWithContinue(x, m), CallOf(Attribute(Name(m), "import_module"))])
  {
    ContinueNames(x, m);
    NothingForbidden();
    var names := {"__import__"} + BoundBy(LoopWithContinue(x, m));
    ContinueLoop(x, m, names);
    var s := START[x := {Unknown}][m := {Unknown}];
    AttributeBinding(Name(m), "import_module", s, Unknown);
    CallPasses(LoopWithContinue(x, m), Attribute(Name(m), "import_module"));
  }

  /** The one round of the loop, which ends with `continue`. */
  lemma ContinueRound(x: string, m: string, env: Env, c: Choice, rest: seq<Choice>)
    requires c.bit
    ensures var r := ExecBlock(LoopWithContinue(x, m).body, env, [c, c] + rest);
      r.outcome == Continued && r.env == env[m := Value(ImportlibModule, true)] && r.rest == rest
  {
    var b, next := LoopWithContinue(x, m).body, env[m := Value(ImportlibModule, true)];
    var k := [Continue];
    ImportRuns(m, env, [c, c] + rest);
    assert ([c, c] + rest)[1..] == [c] + rest && ([c] + rest)[1..] == rest;
    assert ExecBlock(k, next, rest) == RunResult(Continued, next, [], rest);
    assert Exec(If(Number(1), k, []), next, [c] + rest) == RunResult(Continued, next, [], rest);
    assert b[1..][0] == If(Number(1), k, []);
    assert ExecBlock(b[1..], next, [c] + rest) == RunResult(Continued, next, [], rest);
  }

  lemma ContinueRun(x: string, m: string, c: Choice, no: Choice)
    requires c == Choice(true, "", Plain, map[]) && no == Choice(false, "", Plain, map[])
    ensures var r := Exec(LoopWithContinue(x, m), STARTING, [c, c, c, c, no, c, c]);
      r.outcome == Finished && r.env == STARTING[x := Value(Plain, false)][m := Value(ImportlibModule, true)] && r.rest == [c, c]
  {
    var w, inside := LoopWithContinue(x, m), STARTING[x := Value(Plain, false)];
    var env := inside[m := Value(ImportlibModule, true)];
    var c7, c6, c5, c3, c2 := [c, c, c, c, no, c, c], [c, c, c, no, c, c], [c, c, no, c, c], [no, c, c], [c, c];
    assert c7[1..] == c6 && c6[1..] == c5 && c5 == [c, c] + c3 && c3[1..] == c2;
    IterRuns(STARTING, c7);
    TargetRuns(x, STARTING, c5);
    ContinueRound(x, m, inside, c, c3);
    LoopEnds(w, env, c3);
    LoopGoesOn(w, STARTING, c6, inside, env, c5, c3);
  }

  lemma IterRuns(env: Env, choices: seq<Choice>)
    requires choices != [] && choices[0].entity == Plain
    ensures Eval(Composite([Number(1)]), env, choices) == EvalResult(false, Value(Plain, false), [], choices[1..])
  {
    assert [Number(1)][1..] == [];
    assert EvalAll([Number(1)], env, choices) == EvalResult(false, PLAIN, [], choices);
  }

  lemma TargetRuns(x: string, env: Env, choices: seq<Choice>)
    ensures Store([NameTarget(x)], Value(Plain, false), env, choices) == RunResult(Finished, env[x := Value(Plain, false)], [], choices)
  {
    assert [NameTarget(x)][1..] == [];
  }

  lemma LoopEnds(w: Stmt, env: Env, choices: seq<Choice>)
    requires w.For? && w.orelse == [] && choices != [] && !choices[0].bit
    ensures ExecFor(w, env, choices) == RunResult(Finished, env, [], choices[1..])
  {
  }

  lemma LoopGoesOn(w: Stmt, env: Env, choices: seq<Choice>, inside: Env, after: Env, middle: seq<Choice>, rest: seq<Choice>)
    requires w.For? && choices != [] && choices[0].bit && choices[1..] == middle && |rest| < |choices|
    requires Store([w.target], Value(choices[0].entity, false), env, middle) == RunResult(Finished, inside, [], middle)
    requires var b := ExecBlock(w.body, inside, middle); b.outcome == Continued && b.env == after && b.rest == rest
    ensures var r, n := ExecFor(w, env, choices), ExecFor(w, after, rest);
      r.outcome == n.outcome && r.env == n.env && r.rest == n.rest
  {
  }
}

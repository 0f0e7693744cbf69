/**
  The Python fragment the dynamic-import analyser is proved for, and what running it does.

  A run is driven by a finite list of choices.  Each test, each loop round and each value
  the text does not determine consumes one, and a run that has none left halts.  So the
  runs of a program are all finite prefixes of all its executions, infinite ones included.
  What the names of the two loader modules mean is Python's, not the analyser's.
 */
module ImportLanguage {
  import opened Options

  /** The objects a run can tell apart: the two modules, the three functions that load a module by name, and all others. */
  datatype Object = ImportlibModule | BuiltinsModule | ImportModuleFunction | BuiltinImport | ImportlibImport | Plain

  /**
    A value, and whether names, import statements, the attributes of the two modules and
    conditional expressions alone led to it.  Any other value may be any object.
   */
  datatype Value = Value(entity: Object, direct: bool)

  datatype Expr =
    | Name(id: string)
    | Attribute(owner: Expr, attr: string)
    | IfExp(test: Expr, body: Expr, orelse: Expr)
    | BoolOr(left: Expr, right: Expr)
    | Call(node: nat, func: Expr, args: seq<Expr>, keywords: seq<Keyword>)
    | Text(text: string)
    | Number(number: int)
    | Composite(parts: seq<Expr>)  // operators, displays, subscripts: the value is opaque

  datatype Keyword = Keyword(arg: string, value: Expr)

  datatype Target = NameTarget(id: string) | ExprTarget(place: Expr)

  /** `import a.b as c`: the dotted name, its first component, and the optional `as` name. */
  datatype Alias = Alias(dotted: string, first: string, asname: Option<string>)

  datatype Stmt =
    | Import(aliases: seq<Alias>)
    | ImportFrom(origin: Option<string>, level: nat, names: seq<Alias>)
    | Assign(targets: seq<Target>, value: Expr)
    | ExprStmt(expr: Expr)
    | If(test: Expr, body: seq<Stmt>, orelse: seq<Stmt>)
    | For(target: Target, iter: Expr, body: seq<Stmt>, orelse: seq<Stmt>)
    | While(test: Expr, body: seq<Stmt>, orelse: seq<Stmt>)
    | Break
    | Continue

  // ----- Imports performed while running -----

  /** One import a run performs: by a loader call at a node, or by an import statement. */
  datatype Load = Dynamic(node: nat, name: string, loader: Object, direct: bool) | Static(name: string)

  /**
    What the text leaves open at one step: `bit` answers a test, `text` is the value of a
    string, `entity` that of an expression, `bound` what a star import binds.
   */
  datatype Choice = Choice(bit: bool, text: string, entity: Object, bound: map<string, Object>)

  predicate IsLoader(o: Object) { o in {ImportModuleFunction, BuiltinImport, ImportlibImport} }

  /** The attributes of the two modules that load; what any other attribute holds is open. */
  function LoaderAttribute(owner: Object, attr: string): Option<Object> {
    if owner == ImportlibModule && attr == "import_module" then Some(ImportModuleFunction)
    else if owner == ImportlibModule && attr == "__import__" then Some(ImportlibImport)
    else if owner == BuiltinsModule && attr == "__import__" then Some(BuiltinImport)
    else None
  }

  /** The positional argument at `index`, or the keyword argument with this name. */
  function Argument(call: Expr, index: nat, keyword: string): Option<Expr>
    requires call.Call?
  {
    if |call.args| > index then Some(call.args[index])
    else FindKeyword(call.keywords, keyword)
  }

  function FindKeyword(keywords: seq<Keyword>, name: string): Option<Expr> {
    if keywords == [] then None
    else if keywords[0].arg == name then Some(keywords[0].value)
    else FindKeyword(keywords[1..], name)
  }

  // ----- Relative names, as importlib.util.resolve_name -----

  function LeadingDots(name: string): (n: nat)
    ensures n <= |name|
  {
    if name != "" && name[0] == '.' then 1 + LeadingDots(name[1..]) else 0
  }

  /** The part of a dotted name before its last dot. */
  function DropLast(package: string): Option<string>
    decreases |package|
  {
    if package == "" then None
    else if package[|package| - 1] == '.' then Some(package[..|package| - 1])
    else DropLast(package[..|package| - 1])
  }

  function DropMany(package: string, count: nat): Option<string>
    decreases count
  {
    if count == 0 then Some(package)
    else match DropLast(package)
      case None => None
      case Some(shorter) => DropMany(shorter, count - 1)
  }

  function ResolveName(name: string, package: string): Option<string> {
    var level := LeadingDots(name);
    if level == 0 then Some(name)
    else if package == "" then None
    else match DropMany(package, level - 1)
      case None => None
      case Some(base) => Some(if name[level..] == "" then base else base + "." + name[level..])
  }

  /** The module a loader call imports; `text` stands for whatever the text leaves open. */
  function LoadedName(loader: Object, call: Expr, text: string): string
    requires call.Call?
  {
    match Argument(call, 0, "name")
    case Some(Text(name)) =>
      if loader == ImportModuleFunction && name != "" && name[0] == '.' then
        match Argument(call, 1, "package")
        case Some(Text(package)) =>
          (match ResolveName(name, package) case Some(absolute) => absolute case None => text)
        case _ => text
      else if loader != ImportModuleFunction then
        match Argument(call, 4, "level")
        case None => name
        case Some(Number(level)) => if level == 0 then name else text
        case Some(_) => text
      else name
    case _ => text
  }

  // ----- Running -----

  type Env = map<string, Value>

  const PLAIN := Value(Plain, true)

  datatype EvalResult =
    EvalResult(halted: bool, value: Value, loads: seq<Load>, rest: seq<Choice>)

  datatype Outcome = Finished | Broke | Continued | Halted

  datatype RunResult =
    RunResult(outcome: Outcome, env: Env, loads: seq<Load>, rest: seq<Choice>)

  /** A value the text does not determine. */
  function Open(loads: seq<Load>, choices: seq<Choice>): (r: EvalResult)
    ensures |r.rest| <= |choices|
  {
    if choices == [] then EvalResult(true, PLAIN, loads, choices)
    else EvalResult(false, Value(choices[0].entity, false), loads, choices[1..])
  }

  function Eval(e: Expr, env: Env, choices: seq<Choice>): (r: EvalResult)
    ensures |r.rest| <= |choices|
    decreases e, 1
  {
    match e
    case Name(id) =>
      if id in env then EvalResult(false, env[id], [], choices)
      else EvalResult(true, PLAIN, [], choices)
    case Attribute(owner, attr) =>
      var o := Eval(owner, env, choices);
      if o.halted then o else Read(o, attr)
    case IfExp(test, body, orelse) =>
      var t := Eval(test, env, choices);
      if t.halted || t.rest == [] then EvalResult(true, PLAIN, t.loads, t.rest)
      else
        var b := Eval(if t.rest[0].bit then body else orelse, env, t.rest[1..]);
        EvalResult(b.halted, b.value, t.loads + b.loads, b.rest)
    case BoolOr(left, right) =>
      var l := Eval(left, env, choices);
      if l.halted || l.rest == [] then EvalResult(true, PLAIN, l.loads, l.rest)
      else if l.rest[0].bit then EvalResult(false, l.value.(direct := false), l.loads, l.rest[1..])
      else
        var r := Eval(right, env, l.rest[1..]);
        EvalResult(r.halted, r.value.(direct := false), l.loads + r.loads, r.rest)
    case Call(node, func, args, keywords) =>
      var f := Eval(func, env, choices);
      if f.halted then f
      else
        var a := EvalAll(args, env, f.rest);
        if a.halted then EvalResult(true, PLAIN, f.loads + a.loads, a.rest)
        else
          var k := EvalKeywords(keywords, env, a.rest);
          var before := f.loads + a.loads + k.loads;
          if k.halted || k.rest == [] then EvalResult(true, PLAIN, before, k.rest)
          else if IsLoader(f.value.entity) then
            var load := Dynamic(node, LoadedName(f.value.entity, e, k.rest[0].text), f.value.entity, f.value.direct);
            Open(before + [load], k.rest)
          else Open(before, k.rest)
    case Text(_) => EvalResult(false, PLAIN, [], choices)
    case Number(_) => EvalResult(false, PLAIN, [], choices)
    case Composite(parts) =>
      var p := EvalAll(parts, env, choices);
      if p.halted then p else Open(p.loads, p.rest)
  }

  /** Reads an attribute: what the module defines, unless it was stored to, or whatever it holds. */
  function Read(o: EvalResult, attr: string): (r: EvalResult)
    ensures |r.rest| <= |o.rest|
  {
    var known := LoaderAttribute(o.value.entity, attr);
    if o.rest != [] && o.rest[0].bit && known.Some? then
      EvalResult(false, Value(known.value, o.value.direct), o.loads, o.rest[1..])
    else Open(o.loads, o.rest)
  }

  function EvalAll(es: seq<Expr>, env: Env, choices: seq<Choice>): (r: EvalResult)
    ensures |r.rest| <= |choices|
    decreases es, 0
  {
    if es == [] then EvalResult(false, PLAIN, [], choices)
    else
      var h := Eval(es[0], env, choices);
      if h.halted then h
      else
        var t := EvalAll(es[1..], env, h.rest);
        EvalResult(t.halted, PLAIN, h.loads + t.loads, t.rest)
  }

  function EvalKeywords(ks: seq<Keyword>, env: Env, choices: seq<Choice>): (r: EvalResult)
    ensures |r.rest| <= |choices|
    decreases ks, 0
  {
    if ks == [] then EvalResult(false, PLAIN, [], choices)
    else
      var h := Eval(ks[0].value, env, choices);
      if h.halted then h
      else
        var t := EvalKeywords(ks[1..], env, h.rest);
        EvalResult(t.halted, PLAIN, h.loads + t.loads, t.rest)
  }

  /** The object `import` binds for a module: the two modules are known, any other may be anything. */
  function ModuleObject(name: string, choice: Choice): Value {
    if name == "importlib" then Value(ImportlibModule, true)
    else if name == "builtins" then Value(BuiltinsModule, true)
    else Value(choice.entity, false)
  }

  function BoundName(alias: Alias, whole: bool): string {
    match alias.asname
    case Some(name) => name
    case None => if whole then alias.dotted else alias.first
  }

  /** The object `from` binds for a member, by the names the two modules give their loaders. */
  function MemberObject(origin: Option<string>, level: nat, member: string, choice: Choice): Value {
    var owner := if level == 0 && origin == Some("importlib") then ImportlibModule
                 else if level == 0 && origin == Some("builtins") then BuiltinsModule
                 else Plain;
    match LoaderAttribute(owner, member)
    case Some(o) => Value(o, true)
    case None => Value(choice.entity, false)
  }

  function BindImports(aliases: seq<Alias>, env: Env, choices: seq<Choice>): (r: RunResult)
    ensures |r.rest| <= |choices|
    ensures r.outcome in {Finished, Halted}
  {
    if aliases == [] then RunResult(Finished, env, [], choices)
    else if choices == [] then RunResult(Halted, env, [], choices)
    else
      var a := aliases[0];
      var bound := ModuleObject(if a.asname.Some? then a.dotted else a.first, choices[0]);
      var t := BindImports(aliases[1..], env[BoundName(a, false) := bound], choices[1..]);
      t.(loads := [Static(a.dotted)] + t.loads)
  }

  /** What `from origin import *` binds: importlib's public names, or whatever another module makes public. */
  function StarNames(origin: Option<string>, level: nat, choice: Choice): map<string, Object> {
    if level == 0 && origin == Some("importlib") then
      map["__import__" := ImportlibImport, "import_module" := ImportModuleFunction, "invalidate_caches" := Plain, "reload" := Plain]
    else choice.bound
  }

  /** The names a star import binds are not in the text; the star itself is no name. */
  function WithStar(env: Env, bound: map<string, Object>): Env {
    env + map id | id in bound :: Value(bound[id], false)
  }

  function BindMembers(origin: Option<string>, level: nat, names: seq<Alias>, env: Env, choices: seq<Choice>): (r: RunResult)
    ensures |r.rest| <= |choices|
    ensures r.outcome in {Finished, Halted} && r.loads == []
  {
    if names == [] then RunResult(Finished, env, [], choices)
    else if choices == [] then RunResult(Halted, env, [], choices)
    else
      var n := names[0];
      var next := if n.dotted == "*" then WithStar(env[BoundName(n, true) := PLAIN], StarNames(origin, level, choices[0]))
                  else env[BoundName(n, true) := MemberObject(origin, level, n.dotted, choices[0])];
      BindMembers(origin, level, names[1..], next, choices[1..])
  }

  function Store(targets: seq<Target>, value: Value, env: Env, choices: seq<Choice>): (r: RunResult)
    ensures |r.rest| <= |choices|
    ensures r.outcome in {Finished, Halted}
  {
    if targets == [] then RunResult(Finished, env, [], choices)
    else match targets[0]
      case NameTarget(id) => Store(targets[1..], value, env[id := value], choices)
      case ExprTarget(place) =>
        var p := Eval(place, env, choices);
        if p.halted then RunResult(Halted, env, p.loads, p.rest)
        else
          var t := Store(targets[1..], value, env, p.rest);
          t.(loads := p.loads + t.loads)
  }

  function Exec(s: Stmt, env: Env, choices: seq<Choice>): (r: RunResult)
    ensures |r.rest| <= |choices|
    decreases |choices|, s, 1
  {
    match s
    case Import(aliases) => BindImports(aliases, env, choices)
    case ImportFrom(origin, level, names) =>
      var b := BindMembers(origin, level, names, env, choices);
      b.(loads := if level == 0 && origin.Some? then [Static(origin.value)] else [])
    case Assign(targets, value) =>
      var v := Eval(value, env, choices);
      if v.halted then RunResult(Halted, env, v.loads, v.rest)
      else
        var t := Store(targets, v.value, env, v.rest);
        t.(loads := v.loads + t.loads)
    case ExprStmt(e) =>
      var v := Eval(e, env, choices);
      RunResult(if v.halted then Halted else Finished, env, v.loads, v.rest)
    case If(test, body, orelse) =>
      var t := Eval(test, env, choices);
      if t.halted || t.rest == [] then RunResult(Halted, env, t.loads, t.rest)
      else
        var b := ExecBlock(if t.rest[0].bit then body else orelse, env, t.rest[1..]);
        b.(loads := t.loads + b.loads)
    case For(target, iter, body, orelse) =>
      var i := Eval(iter, env, choices);
      if i.halted then RunResult(Halted, env, i.loads, i.rest)
      else
        var l := ExecFor(s, env, i.rest);
        l.(loads := i.loads + l.loads)
    case While(_, _, _) => ExecWhile(s, env, choices)
    case Break => RunResult(Broke, env, [], choices)
    case Continue => RunResult(Continued, env, [], choices)
  }

  function ExecBlock(ss: seq<Stmt>, env: Env, choices: seq<Choice>): (r: RunResult)
    ensures |r.rest| <= |choices|
    decreases |choices|, ss, 0
  {
    if ss == [] then RunResult(Finished, env, [], choices)
    else
      var h := Exec(ss[0], env, choices);
      if h.outcome != Finished then h
      else
        var t := ExecBlock(ss[1..], h.env, h.rest);
        t.(loads := h.loads + t.loads)
  }

  /** The rounds of a `for` whose iterable is already evaluated; items are opaque. */
  function ExecFor(s: Stmt, env: Env, choices: seq<Choice>): (r: RunResult)
    requires s.For?
    ensures |r.rest| <= |choices|
    decreases |choices|, s, 0
  {
    if choices == [] then RunResult(Halted, env, [], choices)
    else if !choices[0].bit then ExecBlock(s.orelse, env, choices[1..])
    else
      var t := Store([s.target], Value(choices[0].entity, false), env, choices[1..]);
      if t.outcome == Halted then t
      else
        var b := ExecBlock(s.body, t.env, t.rest);
        var loads := t.loads + b.loads;
        if b.outcome == Broke then RunResult(Finished, b.env, loads, b.rest)
        else if b.outcome == Halted then b.(loads := loads)
        else
          var n := ExecFor(s, b.env, b.rest);
          n.(loads := loads + n.loads)
  }

  function ExecWhile(s: Stmt, env: Env, choices: seq<Choice>): (r: RunResult)
    requires s.While?
    ensures |r.rest| <= |choices|
    decreases |choices|, s, 0
  {
    var t := Eval(s.test, env, choices);
    if t.halted || t.rest == [] then RunResult(Halted, env, t.loads, t.rest)
    else if !t.rest[0].bit then
      var e := ExecBlock(s.orelse, env, t.rest[1..]);
      e.(loads := t.loads + e.loads)
    else
      var b := ExecBlock(s.body, env, t.rest[1..]);
      var loads := t.loads + b.loads;
      if b.outcome == Broke then RunResult(Finished, b.env, loads, b.rest)
      else if b.outcome == Halted then b.(loads := loads)
      else
        var n := ExecWhile(s, b.env, b.rest);
        n.(loads := loads + n.loads)
  }
}

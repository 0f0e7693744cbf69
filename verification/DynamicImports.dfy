/**
  The flow-sensitive analysis of scripts/check_dependency_direction.py as functions on
  abstract states, and the facts about joins and loop heads everything else rests on.
 */
module DynamicImports {
  import opened Options
  import opened ImportLanguage

  /** What the analyser distinguishes about a value.  Unknown is its None. */
  datatype Label = Importlib | Builtins | ImportModule | DunderImport | Unknown

  function AttributeOf(owner: Label, attr: string): Label {
    if owner == Importlib && attr == "import_module" then ImportModule
    else if owner == Builtins && attr == "__import__" then DunderImport
    else Unknown
  }

  /** What an `import` binds a name to. */
  function ImportedObject(alias: Alias): Label {
    var bound := if alias.asname.Some? then alias.dotted else alias.first;
    if bound == "importlib" then Importlib else if bound == "builtins" then Builtins else Unknown
  }

  function ImportedMember(origin: Option<string>, level: nat, member: string): Label {
    if level == 0 && origin == Some("importlib") && member == "import_module" then ImportModule
    else if level == 0 && origin == Some("builtins") && member == "__import__" then DunderImport
    else Unknown
  }

  /** What each name may be bound to.  A name that is absent may be anything unknown. */
  type State = map<string, set<Label>>

  /** A recorded loader call: its node, and the module it names unless unresolved. */
  datatype Found = Found(node: nat, name: Option<string>)

  function Get(s: State, id: string): set<Label> {
    if id in s then s[id] else {Unknown}
  }

  function Join(s: State, t: State): (j: State)
    ensures j.Keys == s.Keys + t.Keys
  {
    map id | id in s.Keys + t.Keys :: Get(s, id) + Get(t, id)
  }

  function JoinBroken(s: Option<State>, t: Option<State>): Option<State> {
    match (s, t)
    case (None, _) => t
    case (_, None) => s
    case (Some(a), Some(b)) => Some(Join(a, b))
  }

  // ----- Expressions -----

  function Binding(e: Expr, s: State): set<Label> {
    match e
    case Name(id) => Get(s, id)
    case Attribute(owner, attr) => set o | o in Binding(owner, s) :: AttributeOf(o, attr)
    case IfExp(_, body, orelse) => Binding(body, s) + Binding(orelse, s)
    case _ => {Unknown}
  }

  /** The module name a call through `loader` is recorded with; None asks for review. */
  function RecordedName(loader: Label, call: Expr): Option<string>
    requires call.Call?
  {
    var target := Argument(call, 0, "name");
    var name := match target case Some(Text(t)) => Some(t) case _ => None;
    if loader == ImportModule && name.Some? && name.value != "" && name.value[0] == '.' then
      match Argument(call, 1, "package")
      case Some(Text(package)) => ResolveName(name.value, package)
      case _ => None
    else if loader == DunderImport then
      match Argument(call, 4, "level")
      case None => name
      case Some(Number(level)) => if level == 0 then name else None
      case Some(_) => None
    else name
  }

  function FoundHere(call: Expr, s: State): set<Found>
    requires call.Call?
  {
    set loader | loader in Binding(call.func, s) && loader in {ImportModule, DunderImport}
      :: Found(call.node, RecordedName(loader, call))
  }

  function FoundIn(e: Expr, s: State): set<Found>
    decreases e, 1
  {
    match e
    case Attribute(owner, _) => FoundIn(owner, s)
    case IfExp(test, body, orelse) => FoundIn(test, s) + FoundIn(body, s) + FoundIn(orelse, s)
    case BoolOr(left, right) => FoundIn(left, s) + FoundIn(right, s)
    case Call(_, func, args, keywords) =>
      FoundIn(func, s) + FoundHere(e, s) + FoundInAll(args, s) + FoundInKeywords(keywords, s)
    case Composite(parts) => FoundInAll(parts, s)
    case _ => {}
  }

  function FoundInAll(es: seq<Expr>, s: State): set<Found>
    decreases es, 0
  {
    if es == [] then {} else FoundIn(es[0], s) + FoundInAll(es[1..], s)
  }

  function FoundInKeywords(ks: seq<Keyword>, s: State): set<Found>
    decreases ks, 0
  {
    if ks == [] then {} else FoundIn(ks[0].value, s) + FoundInKeywords(ks[1..], s)
  }

  // ----- Statements -----

  /** The state after a piece of code, the join of the states at its breaks, its loader calls. */
  datatype Flow = Flow(after: State, broken: Option<State>, found: set<Found>)

  function AfterImports(aliases: seq<Alias>, s: State): State {
    if aliases == [] then s
    else AfterImports(aliases[1..], s[BoundName(aliases[0], false) := {ImportedObject(aliases[0])}])
  }

  function AfterMembers(origin: Option<string>, level: nat, names: seq<Alias>, s: State): State {
    if names == [] then s
    else AfterMembers(origin, level, names[1..],
           s[BoundName(names[0], true) := {ImportedMember(origin, level, names[0].dotted)}])
  }

  function AfterStores(targets: seq<Target>, binding: set<Label>, s: State): Flow {
    if targets == [] then Flow(s, None, {})
    else match targets[0]
      case NameTarget(id) => AfterStores(targets[1..], binding, s[id := binding])
      case ExprTarget(place) =>
        var t := AfterStores(targets[1..], binding, s);
        t.(found := FoundIn(place, s) + t.found)
  }

  function Written(targets: seq<Target>): set<string> {
    set t | t in targets && t.NameTarget? :: t.id
  }

  /** The names a block may bind. */
  function Bound(ss: seq<Stmt>): set<string>
    decreases ss, 0
  {
    if ss == [] then {} else BoundBy(ss[0]) + Bound(ss[1..])
  }

  function BoundBy(s: Stmt): set<string>
    decreases s, 1
  {
    match s
    case Import(aliases) => set a | a in aliases :: BoundName(a, false)
    case ImportFrom(_, _, names) => set a | a in names :: BoundName(a, true)
    case Assign(targets, _) => Written(targets)
    case If(_, body, orelse) => Bound(body) + Bound(orelse)
    case For(target, _, body, orelse) => Written([target]) + Bound(body) + Bound(orelse)
    case While(_, body, orelse) => Bound(body) + Bound(orelse)
    case _ => {}
  }

  ghost function Pairs(s: State): set<(string, Label)> {
    set id, l | id in s && l in s[id] :: (id, l)
  }

  /** The finite lattice a loop climbs: program names times the five labels. */
  ghost function Lattice(names: set<string>): set<(string, Label)> {
    set id, l | id in names && l in {Importlib, Builtins, ImportModule, DunderImport, Unknown} :: (id, l)
  }

  predicate IsLoop(s: Stmt) { s.For? || s.While? }

  ghost predicate Fits(s: State, names: set<string>) { s.Keys <= names }

  ghost predicate FlowFits(f: Flow, names: set<string>) {
    Fits(f.after, names) && (f.broken.Some? ==> Fits(f.broken.value, names))
  }

  function Analyze(s: Stmt, start: State, ghost names: set<string>): (f: Flow)
    requires Fits(start, names) && BoundBy(s) <= names
    ensures FlowFits(f, names)
    decreases s, 4
  {
    match s
    case Import(aliases) => AfterImportsFits(aliases, start); Flow(AfterImports(aliases, start), None, {})
    case ImportFrom(origin, level, members) =>
      AfterMembersFits(origin, level, members, start);
      Flow(AfterMembers(origin, level, members, start), None, {})
    case Assign(targets, value) =>
      AfterStoresFits(targets, Binding(value, start), start);
      var t := AfterStores(targets, Binding(value, start), start);
      t.(found := FoundIn(value, start) + t.found)
    case ExprStmt(e) => Flow(start, None, FoundIn(e, start))
    case If(test, body, orelse) =>
      var b := AnalyzeBlock(body, start, names);
      var o := AnalyzeBlock(orelse, start, names);
      Flow(Join(b.after, o.after), JoinBroken(b.broken, o.broken),
           FoundIn(test, start) + b.found + o.found)
    case For(_, iter, _, orelse) => Leave(s, FoundIn(iter, start), LoopFlow(s, start, start, names), names)
    case While(_, _, orelse) => Leave(s, {}, LoopFlow(s, start, start, names), names)
    case Break => Flow(start, Some(start), {})
    case Continue => Flow(start, None, {})
  }

  /** From the loop head: through the else block, joined with the breaks of the body. */
  function Leave(s: Stmt, before: set<Found>, l: Flow, ghost names: set<string>): (f: Flow)
    requires IsLoop(s) && FlowFits(l, names) && BoundBy(s) <= names
    ensures FlowFits(f, names)
    decreases s, 3
  {
    var e := AnalyzeBlock(s.orelse, l.after, names);
    Flow(if l.broken.Some? then Join(e.after, l.broken.value) else e.after, e.broken,
         before + l.found + e.found)
  }

  function AnalyzeBlock(ss: seq<Stmt>, start: State, ghost names: set<string>): (f: Flow)
    requires Fits(start, names) && Bound(ss) <= names
    ensures FlowFits(f, names)
    decreases ss, 0
  {
    if ss == [] then Flow(start, None, {})
    else
      var h := Analyze(ss[0], start, names);
      var t := AnalyzeBlock(ss[1..], h.after, names);
      Flow(t.after, JoinBroken(h.broken, t.broken), h.found + t.found)
  }

  /** From the loop head to the start of the body. */
  function EnterBody(loop: Stmt, head: State, ghost names: set<string>): (f: Flow)
    requires IsLoop(loop) && BoundBy(loop) <= names && Fits(head, names)
    ensures Fits(f.after, names)
  {
    if loop.For? then
      AfterStoresFits([loop.target], {Unknown}, head);
      AfterStores([loop.target], {Unknown}, head)
    else Flow(head, None, FoundIn(loop.test, head))
  }

  /** One round: what the body does from this head. */
  function Round(loop: Stmt, head: State, ghost names: set<string>): (f: Flow)
    requires IsLoop(loop) && BoundBy(loop) <= names && Fits(head, names)
    ensures FlowFits(f, names)
    decreases loop, 0
  {
    var e := EnterBody(loop, head, names);
    var b := AnalyzeBlock(loop.body, e.after, names);
    Flow(b.after, b.broken, e.found + b.found)
  }

  /** The head of the next round. */
  function NextHead(entry: State, head: State, exit: State): State {
    Join(Join(entry, head), exit)
  }

  /** Rounds from `head` until it no longer grows.  `after` is the head it stops at. */
  function LoopFlow(loop: Stmt, entry: State, head: State, ghost names: set<string>): (f: Flow)
    requires IsLoop(loop) && BoundBy(loop) <= names && Fits(entry, names) && Fits(head, names)
    ensures FlowFits(f, names)
    decreases loop, 2, Lattice(names) - Pairs(head)
  {
    var r := Round(loop, head, names);
    var next := NextHead(entry, head, r.after);
    if next == head then Flow(head, r.broken, r.found)
    else
      HeadGrows(entry, head, r.after, names);
      var l := LoopFlow(loop, entry, next, names);
      Flow(l.after, JoinBroken(r.broken, l.broken), r.found + l.found)
  }

  // ----- Names stay inside the program, heads grow inside the lattice -----

  lemma AfterImportsFits(aliases: seq<Alias>, s: State)
    ensures AfterImports(aliases, s).Keys <= s.Keys + (set a | a in aliases :: BoundName(a, false))
  {
    if aliases != [] {
      AfterImportsFits(aliases[1..], s[BoundName(aliases[0], false) := {ImportedObject(aliases[0])}]);
    }
  }

  lemma AfterMembersFits(origin: Option<string>, level: nat, members: seq<Alias>, s: State)
    ensures AfterMembers(origin, level, members, s).Keys <= s.Keys + (set a | a in members :: BoundName(a, true))
  {
    if members != [] {
      AfterMembersFits(origin, level, members[1..],
        s[BoundName(members[0], true) := {ImportedMember(origin, level, members[0].dotted)}]);
    }
  }

  lemma AfterStoresFits(targets: seq<Target>, binding: set<Label>, s: State)
    ensures AfterStores(targets, binding, s).after.Keys <= s.Keys + Written(targets)
    ensures AfterStores(targets, binding, s).broken == None
  {
    if targets != [] {
      match targets[0]
      case NameTarget(id) => AfterStoresFits(targets[1..], binding, s[id := binding]);
      case ExprTarget(_) => AfterStoresFits(targets[1..], binding, s);
    }
  }

  /** An unsuccessful round strictly enlarges the head inside the finite lattice. */
  lemma HeadGrows(entry: State, head: State, exit: State, names: set<string>)
    requires Fits(entry, names) && Fits(head, names) && Fits(exit, names)
    requires NextHead(entry, head, exit) != head
    ensures Fits(NextHead(entry, head, exit), names)
    ensures Pairs(head) < Pairs(NextHead(entry, head, exit)) <= Lattice(names)
    ensures Lattice(names) - Pairs(NextHead(entry, head, exit)) < Lattice(names) - Pairs(head)
  {
    var next := NextHead(entry, head, exit);
    var p := NewPair(entry, head, exit);
    forall q | q in Pairs(head) ensures q in Pairs(next) {}
    InLattice(next, names);
    assert p in Lattice(names) - Pairs(head) && p !in Lattice(names) - Pairs(next);
  }

  lemma NewPair(entry: State, head: State, exit: State) returns (p: (string, Label))
    requires NextHead(entry, head, exit) != head
    ensures p in Pairs(NextHead(entry, head, exit)) && p !in Pairs(head)
  {
    var next := NextHead(entry, head, exit);
    assert forall id | id in head :: head[id] <= next[id];
    assert next.Keys == head.Keys && (forall id | id in next :: next[id] == head[id]) ==> next == head;
    var id :| id in next && (id !in head || !(next[id] <= head[id]));
    if id !in head {
      p := (id, Unknown);
    } else {
      var l :| l in next[id] && l !in head[id];
      p := (id, l);
    }
  }

  lemma InLattice(s: State, names: set<string>)
    requires Fits(s, names)
    ensures Pairs(s) <= Lattice(names)
  {
    forall p | p in Pairs(s) ensures p in Lattice(names) {
      match p.1 case Importlib => case Builtins => case ImportModule => case DunderImport => case Unknown =>
    }
  }
}

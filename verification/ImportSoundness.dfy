/**
  The analysis is sound: every run stays inside the computed states, and every import
  statement a run performs, and every loader call it makes through a value that names,
  imports, loader attributes and conditional expressions alone led to, is recorded.
 */
module ImportSoundness {
  import opened Options
  import opened ImportLanguage
  import opened DynamicImports

  function LabelOf(o: Object): Label {
    match o
    case ImportlibModule => Importlib
    case BuiltinsModule => Builtins
    case ImportModuleFunction => ImportModule
    case BuiltinImport => DunderImport
    case ImportlibImport => Unknown
    case Plain => Unknown
  }

  /**
    A direct value is one of the labels.  In a plain run, nothing but a direct value is one of
    the two modules or their loaders, and none is importlib's own `__import__`.
   */
  predicate Fair(v: Value, labels: set<Label>, plain: bool) {
    && (v.direct ==> LabelOf(v.entity) in labels)
    && (plain && v.entity != Plain ==> v.direct && v.entity != ImportlibImport)
  }

  ghost predicate Covers(s: State, env: Env, plain: bool) {
    forall id :: id in env ==> Fair(env[id], Get(s, id), plain)
  }

  /** Everything the text leaves open is neither of the two modules nor a loader. */
  predicate PlainChoices(choices: seq<Choice>) {
    forall c | c in choices :: c.entity == Plain && forall id | id in c.bound :: c.bound[id] == Plain
  }

  /** `s` allows no binding that `t` does not. */
  ghost predicate Below(s: State, t: State) {
    forall id :: Get(s, id) <= Get(t, id)
  }

  ghost predicate BelowBroken(s: Option<State>, t: Option<State>) {
    s.Some? ==> t.Some? && Below(s.value, t.value)
  }

  lemma GetJoin(s: State, t: State, id: string)
    ensures Get(Join(s, t), id) == Get(s, id) + Get(t, id)
  {
  }

  lemma JoinBounds(s: State, t: State)
    ensures Below(s, Join(s, t)) && Below(t, Join(s, t))
  {
    var j := Join(s, t);
    hide Join, Get;
    forall id ensures Get(s, id) <= Get(j, id) && Get(t, id) <= Get(j, id) { GetJoin(s, t, id); }
  }

  lemma JoinIsLeast(s: State, t: State, u: State)
    requires Below(s, u) && Below(t, u)
    ensures Below(Join(s, t), u)
  {
    var j := Join(s, t);
    hide Join, Get;
    forall id ensures Get(j, id) <= Get(u, id) { GetJoin(s, t, id); }
  }

  lemma BelowCovers(s: State, t: State, env: Env, plain: bool)
    requires Below(s, t) && Covers(s, env, plain)
    ensures Covers(t, env, plain)
  {
    hide Get;
    forall id | id in env ensures Fair(env[id], Get(t, id), plain) { assert Get(s, id) <= Get(t, id); }
  }

  // ----- What the text must show -----

  /** No boolean operator, and not importlib's own `__import__`, can lead to this value. */
  predicate Direct(e: Expr, s: State) {
    match e
    case Attribute(owner, attr) => Direct(owner, s) && !(attr == "__import__" && Importlib in Binding(owner, s))
    case IfExp(_, body, orelse) => Direct(body, s) && Direct(orelse, s)
    case BoolOr(_, _) => false
    case _ => true
  }

  /** Every call in an expression has such a callee. */
  predicate CallsDirect(e: Expr, s: State)
    decreases e, 1
  {
    match e
    case Attribute(owner, _) => CallsDirect(owner, s)
    case IfExp(test, body, orelse) => CallsDirect(test, s) && CallsDirect(body, s) && CallsDirect(orelse, s)
    case BoolOr(left, right) => CallsDirect(left, s) && CallsDirect(right, s)
    case Call(_, func, args, keywords) =>
      Direct(func, s) && CallsDirect(func, s) && AllCallsDirect(args, s) && KeywordCallsDirect(keywords, s)
    case Composite(parts) => AllCallsDirect(parts, s)
    case _ => true
  }

  predicate AllCallsDirect(es: seq<Expr>, s: State)
    decreases es, 0
  {
    es == [] || (CallsDirect(es[0], s) && AllCallsDirect(es[1..], s))
  }

  predicate KeywordCallsDirect(ks: seq<Keyword>, s: State)
    decreases ks, 0
  {
    ks == [] || (CallsDirect(ks[0].value, s) && KeywordCallsDirect(ks[1..], s))
  }

  predicate TargetsDirect(targets: seq<Target>, binding: set<Label>, s: State) {
    if targets == [] then true
    else match targets[0]
      case NameTarget(id) => TargetsDirect(targets[1..], binding, s[id := binding])
      case ExprTarget(place) => CallsDirect(place, s) && TargetsDirect(targets[1..], binding, s)
  }

  /** Neither importlib's own `__import__` nor everything importlib makes public is imported. */
  predicate MembersDirect(origin: Option<string>, level: nat, members: seq<Alias>) {
    level == 0 && origin == Some("importlib") ==> forall m | m in members :: m.dotted !in {"__import__", "*"}
  }

  /** The join of the states at the `continue`s of the enclosing loop. */
  function Continuing(s: Stmt, start: State, ghost names: set<string>): (c: Option<State>)
    requires Fits(start, names) && BoundBy(s) <= names
    decreases s, 1
  {
    match s
    case If(_, body, orelse) =>
      JoinBroken(ContinuingBlock(body, start, names), ContinuingBlock(orelse, start, names))
    case For(_, _, _, orelse) => ContinuingBlock(orelse, LoopFlow(s, start, start, names).after, names)
    case While(_, _, orelse) => ContinuingBlock(orelse, LoopFlow(s, start, start, names).after, names)
    case Continue => Some(start)
    case _ => None
  }

  function ContinuingBlock(ss: seq<Stmt>, start: State, ghost names: set<string>): (c: Option<State>)
    requires Fits(start, names) && Bound(ss) <= names
    decreases ss, 0
  {
    if ss == [] then None
    else JoinBroken(Continuing(ss[0], start, names), ContinuingBlock(ss[1..], Analyze(ss[0], start, names).after, names))
  }

  /**
    What soundness asks of a statement analysed from `start`: the head of every loop absorbs
    the states at its `continue`s.  With `plain`, also that no call, no assigned value and no
    import reaches a loader in a way the analysis does not follow.
   */
  ghost predicate StmtInScope(s: Stmt, start: State, names: set<string>, plain: bool)
    requires Fits(start, names) && BoundBy(s) <= names
    decreases s, 2
  {
    match s
    case ImportFrom(origin, level, members) => plain ==> MembersDirect(origin, level, members)
    case Assign(targets, value) =>
      plain ==> CallsDirect(value, start) && Direct(value, start) && TargetsDirect(targets, Binding(value, start), start)
    case ExprStmt(e) => plain ==> CallsDirect(e, start)
    case If(test, body, orelse) =>
      (plain ==> CallsDirect(test, start)) && BlockInScope(body, start, names, plain) && BlockInScope(orelse, start, names, plain)
    case For(_, iter, _, _) =>
      (plain ==> CallsDirect(iter, start)) && LoopInScope(s, LoopFlow(s, start, start, names).after, names, plain)
    case While(_, _, _) => LoopInScope(s, LoopFlow(s, start, start, names).after, names, plain)
    case _ => true
  }

  ghost predicate LoopInScope(loop: Stmt, head: State, names: set<string>, plain: bool)
    requires IsLoop(loop) && Fits(head, names) && BoundBy(loop) <= names
    decreases loop, 1
  {
    var inside := EnterBody(loop, head, names).after;
    && (plain ==> if loop.For? then TargetsDirect([loop.target], {Unknown}, head) else CallsDirect(loop.test, head))
    && BelowBroken(ContinuingBlock(loop.body, inside, names), Some(head))
    && BlockInScope(loop.body, inside, names, plain) && BlockInScope(loop.orelse, head, names, plain)
  }

  ghost predicate BlockInScope(ss: seq<Stmt>, start: State, names: set<string>, plain: bool)
    requires Fits(start, names) && Bound(ss) <= names
    decreases ss, 0
  {
    ss == [] || (StmtInScope(ss[0], start, names, plain) && BlockInScope(ss[1..], Analyze(ss[0], start, names).after, names, plain))
  }

  // ----- What counts as recorded -----

  /** Every module named by an import statement anywhere in the block, as the tree walk yields them. */
  function Imported(ss: seq<Stmt>): set<string>
    decreases ss, 0
  {
    if ss == [] then {} else ImportedBy(ss[0]) + Imported(ss[1..])
  }

  function ImportedBy(s: Stmt): set<string>
    decreases s, 1
  {
    match s
    case Import(aliases) => set a | a in aliases :: a.dotted
    case ImportFrom(origin, level, _) => if level == 0 && origin.Some? then {origin.value} else {}
    case If(_, body, orelse) => Imported(body) + Imported(orelse)
    case For(_, _, body, orelse) => Imported(body) + Imported(orelse)
    case While(_, body, orelse) => Imported(body) + Imported(orelse)
    case _ => {}
  }

  /** An import statement, or a call of a loader the analysis is about through a direct value. */
  predicate Accounted(load: Load) {
    load.Dynamic? ==> load.direct && load.loader in {ImportModuleFunction, BuiltinImport}
  }

  ghost predicate Recorded(load: Load, found: set<Found>, imported: set<string>) {
    match load
    case Dynamic(node, name, _, _) => Found(node, None) in found || Found(node, Some(name)) in found
    case Static(name) => name in imported
  }

  /** Every load that must be recorded is; in a plain run there are no others. */
  ghost predicate AllRecorded(loads: seq<Load>, found: set<Found>, imported: set<string>, plain: bool) {
    forall l | l in loads :: (Accounted(l) ==> Recorded(l, found, imported)) && (plain ==> Accounted(l))
  }

  lemma RecordedMore(loads: seq<Load>, f: set<Found>, g: set<Found>, small: set<string>, large: set<string>, plain: bool)
    requires AllRecorded(loads, f, small, plain) && f <= g && small <= large
    ensures AllRecorded(loads, g, large, plain)
  {
  }

  lemma RecordedBoth(a: seq<Load>, b: seq<Load>, f: set<Found>, imported: set<string>, plain: bool)
    requires AllRecorded(a, f, imported, plain) && AllRecorded(b, f, imported, plain)
    ensures AllRecorded(a + b, f, imported, plain)
  {
    hide Recorded, Accounted;
  }

  // ----- Expressions -----

  lemma NameSound(loader: Object, call: Expr, text: string)
    requires call.Call? && loader in {ImportModuleFunction, BuiltinImport}
    ensures RecordedName(LabelOf(loader), call).Some? ==> RecordedName(LabelOf(loader), call).value == LoadedName(loader, call, text)
  {
  }

  /** What is known of an evaluation in a state that covers the environment. */
  ghost predicate EvalFair(r: EvalResult, e: Expr, s: State, plain: bool) {
    && (!r.halted ==> Fair(r.value, Binding(e, s), plain && Direct(e, s)))
    && AllRecorded(r.loads, FoundIn(e, s), {}, plain) && (plain ==> PlainChoices(r.rest))
  }

  lemma {:induction false} EvalSound(e: Expr, s: State, env: Env, choices: seq<Choice>, plain: bool)
    requires Covers(s, env, plain) && (plain ==> CallsDirect(e, s) && PlainChoices(choices))
    ensures EvalFair(Eval(e, env, choices), e, s, plain)
    decreases e, 1
  {
    match e
    case Name(_) =>
    case Attribute(owner, attr) =>
      EvalSound(owner, s, env, choices, plain);
      ReadSound(Eval(owner, env, choices), owner, attr, s, plain);
    case IfExp(test, body, orelse) =>
      EvalSound(test, s, env, choices, plain);
      var t := Eval(test, env, choices);
      RecordedMore(t.loads, FoundIn(test, s), FoundIn(e, s), {}, {}, plain);
      if !t.halted && t.rest != [] {
        var taken := if t.rest[0].bit then body else orelse;
        EvalSound(taken, s, env, t.rest[1..], plain);
        var b := Eval(taken, env, t.rest[1..]);
        RecordedMore(b.loads, FoundIn(taken, s), FoundIn(e, s), {}, {}, plain);
        RecordedBoth(t.loads, b.loads, FoundIn(e, s), {}, plain);
      }
      hide AllRecorded, Covers, CallsDirect;
    case BoolOr(left, right) =>
      EvalSound(left, s, env, choices, plain);
      var l := Eval(left, env, choices);
      RecordedMore(l.loads, FoundIn(left, s), FoundIn(e, s), {}, {}, plain);
      if !l.halted && l.rest != [] {
        EvalSound(right, s, env, l.rest[1..], plain);
        var r := Eval(right, env, l.rest[1..]);
        RecordedMore(r.loads, FoundIn(right, s), FoundIn(e, s), {}, {}, plain);
        RecordedBoth(l.loads, r.loads, FoundIn(e, s), {}, plain);
      }
      hide AllRecorded, Covers, CallsDirect;
    case Call(_, _, _, _) => CallSound(e, s, env, choices, plain);
    case Text(_) =>
    case Number(_) =>
    case Composite(parts) => AllSound(parts, s, env, choices, plain);
  }

  lemma ReadSound(o: EvalResult, owner: Expr, attr: string, s: State, plain: bool)
    requires EvalFair(o, owner, s, plain)
    ensures EvalFair(if o.halted then o else Read(o, attr), Attribute(owner, attr), s, plain)
  {
    hide AllRecorded;
    if !o.halted && o.value.direct { assert AttributeOf(LabelOf(o.value.entity), attr) in Binding(Attribute(owner, attr), s); }
  }

  lemma {:induction false} CallSound(e: Expr, s: State, env: Env, choices: seq<Choice>, plain: bool)
    requires e.Call? && Covers(s, env, plain) && (plain ==> CallsDirect(e, s) && PlainChoices(choices))
    ensures EvalFair(Eval(e, env, choices), e, s, plain)
    decreases e, 0
  {
    var all := FoundIn(e, s);
    EvalSound(e.func, s, env, choices, plain);
    var f := Eval(e.func, env, choices);
    RecordedMore(f.loads, FoundIn(e.func, s), all, {}, {}, plain);
    if !f.halted {
      AllSound(e.args, s, env, f.rest, plain);
      var a := EvalAll(e.args, env, f.rest);
      RecordedMore(a.loads, FoundInAll(e.args, s), all, {}, {}, plain);
      RecordedBoth(f.loads, a.loads, all, {}, plain);
      if !a.halted {
        KeywordsSound(e.keywords, s, env, a.rest, plain);
        var k := EvalKeywords(e.keywords, env, a.rest);
        RecordedMore(k.loads, FoundInKeywords(e.keywords, s), all, {}, {}, plain);
        RecordedBoth(f.loads + a.loads, k.loads, all, {}, plain);
        if !k.halted && k.rest != [] && IsLoader(f.value.entity) {
          LoadSound(e, f.value, s, k.rest[0].text, plain);
          RecordedBoth(f.loads + a.loads + k.loads,
            [Dynamic(e.node, LoadedName(f.value.entity, e, k.rest[0].text), f.value.entity, f.value.direct)], all, {}, plain);
        }
      }
    }
    hide AllRecorded, FoundIn, EvalAll, EvalKeywords, Covers, LoadedName, Direct;
  }

  /** The load a call performs through a loader its function may be bound to. */
  lemma LoadSound(e: Expr, loader: Value, s: State, text: string, plain: bool)
    requires e.Call? && IsLoader(loader.entity) && Fair(loader, Binding(e.func, s), plain)
    ensures AllRecorded([Dynamic(e.node, LoadedName(loader.entity, e, text), loader.entity, loader.direct)], FoundIn(e, s), {}, plain)
  {
    if loader.direct && loader.entity != ImportlibImport {
      NameSound(loader.entity, e, text);
      assert Found(e.node, RecordedName(LabelOf(loader.entity), e)) in FoundHere(e, s);
    }
  }

  lemma {:induction false} AllSound(es: seq<Expr>, s: State, env: Env, choices: seq<Choice>, plain: bool)
    requires Covers(s, env, plain) && (plain ==> AllCallsDirect(es, s) && PlainChoices(choices))
    ensures AllRecorded(EvalAll(es, env, choices).loads, FoundInAll(es, s), {}, plain)
    ensures plain ==> PlainChoices(EvalAll(es, env, choices).rest)
    decreases es, 0
  {
    if es != [] {
      EvalSound(es[0], s, env, choices, plain);
      AllSound(es[1..], s, env, Eval(es[0], env, choices).rest, plain);
    }
  }

  lemma {:induction false} KeywordsSound(ks: seq<Keyword>, s: State, env: Env, choices: seq<Choice>, plain: bool)
    requires Covers(s, env, plain) && (plain ==> KeywordCallsDirect(ks, s) && PlainChoices(choices))
    ensures AllRecorded(EvalKeywords(ks, env, choices).loads, FoundInKeywords(ks, s), {}, plain)
    ensures plain ==> PlainChoices(EvalKeywords(ks, env, choices).rest)
    decreases ks, 0
  {
    if ks != [] {
      EvalSound(ks[0].value, s, env, choices, plain);
      KeywordsSound(ks[1..], s, env, Eval(ks[0].value, env, choices).rest, plain);
    }
  }

  // ----- Straight-line statements -----

  lemma BindSound(id: string, v: Value, labels: set<Label>, s: State, env: Env, plain: bool)
    requires Covers(s, env, plain) && Fair(v, labels, plain)
    ensures Covers(s[id := labels], env[id := v], plain)
  {
    hide Fair;
    var t, u := s[id := labels], env[id := v];
    forall x | x in u ensures Fair(u[x], Get(t, x), plain) { if x != id { assert Get(t, x) == Get(s, x); } }
  }

  lemma {:induction false} ImportsSound(aliases: seq<Alias>, s: State, env: Env, choices: seq<Choice>, plain: bool)
    requires Covers(s, env, plain) && (plain ==> PlainChoices(choices))
    ensures var r := BindImports(aliases, env, choices);
      && (r.outcome == Finished ==> Covers(AfterImports(aliases, s), r.env, plain))
      && AllRecorded(r.loads, {}, set a | a in aliases :: a.dotted, plain) && (plain ==> PlainChoices(r.rest))
    decreases |aliases|
  {
    if aliases != [] && choices != [] {
      var a := aliases[0];
      var id, v := BoundName(a, false), ModuleObject(if a.asname.Some? then a.dotted else a.first, choices[0]);
      BindSound(id, v, {ImportedObject(a)}, s, env, plain);
      ImportsSound(aliases[1..], s[id := {ImportedObject(a)}], env[id := v], choices[1..], plain);
      assert forall x | x in aliases[1..] :: x in aliases;
      assert a in aliases;
    }
  }

  lemma StarSound(s: State, env: Env, bound: map<string, Object>, plain: bool)
    requires Covers(s, env, plain) && (plain ==> forall id | id in bound :: bound[id] == Plain)
    ensures Covers(s, WithStar(env, bound), plain)
  {
    hide Get;
  }

  lemma {:induction false} MembersSound(origin: Option<string>, level: nat, members: seq<Alias>, s: State, env: Env, choices: seq<Choice>, plain: bool)
    requires Covers(s, env, plain) && (plain ==> PlainChoices(choices) && MembersDirect(origin, level, members))
    ensures var r := BindMembers(origin, level, members, env, choices);
      && (r.outcome == Finished ==> Covers(AfterMembers(origin, level, members, s), r.env, plain)) && (plain ==> PlainChoices(r.rest))
    decreases |members|
  {
    if members != [] && choices != [] {
      var m := members[0];
      var id, labels := BoundName(m, true), {ImportedMember(origin, level, m.dotted)};
      var v := if m.dotted == "*" then PLAIN else MemberObject(origin, level, m.dotted, choices[0]);
      assert m in members;
      assert Fair(v, labels, plain);
      BindSound(id, v, labels, s, env, plain);
      var next := if m.dotted == "*" then WithStar(env[id := v], StarNames(origin, level, choices[0])) else env[id := v];
      if m.dotted == "*" { StarSound(s[id := labels], env[id := v], StarNames(origin, level, choices[0]), plain); }
      hide Covers, MemberObject, ImportedMember, StarNames;
      MembersSound(origin, level, members[1..], s[id := labels], next, choices[1..], plain);
    }
  }

  lemma {:induction false} StoreSound(targets: seq<Target>, binding: set<Label>, value: Value, s: State, env: Env, choices: seq<Choice>, plain: bool)
    requires Covers(s, env, plain) && Fair(value, binding, plain)
    requires plain ==> TargetsDirect(targets, binding, s) && PlainChoices(choices)
    ensures var r, f := Store(targets, value, env, choices), AfterStores(targets, binding, s);
      && (r.outcome == Finished ==> Covers(f.after, r.env, plain)) && AllRecorded(r.loads, f.found, {}, plain)
      && (plain ==> PlainChoices(r.rest))
    decreases |targets|
  {
    hide Covers, Fair;
    if targets != [] {
      match targets[0]
      case NameTarget(id) =>
        BindSound(id, value, binding, s, env, plain);
        StoreSound(targets[1..], binding, value, s[id := binding], env[id := value], choices, plain);
      case ExprTarget(place) =>
        EvalSound(place, s, env, choices, plain);
        StoreSound(targets[1..], binding, value, s, env, Eval(place, env, choices).rest, plain);
    }
  }

  // ----- Loop heads -----

  /** The head a loop stops at absorbs the entry and the body's exit; nothing seen on the way is lost. */
  lemma {:induction false} LoopHeadAbsorbs(loop: Stmt, entry: State, head: State, names: set<string>)
    requires IsLoop(loop) && BoundBy(loop) <= names && Fits(entry, names) && Fits(head, names)
    ensures var l := LoopFlow(loop, entry, head, names);
            var r := Round(loop, l.after, names);
            && NextHead(entry, l.after, r.after) == l.after
            && Below(head, l.after) && Below(entry, l.after) && Below(r.after, l.after)
            && BelowBroken(r.broken, l.broken) && r.found <= l.found
    decreases Lattice(names) - Pairs(head)
  {
    var r := Round(loop, head, names);
    var next := NextHead(entry, head, r.after);
    NextHeadBounds(entry, head, r.after);
    if next != head {
      HeadGrows(entry, head, r.after, names);
      LoopHeadAbsorbs(loop, entry, next, names);
      var l := LoopFlow(loop, entry, next, names);
      assert LoopFlow(loop, entry, head, names) == Flow(l.after, JoinBroken(r.broken, l.broken), r.found + l.found);
      var last := Round(loop, l.after, names);
      JoinBrokenBounds(r.broken, l.broken);
      hide LoopFlow, Round, NextHead, JoinBroken, Get;
      BelowTransitive(head, next, l.after);
      BelowBrokenTransitive(last.broken, l.broken, JoinBroken(r.broken, l.broken));
    }
  }

  lemma NextHeadBounds(entry: State, head: State, exit: State)
    ensures var next := NextHead(entry, head, exit); Below(entry, next) && Below(head, next) && Below(exit, next)
  {
    var j := Join(entry, head);
    JoinBounds(entry, head);
    JoinBounds(j, exit);
    hide Join, Get;
    BelowTransitive(entry, j, Join(j, exit));
    BelowTransitive(head, j, Join(j, exit));
  }

  lemma BelowTransitive(s: State, t: State, u: State)
    requires Below(s, t) && Below(t, u)
    ensures Below(s, u)
  {
    hide Get;
    forall id ensures Get(s, id) <= Get(u, id) {
      assert Get(s, id) <= Get(t, id) <= Get(u, id);
    }
  }

  lemma BelowBrokenTransitive(s: Option<State>, t: Option<State>, u: Option<State>)
    requires BelowBroken(s, t) && BelowBroken(t, u)
    ensures BelowBroken(s, u)
  {
    if s.Some? { BelowTransitive(s.value, t.value, u.value); }
  }

  // ----- Statements -----

  ghost predicate SoundResult(r: RunResult, f: Flow, continuing: Option<State>, imported: set<string>, plain: bool) {
    && (r.outcome == Finished ==> Covers(f.after, r.env, plain))
    && (r.outcome == Broke ==> f.broken.Some? && Covers(f.broken.value, r.env, plain))
    && (r.outcome == Continued ==> continuing.Some? && Covers(continuing.value, r.env, plain))
    && AllRecorded(r.loads, f.found, imported, plain) && (plain ==> PlainChoices(r.rest))
  }

  lemma SoundWeaken(r: RunResult, f: Flow, g: Flow, c: Option<State>, d: Option<State>, small: set<string>, large: set<string>, plain: bool)
    requires SoundResult(r, f, c, small, plain) && small <= large && BelowBroken(c, d)
    requires Below(f.after, g.after) && BelowBroken(f.broken, g.broken) && f.found <= g.found
    ensures SoundResult(r, g, d, large, plain)
  {
    hide Covers, AllRecorded, Below;
    if r.outcome == Finished { BelowCovers(f.after, g.after, r.env, plain); }
    if r.outcome == Broke { BelowCovers(f.broken.value, g.broken.value, r.env, plain); }
    if r.outcome == Continued { BelowCovers(c.value, d.value, r.env, plain); }
    RecordedMore(r.loads, f.found, g.found, small, large, plain);
  }

  /** A run that goes on after some loads. */
  lemma SoundAfter(loads: seq<Load>, r: RunResult, f: Flow, c: Option<State>, imported: set<string>, plain: bool)
    requires SoundResult(r, f, c, imported, plain) && AllRecorded(loads, f.found, imported, plain)
    ensures SoundResult(r.(loads := loads + r.loads), f, c, imported, plain)
  {
    hide Covers, AllRecorded;
    RecordedBoth(loads, r.loads, f.found, imported, plain);
  }

  lemma JoinBrokenBounds(s: Option<State>, t: Option<State>)
    ensures BelowBroken(s, JoinBroken(s, t)) && BelowBroken(t, JoinBroken(s, t))
  {
    if s.Some? && t.Some? { JoinBounds(s.value, t.value); }
  }

  lemma {:induction false} ExecSound(s: Stmt, start: State, env: Env, choices: seq<Choice>, names: set<string>, plain: bool)
    requires Fits(start, names) && BoundBy(s) <= names && StmtInScope(s, start, names, plain) && Covers(start, env, plain)
    requires plain ==> PlainChoices(choices)
    ensures SoundResult(Exec(s, env, choices), Analyze(s, start, names), Continuing(s, start, names), ImportedBy(s), plain)
    decreases |choices|, s, 4
  {
    match s
    case Import(aliases) => ImportsSound(aliases, start, env, choices, plain);
    case ImportFrom(origin, level, members) => MembersSound(origin, level, members, start, env, choices, plain);
    case Assign(_, _) => AssignSound(s, start, env, choices, names, plain);
    case ExprStmt(e) => EvalSound(e, start, env, choices, plain);
    case If(_, _, _) => IfSound(s, start, env, choices, names, plain);
    case For(_, _, _, _) => ForSound(s, start, env, choices, names, plain);
    case While(_, _, _) =>
      LoopHeadAbsorbs(s, start, start, names);
      LoopSound(s, LoopFlow(s, start, start, names), env, choices, names, {}, plain);
    case Break =>
    case Continue =>
  }

  lemma AssignSound(s: Stmt, start: State, env: Env, choices: seq<Choice>, names: set<string>, plain: bool)
    requires s.Assign? && Fits(start, names) && BoundBy(s) <= names && StmtInScope(s, start, names, plain) && Covers(start, env, plain)
    requires plain ==> PlainChoices(choices)
    ensures SoundResult(Exec(s, env, choices), Analyze(s, start, names), None, ImportedBy(s), plain)
  {
    hide AllRecorded, Eval, Store, AfterStores, Binding, FoundIn, Covers, CallsDirect, Direct, TargetsDirect;
    var all := Analyze(s, start, names).found;
    EvalSound(s.value, start, env, choices, plain);
    var v := Eval(s.value, env, choices);
    RecordedMore(v.loads, FoundIn(s.value, start), all, {}, {}, plain);
    if !v.halted {
      StoreSound(s.targets, Binding(s.value, start), v.value, start, env, v.rest, plain);
      var t := Store(s.targets, v.value, env, v.rest);
      RecordedMore(t.loads, AfterStores(s.targets, Binding(s.value, start), start).found, all, {}, {}, plain);
      RecordedBoth(v.loads, t.loads, all, {}, plain);
    }
  }

  lemma {:induction false} ForSound(s: Stmt, start: State, env: Env, choices: seq<Choice>, names: set<string>, plain: bool)
    requires s.For? && Fits(start, names) && BoundBy(s) <= names && StmtInScope(s, start, names, plain) && Covers(start, env, plain)
    requires plain ==> PlainChoices(choices)
    ensures SoundResult(Exec(s, env, choices), Analyze(s, start, names), Continuing(s, start, names), ImportedBy(s), plain)
    decreases |choices|, s, 3
  {
    EvalSound(s.iter, start, env, choices, plain);
    var i := Eval(s.iter, env, choices);
    LoopHeadAbsorbs(s, start, start, names);
    var l := LoopFlow(s, start, start, names);
    var f := Leave(s, FoundIn(s.iter, start), l, names);
    RecordedMore(i.loads, FoundIn(s.iter, start), f.found, {}, ImportedBy(s), plain);
    if !i.halted {
      LoopSound(s, l, env, i.rest, names, FoundIn(s.iter, start), plain);
      SoundAfter(i.loads, ExecFor(s, env, i.rest), f, Continuing(s, start, names), ImportedBy(s), plain);
    }
    hide AllRecorded, Eval, ExecFor, LoopFlow, FoundIn, Covers, ImportedBy, LoopInScope, CallsDirect, ContinuingBlock, EvalFair;
    EvalRest(i, s.iter, start, plain);
  }

  lemma EvalRest(r: EvalResult, e: Expr, s: State, plain: bool)
    requires EvalFair(r, e, s, plain)
    ensures plain ==> PlainChoices(r.rest)
    ensures AllRecorded(r.loads, FoundIn(e, s), {}, plain)
  {
  }

  lemma {:induction false} IfSound(s: Stmt, start: State, env: Env, choices: seq<Choice>, names: set<string>, plain: bool)
    requires s.If? && Fits(start, names) && BoundBy(s) <= names && StmtInScope(s, start, names, plain) && Covers(start, env, plain)
    requires plain ==> PlainChoices(choices)
    ensures SoundResult(Exec(s, env, choices), Analyze(s, start, names), Continuing(s, start, names), ImportedBy(s), plain)
    decreases |choices|, s, 2
  {
    hide AllRecorded, Eval, FoundIn, Covers, Join, JoinBroken, AnalyzeBlock, ExecBlock, BlockInScope, CallsDirect, ContinuingBlock;
    EvalSound(s.test, start, env, choices, plain);
    var t := Eval(s.test, env, choices);
    var f := Analyze(s, start, names);
    RecordedMore(t.loads, FoundIn(s.test, start), f.found, {}, ImportedBy(s), plain);
    if !t.halted && t.rest != [] {
      var b, o := AnalyzeBlock(s.body, start, names), AnalyzeBlock(s.orelse, start, names);
      JoinBounds(b.after, o.after);
      JoinBrokenBounds(b.broken, o.broken);
      JoinBrokenBounds(ContinuingBlock(s.body, start, names), ContinuingBlock(s.orelse, start, names));
      var taken := if t.rest[0].bit then s.body else s.orelse;
      BlockSound(taken, start, env, t.rest[1..], names, plain);
      var r := ExecBlock(taken, env, t.rest[1..]);
      SoundWeaken(r, AnalyzeBlock(taken, start, names), f, ContinuingBlock(taken, start, names), Continuing(s, start, names),
        Imported(taken), ImportedBy(s), plain);
      SoundAfter(t.loads, r, f, Continuing(s, start, names), ImportedBy(s), plain);
    }
  }

  lemma {:induction false} BlockSound(ss: seq<Stmt>, start: State, env: Env, choices: seq<Choice>, names: set<string>, plain: bool)
    requires Fits(start, names) && Bound(ss) <= names && BlockInScope(ss, start, names, plain) && Covers(start, env, plain)
    requires plain ==> PlainChoices(choices)
    ensures SoundResult(ExecBlock(ss, env, choices), AnalyzeBlock(ss, start, names), ContinuingBlock(ss, start, names), Imported(ss), plain)
    decreases |choices|, ss, 0
  {
    if ss != [] {
      ExecSound(ss[0], start, env, choices, names, plain);
      var h, f, c := Exec(ss[0], env, choices), Analyze(ss[0], start, names), Continuing(ss[0], start, names);
      var g, d := AnalyzeBlock(ss[1..], f.after, names), ContinuingBlock(ss[1..], f.after, names);
      var all := AnalyzeBlock(ss, start, names);
      JoinBrokenBounds(f.broken, g.broken);
      JoinBrokenBounds(c, d);
      if h.outcome == Finished {
        BlockSound(ss[1..], f.after, h.env, h.rest, names, plain);
        var t := ExecBlock(ss[1..], h.env, h.rest);
        SameBelow(g.after);
        SoundWeaken(t, g, all, d, ContinuingBlock(ss, start, names), Imported(ss[1..]), Imported(ss), plain);
        RecordedMore(h.loads, f.found, all.found, ImportedBy(ss[0]), Imported(ss), plain);
        SoundAfter(h.loads, t, all, ContinuingBlock(ss, start, names), Imported(ss), plain);
      } else {
        RecordedMore(h.loads, f.found, all.found, ImportedBy(ss[0]), Imported(ss), plain);
        StoppedSound(h, f, all, c, ContinuingBlock(ss, start, names), ImportedBy(ss[0]), Imported(ss), plain);
      }
    }
    hide AllRecorded, Covers, JoinBroken, Exec, Analyze, StmtInScope, Continuing, ImportedBy;
  }

  lemma SameBelow(s: State)
    ensures Below(s, s)
  {
  }

  /** A run that does not reach the end of a block. */
  lemma StoppedSound(r: RunResult, f: Flow, g: Flow, c: Option<State>, d: Option<State>, small: set<string>, large: set<string>, plain: bool)
    requires SoundResult(r, f, c, small, plain) && small <= large && r.outcome != Finished
    requires BelowBroken(f.broken, g.broken) && f.found <= g.found && BelowBroken(c, d)
    ensures SoundResult(r, g, d, large, plain)
  {
    hide Covers, AllRecorded, Below;
    if r.outcome == Broke { BelowCovers(f.broken.value, g.broken.value, r.env, plain); }
    if r.outcome == Continued { BelowCovers(c.value, d.value, r.env, plain); }
    RecordedMore(r.loads, f.found, g.found, small, large, plain);
  }

  /** A flow whose head the loop's own round does not leave. */
  ghost predicate Settled(loop: Stmt, l: Flow, names: set<string>)
    requires IsLoop(loop) && BoundBy(loop) <= names
  {
    && FlowFits(l, names)
    && var r := Round(loop, l.after, names);
       Below(r.after, l.after) && BelowBroken(r.broken, l.broken) && r.found <= l.found
  }

  /** The else block, entered from the head. */
  lemma {:induction false} ElseSound(loop: Stmt, l: Flow, env: Env, choices: seq<Choice>, names: set<string>, before: set<Found>, plain: bool)
    requires IsLoop(loop) && BoundBy(loop) <= names && FlowFits(l, names) && BlockInScope(loop.orelse, l.after, names, plain)
    requires Covers(l.after, env, plain) && (plain ==> PlainChoices(choices))
    ensures SoundResult(ExecBlock(loop.orelse, env, choices), Leave(loop, before, l, names), ContinuingBlock(loop.orelse, l.after, names),
                        ImportedBy(loop), plain)
    decreases |choices|, loop, 0
  {
    BlockSound(loop.orelse, l.after, env, choices, names, plain);
    var e, c := AnalyzeBlock(loop.orelse, l.after, names), ContinuingBlock(loop.orelse, l.after, names);
    if l.broken.Some? { JoinBounds(e.after, l.broken.value); }
    SoundWeaken(ExecBlock(loop.orelse, env, choices), e, Leave(loop, before, l, names), c, c, Imported(loop.orelse), ImportedBy(loop), plain);
  }

  lemma BreakSound(loop: Stmt, l: Flow, env: Env, names: set<string>, before: set<Found>, plain: bool)
    requires IsLoop(loop) && BoundBy(loop) <= names && FlowFits(l, names)
    requires l.broken.Some? && Covers(l.broken.value, env, plain)
    ensures Covers(Leave(loop, before, l, names).after, env, plain)
  {
    var e := AnalyzeBlock(loop.orelse, l.after, names);
    JoinBounds(e.after, l.broken.value);
    BelowCovers(l.broken.value, Join(e.after, l.broken.value), env, plain);
  }

  /** One pass through the body, entered from the head: it breaks, or leaves an environment the head covers. */
  lemma {:induction false} BodySound(loop: Stmt, l: Flow, inside: State, env: Env, choices: seq<Choice>, names: set<string>, plain: bool)
    requires IsLoop(loop) && BoundBy(loop) <= names && Settled(loop, l, names) && LoopInScope(loop, l.after, names, plain)
    requires inside == EnterBody(loop, l.after, names).after && Covers(inside, env, plain) && (plain ==> PlainChoices(choices))
    ensures SoundResult(ExecBlock(loop.body, env, choices), l, Some(l.after), Imported(loop.body), plain)
    decreases |choices|, loop, 0
  {
    BlockSound(loop.body, inside, env, choices, names, plain);
    var c := ContinuingBlock(loop.body, inside, names);
    SoundWeaken(ExecBlock(loop.body, env, choices), AnalyzeBlock(loop.body, inside, names), l, c, Some(l.after),
      Imported(loop.body), Imported(loop.body), plain);
  }

  lemma {:induction false} LoopSound(loop: Stmt, l: Flow, env: Env, choices: seq<Choice>, names: set<string>, before: set<Found>, plain: bool)
    requires IsLoop(loop) && BoundBy(loop) <= names && Settled(loop, l, names) && LoopInScope(loop, l.after, names, plain)
    requires Covers(l.after, env, plain) && (plain ==> PlainChoices(choices))
    ensures SoundResult(Rounds(loop, env, choices), Leave(loop, before, l, names), ContinuingBlock(loop.orelse, l.after, names), ImportedBy(loop), plain)
    decreases |choices|, loop, 2
  {
    if loop.For? {
      ForRoundsSound(loop, l, env, choices, names, before, plain);
    } else {
      WhileRoundsSound(loop, l, env, choices, names, before, plain);
    }
  }

  function Rounds(loop: Stmt, env: Env, choices: seq<Choice>): RunResult
    requires IsLoop(loop)
  {
    if loop.For? then ExecFor(loop, env, choices) else ExecWhile(loop, env, choices)
  }

  lemma {:induction false} ForRoundsSound(loop: Stmt, l: Flow, env: Env, choices: seq<Choice>, names: set<string>, before: set<Found>, plain: bool)
    requires loop.For? && BoundBy(loop) <= names && Settled(loop, l, names) && LoopInScope(loop, l.after, names, plain)
    requires Covers(l.after, env, plain) && (plain ==> PlainChoices(choices))
    ensures SoundResult(ExecFor(loop, env, choices), Leave(loop, before, l, names), ContinuingBlock(loop.orelse, l.after, names), ImportedBy(loop), plain)
    decreases |choices|, loop, 1
  {
    if choices != [] {
      if !choices[0].bit {
        ElseSound(loop, l, env, choices[1..], names, before, plain);
      } else {
        var item := Value(choices[0].entity, false);
        StoreSound([loop.target], {Unknown}, item, l.after, env, choices[1..], plain);
        var t := Store([loop.target], item, env, choices[1..]);
        RoundFound(loop, l, names, before);
        var f := Leave(loop, before, l, names);
        RecordedMore(t.loads, EnterBody(loop, l.after, names).found, f.found, {}, ImportedBy(loop), plain);
        if t.outcome != Halted { NextRoundSound(loop, l, t.loads, t.env, t.rest, names, before, plain); }
      }
    }
    hide AllRecorded, Store, FoundIn, Covers, Settled, EnterBody, Leave, LoopInScope, ContinuingBlock, TargetsDirect;
  }

  lemma {:induction false} WhileRoundsSound(loop: Stmt, l: Flow, env: Env, choices: seq<Choice>, names: set<string>, before: set<Found>, plain: bool)
    requires loop.While? && BoundBy(loop) <= names && Settled(loop, l, names) && LoopInScope(loop, l.after, names, plain)
    requires Covers(l.after, env, plain) && (plain ==> PlainChoices(choices))
    ensures SoundResult(ExecWhile(loop, env, choices), Leave(loop, before, l, names), ContinuingBlock(loop.orelse, l.after, names), ImportedBy(loop), plain)
    decreases |choices|, loop, 1
  {
    EvalSound(loop.test, l.after, env, choices, plain);
    var t := Eval(loop.test, env, choices);
    var f, c := Leave(loop, before, l, names), ContinuingBlock(loop.orelse, l.after, names);
    RoundFound(loop, l, names, before);
    RecordedMore(t.loads, FoundIn(loop.test, l.after), f.found, {}, ImportedBy(loop), plain);
    if !t.halted && t.rest != [] {
      if !t.rest[0].bit {
        ElseSound(loop, l, env, t.rest[1..], names, before, plain);
        SoundAfter(t.loads, ExecBlock(loop.orelse, env, t.rest[1..]), f, c, ImportedBy(loop), plain);
      } else {
        NextRoundSound(loop, l, t.loads, env, t.rest[1..], names, before, plain);
      }
    }
    hide AllRecorded, Eval, FoundIn, Covers, Settled, EnterBody, Leave, LoopInScope, ContinuingBlock, CallsDirect;
  }

  /** What entering and running the body records is part of what the whole loop records. */
  lemma RoundFound(loop: Stmt, l: Flow, names: set<string>, before: set<Found>)
    requires IsLoop(loop) && BoundBy(loop) <= names && Settled(loop, l, names)
    ensures EnterBody(loop, l.after, names).found <= l.found <= Leave(loop, before, l, names).found
  {
  }

  /** What happens after a round has been entered: the body, and the rounds after it. */
  function RoundsFrom(loop: Stmt, loads: seq<Load>, env: Env, choices: seq<Choice>): RunResult
    requires IsLoop(loop)
  {
    var b := ExecBlock(loop.body, env, choices);
    var before := loads + b.loads;
    if b.outcome == Broke then RunResult(Finished, b.env, before, b.rest)
    else if b.outcome == Halted then b.(loads := before)
    else var n := Rounds(loop, b.env, b.rest); n.(loads := before + n.loads)
  }

  lemma {:induction false} NextRoundSound(loop: Stmt, l: Flow, loads: seq<Load>, env: Env, choices: seq<Choice>, names: set<string>,
                                          before: set<Found>, plain: bool)
    requires IsLoop(loop) && BoundBy(loop) <= names && Settled(loop, l, names) && LoopInScope(loop, l.after, names, plain)
    requires Covers(EnterBody(loop, l.after, names).after, env, plain) && (plain ==> PlainChoices(choices))
    requires AllRecorded(loads, Leave(loop, before, l, names).found, ImportedBy(loop), plain)
    ensures SoundResult(RoundsFrom(loop, loads, env, choices), Leave(loop, before, l, names), ContinuingBlock(loop.orelse, l.after, names),
                        ImportedBy(loop), plain)
    decreases |choices|, loop, 3
  {
    BodySound(loop, l, EnterBody(loop, l.after, names).after, env, choices, names, plain);
    var b, f := ExecBlock(loop.body, env, choices), Leave(loop, before, l, names);
    RoundFound(loop, l, names, before);
    RecordedMore(b.loads, l.found, f.found, Imported(loop.body), ImportedBy(loop), plain);
    RecordedBoth(loads, b.loads, f.found, ImportedBy(loop), plain);
    if b.outcome == Broke { BreakSound(loop, l, b.env, names, before, plain); }
    if b.outcome in {Finished, Continued} {
      LoopSound(loop, l, b.env, b.rest, names, before, plain);
      SoundAfter(loads + b.loads, Rounds(loop, b.env, b.rest), f, ContinuingBlock(loop.orelse, l.after, names), ImportedBy(loop), plain);
    }
    hide AllRecorded, Covers, Settled, EnterBody, Leave, LoopInScope, ContinuingBlock, Rounds, ExecBlock;
  }
}

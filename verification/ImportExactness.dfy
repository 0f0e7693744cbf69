/**
  The analysis reports nothing without cause: a call is recorded for review exactly when what it
  loads depends on what the text leaves open, every recorded call is a loader call of the text
  that some run makes, and every label of an expression is what it evaluates to in some run.
 */
module ImportExactness {
  import opened Options
  import opened ImportLanguage
  import opened DynamicImports
  import opened ImportSoundness
  import opened ImportBoundary

  // ----- The recorded name -----

  /** One of the two functions the analysis follows. */
  predicate Followed(loader: Object) { loader == ImportModuleFunction || loader == BuiltinImport }

  /** The name every execution of the call loads; none if what it loads depends on what the text leaves open. */
  ghost predicate LoadsExactly(loader: Object, call: Expr, name: Option<string>)
    requires call.Call?
  {
    match name
    case Some(n) => forall text :: LoadedName(loader, call, text) == n
    case None => exists x, y :: LoadedName(loader, call, x) != LoadedName(loader, call, y)
  }

  /** What is recorded of a loader call is what it loads, and review is asked for exactly where the text leaves that open. */
  lemma RecordIsExact(loader: Object, call: Expr)
    requires call.Call? && Followed(loader)
    ensures LoadsExactly(loader, call, RecordedName(LabelOf(loader), call))
    ensures forall name | LoadsExactly(loader, call, name) :: name == RecordedName(LabelOf(loader), call)
  {
    hide LoadedName, RecordedName;
    forall text ensures RecordedName(LabelOf(loader), call).Some? ==> RecordedName(LabelOf(loader), call).value == LoadedName(loader, call, text) {
      NameSound(loader, call, text);
    }
    if RecordedName(LabelOf(loader), call).None? {
      LeftOpen(loader, call, "");
      LeftOpen(loader, call, "a");
    } else {
      assert RecordedName(LabelOf(loader), call).value == LoadedName(loader, call, "");
    }
  }

  lemma LeftOpen(loader: Object, call: Expr, text: string)
    requires call.Call? && Followed(loader) && RecordedName(LabelOf(loader), call).None?
    ensures LoadedName(loader, call, text) == text
  {
  }

  // ----- Calls of an expression -----

  /** All calls in an expression. */
  function CallsIn(e: Expr): set<Expr>
    ensures forall c | c in CallsIn(e) :: c.Call?
    decreases e, 1
  {
    match e
    case Attribute(owner, _) => CallsIn(owner)
    case IfExp(test, body, orelse) => CallsIn(test) + CallsIn(body) + CallsIn(orelse)
    case BoolOr(left, right) => CallsIn(left) + CallsIn(right)
    case Call(_, func, args, keywords) => {e} + CallsIn(func) + CallsInAll(args) + CallsInKeywords(keywords)
    case Composite(parts) => CallsInAll(parts)
    case _ => {}
  }

  function CallsInAll(es: seq<Expr>): set<Expr>
    ensures forall c | c in CallsInAll(es) :: c.Call?
    decreases es, 0
  {
    if es == [] then {} else CallsIn(es[0]) + CallsInAll(es[1..])
  }

  function CallsInKeywords(ks: seq<Keyword>): set<Expr>
    ensures forall c | c in CallsInKeywords(ks) :: c.Call?
    decreases ks, 0
  {
    if ks == [] then {} else CallsIn(ks[0].value) + CallsInKeywords(ks[1..])
  }

  /** The record of one of these calls, through a loader its function may be bound to. */
  ghost predicate RecordOf(calls: set<Expr>, s: State, f: Found) {
    exists c, loader :: c in calls && c.Call? && Followed(loader) && LabelOf(loader) in Binding(c.func, s) && f.node == c.node
                        && LoadsExactly(loader, c, f.name)
  }

  lemma HereIs(call: Expr, s: State, f: Found)
    requires call.Call?
    ensures f in FoundHere(call, s) <==> RecordOf({call}, s, f)
  {
    hide RecordedName, LoadsExactly, Binding;
    RecordIsExact(ImportModuleFunction, call);
    RecordIsExact(BuiltinImport, call);
    if f in FoundHere(call, s) {
      var l :| l in Binding(call.func, s) && l in {ImportModule, DunderImport} && f == Found(call.node, RecordedName(l, call));
      var loader := if l == ImportModule then ImportModuleFunction else BuiltinImport;
      assert call in {call} && Followed(loader) && LabelOf(loader) in Binding(call.func, s) && LoadsExactly(loader, call, f.name);
    }
    if RecordOf({call}, s, f) {
      var c, loader :| c in {call} && c.Call? && Followed(loader) && LabelOf(loader) in Binding(c.func, s) && f.node == c.node
                        && LoadsExactly(loader, c, f.name);
      assert f == Found(call.node, RecordedName(LabelOf(loader), call));
    }
  }

  lemma RecordOfBoth(a: set<Expr>, b: set<Expr>, s: State, f: Found)
    ensures RecordOf(a + b, s, f) <==> RecordOf(a, s, f) || RecordOf(b, s, f)
  {
    hide LoadsExactly, Binding;
  }

  lemma RecordOfNone(s: State, f: Found)
    ensures !RecordOf({}, s, f)
  {
  }

  /** What an expression records is exactly this, for each of its calls. */
  lemma {:induction false} FoundIsExact(e: Expr, s: State, f: Found)
    ensures f in FoundIn(e, s) <==> RecordOf(CallsIn(e), s, f)
    decreases e, 1
  {
    hide RecordOf, FoundHere;
    RecordOfNone(s, f);
    match e
    case Attribute(owner, _) => FoundIsExact(owner, s, f);
    case IfExp(test, body, orelse) =>
      FoundIsExact(test, s, f); FoundIsExact(body, s, f); FoundIsExact(orelse, s, f);
      RecordOfBoth(CallsIn(test), CallsIn(body), s, f);
      RecordOfBoth(CallsIn(test) + CallsIn(body), CallsIn(orelse), s, f);
    case BoolOr(left, right) =>
      FoundIsExact(left, s, f); FoundIsExact(right, s, f);
      RecordOfBoth(CallsIn(left), CallsIn(right), s, f);
    case Call(_, func, args, keywords) =>
      FoundIsExact(func, s, f); FoundAllExact(args, s, f); FoundKeywordsExact(keywords, s, f);
      HereIs(e, s, f);
      RecordOfBoth({e}, CallsIn(func), s, f);
      RecordOfBoth({e} + CallsIn(func), CallsInAll(args), s, f);
      RecordOfBoth({e} + CallsIn(func) + CallsInAll(args), CallsInKeywords(keywords), s, f);
    case Composite(parts) => FoundAllExact(parts, s, f);
    case _ =>
  }

  lemma {:induction false} FoundAllExact(es: seq<Expr>, s: State, f: Found)
    ensures f in FoundInAll(es, s) <==> RecordOf(CallsInAll(es), s, f)
    decreases es, 0
  {
    hide RecordOf;
    RecordOfNone(s, f);
    if es != [] {
      FoundIsExact(es[0], s, f); FoundAllExact(es[1..], s, f);
      RecordOfBoth(CallsIn(es[0]), CallsInAll(es[1..]), s, f);
    }
  }

  lemma {:induction false} FoundKeywordsExact(ks: seq<Keyword>, s: State, f: Found)
    ensures f in FoundInKeywords(ks, s) <==> RecordOf(CallsInKeywords(ks), s, f)
    decreases ks, 0
  {
    hide RecordOf;
    RecordOfNone(s, f);
    if ks != [] {
      FoundIsExact(ks[0].value, s, f); FoundKeywordsExact(ks[1..], s, f);
      RecordOfBoth(CallsIn(ks[0].value), CallsInKeywords(ks[1..]), s, f);
    }
  }

  // ----- Calls of a program -----

  function CallsOfTargets(targets: seq<Target>): set<Expr> {
    if targets == [] then {}
    else (match targets[0] case NameTarget(_) => {} case ExprTarget(place) => CallsIn(place)) + CallsOfTargets(targets[1..])
  }

  /** All calls in a statement. */
  function CallsOf(s: Stmt): set<Expr>
    decreases s, 1
  {
    match s
    case Assign(targets, value) => CallsIn(value) + CallsOfTargets(targets)
    case ExprStmt(e) => CallsIn(e)
    case If(test, body, orelse) => CallsIn(test) + CallsOfBlock(body) + CallsOfBlock(orelse)
    case For(target, iter, body, orelse) => CallsIn(iter) + CallsOfTargets([target]) + CallsOfBlock(body) + CallsOfBlock(orelse)
    case While(test, body, orelse) => CallsIn(test) + CallsOfBlock(body) + CallsOfBlock(orelse)
    case _ => {}
  }

  function CallsOfBlock(ss: seq<Stmt>): set<Expr>
    decreases ss, 0
  {
    if ss == [] then {} else CallsOf(ss[0]) + CallsOfBlock(ss[1..])
  }

  /** A record of a call of the text, with the name that every execution through the loader loads, if there is one. */
  ghost predicate InText(calls: set<Expr>, f: Found) {
    exists c, loader :: c in calls && c.Call? && Followed(loader) && f.node == c.node && LoadsExactly(loader, c, f.name)
  }

  lemma InTextMore(small: set<Expr>, large: set<Expr>, f: Found)
    requires InText(small, f) && small <= large
    ensures InText(large, f)
  {
    hide LoadsExactly;
  }

  lemma FoundInText(e: Expr, s: State, calls: set<Expr>, f: Found)
    requires f in FoundIn(e, s) && CallsIn(e) <= calls
    ensures InText(calls, f)
  {
    FoundIsExact(e, s, f);
    hide LoadsExactly, Binding, FoundIn;
    var c, loader :| c in CallsIn(e) && c.Call? && Followed(loader) && LabelOf(loader) in Binding(c.func, s) && f.node == c.node
                        && LoadsExactly(loader, c, f.name);
    assert c in calls;
  }

  lemma {:induction false} StoresInText(targets: seq<Target>, binding: set<Label>, s: State, f: Found)
    requires f in AfterStores(targets, binding, s).found
    ensures InText(CallsOfTargets(targets), f)
    decreases |targets|
  {
    hide InText, FoundIn;
    match targets[0]
    case NameTarget(id) =>
      StoresInText(targets[1..], binding, s[id := binding], f);
      InTextMore(CallsOfTargets(targets[1..]), CallsOfTargets(targets), f);
    case ExprTarget(place) =>
      if f in FoundIn(place, s) {
        FoundInText(place, s, CallsOfTargets(targets), f);
      } else {
        StoresInText(targets[1..], binding, s, f);
        InTextMore(CallsOfTargets(targets[1..]), CallsOfTargets(targets), f);
      }
  }

  lemma {:induction false} StmtInText(s: Stmt, start: State, names: set<string>, f: Found)
    requires Fits(start, names) && BoundBy(s) <= names && f in Analyze(s, start, names).found
    ensures InText(CallsOf(s), f)
    decreases s, 4
  {
    hide InText;
    match s
    case Assign(targets, value) =>
      if f in FoundIn(value, start) {
        FoundInText(value, start, CallsOf(s), f);
      } else {
        StoresInText(targets, Binding(value, start), start, f);
        InTextMore(CallsOfTargets(targets), CallsOf(s), f);
      }
    case ExprStmt(e) => FoundInText(e, start, CallsOf(s), f);
    case If(test, body, orelse) =>
      if f in FoundIn(test, start) {
        FoundInText(test, start, CallsOf(s), f);
      } else if f in AnalyzeBlock(body, start, names).found {
        BlockInText(body, start, names, f);
        InTextMore(CallsOfBlock(body), CallsOf(s), f);
      } else {
        BlockInText(orelse, start, names, f);
        InTextMore(CallsOfBlock(orelse), CallsOf(s), f);
      }
    case For(_, iter, _, _) =>
      if f in FoundIn(iter, start) { FoundInText(iter, start, CallsOf(s), f); } else { LeaveInText(s, LoopFlow(s, start, start, names), names, f, start); }
    case While(_, _, _) => LeaveInText(s, LoopFlow(s, start, start, names), names, f, start);
    case _ =>
  }

  lemma {:induction false} LeaveInText(s: Stmt, l: Flow, names: set<string>, f: Found, start: State)
    requires IsLoop(s) && BoundBy(s) <= names && Fits(start, names) && l == LoopFlow(s, start, start, names)
    requires f in l.found || f in AnalyzeBlock(s.orelse, l.after, names).found
    ensures InText(CallsOf(s), f)
    decreases s, 3
  {
    hide InText;
    if f in l.found {
      LoopInText(s, start, start, names, f);
    } else {
      BlockInText(s.orelse, l.after, names, f);
      InTextMore(CallsOfBlock(s.orelse), CallsOf(s), f);
    }
  }

  lemma {:induction false} LoopInText(s: Stmt, entry: State, head: State, names: set<string>, f: Found)
    requires IsLoop(s) && BoundBy(s) <= names && Fits(entry, names) && Fits(head, names) && f in LoopFlow(s, entry, head, names).found
    ensures InText(CallsOf(s), f)
    decreases s, 2, Lattice(names) - Pairs(head)
  {
    hide InText;
    var r := Round(s, head, names);
    var next := NextHead(entry, head, r.after);
    if f in r.found {
      RoundInText(s, head, names, f);
    } else {
      HeadGrows(entry, head, r.after, names);
      LoopInText(s, entry, next, names, f);
    }
  }

  lemma {:induction false} RoundInText(s: Stmt, head: State, names: set<string>, f: Found)
    requires IsLoop(s) && BoundBy(s) <= names && Fits(head, names) && f in Round(s, head, names).found
    ensures InText(CallsOf(s), f)
    decreases s, 0
  {
    hide InText;
    var e := EnterBody(s, head, names);
    if f in e.found {
      if s.For? {
        StoresInText([s.target], {Unknown}, head, f);
        InTextMore(CallsOfTargets([s.target]), CallsOf(s), f);
      } else {
        FoundInText(s.test, head, CallsOf(s), f);
      }
    } else {
      BlockInText(s.body, e.after, names, f);
      InTextMore(CallsOfBlock(s.body), CallsOf(s), f);
    }
  }

  lemma {:induction false} BlockInText(ss: seq<Stmt>, start: State, names: set<string>, f: Found)
    requires Fits(start, names) && Bound(ss) <= names && f in AnalyzeBlock(ss, start, names).found
    ensures InText(CallsOfBlock(ss), f)
    decreases ss, 0
  {
    hide InText;
    var h := Analyze(ss[0], start, names);
    if f in h.found {
      StmtInText(ss[0], start, names, f);
      InTextMore(CallsOf(ss[0]), CallsOfBlock(ss), f);
    } else {
      BlockInText(ss[1..], h.after, names, f);
      InTextMore(CallsOfBlock(ss[1..]), CallsOfBlock(ss), f);
    }
  }

  /**
    Everything the analysis of a file records is a call of its text, with the one name that each
    execution of the call through a followed loader loads; a record without a name is of a call
    whose text leaves open what it loads.
   */
  lemma AnalysisIsExact(program: seq<Stmt>, f: Found)
    requires f in Analysis(program).found
    ensures InText(CallsOfBlock(program), f)
  {
    hide AnalyzeBlock, InText;
    BlockInText(program, START, NamesOf(program), f);
  }

  // ----- Labels come true -----

  function NamesIn(e: Expr): set<string>
    decreases e, 1
  {
    match e
    case Name(id) => {id}
    case Attribute(owner, _) => NamesIn(owner)
    case IfExp(test, body, orelse) => NamesIn(test) + NamesIn(body) + NamesIn(orelse)
    case BoolOr(left, right) => NamesIn(left) + NamesIn(right)
    case Call(_, func, args, keywords) => NamesIn(func) + NamesInAll(args) + NamesInKeywords(keywords)
    case Composite(parts) => NamesInAll(parts)
    case _ => {}
  }

  function NamesInAll(es: seq<Expr>): set<string>
    decreases es, 0
  {
    if es == [] then {} else NamesIn(es[0]) + NamesInAll(es[1..])
  }

  function NamesInKeywords(ks: seq<Keyword>): set<string>
    decreases ks, 0
  {
    if ks == [] then {} else NamesIn(ks[0].value) + NamesInKeywords(ks[1..])
  }

  const QUIET := Choice(false, "", Plain, map[])

  lemma Prefixed(c: Choice, rest: seq<Choice>)
    ensures ([c] + rest)[0] == c && ([c] + rest)[1..] == rest && [c] + rest != []
  {
  }

  /** With all its names bound an expression can be evaluated to its end, leaving any choices over. */
  lemma {:induction false} Evaluates(e: Expr, env: Env, tail: seq<Choice>) returns (choices: seq<Choice>)
    requires NamesIn(e) <= env.Keys
    ensures !Eval(e, env, choices).halted && Eval(e, env, choices).rest == tail
    decreases e, 1
  {
    Prefixed(QUIET, tail);
    match e
    case Name(_) => choices := tail;
    case Attribute(owner, _) => choices := Evaluates(owner, env, [QUIET] + tail);
    case IfExp(test, _, orelse) =>
      var later := Evaluates(orelse, env, tail);
      Prefixed(QUIET, later);
      choices := Evaluates(test, env, [QUIET] + later);
    case BoolOr(left, right) =>
      var later := Evaluates(right, env, tail);
      Prefixed(QUIET, later);
      choices := Evaluates(left, env, [QUIET] + later);
    case Call(_, func, args, keywords) =>
      var k := EvaluatesKeywords(keywords, env, [QUIET] + tail);
      var a := EvaluatesAll(args, env, k);
      choices := Evaluates(func, env, a);
    case Text(_) => choices := tail;
    case Number(_) => choices := tail;
    case Composite(parts) => choices := EvaluatesAll(parts, env, [QUIET] + tail);
  }

  lemma {:induction false} EvaluatesAll(es: seq<Expr>, env: Env, tail: seq<Choice>) returns (choices: seq<Choice>)
    requires NamesInAll(es) <= env.Keys
    ensures !EvalAll(es, env, choices).halted && EvalAll(es, env, choices).rest == tail
    decreases es, 0
  {
    choices := tail;
    if es != [] {
      var later := EvaluatesAll(es[1..], env, tail);
      choices := Evaluates(es[0], env, later);
    }
  }

  lemma {:induction false} EvaluatesKeywords(ks: seq<Keyword>, env: Env, tail: seq<Choice>) returns (choices: seq<Choice>)
    requires NamesInKeywords(ks) <= env.Keys
    ensures !EvalKeywords(ks, env, choices).halted && EvalKeywords(ks, env, choices).rest == tail
    decreases ks, 0
  {
    choices := tail;
    if ks != [] {
      var later := EvaluatesKeywords(ks[1..], env, tail);
      choices := Evaluates(ks[0].value, env, later);
    }
  }

  /** The same names, at most one of them bound anew, to something the state allows. */
  ghost predicate OneAllowed(s: State, env: Env, other: Env) {
    other == env || exists id, o :: other == env[id := Value(o, true)] && LabelOf(o) in Get(s, id)
  }

  function ObjectOf(l: Label): (o: Object)
    ensures LabelOf(o) == l
  {
    match l
    case Importlib => ImportlibModule
    case Builtins => BuiltinsModule
    case ImportModule => ImportModuleFunction
    case DunderImport => BuiltinImport
    case Unknown => Plain
  }

  /** The name a label comes from, and the label the state has for it. */
  function Leaf(e: Expr, s: State, l: Label): (string, Label) {
    match e
    case Name(id) => (id, l)
    case Attribute(owner, _) => Leaf(owner, s, if l == ImportModule then Importlib else Builtins)
    case IfExp(_, body, orelse) => if l in Binding(body, s) then Leaf(body, s, l) else Leaf(orelse, s, l)
    case _ => ("", l)
  }

  function Chosen(e: Expr, s: State, l: Label, env: Env): Env { env[Leaf(e, s, l).0 := Value(ObjectOf(Leaf(e, s, l).1), true)] }

  lemma OwnerOf(owner: Expr, attr: string, s: State, l: Label)
    requires l in Binding(Attribute(owner, attr), s) && l != Unknown
    ensures var o := if l == ImportModule then Importlib else Builtins; o in Binding(owner, s) && AttributeOf(o, attr) == l
  {
  }

  /** Every label the analysis gives an expression, other than the unknown one, is that of what it evaluates to for names the state allows. */
  lemma {:induction false} LabelComesTrue(e: Expr, s: State, l: Label, env: Env, tail: seq<Choice>) returns (choices: seq<Choice>)
    requires l in Binding(e, s) && l != Unknown && NamesIn(e) <= env.Keys
    ensures OneAllowed(s, env, Chosen(e, s, l, env))
    ensures var r := Eval(e, Chosen(e, s, l, env), choices); !r.halted && LabelOf(r.value.entity) == l && r.rest == tail
    decreases e
  {
    var other := Chosen(e, s, l, env);
    match e
    case Name(_) =>
      choices := tail;
    case Attribute(owner, attr) =>
      OwnerOf(owner, attr, s, l);
      var o, read := if l == ImportModule then Importlib else Builtins, QUIET.(bit := true);
      Prefixed(read, tail);
      choices := LabelComesTrue(owner, s, o, env, [read] + tail);
      KnownAttribute(Eval(owner, other, choices).value.entity, attr);
    case IfExp(test, body, orelse) =>
      var first := QUIET.(bit := l in Binding(body, s));
      var later := LabelComesTrue(if first.bit then body else orelse, s, l, env, tail);
      Prefixed(first, later);
      choices := Evaluates(test, other, [first] + later);
    case _ =>
      assert false;
  }

  lemma KnownAttribute(o: Object, attr: string)
    requires AttributeOf(LabelOf(o), attr) != Unknown
    ensures LoaderAttribute(o, attr).Some? && LabelOf(LoaderAttribute(o, attr).value) == AttributeOf(LabelOf(o), attr)
  {
  }

  /** Every recorded call is a load that some run makes, for names the state allows: of the recorded module if one is recorded. */
  lemma RecordComesTrue(call: Expr, s: State, f: Found, env: Env) returns (other: Env, choices: seq<Choice>, load: Load)
    requires call.Call? && f in FoundHere(call, s) && NamesIn(call) <= env.Keys
    ensures OneAllowed(s, env, other) && load in Eval(call, other, choices).loads
    ensures load.Dynamic? && load.node == f.node && Followed(load.loader) && (f.name.Some? ==> load.name == f.name.value)
  {
    var l :| l in Binding(call.func, s) && l in {ImportModule, DunderImport} && f == Found(call.node, RecordedName(l, call));
    hide RecordedName, LoadedName, Binding, Leaf;
    other := Chosen(call.func, s, l, env);
    var k := EvaluatesKeywords(call.keywords, other, [QUIET]);
    var a := EvaluatesAll(call.args, other, k);
    choices := LabelComesTrue(call.func, s, l, env, a);
    var loader := Eval(call.func, other, choices).value;
    load := Dynamic(call.node, LoadedName(loader.entity, call, ""), loader.entity, loader.direct);
    NameSound(loader.entity, call, "");
  }

  // ----- Relative names -----

  /** A component of a dotted name. */
  predicate IsPart(part: string) { part != "" && forall k | 0 <= k < |part| :: part[k] != '.' }

  function Dotted(parts: seq<string>): string
    requires parts != []
  {
    if |parts| == 1 then parts[0] else Dotted(parts[..|parts| - 1]) + "." + parts[|parts| - 1]
  }

  function Dots(n: nat): string { seq(n, _ => '.') }

  lemma {:induction false} DotsLead(n: nat, rest: string)
    requires rest == "" || rest[0] != '.'
    ensures LeadingDots(Dots(n) + rest) == n && (Dots(n) + rest)[n..] == rest
  {
    if n == 0 {
      assert Dots(0) + rest == rest;
    } else {
      assert (Dots(n) + rest)[1..] == Dots(n - 1) + rest && (Dots(n) + rest)[0] == '.';
      DotsLead(n - 1, rest);
    }
  }

  lemma {:induction false} DropsPart(base: string, part: string)
    requires forall k | 0 <= k < |part| :: part[k] != '.'
    ensures DropLast(base + "." + part) == Some(base)
    decreases |part|
  {
    var whole := base + "." + part;
    if part == "" {
      assert whole[..|whole| - 1] == base;
    } else {
      assert whole[..|whole| - 1] == base + "." + part[..|part| - 1];
      DropsPart(base, part[..|part| - 1]);
    }
  }

  lemma {:induction false} OnePart(part: string)
    requires forall k | 0 <= k < |part| :: part[k] != '.'
    ensures DropLast(part) == None
    decreases |part|
  {
    if part != "" { OnePart(part[..|part| - 1]); }
  }

  lemma {:induction false} DropsParts(parts: seq<string>, count: nat)
    requires parts != [] && forall p | p in parts :: IsPart(p)
    ensures DropMany(Dotted(parts), count) == if count < |parts| then Some(Dotted(parts[..|parts| - count])) else None
    decreases count
  {
    var n := |parts|;
    assert IsPart(parts[n - 1]);
    if count == 0 {
      assert parts[..n] == parts;
    } else if n == 1 {
      OnePart(parts[0]);
    } else {
      DropsPart(Dotted(parts[..n - 1]), parts[n - 1]);
      DropsParts(parts[..n - 1], count - 1);
      if count < n { assert parts[..n - 1][..n - count] == parts[..n - count]; }
    }
  }

  /** A name with one dot and so many more is relative to the package that many packages above; there must be one. */
  lemma RelativeNamesGoUp(parts: seq<string>, up: nat, rest: string)
    requires parts != [] && (forall p | p in parts :: IsPart(p)) && (rest == "" || rest[0] != '.')
    ensures ResolveName(Dots(up + 1) + rest, Dotted(parts))
         == if up >= |parts| then None
            else if rest == "" then Some(Dotted(parts[..|parts| - up]))
            else Some(Dotted(parts[..|parts| - up]) + "." + rest)
  {
    DotsLead(up + 1, rest);
    DropsParts(parts, up);
    NotEmpty(parts);
  }

  lemma NotEmpty(parts: seq<string>)
    requires parts != [] && forall p | p in parts :: IsPart(p)
    ensures Dotted(parts) != ""
  {
    assert IsPart(parts[|parts| - 1]);
  }

  // ----- Forbidden modules -----

  /** The top-level package of a dotted name. */
  function TopLevel(name: string): string {
    if name == "" || name[0] == '.' then "" else [name[0]] + TopLevel(name[1..])
  }

  lemma {:induction false} TopLevelIs(name: string, root: string)
    requires forall k | 0 <= k < |root| :: root[k] != '.'
    ensures IsModuleOrSubmodule(name, root) <==> TopLevel(name) == root
    decreases |name|
  {
    if name != "" && name[0] != '.' && root != "" && name[0] == root[0] {
      TopLevelIs(name[1..], root[1..]);
      assert name == [name[0]] + name[1..] && root == [root[0]] + root[1..];
      assert root + "." == [root[0]] + (root[1..] + ".");
      if root[1..] + "." <= name[1..] { assert root + "." <= name; }
      if root + "." <= name { assert (root + ".")[1..] == root[1..] + "." && root[1..] + "." <= name[1..]; }
    }
  }

  /** The upstream package may not import ours, nor ours the upstream one; the adapter may import both. */
  lemma ForbiddenIs(kind: SourceKind, name: string)
    ensures Forbidden(kind, name) <==>
      (kind == Research && TopLevel(name) == "mytradingalpha") || (kind == Production && TopLevel(name) == "tradingagents")
  {
    TopLevelIs(name, "mytradingalpha");
    TopLevelIs(name, "tradingagents");
    hide IsModuleOrSubmodule, TopLevel;
  }
}

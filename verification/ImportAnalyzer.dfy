/**
  The visitor itself: an object that rewrites its bindings, keeps a stack of break
  collectors and appends to its list of recorded imports, proved to compute the flows of
  DynamicImports step by step.
 */
module ImportAnalyzer {
  import opened Options
  import opened ImportLanguage
  import opened DynamicImports
  import opened ImportSoundness
  import opened ImportBoundary

  /** What merging a break state does to the innermost collector. */
  function Pushed(collectors: seq<Option<State>>, broken: Option<State>): seq<Option<State>> {
    if collectors == [] then []
    else collectors[..|collectors| - 1] + [JoinBroken(collectors[|collectors| - 1], broken)]
  }

  /** States with the same names and the same bindings are the same. */
  lemma SameState(s: State, t: State)
    requires s.Keys == t.Keys && forall id :: Get(s, id) == Get(t, id)
    ensures s == t
  {
    forall id | id in s ensures s[id] == t[id] {
      assert Get(s, id) == Get(t, id);
    }
  }

  lemma JoinAssociates(s: State, t: State, u: State)
    ensures Join(Join(s, t), u) == Join(s, Join(t, u))
  {
    var a, b := Join(Join(s, t), u), Join(s, Join(t, u));
    hide Join, Get;
    forall id ensures Get(a, id) == Get(b, id) {
      GetJoin(s, t, id);
      GetJoin(t, u, id);
      GetJoin(Join(s, t), u, id);
      GetJoin(s, Join(t, u), id);
    }
    SameState(a, b);
  }

  lemma JoinBrokenAssociates(s: Option<State>, t: Option<State>, u: Option<State>)
    ensures JoinBroken(JoinBroken(s, t), u) == JoinBroken(s, JoinBroken(t, u))
  {
    if s.Some? && t.Some? && u.Some? { JoinAssociates(s.value, t.value, u.value); }
  }

  lemma PushedTwice(c: seq<Option<State>>, s: Option<State>, t: Option<State>)
    ensures Pushed(Pushed(c, s), t) == Pushed(c, JoinBroken(s, t))
    ensures Pushed(c, None) == c
  {
    if c != [] {
      var top := c[|c| - 1];
      JoinBrokenAssociates(top, s, t);
      assert JoinBroken(top, None) == top;
      assert c == c[..|c| - 1] + [top];
    }
  }

  lemma PushedTop(rest: seq<Option<State>>, top: Option<State>, broken: Option<State>)
    ensures Pushed(rest + [top], broken) == rest + [JoinBroken(top, broken)]
  {
  }

  /** A head that only grows makes the join of the tested states its last one. */
  lemma JoinGrown(entry: State, head: State, exit: State)
    ensures Join(head, NextHead(entry, head, exit)) == NextHead(entry, head, exit)
  {
    var next := NextHead(entry, head, exit);
    var j := Join(head, next);
    hide Join, Get;
    forall id ensures Get(j, id) == Get(next, id) {
      GetJoin(entry, head, id);
      GetJoin(Join(entry, head), exit, id);
      GetJoin(head, next, id);
    }
    SameState(j, next);
  }

  /** What a loop has gathered, and what the rounds from `head` still add, make up the whole. */
  ghost predicate Pending(s: Stmt, entry: State, head: State, names: set<string>,
                          top: Option<State>, gathered: set<Found>, whole: Flow)
    requires IsLoop(s) && BoundBy(s) <= names && Fits(entry, names)
  {
    && Fits(head, names)
    && var l := LoopFlow(s, entry, head, names);
       && l.after == whole.after
       && JoinBroken(top, l.broken) == whole.broken
       && gathered + l.found == whole.found
  }

  lemma PendingStart(s: Stmt, entry: State, names: set<string>)
    requires IsLoop(s) && BoundBy(s) <= names && Fits(entry, names)
    ensures Pending(s, entry, entry, names, None, {}, LoopFlow(s, entry, entry, names))
  {
  }

  /** The last round: the head absorbed it. */
  lemma PendingDone(s: Stmt, entry: State, head: State, names: set<string>,
                    top: Option<State>, gathered: set<Found>, whole: Flow)
    requires IsLoop(s) && BoundBy(s) <= names && Fits(entry, names)
    requires Pending(s, entry, head, names, top, gathered, whole)
    requires NextHead(entry, head, Round(s, head, names).after) == head
    ensures whole == Flow(head, JoinBroken(top, Round(s, head, names).broken), gathered + Round(s, head, names).found)
  {
  }

  /** A round after which the head has grown. */
  lemma PendingMore(s: Stmt, entry: State, head: State, names: set<string>,
                    top: Option<State>, gathered: set<Found>, whole: Flow)
    requires IsLoop(s) && BoundBy(s) <= names && Fits(entry, names)
    requires Pending(s, entry, head, names, top, gathered, whole)
    requires NextHead(entry, head, Round(s, head, names).after) != head
    ensures var r := Round(s, head, names);
            var next := NextHead(entry, head, r.after);
            && Pending(s, entry, next, names, JoinBroken(top, r.broken), gathered + r.found, whole)
            && Lattice(names) - Pairs(next) < Lattice(names) - Pairs(head)
            && Join(head, next) == next
  {
    var r := Round(s, head, names);
    var next := NextHead(entry, head, r.after);
    HeadGrows(entry, head, r.after, names);
    JoinGrown(entry, head, r.after);
    var l, m := LoopFlow(s, entry, head, names), LoopFlow(s, entry, next, names);
    assert l == Flow(m.after, JoinBroken(r.broken, m.broken), r.found + m.found);
    JoinBrokenAssociates(top, r.broken, m.broken);
    assert gathered + (r.found + m.found) == gathered + r.found + m.found;
  }

  /** One round, as the visitor runs it: either it was the last one, or the head has grown. */
  lemma PendingRound(s: Stmt, entry: State, head: State, names: set<string>,
                     top: Option<State>, gathered: set<Found>, whole: Flow)
    requires IsLoop(s) && BoundBy(s) <= names && Fits(entry, names)
    requires Pending(s, entry, head, names, top, gathered, whole)
    ensures Fits(head, names)
    ensures var r := Round(s, head, names);
            var next := Join(Join(entry, head), r.after);
            var broken, found := JoinBroken(top, r.broken), gathered + r.found;
            if next == head then whole == Flow(head, broken, found)
            else
              && Pending(s, entry, next, names, broken, found, whole)
              && Lattice(names) - Pairs(next) < Lattice(names) - Pairs(head)
              && Join(head, next) == next
  {
    hide Pending, LoopFlow, Round, BoundBy, Lattice, Pairs, Join, JoinBroken, Fits;
    PendingFits(s, entry, head, names, top, gathered, whole);
    if NextHead(entry, head, Round(s, head, names).after) == head {
      PendingDone(s, entry, head, names, top, gathered, whole);
    } else {
      PendingMore(s, entry, head, names, top, gathered, whole);
    }
  }

  lemma PendingFits(s: Stmt, entry: State, head: State, names: set<string>,
                    top: Option<State>, gathered: set<Found>, whole: Flow)
    requires IsLoop(s) && BoundBy(s) <= names && Fits(entry, names)
    requires Pending(s, entry, head, names, top, gathered, whole)
    ensures Fits(head, names)
  {
    hide LoopFlow;
  }

  class Analyzer {
    var bindings: State
    var imports: seq<Found>
    var seenImports: set<Found>
    var breakCollectors: seq<Option<State>>

    ghost predicate Valid()
      reads this
    {
      && seenImports == (set f | f in imports)
      && forall i, j | 0 <= i < j < |imports| :: imports[i] != imports[j]
    }

    constructor ()
      ensures Valid() && bindings == START && seenImports == {} && breakCollectors == []
    {
      bindings := START;
      imports := [];
      seenImports := {};
      breakCollectors := [];
    }

    method RecordImport(node: nat, name: Option<string>)
      requires Valid()
      modifies this
      ensures Valid() && bindings == old(bindings) && breakCollectors == old(breakCollectors)
      ensures seenImports == old(seenImports) + {Found(node, name)}
      ensures old(imports) <= imports
    {
      var key := Found(node, name);
      if key !in seenImports {
        seenImports := seenImports + {key};
        imports := imports + [key];
      }
    }

    method MergeBreakState(state: Option<State>)
      requires Valid()
      modifies this
      ensures Valid() && bindings == old(bindings) && imports == old(imports) && seenImports == old(seenImports)
      ensures breakCollectors == Pushed(old(breakCollectors), state)
    {
      PushedTwice(breakCollectors, None, None);
      if state == None || breakCollectors == [] { return; }
      var current := breakCollectors[|breakCollectors| - 1];
      breakCollectors := breakCollectors[..|breakCollectors| - 1]
        + [if current == None then state else Some(Join(current.value, state.value))];
    }

    // ----- Expressions -----

    method VisitExpr(e: Expr)
      requires Valid()
      modifies this
      ensures Valid() && bindings == old(bindings) && breakCollectors == old(breakCollectors)
      ensures seenImports == old(seenImports) + FoundIn(e, old(bindings))
      decreases e, 2
    {
      match e
      case Attribute(owner, _) => VisitExpr(owner);
      case IfExp(test, body, orelse) =>
        VisitExpr(test);
        var before := bindings;
        VisitExpr(body);
        var taken := bindings;
        bindings := before;
        VisitExpr(orelse);
        bindings := Join(taken, bindings);
        JoinSelf(before);
      case BoolOr(left, right) => VisitExpr(left); VisitExpr(right);
      case Call(_, _, _, _) => VisitCall(e);
      case Composite(parts) => VisitAll(parts);
      case _ =>
    }

    method VisitAll(es: seq<Expr>)
      requires Valid()
      modifies this
      ensures Valid() && bindings == old(bindings) && breakCollectors == old(breakCollectors)
      ensures seenImports == old(seenImports) + FoundInAll(es, old(bindings))
      decreases es, 0
    {
      for i := 0 to |es|
        invariant Valid() && bindings == old(bindings) && breakCollectors == old(breakCollectors)
        invariant seenImports + FoundInAll(es[i..], bindings) == old(seenImports) + FoundInAll(es, bindings)
      {
        assert es[i..][1..] == es[i + 1..];
        VisitExpr(es[i]);
      }
    }

    method VisitKeywords(ks: seq<Keyword>)
      requires Valid()
      modifies this
      ensures Valid() && bindings == old(bindings) && breakCollectors == old(breakCollectors)
      ensures seenImports == old(seenImports) + FoundInKeywords(ks, old(bindings))
      decreases ks, 0
    {
      for i := 0 to |ks|
        invariant Valid() && bindings == old(bindings) && breakCollectors == old(breakCollectors)
        invariant seenImports + FoundInKeywords(ks[i..], bindings) == old(seenImports) + FoundInKeywords(ks, bindings)
      {
        assert ks[i..][1..] == ks[i + 1..];
        VisitExpr(ks[i].value);
      }
    }

    method VisitCall(e: Expr)
      requires Valid() && e.Call?
      modifies this
      ensures Valid() && bindings == old(bindings) && breakCollectors == old(breakCollectors)
      ensures seenImports == old(seenImports) + FoundIn(e, old(bindings))
      decreases e, 1
    {
      VisitExpr(e.func);
      var loaders := Binding(e.func, bindings);
      ghost var here := FoundHere(e, bindings);
      assert here == (if DunderImport in loaders then {Found(e.node, RecordedName(DunderImport, e))} else {})
                   + (if ImportModule in loaders then {Found(e.node, RecordedName(ImportModule, e))} else {});
      var targets: set<Option<string>> := {};
      if DunderImport in loaders {
        var name := RecordedName(DunderImport, e);
        RecordImport(e.node, name);
        targets := targets + {name};
      }
      if ImportModule in loaders {
        var name := RecordedName(ImportModule, e);
        if name !in targets { RecordImport(e.node, name); }
      }
      assert seenImports == old(seenImports) + FoundIn(e.func, old(bindings)) + here;
      VisitAll(e.args);
      VisitKeywords(e.keywords);
    }

    // ----- Statements -----

    method AssignTargets(targets: seq<Target>, binding: set<Label>)
      requires Valid()
      modifies this
      ensures Valid() && breakCollectors == old(breakCollectors)
      ensures bindings == AfterStores(targets, binding, old(bindings)).after
      ensures seenImports == old(seenImports) + AfterStores(targets, binding, old(bindings)).found
    {
      ghost var f := AfterStores(targets, binding, bindings);
      for i := 0 to |targets|
        invariant Valid() && breakCollectors == old(breakCollectors)
        invariant AfterStores(targets[i..], binding, bindings).after == f.after
        invariant seenImports + AfterStores(targets[i..], binding, bindings).found == old(seenImports) + f.found
      {
        assert targets[i..][1..] == targets[i + 1..];
        match targets[i]
        case NameTarget(id) => bindings := bindings[id := binding];
        case ExprTarget(place) => VisitExpr(place);
      }
    }

    method BindAliases(aliases: seq<Alias>)
      requires Valid()
      modifies this`bindings
      ensures bindings == AfterImports(aliases, old(bindings))
    {
      for i := 0 to |aliases|
        invariant AfterImports(aliases[i..], bindings) == AfterImports(aliases, old(bindings))
      {
        assert aliases[i..][1..] == aliases[i + 1..];
        bindings := bindings[BoundName(aliases[i], false) := {ImportedObject(aliases[i])}];
      }
    }

    method BindMembersOf(origin: Option<string>, level: nat, members: seq<Alias>)
      requires Valid()
      modifies this`bindings
      ensures bindings == AfterMembers(origin, level, members, old(bindings))
    {
      for i := 0 to |members|
        invariant AfterMembers(origin, level, members[i..], bindings) == AfterMembers(origin, level, members, old(bindings))
      {
        assert members[i..][1..] == members[i + 1..];
        bindings := bindings[BoundName(members[i], true) := {ImportedMember(origin, level, members[i].dotted)}];
      }
    }

    method VisitStmt(s: Stmt, ghost names: set<string>)
      requires Valid() && Fits(bindings, names) && BoundBy(s) <= names
      modifies this
      ensures Valid()
      ensures bindings == Analyze(s, old(bindings), names).after
      ensures breakCollectors == Pushed(old(breakCollectors), Analyze(s, old(bindings), names).broken)
      ensures seenImports == old(seenImports) + Analyze(s, old(bindings), names).found
      decreases s, 5
    {
      PushedTwice(breakCollectors, None, None);
      match s
      case Import(aliases) => BindAliases(aliases);
      case ImportFrom(origin, level, members) => BindMembersOf(origin, level, members);
      case Assign(targets, value) =>
        AfterStoresFits(targets, Binding(value, bindings), bindings);
        VisitExpr(value);
        AssignTargets(targets, Binding(value, bindings));
      case ExprStmt(e) => VisitExpr(e);
      case If(_, _, _) => VisitIf(s, names);
      case For(_, _, _, _) => VisitFor(s, names);
      case While(_, _, _) => VisitWhile(s, names);
      case Break => MergeBreakState(Some(bindings));
      case Continue =>
    }

    /** Analyses a block from `start`, which the current bindings are replaced by. */
    method VisitBlock(ss: seq<Stmt>, start: State, ghost names: set<string>)
      requires Valid() && Fits(start, names) && Bound(ss) <= names
      modifies this
      ensures Valid()
      ensures bindings == AnalyzeBlock(ss, start, names).after
      ensures breakCollectors == Pushed(old(breakCollectors), AnalyzeBlock(ss, start, names).broken)
      ensures seenImports == old(seenImports) + AnalyzeBlock(ss, start, names).found
      decreases ss, 0
    {
      bindings := start;
      ghost var f := AnalyzeBlock(ss, start, names);
      ghost var broken: Option<State> := None;
      PushedTwice(breakCollectors, None, None);
      for i := 0 to |ss|
        invariant Valid() && Fits(bindings, names) && Bound(ss[i..]) <= names
        invariant AnalyzeBlock(ss[i..], bindings, names).after == f.after
        invariant JoinBroken(broken, AnalyzeBlock(ss[i..], bindings, names).broken) == f.broken
        invariant breakCollectors == Pushed(old(breakCollectors), broken)
        invariant seenImports + AnalyzeBlock(ss[i..], bindings, names).found == old(seenImports) + f.found
      {
        assert ss[i..][0] == ss[i] && ss[i..][1..] == ss[i + 1..];
        ghost var h := Analyze(ss[i], bindings, names);
        ghost var t := AnalyzeBlock(ss[i + 1..], h.after, names);
        JoinBrokenAssociates(broken, h.broken, t.broken);
        PushedTwice(old(breakCollectors), broken, h.broken);
        VisitStmt(ss[i], names);
        broken := JoinBroken(broken, h.broken);
      }
    }

    method VisitIf(s: Stmt, ghost names: set<string>)
      requires Valid() && s.If? && Fits(bindings, names) && BoundBy(s) <= names
      modifies this
      ensures Valid()
      ensures bindings == Analyze(s, old(bindings), names).after
      ensures breakCollectors == Pushed(old(breakCollectors), Analyze(s, old(bindings), names).broken)
      ensures seenImports == old(seenImports) + Analyze(s, old(bindings), names).found
      decreases s, 3
    {
      ghost var b, o := AnalyzeBlock(s.body, bindings, names), AnalyzeBlock(s.orelse, bindings, names);
      PushedTwice(breakCollectors, b.broken, o.broken);
      VisitExpr(s.test);
      var before := bindings;
      VisitBlock(s.body, before, names);
      var body := bindings;
      VisitBlock(s.orelse, before, names);
      bindings := Join(body, bindings);
    }

    /** The body once, from the given head. */
    method VisitBody(s: Stmt, head: State, ghost names: set<string>)
      requires Valid() && IsLoop(s) && Fits(head, names) && BoundBy(s) <= names
      modifies this
      ensures Valid()
      ensures bindings == Round(s, head, names).after
      ensures breakCollectors == Pushed(old(breakCollectors), Round(s, head, names).broken)
      ensures seenImports == old(seenImports) + Round(s, head, names).found
      decreases s, 1
    {
      bindings := head;
      if s.For? {
        AfterStoresFits([s.target], {Unknown}, head);
        AssignTargets([s.target], {Unknown});
      } else {
        VisitExpr(s.test);
      }
      VisitBlock(s.body, bindings, names);
    }

    /** One round: the body from the head, and the head of the round after it. */
    method NextRound(s: Stmt, entry: State, head: State, ghost names: set<string>,
                     ghost rest: seq<Option<State>>, ghost top: Option<State>) returns (nextHead: State)
      requires Valid() && IsLoop(s) && Fits(head, names) && BoundBy(s) <= names && breakCollectors == rest + [top]
      modifies this
      ensures Valid() && nextHead == Join(Join(entry, head), Round(s, head, names).after)
      ensures breakCollectors == rest + [JoinBroken(top, Round(s, head, names).broken)]
      ensures seenImports == old(seenImports) + Round(s, head, names).found
      decreases s, 2
    {
      PushedTop(rest, top, Round(s, head, names).broken);
      VisitBody(s, head, names);
      nextHead := Join(Join(entry, head), bindings);
    }

    /** Rounds of the body until the head stops growing; breaks gather in the top collector. */
    method LoopBodyFixedPoint(s: Stmt, entry: State, ghost names: set<string>) returns (head: State)
      requires Valid() && s.For? && Fits(entry, names) && BoundBy(s) <= names
      requires breakCollectors != [] && breakCollectors[|breakCollectors| - 1] == None
      modifies this
      ensures Valid()
      ensures var l := LoopFlow(s, entry, entry, names);
        && head == l.after && seenImports == old(seenImports) + l.found
        && breakCollectors == old(breakCollectors)[..|old(breakCollectors)| - 1] + [l.broken]
      decreases s, 3
    {
      ghost var rest := breakCollectors[..|breakCollectors| - 1];
      ghost var whole := LoopFlow(s, entry, entry, names);
      ghost var top: Option<State> := None;
      ghost var gathered: set<Found> := {};
      head := entry;
      PendingStart(s, entry, names);
      hide Pending, LoopFlow, Round, BoundBy, Lattice, Pairs, Join, Pushed, JoinBroken, Valid, Fits;
      while true
        invariant Valid() && breakCollectors == rest + [top] && seenImports == old(seenImports) + gathered
        invariant Pending(s, entry, head, names, top, gathered, whole)
        decreases Lattice(names) - Pairs(head)
      {
        PendingRound(s, entry, head, names, top, gathered, whole);
        ghost var r := Round(s, head, names);
        var nextHead := NextRound(s, entry, head, names, rest, top);
        top, gathered := JoinBroken(top, r.broken), gathered + r.found;
        if nextHead == head { return; }
        head := nextHead;
      }
    }

    method VisitFor(s: Stmt, ghost names: set<string>)
      requires Valid() && s.For? && Fits(bindings, names) && BoundBy(s) <= names
      modifies this
      ensures Valid()
      ensures bindings == Analyze(s, old(bindings), names).after
      ensures breakCollectors == Pushed(old(breakCollectors), Analyze(s, old(bindings), names).broken)
      ensures seenImports == old(seenImports) + Analyze(s, old(bindings), names).found
      decreases s, 4
    {
      VisitExpr(s.iter);
      var entry := bindings;
      breakCollectors := breakCollectors + [None];
      var head := LoopBodyFixedPoint(s, entry, names);
      var breakExit := breakCollectors[|breakCollectors| - 1];
      breakCollectors := breakCollectors[..|breakCollectors| - 1];
      assert breakCollectors == old(breakCollectors);
      LeaveLoop(s, head, breakExit, LoopFlow(s, entry, entry, names), names);
    }

    /** Past the loop: the else block from the head, joined with the state at the breaks. */
    method LeaveLoop(s: Stmt, head: State, breakExit: Option<State>, ghost l: Flow, ghost names: set<string>)
      requires Valid() && IsLoop(s) && BoundBy(s) <= names && FlowFits(l, names)
      requires head == l.after && breakExit == l.broken
      modifies this
      ensures Valid()
      ensures bindings == Leave(s, {}, l, names).after
      ensures breakCollectors == Pushed(old(breakCollectors), Leave(s, {}, l, names).broken)
      ensures seenImports == old(seenImports) + AnalyzeBlock(s.orelse, head, names).found
      decreases s, 1
    {
      VisitBlock(s.orelse, head, names);
      var normalExit := if s.orelse != [] then bindings else head;
      bindings := if breakExit.Some? then Join(normalExit, breakExit.value) else normalExit;
    }

    /** As for a `for`, keeping the join of the states in which the test was evaluated. */
    method TestedFixedPoint(s: Stmt, entry: State, ghost names: set<string>) returns (normalExit: State)
      requires Valid() && s.While? && Fits(entry, names) && BoundBy(s) <= names
      requires breakCollectors != [] && breakCollectors[|breakCollectors| - 1] == None
      modifies this
      ensures Valid()
      ensures var l := LoopFlow(s, entry, entry, names);
        && normalExit == l.after && seenImports == old(seenImports) + l.found
        && breakCollectors == old(breakCollectors)[..|old(breakCollectors)| - 1] + [l.broken]
      decreases s, 3
    {
      ghost var rest := breakCollectors[..|breakCollectors| - 1];
      ghost var whole := LoopFlow(s, entry, entry, names);
      ghost var top: Option<State> := None;
      ghost var gathered: set<Found> := {};
      var head := entry;
      var joined: Option<State> := None;
      PendingStart(s, entry, names);
      hide Pending, LoopFlow, Round, BoundBy, Lattice, Pairs, Join, Pushed, JoinBroken, Valid, Fits;
      while true
        invariant Valid() && breakCollectors == rest + [top] && seenImports == old(seenImports) + gathered
        invariant joined.Some? ==> Join(joined.value, head) == head
        invariant Pending(s, entry, head, names, top, gathered, whole)
        decreases Lattice(names) - Pairs(head)
      {
        PendingRound(s, entry, head, names, top, gathered, whole);
        ghost var r := Round(s, head, names);
        joined := Some(if joined.None? then head else Join(joined.value, head));
        assert joined.value == head;
        var nextHead := NextRound(s, entry, head, names, rest, top);
        top, gathered := JoinBroken(top, r.broken), gathered + r.found;
        if nextHead == head { return joined.value; }
        head := nextHead;
      }
    }

    method VisitWhile(s: Stmt, ghost names: set<string>)
      requires Valid() && s.While? && Fits(bindings, names) && BoundBy(s) <= names
      modifies this
      ensures Valid()
      ensures bindings == Analyze(s, old(bindings), names).after
      ensures breakCollectors == Pushed(old(breakCollectors), Analyze(s, old(bindings), names).broken)
      ensures seenImports == old(seenImports) + Analyze(s, old(bindings), names).found
      decreases s, 4
    {
      var entry := bindings;
      breakCollectors := breakCollectors + [None];
      var normalExit := TestedFixedPoint(s, entry, names);
      var breakExit := breakCollectors[|breakCollectors| - 1];
      breakCollectors := breakCollectors[..|breakCollectors| - 1];
      assert breakCollectors == old(breakCollectors);
      LeaveLoop(s, normalExit, breakExit, LoopFlow(s, entry, entry, names), names);
    }
  }

  /** The whole run over one file. */
  method AnalyzeFile(program: seq<Stmt>) returns (a: Analyzer)
    ensures fresh(a) && a.Valid()
    ensures a.bindings == Analysis(program).after && a.seenImports == Analysis(program).found
  {
    a := new Analyzer();
    a.VisitBlock(program, a.bindings, NamesOf(program));
  }
}

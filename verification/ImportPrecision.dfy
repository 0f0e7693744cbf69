/**
  The analysis is monotone, and the head each loop stops at is the least state that
  absorbs its entry and its body's exit: the fixed point loses no precision.
 */
module ImportPrecision {
  import opened Options
  import opened ImportLanguage
  import opened DynamicImports
  import opened ImportSoundness

  ghost predicate FlowBelow(f: Flow, g: Flow) {
    Below(f.after, g.after) && BelowBroken(f.broken, g.broken) && f.found <= g.found
  }

  lemma {:induction false} BindingMonotone(e: Expr, s: State, t: State)
    requires Below(s, t)
    ensures Binding(e, s) <= Binding(e, t)
  {
    match e
    case Attribute(owner, _) => BindingMonotone(owner, s, t);
    case IfExp(_, body, orelse) => BindingMonotone(body, s, t); BindingMonotone(orelse, s, t);
    case _ =>
  }

  lemma {:induction false} FoundMonotone(e: Expr, s: State, t: State)
    requires Below(s, t)
    ensures FoundIn(e, s) <= FoundIn(e, t)
    decreases e, 1
  {
    match e
    case Attribute(owner, _) => FoundMonotone(owner, s, t);
    case IfExp(test, body, orelse) =>
      FoundMonotone(test, s, t); FoundMonotone(body, s, t); FoundMonotone(orelse, s, t);
    case BoolOr(left, right) => FoundMonotone(left, s, t); FoundMonotone(right, s, t);
    case Call(_, func, args, keywords) =>
      BindingMonotone(func, s, t);
      FoundMonotone(func, s, t); FoundAllMonotone(args, s, t); FoundKeywordsMonotone(keywords, s, t);
    case Composite(parts) => FoundAllMonotone(parts, s, t);
    case _ =>
  }

  lemma {:induction false} FoundAllMonotone(es: seq<Expr>, s: State, t: State)
    requires Below(s, t)
    ensures FoundInAll(es, s) <= FoundInAll(es, t)
    decreases es, 0
  {
    if es != [] { FoundMonotone(es[0], s, t); FoundAllMonotone(es[1..], s, t); }
  }

  lemma {:induction false} FoundKeywordsMonotone(ks: seq<Keyword>, s: State, t: State)
    requires Below(s, t)
    ensures FoundInKeywords(ks, s) <= FoundInKeywords(ks, t)
    decreases ks, 0
  {
    if ks != [] { FoundMonotone(ks[0].value, s, t); FoundKeywordsMonotone(ks[1..], s, t); }
  }

  lemma BindMonotone(id: string, b: set<Label>, c: set<Label>, s: State, t: State)
    requires Below(s, t) && b <= c
    ensures Below(s[id := b], t[id := c])
  {
    var u, v := s[id := b], t[id := c];
    forall x ensures Get(u, x) <= Get(v, x) {
      assert Get(s, x) <= Get(t, x);
    }
  }

  lemma ImportsMonotone(aliases: seq<Alias>, s: State, t: State)
    requires Below(s, t)
    ensures Below(AfterImports(aliases, s), AfterImports(aliases, t))
    decreases |aliases|
  {
    if aliases != [] {
      var id, o := BoundName(aliases[0], false), ImportedObject(aliases[0]);
      BindMonotone(id, {o}, {o}, s, t);
      ImportsMonotone(aliases[1..], s[id := {o}], t[id := {o}]);
    }
  }

  lemma MembersMonotone(origin: Option<string>, level: nat, members: seq<Alias>, s: State, t: State)
    requires Below(s, t)
    ensures Below(AfterMembers(origin, level, members, s), AfterMembers(origin, level, members, t))
    decreases |members|
  {
    if members != [] {
      var id, o := BoundName(members[0], true), ImportedMember(origin, level, members[0].dotted);
      BindMonotone(id, {o}, {o}, s, t);
      MembersMonotone(origin, level, members[1..], s[id := {o}], t[id := {o}]);
    }
  }

  lemma StoresMonotone(targets: seq<Target>, b: set<Label>, c: set<Label>, s: State, t: State)
    requires Below(s, t) && b <= c
    ensures FlowBelow(AfterStores(targets, b, s), AfterStores(targets, c, t))
    decreases |targets|
  {
    if targets != [] {
      match targets[0]
      case NameTarget(id) => BindMonotone(id, b, c, s, t); StoresMonotone(targets[1..], b, c, s[id := b], t[id := c]);
      case ExprTarget(place) => FoundMonotone(place, s, t); StoresMonotone(targets[1..], b, c, s, t);
    }
  }

  lemma JoinMonotone(s: State, t: State, u: State, v: State)
    requires Below(s, u) && Below(t, v)
    ensures Below(Join(s, t), Join(u, v))
  {
    hide Join;
    JoinBounds(u, v);
    JoinIsLeast(s, t, Join(u, v));
  }

  lemma JoinBrokenMonotone(s: Option<State>, t: Option<State>, u: Option<State>, v: Option<State>)
    requires BelowBroken(s, u) && BelowBroken(t, v)
    ensures BelowBroken(JoinBroken(s, t), JoinBroken(u, v))
  {
    JoinBrokenBounds(s, t);
    JoinBrokenBounds(u, v);
    if s.Some? && t.Some? { JoinMonotone(s.value, t.value, u.value, v.value); }
  }

  lemma {:induction false} AnalyzeMonotone(s: Stmt, p: State, q: State, names: set<string>)
    requires BoundBy(s) <= names && Fits(p, names) && Fits(q, names) && Below(p, q)
    ensures FlowBelow(Analyze(s, p, names), Analyze(s, q, names))
    decreases s, 4
  {
    match s
    case Import(aliases) => ImportsMonotone(aliases, p, q);
    case ImportFrom(origin, level, members) => MembersMonotone(origin, level, members, p, q);
    case Assign(targets, value) =>
      BindingMonotone(value, p, q);
      FoundMonotone(value, p, q);
      StoresMonotone(targets, Binding(value, p), Binding(value, q), p, q);
    case ExprStmt(e) => FoundMonotone(e, p, q);
    case If(test, body, orelse) =>
      FoundMonotone(test, p, q);
      BlockMonotone(body, p, q, names);
      BlockMonotone(orelse, p, q, names);
      var a, b := AnalyzeBlock(body, p, names), AnalyzeBlock(body, q, names);
      var c, d := AnalyzeBlock(orelse, p, names), AnalyzeBlock(orelse, q, names);
      JoinMonotone(a.after, c.after, b.after, d.after);
      JoinBrokenMonotone(a.broken, c.broken, b.broken, d.broken);
    case For(_, iter, _, _) =>
      FoundMonotone(iter, p, q);
      LoopMonotone(s, p, q, names, FoundIn(iter, p), FoundIn(iter, q));
    case While(_, _, _) => LoopMonotone(s, p, q, names, {}, {});
    case Break =>
    case Continue =>
  }

  lemma {:induction false} BlockMonotone(ss: seq<Stmt>, p: State, q: State, names: set<string>)
    requires Bound(ss) <= names && Fits(p, names) && Fits(q, names) && Below(p, q)
    ensures FlowBelow(AnalyzeBlock(ss, p, names), AnalyzeBlock(ss, q, names))
    decreases ss, 0
  {
    if ss != [] {
      AnalyzeMonotone(ss[0], p, q, names);
      var a, b := Analyze(ss[0], p, names), Analyze(ss[0], q, names);
      BlockMonotone(ss[1..], a.after, b.after, names);
      JoinBrokenMonotone(a.broken, AnalyzeBlock(ss[1..], a.after, names).broken,
                         b.broken, AnalyzeBlock(ss[1..], b.after, names).broken);
    }
  }

  lemma {:induction false} RoundMonotone(loop: Stmt, p: State, q: State, names: set<string>)
    requires IsLoop(loop) && BoundBy(loop) <= names && Fits(p, names) && Fits(q, names) && Below(p, q)
    ensures FlowBelow(Round(loop, p, names), Round(loop, q, names))
    decreases loop, 0
  {
    if loop.For? {
      StoresMonotone([loop.target], {Unknown}, {Unknown}, p, q);
    } else {
      FoundMonotone(loop.test, p, q);
    }
    BlockMonotone(loop.body, EnterBody(loop, p, names).after, EnterBody(loop, q, names).after, names);
  }

  /** Whatever absorbs the entry and its own round lies above the state the loop stops at. */
  lemma {:induction false} LoopHeadIsLeast(loop: Stmt, entry: State, head: State, names: set<string>, bound: Flow)
    requires IsLoop(loop) && BoundBy(loop) <= names && Fits(entry, names) && Fits(head, names)
    requires Settled(loop, bound, names) && Below(entry, bound.after) && Below(head, bound.after)
    ensures FlowBelow(LoopFlow(loop, entry, head, names), bound)
    decreases loop, 1, Lattice(names) - Pairs(head)
  {
    var r := Round(loop, head, names);
    var next := NextHead(entry, head, r.after);
    RoundMonotone(loop, head, bound.after, names);
    if next != head {
      HeadGrows(entry, head, r.after, names);
      JoinIsLeast(entry, head, bound.after);
      JoinIsLeast(Join(entry, head), r.after, bound.after);
      LoopHeadIsLeast(loop, entry, next, names, bound);
      JoinBrokenBelow(r.broken, LoopFlow(loop, entry, next, names).broken, bound.broken);
    }
  }

  lemma JoinBrokenBelow(s: Option<State>, t: Option<State>, u: Option<State>)
    requires BelowBroken(s, u) && BelowBroken(t, u)
    ensures BelowBroken(JoinBroken(s, t), u)
  {
    if s.Some? && t.Some? { JoinIsLeast(s.value, t.value, u.value); }
  }

  lemma {:induction false} LoopMonotone(s: Stmt, p: State, q: State, names: set<string>, b: set<Found>, c: set<Found>)
    requires IsLoop(s) && BoundBy(s) <= names && Fits(p, names) && Fits(q, names) && Below(p, q) && b <= c
    ensures FlowBelow(Leave(s, b, LoopFlow(s, p, p, names), names), Leave(s, c, LoopFlow(s, q, q, names), names))
    decreases s, 3
  {
    var l, m := LoopFlow(s, p, p, names), LoopFlow(s, q, q, names);
    LoopHeadAbsorbs(s, q, q, names);
    LoopHeadIsLeast(s, p, p, names, m);
    BlockMonotone(s.orelse, l.after, m.after, names);
    LeaveMonotone(s, l, m, names, b, c);
  }

  lemma LeaveMonotone(s: Stmt, l: Flow, m: Flow, names: set<string>, b: set<Found>, c: set<Found>)
    requires IsLoop(s) && BoundBy(s) <= names && FlowFits(l, names) && FlowFits(m, names) && FlowBelow(l, m) && b <= c
    requires FlowBelow(AnalyzeBlock(s.orelse, l.after, names), AnalyzeBlock(s.orelse, m.after, names))
    ensures FlowBelow(Leave(s, b, l, names), Leave(s, c, m, names))
  {
    var e, g := AnalyzeBlock(s.orelse, l.after, names), AnalyzeBlock(s.orelse, m.after, names);
    if m.broken.Some? {
      JoinBounds(g.after, m.broken.value);
      if l.broken.Some? { JoinMonotone(e.after, l.broken.value, g.after, m.broken.value); }
    }
  }
}

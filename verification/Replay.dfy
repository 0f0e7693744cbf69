/**
  Append and replay, and what they promise over whole runs: a ledger is determined by its
  header and events, replays converge from every prefix, and the last prefix hash seals
  every event.
 */
module Replay {
  import opened Options
  import opened Decimals
  import opened Contracts
  import opened Accounts
  import opened CorporateActions
  import opened Ledger
  import opened LedgerSteps
  import opened LedgerInvariants
  import opened Accounting
  import opened AuditCompleteness

  /** One append: a known event changes nothing, another one under its identifier is a conflict. */
  function Append(s: State, e: Event): Option<State> {
    var _ :- Need(WellFormed(e));
    if e.id in s.eventIds then
      var _ :- Need(s.eventIds[e.id] == e);
      Some(s)
    else
      var _ :- Need(Follows(s, e));
      var t :- Propose(s, e);
      var _ :- Need(CheckProposed(s.balance, e, t.balance));
      Some(t)
  }

  /** All of these events appended. */
  function Run(s: State, events: seq<Event>): Option<State>
    decreases |events|
  {
    if events == [] then Some(s)
    else var t :- Append(s, events[0]); Run(t, events[1..])
  }

  datatype Replayed = Replayed(state: State, complete: bool)

  /** Replay stops at the first rejected event and keeps what was accepted before it. */
  function ReplayAll(s: State, events: seq<Event>): Replayed
    decreases |events|
  {
    if events == [] then Replayed(s, true)
    else
      match Append(s, events[0])
      case None => Replayed(s, false)
      case Some(t) => ReplayAll(t, events[1..])
  }

  // ----- The event record -----

  function LastDigest(h: Header, events: seq<Event>): Digest {
    if events == [] then GenesisHash(h)
    else PrefixHash(LastDigest(h, events[..|events| - 1]), events[|events| - 1])
  }

  lemma LastDigestExtends(h: Header, events: seq<Event>, e: Event)
    ensures LastDigest(h, events + [e]) == PrefixHash(LastDigest(h, events), e)
  {
    hide PrefixHash, GenesisHash;
    assert (events + [e])[..|events|] == events;
  }

  predicate Recorded(s: State) {
    && |s.events| == |s.balance.prefixes| && LastPrefix(s.balance) == LastDigest(s.balance.header, s.events)
    && (forall e | e in s.events :: WellFormed(e) && e.id in s.eventIds && s.eventIds[e.id] == e)
  }

  lemma RecordedStep(s: State, e: Event, t: State)
    requires Recorded(s) && Accepted(s, e, t) && e.id !in s.eventIds
    ensures Recorded(t)
  {
    hide WellFormed, Propose, GenesisHash, PrefixHash, LastDigest, WithinWindow, Total, EconomicTime, ObservedAt, Later;
    AnyStep(s, e, t);
    LastDigestExtends(s.balance.header, s.events, e);
  }

  /** Everything known of a reachable ledger: it is its own replay, and the invariants hold. */
  ghost predicate Valid(s: State) {
    && ValidHeader(s.balance.header) && Run(Open(s.balance.header), s.events) == Some(s)
    && Recorded(s) && Holds(s)
  }

  lemma OpenIsValid(h: Header)
    requires ValidHeader(h)
    ensures Valid(Open(h)) && Open(h).balance.header == h
  {
    OpenHolds(h);
    hide ValidHeader, Holds;
  }

  lemma ValidParts(s: State)
    requires Valid(s)
    ensures Recorded(s) && Totalled(s.balance) && Balanced(s) && Telescopes(s) && Settled(s.balance)
  {
    hide Run, Recorded, Totalled, Balanced, Telescopes, Settled, ValidHeader;
  }

  lemma {:induction false} RunConcat(s: State, xs: seq<Event>, ys: seq<Event>)
    ensures Run(s, xs + ys) == match Run(s, xs) case None => None case Some(t) => Run(t, ys)
    decreases |xs|
  {
    hide Append;
    if xs == [] {
      assert xs + ys == ys;
    } else {
      assert (xs + ys)[0] == xs[0] && (xs + ys)[1..] == xs[1..] + ys;
      if Append(s, xs[0]).Some? { RunConcat(Append(s, xs[0]).value, xs[1..], ys); }
    }
  }

  /** A new event is accepted exactly when the ledger can propose its effect: the audit agrees with every proposal. */
  lemma AuditNeverRejects(s: State, e: Event)
    requires Valid(s) && e.id !in s.eventIds
    ensures Append(s, e) == if WellFormed(e) && Follows(s, e) then Propose(s, e) else None
  {
    hide WellFormed, Follows, Propose, CheckProposed, Holds;
    if WellFormed(e) && Follows(s, e) && Propose(s, e).Some? {
      AuditAccepts(s, e, Propose(s, e).value);
    }
  }

  lemma AppendSteps(s: State, e: Event, t: State)
    requires Append(s, e) == Some(t)
    ensures if e.id in s.eventIds then t == s && Lookup(s.eventIds, e.id) == Some(e) else Accepted(s, e, t)
  {
    hide WellFormed, Follows, Propose, CheckProposed;
  }

  /** Appending keeps a ledger valid: rebuilt by replaying its own events from its header. */
  lemma AppendIsValid(s: State, e: Event, t: State)
    requires Valid(s) && Append(s, e) == Some(t)
    ensures Valid(t) && t.balance.header == s.balance.header
  {
    hide WellFormed, Accepted, Append, Holds, Recorded, ValidHeader, Open, WithinWindow, Total, EconomicTime, ObservedAt, Later, PrefixHash;
    AppendSteps(s, e, t);
    if e.id !in s.eventIds {
      AnyStep(s, e, t);
      StepHolds(s, e, t);
      RecordedStep(s, e, t);
      RunConcat(Open(s.balance.header), s.events, [e]);
      assert [e][1..] == [] && Run(t, []) == Some(t);
    }
  }

  lemma {:induction false} RunIsValid(s: State, events: seq<Event>, t: State)
    requires Valid(s) && Run(s, events) == Some(t)
    ensures Valid(t) && t.balance.header == s.balance.header
    decreases |events|
  {
    hide Append, Valid;
    if events != [] {
      var next := Append(s, events[0]).value;
      AppendIsValid(s, events[0], next);
      RunIsValid(next, events[1..], t);
    }
  }

  // ----- Replay -----

  /** Appending an accepted event again changes nothing, then or ever after. */
  lemma ReappendIsNothing(s: State, e: Event)
    requires Valid(s) && e in s.events
    ensures Append(s, e) == Some(s)
  {
    hide WellFormed, Follows, Propose, CheckProposed, Holds, Run;
  }

  lemma {:induction false} KnownEventsAreNothing(s: State, events: seq<Event>)
    requires Valid(s) && forall e | e in events :: e in s.events
    ensures Run(s, events) == Some(s)
    decreases |events|
  {
    hide Append, Valid;
    if events != [] {
      ReappendIsNothing(s, events[0]);
      KnownEventsAreNothing(s, events[1..]);
    }
  }

  /** A ledger is determined by its header and its events. */
  lemma EventsDetermineLedger(s: State, t: State)
    requires Valid(s) && Valid(t) && s.balance.header == t.balance.header && s.events == t.events
    ensures s == t
  {
    hide Run, Recorded, Holds, ValidHeader;
  }

  /** Replaying a ledger's events, on a fresh ledger or one already holding any first part of them, ends in that ledger. */
  lemma ReplayConverges(s: State, held: State)
    requires Valid(s) && Valid(held) && held.balance.header == s.balance.header && held.events <= s.events
    ensures Run(held, s.events) == Some(s)
  {
    hide Recorded, Holds, Run, ValidHeader, Open;
    var k := |held.events|;
    var head, tail := s.events[..k], s.events[k..];
    assert s.events == head + tail && head == held.events;
    assert Run(Open(s.balance.header), head) == Some(held) && Run(Open(s.balance.header), head + tail) == Some(s);
    hide Valid;
    RunConcat(Open(s.balance.header), head, tail);
    KnownEventsAreNothing(held, head);
    RunConcat(held, head, tail);
  }

  /** Replay accepts everything, or stops at the first event that cannot be appended with exactly what came before. */
  lemma {:induction false} ReplayKeepsAcceptedPrefix(s: State, events: seq<Event>)
    ensures var r := ReplayAll(s, events);
      if r.complete then Run(s, events) == Some(r.state)
      else exists k | 0 <= k < |events| :: Run(s, events[..k]) == Some(r.state) && Append(r.state, events[k]).None?
    decreases |events|
  {
    hide Append;
    if events != [] {
      match Append(s, events[0])
      case None =>
        assert Run(s, events[..0]) == Some(s);
      case Some(t) =>
        ReplayKeepsAcceptedPrefix(t, events[1..]);
        var r := ReplayAll(t, events[1..]);
        if !r.complete {
          var k :| 0 <= k < |events[1..]| && Run(t, events[1..][..k]) == Some(r.state) && Append(r.state, events[1..][k]).None?;
          assert events[..k + 1][1..] == events[1..][..k] && events[..k + 1][0] == events[0];
          assert events[1..][k] == events[k + 1];
          assert Run(s, events[..k + 1]) == Some(r.state);
        }
    }
  }

  /** A complete replay on a fresh ledger leaves a ledger its own events rebuild, however often events were repeated. */
  lemma ReplayRebuilds(h: Header, events: seq<Event>, s: State)
    requires ValidHeader(h) && ReplayAll(Open(h), events) == Replayed(s, true)
    ensures Valid(s) && s.balance.header == h && ReplayAll(Open(h), s.events) == Replayed(s, true)
  {
    hide ValidHeader;
    OpenIsValid(h);
    ReplayKeepsAcceptedPrefix(Open(h), events);
    RunIsValid(Open(h), events, s);
    assert Run(Open(h), s.events) == Some(s);
    hide Open, Valid;
    RunIsReplay(Open(h), s.events, s);
  }

  lemma {:induction false} RunIsReplay(s: State, events: seq<Event>, t: State)
    requires Run(s, events) == Some(t)
    ensures ReplayAll(s, events) == Replayed(t, true)
    decreases |events|
  {
    hide Append;
    if events != [] { RunIsReplay(Append(s, events[0]).value, events[1..], t); }
  }

  // ----- Tamper evidence -----

  function CanonicalEvents(events: seq<Event>): seq<Event> {
    if events == [] then [] else CanonicalEvents(events[..|events| - 1]) + [Canonical(events[|events| - 1])]
  }

  lemma {:induction false} DigestSeals(h: Header, xs: seq<Event>, g: Header, ys: seq<Event>)
    ensures LastDigest(h, xs) == LastDigest(g, ys) <==>
      CanonicalHeader(h) == CanonicalHeader(g) && CanonicalEvents(xs) == CanonicalEvents(ys)
    decreases |xs|
  {
    hide Canonical, CanonicalHeader;
    if xs != [] && ys != [] {
      DigestSeals(h, xs[..|xs| - 1], g, ys[..|ys| - 1]);
      var x, y := CanonicalEvents(xs), CanonicalEvents(ys);
      assert x[..|x| - 1] == CanonicalEvents(xs[..|xs| - 1]) && y[..|y| - 1] == CanonicalEvents(ys[..|ys| - 1]);
      assert x[|x| - 1] == Canonical(xs[|xs| - 1]) && y[|y| - 1] == Canonical(ys[|ys| - 1]);
    }
  }

  /**
    Two ledgers end in the same prefix hash exactly when their headers and their whole event
    lists serialize alike.
   */
  lemma LastPrefixSeals(s: State, t: State)
    requires Valid(s) && Valid(t)
    ensures LastPrefix(s.balance) == LastPrefix(t.balance) <==>
      CanonicalHeader(s.balance.header) == CanonicalHeader(t.balance.header) && CanonicalEvents(s.events) == CanonicalEvents(t.events)
  {
    DigestSeals(s.balance.header, s.events, t.balance.header, t.events);
    hide Run, Holds, LastDigest, CanonicalEvents, CanonicalHeader, LastPrefix;
  }

  /** Serializing loses nothing but the trailing zeros of an obligation's amount. */
  lemma CanonicalLoses(d: Event, e: Event)
    ensures Canonical(d) == Canonical(e) <==>
      d == e || (d.body.ObligationBody? && e.body.ObligationBody? && Same(d.body.amount, e.body.amount)
                 && d == e.(body := e.body.(amount := d.body.amount)))
  {
    hide Wire, V;
    if d.body.ObligationBody? && e.body.ObligationBody? { WireIsCanonical(d.body.amount, e.body.amount); }
  }

  /** The event with the amount of an obligation spelled with one more trailing zero. */
  function Respelled(e: Event): Event {
    if e.body.ObligationBody? then e.(body := e.body.(amount := Dec(10 * e.body.amount.coef, e.body.amount.exp - 1))) else e
  }

  lemma RespelledHash(e: Event)
    requires e.body.ObligationBody?
    ensures Respelled(e) != e && Respelled(e).id == e.id && Canonical(Respelled(e)) == Canonical(e)
  {
    hide Wire, V, Canonical;
    Shed(Respelled(e).body.amount);
    CanonicalLoses(Respelled(e), e);
  }

  /** The same amount spelled with another trailing zero has the same hash, yet appending it is a conflict. */
  lemma SpellingIsNotSealed(s: State, e: Event)
    requires Valid(s) && e in s.events && e.body.ObligationBody?
    ensures PrefixHash(e.previous, Respelled(e)) == PrefixHash(e.previous, e) && Append(s, Respelled(e)) == None
  {
    RespelledHash(e);
    assert Recorded(s);
    hide Respelled, Canonical, Valid, WellFormed, Follows, Propose, CheckProposed, LastDigest, LastPrefix;
  }
}

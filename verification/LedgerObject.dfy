/**
  The ledger object and the working copies it changes: append and replay publish a new state
  or leave the old one, and each posting changes its copies exactly as the state machine says.
 */
module LedgerObject {
  import opened Options
  import opened Decimals
  import opened Contracts
  import opened Accounts
  import opened CorporateActions
  import opened Machine = Ledger
  import opened LedgerSteps
  import opened LedgerInvariants
  import opened Accounting
  import opened AuditCompleteness
  import opened Runs = Replay

  /** Copies of a state's dictionaries, changed in place by one posting. */
  class Books {
    var positions: map<Id, Dec>
    var obligations: map<ObligationId, Obligation>
    var owners: map<Id, Ownership>
    var policies: map<Id, Policy>
    var slots: map<SlotKey, Slot>
    var slotPolicies: map<SlotKey, Policy>
    var fillIds: set<Fill>
    var instruments: set<Id>

    predicate CopiesOf(s: State)
      reads this
    {
      && positions == s.balance.positions && obligations == s.balance.obligations && owners == s.balance.owners
      && policies == s.policies && slots == s.balance.slots && slotPolicies == s.slotPolicies
      && fillIds == s.balance.fillIds && instruments == s.balance.instruments
    }

    constructor (s: State)
      ensures CopiesOf(s)
    {
      positions, obligations, owners, policies := s.balance.positions, s.balance.obligations, s.balance.owners, s.policies;
      slots, slotPolicies, fillIds, instruments := s.balance.slots, s.slotPolicies, s.balance.fillIds, s.balance.instruments;
    }

    /** Posts a fill to the copies; the result is the new cash and fee total. */
    method ApplyFill(s: State, p: Posting) returns (r: Option<(Dec, Dec)>)
      requires CopiesOf(s)
      modifies this
      ensures r.Some? <==> PostFill(s, p).Some?
      ensures r.Some? ==> CopiesOf(PostFill(s, p).value)
      ensures r.Some? ==> r.value == (PostFill(s, p).value.balance.cash, PostFill(s, p).value.balance.fees)
    {
      hide V, Fits, FeeDue, Add, Mul, Sub, InRange, Checked, Exact, FillAllowed, Signed, Closes, FillMoves, KeyOf, FillId;
      if !FillAllowed(s, p) { return None; }
      var moved := FillMoves(s.balance, p);
      if moved.None? { return None; }
      var m, intentId, instrument := moved.value, p.intent.intentId, p.intent.instrument;
      FillLeaves(s, p, m);
      hide PostFill;
      if V(m.position) == 0.0 {
        positions := positions - {instrument};
      } else {
        positions := positions[instrument := m.position];
      }
      fillIds := fillIds + {FillId(p.fill)};
      instruments := instruments + {instrument};
      var prior := if intentId in owners then owners[intentId].fills else [];
      owners := owners[intentId := Ownership(p.intent, m.after, m.dueAfter, p.policy.version, p.policy.shareCap, p.outcome.session,
                                            Closes(p.intent, m.after), prior + [FillId(p.fill)])];
      policies := policies[intentId := p.policy];
      slots := slots[KeyOf(p) := Slot(m.capAfter, p.policy.shareCap, p.policy.version)];
      slotPolicies := slotPolicies[KeyOf(p) := p.policy];
      r := Some((m.cash, m.fees));
    }

    /** Posts an obligation to the copies; the result is the new cash, income and expense. */
    method ApplyObligation(s: State, e: Body) returns (r: Option<(Dec, Dec, Dec)>)
      requires CopiesOf(s) && e.ObligationBody?
      modifies this`obligations
      ensures r.Some? <==> PostObligation(s.balance, e).Some?
      ensures r.Some? ==>
        PostObligation(s.balance, e).value == s.balance.(
          obligations := obligations, cash := r.value.0, income := r.value.1, expense := r.value.2)
    {
      hide V, Fits, Add, Sub, InRange, Checked;
      var b := s.balance;
      if Claimed(ActionsOf(b), e.obligation) { return None; }
      if e.step == Create {
        if e.obligation in obligations || |obligations| >= MAX_OBLIGATIONS { return None; }
        obligations := obligations[e.obligation := Obligation(e.kind, e.amount, e.amount, e.dueAt, e.economicTime)];
        var sum := if e.kind == Receivable then Add(b.income, e.amount) else Add(b.expense, e.amount);
        if !Fits(sum) { return None; }
        var total := Checked(sum, Money, false);
        if total.None? { return None; }
        return Some(if e.kind == Receivable then (b.cash, total.value, b.expense) else (b.cash, b.income, total.value));
      }
      if e.obligation !in obligations { return None; }
      var prior := obligations[e.obligation];
      if prior.kind != e.kind || prior.dueAt != e.dueAt || e.economicTime < prior.dueAt || V(e.amount) > V(prior.remaining) {
        return None;
      }
      var left := Sub(prior.remaining, e.amount);
      if !Fits(left) { return None; }
      var remaining := Checked(left, Money, false);
      if remaining.None? { return None; }
      obligations := obligations[e.obligation := prior.(remaining := remaining.value)];
      var moved := if e.kind == Receivable then Add(b.cash, e.amount) else Sub(b.cash, e.amount);
      if !Fits(moved) { return None; }
      var cash := Checked(moved, Money, false);
      if cash.None? { return None; }
      return Some((cash.value, b.income, b.expense));
    }
  }

  lemma FillLeaves(s: State, p: Posting, m: Moves)
    requires FillAllowed(s, p) && FillMoves(s.balance, p) == Some(m)
    ensures PostFill(s, p).Some?
    ensures var t := PostFill(s, p).value;
      && t.policies == s.policies[p.intent.intentId := p.policy] && t.slotPolicies == s.slotPolicies[KeyOf(p) := p.policy]
      && t.balance.positions == Placed(s.balance.positions, p.intent.instrument, m.position)
      && t.balance.owners == s.balance.owners[p.intent.intentId := NewOwner(s.balance, p, m)]
      && t.balance.slots == s.balance.slots[KeyOf(p) := NewSlot(p, m)] && t.balance.obligations == s.balance.obligations
      && t.balance.fillIds == s.balance.fillIds + {FillId(p.fill)}
      && t.balance.instruments == s.balance.instruments + {p.intent.instrument}
      && t.balance.cash == m.cash && t.balance.fees == m.fees
  {
    hide FillAllowed, FillMoves, Placed, NewOwner, NewSlot, KeyOf, FillId;
  }

  /** The in-memory ledger: one state, replaced as a whole. */
  class EventLedger {
    var state: State

    ghost predicate Valid()
      reads this
    {
      Runs.Valid(state)
    }

    constructor Opened(h: Header)
      requires ValidHeader(h)
      ensures Valid() && state == Open(h)
    {
      state := Open(h);
      new;
      OpenIsValid(h);
    }

    /** A ledger for this header, or nothing if the opening cash or times are out of range. */
    static method Create(h: Header) returns (ledger: EventLedger?)
      ensures ledger == null <==> !ValidHeader(h)
      ensures ledger != null ==> fresh(ledger) && ledger.Valid() && ledger.state == Open(h)
    {
      if ValidHeader(h) { ledger := new EventLedger.Opened(h); } else { ledger := null; }
    }

    /** Publishes the state proposed for an event once the audit has passed it, or changes nothing. */
    method Append(e: Event) returns (accepted: bool)
      requires Valid()
      modifies this
      ensures Valid() && state.balance.header == old(state).balance.header
      ensures accepted == Runs.Append(old(state), e).Some?
      ensures state == Runs.Append(old(state), e).GetOr(old(state))
      ensures accepted && e.id !in old(state).eventIds ==> state.events == old(state).events + [e]
    {
      hide WellFormed, Follows, Propose, CheckProposed, Runs.Append, Runs.Valid;
      AppendCases(state, e);
      if Runs.Append(state, e).Some? { AppendIsValid(state, e, Runs.Append(state, e).value); }
      if !WellFormed(e) { return false; }
      if e.id in state.eventIds { return state.eventIds[e.id] == e; }
      if !Follows(state, e) { return false; }
      var proposed := Propose(state, e);
      if proposed.None? { return false; }
      if !CheckProposed(state.balance, e, proposed.value.balance) { return false; }
      state := proposed.value;
      accepted := true;
    }

    /** Appends the events in order, stopping at the first rejected one. */
    method Replay(events: seq<Event>) returns (accepted: bool)
      requires Valid()
      modifies this
      ensures Valid() && state.balance.header == old(state).balance.header
      ensures |events| > MAX_EVENTS ==> !accepted && state == old(state)
      ensures |events| <= MAX_EVENTS ==> ReplayAll(old(state), events) == Replayed(state, accepted)
    {
      hide Runs.Valid, Runs.Append;
      if |events| > MAX_EVENTS { return false; }
      var i := 0;
      while i < |events|
        invariant 0 <= i <= |events| && Valid() && state.balance.header == old(state).balance.header
        invariant ReplayAll(old(state), events) == ReplayAll(state, events[i..])
      {
        assert events[i..][0] == events[i] && events[i..][1..] == events[i + 1..];
        var ok := Append(events[i]);
        if !ok { return false; }
        i := i + 1;
      }
      accepted := true;
    }
  }

  lemma AppendCases(s: State, e: Event)
    ensures !WellFormed(e) ==> Runs.Append(s, e).None?
    ensures WellFormed(e) && e.id in s.eventIds ==> Runs.Append(s, e) == if s.eventIds[e.id] == e then Some(s) else None
    ensures WellFormed(e) && e.id !in s.eventIds && !Follows(s, e) ==> Runs.Append(s, e).None?
    ensures WellFormed(e) && e.id !in s.eventIds && Follows(s, e) ==>
      Runs.Append(s, e) ==
        if Propose(s, e).Some? && CheckProposed(s.balance, e, Propose(s, e).value.balance) then Propose(s, e) else None
    ensures Runs.Append(s, e).Some? && e.id !in s.eventIds ==> Runs.Append(s, e).value.events == s.events + [e]
  {
    hide WellFormed, Follows, Propose, CheckProposed, Accepted;
    if Runs.Append(s, e).Some? {
      AppendSteps(s, e, Runs.Append(s, e).value);
      if e.id !in s.eventIds { AnyStep(s, e, Runs.Append(s, e).value); }
    }
  }
}

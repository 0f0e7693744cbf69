/**
  What holds of every event of a reachable ledger: fills are priced on their side of the market
  and decided before it opened, batches use no evidence from after their opening, events are in
  the order of their times, and a payment batch pays what has fallen due.
 */
module RunEvents {
  import opened Options
  import opened Decimals
  import opened Contracts
  import opened Accounts
  import opened CorporateActions
  import opened Ledger
  import opened LedgerSteps
  import opened LedgerInvariants
  import opened BatchInvariants
  import opened BatchEffects
  import opened SelectionAdmission
  import opened Replay

  // ----- One event -----

  /** Decided and created before the first session opened, executed in the order's life, on the evidence it asked for, known after the close. */
  predicate Foreseen(p: Posting) {
    && p.outcome.instrument == p.intent.instrument && p.outcome.calendarId == p.intent.calendarId
    && p.outcome.source == p.intent.outcomeSource && p.outcome.revision == p.intent.outcomeRevision
    && p.intent.decisionTime <= p.intent.createdAt < p.binding.firstOpen
    && p.binding.earliestExecution <= p.intent.earliestSubmit <= p.outcome.closeAt <= p.intent.expiresAt
    && p.outcome.closeAt < p.outcome.receivedAt && p.intent.firstSession <= p.outcome.session
    && (p.intent.timeInForce != Gtc ==> p.outcome.session == p.intent.firstSession)
  }

  /** Records of a batch and their terms were available at the opening of the day they take effect, mergers at the batch's. */
  predicate AllInformed(b: Batch) { (forall a | a in b.actions :: Informed(a, b)) && forall m | m in b.mergers :: Available(m.manifest, b.session.openAt, b) }

  predicate Sensible(body: Body) {
    match body
    case FillBody(p) => Priced(p) && WithinLimit(p.intent, p.fill.price) && Foreseen(p)
    case ObligationBody(_, step, _, amount, economic, observed, due) => V(amount) > 0.0 && economic <= observed && (step == Create ==> economic <= due)
    case BatchBody(b) => AllInformed(b)
  }

  lemma PostingParts(p: Posting)
    requires ValidPosting(p)
    ensures Same(p.fill.price, AdversePrice(p.outcome.close, p.intent.side, p.policy)) && ValidPolicy(p.policy) && ValidReference(p.outcome.close)
    ensures Foreseen(p) && WithinLimit(p.intent, p.fill.price)
  {
    LimitHolds(p.intent, p.fill.price);
    hide V, AdversePrice, FloorLots, LotQuantity, FeeDue, FillInRange, ValidPolicy, ValidReference, Sub;
  }

  lemma SelectedInformed(b: Batch, before: Balance)
    requires ValidBatch(b) && Select(b, before).Some?
    ensures AllInformed(b)
  {
    hide V, Select, ValidAction, ValidReferenceRecord, ValidMerger, Informed, Available, Revises, Fitting, ActionsPass, NewsPass, ActionsOf;
    SelectAdmits(b, before);
  }

  lemma BodySensible(s: State, e: Event, t: State)
    requires Accepted(s, e, t)
    ensures Sensible(e.body)
  {
    hide V, Follows, PostFill, PostObligation, Sealed, WithinWindow, ValidPosting, ValidBatch, Select, Priced, WithinLimit, Foreseen, AllInformed, InRange;
    match e.body
    case FillBody(p) => PostingParts(p); AdverseIsPriced(p);
    case ObligationBody(_, _, _, _, _, _, _) =>
    case BatchBody(b) => SelectedInformed(b, s.balance);
  }

  // ----- All events -----

  /** When the economics of an event happened: at the close it was filled at, at the posted time, at the opening. */
  function Happened(body: Body): Time {
    match body
    case FillBody(p) => p.outcome.closeAt
    case ObligationBody(_, _, _, _, economic, _, _) => economic
    case BatchBody(b) => b.session.openAt
  }

  /** When it was known: on receipt of the outcome, when it was observed, at the opening. */
  function KnownAt(body: Body): Time {
    match body
    case FillBody(p) => p.outcome.receivedAt
    case ObligationBody(_, _, _, _, _, observed, _) => observed
    case BatchBody(b) => b.session.openAt
  }

  /** Events are in time order within the ledger's window, and the balance names the latest times of all. */
  ghost predicate InTime(s: State) {
    && (forall i, j | 0 <= i <= j < |s.events| :: Happened(s.events[i].body) <= Happened(s.events[j].body))
    && (forall e | e in s.events :: s.balance.header.openingTime <= Happened(e.body) <= KnownAt(e.body) <= s.balance.header.cutoff)
    && (if s.events == [] then s.balance.latestEconomic == None && s.balance.latestObserved == None
        else
          && s.balance.latestEconomic == Some(Happened(s.events[|s.events| - 1].body))
          && s.balance.latestObserved.Some?
          && (exists e :: e in s.events && KnownAt(e.body) == s.balance.latestObserved.value)
          && forall e | e in s.events :: KnownAt(e.body) <= s.balance.latestObserved.value)
  }

  ghost predicate Sound(s: State) { InTime(s) && forall e | e in s.events :: Sensible(e.body) }

  lemma TimesAre(body: Body)
    ensures EconomicTime(body) == Happened(body) && ObservedAt(body) == KnownAt(body)
  {
  }

  lemma KnownAfter(e: Event)
    requires Sensible(e.body)
    ensures Happened(e.body) <= KnownAt(e.body)
  {
    hide V, Priced, AllInformed;
  }

  lemma StepInTime(s: State, e: Event, t: State)
    requires InTime(s) && Accepted(s, e, t) && Sensible(e.body)
    ensures InTime(t)
  {
    hide Accepted, Sensible, Happened, KnownAt, EconomicTime, ObservedAt, PrefixHash, Total;
    AnyStep(s, e, t);
    TimesAre(e.body);
    KnownAfter(e);
    var n := |s.events|;
    assert t.events[n] == e && forall i | 0 <= i < n :: t.events[i] == s.events[i];
    forall i | 0 <= i < n ensures Happened(s.events[i].body) <= Happened(e.body) { assert s.events[i] in s.events; }
    assert e in t.events;
  }

  lemma {:induction false} RunSound(s: State, events: seq<Event>, t: State)
    requires Valid(s) && Sound(s) && Replay.Run(s, events) == Some(t)
    ensures Sound(t)
    decreases |events|
  {
    hide Append, Valid, Sound;
    if events != [] {
      var u := Append(s, events[0]).value;
      AppendIsValid(s, events[0], u);
      AppendSound(s, events[0], u);
      RunSound(u, events[1..], t);
    }
  }

  lemma AppendSound(s: State, e: Event, t: State)
    requires Sound(s) && Append(s, e) == Some(t)
    ensures Sound(t)
  {
    hide Append, InTime, Sensible, Accepted, PrefixHash, Total, EconomicTime, ObservedAt, WithinWindow, Later;
    AppendSteps(s, e, t);
    if e.id !in s.eventIds {
      BodySensible(s, e, t);
      StepInTime(s, e, t);
      AnyStep(s, e, t);
    }
  }

  /**
    In every reachable ledger, every fill is priced at its reference with spread and slippage
    against its side, and was decided before the market opened; every batch used only evidence
    from before its opening; events are in the order of their times, all within the window, and
    the balance carries the last economic time and the greatest time of knowledge.
   */
  lemma EveryEventIsSensible(h: Header, events: seq<Event>, s: State)
    requires ValidHeader(h) && Replay.Run(Open(h), events) == Some(s)
    ensures InTime(s) && forall e | e in s.events :: Sensible(e.body)
  {
    hide Replay.Run, Valid, InTime, Sensible;
    OpenIsValid(h);
    OpenInTime(h);
    RunSound(Open(h), events, s);
  }

  lemma OpenInTime(h: Header)
    ensures InTime(Open(h))
  {
  }

  /**
    In a reachable ledger a payment batch pays exactly the unpaid claims that have fallen due by
    its opening, and cash grows by what they come to.
   */
  lemma PaymentSettles(s: State, e: Event, t: State)
    requires Valid(s) && Append(s, e) == Some(t) && e.id !in s.eventIds && e.body.BatchBody? && e.body.batch.mode == PaymentMode
    ensures var openAt, claims := e.body.batch.session.openAt, ActionsOf(s.balance).claims;
      && PaidBy(claims, ActionsOf(t.balance).claims, openAt)
      && V(t.balance.cash) == V(s.balance.cash) + AmountDue(claims, openAt)
  {
    hide V, Append, Valid, ReduceBatch, PaidBy, AmountDue, Total, Accepted;
    AppendSteps(s, e, t);
    BatchStep(s, e, t);
    PaymentPaysDue(s.balance, e.body.batch, ReduceBatch(s.balance, e.body.batch).value);
  }

  /**
    In a reachable ledger an opening leaves the claims there are and adds only claims of its
    selected actions, each due, like the receivable it stands against, at the opening of the first
    scheduled session on or after the date its action is payable.
   */
  lemma OpeningFallsDue(s: State, e: Event, t: State)
    requires Valid(s) && Append(s, e) == Some(t) && e.id !in s.eventIds && e.body.BatchBody? && e.body.batch.mode == OpeningMode
    requires NextScheduled(e.body.batch.calendar)
    ensures Select(e.body.batch, s.balance).Some?
    ensures var b, prior, now := e.body.batch, ActionsOf(s.balance).claims, ActionsOf(t.balance).claims;
      && (forall k | k in prior :: k in now && now[k] == prior[k])
      && forall k | k in now && k !in prior ::
           && (exists a :: a in Select(b, s.balance).value.actions && a.actionId == k && ClaimOfAction(b.calendar, a, now[k]))
           && ClaimOf(k) in t.balance.obligations && t.balance.obligations[ClaimOf(k)].dueAt == now[k].dueAt
           && t.balance.obligations[ClaimOf(k)].remaining == now[k].amount
  {
    hide V, Append, Valid, ReduceBatch, Total, Accepted, ClaimOfAction, Select, Recorded, Totalled, Balanced, Telescopes, Empty, NextScheduled;
    AppendSteps(s, e, t);
    BatchStep(s, e, t);
    OpeningClaims(s.balance, e.body.batch, ReduceBatch(s.balance, e.body.batch).value);
    AppendIsValid(s, e, t);
    ValidParts(t);
    var now := ActionsOf(t.balance).claims;
    forall k | k in now && k !in ActionsOf(s.balance).claims
      ensures ClaimOf(k) in t.balance.obligations && t.balance.obligations[ClaimOf(k)].dueAt == now[k].dueAt
      ensures t.balance.obligations[ClaimOf(k)].remaining == now[k].amount
    {
      NewIsUnpaid(e.body.batch.calendar, Select(e.body.batch, s.balance).value.actions, k, now[k]);
    }
  }

  lemma NewIsUnpaid(c: Calendar, actions: seq<Action>, k: Id, claim: Claim)
    requires exists a :: a in actions && a.actionId == k && ClaimOfAction(c, a, claim)
    ensures !claim.paid
  {
    hide V, OpensNext;
  }
}

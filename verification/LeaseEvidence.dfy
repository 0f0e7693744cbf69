/**
  The event chain of a writer lease: lanes of event and commit files, scanning, appending,
  archiving, and the evidence exported from a released lane.  A digest is modelled by what
  it is taken of, and canonical JSON by the value it encodes.
 */
module LeaseEvidence {
  import opened Options

  type LeaseId = nat

  /** Who may write: the pull request, base, role, owner, session, branch and lane, and the lease. */
  datatype Holder = Holder(prId: nat, base: nat, role: nat, owner: nat, session: nat, branch: nat, lane: nat)
  datatype Identity = Identity(lease: LeaseId, holder: Holder)

  datatype Checkpoint = WriterStart | BeforeRed | BeforeGreen | BeforeCommit | BeforePush
  datatype Kind = Acquire | Verify(checkpoint: Checkpoint, phase: nat) | Release

  datatype Digest = Zero | Hash(event: LeaseEvent)
  datatype LeaseEvent = LeaseEvent(kind: Kind, sequence: nat, previous: Digest, identity: Identity)

  /** Names in an events directory: the event file and the commit file of each sequence number. */
  datatype Name = EventFile(sequence: nat) | CommitFile(sequence: nat)

  /** A file is whole, or torn: empty, cut short or still being written. */
  datatype Content = Torn | Record(event: LeaseEvent) | Marker(digest: Digest)

  type Lane = map<Name, Content>

  const MAX_EVENT_COUNT := 512
  const MAX_ARCHIVED_LEASES := 6400

  function Rank(c: Checkpoint): nat {
    match c case WriterStart => 0 case BeforeRed => 1 case BeforeGreen => 2 case BeforeCommit => 3 case BeforePush => 4
  }

  // ----- Valid chains -----

  function LastDigest(events: seq<LeaseEvent>): Digest {
    if events == [] then Zero else Hash(events[|events| - 1])
  }

  /** The event may come next: numbered, linked to the last one, of the same identity, the acquisition first and only first. */
  predicate Links(events: seq<LeaseEvent>, e: LeaseEvent) {
    && e.sequence == |events| && e.previous == LastDigest(events) && (e.kind == Acquire <==> events == [])
    && (events != [] ==> e.identity == events[0].identity && events[|events| - 1].kind != Release)
  }

  predicate Chained(events: seq<LeaseEvent>) {
    events == [] || (Chained(events[..|events| - 1]) && Links(events[..|events| - 1], events[|events| - 1]))
  }

  /** The rank of the last checkpoint, or -1 before the first. */
  function LastRank(events: seq<LeaseEvent>): int {
    if events == [] then -1
    else if events[|events| - 1].kind.Verify? then Rank(events[|events| - 1].kind.checkpoint)
    else LastRank(events[..|events| - 1])
  }

  /** A checkpoint may come next unless it skips the writer's start or goes back; a release needs a start. */
  predicate Continues(last: int, index: nat, kind: Kind) {
    match kind
    case Verify(checkpoint, _) => if last < 0 then checkpoint == WriterStart else last <= Rank(checkpoint)
    case Release => index == 0 || last >= 0
    case Acquire => true
  }

  predicate Lifecycle(events: seq<LeaseEvent>) {
    events == []
    || (Lifecycle(events[..|events| - 1])
        && Continues(LastRank(events[..|events| - 1]), |events| - 1, events[|events| - 1].kind))
  }

  predicate ValidChain(events: seq<LeaseEvent>) {
    |events| <= MAX_EVENT_COUNT && Chained(events) && Lifecycle(events)
  }

  lemma Extend(events: seq<LeaseEvent>, e: LeaseEvent)
    ensures Chained(events + [e]) <==> Chained(events) && Links(events, e)
    ensures Lifecycle(events + [e]) <==> Lifecycle(events) && Continues(LastRank(events), |events|, e.kind)
    ensures LastRank(events + [e]) == (if e.kind.Verify? then Rank(e.kind.checkpoint) else LastRank(events))
  {
    assert (events + [e])[..|events|] == events;
  }

  lemma {:induction false} PrefixOfChain(events: seq<LeaseEvent>, n: nat)
    requires n <= |events|
    ensures Chained(events) ==> Chained(events[..n])
    ensures Lifecycle(events) ==> Lifecycle(events[..n])
    decreases |events|
  {
    if n < |events| {
      var init := events[..|events| - 1];
      PrefixOfChain(init, n);
      assert init[..n] == events[..n];
    } else {
      assert events[..n] == events;
    }
  }

  lemma {:induction false} LastRankIs(events: seq<LeaseEvent>)
    ensures LastRank(events) < 0 ==> LastRank(events) == -1 && forall j | 0 <= j < |events| :: !events[j].kind.Verify?
    ensures LastRank(events) >= 0 ==>
      exists j :: 0 <= j < |events| && events[j].kind.Verify? && Rank(events[j].kind.checkpoint) == LastRank(events)
    ensures Lifecycle(events) ==> forall j | 0 <= j < |events| && events[j].kind.Verify? :: Rank(events[j].kind.checkpoint) <= LastRank(events)
  {
    if events != [] {
      var n := |events| - 1;
      var init := events[..n];
      LastRankIs(init);
      if LastRank(init) >= 0 && !events[n].kind.Verify? {
        var j :| 0 <= j < |init| && init[j].kind.Verify? && Rank(init[j].kind.checkpoint) == LastRank(init);
        assert events[j].kind.Verify?;
      }
      assert forall j | 0 <= j < n :: events[j] == init[j];
    }
  }

  /** What a valid chain is: one lease, numbered and linked, released at most at its end, checkpoints never going back. */
  lemma ChainMeans(events: seq<LeaseEvent>, i: nat, j: nat)
    requires ValidChain(events) && i < j < |events|
    ensures events[i].sequence == i && events[j].sequence == j && events[i].identity == events[j].identity
    ensures j == i + 1 ==> events[j].previous == Hash(events[i])
    ensures (events[i].kind == Acquire <==> i == 0) && events[j].kind != Acquire && events[i].kind != Release
    ensures events[i].kind.Verify? && events[j].kind.Verify? ==> Rank(events[i].kind.checkpoint) <= Rank(events[j].kind.checkpoint)
    ensures events[j].kind == Release ==> exists k :: 0 <= k < j && events[k].kind.Verify?
    ensures events[j].kind.Verify? && (forall k | 0 <= k < j :: !events[k].kind.Verify?) ==> events[j].kind.checkpoint == WriterStart
  {
    var before, through := events[..j], events[..j + 1];
    PrefixOfChain(events, j);
    PrefixOfChain(events, j + 1);
    assert through[..j] == before && through[j] == events[j];
    assert through == before + [events[j]];
    Extend(before, events[j]);
    LastRankIs(before);
    AtPosition(events, i);
    assert forall k | 0 <= k < j :: before[k] == events[k];
    if i < j - 1 { AtPosition2(events, i, j); } else { assert before[i] == events[i]; }
    AtPosition(events, 0);
    if LastRank(before) >= 0 {
      var k :| 0 <= k < |before| && before[k].kind.Verify? && Rank(before[k].kind.checkpoint) == LastRank(before);
      assert events[k].kind.Verify?;
    }
  }

  /** The event at a position links to those before it. */
  lemma AtPosition(events: seq<LeaseEvent>, i: nat)
    requires Chained(events) && i < |events|
    ensures events[i].sequence == i && (events[i].kind == Acquire <==> i == 0) && events[i].identity == events[0].identity
    ensures events[i].previous == if i == 0 then Zero else Hash(events[i - 1])
  {
    PrefixOfChain(events, i + 1);
    assert events[..i + 1] == events[..i] + [events[i]];
    Extend(events[..i], events[i]);
  }

  lemma AtPosition2(events: seq<LeaseEvent>, i: nat, j: nat)
    requires Chained(events) && i + 1 < |events| && i < j < |events|
    ensures events[i].kind != Release
  {
    PrefixOfChain(events, i + 2);
    assert events[..i + 2] == events[..i + 1] + [events[i + 1]];
    Extend(events[..i + 1], events[i + 1]);
    assert events[..i + 1][i] == events[i];
  }

  predicate IsReleased(events: seq<LeaseEvent>) { events != [] && events[|events| - 1].kind == Release }

  /** The files of a chain. */
  function LaneOf(events: seq<LeaseEvent>): Lane {
    if events == [] then map[]
    else
      var n := |events| - 1;
      LaneOf(events[..n])[EventFile(n) := Record(events[n])][CommitFile(n) := Marker(Hash(events[n]))]
  }

  lemma LaneExtends(events: seq<LeaseEvent>, e: LeaseEvent)
    ensures LaneOf(events + [e]) == LaneOf(events)[EventFile(|events|) := Record(e)][CommitFile(|events|) := Marker(Hash(e))]
  {
    assert (events + [e])[..|events|] == events;
  }

  lemma {:induction false} LaneFiles(events: seq<LeaseEvent>)
    ensures (forall n :: n in LaneOf(events) <==> n.sequence < |events|) && FilesOf(LaneOf(events), events)
  {
    if events != [] {
      var n := |events| - 1;
      LaneFiles(events[..n]);
      assert forall j | 0 <= j < n :: events[..n][j] == events[j];
    }
  }

  // ----- Scanning -----

  /** The lane is exactly the files of this valid chain. */
  predicate Holds(lane: Lane, events: seq<LeaseEvent>) { ValidChain(events) && lane == LaneOf(events) }

  /** What a scan must return: the chain a lane holds, or nothing if it holds none. */
  function Scan(lane: Lane): Option<seq<LeaseEvent>> {
    var candidate := Candidate(lane, |lane| / 2);
    if candidate.Some? && Holds(lane, candidate.value) then candidate else None
  }

  /** The events in the first so many event files. */
  function Candidate(lane: Lane, count: nat): (r: Option<seq<LeaseEvent>>)
    ensures r.Some? ==> |r.value| == count
  {
    if count == 0 then Some([])
    else
      var rest :- Candidate(lane, count - 1);
      if EventFile(count - 1) in lane && lane[EventFile(count - 1)].Record? then Some(rest + [lane[EventFile(count - 1)].event]) else None
  }

  lemma {:induction false} LaneSize(events: seq<LeaseEvent>)
    ensures |LaneOf(events)| == 2 * |events|
  {
    if events != [] {
      var n := |events| - 1;
      LaneSize(events[..n]);
      var m := LaneOf(events[..n]);
      LaneFiles(events[..n]);
      assert EventFile(n) !in m && CommitFile(n) !in m[EventFile(n) := Record(events[n])];
    }
  }

  lemma {:induction false} CandidateIs(events: seq<LeaseEvent>, count: nat)
    requires count <= |events|
    ensures Candidate(LaneOf(events), count) == Some(events[..count])
  {
    LaneFiles(events);
    hide LaneOf;
    if count > 0 {
      CandidateIs(events, count - 1);
      assert events[..count] == events[..count - 1] + [events[count - 1]];
    }
  }

  lemma ScannedHolds(lane: Lane)
    requires Scan(lane).Some?
    ensures ValidChain(Scan(lane).value) && lane == LaneOf(Scan(lane).value)
  {
    hide ValidChain, LaneOf, Candidate;
  }

  /** A lane that holds a chain scans as that chain, so it holds no other. */
  lemma ScanFinds(lane: Lane, events: seq<LeaseEvent>)
    requires Holds(lane, events)
    ensures Scan(lane) == Some(events)
  {
    hide ValidChain, LaneOf, Candidate;
    LaneSize(events);
    CandidateIs(events, |events|);
    assert events[..|events|] == events;
  }

  /** The lifecycle check, event by event. */
  method ValidateLifecycle(events: seq<LeaseEvent>) returns (ok: bool)
    ensures ok == (Lifecycle(events) && (events != [] ==> events[0].kind == Acquire))
  {
    var seenStart: bool, lastRank: int := false, -1;
    for i := 0 to |events|
      invariant i > 0 ==> events[0].kind == Acquire
      invariant Lifecycle(events[..i]) && lastRank == LastRank(events[..i]) && (seenStart <==> lastRank >= 0)
    {
      var event := events[i];
      assert events[..i + 1] == events[..i] + [event];
      Extend(events[..i], event);
      LastRankIs(events[..i]);
      PrefixOfChain(events, i + 1);
      hide Lifecycle, LastRank;
      if i == 0 {
        if event.kind != Acquire { return false; }
      } else {
        if event.kind.Verify? {
          var rank := Rank(event.kind.checkpoint);
          if !seenStart {
            if event.kind.checkpoint != WriterStart { return false; }
            seenStart := true;
          } else if rank < lastRank {
            return false;
          }
          lastRank := rank;
        } else if event.kind.Release? && !seenStart {
          return false;
        }
      }
    }
    assert events[..|events|] == events;
    return true;
  }

  /** The files up to a number are those of a chain. */
  predicate FilesOf(lane: Lane, events: seq<LeaseEvent>) {
    forall j | 0 <= j < |events| ::
      EventFile(j) in lane && CommitFile(j) in lane && lane[EventFile(j)] == Record(events[j]) && lane[CommitFile(j)] == Marker(Hash(events[j]))
  }

  /** The files of a number are whole, agree, and link to the chain so far. */
  predicate NextFits(lane: Lane, events: seq<LeaseEvent>) {
    var i := |events|;
    && EventFile(i) in lane && CommitFile(i) in lane && lane[EventFile(i)].Record?
    && lane[CommitFile(i)] == Marker(Hash(lane[EventFile(i)].event)) && Links(events, lane[EventFile(i)].event)
  }

  /** The scan as it runs: file by file, each against its marker, number and predecessor. */
  method ScanEvents(lane: Lane) returns (r: Option<seq<LeaseEvent>>)
    ensures r == Scan(lane)
  {
    hide Scan, Lifecycle, Chained, FilesOf;
    var count := |lane| / 2;
    if |lane| % 2 != 0 || count > MAX_EVENT_COUNT || exists n | n in lane :: n.sequence >= count {
      NotHeld(lane);
      return None;
    }
    var events: seq<LeaseEvent> := [];
    var previous := Zero;
    ChainedEmpty();
    NoFiles(lane);
    for i := 0 to count
      invariant |events| == i && previous == LastDigest(events) && Chained(events) && FilesOf(lane, events)
    {
      NotHeldAt(lane, events);
      if EventFile(i) !in lane || CommitFile(i) !in lane || !lane[EventFile(i)].Record? { return None; }
      var event := lane[EventFile(i)].event;
      if lane[CommitFile(i)] != Marker(Hash(event)) { return None; }
      if event.sequence != i || event.previous != previous { return None; }
      if i == 0 {
        if event.kind != Acquire { return None; }
      } else if event.identity != events[0].identity || event.kind == Acquire || events[i - 1].kind == Release {
        return None;
      }
      Extend(events, event);
      MoreFiles(lane, events, event);
      events := events + [event];
      previous := Hash(event);
    }
    StartsWithAcquire(events);
    var ok := ValidateLifecycle(events);
    LaneIs(lane, events);
    ScanDecides(lane, events);
    return if ok then Some(events) else None;
  }

  lemma NoFiles(lane: Lane)
    ensures FilesOf(lane, [])
  {
  }

  lemma MoreFiles(lane: Lane, events: seq<LeaseEvent>, e: LeaseEvent)
    requires FilesOf(lane, events)
    requires var i := |events|;
      EventFile(i) in lane && CommitFile(i) in lane && lane[EventFile(i)] == Record(e) && lane[CommitFile(i)] == Marker(Hash(e))
    ensures FilesOf(lane, events + [e])
  {
  }

  lemma ChainedEmpty()
    ensures Chained([]) && Lifecycle([]) && LaneOf([]) == map[]
  {
  }

  lemma StartsWithAcquire(events: seq<LeaseEvent>)
    requires Chained(events)
    ensures events != [] ==> events[0].kind == Acquire
  {
    if events != [] { AtPosition(events, 0); }
  }

  lemma ScanDecides(lane: Lane, events: seq<LeaseEvent>)
    requires lane == LaneOf(events) && Chained(events) && |events| <= MAX_EVENT_COUNT
    ensures Scan(lane) == if Lifecycle(events) then Some(events) else None
  {
    if Lifecycle(events) { ScanFinds(lane, events); }
    if Scan(lane).Some? {
      ScannedHolds(lane);
      LaneFiles(events);
      LaneFiles(Scan(lane).value);
      hide Lifecycle, Chained, LaneOf, Scan;
      SameFiles(lane, events, Scan(lane).value);
    }
  }

  /** A lane holds the files of at most one sequence of events. */
  lemma SameFiles(lane: Lane, xs: seq<LeaseEvent>, ys: seq<LeaseEvent>)
    requires FilesOf(lane, xs) && FilesOf(lane, ys)
    requires (forall n :: n in lane <==> n.sequence < |xs|) && forall n :: n in lane <==> n.sequence < |ys|
    ensures xs == ys
  {
    assert EventFile(|xs|) in lane <==> |xs| < |ys|;
    assert EventFile(|ys|) in lane <==> |ys| < |xs|;
    forall i | 0 <= i < |xs| ensures xs[i] == ys[i] {
      assert lane[EventFile(i)] == Record(xs[i]) && lane[EventFile(i)] == Record(ys[i]);
    }
  }

  lemma LaneIs(lane: Lane, events: seq<LeaseEvent>)
    requires FilesOf(lane, events) && forall n | n in lane :: n.sequence < |events|
    ensures lane == LaneOf(events)
  {
    LaneFiles(events);
    hide LaneOf;
    forall n ensures n in lane <==> n in LaneOf(events) {
      match n case EventFile(j) => case CommitFile(j) =>
    }
    forall n | n in lane ensures lane[n] == LaneOf(events)[n] {
      match n case EventFile(j) => case CommitFile(j) =>
    }
  }

  lemma NotHeld(lane: Lane)
    requires |lane| % 2 != 0 || |lane| / 2 > MAX_EVENT_COUNT || exists n | n in lane :: n.sequence >= |lane| / 2
    ensures Scan(lane) == None
  {
    hide Chained, Lifecycle, Scan, LaneOf;
    if Scan(lane).Some? {
      ScannedHolds(lane);
      LaneSize(Scan(lane).value);
      LaneFiles(Scan(lane).value);
    }
  }

  lemma NotHeldAt(lane: Lane, events: seq<LeaseEvent>)
    requires |lane| % 2 == 0 && |events| < |lane| / 2 && FilesOf(lane, events)
    ensures Scan(lane).Some? ==> NextFits(lane, events)
  {
    hide *;
    if Scan(lane).Some? {
      ScannedHolds(lane);
      var chain := Scan(lane).value;
      LaneSize(chain);
      LaneFiles(chain);
      SamePrefix(lane, events, chain);
      ChainLinks(chain, |events|);
      FilesFit(lane, events, chain);
    }
  }

  lemma ChainLinks(chain: seq<LeaseEvent>, i: nat)
    requires ValidChain(chain) && i < |chain|
    ensures Links(chain[..i], chain[i])
  {
    hide Lifecycle, Links, Chained;
    PrefixOfChain(chain, i + 1);
    assert chain[..i + 1] == chain[..i] + [chain[i]];
    Extend(chain[..i], chain[i]);
  }

  lemma FilesFit(lane: Lane, events: seq<LeaseEvent>, chain: seq<LeaseEvent>)
    requires FilesOf(lane, chain) && |events| < |chain| && Links(events, chain[|events|])
    ensures NextFits(lane, events)
  {
    hide Links;
  }

  lemma SamePrefix(lane: Lane, events: seq<LeaseEvent>, chain: seq<LeaseEvent>)
    requires FilesOf(lane, events) && FilesOf(lane, chain) && |events| <= |chain|
    ensures chain[..|events|] == events
  {
    forall j | 0 <= j < |events| ensures chain[j] == events[j] {
      assert lane[EventFile(j)] == Record(chain[j]) && lane[EventFile(j)] == Record(events[j]);
    }
  }

  // ----- Appending -----

  function NextEvent(chain: seq<LeaseEvent>, kind: Kind, identity: Identity): LeaseEvent {
    LeaseEvent(kind, |chain|, LastDigest(chain), identity)
  }

  /** An event may follow: the lane has room, is not released, and stays one lease with a valid lifecycle. */
  predicate MayAppend(chain: seq<LeaseEvent>, kind: Kind, identity: Identity) {
    && |chain| < MAX_EVENT_COUNT
    && (if chain == [] then kind == Acquire else !IsReleased(chain) && identity == chain[0].identity && kind != Acquire)
    && Lifecycle(chain + [NextEvent(chain, kind, identity)])
  }

  /** Appending extends a valid chain to a valid chain. */
  lemma AppendExtends(chain: seq<LeaseEvent>, kind: Kind, identity: Identity)
    requires ValidChain(chain) && MayAppend(chain, kind, identity)
    ensures ValidChain(chain + [NextEvent(chain, kind, identity)])
    ensures IsReleased(chain + [NextEvent(chain, kind, identity)]) <==> kind == Release
    ensures (chain + [NextEvent(chain, kind, identity)])[0].identity == identity
  {
    Extend(chain, NextEvent(chain, kind, identity));
    hide Chained, Lifecycle;
  }

  /** Writes an event file and then its commit file. */
  method AppendEvent(lane: Lane, kind: Kind, identity: Identity) returns (r: Option<Lane>)
    ensures r.Some? <==> Scan(lane).Some? && MayAppend(Scan(lane).value, kind, identity)
    ensures r.Some? ==> Scan(r.value) == Some(Scan(lane).value + [NextEvent(Scan(lane).value, kind, identity)])
  {
    hide Lifecycle, Chained, Scan;
    var scanned := ScanEvents(lane);
    if scanned.None? { return None; }
    var chain := scanned.value;
    if !MayAppend(chain, kind, identity) { return None; }
    var event := NextEvent(chain, kind, identity);
    var written := lane[EventFile(|chain|) := Record(event)];
    written := written[CommitFile(|chain|) := Marker(Hash(event))];
    ScannedHolds(lane);
    AppendExtends(chain, kind, identity);
    LaneExtends(chain, event);
    ScanFinds(written, chain + [event]);
    return Some(written);
  }

  // ----- Evidence -----

  datatype Evidence = Evidence(identity: Identity, events: seq<LeaseEvent>)

  /** Bytes: the canonical encoding of evidence, or anything else. */
  datatype Bytes = Encoded(evidence: Evidence) | Other(text: seq<char>)

  /** What validation accepts: a released chain of the stated identity. */
  predicate ValidEvidence(e: Evidence) {
    e.events != [] && ValidChain(e.events) && IsReleased(e.events) && e.events[0].identity == e.identity
  }

  /** Validation as it runs, event by event. */
  method ValidateEvidence(raw: Bytes) returns (r: Option<Evidence>)
    ensures r == if raw.Encoded? && ValidEvidence(raw.evidence) then Some(raw.evidence) else None
  {
    hide Chained, Lifecycle;
    if !raw.Encoded? { return None; }
    var e := raw.evidence;
    if e.events == [] || |e.events| > MAX_EVENT_COUNT { return None; }
    var previous := Zero;
    ChainedEmpty();
    for i := 0 to |e.events|
      invariant Chained(e.events[..i]) && previous == LastDigest(e.events[..i])
      invariant i > 0 ==> e.events[0].identity == e.identity
    {
      var event := e.events[i];
      NextOfPrefix(e.events, i);
      if event.sequence != i || event.previous != previous || event.identity != e.identity { return None; }
      if (i == 0 && event.kind != Acquire) || (i > 0 && event.kind == Acquire) { return None; }
      if i > 0 && e.events[i - 1].kind == Release { return None; }
      previous := Hash(event);
    }
    assert e.events[..|e.events|] == e.events;
    if e.events[|e.events| - 1].kind != Release { return None; }
    StartsWithAcquire(e.events);
    var ok := ValidateLifecycle(e.events);
    if !ok { return None; }
    return Some(e);
  }

  /** A chain up to an event goes on through it exactly when the event links; a chain that goes further does. */
  lemma NextOfPrefix(events: seq<LeaseEvent>, i: nat)
    requires i < |events|
    ensures Chained(events[..i + 1]) <==> Chained(events[..i]) && Links(events[..i], events[i])
    ensures Chained(events) ==> Links(events[..i], events[i])
    ensures LastDigest(events[..i + 1]) == Hash(events[i])
    ensures Chained(events) && i > 0 ==> events[i].identity == events[0].identity
    ensures i > 0 ==> events[..i] != [] && events[..i][0] == events[0] && events[..i][|events[..i]| - 1] == events[i - 1]
  {
    assert events[..i + 1] == events[..i] + [events[i]];
    Extend(events[..i], events[i]);
    PrefixOfChain(events, i + 1);
    hide Chained;
    assert i > 0 ==> events[..i][0] == events[0] && events[..i][|events[..i]| - 1] == events[i - 1];
  }

  /** Released chains by lease, each in its own directory. */
  type Archive = map<LeaseId, Lane>

  /** Every archived lane scans as a released chain of the lease it is named after. */
  predicate ArchiveHolds(archive: Archive) {
    |archive| <= MAX_ARCHIVED_LEASES
    && forall l | l in archive ::
         var chain := Scan(archive[l]);
         chain.Some? && chain.value != [] && IsReleased(chain.value) && chain.value[0].identity.lease == l
  }

  /** The lane a lease's evidence is in: the events directory, or its archived lane. */
  function FindLane(events: Lane, archive: Archive, lease: LeaseId): Option<Lane> {
    var chain :- Scan(events);
    if chain != [] && chain[0].identity.lease == lease then Some(events)
    else
      var _ :- Need(ArchiveHolds(archive) && lease in archive);
      Some(archive[lease])
  }

  /** Exports the evidence of a released lease. */
  method ExportEvidence(events: Lane, archive: Archive, locked: bool, active: bool, identity: Identity) returns (r: Option<Bytes>)
    ensures r.Some? <==>
      && !locked && FindLane(events, archive, identity.lease).Some?
      && var lane := FindLane(events, archive, identity.lease).value;
         && (lane == events ==> !active) && Scan(lane).Some?
         && Scan(lane).value != [] && IsReleased(Scan(lane).value) && Scan(lane).value[0].identity == identity
    ensures r.Some? ==>
      && r.value == Encoded(Evidence(identity, Scan(FindLane(events, archive, identity.lease).value).value))
      && ValidEvidence(r.value.evidence)
  {
    hide Chained, Lifecycle, ArchiveHolds, Scan;
    if locked { return None; }
    var lane := FindLane(events, archive, identity.lease);
    if lane.None? || (lane.value == events && active) { return None; }
    var chain := ScanEvents(lane.value);
    if chain.None? || chain.value == [] || !IsReleased(chain.value) || chain.value[0].identity != identity { return None; }
    ScannedHolds(lane.value);
    var raw := Encoded(Evidence(identity, chain.value));
    var checked := ValidateEvidence(raw);
    return if checked.Some? then Some(raw) else None;
  }

  // ----- Archiving -----

  /** Renames every file of a lane into another directory, in name order. */
  method MoveFiles(events: Lane) returns (left: Lane, moved: Lane)
    ensures left == map[] && moved == events
  {
    left, moved := events, map[];
    while left != map[]
      invariant forall n :: n in events <==> n in left || n in moved
      invariant forall n | n in left :: n !in moved && left[n] == events[n]
      invariant forall n | n in moved :: moved[n] == events[n]
      decreases |left|
    {
      var name := FirstName(left);
      hide IsFirst;
      assert name in left;
      moved := moved[name := left[name]];
      left := left - {name};
    }
    assert moved == events;
  }

  /** A lane can be archived: it is released, and its lease has no lane in an archive with room. */
  predicate Archivable(chain: seq<LeaseEvent>, archive: Archive) {
    IsReleased(chain) && ArchiveHolds(archive) && |archive| < MAX_ARCHIVED_LEASES && chain[0].identity.lease !in archive
  }

  /** Moves a released lane into the archive under its lease, file by file in name order. */
  method ArchiveLane(events: Lane, archive: Archive) returns (r: Option<(Lane, Archive)>)
    ensures r.Some? <==> Scan(events).Some? && (Scan(events).value == [] || Archivable(Scan(events).value, archive))
    ensures r.Some? && Scan(events).value != [] ==> r.value == (map[], archive[Scan(events).value[0].identity.lease := events])
    ensures r.Some? && Scan(events).value == [] ==> r.value == (events, archive)
  {
    hide *;
    var chain := ScanEvents(events);
    if chain.None? { return None; }
    if chain.value == [] { return Some((events, archive)); }
    if !Archivable(chain.value, archive) { return None; }
    var left, moved := MoveFiles(events);
    return Some((left, archive[chain.value[0].identity.lease := moved]));
  }

  /** The commit file of a number sorts before its event file. */
  function Place(n: Name): nat { match n case CommitFile(i) => 2 * i case EventFile(i) => 2 * i + 1 }

  predicate IsFirst(lane: Lane, n: Name) { n in lane && forall m | m in lane :: Place(n) <= Place(m) }

  lemma {:induction false} FirstExists(lane: Lane)
    requires lane != map[]
    ensures exists n :: IsFirst(lane, n)
    decreases |lane|
  {
    var n :| n in lane;
    var rest := lane - {n};
    if rest == map[] {
      assert forall m | m in lane :: m == n by { assert forall m | m in lane && m != n :: m in rest; }
      assert IsFirst(lane, n);
    } else {
      FirstExists(rest);
      var l :| IsFirst(rest, l);
      assert forall m | m in lane && m != n :: m in rest;
      assert IsFirst(lane, if Place(n) <= Place(l) then n else l);
    }
  }

  function FirstName(lane: Lane): (n: Name)
    requires lane != map[]
    ensures IsFirst(lane, n)
  {
    FirstExists(lane);
    assert forall m, n | IsFirst(lane, m) && IsFirst(lane, n) :: m == n by {
      forall m, n | IsFirst(lane, m) && IsFirst(lane, n) ensures m == n { assert Place(m) == Place(n); }
    }
    var n :| IsFirst(lane, n);
    n
  }

  /** Archiving keeps every earlier released lane as it was, and the lane just archived can be found under its lease. */
  lemma ArchivedIsRetrievable(chain: seq<LeaseEvent>, archive: Archive, other: LeaseId)
    requires ValidChain(chain) && Archivable(chain, archive)
    ensures var lease := chain[0].identity.lease;
      var after := archive[lease := LaneOf(chain)];
      && ArchiveHolds(after) && FindLane(map[], after, lease) == Some(LaneOf(chain))
      && (other in archive ==> FindLane(map[], after, other) == Some(archive[other]))
  {
    ChainedEmpty();
    assert ValidChain([]);
    hide ValidChain, Scan, LaneOf;
    ScanFinds(LaneOf(chain), chain);
    ScanFinds(map[], []);
    var lease := chain[0].identity.lease;
    assert |archive[lease := LaneOf(chain)]| == |archive| + 1;
  }

  /** The evidence of any released lane that scans validates, and decodes to events whose files are the lane itself. */
  lemma EvidenceRoundTrip(lane: Lane)
    requires Scan(lane).Some? && Scan(lane).value != [] && IsReleased(Scan(lane).value)
    ensures var e := Evidence(Scan(lane).value[0].identity, Scan(lane).value);
      ValidEvidence(e) && LaneOf(e.events) == lane && Scan(LaneOf(e.events)) == Some(e.events)
  {
    hide Scan, ValidChain;
    ScannedHolds(lane);
  }

  /** Evidence that validates is what its own lane would export: nothing but a released lane's chain passes. */
  lemma ValidEvidenceScans(e: Evidence)
    requires ValidEvidence(e)
    ensures Scan(LaneOf(e.events)) == Some(e.events) && IsReleased(e.events) && e.events[0].identity == e.identity
  {
    hide ValidChain;
    ScanFinds(LaneOf(e.events), e.events);
  }

  /** The last event of a chain seals every event before it. */
  lemma {:induction false} DigestSeals(xs: seq<LeaseEvent>, ys: seq<LeaseEvent>)
    requires Chained(xs) && Chained(ys) && LastDigest(xs) == LastDigest(ys)
    ensures xs == ys
    decreases |xs|
  {
    if xs != [] && ys != [] {
      var m, n := |xs| - 1, |ys| - 1;
      DigestSeals(xs[..m], ys[..n]);
      assert xs == xs[..m] + [xs[m]] && ys == ys[..n] + [ys[n]];
    }
  }
}

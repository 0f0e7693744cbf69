/**
  What an operation does that nothing disturbs: from any files whatever, a process that finds
  the lock free acquires, verifies or releases exactly when the files allow it, and otherwise
  leaves them as they were.  What the files must allow is said here of chains and archive
  directly.
 */
module LeaseProgress {
  import opened Options
  import opened LeaseEvidence
  import opened LeaseProtocol
  import opened LeaseSafety

  // ----- What the files may hold -----

  /** The checkpoints of a writer, each followed by those that may come after it. */
  predicate Precedes(c: Checkpoint, d: Checkpoint) {
    match c
    case WriterStart => true
    case BeforeRed => d != WriterStart
    case BeforeGreen => d == BeforeGreen || d == BeforeCommit || d == BeforePush
    case BeforeCommit => d == BeforeCommit || d == BeforePush
    case BeforePush => d == BeforePush
  }

  /** Some checkpoint was passed. */
  predicate Started(chain: seq<LeaseEvent>) { exists j :: 0 <= j < |chain| && chain[j].kind.Verify? }

  /** The writer's start comes first, and no checkpoint comes before one already passed. */
  predicate MayPass(chain: seq<LeaseEvent>, c: Checkpoint) {
    && (!Started(chain) ==> c == WriterStart)
    && forall j | 0 <= j < |chain| && chain[j].kind.Verify? :: Precedes(chain[j].kind.checkpoint, c)
  }

  /** The event at a position: numbered, linked to the one before, of one lease, acquired first and only first, nothing after a release. */
  predicate Follows(chain: seq<LeaseEvent>, j: nat)
    requires j < |chain|
  {
    && chain[j].sequence == j && chain[j].identity == chain[0].identity
    && chain[j].previous == (if j == 0 then Zero else Hash(chain[j - 1]))
    && match chain[j].kind
       case Acquire => j == 0
       case Verify(c, _) => j > 0 && chain[j - 1].kind != Release && MayPass(chain[..j], c)
       case Release => j > 0 && chain[j - 1].kind != Release && Started(chain[..j])
  }

  predicate IsChain(chain: seq<LeaseEvent>) { |chain| <= 512 && forall j | 0 <= j < |chain| :: Follows(chain, j) }

  lemma PrecedesIsRank(c: Checkpoint, d: Checkpoint)
    ensures Precedes(c, d) <==> Rank(c) <= Rank(d)
  {
  }

  /** A checkpoint may be passed exactly when the lifecycle may continue with it. */
  lemma PassingContinues(chain: seq<LeaseEvent>, c: Checkpoint, phase: nat)
    requires Lifecycle(chain)
    ensures MayPass(chain, c) <==> Continues(LastRank(chain), |chain|, Verify(c, phase))
    ensures Started(chain) <==> LastRank(chain) >= 0
  {
    LastRankIs(chain);
    hide Lifecycle, LastRank, Rank;
    PrecedesIsRank(WriterStart, c);
    forall j | 0 <= j < |chain| && chain[j].kind.Verify?
      ensures Precedes(chain[j].kind.checkpoint, c) <==> Rank(chain[j].kind.checkpoint) <= Rank(c)
    {
      PrecedesIsRank(chain[j].kind.checkpoint, c);
    }
  }

  lemma FollowsBefore(init: seq<LeaseEvent>, e: LeaseEvent, j: nat)
    requires j < |init|
    ensures Follows(init + [e], j) <==> Follows(init, j)
  {
    hide MayPass, Started;
    assert (init + [e])[..j] == init[..j];
  }

  /** A chain ends in an event that may follow the rest. */
  lemma LastOfChain(init: seq<LeaseEvent>, e: LeaseEvent)
    ensures IsChain(init + [e]) <==> IsChain(init) && |init| < 512 && Follows(init + [e], |init|)
  {
    hide Follows;
    var chain, n := init + [e], |init|;
    forall j | 0 <= j < n ensures Follows(chain, j) <==> Follows(init, j) { FollowsBefore(init, e, j); }
    assert IsChain(chain) ==> forall j | 0 <= j < n :: Follows(chain, j);
  }

  lemma FollowsLast(init: seq<LeaseEvent>, e: LeaseEvent)
    ensures Follows(init + [e], |init|) <==>
      && e.sequence == |init| && e.previous == LastDigest(init) && (init != [] ==> e.identity == init[0].identity)
      && match e.kind
         case Acquire => init == []
         case Verify(c, _) => init != [] && init[|init| - 1].kind != Release && MayPass(init, c)
         case Release => init != [] && init[|init| - 1].kind != Release && Started(init)
  {
    hide MayPass, Started;
    assert (init + [e])[..|init|] == init;
  }

  /** The chains that the checks accept are these. */
  lemma {:induction false} ChainsAre(events: seq<LeaseEvent>)
    ensures ValidChain(events) <==> IsChain(events)
  {
    if events == [] {
      ChainedEmpty();
    } else {
      var init, e := events[..|events| - 1], events[|events| - 1];
      assert events == init + [e];
      ChainsAre(init);
      LastOfChain(init, e);
      FollowsLast(init, e);
      Extend(init, e);
      if ValidChain(init) {
        match e.kind
        case Verify(c, phase) => PassingContinues(init, c, phase);
        case Release => PassingContinues(init, WriterStart, 0);
        case Acquire =>
      }
      hide Chained, Lifecycle, LastRank, MayPass, Started, IsChain, Follows;
    }
  }

  /** A lane holds a chain: one event file and one commit file for each event, and no other file. */
  predicate Recorded(lane: Lane, chain: seq<LeaseEvent>) {
    IsChain(chain) && FilesOf(lane, chain) && forall n | n in lane :: n.sequence < |chain|
  }

  predicate EndsReleased(chain: seq<LeaseEvent>) { chain != [] && chain[|chain| - 1].kind == Release }

  lemma RecordedScans(lane: Lane, chain: seq<LeaseEvent>)
    ensures Recorded(lane, chain) <==> Scan(lane) == Some(chain)
    ensures Recorded(lane, chain) ==> lane == LaneOf(chain) && ValidChain(chain)
  {
    ChainsAre(chain);
    LaneFiles(chain);
    hide ValidChain, IsChain, LaneOf, Scan, FilesOf;
    if Recorded(lane, chain) {
      LaneIs(lane, chain);
      ScanFinds(lane, chain);
    }
    if Scan(lane) == Some(chain) { ScannedHolds(lane); }
  }

  /** Every archived lane is a released chain of the lease it is named after. */
  ghost predicate Stored(archive: Archive) {
    |archive| <= 6400
    && forall l | l in archive :: exists chain: seq<LeaseEvent> :: Recorded(archive[l], chain) && EndsReleased(chain) && chain[0].identity.lease == l
  }

  lemma StoredHolds(archive: Archive)
    ensures Stored(archive) <==> ArchiveHolds(archive)
  {
    hide Recorded, Scan;
    forall l | l in archive
      ensures (exists chain: seq<LeaseEvent> :: Recorded(archive[l], chain) && EndsReleased(chain) && chain[0].identity.lease == l)
              <==> var chain := Scan(archive[l]); chain.Some? && chain.value != [] && IsReleased(chain.value) && chain.value[0].identity.lease == l
    {
      if Scan(archive[l]).Some? { RecordedScans(archive[l], Scan(archive[l]).value); }
      forall chain | Recorded(archive[l], chain) ensures Scan(archive[l]) == Some(chain) { RecordedScans(archive[l], chain); }
    }
  }

  /** A released lane that the archive has room for and does not hold yet. */
  ghost predicate Movable(f: Files, chain: seq<LeaseEvent>) {
    Recorded(f.events, chain) && EndsReleased(chain) && |f.archive| < 6400 && chain[0].identity.lease !in f.archive
  }

  /** A lease can be acquired: none is recorded, the archive is in order, and the last lease left nothing or can be archived. */
  ghost predicate CanAcquire(f: Files) {
    f.active == Absent && Stored(f.archive) && (f.events == map[] || exists chain :: Movable(f, chain))
  }

  lemma EmptyScans(lane: Lane)
    ensures lane == map[] <==> Scan(lane) == Some([])
  {
    ChainedEmpty();
    hide Scan;
    if lane == map[] { ScanFinds(lane, []); }
    if Scan(lane) == Some([]) { ScannedHolds(lane); }
  }

  lemma CapacityIs(f: Files)
    ensures Capacity(f) <==> Stored(f.archive) && (f.events == map[] || exists chain :: Movable(f, chain))
  {
    hide Recorded, Scan, ArchiveHolds, Stored;
    StoredHolds(f.archive);
    EmptyScans(f.events);
    if Scan(f.events).Some? { RecordedScans(f.events, Scan(f.events).value); }
    forall chain | Movable(f, chain) ensures Scan(f.events) == Some(chain) { RecordedScans(f.events, chain); }
    if Capacity(f) && f.events != map[] { assert Movable(f, Scan(f.events).value); }
  }

  // ----- A process alone -----

  /** The process takes so many steps, none of which fails, and with the last one leaves, showing this. */
  ghost predicate Ends(s: System, p: Pid, n: nat, t: System, seen: Label)
    decreases n
  {
    n > 0
    && if n == 1 then StepOf(s, p, true) == (t, seen)
       else StepOf(s, p, true).1 == Silent && Ends(StepOf(s, p, true).0, p, n - 1, t, seen)
  }

  lemma Before(s: System, next: System, p: Pid, n: nat, t: System, seen: Label)
    requires StepOf(s, p, true) == (next, Silent) && Ends(next, p, n, t, seen)
    ensures Ends(s, p, n + 1, t, seen)
  {
    hide StepOf;
  }

  /** The machine with these files and the process here, everyone else as they were. */
  function With(s: System, f: Files, p: Pid, pc: Pc): System { System(f, Some(p), s.at[p := pc]) }

  function After(s: System, f: Files, p: Pid): System { System(f, None, s.at[p := Outside]) }

  lemma Leaves(s: System, f: Files, p: Pid, pc: Pc)
    requires pc == LeavingFailed || pc.LeavingDone?
    ensures Ends(With(s, f, p, pc), p, 1, After(s, f, p), if pc.LeavingDone? then Ended(pc.op, true) else Silent)
  {
    assert s.at[p := pc][p := Outside] == s.at[p := Outside];
  }

  lemma Steps(s: System, f: Files, p: Pid, pc: Pc, g: Files, next: Pc, n: nat, t: System, seen: Label)
    requires StepOf(With(s, f, p, pc), p, true) == (With(s, g, p, next), Silent) && Ends(With(s, g, p, next), p, n, t, seen)
    ensures Ends(With(s, f, p, pc), p, n + 1, t, seen)
  {
    hide StepOf;
    Before(With(s, f, p, pc), With(s, g, p, next), p, n, t, seen);
  }

  /** A failing operation that has changed nothing leaves. */
  lemma Declines(s: System, f: Files, p: Pid, pc: Pc)
    requires StepOf(With(s, f, p, pc), p, true) == (With(s, f, p, LeavingFailed), Silent)
    ensures Ends(With(s, f, p, pc), p, 2, After(s, f, p), Silent)
  {
    hide StepOf;
    Leaves(s, f, p, LeavingFailed);
    Steps(s, f, p, pc, f, LeavingFailed, 1, After(s, f, p), Silent);
  }

  lemma PutWith(s: System, f: Files, p: Pid, pc: Pc, g: Files, next: Pc)
    ensures PutFiles(With(s, f, p, pc), p, g, next) == With(s, g, p, next) && Put(With(s, f, p, pc), p, next) == With(s, f, p, next)
  {
    assert s.at[p := pc][p := next] == s.at[p := next];
  }

  // ----- Writing an event -----

  function Written(f: Files, e: LeaseEvent): Files {
    f.(events := f.events[EventFile(e.sequence) := Record(e)][CommitFile(e.sequence) := Marker(Hash(e))])
  }

  /** Both files of the event are written, one after the other. */
  lemma WritesEvent(s: System, f: Files, p: Pid, op: Op, e: LeaseEvent, n: nat, t: System, seen: Label)
    requires EventFile(e.sequence) !in f.events && CommitFile(e.sequence) !in f.events
    requires Ends(With(s, Written(f, e), p, AfterCommit(op)), p, n, t, seen)
    ensures Ends(With(s, f, p, CreatingEvent(op, e)), p, n + 4, t, seen)
  {
    var event, commit := EventFile(e.sequence), CommitFile(e.sequence);
    var f1 := f.(events := f.events[event := Torn]);
    var f2 := f.(events := f.events[event := Record(e)]);
    var f3 := f.(events := f.events[event := Record(e)][commit := Torn]);
    var f4 := Written(f, e);
    assert f1.events[event := Record(e)] == f2.events && f3.events[commit := Marker(Hash(e))] == f4.events;
    PutWith(s, f, p, CreatingEvent(op, e), f1, WritingEvent(op, e));
    PutWith(s, f1, p, WritingEvent(op, e), f2, CreatingCommit(op, e));
    PutWith(s, f2, p, CreatingCommit(op, e), f3, WritingCommit(op, e));
    PutWith(s, f3, p, WritingCommit(op, e), f4, AfterCommit(op));
    hide AfterCommit, Ends, Put, PutFiles, Enter, BeginArchive, MoveOne, Leave;
    Steps(s, f3, p, WritingCommit(op, e), f4, AfterCommit(op), n, t, seen);
    Steps(s, f2, p, CreatingCommit(op, e), f3, WritingCommit(op, e), n + 1, t, seen);
    Steps(s, f1, p, WritingEvent(op, e), f2, CreatingCommit(op, e), n + 2, t, seen);
    Steps(s, f, p, CreatingEvent(op, e), f1, WritingEvent(op, e), n + 3, t, seen);
  }

  // ----- Acquiring -----

  function FirstEvent(identity: Identity): LeaseEvent { LeaseEvent(Acquire, 0, Zero, identity) }

  lemma AppendsFirst(f: Files, identity: Identity)
    requires f.events == map[]
    ensures BeginAppend(f, AcquireOp(identity)) == CreatingEvent(AcquireOp(identity), FirstEvent(identity))
  {
    EmptyScans(f.events);
    Extend([], FirstEvent(identity));
    ChainedEmpty();
    hide Scan;
    assert [] + [FirstEvent(identity)] == [FirstEvent(identity)];
    hide Lifecycle;
  }

  /** What an acquisition leaves of the files: its record, its first event, and the archive as it finds it then. */
  function Taken(f: Files, identity: Identity): Files {
    var e := FirstEvent(identity);
    Files(Whole(identity), map[EventFile(0) := Record(e), CommitFile(0) := Marker(Hash(e))], f.archive)
  }

  /** An acquisition on an empty lane whose record is made ends well. */
  lemma WritesFirst(s: System, f: Files, p: Pid, identity: Identity, pc: Pc)
    requires f.active == Whole(identity) && f.events == map[]
    requires StepOf(With(s, f, p, pc), p, true) == (Put(With(s, f, p, pc), p, BeginAppend(f, AcquireOp(identity))), Silent)
    ensures Ends(With(s, f, p, pc), p, 6, After(s, Taken(f, identity), p), Acquired(identity, true))
  {
    hide StepOf, Ends, BeginAppend, Put;
    var op, e := AcquireOp(identity), FirstEvent(identity);
    AppendsFirst(f, identity);
    PutWith(s, f, p, pc, f, CreatingEvent(op, e));
    assert Written(f, e) == Taken(f, identity);
    hide With, After, Written, Taken;
    Leaves(s, Taken(f, identity), p, LeavingDone(op));
    WritesEvent(s, f, p, op, e, 1, After(s, Taken(f, identity), p), Acquired(identity, true));
    Steps(s, f, p, pc, f, CreatingEvent(op, e), 5, After(s, Taken(f, identity), p), Acquired(identity, true));
  }

  function Shifted(f: Files, to: LeaseId): Files
    requires to in f.archive
  {
    f.(events := map[], archive := f.archive[to := f.archive[to] + f.events])
  }

  lemma MoveStep(s: System, f: Files, p: Pid, identity: Identity, to: LeaseId) returns (g: Files)
    requires to in f.archive && f.events != map[]
    ensures StepOf(With(s, f, p, Moving(identity, to)), p, true) == (With(s, g, p, Moving(identity, to)), Silent)
    ensures to in g.archive && Shifted(g, to) == Shifted(f, to) && |g.events| < |f.events| && g.active == f.active
  {
    var name := FirstName(f.events);
    hide IsFirst;
    assert name in f.events;
    g := f.(events := f.events - {name}, archive := f.archive[to := f.archive[to][name := f.events[name]]]);
    PutWith(s, f, p, Moving(identity, to), g, Moving(identity, to));
    assert g.archive[to] + g.events == f.archive[to] + f.events;
    assert g.archive[to := f.archive[to] + f.events] == f.archive[to := f.archive[to] + f.events];
  }

  /** The files of the last lease move over one by one, and then the acquisition goes on. */
  lemma {:induction false} MovesAll(s: System, f: Files, p: Pid, identity: Identity, to: LeaseId) returns (n: nat)
    requires f.active == Whole(identity) && to in f.archive
    ensures Ends(With(s, f, p, Moving(identity, to)), p, n, After(s, Taken(Shifted(f, to), identity), p), Acquired(identity, true))
    decreases |f.events|
  {
    hide Ends, MoveOne;
    if f.events == map[] {
      assert f.archive[to] + f.events == f.archive[to];
      assert Shifted(f, to) == f;
      EmptyMove(s, f, p, identity, to);
      WritesFirst(s, f, p, identity, Moving(identity, to));
      n := 6;
    } else {
      var g := MoveStep(s, f, p, identity, to);
      hide StepOf;
      var m := MovesAll(s, g, p, identity, to);
      Steps(s, f, p, Moving(identity, to), g, Moving(identity, to), m, After(s, Taken(Shifted(f, to), identity), p), Acquired(identity, true));
      n := m + 1;
    }
  }

  lemma EmptyMove(s: System, f: Files, p: Pid, identity: Identity, to: LeaseId)
    requires f.events == map[]
    ensures StepOf(With(s, f, p, Moving(identity, to)), p, true)
         == (Put(With(s, f, p, Moving(identity, to)), p, BeginAppend(f, AcquireOp(identity))), Silent)
  {
    hide BeginAppend;
  }

  /** The files after an acquisition: its record and first event, and the archive. */
  predicate IsTaken(g: Files, identity: Identity, archive: Archive) {
    g.active == Whole(identity) && Recorded(g.events, [FirstEvent(identity)]) && g.archive == archive
  }

  lemma TakenIs(f: Files, identity: Identity)
    ensures IsTaken(Taken(f, identity), identity, f.archive)
  {
    var chain := [FirstEvent(identity)];
    assert Follows(chain, 0);
  }

  lemma ShiftedArchive(f: Files, to: LeaseId)
    ensures Shifted(f.(archive := f.archive[to := map[]]), to).archive == f.archive[to := f.events]
  {
    assert map[] + f.events == f.events;
    assert f.archive[to := map[]][to := f.events] == f.archive[to := f.events];
  }

  lemma ArchiveStep(s: System, f: Files, p: Pid, identity: Identity, chain: seq<LeaseEvent>)
    requires Stored(f.archive) && Movable(f, chain)
    ensures var to := chain[0].identity.lease; var g := f.(archive := f.archive[to := map[]]);
      StepOf(With(s, f, p, Archiving(identity)), p, true) == (With(s, g, p, Moving(identity, to)), Silent)
  {
    hide Scan, ArchiveHolds, Recorded, Stored, ValidChain, BeginAppend, Enter, MoveOne, CreateFile, WriteFile, Leave, Ended, AfterCommit;
    var to := chain[0].identity.lease;
    RecordedScans(f.events, chain);
    StoredHolds(f.archive);
    PutWith(s, f, p, Archiving(identity), f.(archive := f.archive[to := map[]]), Moving(identity, to));
    hide Put, PutFiles;
  }

  lemma EmptyArchiveStep(s: System, f: Files, p: Pid, identity: Identity)
    requires f.events == map[]
    ensures StepOf(With(s, f, p, Archiving(identity)), p, true)
         == (Put(With(s, f, p, Archiving(identity)), p, BeginAppend(f, AcquireOp(identity))), Silent)
  {
    EmptyScans(f.events);
    hide BeginAppend, Scan;
  }

  /** From its record on, an acquisition that finds a lane to archive archives it and ends well. */
  lemma Archives(s: System, f: Files, p: Pid, identity: Identity, chain: seq<LeaseEvent>) returns (n: nat, g: Files)
    requires f.active == Whole(identity) && Stored(f.archive) && Movable(f, chain)
    ensures IsTaken(g, identity, f.archive[chain[0].identity.lease := f.events])
    ensures Ends(With(s, f, p, Archiving(identity)), p, n, After(s, g, p), Acquired(identity, true))
  {
    hide Ends, StepOf, Recorded, Stored, With, After, Taken, Shifted, IsTaken;
    var to := chain[0].identity.lease;
    var f1 := f.(archive := f.archive[to := map[]]);
    g := Taken(Shifted(f1, to), identity);
    TakenIs(Shifted(f1, to), identity);
    ShiftedArchive(f, to);
    ArchiveStep(s, f, p, identity, chain);
    var m := MovesAll(s, f1, p, identity, to);
    Steps(s, f, p, Archiving(identity), f1, Moving(identity, to), m, After(s, g, p), Acquired(identity, true));
    n := m + 1;
  }

  /** With nothing to archive it goes on at once. */
  lemma StartsEmpty(s: System, f: Files, p: Pid, identity: Identity)
    requires f.active == Whole(identity) && f.events == map[]
    ensures Ends(With(s, f, p, Archiving(identity)), p, 6, After(s, Taken(f, identity), p), Acquired(identity, true))
  {
    hide Ends, StepOf, With, After, Taken;
    EmptyArchiveStep(s, f, p, identity);
    WritesFirst(s, f, p, identity, Archiving(identity));
  }

  lemma AcquireSteps(s: System, f: Files, p: Pid, identity: Identity)
    ensures var f1, f2 := f.(active := TornRecord), f.(active := Whole(identity)); var op := AcquireOp(identity);
      && (Capacity(f) ==> StepOf(With(s, f, p, Entered(op)), p, true) == (With(s, f, p, CreatingActive(identity)), Silent))
      && (!Capacity(f) ==> StepOf(With(s, f, p, Entered(op)), p, true) == (With(s, f, p, LeavingFailed), Silent))
      && (f.active == Absent ==> StepOf(With(s, f, p, CreatingActive(identity)), p, true) == (With(s, f1, p, WritingActive(identity)), Silent))
      && (f.active != Absent ==> StepOf(With(s, f, p, CreatingActive(identity)), p, true) == (With(s, f, p, LeavingFailed), Silent))
      && StepOf(With(s, f1, p, WritingActive(identity)), p, true) == (With(s, f2, p, Archiving(identity)), Silent)
  {
    hide Capacity;
    var f1, f2 := f.(active := TornRecord), f.(active := Whole(identity));
    var op := AcquireOp(identity);
    PutWith(s, f, p, Entered(op), f, CreatingActive(identity));
    PutWith(s, f, p, Entered(op), f, LeavingFailed);
    PutWith(s, f, p, CreatingActive(identity), f, LeavingFailed);
    PutWith(s, f, p, CreatingActive(identity), f1, WritingActive(identity));
    PutWith(s, f1, p, WritingActive(identity), f2, Archiving(identity));
    hide Put, PutFiles;
  }

  /** The archive an acquisition leaves: the lane of the last lease is in it. */
  ghost predicate ArchivedBy(f: Files, archive: Archive) {
    if f.events == map[] then archive == f.archive
    else exists chain: seq<LeaseEvent> :: Movable(f, chain) && archive == f.archive[chain[0].identity.lease := f.events]
  }

  lemma AcquireGoesOn(s: System, f: Files, p: Pid, identity: Identity) returns (n: nat, g: Files)
    requires f.active == Absent && Stored(f.archive) && (f.events == map[] || exists chain :: Movable(f, chain))
    ensures IsTaken(g, identity, g.archive) && ArchivedBy(f, g.archive)
    ensures Ends(With(s, f.(active := Whole(identity)), p, Archiving(identity)), p, n, After(s, g, p), Acquired(identity, true))
  {
    hide Ends, StepOf, Recorded, Stored, With, After, Taken;
    var f2 := f.(active := Whole(identity));
    if f.events == map[] {
      TakenIs(f2, identity);
      StartsEmpty(s, f2, p, identity);
      n, g := 6, Taken(f2, identity);
    } else {
      var chain :| Movable(f, chain);
      assert Movable(f2, chain);
      n, g := Archives(s, f2, p, identity, chain);
    }
  }

  /** An acquisition that has entered ends well exactly when the files allow it, and changes nothing otherwise. */
  lemma AcquireEnds(s: System, f: Files, p: Pid, identity: Identity) returns (n: nat, g: Files)
    ensures Ends(With(s, f, p, Entered(AcquireOp(identity))), p, n, After(s, g, p), if CanAcquire(f) then Acquired(identity, true) else Silent)
    ensures if CanAcquire(f) then IsTaken(g, identity, g.archive) && ArchivedBy(f, g.archive) else g == f
  {
    hide Ends, StepOf, Movable, Stored, Capacity, With, After, IsTaken, ArchivedBy;
    var op := AcquireOp(identity);
    CapacityIs(f);
    AcquireSteps(s, f, p, identity);
    if !Capacity(f) {
      Declines(s, f, p, Entered(op));
      n, g := 2, f;
    } else if f.active != Absent {
      Declines(s, f, p, CreatingActive(identity));
      Steps(s, f, p, Entered(op), f, CreatingActive(identity), 2, After(s, f, p), Silent);
      n, g := 3, f;
    } else {
      var f1, f2 := f.(active := TornRecord), f.(active := Whole(identity));
      var m;
      m, g := AcquireGoesOn(s, f, p, identity);
      var t, seen := After(s, g, p), Acquired(identity, true);
      Steps(s, f1, p, WritingActive(identity), f2, Archiving(identity), m, t, seen);
      Steps(s, f, p, CreatingActive(identity), f1, WritingActive(identity), m + 1, t, seen);
      Steps(s, f, p, Entered(op), f, CreatingActive(identity), m + 2, t, seen);
      n := m + 3;
    }
  }

  // ----- Verifying and releasing -----

  /** The record and an unreleased chain, both of this identity. */
  predicate HeldBy(f: Files, identity: Identity, chain: seq<LeaseEvent>) {
    f.active == Whole(identity) && Recorded(f.events, chain) && chain != [] && chain[0].identity == identity && !EndsReleased(chain)
  }

  lemma ActiveIs(f: Files, identity: Identity)
    ensures IsActive(f, identity) <==> exists chain :: HeldBy(f, identity, chain)
  {
    hide Recorded, Scan;
    if Scan(f.events).Some? { RecordedScans(f.events, Scan(f.events).value); }
    if IsActive(f, identity) { assert HeldBy(f, identity, Scan(f.events).value); }
    forall chain | HeldBy(f, identity, chain) ensures IsActive(f, identity) { RecordedScans(f.events, chain); }
  }

  /** Room for one more event, of a kind the lifecycle allows now. */
  predicate MayAdd(chain: seq<LeaseEvent>, kind: Kind) {
    && |chain| < 512
    && match kind
       case Acquire => false
       case Verify(c, _) => MayPass(chain, c)
       case Release => Started(chain)
  }

  function NextOf(chain: seq<LeaseEvent>, kind: Kind, identity: Identity): LeaseEvent {
    LeaseEvent(kind, |chain|, if chain == [] then Zero else Hash(chain[|chain| - 1]), identity)
  }

  lemma MayAddIs(chain: seq<LeaseEvent>, kind: Kind, identity: Identity)
    requires IsChain(chain) && chain != [] && chain[0].identity == identity && !EndsReleased(chain)
    ensures MayAppend(chain, kind, identity) <==> MayAdd(chain, kind)
    ensures MayAdd(chain, kind) ==> IsChain(chain + [NextOf(chain, kind, identity)])
    ensures NextEvent(chain, kind, identity) == NextOf(chain, kind, identity)
  {
    var e := NextOf(chain, kind, identity);
    ChainsAre(chain);
    Extend(chain, e);
    LastOfChain(chain, e);
    FollowsLast(chain, e);
    match kind {
      case Verify(c, phase) => PassingContinues(chain, c, phase);
      case Release => PassingContinues(chain, WriterStart, 0);
      case Acquire =>
    }
    hide IsChain, Chained, Lifecycle, LastRank, MayPass, Started, Follows;
  }

  lemma AppendsNext(f: Files, op: Op, chain: seq<LeaseEvent>)
    requires HeldBy(f, op.identity, chain)
    ensures BeginAppend(f, op)
         == if MayAdd(chain, KindOf(op)) then CreatingEvent(op, NextOf(chain, KindOf(op), op.identity)) else LeavingFailed
  {
    RecordedScans(f.events, chain);
    MayAddIs(chain, KindOf(op), op.identity);
    hide Scan, MayAppend, NextEvent, MayAdd, FilesOf, IsChain;
  }

  /** The lane holds the chain and this event after it; record and archive are as they were. */
  predicate IsAdded(f: Files, chain: seq<LeaseEvent>, e: LeaseEvent, g: Files) {
    g.active == f.active && g.archive == f.archive && Recorded(g.events, chain + [e])
  }

  lemma WrittenIs(f: Files, identity: Identity, chain: seq<LeaseEvent>, kind: Kind)
    requires HeldBy(f, identity, chain) && MayAdd(chain, kind)
    ensures var e := NextOf(chain, kind, identity); IsAdded(f, chain, e, Written(f, e))
    ensures EventFile(|chain|) !in f.events && CommitFile(|chain|) !in f.events
  {
    hide IsChain, MayAdd, MayAppend, EndsReleased, NextEvent;
    var e := NextOf(chain, kind, identity);
    MayAddIs(chain, kind, identity);
    assert forall n | n in f.events :: n.sequence < |chain|;
    assert FilesOf(Written(f, e).events, chain + [e]);
  }

  /** From the checks of an append that may go ahead to the end of its writing. */
  lemma AddsEvent(s: System, f: Files, p: Pid, op: Op, chain: seq<LeaseEvent>, pc: Pc, n: nat, t: System, seen: Label)
    requires HeldBy(f, op.identity, chain) && MayAdd(chain, KindOf(op))
    requires StepOf(With(s, f, p, pc), p, true) == (With(s, f, p, BeginAppend(f, op)), Silent)
    requires Ends(With(s, Written(f, NextOf(chain, KindOf(op), op.identity)), p, AfterCommit(op)), p, n, t, seen)
    ensures Ends(With(s, f, p, pc), p, n + 5, t, seen)
  {
    hide Ends, StepOf, With, HeldBy, MayAdd, BeginAppend, Written, AfterCommit;
    var e := NextOf(chain, KindOf(op), op.identity);
    AppendsNext(f, op, chain);
    WrittenIs(f, op.identity, chain, KindOf(op));
    WritesEvent(s, f, p, op, e, n, t, seen);
    Steps(s, f, p, pc, f, CreatingEvent(op, e), n + 4, t, seen);
  }

  lemma EntersHeld(s: System, f: Files, p: Pid, op: Op)
    requires !op.AcquireOp?
    ensures !IsActive(f, op.identity) ==> StepOf(With(s, f, p, Entered(op)), p, true) == (With(s, f, p, LeavingFailed), Silent)
    ensures IsActive(f, op.identity) && op.VerifyOp? && AlreadyVerified(f, op) ==>
      StepOf(With(s, f, p, Entered(op)), p, true) == (With(s, f, p, LeavingDone(op)), Silent)
    ensures IsActive(f, op.identity) && !(op.VerifyOp? && AlreadyVerified(f, op)) ==>
      StepOf(With(s, f, p, Entered(op)), p, true) == (With(s, f, p, BeginAppend(f, op)), Silent)
  {
    hide IsActive, AlreadyVerified, BeginAppend;
    PutWith(s, f, p, Entered(op), f, LeavingFailed);
    PutWith(s, f, p, Entered(op), f, LeavingDone(op));
    PutWith(s, f, p, Entered(op), f, BeginAppend(f, op));
    hide Put, PutFiles;
  }

  lemma RepeatedIs(f: Files, op: Op, chain: seq<LeaseEvent>)
    requires HeldBy(f, op.identity, chain)
    ensures AlreadyVerified(f, op) <==> chain[|chain| - 1].kind == KindOf(op)
    ensures IsActive(f, op.identity)
  {
    RecordedScans(f.events, chain);
    hide Scan, FilesOf, IsChain;
  }

  /** What an operation on a held lease does to it. */
  predicate IsDone(f: Files, op: Op, chain: seq<LeaseEvent>, g: Files) {
    match op
    case AcquireOp(_) => false
    case VerifyOp(_, c, phase) =>
      if chain != [] && chain[|chain| - 1].kind == Verify(c, phase) then g == f
      else IsAdded(f, chain, NextOf(chain, Verify(c, phase), op.identity), g)
    case ReleaseOp(_) => IsAdded(f.(active := Absent), chain, NextOf(chain, Release, op.identity), g)
  }

  /** A held lease passes a checkpoint it has just passed, or one its lifecycle allows; it is released once it has passed one. */
  predicate CanDo(op: Op, chain: seq<LeaseEvent>) {
    match op
    case AcquireOp(_) => false
    case VerifyOp(_, c, phase) => (chain != [] && chain[|chain| - 1].kind == Verify(c, phase)) || (|chain| < 512 && MayPass(chain, c))
    case ReleaseOp(_) => |chain| < 512 && Started(chain)
  }

  lemma ReleaseTail(s: System, f: Files, p: Pid, op: Op)
    requires op.ReleaseOp?
    ensures Ends(With(s, f, p, AfterCommit(op)), p, 2, After(s, f.(active := Absent), p), Ended(op, true))
  {
    var g := f.(active := Absent);
    PutWith(s, f, p, RemovingActive(op.identity), g, LeavingDone(op));
    Leaves(s, g, p, LeavingDone(op));
    hide Ends, Put, PutFiles;
    Steps(s, f, p, RemovingActive(op.identity), g, LeavingDone(op), 1, After(s, g, p), Ended(op, true));
  }

  lemma AddedWithout(f: Files, chain: seq<LeaseEvent>, e: LeaseEvent)
    requires IsAdded(f, chain, e, Written(f, e))
    ensures IsAdded(f.(active := Absent), chain, e, Written(f, e).(active := Absent))
  {
    hide Recorded;
  }

  /** An operation on a held lease that may go ahead ends well. */
  lemma HeldGoesOn(s: System, f: Files, p: Pid, op: Op, chain: seq<LeaseEvent>) returns (n: nat, g: Files)
    requires HeldBy(f, op.identity, chain) && CanDo(op, chain) && !(op.VerifyOp? && AlreadyVerified(f, op))
    ensures IsDone(f, op, chain, g) && Ends(With(s, f, p, Entered(op)), p, n, After(s, g, p), Ended(op, true))
  {
    hide Ends, StepOf, With, After, HeldBy, Written, AlreadyVerified, IsActive, BeginAppend, MayPass, Started, Recorded, IsAdded, Ended;
    var e := NextOf(chain, KindOf(op), op.identity);
    EntersHeld(s, f, p, op);
    RepeatedIs(f, op, chain);
    WrittenIs(f, op.identity, chain, KindOf(op));
    if op.ReleaseOp? {
      g := Written(f, e).(active := Absent);
      AddedWithout(f, chain, e);
      ReleaseTail(s, Written(f, e), p, op);
      AddsEvent(s, f, p, op, chain, Entered(op), 2, After(s, g, p), Ended(op, true));
      n := 7;
    } else {
      g := Written(f, e);
      Leaves(s, g, p, LeavingDone(op));
      AddsEvent(s, f, p, op, chain, Entered(op), 1, After(s, g, p), Ended(op, true));
      n := 6;
    }
  }

  /** An operation on a held lease that has entered ends well exactly when the lease allows it, and changes nothing otherwise. */
  lemma HeldEnds(s: System, f: Files, p: Pid, op: Op, chain: seq<LeaseEvent>) returns (n: nat, g: Files)
    requires HeldBy(f, op.identity, chain) && !op.AcquireOp?
    ensures Ends(With(s, f, p, Entered(op)), p, n, After(s, g, p), if CanDo(op, chain) then Ended(op, true) else Silent)
    ensures if CanDo(op, chain) then IsDone(f, op, chain, g) else g == f
  {
    RepeatedIs(f, op, chain);
    AppendsNext(f, op, chain);
    EntersHeld(s, f, p, op);
    hide Ends, StepOf, With, After, HeldBy, AlreadyVerified, IsActive, BeginAppend, MayPass, Started, IsAdded, Ended;
    if op.VerifyOp? && AlreadyVerified(f, op) {
      Leaves(s, f, p, LeavingDone(op));
      Steps(s, f, p, Entered(op), f, LeavingDone(op), 1, After(s, f, p), Ended(op, true));
      n, g := 2, f;
    } else if CanDo(op, chain) {
      n, g := HeldGoesOn(s, f, p, op, chain);
    } else {
      Declines(s, f, p, Entered(op));
      n, g := 2, f;
    }
  }

  lemma NotHeldEnds(s: System, f: Files, p: Pid, op: Op)
    requires !op.AcquireOp? && forall chain :: !HeldBy(f, op.identity, chain)
    ensures Ends(With(s, f, p, Entered(op)), p, 2, After(s, f, p), Silent)
  {
    hide Ends, StepOf, With, After, HeldBy, IsActive;
    ActiveIs(f, op.identity);
    EntersHeld(s, f, p, op);
    Declines(s, f, p, Entered(op));
  }

  // ----- Whole operations -----

  /** The moves of a process that begins an operation and takes steps. */
  function Alone(p: Pid, op: Op, n: nat): (moves: seq<(Pid, Move)>)
    ensures |moves| == n + 1 && moves[0] == (p, Begin(op)) && forall k | 0 < k <= n :: moves[k] == (p, Step)
  {
    [(p, Begin(op))] + StepsOf(p, n)
  }

  function StepsOf(p: Pid, n: nat): (moves: seq<(Pid, Move)>)
    ensures |moves| == n && forall k | 0 <= k < n :: moves[k] == (p, Step)
  {
    seq(n, k requires 0 <= k < n => (p, Step))
  }

  /** The label of the last move is the only one an observer may see. */
  predicate Shows(labels: seq<Label>, seen: Label) {
    labels != [] && labels[|labels| - 1] == seen && forall k | 0 <= k < |labels| - 1 :: labels[k] == Silent
  }

  lemma {:induction false} EndsRuns(s: System, p: Pid, n: nat, t: System, seen: Label)
    requires Ends(s, p, n, t, seen)
    ensures Execute(s, StepsOf(p, n)) == t && Shows(Labels(s, StepsOf(p, n)), seen)
    decreases n
  {
    hide StepOf;
    var moves := StepsOf(p, n);
    assert moves[0] == (p, Step) && Perform(s, p, Step) == StepOf(s, p, true);
    if n == 1 {
      assert moves[1..] == [];
    } else {
      EndsRuns(StepOf(s, p, true).0, p, n - 1, t, seen);
      assert moves[1..] == StepsOf(p, n - 1);
    }
    hide Perform;
  }

  /** Begun with the lock free and left undisturbed, the operation ends: with this label, these files and the lock free again. */
  ghost predicate Results(s: System, p: Pid, op: Op, g: Files, seen: Label) {
    exists n :: Execute(s, Alone(p, op, n)) == System(g, None, s.at[p := Outside]) && Shows(Labels(s, Alone(p, op, n)), seen)
  }

  lemma BegunResults(s: System, p: Pid, op: Op, n: nat, g: Files, seen: Label)
    requires PcOf(s, p) == Outside && s.lock == None && Ends(With(s, s.files, p, Entered(op)), p, n, After(s, g, p), seen)
    ensures Results(s, p, op, g, seen)
  {
    var begun, moves := With(s, s.files, p, Entered(op)), Alone(p, op, n);
    EndsRuns(begun, p, n, After(s, g, p), seen);
    assert Perform(s, p, Begin(op)) == (begun, Silent);
    assert moves[1..] == StepsOf(p, n);
    hide Perform, Ends;
    assert Execute(s, moves) == Execute(begun, StepsOf(p, n));
    assert Labels(s, moves) == [Silent] + Labels(begun, StepsOf(p, n));
  }

  /**
    Undisturbed, an acquisition succeeds exactly when no record exists, the archive is in order,
    and the events directory is empty or holds a released lane that the archive has room for and
    does not hold yet.  The lane is then in the archive and the new lease has its record and its
    first event.  Otherwise no file has changed.
   */
  lemma Acquires(s: System, p: Pid, identity: Identity) returns (g: Files)
    requires PcOf(s, p) == Outside && s.lock == None
    ensures Results(s, p, AcquireOp(identity), g, if CanAcquire(s.files) then Acquired(identity, true) else Silent)
    ensures if CanAcquire(s.files) then IsTaken(g, identity, g.archive) && ArchivedBy(s.files, g.archive) else g == s.files
    ensures CanAcquire(s.files) ==> IsActive(g, identity)
  {
    hide Results, Ends, CanAcquire, With, After, ArchivedBy, IsActive;
    var n;
    n, g := AcquireEnds(s, s.files, p, identity);
    BegunResults(s, p, AcquireOp(identity), n, g, if CanAcquire(s.files) then Acquired(identity, true) else Silent);
    if CanAcquire(s.files) {
      ActiveIs(g, identity);
      assert HeldBy(g, identity, [FirstEvent(identity)]);
    }
  }

  /**
    Undisturbed, a verification or release of a held lease succeeds exactly when the lifecycle
    allows it: a checkpoint just passed leaves everything as it was, any other adds its event,
    and a release adds its event and removes the record.  Otherwise no file has changed.
   */
  lemma Proceeds(s: System, p: Pid, op: Op, chain: seq<LeaseEvent>) returns (g: Files)
    requires PcOf(s, p) == Outside && s.lock == None && !op.AcquireOp? && HeldBy(s.files, op.identity, chain)
    ensures Results(s, p, op, g, if CanDo(op, chain) then Ended(op, true) else Silent)
    ensures if CanDo(op, chain) then IsDone(s.files, op, chain, g) else g == s.files
  {
    hide Results, Ends, With, After, CanDo, IsDone, HeldBy, Ended;
    var n;
    n, g := HeldEnds(s, s.files, p, op, chain);
    BegunResults(s, p, op, n, g, if CanDo(op, chain) then Ended(op, true) else Silent);
  }

  /** A lease that is not held is neither verified nor released. */
  lemma Refuses(s: System, p: Pid, op: Op)
    requires PcOf(s, p) == Outside && s.lock == None && !op.AcquireOp? && forall chain :: !HeldBy(s.files, op.identity, chain)
    ensures Results(s, p, op, s.files, Silent)
  {
    hide Results, Ends, With, After, HeldBy;
    NotHeldEnds(s, s.files, p, op);
    BegunResults(s, p, op, 2, s.files, Silent);
  }

  lemma IntactIsStored(f: Files)
    requires Intact(f.archive)
    ensures Stored(f.archive) <==> |f.archive| <= 6400
  {
    hide Recorded, Scan, Stored;
    StoredHolds(f.archive);
    forall l | l in f.archive
      ensures var chain := Scan(f.archive[l]); chain.Some? && chain.value != [] && IsReleased(chain.value) && chain.value[0].identity.lease == l
    {
      assert LaneIntact(f.archive[l], l);
    }
  }

  lemma QuietIs(lane: Lane, chain: seq<LeaseEvent>)
    requires Recorded(lane, chain)
    ensures lane == map[] <==> chain == []
    ensures Quiet(lane) <==> chain == [] || EndsReleased(chain)
    ensures forall other | Recorded(lane, other) :: other == chain
  {
    hide Recorded, Scan;
    RecordedScans(lane, chain);
    EmptyScans(lane);
    forall other | Recorded(lane, other) ensures other == chain { RecordedScans(lane, other); }
  }

  /** The lane is empty or released, and the next acquisition needs nothing but room for it. */
  ghost predicate OnlyRoomMatters(f: Files, chain: seq<LeaseEvent>) {
    && (chain == [] || EndsReleased(chain))
    && (CanAcquire(f) <==>
          |f.archive| <= 6400 && (chain == [] || (|f.archive| < 6400 && chain[0].identity.lease !in f.archive)))
  }

  lemma OnlyRoom(f: Files, chain: seq<LeaseEvent>)
    requires Recorded(f.events, chain) && f.active == Absent && Quiet(f.events) && Intact(f.archive)
    ensures OnlyRoomMatters(f, chain)
  {
    hide Recorded, Scan, Stored, Quiet, Intact;
    QuietIs(f.events, chain);
    IntactIsStored(f);
    if chain != [] && |f.archive| < 6400 && chain[0].identity.lease !in f.archive { assert Movable(f, chain); }
  }

  /** Whatever has run: once the lock is free and no record exists, only room in the archive can stand in the next writer's way. */
  lemma NextWriterCanAcquire(moves: seq<(Pid, Move)>)
    requires var s := Execute(Fresh(), moves); s.lock == None && s.files.active == Absent
    ensures exists chain :: Recorded(Execute(Fresh(), moves).files.events, chain) && OnlyRoomMatters(Execute(Fresh(), moves).files, chain)
  {
    hide Execute, Labels, Safe, Recorded, Scan, OnlyRoomMatters, Intact;
    var f := Execute(Fresh(), moves).files;
    FreshIsSafe();
    ExecutionIsSafe(Fresh(), moves, {});
    SafeParts(Execute(Fresh(), moves), HeldOver({}, Labels(Fresh(), moves)));
    var chain := Scan(f.events).value;
    RecordedScans(f.events, chain);
    OnlyRoom(f, chain);
  }

  // ----- Failures -----

  lemma StepStays(s: System, p: Pid)
    requires PcOf(s, p) != Outside && PcOf(s, p) != Stopped && PcOf(s, p) != LeavingFailed && !PcOf(s, p).LeavingDone?
    ensures var t := StepOf(s, p, false).0;
      t.lock == s.lock && (forall q | q != p :: PcOf(t, q) == PcOf(s, q)) && PcOf(t, p) != Outside && PcOf(t, p) != Stopped
  {
    hide Scan, IsActive, Archivable, Capacity, FirstName, MayAppend, NextEvent, AlreadyVerified;
  }

  /**
    A process whose step fails, before or after its effect on the files, is on its way out or stays
    with the lock, as it must if it was leaving already; at most this one step's effect is there,
    and it ends as if done exactly if that was the last one of its operation.
   */
  lemma FailureLeaves(s: System, p: Pid, after: bool)
    requires PcOf(s, p) != Outside && PcOf(s, p) != Stopped
    ensures var (t, seen) := Perform(s, p, if after then FailAfter else Fail);
      var leaving := PcOf(s, p) == LeavingFailed || PcOf(s, p).LeavingDone?;
      && seen == Silent && t.lock == s.lock && (forall q | q != p :: PcOf(t, q) == PcOf(s, q))
      && t.files == (if after && !leaving then StepOf(s, p, false).0.files else s.files)
      && (if leaving then PcOf(t, p) == Stopped
          else if after && PcOf(StepOf(s, p, false).0, p).LeavingDone? then PcOf(t, p) == PcOf(StepOf(s, p, false).0, p)
          else PcOf(t, p) == LeavingFailed || PcOf(t, p) == Stopped)
  {
    hide StepOf;
    if PcOf(s, p) != LeavingFailed && !PcOf(s, p).LeavingDone? { StepStays(s, p); }
  }
}

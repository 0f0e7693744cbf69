/**
  What every interleaving keeps: leases are held one at a time, a stopped or incomplete
  transition blocks everything after it, and archived lanes stay whole.
 */
module LeaseSafety {
  import opened Options
  import opened LeaseEvidence
  import opened LeaseProtocol

  // ----- Shapes of the files -----

  /** Nothing under way in the events directory: empty, or a released chain. */
  predicate Quiet(events: Lane) {
    var chain := Scan(events);
    chain.Some? && (chain.value == [] || IsReleased(chain.value))
  }

  /** Every archived lane is a released chain of its lease. */
  predicate LaneIntact(lane: Lane, lease: LeaseId) {
    var chain := Scan(lane);
    chain.Some? && chain.value != [] && IsReleased(chain.value) && chain.value[0].identity.lease == lease
  }

  predicate Intact(archive: Archive) { forall l | l in archive :: LaneIntact(archive[l], l) }

  ghost predicate Holding(f: Files) { exists identity :: IsActive(f, identity) }

  /** With the lock free: no record and nothing under way, or a fully recorded lease, or a record that matches nothing. */
  ghost predicate Resting(f: Files) {
    && (f.active == Absent ==> Quiet(f.events) && Intact(f.archive))
    && (Holding(f) ==> Intact(f.archive))
  }

  /** The lane of a chain split between the archive and the events directory, its first file gone from the latter. */
  ghost predicate Splits(chain: seq<LeaseEvent>, moved: Lane, left: Lane) {
    && (forall n :: n in LaneOf(chain) <==> n in moved || n in left)
    && (forall n | n in moved :: n !in left && moved[n] == LaneOf(chain)[n])
    && (forall n | n in left :: left[n] == LaneOf(chain)[n])
    && (CommitFile(0) in left ==> left == LaneOf(chain))
  }

  ghost predicate MovingTo(f: Files, to: LeaseId) {
    && to in f.archive && Intact(f.archive - {to})
    && exists chain: seq<LeaseEvent> :: ValidChain(chain) && IsReleased(chain) && chain[0].identity.lease == to && Splits(chain, f.archive[to], f.events)
  }

  /** The event is the next of a chain whose files, with these of its own, are the lane. */
  predicate Begun(chain: seq<LeaseEvent>, op: Op, e: LeaseEvent) {
    ValidChain(chain) && MayAppend(chain, KindOf(op), op.identity) && e == NextEvent(chain, KindOf(op), op.identity)
  }

  predicate Upto(chain: seq<LeaseEvent>, e: LeaseEvent, event: Content, commit: bool, lane: Lane) {
    var lane1 := LaneOf(chain)[EventFile(e.sequence) := event];
    lane == if commit then lane1[CommitFile(e.sequence) := Torn] else lane1
  }

  ghost predicate Appending(f: Files, op: Op, e: LeaseEvent, event: Content, commit: bool) {
    exists chain :: Begun(chain, op, e) && Upto(chain, e, event, commit, f.events)
  }

  /** What a finished operation has left. */
  predicate Finished(f: Files, op: Op) {
    var chain := Scan(f.events);
    && chain.Some? && chain.value != [] && chain.value[0].identity == op.identity && chain.value[|chain.value| - 1].kind == KindOf(op)
    && f.active == (if op.ReleaseOp? then Absent else Whole(op.identity))
  }

  /** The files as the process in the lock has left them so far. */
  ghost predicate FilesAt(f: Files, pc: Pc) {
    match pc
    case Outside => false
    case Stopped => true
    case Entered(_) => Resting(f)
    case CreatingActive(_) => Resting(f) && Quiet(f.events) && Intact(f.archive)
    case WritingActive(_) => f.active == TornRecord && Quiet(f.events) && Intact(f.archive)
    case Archiving(identity) => f.active == Whole(identity) && Quiet(f.events) && Intact(f.archive)
    case Moving(identity, to) => f.active == Whole(identity) && MovingTo(f, to)
    case CreatingEvent(op, e) =>
      f.active == Whole(op.identity) && Intact(f.archive) && exists chain :: Begun(chain, op, e) && f.events == LaneOf(chain)
    case WritingEvent(op, e) => f.active == Whole(op.identity) && Intact(f.archive) && Appending(f, op, e, Torn, false)
    case CreatingCommit(op, e) => f.active == Whole(op.identity) && Intact(f.archive) && Appending(f, op, e, Record(e), false)
    case WritingCommit(op, e) => f.active == Whole(op.identity) && Intact(f.archive) && Appending(f, op, e, Record(e), true)
    case RemovingActive(identity) =>
      f.active == Whole(identity) && Intact(f.archive) && Finished(f.(active := Absent), ReleaseOp(identity))
    case LeavingDone(op) => Finished(f, op) && Intact(f.archive)
    case LeavingFailed => Resting(f)
  }

  /** An acquisition that has made the active record. */
  predicate Acquiring(pc: Pc) {
    match pc
    case WritingActive(_) => true
    case Archiving(_) => true
    case Moving(_, _) => true
    case CreatingEvent(op, _) => op.AcquireOp?
    case WritingEvent(op, _) => op.AcquireOp?
    case CreatingCommit(op, _) => op.AcquireOp?
    case WritingCommit(op, _) => op.AcquireOp?
    case LeavingDone(op) => op.AcquireOp?
    case _ => false
  }

  /** A held lease has its record, or is about to be released for good. */
  predicate OwnsRecord(f: Files, pc: Pc, lease: LeaseId) {
    || (f.active.Whole? && f.active.identity.lease == lease)
    || (pc.LeavingDone? && pc.op.ReleaseOp? && pc.op.identity.lease == lease)
  }

  function OwnerPc(s: System): Pc { if s.lock.Some? then PcOf(s, s.lock.value) else Outside }

  /** The invariant, for the leases acquired and not yet released. */
  ghost predicate Safe(s: System, held: set<LeaseId>) {
    && (forall p | p in s.at && s.at[p] != Outside && s.at[p] != Stopped :: s.lock == Some(p))
    && (if s.lock.Some? then FilesAt(s.files, OwnerPc(s)) else Resting(s.files))
    && (OwnerPc(s) != Stopped ==> forall l | l in held :: OwnsRecord(s.files, OwnerPc(s), l))
    && (Acquiring(OwnerPc(s)) ==> held == {})
    && (forall a, b | a in held && b in held :: a == b)
  }

  function HeldAfter(held: set<LeaseId>, seen: Label): set<LeaseId> {
    match seen
    case Acquired(identity, _) => held + {identity.lease}
    case Released(identity, _) => held - {identity.lease}
    case _ => held
  }

  // ----- Facts about lanes -----

  lemma QuietEmpty()
    ensures Scan(map[]) == Some([]) && Quiet(map[])
  {
    ChainedEmpty();
    hide Scan;
    ScanFinds(map[], []);
  }

  lemma ReleasedIsNotActive(f: Files, identity: Identity)
    requires Quiet(f.events)
    ensures !IsActive(f, identity)
  {
    hide Scan;
  }

  lemma QuietIsNotHolding(f: Files)
    requires Quiet(f.events)
    ensures !Holding(f)
  {
    hide Scan, Quiet, IsActive;
    forall identity ensures !IsActive(f, identity) { ReleasedIsNotActive(f, identity); }
  }

  /** Only whole lanes of unreleased chains hold a lease: a lane with a torn or lone file does not scan at all. */
  lemma UnfinishedDoesNotScan(lane: Lane, chain: seq<LeaseEvent>, e: LeaseEvent, event: Content, commit: bool)
    requires e.sequence == |chain| && Upto(chain, e, event, commit, lane)
    ensures Scan(lane).None?
  {
    if Scan(lane).Some? {
      ScannedHolds(lane);
      LaneFiles(chain);
      LaneFiles(Scan(lane).value);
    }
  }

  lemma PartlyMovedIsNotActive(f: Files, to: LeaseId, identity: Identity)
    requires MovingTo(f, to)
    ensures !IsActive(f, identity)
  {
    hide Scan, LaneOf, Intact, ValidChain;
    var chain: seq<LeaseEvent> :| ValidChain(chain) && IsReleased(chain) && chain[0].identity.lease == to && Splits(chain, f.archive[to], f.events);
    if Scan(f.events).Some? && Scan(f.events).value != [] {
      ScannedHolds(f.events);
      LaneFiles(Scan(f.events).value);
      assert CommitFile(0) in f.events;
      ScanFinds(LaneOf(chain), chain);
    }
  }

  // ----- One step -----

  lemma RestingNotHolding(f: Files)
    requires f.active != Absent && !Holding(f)
    ensures Resting(f)
  {
    hide Holding, Intact, Quiet;
  }

  /** However an operation in the lock fails, the files rest. */
  lemma FailureRests(f: Files, pc: Pc)
    requires FilesAt(f, pc) && pc != Stopped
    requires !pc.LeavingDone?
    ensures Resting(f)
  {
    hide Scan, Intact, LaneOf, ValidChain, MayAppend, Upto;
    match pc
    case Entered(_) =>
    case CreatingActive(_) =>
    case WritingActive(_) => QuietIsNotHolding(f);
    case Archiving(_) => QuietIsNotHolding(f);
    case Moving(_, to) =>
      forall identity ensures !IsActive(f, identity) { PartlyMovedIsNotActive(f, to, identity); }
    case CreatingEvent(_, _) =>
    case WritingEvent(op, e) => TornDoesNotHold(f, op, e, Torn, false);
    case CreatingCommit(op, e) => TornDoesNotHold(f, op, e, Record(e), false);
    case WritingCommit(op, e) => TornDoesNotHold(f, op, e, Record(e), true);
    case RemovingActive(_) =>
    case LeavingFailed =>
  }

  lemma TornDoesNotHold(f: Files, op: Op, e: LeaseEvent, event: Content, commit: bool)
    requires Appending(f, op, e, event, commit)
    ensures !Holding(f)
  {
    hide Scan, LaneOf, ValidChain, MayAppend, Upto;
    var chain :| Begun(chain, op, e) && Upto(chain, e, event, commit, f.events);
    assert e.sequence == |chain|;
    UnfinishedDoesNotScan(f.events, chain, e, event, commit);
  }

  lemma DoneRests(f: Files, op: Op)
    requires Finished(f, op) && Intact(f.archive)
    ensures Resting(f)
  {
    hide Scan, Intact, Holding;
  }

  /** The files after an append's checks. */
  lemma AppendBegins(f: Files, op: Op)
    requires f.active == Whole(op.identity) && Intact(f.archive)
    ensures BeginAppend(f, op) == LeavingFailed || FilesAt(f, BeginAppend(f, op))
    ensures BeginAppend(f, op) == LeavingFailed ==> Resting(f)
    ensures BeginAppend(f, op) != LeavingFailed ==> BeginAppend(f, op).CreatingEvent? && BeginAppend(f, op).op == op
  {
    hide Intact, Scan, ValidChain, MayAppend, LaneOf;
    if BeginAppend(f, op) != LeavingFailed {
      ScannedHolds(f.events);
      assert Begun(Scan(f.events).value, op, BeginAppend(f, op).event);
    }
  }

  lemma EnterKeeps(f: Files, op: Op, s: System, p: Pid)
    requires Resting(f) && s.files == f
    ensures Enter(s, p, op).files == f && Enter(s, p, op).lock == s.lock && FilesAt(f, PcOf(Enter(s, p, op), p))
    ensures var pc := PcOf(Enter(s, p, op), p); !Acquiring(pc) && !(pc.LeavingDone? && pc.op.ReleaseOp?)
    ensures Enter(s, p, op).at == s.at[p := PcOf(Enter(s, p, op), p)]
  {
    hide Scan, Intact, LaneOf, ValidChain, MayAppend, Quiet;
    match op
    case AcquireOp(_) => if Capacity(f) { CapacityIsQuiet(f); }
    case VerifyOp(identity, _, _) =>
      if IsActive(f, identity) {
        assert Holding(f);
        AppendBegins(f, op);
      }
    case ReleaseOp(identity) =>
      if IsActive(f, identity) {
        assert Holding(f);
        AppendBegins(f, op);
      }
  }

  lemma CapacityIsQuiet(f: Files)
    requires Capacity(f)
    ensures Quiet(f.events) && Intact(f.archive)
  {
    hide Scan;
  }

  lemma SplitBegins(f: Files, chain: seq<LeaseEvent>, to: LeaseId)
    requires ValidChain(chain) && Archivable(chain, f.archive) && f.events == LaneOf(chain) && Intact(f.archive) && to == chain[0].identity.lease
    ensures MovingTo(f.(archive := f.archive[to := map[]]), to)
  {
    hide LaneOf, ValidChain, LaneIntact, ArchiveHolds;
    var g := f.(archive := f.archive[to := map[]]);
    assert g.archive - {to} == f.archive;
    assert Splits(chain, g.archive[to], g.events);
  }

  lemma PutIs(s: System, p: Pid, files: Files, pc: Pc)
    ensures PcOf(Put(s, p, pc), p) == pc && Put(s, p, pc).files == s.files && Put(s, p, pc).lock == s.lock && Put(s, p, pc).at == s.at[p := pc]
    ensures PcOf(PutFiles(s, p, files, pc), p) == pc && PutFiles(s, p, files, pc).files == files
    ensures PutFiles(s, p, files, pc).lock == s.lock && PutFiles(s, p, files, pc).at == s.at[p := pc]
  {
  }

  lemma ArchiveCases(s: System, p: Pid, identity: Identity)
    requires Quiet(s.files.events)
    ensures var f, chain, t := s.files, Scan(s.files.events).value, BeginArchive(s, p, identity);
      if chain == [] then t == Put(s, p, BeginAppend(f, AcquireOp(identity)))
      else if !Archivable(chain, f.archive) then t == Put(s, p, LeavingFailed)
      else
        t == PutFiles(s, p, f.(archive := f.archive[chain[0].identity.lease := map[]]), Moving(identity, chain[0].identity.lease))
    ensures Scan(s.files.events).Some?
  {
    hide Scan, Archivable, BeginAppend, Put, PutFiles;
  }

  lemma MovingShape(f: Files, identity: Identity, to: LeaseId)
    requires f.active == Whole(identity) && MovingTo(f, to)
    ensures FilesAt(f, Moving(identity, to)) && Acquiring(Moving(identity, to))
  {
    hide MovingTo;
  }

  lemma FailedShape(f: Files, identity: Identity)
    requires f.active == Whole(identity) && Quiet(f.events)
    ensures FilesAt(f, LeavingFailed)
  {
    hide Quiet, Resting, Holding;
    QuietIsNotHolding(f);
    RestingNotHolding(f);
  }

  lemma AppendPc(f: Files, identity: Identity)
    ensures BeginAppend(f, AcquireOp(identity)) == LeavingFailed || Acquiring(BeginAppend(f, AcquireOp(identity)))
  {
    hide Scan, MayAppend;
  }

  lemma ArchiveBegins(s: System, p: Pid, identity: Identity)
    requires s.files.active == Whole(identity) && Quiet(s.files.events) && Intact(s.files.archive)
    ensures var t := BeginArchive(s, p, identity);
      && t.lock == s.lock && t.at == s.at[p := PcOf(t, p)] && t.files.active == s.files.active && FilesAt(t.files, PcOf(t, p))
      && (PcOf(t, p) == LeavingFailed || Acquiring(PcOf(t, p)))
  {
    hide *;
    var f := s.files;
    ArchiveCases(s, p, identity);
    FailedShape(f, identity);
    OpIdentity(identity);
    var chain := Scan(f.events).value;
    ScannedHolds(f.events);
    PutIs(s, p, f, LeavingFailed);
    if chain == [] {
      AppendBegins(f, AcquireOp(identity));
      AppendPc(f, identity);
      PutIs(s, p, f, BeginAppend(f, AcquireOp(identity)));
    } else if Archivable(chain, f.archive) {
      var to := chain[0].identity.lease;
      var g := f.(archive := f.archive[to := map[]]);
      SplitBegins(f, chain, to);
      MovingShape(g, identity, to);
      PutIs(s, p, g, Moving(identity, to));
    }
  }

  lemma OpIdentity(identity: Identity)
    ensures AcquireOp(identity).identity == identity
  {
  }

  lemma MoveKeeps(s: System, p: Pid, identity: Identity, to: LeaseId)
    requires s.files.active == Whole(identity) && MovingTo(s.files, to)
    ensures var t := MoveOne(s, p, identity, to);
      && t.lock == s.lock && t.at == s.at[p := PcOf(t, p)] && t.files.active == s.files.active && FilesAt(t.files, PcOf(t, p))
      && (PcOf(t, p) == LeavingFailed || Acquiring(PcOf(t, p)))
  {
    hide Scan, LaneOf, ValidChain, MayAppend, Intact;
    var f := s.files;
    var chain: seq<LeaseEvent> :| ValidChain(chain) && IsReleased(chain) && chain[0].identity.lease == to && Splits(chain, f.archive[to], f.events);
    if f.events == map[] {
      MovedIsIntact(f, to, chain);
      AppendBegins(f, AcquireOp(identity));
    } else {
      var name := FirstName(f.events);
      var t := MoveOne(s, p, identity, to);
      assert t.files.archive - {to} == f.archive - {to};
      FirstIsCommit(f.events, chain, name);
      assert Splits(chain, t.files.archive[to], t.files.events);
    }
  }

  /** While the first commit file is left, it is the first to go. */
  lemma FirstIsCommit(left: Lane, chain: seq<LeaseEvent>, name: Name)
    requires IsFirst(left, name)
    ensures CommitFile(0) in left ==> name == CommitFile(0)
  {
    if CommitFile(0) in left { assert Place(name) <= Place(CommitFile(0)) == 0; }
  }

  lemma MovedIsIntact(f: Files, to: LeaseId, chain: seq<LeaseEvent>)
    requires to in f.archive && Intact(f.archive - {to}) && f.events == map[]
    requires ValidChain(chain) && IsReleased(chain) && chain[0].identity.lease == to && Splits(chain, f.archive[to], f.events)
    ensures Intact(f.archive)
  {
    hide Scan, LaneOf, ValidChain;
    assert f.archive[to] == LaneOf(chain);
    ScanFinds(f.archive[to], chain);
    forall l | l in f.archive ensures LaneIntact(f.archive[l], l) {
      if l != to { assert l in f.archive - {to} && LaneIntact((f.archive - {to})[l], l); }
    }
  }

  lemma CreateKeeps(f: Files, op: Op, e: LeaseEvent, commit: bool)
    requires if commit then Appending(f, op, e, Record(e), false) else exists chain :: Begun(chain, op, e) && f.events == LaneOf(chain)
    ensures var name := if commit then CommitFile(e.sequence) else EventFile(e.sequence);
      && name !in f.events
      && Appending(f.(events := f.events[name := Torn]), op, e, if commit then Record(e) else Torn, commit)
  {
    hide LaneOf, ValidChain, MayAppend;
    var g := f.(events := f.events[(if commit then CommitFile(e.sequence) else EventFile(e.sequence)) := Torn]);
    if commit {
      var chain :| Begun(chain, op, e) && Upto(chain, e, Record(e), false, f.events);
      LaneFiles(chain);
      assert Upto(chain, e, Record(e), true, g.events);
    } else {
      var chain :| Begun(chain, op, e) && f.events == LaneOf(chain);
      LaneFiles(chain);
      assert Upto(chain, e, Torn, false, g.events);
    }
  }

  lemma WriteEventKeeps(f: Files, op: Op, e: LeaseEvent)
    requires Appending(f, op, e, Torn, false)
    ensures Appending(f.(events := f.events[EventFile(e.sequence) := Record(e)]), op, e, Record(e), false)
  {
    hide LaneOf, ValidChain, MayAppend;
    var chain :| Begun(chain, op, e) && Upto(chain, e, Torn, false, f.events);
    var g := f.(events := f.events[EventFile(e.sequence) := Record(e)]);
    assert Upto(chain, e, Record(e), false, g.events);
  }

  lemma WriteCommitFinishes(f: Files, op: Op, e: LeaseEvent)
    requires Appending(f, op, e, Record(e), true)
    ensures var g := f.(events := f.events[CommitFile(e.sequence) := Marker(Hash(e))]);
      Finished(g.(active := if op.ReleaseOp? then Absent else Whole(op.identity)), op)
  {
    hide LaneOf, ValidChain, MayAppend, Scan;
    var chain :| Begun(chain, op, e) && Upto(chain, e, Record(e), true, f.events);
    AppendExtends(chain, KindOf(op), op.identity);
    LaneExtends(chain, e);
    var lane := f.events[CommitFile(e.sequence) := Marker(Hash(e))];
    assert lane == LaneOf(chain + [e]);
    ScanFinds(lane, chain + [e]);
  }

  /** The step of the process in the lock keeps the shape of the files. */
  lemma OwnerStepKeeps(s: System, p: Pid, reported: bool)
    requires s.lock == Some(p) && FilesAt(s.files, PcOf(s, p)) && PcOf(s, p) != Stopped
    requires !PcOf(s, p).LeavingDone? && PcOf(s, p) != LeavingFailed
    ensures var t := StepOf(s, p, reported).0;
      && StepOf(s, p, reported).1 == Silent && t.lock == s.lock && t.at == s.at[p := PcOf(t, p)] && FilesAt(t.files, PcOf(t, p))
    ensures var t := StepOf(s, p, reported).0; PcOf(t, p) != Outside && PcOf(t, p) != Stopped
  {
    var pc, f := PcOf(s, p), s.files;
    hide Intact, Quiet, MovingTo, Appending, Finished, Resting, BeginArchive, MoveOne, BeginAppend, Begun, Upto, LaneOf, Scan, Enter;
    match pc
    case Entered(op) => EnterKeeps(f, op, s, p); EnterPc(s, p, op);
    case CreatingActive(_) =>
    case WritingActive(_) =>
    case Archiving(identity) => ArchiveBegins(s, p, identity);
    case Moving(identity, to) => MoveKeeps(s, p, identity, to);
    case CreatingEvent(op, e) => CreateKeeps(f, op, e, false);
    case WritingEvent(op, e) => WriteEventKeeps(f, op, e);
    case CreatingCommit(op, e) => CreateKeeps(f, op, e, true);
    case WritingCommit(op, e) => CommitKeeps(f, op, e);
    case RemovingActive(_) =>
  }

  lemma EnterPc(s: System, p: Pid, op: Op)
    ensures PcOf(Enter(s, p, op), p) != Outside && PcOf(Enter(s, p, op), p) != Stopped
  {
    hide Capacity, IsActive, AlreadyVerified, Scan, MayAppend;
  }

  lemma CommitKeeps(f: Files, op: Op, e: LeaseEvent)
    requires f.active == Whole(op.identity) && Intact(f.archive) && Appending(f, op, e, Record(e), true)
    ensures FilesAt(f.(events := f.events[CommitFile(e.sequence) := Marker(Hash(e))]), AfterCommit(op))
  {
    hide *;
    WriteCommitFinishes(f, op, e);
    CommittedShape(f.(events := f.events[CommitFile(e.sequence) := Marker(Hash(e))]), op);
  }

  lemma CommittedShape(g: Files, op: Op)
    requires g.active == Whole(op.identity) && Intact(g.archive)
    requires Finished(g.(active := if op.ReleaseOp? then Absent else Whole(op.identity)), op)
    ensures FilesAt(g, AfterCommit(op))
  {
    hide Intact, Finished;
    assert !op.ReleaseOp? ==> g.(active := Whole(op.identity)) == g;
  }

  // ----- The invariant -----

  /** What a step does to the held leases' record. */
  lemma RecordKept(s: System, p: Pid, reported: bool, held: set<LeaseId>)
    requires s.lock == Some(p) && FilesAt(s.files, PcOf(s, p)) && PcOf(s, p) != Stopped
    requires !PcOf(s, p).LeavingDone? && PcOf(s, p) != LeavingFailed
    requires forall l | l in held :: OwnsRecord(s.files, PcOf(s, p), l)
    requires Acquiring(PcOf(s, p)) ==> held == {}
    ensures var t := StepOf(s, p, reported).0;
      (forall l | l in held :: OwnsRecord(t.files, PcOf(t, p), l)) && (Acquiring(PcOf(t, p)) ==> held == {})
  {
    hide Scan, Intact, Quiet, MovingTo, Appending, Finished, Resting, BeginAppend, MayAppend, Archivable, Capacity, IsActive, AlreadyVerified;
    var pc := PcOf(s, p);
    match pc
    case Entered(op) => EnterRecord(s, p, op);
    case Archiving(_) =>
    case Moving(_, _) =>
    case CreatingActive(_) =>
    case WritingActive(_) =>
    case CreatingEvent(_, _) =>
    case WritingEvent(_, _) =>
    case CreatingCommit(_, _) =>
    case WritingCommit(_, _) =>
    case RemovingActive(_) =>
  }

  lemma EnterRecord(s: System, p: Pid, op: Op)
    ensures var t := Enter(s, p, op); t.files == s.files && !Acquiring(PcOf(t, p)) && !(PcOf(t, p).LeavingDone? && PcOf(t, p).op.ReleaseOp?)
  {
    hide Scan, Capacity, IsActive, AlreadyVerified, MayAppend;
  }

  /** The parts of the invariant. */
  lemma SafeParts(s: System, held: set<LeaseId>)
    requires Safe(s, held)
    ensures forall p | p in s.at && s.at[p] != Outside && s.at[p] != Stopped :: s.lock == Some(p)
    ensures s.lock.Some? ==> FilesAt(s.files, OwnerPc(s)) && OwnerPc(s) != Outside
    ensures s.lock.None? ==> Resting(s.files) && OwnerPc(s) == Outside
    ensures OwnerPc(s) != Stopped ==> forall l | l in held :: OwnsRecord(s.files, OwnerPc(s), l)
    ensures Acquiring(OwnerPc(s)) ==> held == {}
    ensures forall a, b | a in held && b in held :: a == b
  {
    hide OwnsRecord, Acquiring, Resting, Intact, Quiet, MovingTo, Appending, Finished;
  }

  /** The lock owner moved on within the lock. */
  lemma SafeWithin(s: System, t: System, p: Pid, held: set<LeaseId>)
    requires Safe(s, held) && s.lock == Some(p) && t.lock == s.lock && t.at == s.at[p := PcOf(t, p)] && FilesAt(t.files, PcOf(t, p))
    requires PcOf(t, p) != Stopped ==> forall l | l in held :: OwnsRecord(t.files, PcOf(t, p), l)
    requires Acquiring(PcOf(t, p)) ==> held == {}
    ensures Safe(t, held)
  {
    hide FilesAt, OwnsRecord, Acquiring, Resting;
    SafeParts(s, held);
  }

  /** The lock owner left, with the files at rest. */
  lemma SafeOutside(s: System, t: System, p: Pid, held: set<LeaseId>, after: set<LeaseId>)
    requires Safe(s, held) && s.lock == Some(p) && t.lock == None && t.at == s.at[p := Outside] && Resting(t.files)
    requires (forall l | l in after :: OwnsRecord(t.files, Outside, l)) && forall a, b | a in after && b in after :: a == b
    ensures Safe(t, after)
  {
    hide FilesAt, OwnsRecord, Resting;
    SafeParts(s, held);
  }

  lemma StopKeeps(s: System, t: System, p: Pid, held: set<LeaseId>)
    requires Safe(s, held) && t == Put(s, p, Stopped) && PcOf(s, p) != Outside
    ensures Safe(t, held)
  {
    SafeParts(s, held);
    if s.lock == Some(p) {
      hide FilesAt, OwnsRecord, Resting;
      assert FilesAt(t.files, Stopped) by { StoppedShape(t.files); }
      SafeWithin(s, t, p, held);
    } else {
      hide FilesAt, OwnsRecord, Resting;
      assert s.at[p] == Stopped && t.at == s.at;
    }
  }

  lemma StoppedShape(f: Files)
    ensures FilesAt(f, Stopped) && !Acquiring(Stopped)
  {
  }

  lemma InLock(s: System, held: set<LeaseId>, p: Pid)
    requires Safe(s, held) && PcOf(s, p) != Outside && PcOf(s, p) != Stopped
    ensures s.lock == Some(p) && OwnerPc(s) == PcOf(s, p)
  {
    SafeParts(s, held);
  }

  lemma FailKeeps(s: System, p: Pid, held: set<LeaseId>)
    requires Safe(s, held)
    ensures Safe(Failing(s, p), held)
  {
    var pc := PcOf(s, p);
    hide Safe, FilesAt, OwnsRecord, Resting;
    if pc == Outside || pc == Stopped {
    } else if pc.LeavingDone? || pc == LeavingFailed {
      StopKeeps(s, Failing(s, p), p, held);
    } else {
      InLock(s, held, p);
      SafeParts(s, held);
      FailureRests(s.files, pc);
      FailureShape(s.files, pc, held);
      var t := Failing(s, p);
      PutIs(s, p, s.files, LeavingFailed);
      assert t == Put(s, p, LeavingFailed);
      SafeWithin(s, t, p, held);
    }
  }

  lemma FailureShape(f: Files, pc: Pc, held: set<LeaseId>)
    requires Resting(f) && !pc.LeavingDone? && forall l | l in held :: OwnsRecord(f, pc, l)
    ensures FilesAt(f, LeavingFailed) && !Acquiring(LeavingFailed) && forall l | l in held :: OwnsRecord(f, LeavingFailed, l)
  {
    hide Resting;
  }

  lemma BeginKeeps(s: System, p: Pid, op: Op, held: set<LeaseId>)
    requires Safe(s, held) && PcOf(s, p) == Outside && s.lock == None
    ensures Safe(Put(s, p, Entered(op)).(lock := Some(p)), held)
  {
    hide Resting;
    SafeParts(s, held);
  }

  lemma LeaveCases(s: System, p: Pid, reported: bool)
    requires s.lock == Some(p) && (PcOf(s, p).LeavingDone? || PcOf(s, p) == LeavingFailed)
    ensures var t, seen := StepOf(s, p, reported).0, StepOf(s, p, reported).1;
      && t.files == s.files && t.lock == None && t.at == s.at[p := Outside]
      && seen == if PcOf(s, p).LeavingDone? then Ended(PcOf(s, p).op, reported) else Silent
  {
  }

  lemma HeldLeft(f: Files, op: Op, reported: bool, held: set<LeaseId>)
    requires f.active == (if op.ReleaseOp? then Absent else Whole(op.identity)) && (Acquiring(LeavingDone(op)) ==> held == {})
    requires (forall l | l in held :: OwnsRecord(f, LeavingDone(op), l)) && forall a, b | a in held && b in held :: a == b
    ensures var after := HeldAfter(held, Ended(op, reported));
      (forall l | l in after :: OwnsRecord(f, Outside, l)) && forall a, b | a in after && b in after :: a == b
    ensures Ended(op, reported).Acquired? ==> held == {}
  {
  }

  lemma LeaveKeeps(s: System, p: Pid, reported: bool, held: set<LeaseId>)
    requires Safe(s, held) && s.lock == Some(p) && (PcOf(s, p).LeavingDone? || PcOf(s, p) == LeavingFailed)
    ensures var t, seen := StepOf(s, p, reported).0, StepOf(s, p, reported).1; Safe(t, HeldAfter(held, seen))
    ensures StepOf(s, p, reported).1.Acquired? ==> held == {}
  {
    hide *;
    SafeParts(s, held);
    OwnerIs(s, p);
    LeaveCases(s, p, reported);
    var t, seen := StepOf(s, p, reported).0, StepOf(s, p, reported).1;
    var pc := PcOf(s, p);
    LeavingShape(s.files, pc);
    if pc.LeavingDone? {
      DoneRests(s.files, pc.op);
      FinishedRecord(s.files, pc.op);
      HeldLeft(s.files, pc.op, reported, held);
      SafeOutside(s, t, p, held, HeldAfter(held, seen));
    } else {
      FailedLeft(s.files, held);
      SilentHolds(held);
      SafeOutside(s, t, p, held, held);
    }
  }

  lemma LeavingShape(f: Files, pc: Pc)
    requires FilesAt(f, pc)
    ensures pc.LeavingDone? ==> Finished(f, pc.op) && Intact(f.archive)
    ensures pc == LeavingFailed ==> Resting(f)
  {
    hide Finished, Intact, Resting, Quiet, MovingTo, Appending;
  }

  lemma FailedLeft(f: Files, held: set<LeaseId>)
    requires forall l | l in held :: OwnsRecord(f, LeavingFailed, l)
    ensures forall l | l in held :: OwnsRecord(f, Outside, l)
  {
  }

  lemma SilentHolds(held: set<LeaseId>)
    ensures HeldAfter(held, Silent) == held
  {
  }

  lemma FinishedRecord(f: Files, op: Op)
    requires Finished(f, op)
    ensures f.active == if op.ReleaseOp? then Absent else Whole(op.identity)
  {
    hide Scan;
  }

  lemma InnerStepKeeps(s: System, p: Pid, reported: bool, held: set<LeaseId>)
    requires Safe(s, held) && s.lock == Some(p) && PcOf(s, p) != Stopped && !PcOf(s, p).LeavingDone? && PcOf(s, p) != LeavingFailed
    ensures Safe(StepOf(s, p, reported).0, held) && StepOf(s, p, reported).1 == Silent
    ensures var t := StepOf(s, p, reported).0; t.lock == s.lock && PcOf(t, p) != Outside && PcOf(t, p) != Stopped
  {
    hide Safe, FilesAt, OwnsRecord, Acquiring, StepOf;
    SafeParts(s, held);
    OwnerIs(s, p);
    OwnerStepKeeps(s, p, reported);
    RecordKept(s, p, reported, held);
    SafeWithin(s, StepOf(s, p, reported).0, p, held);
  }

  lemma OwnerIs(s: System, p: Pid)
    requires s.lock == Some(p)
    ensures OwnerPc(s) == PcOf(s, p)
  {
  }

  /** Every move of every process keeps the invariant; an acquisition ends only when no lease is held. */
  lemma MoveKeepsSafe(s: System, p: Pid, m: Move, held: set<LeaseId>)
    requires Safe(s, held)
    ensures Safe(Perform(s, p, m).0, HeldAfter(held, Perform(s, p, m).1))
    ensures Perform(s, p, m).1.Acquired? ==> held == {}
  {
    var pc := PcOf(s, p);
    hide Safe, StepOf;
    if pc != Outside && pc != Stopped { InLock(s, held, p); }
    match m
    case Begin(op) => if pc == Outside && s.lock == None { BeginKeeps(s, p, op, held); }
    case Step => StepKeeps(s, p, true, held);
    case StepUnreported => StepKeeps(s, p, false, held);
    case Fail => FailKeeps(s, p, held);
    case FailAfter => FailAfterKeeps(s, p, held);
    case Stop => if pc != Outside { StopKeeps(s, Put(s, p, Stopped), p, held); }
  }

  lemma StepKeeps(s: System, p: Pid, reported: bool, held: set<LeaseId>)
    requires Safe(s, held)
    ensures Safe(StepOf(s, p, reported).0, HeldAfter(held, StepOf(s, p, reported).1))
    ensures StepOf(s, p, reported).1.Acquired? ==> held == {}
  {
    var pc := PcOf(s, p);
    hide Safe;
    if pc != Outside && pc != Stopped {
      InLock(s, held, p);
      if pc.LeavingDone? || pc == LeavingFailed { LeaveKeeps(s, p, reported, held); } else { InnerStepKeeps(s, p, reported, held); }
    }
    hide StepOf;
  }

  lemma FailAfterKeeps(s: System, p: Pid, held: set<LeaseId>)
    requires Safe(s, held)
    ensures Safe(FailingAfter(s, p), held)
  {
    var pc := PcOf(s, p);
    hide Safe, StepOf;
    if pc.LeavingDone? || pc == LeavingFailed {
      StopKeeps(s, Put(s, p, Stopped), p, held);
    } else {
      var t := StepOf(s, p, false).0;
      if pc == Outside || pc == Stopped {
        NoStep(s, p);
        FailKeeps(s, p, held);
      } else {
        InLock(s, held, p);
        InnerStepKeeps(s, p, false, held);
        FailKeeps(t, p, held);
      }
    }
  }

  lemma NoStep(s: System, p: Pid)
    requires PcOf(s, p) == Outside || PcOf(s, p) == Stopped
    ensures StepOf(s, p, false).0 == s
  {
  }

  // ----- Executions -----

  function HeldOver(held: set<LeaseId>, seen: seq<Label>): set<LeaseId> {
    if seen == [] then held else HeldAfter(HeldOver(held, seen[..|seen| - 1]), seen[|seen| - 1])
  }

  lemma {:induction false} HeldOverFirst(held: set<LeaseId>, seen: seq<Label>)
    requires seen != []
    ensures HeldOver(held, seen) == HeldOver(HeldAfter(held, seen[0]), seen[1..])
    decreases |seen|
  {
    var n := |seen| - 1;
    if n > 0 {
      HeldOverFirst(held, seen[..n]);
      assert seen[..n][1..] == seen[1..][..n - 1];
    } else {
      assert seen[..0] == [] && seen[1..] == [];
    }
  }

  /** The machine before anything ran. */
  function Fresh(): System { System(Files(Absent, map[], map[]), None, map[]) }

  lemma FreshIsSafe()
    ensures Safe(Fresh(), {})
  {
    QuietEmpty();
    hide Scan;
  }

  lemma {:induction false} ExecutionIsSafe(s: System, moves: seq<(Pid, Move)>, held: set<LeaseId>)
    requires Safe(s, held)
    ensures Safe(Execute(s, moves), HeldOver(held, Labels(s, moves)))
    ensures forall k | 0 <= k < |moves| && Labels(s, moves)[k].Acquired? :: HeldOver(held, Labels(s, moves)[..k]) == {}
    decreases |moves|
  {
    hide Safe, Perform;
    if moves != [] {
      var next := Perform(s, moves[0].0, moves[0].1);
      MoveKeepsSafe(s, moves[0].0, moves[0].1, held);
      ExecutionIsSafe(next.0, moves[1..], HeldAfter(held, next.1));
      var seen := Labels(s, moves);
      assert seen == [next.1] + Labels(next.0, moves[1..]) && seen[1..] == Labels(next.0, moves[1..]);
      HeldOverFirst(held, seen);
      forall k | 0 <= k < |moves| && seen[k].Acquired? ensures HeldOver(held, seen[..k]) == {} {
        if k > 0 {
          HeldOverFirst(held, seen[..k]);
          assert seen[..k][1..] == seen[1..][..k - 1];
          assert seen[1..][k - 1] == seen[k];
        } else {
          assert seen[..0] == [];
        }
      }
    }
  }

  lemma {:induction false} HeldUntilReleased(held: set<LeaseId>, seen: seq<Label>, i: nat, j: nat)
    requires i < j <= |seen| && seen[i].Acquired?
    requires forall k | i < k < j :: !(seen[k].Released? && seen[k].identity.lease == seen[i].identity.lease)
    ensures seen[i].identity.lease in HeldOver(held, seen[..j])
    decreases j
  {
    assert seen[..j][..j - 1] == seen[..j - 1] && seen[..j][j - 1] == seen[j - 1];
    if j - 1 > i { HeldUntilReleased(held, seen, i, j - 1); }
  }

  /**
    However the steps of however many processes interleave, fail and stop: between the ends
    of two acquisitions, the first one's lease was released.
   */
  lemma LeasesNeverOverlap(moves: seq<(Pid, Move)>, i: nat, j: nat)
    requires i < j < |moves| && Labels(Fresh(), moves)[i].Acquired? && Labels(Fresh(), moves)[j].Acquired?
    ensures var seen := Labels(Fresh(), moves);
      exists k :: i < k < j && seen[k].Released? && seen[k].identity.lease == seen[i].identity.lease
  {
    hide Labels, Safe, Execute;
    var seen := Labels(Fresh(), moves);
    FreshIsSafe();
    ExecutionIsSafe(Fresh(), moves, {});
    if forall k | i < k < j :: !(seen[k].Released? && seen[k].identity.lease == seen[i].identity.lease) {
      HeldUntilReleased({}, seen, i, j);
      assert false;
    }
  }

  // ----- Incomplete transitions -----

  /** A record without its chain and the lock free: an operation broke off half way. */
  ghost predicate Broken(s: System, files: Files) {
    && s.files == files && files.active != Absent && !Holding(files)
    && (forall p | p in s.at :: s.at[p] == Outside || s.at[p] == Stopped || s.at[p].Entered? || s.at[p].CreatingActive? || s.at[p] == LeavingFailed)
  }

  /** A process stopped while it had the lock. */
  predicate Abandoned(s: System, files: Files) {
    s.files == files && s.lock.Some? && PcOf(s, s.lock.value) == Stopped
    && forall p | p in s.at :: s.at[p] == Outside || s.at[p] == Stopped
  }

  lemma BrokenStays(s: System, p: Pid, m: Move, files: Files)
    requires Broken(s, files)
    ensures Broken(Perform(s, p, m).0, files) && Perform(s, p, m).1 == Silent
  {
    hide Scan, Capacity, Holding, BeginAppend, AlreadyVerified, IsActive;
    assert forall identity :: !IsActive(files, identity) by { NeverActive(files); }
  }

  lemma NeverActive(f: Files)
    requires !Holding(f)
    ensures forall identity :: !IsActive(f, identity)
  {
    hide IsActive;
  }

  lemma AbandonedStays(s: System, p: Pid, m: Move, files: Files)
    requires Abandoned(s, files)
    ensures Abandoned(Perform(s, p, m).0, files) && Perform(s, p, m).1 == Silent
  {
  }

  lemma {:induction false} BlockedForever(s: System, moves: seq<(Pid, Move)>, files: Files)
    requires Broken(s, files) || Abandoned(s, files)
    ensures Execute(s, moves).files == files && forall k | 0 <= k < |moves| :: Labels(s, moves)[k] == Silent
    decreases |moves|
  {
    if moves != [] {
      var p, m := moves[0].0, moves[0].1;
      if Broken(s, files) { BrokenStays(s, p, m, files); } else { AbandonedStays(s, p, m, files); }
      hide Broken, Abandoned, Perform;
      BlockedForever(Perform(s, p, m).0, moves[1..], files);
    }
  }

  /**
    Whatever has run, once a process has stopped inside the lock, or the lock is free and the
    active record does not belong to a complete unreleased chain, no later acquisition,
    verification or release ever ends, and no file changes.
   */
  lemma IncompleteBlocks(moves: seq<(Pid, Move)>, later: seq<(Pid, Move)>)
    requires var s := Execute(Fresh(), moves);
      (s.lock.Some? && PcOf(s, s.lock.value) == Stopped) || (s.lock == None && s.files.active != Absent && !Holding(s.files))
    ensures var s := Execute(Fresh(), moves);
      Execute(s, later).files == s.files && forall k | 0 <= k < |later| :: Labels(s, later)[k] == Silent
  {
    hide Labels, Execute;
    hide Safe, Holding;
    var s := Execute(Fresh(), moves);
    FreshIsSafe();
    ExecutionIsSafe(Fresh(), moves, {});
    SafeParts(s, HeldOver({}, Labels(Fresh(), moves)));
    assert Broken(s, s.files) || Abandoned(s, s.files);
    BlockedForever(s, later, s.files);
  }

  // ----- What success means -----

  /**
    An operation that ends well leaves exactly its lease recorded: an acquisition or a
    verification ends with the record and a complete unreleased chain of its identity whose
    last event is its own, a release with no record and the chain released.
   */
  lemma SuccessIsRecorded(moves: seq<(Pid, Move)>, p: Pid, reported: bool)
    requires var s := Execute(Fresh(), moves); PcOf(s, p).LeavingDone?
    ensures var s := Execute(Fresh(), moves);
      var op := PcOf(s, p).op;
      && StepOf(s, p, reported).1 == Ended(op, reported) && Finished(s.files, op) && StepOf(s, p, reported).0.files == s.files
      && (!op.ReleaseOp? ==> IsActive(s.files, op.identity)) && Intact(s.files.archive)
  {
    hide Execute, Labels;
    hide Safe, Scan, Intact;
    var s := Execute(Fresh(), moves);
    FreshIsSafe();
    ExecutionIsSafe(Fresh(), moves, {});
    InLock(s, HeldOver({}, Labels(Fresh(), moves)), p);
    SafeParts(s, HeldOver({}, Labels(Fresh(), moves)));
  }

  /** Whenever the lock is free and nothing is broken, every archived lane is the released chain of its lease. */
  lemma ArchiveStaysIntact(moves: seq<(Pid, Move)>)
    requires var s := Execute(Fresh(), moves); s.lock == None && (s.files.active == Absent || Holding(s.files))
    ensures Intact(Execute(Fresh(), moves).files.archive)
  {
    hide Execute, Labels;
    hide Safe, Holding, Intact, Quiet;
    FreshIsSafe();
    ExecutionIsSafe(Fresh(), moves, {});
    SafeParts(Execute(Fresh(), moves), HeldOver({}, Labels(Fresh(), moves)));
  }

  predicate LaneSame(f: Files, g: Files, lease: LeaseId) { lease in g.archive && lease in f.archive && g.archive[lease] == f.archive[lease] }

  lemma BeginArchiveKeepsLane(s: System, p: Pid, identity: Identity, lease: LeaseId)
    requires lease in s.files.archive
    ensures LaneSame(s.files, BeginArchive(s, p, identity).files, lease)
  {
    hide Scan, BeginAppend, ArchiveHolds;
  }

  lemma MoveKeepsLane(s: System, p: Pid, identity: Identity, to: LeaseId, lease: LeaseId)
    requires lease in s.files.archive && lease != to
    ensures LaneSame(s.files, MoveOne(s, p, identity, to).files, lease)
  {
    hide BeginAppend, IsFirst;
  }

  lemma StepKeepsLane(s: System, p: Pid, reported: bool, lease: LeaseId)
    requires lease in s.files.archive && !(PcOf(s, p).Moving? && PcOf(s, p).to == lease)
    ensures LaneSame(s.files, StepOf(s, p, reported).0.files, lease)
  {
    hide Enter, BeginArchive, MoveOne;
    match PcOf(s, p)
    case Entered(op) => EnterRecord(s, p, op);
    case Archiving(identity) => BeginArchiveKeepsLane(s, p, identity, lease);
    case Moving(identity, to) => MoveKeepsLane(s, p, identity, to, lease);
    case _ =>
  }

  /** No step touches an archived lane, except to fill the one being archived. */
  lemma ArchivedLanesStay(s: System, p: Pid, m: Move, lease: LeaseId)
    requires lease in s.files.archive && !(PcOf(s, p).Moving? && PcOf(s, p).to == lease)
    ensures LaneSame(s.files, Perform(s, p, m).0.files, lease)
  {
    hide StepOf;
    StepKeepsLane(s, p, true, lease);
    StepKeepsLane(s, p, false, lease);
  }
}

/**
  The writer lease as many processes run it: every file operation is a step of its own, and
  any process may fail or stop at any step.
 */
module LeaseProtocol {
  import opened Options
  import opened LeaseEvidence

  type Pid = nat

  /** The record of the active lease: absent, torn, or whole. */
  datatype Active = Absent | TornRecord | Whole(identity: Identity)

  datatype Files = Files(active: Active, events: Lane, archive: Archive)

  datatype Op = AcquireOp(identity: Identity) | VerifyOp(identity: Identity, checkpoint: Checkpoint, phase: nat) | ReleaseOp(identity: Identity)

  /** Where a process is; everything between entering and leaving happens under the lock directory. */
  datatype Pc =
    | Outside
    | Stopped
    | Entered(op: Op)
    | CreatingActive(identity: Identity)
    | WritingActive(identity: Identity)
    | Archiving(identity: Identity)
    | Moving(identity: Identity, to: LeaseId)
    | CreatingEvent(op: Op, event: LeaseEvent)
    | WritingEvent(op: Op, event: LeaseEvent)
    | CreatingCommit(op: Op, event: LeaseEvent)
    | WritingCommit(op: Op, event: LeaseEvent)
    | RemovingActive(identity: Identity)
    | LeavingDone(op: Op)
    | LeavingFailed

  /** The machine: files, who made the lock directory, and where each process is. */
  datatype System = System(files: Files, lock: Option<Pid>, at: map<Pid, Pc>)

  /**
    What a process does next: begin an operation; take its next step; take it and report
    failure all the same; fail before it or, as when a write is whole but its sync fails,
    after it; or stop dead.
   */
  datatype Move = Begin(op: Op) | Step | StepUnreported | Fail | FailAfter | Stop

  /** What an observer sees: operations that end with all their effects, and whether success was reported. */
  datatype Label = Silent | Acquired(identity: Identity, reported: bool) | Verified(op: Op, reported: bool) | Released(identity: Identity, reported: bool)

  function PcOf(s: System, p: Pid): Pc { if p in s.at then s.at[p] else Outside }

  function Put(s: System, p: Pid, pc: Pc): System { s.(at := s.at[p := pc]) }

  function PutFiles(s: System, p: Pid, files: Files, pc: Pc): System { s.(files := files, at := s.at[p := pc]) }

  // ----- What each step checks and does -----

  /** Room to acquire: nothing recorded, or a released lane that can be archived. */
  predicate Capacity(f: Files) {
    ArchiveHolds(f.archive)
    && var chain := Scan(f.events);
       chain.Some? && (chain.value == [] || Archivable(chain.value, f.archive))
  }

  /** The active record and every recorded event are this identity's, and it is not released. */
  predicate IsActive(f: Files, identity: Identity) {
    f.active == Whole(identity)
    && var chain := Scan(f.events);
       chain.Some? && chain.value != [] && chain.value[0].identity == identity && !IsReleased(chain.value)
  }

  function KindOf(op: Op): Kind {
    match op case AcquireOp(_) => Acquire case VerifyOp(_, c, phase) => Verify(c, phase) case ReleaseOp(_) => Release
  }

  /** Appending begins with its checks; they fail the operation or give the event to write. */
  function BeginAppend(f: Files, op: Op): Pc {
    var chain := Scan(f.events);
    if chain.Some? && MayAppend(chain.value, KindOf(op), op.identity) then CreatingEvent(op, NextEvent(chain.value, KindOf(op), op.identity))
    else LeavingFailed
  }

  /** A checkpoint repeated is not recorded again. */
  predicate AlreadyVerified(f: Files, op: Op) {
    var chain := Scan(f.events);
    chain.Some? && chain.value != [] && chain.value[|chain.value| - 1].kind == KindOf(op)
  }

  function Enter(s: System, p: Pid, op: Op): System {
    match op
    case AcquireOp(identity) =>
      Put(s, p, if Capacity(s.files) then CreatingActive(identity) else LeavingFailed)
    case VerifyOp(identity, _, _) =>
      Put(s, p, if !IsActive(s.files, identity) then LeavingFailed
                else if AlreadyVerified(s.files, op) then LeavingDone(op) else BeginAppend(s.files, op))
    case ReleaseOp(identity) =>
      Put(s, p, if !IsActive(s.files, identity) then LeavingFailed else BeginAppend(s.files, op))
  }

  function BeginArchive(s: System, p: Pid, identity: Identity): System {
    var f := s.files;
    var chain := Scan(f.events);
    if chain.None? then Put(s, p, LeavingFailed)
    else if chain.value == [] then Put(s, p, BeginAppend(f, AcquireOp(identity)))
    else if !Archivable(chain.value, f.archive) then Put(s, p, LeavingFailed)
    else
      var lease := chain.value[0].identity.lease;
      PutFiles(s, p, f.(archive := f.archive[lease := map[]]), Moving(identity, lease))
  }

  /** Renames the first remaining file, or goes on once none is left. */
  function MoveOne(s: System, p: Pid, identity: Identity, to: LeaseId): System {
    var f := s.files;
    if f.events == map[] then Put(s, p, BeginAppend(f, AcquireOp(identity)))
    else if to !in f.archive then Put(s, p, LeavingFailed)
    else
      var name := FirstName(f.events);
      PutFiles(s, p, f.(events := f.events - {name}, archive := f.archive[to := f.archive[to][name := f.events[name]]]), Moving(identity, to))
  }

  /** Creates a file that must not exist; it is torn until written. */
  function CreateFile(s: System, p: Pid, name: Name, pc: Pc): System {
    var f := s.files;
    if name in f.events then Put(s, p, LeavingFailed) else PutFiles(s, p, f.(events := f.events[name := Torn]), pc)
  }

  function WriteFile(s: System, p: Pid, name: Name, content: Content, pc: Pc): System {
    PutFiles(s, p, s.files.(events := s.files.events[name := content]), pc)
  }

  function AfterCommit(op: Op): Pc { if op.ReleaseOp? then RemovingActive(op.identity) else LeavingDone(op) }

  function Ended(op: Op, reported: bool): Label {
    match op
    case AcquireOp(identity) => Acquired(identity, reported)
    case VerifyOp(_, _, _) => Verified(op, reported)
    case ReleaseOp(identity) => Released(identity, reported)
  }

  /** Removing the lock directory ends an operation. */
  function Leave(s: System, p: Pid): System { Put(s, p, Outside).(lock := None) }

  function StepOf(s: System, p: Pid, reported: bool): (System, Label) {
    match PcOf(s, p)
    case Outside => (s, Silent)
    case Stopped => (s, Silent)
    case Entered(op) => (Enter(s, p, op), Silent)
    case CreatingActive(identity) =>
      (if s.files.active == Absent then PutFiles(s, p, s.files.(active := TornRecord), WritingActive(identity)) else Put(s, p, LeavingFailed), Silent)
    case WritingActive(identity) => (PutFiles(s, p, s.files.(active := Whole(identity)), Archiving(identity)), Silent)
    case Archiving(identity) => (BeginArchive(s, p, identity), Silent)
    case Moving(identity, to) => (MoveOne(s, p, identity, to), Silent)
    case CreatingEvent(op, e) => (CreateFile(s, p, EventFile(e.sequence), WritingEvent(op, e)), Silent)
    case WritingEvent(op, e) => (WriteFile(s, p, EventFile(e.sequence), Record(e), CreatingCommit(op, e)), Silent)
    case CreatingCommit(op, e) => (CreateFile(s, p, CommitFile(e.sequence), WritingCommit(op, e)), Silent)
    case WritingCommit(op, e) => (WriteFile(s, p, CommitFile(e.sequence), Marker(Hash(e)), AfterCommit(op)), Silent)
    case RemovingActive(identity) => (PutFiles(s, p, s.files.(active := Absent), LeavingDone(ReleaseOp(identity))), Silent)
    case LeavingDone(op) => (Leave(s, p), Ended(op, reported))
    case LeavingFailed => (Leave(s, p), Silent)
  }

  /** A failed operation removes the lock directory as it ends; if that fails too, or it is already leaving, the lock stays. */
  function Failing(s: System, p: Pid): System {
    match PcOf(s, p)
    case Outside => s
    case Stopped => s
    case LeavingDone(_) => Put(s, p, Stopped)
    case LeavingFailed => Put(s, p, Stopped)
    case _ => Put(s, p, LeavingFailed)
  }

  /** The step is done, and the operation fails: only one whose last effect this was ends as if done. */
  function FailingAfter(s: System, p: Pid): System {
    match PcOf(s, p)
    case LeavingDone(_) => Put(s, p, Stopped)
    case LeavingFailed => Put(s, p, Stopped)
    case _ =>
      var t := StepOf(s, p, false).0;
      if PcOf(t, p).LeavingDone? then t else Failing(t, p)
  }

  function Perform(s: System, p: Pid, m: Move): (System, Label) {
    match m
    case Begin(op) =>
      if PcOf(s, p) == Outside && s.lock == None then (Put(s, p, Entered(op)).(lock := Some(p)), Silent) else (s, Silent)
    case Step => StepOf(s, p, true)
    case StepUnreported => StepOf(s, p, false)
    case Fail => (Failing(s, p), Silent)
    case FailAfter => (FailingAfter(s, p), Silent)
    case Stop => (if PcOf(s, p) == Outside then s else Put(s, p, Stopped), Silent)
  }

  /** The states and labels of an execution. */
  function Execute(s: System, moves: seq<(Pid, Move)>): System
    decreases |moves|
  {
    if moves == [] then s else Execute(Perform(s, moves[0].0, moves[0].1).0, moves[1..])
  }

  /** The label of each move of an execution. */
  function Labels(s: System, moves: seq<(Pid, Move)>): (r: seq<Label>)
    ensures |r| == |moves|
    decreases |moves|
  {
    if moves == [] then []
    else
      var next := Perform(s, moves[0].0, moves[0].1);
      [next.1] + Labels(next.0, moves[1..])
  }
}

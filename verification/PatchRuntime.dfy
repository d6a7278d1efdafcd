/** The multi-file command from claim to recorded effect: checkpoint, apply, test profile,
    commit or rollback, restarted after any interruption. */
module PatchRuntime {
  import opened Base
  import opened Models
  import opened Workspace
  import opened World
  import opened Executor
  import opened PatchPlanner

  /** The persisted command document. */
  datatype Document = Document(ops: seq<Operation>, expectedRevision: int, expectedHash: Option<StateHash>)

  datatype Reply =
    | Finished(status: ProfileStatus, revisionBefore: nat, revisionAfter: nat,
               hashBefore: StateHash, hashAfter: StateHash, changed: seq<Item>)
    | NoResult                  // the command ended without a result
    | Interrupted               // the process died or an error escaped; a later life resumes
    | Raised(code: ErrorCode)   // an error left to the caller

  /** What one test-profile run does: its verdict, and the files it leaves if it changes any. */
  datatype ProfileRun = ProfileRun(status: ProfileStatus, debris: Option<FileMap>)

  // ----- What every reachable state satisfies -----

  /** The change list and hashes are the plan of this document's operations on `origin`. */
  ghost predicate PlanOf(git: Checkout, site: Site, doc: Document, items: seq<Item>,
                         hashBefore: StateHash, hashAfter: StateHash, origin: FileMap) {
    && RunAll(site, origin, doc.ops).Ok?
    && ValidItems(items) && items != []
    && AllAt(origin, items, Backward)
    && IsImage(RunAll(site, origin, doc.ops).value, origin, items)
    && hashBefore == ComputeStateHash(git, origin)
    && hashAfter == PredictStateHash(git, origin, items)
  }

  ghost predicate Faithful(git: Checkout, site: Site, doc: Document, c: Checkpoint, origin: FileMap) {
    PlanOf(git, site, doc, c.items, c.hashBefore, c.hashAfter, origin)
  }

  /** How command, checkpoint, profile and workspace rows depend on each other. */
  ghost predicate Coupled(command: CommandState, c: Option<Checkpoint>, profile: Option<ProfileStatus>,
                          revision: nat, stateHash: StateHash) {
    match c
    case None => profile == None && command !in {Executing, EffectRecorded}
    case Some(row) =>
      && (profile.Some? ==> row.state !in {Planned, Applying})
      && (row.state in {RollingBack, RolledBack} ==> profile.Some? && profile.value != Success)
      && (row.state == Committed ==>
            && profile == Some(Success) && command !in {Claimed, Executing}
            && row.revisionAfter == Some(row.revisionBefore + 1)
            && revision == row.revisionBefore + 1 && stateHash == row.hashAfter)
      && (row.state != Committed ==>
            row.revisionAfter == None && revision == row.revisionBefore && stateHash == row.hashBefore)
      && (command == EffectRecorded ==> row.state in {Committed, RolledBack})
      && (command == Claimed ==> row.state == Planned && profile == None)
      && (command in {Claimed, Executing, EffectRecorded} || IsTerminal(command))
  }

  /** Agreement on every planned path and on every path the state hash can see. */
  ghost predicate Agrees(git: Checkout, items: seq<Item>, a: FileMap, b: FileMap) {
    forall p {:trigger Get(a, p)} :: p in Paths(items) || Visible(git, p) ==> Get(a, p) == Get(b, p)
  }

  /** Every planned path ends in a state that Git lists, so the predicted hash can be met. */
  ghost predicate Traceable(git: Checkout, items: seq<Item>) {
    forall i :: 0 <= i < |items| ==> LeavesTrace(git, items[i])
  }

  predicate IsFinal(state: CheckpointState) {
    state in {Committed, RolledBack}
  }

  /** Undisturbed, the files are in the order of the pass that the row is in. */
  ghost predicate Ordered(files: FileMap, items: seq<Item>, state: CheckpointState) {
    && (state in {Planned, Applying, Applied} ==> InOrder(files, items, Forward))
    && (state == RollingBack ==> InOrder(files, items, Backward))
    && (InOrder(files, items, Forward) || InOrder(files, items, Backward))
  }

  /** Where the files are. Whatever others put there (`found`), only planned paths ever moved, between their
      two images; undisturbed, everything started from the files the checkpoint was taken on. */
  ghost predicate Physical(c: Checkpoint, files: FileMap, origin: FileMap, found: FileMap, tampered: bool, moved: bool) {
    && Steers(found, files, c.items)
    && (!tampered && !moved ==> found == origin && Ordered(files, c.items, c.state))
    && (c.state == Planned && !tampered ==> files == origin)
    && (c.state == Applied && !tampered ==> AllAt(files, c.items, Forward))
  }

  /** The files on which the checkpoint became final: all of the patch, or none of it. */
  ghost predicate Final(git: Checkout, c: Checkpoint, settled: FileMap, origin: FileMap, final: FileMap, tampered: bool) {
    && (c.state == Committed ==> CommittedAs(git, c.items, settled, final, tampered))
    && (c.state == RolledBack ==> Restored(git, c.items, settled, origin, tampered))
  }

  ghost predicate CommittedAs(git: Checkout, items: seq<Item>, files: FileMap, final: FileMap, tampered: bool) {
    Agrees(git, items, files, final) && Traceable(git, items) && (!tampered ==> files == final)
  }

  ghost predicate Restored(git: Checkout, items: seq<Item>, files: FileMap, origin: FileMap, tampered: bool) {
    Agrees(git, items, files, origin) && (!tampered ==> files == origin)
  }

  /** A checkpoint is the plan of the document, and the files are where it says. */
  ghost predicate Grounded(git: Checkout, site: Site, doc: Document, checkpoint: Option<Checkpoint>, files: FileMap,
                           origin: FileMap, found: FileMap, settled: FileMap, tampered: bool, moved: bool) {
    match checkpoint
    case None => !tampered && !moved && files == found
    case Some(c) =>
      && Faithful(git, site, doc, c, origin)
      && Physical(c, files, origin, found, tampered, moved)
      && Final(git, c, settled, origin, RunAll(site, origin, doc.ops).value, tampered)
      && (if IsFinal(c.state) then moved || files == settled else !moved)
  }

  ghost predicate Inv(w: World, site: Site, doc: Document)
    reads w
  {
    && Coupled(w.command, w.checkpoint, w.profile, w.revision, w.stateHash)
    && Grounded(w.git, site, doc, w.checkpoint, w.files, w.origin, w.found, w.settled, w.tampered, w.moved)
  }

  /** The rows whose history is constrained. */
  datatype Rows = Rows(command: CommandState, checkpoint: Option<Checkpoint>, profile: Option<ProfileStatus>,
                       revision: nat, origin: FileMap)

  ghost function RowsOf(w: World): Rows reads w {
    Rows(w.command, w.checkpoint, w.profile, w.revision, w.origin)
  }

  /** Nothing durable is ever taken back: the first profile verdict stays, the checkpoint keeps its
      identity, its final states absorb, and so do the final command states. */
  ghost predicate Later(a: Rows, b: Rows) {
    && (a.profile.Some? ==> b.profile == a.profile)
    && (a.checkpoint.Some? ==>
          b.checkpoint.Some? && SameCheckpoint(a.checkpoint.value, b.checkpoint.value) && b.origin == a.origin)
    && (a.checkpoint.Some? && a.checkpoint.value.state in {Committed, RolledBack, Blocked} ==> b.checkpoint == a.checkpoint)
    && (IsTerminal(a.command) ==> b.command == a.command)
    && (a.command == EffectRecorded ==> b == a)
    && (a.command != Claimed ==> b.command != Claimed)
    && a.revision <= b.revision
  }

  /** The result a caller may rely on, about the files on which the checkpoint became final; they are still
      there unless someone else changed them afterwards. */
  ghost predicate AllOrNothing(w: World, site: Site, doc: Document, r: Reply)
    reads w
  {
    && r.Finished? && w.checkpoint.Some?
    && Faithful(w.git, site, doc, w.checkpoint.value, w.origin)
    && var c := w.checkpoint.value;
    && r.revisionBefore == c.revisionBefore && r.hashBefore == c.hashBefore
    && r.revisionAfter == w.revision && r.hashAfter == w.stateHash
    && (!w.moved ==> w.files == w.settled)
    && if r.status == Success then
         && c.state == Committed && w.revision == c.revisionBefore + 1 && r.changed == c.items
         && CommittedAs(w.git, c.items, w.settled, RunAll(site, w.origin, doc.ops).value, w.tampered)
       else
         && c.state == RolledBack && w.revision == c.revisionBefore && r.changed == []
         && Restored(w.git, c.items, w.settled, w.origin, w.tampered)
  }

  /** Planned paths at their after images, hash as predicted: the files are the final files. */
  lemma CommitAgrees(git: Checkout, site: Site, doc: Document, c: Checkpoint, files: FileMap, origin: FileMap)
    requires Faithful(git, site, doc, c, origin)
    requires AllAt(files, c.items, Forward) && ComputeStateHash(git, files) == c.hashAfter
    ensures Agrees(git, c.items, files, RunAll(site, origin, doc.ops).value)
  {
    var final := RunAll(site, origin, doc.ops).value;
    forall p | p in Paths(c.items) || Visible(git, p) ensures Get(files, p) == Get(final, p) {
      if p in Paths(c.items) {
        var i :| 0 <= i < |c.items| && c.items[i].path == p;
      } else {
        PredictionDeterminesFiles(git, origin, c.items, files, p);
      }
    }
  }

  /** Planned paths back at their before images, hash as recorded: the files are the original files. */
  lemma RollbackAgrees(git: Checkout, c: Checkpoint, files: FileMap, origin: FileMap)
    requires AllAt(origin, c.items, Backward) && c.hashBefore == ComputeStateHash(git, origin)
    requires AllAt(files, c.items, Backward) && ComputeStateHash(git, files) == c.hashBefore
    ensures Agrees(git, c.items, files, origin)
  {
    forall p | p in Paths(c.items) || Visible(git, p) ensures Get(files, p) == Get(origin, p) {
      if p in Paths(c.items) {
        var i :| 0 <= i < |c.items| && c.items[i].path == p;
      } else {
        HashDeterminesFiles(git, files, origin, p);
      }
    }
  }

  /** Agreement on planned paths plus untouched unlisted paths is equality. */
  lemma UntamperedEqual(git: Checkout, items: seq<Item>, files: FileMap, origin: FileMap, b: FileMap)
    requires Agrees(git, items, files, b)
    requires forall p :: p !in Paths(items) ==> Get(files, p) == Get(origin, p) == Get(b, p)
    ensures files == b
  {
    SameFiles(files, b);
  }

  /** The checkpoint, once there is one, was taken on the files and workspace row the life began with. */
  ghost predicate Started(checkpoint: Option<Checkpoint>, files: FileMap, origin: FileMap, revision: nat, stateHash: StateHash,
                          files0: FileMap, revision0: nat, hash0: StateHash) {
    match checkpoint
    case None => files == files0 && revision == revision0 && stateHash == hash0
    case Some(c) => origin == files0 && c.revisionBefore == revision0 && c.hashBefore == hash0
  }

  // ----- The coordinator -----

  /** A live checkpoint is blocked, if the process lives to do it. */
  method BlockLive(w: World, site: Site, doc: Document) returns (out: Outcome)
    requires Inv(w, site, doc) && w.command == Executing && Live(w.checkpoint)
    modifies w`checkpoint, w`fuel
    ensures Inv(w, site, doc) && Later(old(RowsOf(w)), RowsOf(w))
    ensures out.Stopped? || out.Died?
    ensures w.checkpoint == if out.Stopped? then Some(old(w.checkpoint).value.(state := Blocked)) else old(w.checkpoint)
    ensures old(w.fuel) > 0 ==> out.Stopped?
    ensures old(w.fuel) - 1 <= w.fuel <= old(w.fuel)
  {
    out := Block(w);
  }

  /** Blocks a live checkpoint and sends the command to manual reconciliation. */
  method Manual(w: World, site: Site, doc: Document) returns (r: Reply)
    requires Inv(w, site, doc) && !IsTerminal(w.command) && w.command != EffectRecorded
    requires w.checkpoint.Some? ==> w.command == Executing
    modifies w`checkpoint, w`command, w`fuel
    ensures Inv(w, site, doc) && Later(old(RowsOf(w)), RowsOf(w))
    ensures r.NoResult? || r.Interrupted?
    ensures w.command == if r.NoResult? then ManualReconciliation else old(w.command)
    ensures w.checkpoint == old(w.checkpoint) ||
      (old(Live(w.checkpoint)) && w.checkpoint == Some(old(w.checkpoint).value.(state := Blocked)))
    ensures r.NoResult? && old(Live(w.checkpoint)) ==> w.checkpoint == Some(old(w.checkpoint).value.(state := Blocked))
    ensures old(w.fuel) >= 2 ==> r.NoResult?
  {
    if w.checkpoint.Some? && w.checkpoint.value.state !in {Committed, RolledBack, Blocked} {
      var out := BlockLive(w, site, doc);
      if out.Died? {
        return Interrupted;
      }
    }
    var pulse := w.Tick();
    if pulse.Halt? {
      return Interrupted;
    }
    w.command := ManualReconciliation;
    return NoResult;
  }

  /** Turns a pass that did not complete into the coordinator's reaction. */
  method React(w: World, site: Site, doc: Document, out: Outcome) returns (r: Reply)
    requires !out.Done?
    requires Inv(w, site, doc) && w.command == Executing
    modifies w`checkpoint, w`command, w`fuel
    ensures Inv(w, site, doc) && Later(old(RowsOf(w)), RowsOf(w)) && !r.Finished?
    ensures out.Died? ==> r.Interrupted?
    ensures !out.Stopped? ==> RowsOf(w) == old(RowsOf(w))
    ensures !out.Stopped? && old(Healthy(w)) ==> Healthy(w)
    ensures out.Stopped? && old(w.fuel) >= 2 ==> r.NoResult? && w.command == ManualReconciliation
  {
    match out {
      case Stopped => r := Manual(w, site, doc);
      case Died => r := Interrupted;
      case Refused => r := Raised(InvalidStateTransition);
    }
  }

  /** The world is undisturbed: whole temps and no foreign changes. */
  ghost predicate Healthy(w: World)
    reads w
  {
    && w.checkpoint.Some? && w.checkpoint.value.state != Blocked
    && WholeTemps(w.temps, w.checkpoint.value.items) && !w.tampered && !w.moved
  }

  lemma ApplyKeeps(was: Disk, now: Disk, origin: FileMap, found: FileMap, tampered: bool, fault: Fault, out: Outcome)
    requires was.checkpoint.Some? && was.checkpoint.value.state in {Planned, Applying}
    requires Physical(was.checkpoint.value, was.files, origin, found, tampered, false)
    requires ApplyOk(was, now, fault, out)
    ensures Physical(now.checkpoint.value, now.files, origin, found, tampered, false)
  {
    SteersOn(found, was.files, now.files, was.checkpoint.value.items, Forward);
    if !tampered {
      KeepsOrder(was.files, now.files, was.checkpoint.value.items, Forward);
    }
  }

  lemma ApplyGrounded(git: Checkout, site: Site, doc: Document, was: Disk, now: Disk, origin: FileMap, found: FileMap,
                      settled: FileMap, tampered: bool, moved: bool, fault: Fault, out: Outcome)
    requires was.checkpoint.Some? && was.checkpoint.value.state in {Planned, Applying}
    requires Grounded(git, site, doc, was.checkpoint, was.files, origin, found, settled, tampered, moved)
    requires ApplyOk(was, now, fault, out)
    ensures Grounded(git, site, doc, now.checkpoint, now.files, origin, found, settled, tampered, moved)
  {
    ApplyKeeps(was, now, origin, found, tampered, fault, out);
  }

  /** Undisturbed and after clean crashes, an apply is never blocked and leaves whole temps. */
  lemma ApplyCalm(git: Checkout, site: Site, doc: Document, was: Disk, now: Disk, origin: FileMap, found: FileMap,
                  settled: FileMap, out: Outcome)
    requires was.checkpoint.Some? && was.checkpoint.value.state in {Planned, Applying}
    requires Grounded(git, site, doc, was.checkpoint, was.files, origin, found, settled, false, false)
    requires WholeTemps(was.temps, was.checkpoint.value.items)
    requires ApplyOk(was, now, Crash(None), out)
    ensures !out.Stopped? && WholeTemps(now.temps, now.checkpoint.value.items) && now.checkpoint.value.state != Blocked
  {
    SteersMixed(origin, was.files, was.checkpoint.value.items);
  }

  lemma RollbackKeeps(git: Checkout, was: Disk, now: Disk, origin: FileMap, found: FileMap, tampered: bool, fault: Fault, out: Outcome)
    requires was.checkpoint.Some? && was.checkpoint.value.state in {Applied, RollingBack}
    requires Physical(was.checkpoint.value, was.files, origin, found, tampered, false)
    requires RollbackOk(git, was, now, fault, out)
    requires AllAt(origin, was.checkpoint.value.items, Backward) && was.checkpoint.value.hashBefore == ComputeStateHash(git, origin)
    ensures Physical(now.checkpoint.value, now.files, origin, found, tampered, false)
    ensures out.Done? ==> Restored(git, was.checkpoint.value.items, now.files, origin, tampered)
  {
    var items := was.checkpoint.value.items;
    SteersOn(found, was.files, now.files, items, Backward);
    if !tampered {
      RollbackOrder(was, now, found);
    }
    if out.Done? {
      RollbackAgrees(git, now.checkpoint.value, now.files, origin);
      if !tampered {
        UntamperedEqual(git, items, now.files, origin, origin);
      }
    }
  }

  lemma RollbackGrounded(git: Checkout, site: Site, doc: Document, was: Disk, now: Disk, origin: FileMap, found: FileMap,
                         settled: FileMap, after: FileMap, tampered: bool, moved: bool, fault: Fault, out: Outcome)
    requires was.checkpoint.Some? && was.checkpoint.value.state in {Applied, RollingBack}
    requires Grounded(git, site, doc, was.checkpoint, was.files, origin, found, settled, tampered, moved)
    requires RollbackOk(git, was, now, fault, out) && (out.Done? ==> after == now.files)
    ensures Grounded(git, site, doc, now.checkpoint, now.files, origin, found, after, tampered, moved)
  {
    RollbackKeeps(git, was, now, origin, found, tampered, fault, out);
    RestoredGrounded(git, site, doc, was.checkpoint.value, now.checkpoint.value, now.files, origin, found, after, tampered);
  }

  lemma RestoredGrounded(git: Checkout, site: Site, doc: Document, k: Checkpoint, c: Checkpoint, files: FileMap,
                         origin: FileMap, found: FileMap, after: FileMap, tampered: bool)
    requires Faithful(git, site, doc, k, origin) && c == k.(state := c.state) && c.state != Committed
    requires Physical(c, files, origin, found, tampered, false)
    requires c.state == RolledBack ==> after == files && Restored(git, c.items, files, origin, tampered)
    ensures Grounded(git, site, doc, Some(c), files, origin, found, after, tampered, false)
  {
  }

  lemma RollbackOrder(was: Disk, now: Disk, found: FileMap)
    requires was.checkpoint.Some? && now.checkpoint.Some? && was.checkpoint.value.state in {Applied, RollingBack}
    requires Physical(was.checkpoint.value, was.files, found, found, false, false)
    requires now.checkpoint.value.items == was.checkpoint.value.items
    requires now == was || now.checkpoint.value.state in {RollingBack, RolledBack, Blocked}
    requires var items := was.checkpoint.value.items;
      Advances(was.files, now.files, items, Backward) && WritesFirst(was.files, now.files, items, Backward)
    ensures Ordered(now.files, now.checkpoint.value.items, now.checkpoint.value.state)
  {
    var items := was.checkpoint.value.items;
    if was.checkpoint.value.state == Applied {
      EndsInOrder(was.files, items, Forward);
    }
    KeepsOrder(was.files, now.files, items, Backward);
  }

  /** Undisturbed and after clean crashes, a rollback is never blocked and leaves whole temps. */
  lemma RollbackCalm(git: Checkout, site: Site, doc: Document, was: Disk, now: Disk, origin: FileMap, found: FileMap,
                     settled: FileMap, out: Outcome)
    requires was.checkpoint.Some? && was.checkpoint.value.state in {Applied, RollingBack}
    requires Grounded(git, site, doc, was.checkpoint, was.files, origin, found, settled, false, false)
    requires WholeTemps(was.temps, was.checkpoint.value.items)
    requires RollbackOk(git, was, now, Crash(None), out)
    ensures !out.Stopped? && WholeTemps(now.temps, now.checkpoint.value.items) && now.checkpoint.value.state != Blocked
  {
    var items := was.checkpoint.value.items;
    SteersMixed(origin, was.files, items);
    SteersOn(origin, was.files, now.files, items, Backward);
    if AllAt(now.files, items, Backward) {
      RestoredFiles(now.files, origin, items);
    }
  }

  /** An untampered rollback always passes its hash check. */
  lemma RestoredHash(git: Checkout, site: Site, doc: Document, c: Checkpoint, files: FileMap, origin: FileMap)
    requires Faithful(git, site, doc, c, origin) && AllAt(files, c.items, Backward)
    requires forall p :: p !in Paths(c.items) ==> Get(files, p) == Get(origin, p)
    ensures ComputeStateHash(git, files) == c.hashBefore
  {
    RestoredFiles(files, origin, c.items);
  }

  /** Re-checks an applied checkpoint and clears its temps; an I/O error here escapes to the caller. */
  method RecheckApplied(w: World, site: Site, doc: Document) returns (out: Outcome)
    requires Inv(w, site, doc) && w.command == Executing && w.checkpoint.Some? && w.checkpoint.value.state == Applied
    modifies w`temps, w`checkpoint, w`fuel
    ensures Inv(w, site, doc) && Later(old(RowsOf(w)), RowsOf(w)) && out in {Done, Stopped, Died}
    ensures out.Done? ==> w.checkpoint == old(w.checkpoint) && AllAt(w.files, w.checkpoint.value.items, Forward)
    ensures !out.Stopped? ==> RowsOf(w) == old(RowsOf(w))
    ensures old(Healthy(w)) && w.fault == Crash(None) ==> Healthy(w) && !out.Stopped?
    ensures old(w.fuel) >= PassBudget(|old(w.checkpoint).value.items|) ==> !out.Died?
    ensures w.fuel >= old(w.fuel) - PassBudget(|old(w.checkpoint).value.items|) - 3
  {
    AppliedOrBlocked(w, site, doc);
    out := Recheck(w, w.checkpoint.value.items);
  }

  /** Blocking an applied checkpoint keeps the invariant, whatever happens to temps and schedule. */
  lemma AppliedOrBlocked(w: World, site: Site, doc: Document)
    requires Inv(w, site, doc) && w.command == Executing && w.checkpoint.Some? && w.checkpoint.value.state == Applied
    ensures var c := w.checkpoint.value.(state := Blocked);
      && Coupled(w.command, Some(c), w.profile, w.revision, w.stateHash)
      && Faithful(w.git, site, doc, c, w.origin) && Physical(c, w.files, w.origin, w.found, w.tampered, w.moved)
  {
  }

  /** Finishes or re-checks an apply. */
  method PushForward(w: World, site: Site, doc: Document) returns (out: Outcome)
    requires Inv(w, site, doc) && w.command == Executing
    requires w.checkpoint.Some? && w.checkpoint.value.state in {Planned, Applying, Applied}
    modifies w`files, w`temps, w`checkpoint, w`fuel
    ensures Inv(w, site, doc) && Later(old(RowsOf(w)), RowsOf(w))
    ensures out.Done? ==> w.checkpoint == Some(old(w.checkpoint).value.(state := Applied))
    ensures out.Done? ==> AllAt(w.files, w.checkpoint.value.items, Forward)
    ensures out in {Done, Stopped, Died}
    ensures old(Healthy(w)) && w.fault == Crash(None) && old(w.fuel) >= PassBudget(|old(w.checkpoint).value.items|) + 3 ==>
      out.Done? && Healthy(w)
    ensures old(Healthy(w)) && w.fault == Crash(None) ==> Healthy(w) && !out.Stopped?
    ensures w.fuel >= old(w.fuel) - PassBudget(|old(w.checkpoint).value.items|) - 3
  {
    if w.checkpoint.value.state == Applied {
      out := RecheckApplied(w, site, doc);
    } else {
      out := FinishApply(w, site, doc);
    }
  }

  /** Moves the planned paths on towards their after images. */
  method FinishApply(w: World, site: Site, doc: Document) returns (out: Outcome)
    requires Inv(w, site, doc) && w.command == Executing
    requires w.checkpoint.Some? && w.checkpoint.value.state in {Planned, Applying}
    modifies w`files, w`temps, w`checkpoint, w`fuel
    ensures Inv(w, site, doc) && Later(old(RowsOf(w)), RowsOf(w)) && out in {Done, Stopped, Died}
    ensures out.Done? ==> w.checkpoint == Some(old(w.checkpoint).value.(state := Applied))
    ensures out.Done? ==> AllAt(w.files, w.checkpoint.value.items, Forward)
    ensures old(Healthy(w)) && w.fault == Crash(None) ==> Healthy(w) && !out.Stopped?
    ensures old(w.fuel) >= PassBudget(|old(w.checkpoint).value.items|) + 2 ==> !out.Died?
    ensures w.fuel >= old(w.fuel) - PassBudget(|old(w.checkpoint).value.items|) - 2
  {
    ghost var was, calm := DiskOf(w), Healthy(w) && w.fault == Crash(None);
    out := Apply(w);
    ApplyGrounded(w.git, site, doc, was, DiskOf(w), w.origin, w.found, w.settled, w.tampered, w.moved, w.fault, out);
    if calm {
      ApplyCalm(w.git, site, doc, was, DiskOf(w), w.origin, w.found, w.settled, out);
    }
  }

  /** Finishes or re-checks a rollback. */
  method PushBackward(w: World, site: Site, doc: Document) returns (out: Outcome)
    requires Inv(w, site, doc) && w.command == Executing
    requires w.profile.Some? && w.profile.value != Success
    requires w.checkpoint.Some? && w.checkpoint.value.state in {Applied, RollingBack, RolledBack}
    modifies w`files, w`temps, w`checkpoint, w`fuel, w`settled
    ensures Inv(w, site, doc) && Later(old(RowsOf(w)), RowsOf(w))
    ensures out.Done? ==> w.checkpoint == Some(old(w.checkpoint).value.(state := RolledBack))
    ensures old(Healthy(w)) && w.fault == Crash(None) && old(w.fuel) >= PassBudget(|old(w.checkpoint).value.items|) + 3 ==>
      out.Done? && Healthy(w)
    ensures old(Healthy(w)) && w.fault == Crash(None) ==> Healthy(w) && !out.Stopped?
    ensures w.fuel >= old(w.fuel) - PassBudget(|old(w.checkpoint).value.items|) - 3
  {
    if w.checkpoint.value.state == RolledBack {
      out := RecheckRolledBack(w, site, doc);
    } else {
      out := FinishRollback(w, site, doc);
    }
  }

  /** A finished rollback only asks whether the planned paths still hold their before images. */
  method RecheckRolledBack(w: World, site: Site, doc: Document) returns (out: Outcome)
    requires Inv(w, site, doc) && w.command == Executing && w.checkpoint.Some? && w.checkpoint.value.state == RolledBack
    modifies w`checkpoint, w`fuel
    ensures Inv(w, site, doc) && RowsOf(w) == old(RowsOf(w)) && !out.Stopped?
    ensures out.Done? <==> AllAt(w.files, w.checkpoint.value.items, Backward)
    ensures !w.moved ==> out.Done?
    ensures w.fuel >= old(w.fuel) - 1
  {
    if !w.moved {
      PlannedAgree(w.git, w.checkpoint.value.items, w.files, w.origin);
    }
    out := RequireAll(w, w.checkpoint.value.items, Backward);
  }

  /** Drives the rollback on; where it completes, the files are fit to settle on. */
  method RollbackLive(w: World, site: Site, doc: Document) returns (out: Outcome)
    requires Inv(w, site, doc) && w.command == Executing && w.profile.Some? && w.profile.value != Success
    requires w.checkpoint.Some? && w.checkpoint.value.state in {Applied, RollingBack}
    modifies w`files, w`temps, w`checkpoint, w`fuel
    ensures out in {Done, Stopped, Died}
    ensures w.checkpoint.Some? && w.checkpoint.value == old(w.checkpoint).value.(state := w.checkpoint.value.state)
    ensures w.checkpoint.value.state in
      (if out.Done? then {RolledBack} else if out.Stopped? then {Blocked} else {old(w.checkpoint).value.state, RollingBack})
    ensures Coupled(w.command, w.checkpoint, w.profile, w.revision, w.stateHash)
    ensures Grounded(w.git, site, doc, w.checkpoint, w.files, w.origin, w.found, if out.Done? then w.files else w.settled, w.tampered, w.moved)
    ensures old(Healthy(w)) && w.fault == Crash(None) ==> Healthy(w) && !out.Stopped?
    ensures old(w.fuel) >= PassBudget(|old(w.checkpoint).value.items|) + 3 ==> !out.Died?
    ensures w.fuel >= old(w.fuel) - PassBudget(|old(w.checkpoint).value.items|) - 3
  {
    ghost var was, calm := DiskOf(w), Healthy(w) && w.fault == Crash(None);
    out := Rollback(w);
    ghost var after := if out.Done? then w.files else w.settled;
    RollbackGrounded(w.git, site, doc, was, DiskOf(w), w.origin, w.found, w.settled, after, w.tampered, w.moved, w.fault, out);
    if calm {
      RollbackCalm(w.git, site, doc, was, DiskOf(w), w.origin, w.found, w.settled, out);
    }
  }

  /** Restores the before images; if that succeeds, the files are the ones the rollback settled on. */
  method FinishRollback(w: World, site: Site, doc: Document) returns (out: Outcome)
    requires Inv(w, site, doc) && w.command == Executing
    requires w.profile.Some? && w.profile.value != Success
    requires w.checkpoint.Some? && w.checkpoint.value.state in {Applied, RollingBack}
    modifies w`files, w`temps, w`checkpoint, w`fuel, w`settled
    ensures Inv(w, site, doc) && Later(old(RowsOf(w)), RowsOf(w))
    ensures out.Done? ==> w.checkpoint == Some(old(w.checkpoint).value.(state := RolledBack))
    ensures old(w.fuel) >= PassBudget(|old(w.checkpoint).value.items|) + 3 ==> !out.Died?
    ensures out in {Done, Stopped, Died}
    ensures old(Healthy(w)) && w.fault == Crash(None) ==> Healthy(w) && !out.Stopped?
    ensures w.fuel >= old(w.fuel) - PassBudget(|old(w.checkpoint).value.items|) - 3
  {
    out := RollbackLive(w, site, doc);
    if out.Done? {
      w.settled := w.files;
    }
  }

  lemma PlannedAgree(git: Checkout, items: seq<Item>, files: FileMap, origin: FileMap)
    requires Agrees(git, items, files, origin) && AllAt(origin, items, Backward)
    ensures AllAt(files, items, Backward)
  {
    forall i | 0 <= i < |items| ensures Get(files, items[i].path) == Target(items[i], Backward) {
      assert items[i].path in Paths(items);
    }
  }

  /** Brings the disk to where the checkpoint row says it is heading. */
  method Advance(w: World, site: Site, doc: Document) returns (out: Outcome)
    requires Inv(w, site, doc) && w.command == Executing && w.checkpoint.value.state != Blocked
    modifies w`files, w`temps, w`checkpoint, w`fuel, w`settled
    ensures Inv(w, site, doc) && Later(old(RowsOf(w)), RowsOf(w))
    ensures var s := old(w.checkpoint).value.state;
      out.Done? ==> w.checkpoint == Some(old(w.checkpoint).value.(state := if s in {RollingBack, RolledBack} then RolledBack else Applied))
    ensures old(Healthy(w)) && w.fault == Crash(None) && old(w.fuel) >= PassBudget(|old(w.checkpoint).value.items|) + 3 ==>
      out.Done? && Healthy(w)
    ensures old(Healthy(w)) && w.fault == Crash(None) ==> Healthy(w) && !out.Stopped?
    ensures w.fuel >= old(w.fuel) - PassBudget(|old(w.checkpoint).value.items|) - 3
  {
    var state := w.checkpoint.value.state;
    if state in {Planned, Applying, Applied} {
      out := PushForward(w, site, doc);
    } else {
      out := PushBackward(w, site, doc);
    }
  }

  /** Runs the profile once a complete apply is on disk, unless a verdict is already recorded.
      The run may change any file; a crash may lose its verdict but never replace a recorded one. */
  method EnsureProfile(w: World, site: Site, doc: Document, run: ProfileRun) returns (r: Option<Reply>)
    requires Inv(w, site, doc) && w.command == Executing
    requires w.checkpoint.Some? && w.checkpoint.value.state == Applied
    modifies w`files, w`profile, w`fuel, w`found, w`tampered
    ensures Inv(w, site, doc) && Later(old(RowsOf(w)), RowsOf(w))
    ensures r.None? ==> w.profile == (if old(w.profile).Some? then old(w.profile) else Some(run.status))
    ensures r.Some? ==> r.value.Interrupted?
    ensures old(w.fuel) >= 1 ==> r.None?
    ensures w.fuel >= old(w.fuel) - 1
    ensures run.debris == None ==> w.files == old(w.files) && w.found == old(w.found) && w.tampered == old(w.tampered)
  {
    if w.profile.Some? {
      return None;
    }
    if run.debris.Some? {
      w.files := run.debris.value;
      w.found := w.files;
      w.tampered := true;
    }
    var pulse := w.Tick();
    if pulse.Halt? {
      return Some(Interrupted);
    }
    w.profile := Some(run.status);
    return None;
  }

  /** The final transaction: bind verdict, checkpoint, workspace revision and command atomically. A command
      already recorded is a replay and changes nothing. */
  method Finalize(w: World, site: Site, doc: Document) returns (r: Option<Reply>)
    requires Inv(w, site, doc) && w.command in {Executing, EffectRecorded} && w.profile.Some? && w.checkpoint.Some?
    requires w.command == Executing && w.profile == Some(Success) ==> w.checkpoint.value.state == Applied && Verified(w, site, doc)
    modifies w`checkpoint, w`command, w`revision, w`stateHash, w`fuel, w`settled
    ensures Inv(w, site, doc) && Later(old(RowsOf(w)), RowsOf(w))
    ensures w.command in {Executing, EffectRecorded}
    ensures w.checkpoint.value.state in {old(w.checkpoint).value.state, Committed}
    ensures r.None? ==> w.command == EffectRecorded
    ensures r.Some? ==> RowsOf(w) == old(RowsOf(w)) && w.stateHash == old(w.stateHash)
    ensures r == Some(Raised(InvalidStateTransition)) <==>
      old(w.command) == Executing && w.profile != Some(Success) && old(w.checkpoint).value.state != RolledBack
    ensures r in {None, Some(Interrupted), Some(Raised(InvalidStateTransition))}
    ensures old(w.command) == EffectRecorded ==> r.None? && RowsOf(w) == old(RowsOf(w)) && w.stateHash == old(w.stateHash)
    ensures old(w.fuel) >= 1 && (w.profile == Some(Success) || old(w.checkpoint).value.state == RolledBack) ==> r.None?
  {
    if w.command == EffectRecorded {
      if w.checkpoint.value.state != (if w.profile.value == Success then Committed else RolledBack) {
        assert false;
        return Some(Raised(JournalConflict));
      }
      return None;
    }
    if w.profile.value != Success && w.checkpoint.value.state != RolledBack {
      return Some(Raised(InvalidStateTransition));
    }
    var pulse := w.Tick();
    if pulse.Halt? {
      return Some(Interrupted);
    }
    RecordOutcome(w, site, doc);
    return None;
  }

  lemma CommitGrounded(git: Checkout, site: Site, doc: Document, c: Checkpoint, files: FileMap, origin: FileMap, found: FileMap,
                       settled: FileMap, tampered: bool, moved: bool)
    requires Grounded(git, site, doc, Some(c), files, origin, found, settled, tampered, moved) && c.state == Applied
    requires CommittedAs(git, c.items, files, RunAll(site, origin, doc.ops).value, tampered)
    ensures Grounded(git, site, doc, Some(CommittedRow(c)), files, origin, found, files, tampered, moved)
    ensures Coupled(EffectRecorded, Some(CommittedRow(c)), Some(Success), c.revisionBefore + 1, c.hashAfter)
  {
  }

  /** The rows of the final transaction. */
  method RecordOutcome(w: World, site: Site, doc: Document)
    requires Inv(w, site, doc) && w.command == Executing && w.profile.Some? && w.checkpoint.Some?
    requires if w.profile == Some(Success) then w.checkpoint.value.state == Applied && Verified(w, site, doc)
             else w.checkpoint.value.state == RolledBack
    modifies w`checkpoint, w`command, w`revision, w`stateHash, w`settled
    ensures Inv(w, site, doc) && Later(old(RowsOf(w)), RowsOf(w)) && w.command == EffectRecorded
    ensures w.checkpoint.value.state == if w.profile == Some(Success) then Committed else RolledBack
  {
    if w.profile.value == Success {
      Commit(w, site, doc);
    } else {
      w.command := EffectRecorded;
    }
  }

  method Commit(w: World, site: Site, doc: Document)
    requires Inv(w, site, doc) && w.command == Executing && w.profile == Some(Success)
    requires w.checkpoint.Some? && w.checkpoint.value.state == Applied && Verified(w, site, doc)
    modifies w`checkpoint, w`command, w`revision, w`stateHash, w`settled
    ensures Inv(w, site, doc) && Later(old(RowsOf(w)), RowsOf(w))
    ensures w.command == EffectRecorded && w.checkpoint == Some(CommittedRow(old(w.checkpoint).value))
  {
    var c := w.checkpoint.value;
    CommitGrounded(w.git, site, doc, c, w.files, w.origin, w.found, w.settled, w.tampered, w.moved);
    w.revision := c.revisionBefore + 1;
    w.stateHash := c.hashAfter;
    w.checkpoint := Some(CommittedRow(c));
    w.settled := w.files;
    w.command := EffectRecorded;
  }

  /** Undisturbed files at the after images have the predicted hash exactly if the patch is traceable. */
  lemma AppliedHash(git: Checkout, site: Site, doc: Document, c: Checkpoint, files: FileMap, origin: FileMap)
    requires Faithful(git, site, doc, c, origin) && AllAt(files, c.items, Forward)
    requires forall p :: p !in Paths(c.items) ==> Get(files, p) == Get(origin, p)
    ensures ComputeStateHash(git, files) == c.hashAfter <==> Traceable(git, c.items)
  {
    PredictionAgrees(git, origin, c.items, files);
  }

  /** No fault has spoiled the run: no checkpoint yet, a healthy one, or one that was blocked only
      because a successful patch cannot meet its predicted hash. */
  ghost predicate Sound(w: World)
    reads w
  {
    || w.checkpoint.None?
    || (Healthy(w) && !IsTerminal(w.command))
    || (w.checkpoint.value.state == Blocked && w.profile == Some(Success) && !Traceable(w.git, w.checkpoint.value.items))
  }

  /** The files are the final ones wherever it can be seen, and every planned path left a trace; if nobody
      changed files in between they are the final files. */
  ghost predicate Verified(w: World, site: Site, doc: Document)
    reads w
  {
    && w.checkpoint.Some? && RunAll(site, w.origin, doc.ops).Ok?
    && CommittedAs(w.git, w.checkpoint.value.items, w.files, RunAll(site, w.origin, doc.ops).value, w.tampered)
  }

  /** The last look before committing: the recomputed hash must be the predicted one. */
  method CompareHash(w: World, site: Site, doc: Document) returns (r: Option<Reply>)
    requires Inv(w, site, doc) && w.command == Executing && w.profile == Some(Success)
    requires w.checkpoint.Some? && w.checkpoint.value.state == Applied
    requires AllAt(w.files, w.checkpoint.value.items, Forward)
    modifies w`checkpoint, w`command, w`fuel
    ensures Inv(w, site, doc) && Later(old(RowsOf(w)), RowsOf(w))
    ensures r.None? ==> RowsOf(w) == old(RowsOf(w)) && w.fuel == old(w.fuel) && Verified(w, site, doc)
    ensures r.Some? ==> r.value in {NoResult, Interrupted}
    ensures !w.tampered ==> (r.None? <==> Traceable(w.git, old(w.checkpoint).value.items))
    ensures r.Some? && old(w.fuel) >= 2 ==> r == Some(NoResult) && w.command == ManualReconciliation
    ensures w.checkpoint.value.state == Blocked || (w.checkpoint.value.state == Applied && w.command == Executing)
    ensures old(Healthy(w)) ==> Sound(w)
  {
    var same := HashIsPredicted(w, site, doc);
    if same {
      return None;
    }
    var reply := Manual(w, site, doc);
    return Some(reply);
  }

  method HashIsPredicted(w: World, site: Site, doc: Document) returns (same: bool)
    requires Inv(w, site, doc) && w.checkpoint.Some? && w.checkpoint.value.state == Applied
    requires AllAt(w.files, w.checkpoint.value.items, Forward)
    ensures same ==> Verified(w, site, doc)
    ensures !w.tampered ==> (same <==> Traceable(w.git, w.checkpoint.value.items))
  {
    HashVerdict(w, site, doc);
    same := ComputeStateHash(w.git, w.files) == w.checkpoint.value.hashAfter;
  }

  /** What the comparison tells: a match means the final files, and undisturbed it happens exactly for
      traceable patches. */
  lemma HashVerdict(w: World, site: Site, doc: Document)
    requires Inv(w, site, doc) && w.checkpoint.Some? && w.checkpoint.value.state == Applied
    requires AllAt(w.files, w.checkpoint.value.items, Forward)
    ensures var c := w.checkpoint.value; var same := ComputeStateHash(w.git, w.files) == c.hashAfter;
      && (same ==> Verified(w, site, doc))
      && (!w.tampered ==> (same <==> Traceable(w.git, c.items)))
  {
    var c := w.checkpoint.value;
    if !w.tampered {
      AppliedHash(w.git, site, doc, c, w.files, w.origin);
    }
    if ComputeStateHash(w.git, w.files) == c.hashAfter {
      MatchMeans(w.git, site, doc, c, w.files, w.origin);
      if !w.tampered {
        UntamperedEqual(w.git, c.items, w.files, w.origin, RunAll(site, w.origin, doc.ops).value);
      }
    }
  }

  /** The predicted hash on the after images: the final files wherever it can be seen, each planned path traced. */
  lemma MatchMeans(git: Checkout, site: Site, doc: Document, c: Checkpoint, files: FileMap, origin: FileMap)
    requires Faithful(git, site, doc, c, origin)
    requires AllAt(files, c.items, Forward) && ComputeStateHash(git, files) == c.hashAfter
    ensures Agrees(git, c.items, files, RunAll(site, origin, doc.ops).value) && Traceable(git, c.items)
  {
    CommitAgrees(git, site, doc, c, files, origin);
    PredictionLeavesTrace(git, origin, c.items, files);
  }

  /** The success side: re-check the disk against the checkpoint before committing. */
  method VerifyApplied(w: World, site: Site, doc: Document) returns (r: Option<Reply>)
    requires Inv(w, site, doc) && w.command == Executing && w.profile == Some(Success)
    requires w.checkpoint.Some? && w.checkpoint.value.state == Applied
    modifies w`temps, w`checkpoint, w`command, w`fuel
    ensures Inv(w, site, doc) && Later(old(RowsOf(w)), RowsOf(w))
    ensures r.None? ==> RowsOf(w) == old(RowsOf(w)) && Verified(w, site, doc)
    ensures r.Some? ==> !r.value.Finished?
    ensures old(Healthy(w)) && w.fault == Crash(None) ==> Sound(w)
    ensures var items := old(w.checkpoint).value.items;
      old(Healthy(w)) && w.fault == Crash(None) && old(w.fuel) >= PassBudget(|items|) + 5 ==>
        if Traceable(w.git, items) then r.None? && w.fuel >= old(w.fuel) - PassBudget(|items|) - 3
        else r == Some(NoResult) && w.command == ManualReconciliation
  {
    var out := RecheckApplied(w, site, doc);
    if out.Done? {
      r := CompareHash(w, site, doc);
    } else {
      var reply := React(w, site, doc, out);
      r := Some(reply);
    }
  }

  /** Commit after success, rollback after anything else, then the final transaction. */
  method FinishCheckpoint(w: World, site: Site, doc: Document) returns (r: Option<Reply>)
    requires Inv(w, site, doc) && w.command == Executing && w.profile.Some?
    requires w.checkpoint.Some? && w.checkpoint.value.state in {Applied, RollingBack, RolledBack}
    modifies w`files, w`temps, w`checkpoint, w`command, w`revision, w`stateHash, w`fuel, w`settled
    ensures Inv(w, site, doc) && Later(old(RowsOf(w)), RowsOf(w))
    ensures r.None? ==> w.command == EffectRecorded
    ensures r.Some? ==> !r.value.Finished?
    ensures old(Healthy(w)) && w.fault == Crash(None) ==> Sound(w)
    ensures old(Healthy(w)) && w.fault == Crash(None) && old(w.fuel) >= PassBudget(|old(w.checkpoint).value.items|) + 5 ==>
        if w.profile == Some(Success) && !Traceable(w.git, old(w.checkpoint).value.items)
        then r == Some(NoResult) && w.command == ManualReconciliation
        else r.None?
  {
    if w.profile.value == Success {
      r := FinishSuccess(w, site, doc);
    } else {
      r := FinishFailure(w, site, doc);
    }
  }

  method FinishSuccess(w: World, site: Site, doc: Document) returns (r: Option<Reply>)
    requires Inv(w, site, doc) && w.command == Executing && w.profile == Some(Success)
    requires w.checkpoint.Some? && w.checkpoint.value.state == Applied
    modifies w`temps, w`checkpoint, w`command, w`revision, w`stateHash, w`fuel, w`settled
    ensures Inv(w, site, doc) && Later(old(RowsOf(w)), RowsOf(w))
    ensures r.None? ==> w.command == EffectRecorded
    ensures r.Some? ==> !r.value.Finished?
    ensures old(Healthy(w)) && w.fault == Crash(None) ==> Sound(w)
    ensures old(Healthy(w)) && w.fault == Crash(None) && old(w.fuel) >= PassBudget(|old(w.checkpoint).value.items|) + 5 ==>
        if Traceable(w.git, old(w.checkpoint).value.items) then r.None?
        else r == Some(NoResult) && w.command == ManualReconciliation
  {
    r := VerifyApplied(w, site, doc);
    if r.None? {
      r := Record(w, site, doc);
    }
  }

  method FinishFailure(w: World, site: Site, doc: Document) returns (r: Option<Reply>)
    requires Inv(w, site, doc) && w.command == Executing && w.profile.Some? && w.profile.value != Success
    requires w.checkpoint.Some? && w.checkpoint.value.state in {Applied, RollingBack, RolledBack}
    modifies w`files, w`temps, w`checkpoint, w`command, w`revision, w`stateHash, w`fuel, w`settled
    ensures Inv(w, site, doc) && Later(old(RowsOf(w)), RowsOf(w))
    ensures r.None? ==> w.command == EffectRecorded
    ensures r.Some? ==> !r.value.Finished?
    ensures old(Healthy(w)) && w.fault == Crash(None) ==> Sound(w)
    ensures old(Healthy(w)) && w.fault == Crash(None) && old(w.fuel) >= PassBudget(|old(w.checkpoint).value.items|) + 5 ==> r.None?
  {
    ghost var start := RowsOf(w);
    r := VerifyRolledBack(w, site, doc);
    if r.None? {
      ghost var here := RowsOf(w);
      r := Record(w, site, doc);
      LaterTransitive(start, here, RowsOf(w));
    }
  }

  /** The final transaction after a verified end state; it spoils nothing. */
  method Record(w: World, site: Site, doc: Document) returns (r: Option<Reply>)
    requires Inv(w, site, doc) && w.command == Executing && w.profile.Some? && w.checkpoint.Some?
    requires if w.profile == Some(Success) then w.checkpoint.value.state == Applied && Verified(w, site, doc)
             else w.checkpoint.value.state == RolledBack
    modifies w`checkpoint, w`command, w`revision, w`stateHash, w`fuel, w`settled
    ensures Inv(w, site, doc) && Later(old(RowsOf(w)), RowsOf(w))
    ensures r.None? ==> w.command == EffectRecorded
    ensures r.Some? ==> !r.value.Finished?
    ensures old(Healthy(w)) ==> Sound(w)
    ensures old(w.fuel) >= 1 ==> r.None?
  {
    r := Finalize(w, site, doc);
  }

  /** The failure side: finish the rollback. */
  method VerifyRolledBack(w: World, site: Site, doc: Document) returns (r: Option<Reply>)
    requires Inv(w, site, doc) && w.command == Executing && w.profile.Some? && w.profile.value != Success
    requires w.checkpoint.Some? && w.checkpoint.value.state in {Applied, RollingBack, RolledBack}
    modifies w`files, w`temps, w`checkpoint, w`command, w`fuel, w`settled
    ensures Inv(w, site, doc) && Later(old(RowsOf(w)), RowsOf(w))
    ensures r.None? ==> w.command == Executing && w.checkpoint == Some(old(w.checkpoint).value.(state := RolledBack))
    ensures r.Some? ==> !r.value.Finished?
    ensures old(Healthy(w)) && w.fault == Crash(None) ==> Sound(w)
    ensures old(Healthy(w)) && w.fault == Crash(None) && old(w.fuel) >= PassBudget(|old(w.checkpoint).value.items|) + 3 ==> r.None?
    ensures w.fuel >= old(w.fuel) - PassBudget(|old(w.checkpoint).value.items|) - 3 || r.Some?
  {
    ghost var start := RowsOf(w);
    var out := PushBackward(w, site, doc);
    if out.Done? {
      return None;
    }
    ghost var here := RowsOf(w);
    var reply := React(w, site, doc, out);
    LaterTransitive(start, here, RowsOf(w));
    return Some(reply);
  }

  /** The reply for a recorded effect, read off the rows. */
  function ReplyFor(c: Checkpoint, status: ProfileStatus): Reply {
    if status == Success
    then Finished(status, c.revisionBefore, c.revisionBefore + 1, c.hashBefore, c.hashAfter, c.items)
    else Finished(status, c.revisionBefore, c.revisionBefore, c.hashBefore, c.hashBefore, [])
  }

  /** A recorded effect is all of the patch or none of it. */
  lemma RecordedMeans(w: World, site: Site, doc: Document)
    requires Inv(w, site, doc) && w.command == EffectRecorded
    ensures AllOrNothing(w, site, doc, ReplyFor(w.checkpoint.value, w.profile.value))
  {
  }

  /** Enough effects to take an executing command to its end in one life. */
  function LifeBudget(n: nat): nat {
    2 * PassBudget(n) + 9
  }

  /** From a settled disk to a recorded effect: profile, then commit or rollback. */
  method Judge(w: World, site: Site, doc: Document, run: ProfileRun) returns (r: Option<Reply>)
    requires Inv(w, site, doc) && w.command == Executing
    requires w.checkpoint.Some? && w.checkpoint.value.state in {Applied, RolledBack}
    modifies w`files, w`temps, w`checkpoint, w`command, w`profile, w`revision, w`stateHash, w`fuel, w`found, w`settled, w`tampered
    ensures Inv(w, site, doc) && Later(old(RowsOf(w)), RowsOf(w))
    ensures run.debris == None ==> w.found == old(w.found) && w.tampered == old(w.tampered)
    ensures r.None? ==> w.command == EffectRecorded
    ensures r.Some? ==> !r.value.Finished?
    ensures old(Healthy(w)) && w.fault == Crash(None) && run.debris == None ==> Sound(w)
    ensures var items := old(w.checkpoint).value.items;
      var verdict := if old(w.profile).Some? then old(w.profile).value else run.status;
      old(Healthy(w)) && w.fault == Crash(None) && run.debris == None && old(w.fuel) >= PassBudget(|items|) + 6 ==>
        if verdict == Success && !Traceable(w.git, items)
        then r == Some(NoResult) && w.command == ManualReconciliation
        else r.None? && w.profile == Some(verdict)
  {
    ghost var start := RowsOf(w);
    if w.checkpoint.value.state == Applied {
      r := EnsureProfile(w, site, doc, run);
      if r.Some? {
        return;
      }
    }
    ghost var judged := RowsOf(w);
    r := FinishCheckpoint(w, site, doc);
    LaterTransitive(start, judged, RowsOf(w));
  }

  /** Brings the disk where the row says, or reacts to what stands against it. */
  method SettleDisk(w: World, site: Site, doc: Document) returns (r: Option<Reply>)
    requires Inv(w, site, doc) && w.command == Executing && w.checkpoint.value.state != Blocked
    modifies w`files, w`temps, w`checkpoint, w`command, w`fuel, w`settled
    ensures Inv(w, site, doc) && Later(old(RowsOf(w)), RowsOf(w))
    ensures r.None? ==> w.command == Executing && w.checkpoint.value.state in {Applied, RolledBack}
    ensures r.Some? ==> !r.value.Finished?
    ensures old(Healthy(w)) && w.fault == Crash(None) ==> Healthy(w) && w.command == Executing
    ensures old(Healthy(w)) && w.fault == Crash(None) && old(w.fuel) >= PassBudget(|old(w.checkpoint).value.items|) + 3 ==>
      r.None? && w.fuel >= old(w.fuel) - PassBudget(|old(w.checkpoint).value.items|) - 3
  {
    ghost var start := RowsOf(w);
    var out := Advance(w, site, doc);
    if out.Done? {
      return None;
    }
    ghost var here := RowsOf(w);
    var reply := React(w, site, doc, out);
    LaterTransitive(start, here, RowsOf(w));
    return Some(reply);
  }

  /** Any checkpoint that is not blocked: settle the disk, then judge. */
  method Resume(w: World, site: Site, doc: Document, run: ProfileRun) returns (r: Option<Reply>)
    requires Inv(w, site, doc) && w.command == Executing && w.checkpoint.value.state != Blocked
    modifies w`files, w`temps, w`checkpoint, w`command, w`profile, w`revision, w`stateHash, w`fuel, w`found, w`settled, w`tampered
    ensures Inv(w, site, doc) && Later(old(RowsOf(w)), RowsOf(w))
    ensures run.debris == None ==> w.found == old(w.found) && w.tampered == old(w.tampered)
    ensures r.None? ==> w.command == EffectRecorded
    ensures r.Some? ==> !r.value.Finished?
    ensures old(Healthy(w)) && w.fault == Crash(None) && run.debris == None ==> Sound(w)
    ensures var items := old(w.checkpoint).value.items;
      var verdict := if old(w.profile).Some? then old(w.profile).value else run.status;
      old(Healthy(w)) && w.fault == Crash(None) && run.debris == None && old(w.fuel) >= LifeBudget(|items|) ==>
        if verdict == Success && !Traceable(w.git, items)
        then r == Some(NoResult) && w.command == ManualReconciliation
        else r.None? && w.profile == Some(verdict)
  {
    ghost var start := RowsOf(w);
    r := SettleDisk(w, site, doc);
    if r.None? {
      ghost var settled := RowsOf(w);
      r := Judge(w, site, doc, run);
      LaterTransitive(start, settled, RowsOf(w));
    }
  }

  /** The EXECUTING branch: from any checkpoint state to a recorded effect.
      Left alone in a healthy world it ends with the recorded verdict, except that a successful patch
      that leaves some path looking untouched to Git is sent to manual reconciliation. */
  method RunExecuting(w: World, site: Site, doc: Document, run: ProfileRun) returns (r: Option<Reply>)
    requires Inv(w, site, doc) && w.command == Executing
    modifies w`files, w`temps, w`checkpoint, w`command, w`profile, w`revision, w`stateHash, w`fuel, w`found, w`settled, w`tampered
    ensures Inv(w, site, doc) && Later(old(RowsOf(w)), RowsOf(w))
    ensures run.debris == None ==> w.found == old(w.found) && w.tampered == old(w.tampered)
    ensures r.None? ==> w.command == EffectRecorded
    ensures r.Some? ==> !r.value.Finished?
    ensures old(Sound(w)) && w.fault == Crash(None) && run.debris == None ==> Sound(w)
    ensures var items := old(w.checkpoint).value.items;
      var verdict := if old(w.profile).Some? then old(w.profile).value else run.status;
      old(Healthy(w)) && w.fault == Crash(None) && run.debris == None && old(w.fuel) >= LifeBudget(|items|) ==>
        if verdict == Success && !Traceable(w.git, items)
        then r == Some(NoResult) && w.command == ManualReconciliation && w.profile == Some(verdict)
        else r.None? && w.profile == Some(verdict)
    ensures old(w.checkpoint).value.state == Blocked && old(w.fuel) >= 2 ==>
              r == Some(NoResult) && w.command == ManualReconciliation && w.profile == old(w.profile)
  {
    if w.checkpoint.value.state == Blocked {
      var reply := Manual(w, site, doc);
      return Some(reply);
    }
    r := Resume(w, site, doc, run);
  }

  lemma LaterTransitive(a: Rows, b: Rows, c: Rows)
    requires Later(a, b) && Later(b, c)
    ensures Later(a, c)
  {
  }

  /** A claimed command ends without a result. */
  method TerminateClaimed(w: World, site: Site, doc: Document, state: CommandState) returns (r: Reply)
    requires Inv(w, site, doc) && w.command == Claimed && w.checkpoint == None
    requires state in {CommandState.StaleRevision, CommandState.StateMismatch, CommandState.PolicyDenied}
    modifies w`command, w`fuel
    ensures Inv(w, site, doc) && Later(old(RowsOf(w)), RowsOf(w))
    ensures r.NoResult? || r.Interrupted?
    ensures w.command == if r.NoResult? then state else Claimed
  {
    var pulse := w.Tick();
    if pulse.Halt? {
      return Interrupted;
    }
    w.command := state;
    return NoResult;
  }

  /** Temps with the names of a new checkpoint must not exist beforehand. */
  method TempsFree(w: World, items: seq<Item>) returns (free: bool)
    ensures free <==> NoTemps(w.temps, items)
  {
    for i := 0 to |items|
      invariant forall j, t :: 0 <= j < i && t in w.temps ==> t.path != items[j].path
    {
      if Temp(items[i].path, Forward) in w.temps || Temp(items[i].path, Backward) in w.temps {
        assert items[i].path in Paths(items) && Temp(items[i].path, Forward).path == Temp(items[i].path, Backward).path;
        return false;
      }
      forall t | t in w.temps ensures t.path != items[i].path {
        assert t == Temp(t.path, t.direction);
        match t.direction case Forward => case Backward =>
      }
    }
    return true;
  }

  function DeniedState(code: ErrorCode): Option<CommandState> {
    match code
    case StaleRevision => Some(CommandState.StaleRevision)
    case StateMismatch => Some(CommandState.StateMismatch)
    case PolicyDenied | ScopeViolation | UnsafePath | InvalidPayload | ReplaceMismatch
       | UnsupportedSchema | UnsupportedOperation | MissingFile => Some(CommandState.PolicyDenied)
    case _ => None
  }

  /** Inserts the planned checkpoint row for a change list that means the document's operations. */
  method InsertCheckpoint(w: World, site: Site, doc: Document, items: seq<Item>) returns (r: Option<Reply>)
    requires Inv(w, site, doc) && w.command == Claimed && w.checkpoint == None
    requires w.stateHash == ComputeStateHash(w.git, w.files)
    requires RunAll(site, w.files, doc.ops).Ok? && ValidItems(items) && items != []
    requires AllAt(w.files, items, Backward) && IsImage(RunAll(site, w.files, doc.ops).value, w.files, items)
    requires NoTemps(w.temps, items)
    modifies w`checkpoint, w`fuel, w`origin
    ensures Inv(w, site, doc) && Later(old(RowsOf(w)), RowsOf(w))
    ensures old(w.checkpoint).None? ==> Started(w.checkpoint, w.files, w.origin, w.revision, w.stateHash, old(w.files), old(w.revision), old(w.stateHash))
    ensures r.None? ==> Healthy(w) && w.origin == w.files && w.checkpoint.value.items == items
    ensures r.Some? ==> r.value.Interrupted? && w.checkpoint == None
    ensures old(w.fuel) >= 1 ==> r.None?
    ensures w.fuel >= old(w.fuel) - 1
  {
    var pulse := w.Tick();
    if pulse.Halt? {
      return Some(Interrupted);
    }
    var row := Checkpoint(items, Planned, w.revision, w.stateHash, PredictStateHash(w.git, w.files, items), None);
    InsertGrounded(w.git, site, doc, row, w.files, w.settled);
    FreshTempsWhole(w.temps, items);
    w.origin := w.files;
    w.checkpoint := Some(row);
    return None;
  }

  /** The moved bytes are at the old path or at the new one. */
  predicate Kept(files: FileMap, gone: Item, come: Item) {
    Get(files, gone.path) == gone.before || Get(files, come.path) == gone.before
  }

  /** A file that the patch moves is never off the disk: in every reachable undisturbed state, at whatever point of
      an apply or a rollback the process died, its bytes are at the old path or at the new one. */
  lemma MovedFileStays(w: World, site: Site, doc: Document, i: nat, j: nat)
    requires Inv(w, site, doc) && w.checkpoint.Some? && !w.tampered && !w.moved
    requires IsMove(w.checkpoint.value.items, i, j)
    ensures Kept(w.files, w.checkpoint.value.items[i], w.checkpoint.value.items[j])
  {
    var items := w.checkpoint.value.items;
    var d := if InOrder(w.files, items, Forward) then Forward else Backward;
    MovedContentStays(w.files, items, d, i, j);
  }

  lemma InsertGrounded(git: Checkout, site: Site, doc: Document, c: Checkpoint, files: FileMap, settled: FileMap)
    requires Faithful(git, site, doc, c, files) && c.state == Planned
    ensures Grounded(git, site, doc, Some(c), files, files, files, settled, false, false)
  {
    EndsInOrder(files, c.items, Backward);
  }

  lemma FreshTempsWhole(temps: map<Temp, Bytes>, items: seq<Item>)
    requires NoTemps(temps, items)
    ensures WholeTemps(temps, items)
  {
    assert forall i :: 0 <= i < |items| ==> items[i].path in Paths(items);
  }

  /** The operations run, within the limits, and change something. */
  ghost predicate Plannable(site: Site, files: FileMap, ops: seq<Operation>) {
    && RunAll(site, files, ops).Ok? && Admissible(site, files, ops) && RunAll(site, files, ops).value != files
    && SnapshotSize(files, RunAll(site, files, ops).value, ops) <= MAX_BATCH_SNAPSHOT_BYTES
  }

  /** A claimed document that nothing stands against: the gate passes, a plan exists, and no temp file
      lies in the way of a path that changes. */
  ghost predicate Acceptable(w: World, site: Site, doc: Document)
    reads w
  {
    && w.stateHash == ComputeStateHash(w.git, w.files)
    && doc.expectedRevision == w.revision && (doc.expectedHash.Some? ==> doc.expectedHash.value == w.stateHash)
    && Plannable(site, w.files, doc.ops)
    && forall t :: t in w.temps ==> Get(RunAll(site, w.files, doc.ops).value, t.path) == Get(w.files, t.path)
  }

  lemma AcceptableTemps(temps: map<Temp, Bytes>, files: FileMap, final: FileMap, items: seq<Item>)
    requires forall t :: t in temps ==> Get(final, t.path) == Get(files, t.path)
    requires ValidItems(items) && AllAt(files, items, Backward) && IsImage(final, files, items)
    ensures NoTemps(temps, items)
  {
    forall t, i | t in temps && 0 <= i < |items| ensures t.path != items[i].path {
      assert Get(files, items[i].path) == items[i].before && Get(final, items[i].path) == items[i].after;
    }
  }

  /** Fit to be completed: sound, and if there is no checkpoint yet, claimed and acceptable. */
  ghost predicate Ready(w: World, site: Site, doc: Document)
    reads w
  {
    Sound(w) && (w.checkpoint.None? ==> w.command == Claimed && Acceptable(w, site, doc))
  }

  /** The planner's answer in the executor's terms. */
  method ChangeList(site: Site, files: FileMap, ops: seq<Operation>) returns (r: Result<seq<Item>>)
    ensures r.Ok? <==> Plannable(site, files, ops)
    ensures r.Ok? ==> |r.value| <= MAX_BATCH_PATHS
    ensures r.Ok? ==>
      && RunAll(site, files, ops).Ok? && ValidItems(r.value) && r.value != []
      && AllAt(files, r.value, Backward) && IsImage(RunAll(site, files, ops).value, files, r.value)
  {
    var plan := MakePlan(site, files, ops);
    if plan.Err? {
      return Err(plan.error);
    }
    return Ok(plan.value.changed);
  }

  /** The preplan gate: the files must match the journal and the document must match both. */
  method Gate(w: World, doc: Document) returns (r: Option<ErrorCode>)
    ensures r == None <==>
      && w.stateHash == ComputeStateHash(w.git, w.files)
      && doc.expectedRevision == w.revision && (doc.expectedHash.Some? ==> doc.expectedHash.value == w.stateHash)
    ensures r == Some(ManualReconciliationRequired) <==> w.stateHash != ComputeStateHash(w.git, w.files)
    ensures r == Some(ErrorCode.StaleRevision) <==>
      w.stateHash == ComputeStateHash(w.git, w.files) && doc.expectedRevision != w.revision
    ensures r.Some? ==> r.value in {ManualReconciliationRequired, ErrorCode.StaleRevision, ErrorCode.StateMismatch}
  {
    if ComputeStateHash(w.git, w.files) != w.stateHash {
      return Some(ManualReconciliationRequired);
    }
    if doc.expectedRevision != w.revision {
      return Some(ErrorCode.StaleRevision);
    }
    if doc.expectedHash.Some? && doc.expectedHash.value != w.stateHash {
      return Some(ErrorCode.StateMismatch);
    }
    return None;
  }

  /** The state in which a refusal leaves the command; other errors are raised and leave it claimed. */
  function EndOf(code: ErrorCode): CommandState {
    match code
    case ManualReconciliationRequired => ManualReconciliation
    case _ => match DeniedState(code) case Some(state) => state case None => Claimed
  }

  /** The states spelled out: a stale or mismatching document says so, disk and journal apart need a human, and
      every other refusal of the document is a denial. */
  lemma EndsAre(code: ErrorCode)
    ensures code == ErrorCode.StaleRevision ==> EndOf(code) == CommandState.StaleRevision
    ensures code == ErrorCode.StateMismatch ==> EndOf(code) == CommandState.StateMismatch
    ensures code == ManualReconciliationRequired ==> EndOf(code) == ManualReconciliation
    ensures EndOf(code) == CommandState.PolicyDenied <==>
      code in {ErrorCode.PolicyDenied, ScopeViolation, UnsafePath, InvalidPayload, ReplaceMismatch, UnsupportedSchema,
               UnsupportedOperation, MissingFile}
    ensures code in {JournalConflict, JournalCorrupt, InvalidStateTransition, TransportUnavailable} <==> EndOf(code) == Claimed
  {
  }

  /** How a refusal before the checkpoint ends the command. */
  method Deny(w: World, site: Site, doc: Document, code: ErrorCode) returns (r: Reply)
    requires Inv(w, site, doc) && w.command == Claimed && w.checkpoint == None
    modifies w`checkpoint, w`command, w`fuel
    ensures Inv(w, site, doc) && Later(old(RowsOf(w)), RowsOf(w)) && w.checkpoint == None
    ensures !r.Finished? && w.command in {Claimed, EndOf(code)}
    ensures r.NoResult? ==> w.command == EndOf(code)
    ensures r.Raised? <==> EndOf(code) == Claimed
  {
    if code == ManualReconciliationRequired {
      r := Manual(w, site, doc);
      return;
    }
    var denied := DeniedState(code);
    if denied.None? {
      return Raised(code);
    }
    r := TerminateClaimed(w, site, doc, denied.value);
  }

  /** Gate, plan and temp check of a claimed document, before anything durable happens. */
  method Prepare(w: World, site: Site, doc: Document) returns (r: Result<seq<Item>>)
    ensures r.Ok? ==>
      && w.stateHash == ComputeStateHash(w.git, w.files)
      && doc.expectedRevision == w.revision && (doc.expectedHash.Some? ==> doc.expectedHash.value == w.stateHash)
      && RunAll(site, w.files, doc.ops).Ok? && ValidItems(r.value) && r.value != [] && |r.value| <= MAX_BATCH_PATHS
      && AllAt(w.files, r.value, Backward) && IsImage(RunAll(site, w.files, doc.ops).value, w.files, r.value)
      && NoTemps(w.temps, r.value)
    ensures Acceptable(w, site, doc) ==> r.Ok?
    ensures w.stateHash != ComputeStateHash(w.git, w.files) ==> r == Err(ManualReconciliationRequired)
    ensures w.stateHash == ComputeStateHash(w.git, w.files) && doc.expectedRevision != w.revision ==> r == Err(ErrorCode.StaleRevision)
    ensures (w.stateHash == ComputeStateHash(w.git, w.files) && doc.expectedRevision == w.revision
             && doc.expectedHash.Some? && doc.expectedHash.value != w.stateHash) ==> r == Err(ErrorCode.StateMismatch)
  {
    var refusal := Gate(w, doc);
    if refusal.Some? {
      return Err(refusal.value);
    }
    r := ChangeList(site, w.files, doc.ops);
    if r.Err? {
      return;
    }
    if Acceptable(w, site, doc) {
      AcceptableTemps(w.temps, w.files, RunAll(site, w.files, doc.ops).value, r.value);
    }
    var free := TempsFree(w, r.value);
    if !free {
      return Err(ManualReconciliationRequired);
    }
  }

  /** The CLAIMED branch up to a recorded checkpoint: gate, plan, reserve temps, record. An acceptable
      document is recorded as soon as one durable step remains. */
  method RecordCheckpoint(w: World, site: Site, doc: Document) returns (r: Option<Reply>)
    requires Inv(w, site, doc) && w.command == Claimed && w.checkpoint == None
    modifies w`checkpoint, w`command, w`fuel, w`origin
    ensures Inv(w, site, doc) && Later(old(RowsOf(w)), RowsOf(w))
    ensures old(w.checkpoint).None? ==> Started(w.checkpoint, w.files, w.origin, w.revision, w.stateHash, old(w.files), old(w.revision), old(w.stateHash))
    ensures r.None? ==> w.command == Claimed && Healthy(w) && w.origin == w.files && |w.checkpoint.value.items| <= MAX_BATCH_PATHS
    ensures r.None? ==>
      doc.expectedRevision == w.revision && (doc.expectedHash.Some? ==> doc.expectedHash.value == w.stateHash)
    ensures r.Some? ==> !r.value.Finished? && w.checkpoint == None
    ensures r == Some(NoResult) && w.stateHash != ComputeStateHash(w.git, w.files) ==> w.command == ManualReconciliation
    ensures r == Some(NoResult) && w.stateHash == ComputeStateHash(w.git, w.files) && doc.expectedRevision != w.revision ==>
              w.command == CommandState.StaleRevision
    ensures old(Acceptable(w, site, doc)) ==> w.command == Claimed && w.fuel >= old(w.fuel) - 1 && (r.None? || r == Some(Interrupted))
    ensures old(Acceptable(w, site, doc)) && old(w.fuel) >= 1 ==> r.None?
  {
    var prepared := Prepare(w, site, doc);
    if prepared.Ok? {
      r := InsertCheckpoint(w, site, doc, prepared.value);
      return;
    }
    var reply := Deny(w, site, doc, prepared.error);
    return Some(reply);
  }

  /** The CLAIMED branch: a checkpoint first, then the executing mark. */
  method StartClaimed(w: World, site: Site, doc: Document) returns (r: Option<Reply>)
    requires Inv(w, site, doc) && w.command == Claimed
    modifies w`checkpoint, w`command, w`fuel, w`origin
    ensures Inv(w, site, doc) && Later(old(RowsOf(w)), RowsOf(w))
    ensures old(w.checkpoint).None? ==> Started(w.checkpoint, w.files, w.origin, w.revision, w.stateHash, old(w.files), old(w.revision), old(w.stateHash))
    ensures r.None? ==> w.command == Executing
    ensures r.Some? ==> !r.value.Finished?
    ensures old(Sound(w)) ==> Sound(w)
    ensures old(Ready(w, site, doc)) ==> Ready(w, site, doc) && (r.None? || r == Some(Interrupted))
    ensures old(Ready(w, site, doc)) && old(w.fuel) >= 2 ==>
      && r.None? && Healthy(w) && w.fuel >= old(w.fuel) - 2 && w.profile == old(w.profile)
      && (old(w.checkpoint).None? ==> |w.checkpoint.value.items| <= MAX_BATCH_PATHS)
  {
    if w.checkpoint.None? {
      r := RecordCheckpoint(w, site, doc);
      if r.Some? {
        return;
      }
    }
    r := MarkExecuting(w, site, doc);
  }

  method MarkExecuting(w: World, site: Site, doc: Document) returns (r: Option<Reply>)
    requires Inv(w, site, doc) && w.command == Claimed && w.checkpoint.Some?
    modifies w`command, w`fuel
    ensures Inv(w, site, doc) && (r == None || r == Some(Interrupted))
    ensures w.command == if r.None? then Executing else Claimed
    ensures old(w.fuel) >= 1 ==> r.None?
    ensures w.fuel >= old(w.fuel) - 1
  {
    var pulse := w.Tick();
    if pulse.Halt? {
      return Some(Interrupted);
    }
    w.command := Executing;
    return None;
  }

  /** The command is settled: a finished reply with the recorded verdict, except that a successful patch that
      leaves some path looking untouched to Git ends without a result. */
  ghost predicate Completed(w: World, r: Reply)
    reads w
  {
    && w.checkpoint.Some? && w.profile.Some?
    && if w.profile.value == Success && !Traceable(w.git, w.checkpoint.value.items) then r == NoResult
       else r.Finished? && r.status == w.profile.value && w.command == EffectRecorded
  }

  /** One process life: execute a claimed command or resume an interrupted one. Left alone with enough
      steps it completes every command that is ready. */
  method ExecuteOrRecover(w: World, site: Site, doc: Document, run: ProfileRun) returns (r: Reply)
    requires Inv(w, site, doc)
    modifies w`files, w`temps, w`checkpoint, w`command, w`profile, w`revision, w`stateHash, w`fuel, w`origin, w`found, w`settled, w`tampered
    ensures Inv(w, site, doc) && Later(old(RowsOf(w)), RowsOf(w))
    ensures run.debris == None ==> w.found == old(w.found) && w.tampered == old(w.tampered)
    ensures old(w.checkpoint).None? ==> Started(w.checkpoint, w.files, w.origin, w.revision, w.stateHash, old(w.files), old(w.revision), old(w.stateHash))
    ensures r.Finished? ==> w.command == EffectRecorded && r == ReplyFor(w.checkpoint.value, w.profile.value)
    ensures r.Finished? ==> AllOrNothing(w, site, doc, r)
    ensures old(w.command) == EffectRecorded ==> r.Finished?
    ensures old(Ready(w, site, doc)) && w.fault == Crash(None) && run.debris == None ==> Ready(w, site, doc)
    ensures old(Ready(w, site, doc)) && w.fault == Crash(None) && run.debris == None
              && old(w.fuel) >= 2 + LifeBudget(if old(w.checkpoint).Some? then |old(w.checkpoint).value.items| else MAX_BATCH_PATHS)
            ==> Completed(w, r)
  {
    ghost var start := RowsOf(w);
    var early := Enter(w, site, doc);
    if early.Some? {
      return early.value;
    }
    ghost var here := RowsOf(w);
    r := Conclude(w, site, doc, run);
    LaterTransitive(start, here, RowsOf(w));
  }

  /** Ended commands stay ended; a claimed one starts. */
  method Enter(w: World, site: Site, doc: Document) returns (r: Option<Reply>)
    requires Inv(w, site, doc)
    modifies w`checkpoint, w`command, w`fuel, w`origin
    ensures Inv(w, site, doc) && Later(old(RowsOf(w)), RowsOf(w))
    ensures old(w.checkpoint).None? ==> Started(w.checkpoint, w.files, w.origin, w.revision, w.stateHash, old(w.files), old(w.revision), old(w.stateHash))
    ensures r.Some? ==> !r.value.Finished?
    ensures r.None? ==> w.command != Claimed && !IsTerminal(w.command)
    ensures old(w.command) == EffectRecorded ==> r.None? && RowsOf(w) == old(RowsOf(w))
    ensures old(Ready(w, site, doc)) ==> Ready(w, site, doc)
    ensures old(Ready(w, site, doc)) && old(w.fuel) >= 2 && r.Some? ==> Completed(w, r.value)
    ensures old(Ready(w, site, doc)) && old(w.fuel) >= 2 && r.None? ==>
      && w.checkpoint.Some? && w.fuel >= old(w.fuel) - 2
      && |w.checkpoint.value.items| <= if old(w.checkpoint).Some? then |old(w.checkpoint).value.items| else MAX_BATCH_PATHS
  {
    if IsTerminal(w.command) {
      return Some(NoResult);
    }
    if w.command == Claimed {
      r := StartClaimed(w, site, doc);
    } else {
      r := None;
    }
  }

  /** From an executing or recorded command to the reply. */
  method Conclude(w: World, site: Site, doc: Document, run: ProfileRun) returns (r: Reply)
    requires Inv(w, site, doc)
    modifies w`files, w`temps, w`checkpoint, w`command, w`profile, w`revision, w`stateHash, w`fuel, w`found, w`settled, w`tampered
    ensures Inv(w, site, doc) && Later(old(RowsOf(w)), RowsOf(w))
    ensures run.debris == None ==> w.found == old(w.found) && w.tampered == old(w.tampered)
    ensures r.Finished? ==> w.command == EffectRecorded && r == ReplyFor(w.checkpoint.value, w.profile.value)
    ensures r.Finished? ==> AllOrNothing(w, site, doc, r)
    ensures old(w.command) == EffectRecorded ==> r.Finished?
    ensures old(w.command) != Executing ==> RowsOf(w) == old(RowsOf(w)) && w.files == old(w.files) && w.stateHash == old(w.stateHash)
    ensures old(Sound(w)) && w.fault == Crash(None) && run.debris == None ==> Sound(w)
    ensures old(Sound(w) && w.checkpoint.Some? && !IsTerminal(w.command) && w.command != Claimed)
              && w.fault == Crash(None) && run.debris == None && old(w.fuel) >= LifeBudget(|old(w.checkpoint).value.items|)
            ==> Completed(w, r)
  {
    if w.command == Executing {
      var early := RunExecuting(w, site, doc, run);
      if early.Some? {
        return early.value;
      }
    }
    if w.command != EffectRecorded {
      return Raised(InvalidStateTransition);
    }
    RecordedMeans(w, site, doc);
    return ReplyFor(w.checkpoint.value, w.profile.value);
  }

  /** One process life of the service: the files someone else put in place before it, if any, its fault
      schedule and what its test run would do. */
  datatype ServiceLife = ServiceLife(foreign: Option<FileMap>, fuel: nat, fault: Fault, run: ProfileRun)

  /** Nobody changed files, the crash left whole temps, no effect raised an I/O error. */
  predicate Clean(life: ServiceLife) {
    life.foreign == None && life.fault == Crash(None) && life.run.debris == None
  }

  /** The files a life finds if the last one left `files`. */
  function Found(files: FileMap, life: ServiceLife): FileMap {
    if life.foreign.Some? then life.foreign.value else files
  }

  /** Someone else replaces the files. */
  method Disturb(w: World, site: Site, doc: Document, foreign: FileMap)
    requires Inv(w, site, doc)
    modifies w`files, w`found, w`tampered, w`moved
    ensures Inv(w, site, doc) && w.files == w.found == foreign
  {
    w.files, w.found := foreign, foreign;
    if w.checkpoint.Some? {
      if w.checkpoint.value.state in {Committed, RolledBack} {
        w.moved := true;
      } else {
        w.tampered := true;
      }
    }
  }

  /** A process starts: only its schedule changes. */
  method Begin(w: World, site: Site, doc: Document, fuel: nat, fault: Fault)
    requires Inv(w, site, doc)
    modifies w`fuel, w`fault
    ensures Inv(w, site, doc) && (old(Ready(w, site, doc)) ==> Ready(w, site, doc)) && w.checkpoint == old(w.checkpoint)
    ensures w.fuel == fuel && w.fault == fault
  {
    w.fuel, w.fault := fuel, fault;
  }

  /** The files are as the life finds them, and its schedule is set. */
  method Arrive(w: World, site: Site, doc: Document, life: ServiceLife)
    requires Inv(w, site, doc)
    modifies w`files, w`found, w`tampered, w`moved, w`fuel, w`fault
    ensures Inv(w, site, doc) && w.fuel == life.fuel && w.fault == life.fault
    ensures w.files == Found(old(w.files), life) && w.found == Found(old(w.found), life)
    ensures life.foreign == None ==> w.tampered == old(w.tampered) && w.moved == old(w.moved)
    ensures life.foreign == None && old(Ready(w, site, doc)) ==> Ready(w, site, doc)
  {
    if life.foreign.Some? {
      Disturb(w, site, doc, life.foreign.value);
    }
    Begin(w, site, doc, life.fuel, life.fault);
  }

  /** Starts one process life on whatever files are there and lets it run. */
  method OneLife(w: World, site: Site, doc: Document, life: ServiceLife) returns (r: Reply)
    requires Inv(w, site, doc)
    modifies w
    ensures Inv(w, site, doc) && Later(old(RowsOf(w)), RowsOf(w))
    ensures old(w.checkpoint).None? ==>
              Started(w.checkpoint, w.files, w.origin, w.revision, w.stateHash, Found(old(w.files), life), old(w.revision), old(w.stateHash))
    ensures life.run.debris == None ==> w.found == Found(old(w.found), life)
    ensures life.foreign == None && life.run.debris == None ==> w.tampered == old(w.tampered)
    ensures life.foreign == None ==> w.moved == old(w.moved)
    ensures r.Finished? ==> Told(RowsOf(w), r)
    ensures old(Ready(w, site, doc)) && Clean(life) ==> Ready(w, site, doc)
  {
    Arrive(w, site, doc, life);
    r := ExecuteOrRecover(w, site, doc, life.run);
  }

  /** The reply that the recorded rows give. */
  ghost predicate Told(rows: Rows, r: Reply) {
    rows.command == EffectRecorded && rows.checkpoint.Some? && rows.profile.Some?
    && r == ReplyFor(rows.checkpoint.value, rows.profile.value)
  }

  /** Every finished reply so far is the one that the rows give. */
  ghost predicate AllTold(rows: Rows, replies: seq<Reply>) {
    forall k :: 0 <= k < |replies| && replies[k].Finished? ==> Told(rows, replies[k])
  }

  lemma AllToldStay(a: Rows, b: Rows, replies: seq<Reply>)
    requires Later(a, b) && AllTold(a, replies)
    ensures AllTold(b, replies)
  {
  }

  lemma AllToldMean(w: World, site: Site, doc: Document, replies: seq<Reply>)
    requires Inv(w, site, doc) && AllTold(RowsOf(w), replies)
    ensures forall k :: 0 <= k < |replies| && replies[k].Finished? ==> AllOrNothing(w, site, doc, replies[k])
  {
    if w.command == EffectRecorded {
      RecordedMeans(w, site, doc);
    }
  }

  /** The files as last given from outside after `n` lives whose test runs change none. */
  ghost function LastGiven(files: FileMap, lives: seq<ServiceLife>, n: nat): FileMap
    requires n <= |lives|
  {
    if n == 0 then files else Found(LastGiven(files, lives, n - 1), lives[n - 1])
  }

  /** No test run of the first `n` lives changes files. */
  predicate TidyRuns(lives: seq<ServiceLife>, n: nat)
    requires n <= |lives|
  {
    forall k :: 0 <= k < n ==> lives[k].run.debris == None
  }

  /** Nobody changes files between the first `n` lives. */
  predicate LeftAlone(lives: seq<ServiceLife>, n: nat)
    requires n <= |lives|
  {
    forall k :: 0 <= k < n ==> lives[k].foreign == None
  }

  lemma {:induction false} LeftAloneGiven(files: FileMap, lives: seq<ServiceLife>, n: nat)
    requires n <= |lives| && LeftAlone(lives, n)
    ensures LastGiven(files, lives, n) == files
  {
    if n > 0 {
      LeftAloneGiven(files, lives, n - 1);
    }
  }

  /** What a schedule makes of the history: the checkpoint was taken on files given before it, with the workspace row
      of the start; the files given last are known if no test run changes any; nothing was disturbed by nobody. */
  ghost predicate History(w: World, lives: seq<ServiceLife>, n: nat, files0: FileMap, revision0: nat, hash0: StateHash)
    requires n <= |lives|
    reads w
  {
    && (w.checkpoint.None? ==> w.files == LastGiven(files0, lives, n) && w.revision == revision0 && w.stateHash == hash0)
    && (w.checkpoint.Some? ==>
          && w.checkpoint.value.revisionBefore == revision0 && w.checkpoint.value.hashBefore == hash0
          && exists k :: 0 <= k <= n && w.origin == LastGiven(files0, lives, k))
    && (TidyRuns(lives, n) ==> w.found == LastGiven(files0, lives, n))
    && (LeftAlone(lives, n) ==> !w.moved)
    && (LeftAlone(lives, n) && TidyRuns(lives, n) ==> !w.tampered)
  }

  /** One more life of a history. */
  method NextLife(w: World, site: Site, doc: Document, lives: seq<ServiceLife>, n: nat, ghost fresh_: bool,
                  ghost files0: FileMap, ghost revision0: nat, ghost hash0: StateHash) returns (r: Reply)
    requires n < |lives| && Inv(w, site, doc) && (fresh_ ==> History(w, lives, n, files0, revision0, hash0))
    modifies w
    ensures Inv(w, site, doc) && Later(old(RowsOf(w)), RowsOf(w))
    ensures fresh_ ==> History(w, lives, n + 1, files0, revision0, hash0)
    ensures lives[n].run.debris == None ==> w.found == Found(old(w.found), lives[n])
    ensures r.Finished? ==> Told(RowsOf(w), r)
  {
    r := OneLife(w, site, doc, lives[n]);
    assert LastGiven(files0, lives, n + 1) == Found(LastGiven(files0, lives, n), lives[n]);
  }

  /** End to end: over every schedule of crashes, I/O errors, torn temps, foreign changes between lives and
      file-changing test runs, every result the runtime ever returns is true of the world at the end: all of the
      patch with revision + 1, or none of it with the revision unchanged. Rows never go back. */
  method RunLives(w: World, site: Site, doc: Document, lives: seq<ServiceLife>) returns (replies: seq<Reply>)
    requires Inv(w, site, doc)
    modifies w
    ensures Inv(w, site, doc) && Later(old(RowsOf(w)), RowsOf(w))
    ensures old(w.checkpoint).None? ==> History(w, lives, |lives|, old(w.files), old(w.revision), old(w.stateHash))
    ensures TidyRuns(lives, |lives|) ==> w.found == LastGiven(old(w.found), lives, |lives|)
    ensures |replies| == |lives|
    ensures forall k :: 0 <= k < |lives| && replies[k].Finished? ==> AllOrNothing(w, site, doc, replies[k])
  {
    ghost var start, fresh_ := RowsOf(w), w.checkpoint.None?;
    replies := [];
    for k := 0 to |lives|
      invariant Inv(w, site, doc) && Later(start, RowsOf(w)) && |replies| == k
      invariant fresh_ ==> History(w, lives, k, old(w.files), old(w.revision), old(w.stateHash))
      invariant TidyRuns(lives, k) ==> w.found == LastGiven(old(w.found), lives, k)
      invariant AllTold(RowsOf(w), replies)
    {
      ghost var here := RowsOf(w);
      var reply := NextLife(w, site, doc, lives, k, fresh_, old(w.files), old(w.revision), old(w.stateHash));
      LaterTransitive(start, here, RowsOf(w));
      AllToldStay(here, RowsOf(w), replies);
      replies := replies + [reply];
    }
    AllToldMean(w, site, doc, replies);
  }

  /** Over a whole schedule the executor never overwrites a planned path that holds neither of its images, and
      never touches another: such a path keeps the bytes that were last put there from outside. */
  lemma StrangeBytesStay(w: World, site: Site, doc: Document, p: Path)
    requires Inv(w, site, doc) && w.checkpoint.Some? && Strange(w.found, w.checkpoint.value.items, p)
    ensures Get(w.files, p) == Get(w.found, p)
  {
    if p in Paths(w.checkpoint.value.items) {
      var i :| 0 <= i < |w.checkpoint.value.items| && w.checkpoint.value.items[i].path == p;
    }
  }

  /** Any number of clean crashes leaves a run that can still be completed. */
  method RunCleanLives(w: World, site: Site, doc: Document, lives: seq<ServiceLife>)
    requires Inv(w, site, doc) && Ready(w, site, doc) && forall k :: 0 <= k < |lives| ==> Clean(lives[k])
    modifies w
    ensures Inv(w, site, doc) && Ready(w, site, doc) && Later(old(RowsOf(w)), RowsOf(w))
    ensures old(w.checkpoint).None? ==> Started(w.checkpoint, w.files, w.origin, w.revision, w.stateHash, old(w.files), old(w.revision), old(w.stateHash))
    decreases |lives|
  {
    if |lives| > 0 {
      ghost var start := RowsOf(w);
      var _ := OneLife(w, site, doc, lives[0]);
      ghost var here := RowsOf(w);
      RunCleanLives(w, site, doc, lives[1..]);
      LaterTransitive(start, here, RowsOf(w));
    }
  }

  /** One undisturbed life completes whatever is ready. */
  method QuietLife(w: World, site: Site, doc: Document, run: ProfileRun) returns (r: Reply)
    requires Inv(w, site, doc) && Ready(w, site, doc) && run.debris == None
    modifies w
    ensures Inv(w, site, doc) && Later(old(RowsOf(w)), RowsOf(w)) && Completed(w, r)
    ensures r.Finished? ==> !w.tampered && !w.moved
    ensures old(w.checkpoint).None? ==> Started(w.checkpoint, w.files, w.origin, w.revision, w.stateHash, old(w.files), old(w.revision), old(w.stateHash))
    ensures r.Finished? ==> AllOrNothing(w, site, doc, r)
  {
    Begin(w, site, doc, 2 + LifeBudget(if w.checkpoint.Some? then |w.checkpoint.value.items| else MAX_BATCH_PATHS), Crash(None));
    r := ExecuteOrRecover(w, site, doc, run);
  }

  /** End-to-end convergence, from the claim or from any later point: after any number of clean crashes one
      quiet life completes the command. A finished reply is all or nothing, and there is no result exactly
      when the recorded verdict is a success and the patch leaves some path looking untouched to Git. */
  method Settle(w: World, site: Site, doc: Document, lives: seq<ServiceLife>, run: ProfileRun) returns (r: Reply)
    requires Inv(w, site, doc) && Ready(w, site, doc)
    requires run.debris == None && forall k :: 0 <= k < |lives| ==> Clean(lives[k])
    modifies w
    ensures Inv(w, site, doc) && Later(old(RowsOf(w)), RowsOf(w)) && Completed(w, r)
    ensures r.Finished? ==> !w.tampered && !w.moved
    ensures old(w.checkpoint).None? ==> Started(w.checkpoint, w.files, w.origin, w.revision, w.stateHash, old(w.files), old(w.revision), old(w.stateHash))
    ensures r.Finished? ==> AllOrNothing(w, site, doc, r)
  {
    ghost var start := RowsOf(w);
    RunCleanLives(w, site, doc, lives);
    ghost var here := RowsOf(w);
    r := QuietLife(w, site, doc, run);
    LaterTransitive(start, here, RowsOf(w));
  }

  /** The same from a fresh claim of an acceptable document. */
  method Accomplish(git: Checkout, files: FileMap, revision: nat, site: Site, doc: Document,
                    lives: seq<ServiceLife>, run: ProfileRun)
    returns (w: World, r: Reply)
    requires doc.expectedRevision == revision && (doc.expectedHash.Some? ==> doc.expectedHash.value == ComputeStateHash(git, files))
    requires Plannable(site, files, doc.ops)
    requires run.debris == None && forall k :: 0 <= k < |lives| ==> Clean(lives[k])
    ensures w.git == git && Completed(w, r) && w.origin == files
    ensures r.Finished? ==> w.revision == revision + (if r.status == Success then 1 else 0)
    ensures r.Finished? ==>
              w.files == if r.status == Success then RunAll(site, files, doc.ops).value else files
  {
    w := new World(git, files, revision, ComputeStateHash(git, files));
    r := Settle(w, site, doc, lives, run);
  }

  /** A result told of the files `base`: all of the operations with the revision advanced by one, or none of them. */
  ghost predicate TrueOf(w: World, site: Site, doc: Document, base: FileMap, revision: nat, r: Reply)
    reads w
  {
    && w.checkpoint.Some? && RunAll(site, base, doc.ops).Ok?
    && r.Finished? && r.revisionBefore == revision && r.revisionAfter == w.revision
    && if r.status == Success then
         w.revision == revision + 1
         && CommittedAs(w.git, w.checkpoint.value.items, w.settled, RunAll(site, base, doc.ops).value, w.tampered)
       else
         w.revision == revision && Restored(w.git, w.checkpoint.value.items, w.settled, base, w.tampered)
  }

  /** The whole story of one command, from its claim: whatever the schedule, a returned result means
      either the operations run in order on the files the checkpoint was taken on with the revision advanced by
      one, or those files with the revision unchanged. Those files have the journal's state hash, and are the
      starting ones unless someone else changed them before. Nobody's other bytes are ever overwritten, and a
      moved file is at its old or its new place at whatever point the last process died. */
  method Operate(git: Checkout, files: FileMap, revision: nat, stateHash: StateHash,
                 site: Site, doc: Document, lives: seq<ServiceLife>)
    returns (w: World, replies: seq<Reply>)
    ensures |replies| == |lives| && w.git == git && History(w, lives, |lives|, files, revision, stateHash)
    ensures forall k :: 0 <= k < |lives| && replies[k].Finished? ==>
      && TrueOf(w, site, doc, w.origin, revision, replies[k])
      && ComputeStateHash(git, w.origin) == stateHash && (!w.moved ==> w.files == w.settled)
    ensures LeftAlone(lives, |lives|) && w.checkpoint.Some? ==> w.origin == files
    ensures w.checkpoint.Some? && TidyRuns(lives, |lives|) ==>
      forall p :: Strange(LastGiven(files, lives, |lives|), w.checkpoint.value.items, p) ==>
        Get(w.files, p) == Get(LastGiven(files, lives, |lives|), p)
    ensures w.checkpoint.Some? && LeftAlone(lives, |lives|) && TidyRuns(lives, |lives|) ==>
      forall i: nat, j: nat :: IsMove(w.checkpoint.value.items, i, j) ==> Kept(w.files, w.checkpoint.value.items[i], w.checkpoint.value.items[j])
  {
    w := new World(git, files, revision, stateHash);
    replies := RunLives(w, site, doc, lives);
    if w.checkpoint.Some? {
      if LeftAlone(lives, |lives|) {
        OriginAlone(w, lives, files, revision, stateHash);
      }
      if TidyRuns(lives, |lives|) {
        forall p | Strange(w.found, w.checkpoint.value.items, p) ensures Get(w.files, p) == Get(w.found, p) {
          StrangeBytesStay(w, site, doc, p);
        }
        if LeftAlone(lives, |lives|) {
          forall i: nat, j: nat | IsMove(w.checkpoint.value.items, i, j)
            ensures Kept(w.files, w.checkpoint.value.items[i], w.checkpoint.value.items[j])
          {
            MovedFileStays(w, site, doc, i, j);
          }
        }
      }
    }
  }

  lemma OriginAlone(w: World, lives: seq<ServiceLife>, files: FileMap, revision: nat, stateHash: StateHash)
    requires w.checkpoint.Some? && LeftAlone(lives, |lives|) && History(w, lives, |lives|, files, revision, stateHash)
    ensures w.origin == files
  {
    var k :| 0 <= k <= |lives| && w.origin == LastGiven(files, lives, k);
    LeftAloneGiven(files, lives, k);
  }
}

/** Single-file execution: one durable plan, one atomic replacement, one effect row, over any crashes. */
module SingleFile {
  import opened Base
  import opened Models
  import opened Workspace
  import opened ExactText
  import EditMeaning

  datatype Request = Request(path: Path, edits: seq<Edit>, expectedRevision: nat, expectedHash: Option<StateHash>)

  /** The operation plan row; immutable once recorded. */
  datatype Plan = Plan(path: Path, before: Bytes, after: Bytes, revisionBefore: nat, hashBefore: StateHash, hashAfter: StateHash)
  /** The operation effect row, at most one per command. */
  datatype Effect = Effect(plan: Plan, revisionAfter: nat)

  function EffectFor(plan: Plan): Effect { Effect(plan, plan.revisionBefore + 1) }

  /** The state hash with one path's bytes overridden. */
  function OverrideStateHash(git: Checkout, files: FileMap, p: Path, bytes: Bytes): StateHash {
    map q | q in ListedPaths(git, files) + {p} :: if q == p then Some(bytes) else Get(files, q)
  }

  /** Writing these bytes at `p` leaves it in a state that Git lists. */
  predicate Traced(git: Checkout, p: Path, bytes: Bytes) {
    Get(git.head, p) != Some(bytes) && Visible(git, p)
  }

  /** The override agrees with the hash computed after the write exactly when the path is then listed. */
  lemma OverrideAgrees(git: Checkout, files: FileMap, p: Path, bytes: Bytes)
    ensures OverrideStateHash(git, files, p, bytes) == ComputeStateHash(git, Put(files, p, Some(bytes))) <==> Traced(git, p, bytes)
  {
    var image := Put(files, p, Some(bytes));
    var predicted, actual := OverrideStateHash(git, files, p, bytes), ComputeStateHash(git, image);
    assert Get(image, p) == Some(bytes);
    forall q | q != p
      ensures q in predicted <==> q in actual
      ensures q in predicted ==> predicted[q] == actual[q]
    {
      assert Get(image, q) == Get(files, q);
      assert Listed(git, files, q) == Listed(git, image, q);
    }
    assert p in predicted && (p in actual <==> Traced(git, p, bytes));
    if Traced(git, p, bytes) {
      assert predicted == actual;
    }
  }

  /** Any files have the overridden hash exactly when the path shows in Git and they agree with the overridden
      ones on every visible path. */
  lemma OverrideMeans(git: Checkout, files: FileMap, p: Path, bytes: Bytes, now: FileMap)
    ensures ComputeStateHash(git, now) == OverrideStateHash(git, files, p, bytes)
       <==> Traced(git, p, bytes) && AgreeVisible(git, now, Put(files, p, Some(bytes)))
  {
    OverrideAgrees(git, files, p, bytes);
    HashAgrees(git, now, Put(files, p, Some(bytes)));
    if ComputeStateHash(git, now) == OverrideStateHash(git, files, p, bytes) {
      assert p in OverrideStateHash(git, files, p, bytes) && OverrideStateHash(git, files, p, bytes)[p] == Some(bytes);
      assert p in ComputeStateHash(git, now) && Listed(git, now, p) && Get(now, p) == Some(bytes);
    }
  }

  /** Writing the path keeps agreement. */
  lemma PutAgrees(git: Checkout, a: FileMap, b: FileMap, p: Path, content: Option<Bytes>)
    requires AgreeVisible(git, a, b)
    ensures AgreeVisible(git, Put(a, p, content), Put(b, p, content))
  {
  }

  // ----- The recovery decision -----

  datatype Decision = Execute | RecoverPlannedAfter | IdempotentReplay | Diverged

  class Desk {
    const git: Checkout
    var files: FileMap
    var temp: Option<Bytes>
    var plan: Option<Plan>
    var effect: Option<Effect>
    var command: CommandState
    var revision: nat
    var stateHash: StateHash

    var fuel: nat            // durable steps left in this process life
    var torn: Option<Bytes>  // what a temp write cut short by the crash leaves

    ghost var origin: FileMap
    ghost var start: nat
    ghost var startHash: StateHash
    ghost var tampered: bool

    constructor (git: Checkout, files: FileMap, revision: nat, stateHash: StateHash)
      ensures this.git == git && this.files == files && origin == files && command == Claimed
      ensures this.revision == start == revision && this.stateHash == startHash == stateHash
      ensures Inv() && plan == None && effect == None && !tampered && temp == None
    {
      this.git, this.files, this.revision, this.stateHash := git, files, revision, stateHash;
      temp, plan, effect, command := None, None, None, Claimed;
      fuel, torn := 0, None;
      origin, start, startHash, tampered := files, revision, stateHash, false;
    }

    ghost function Image(): FileMap
      requires plan.Some?
      reads this
    {
      Put(origin, plan.value.path, Some(plan.value.after))
    }

    /** The plan was made from the original files and rows. */
    ghost predicate Planned()
      reads this
    {
      && plan.Some? && Get(origin, plan.value.path) == Some(plan.value.before)
      && plan.value.revisionBefore == start && plan.value.hashBefore == startHash == ComputeStateHash(git, origin)
      && plan.value.hashAfter == OverrideStateHash(git, origin, plan.value.path, plan.value.after)
    }

    ghost predicate Untouched()
      reads this
    {
      effect == None && revision == start && stateHash == startHash
    }

    /** Exactly one effect: the row is the plan's, the revision moved once, the planned bytes were there. */
    ghost predicate Effected()
      reads this
    {
      && Planned() && effect == Some(EffectFor(plan.value))
      && revision == start + 1 && stateHash == plan.value.hashAfter && temp == None
      && Traced(git, plan.value.path, plan.value.after) && (!tampered ==> files == Image())
    }

    /** Nothing recorded yet; undisturbed, the file is untouched, or wholly replaced and its temp gone. */
    ghost predicate UnderWay()
      reads this
    {
      Planned() && Untouched() && (!tampered ==> files == origin || (files == Image() && temp == None))
    }

    /** What holds in every reachable state, whatever others do to the files. */
    ghost predicate Inv()
      reads this
    {
      match command
      case Claimed => Untouched() && files == origin && !tampered && plan == None && temp == None
      case Executing => UnderWay()
      case EffectRecorded => Effected()
      case ManualReconciliation => (Untouched() && plan == None && (!tampered ==> files == origin)) || UnderWay() || Effected()
      case _ => IsTerminal(command) && Untouched() && plan == None && (!tampered ==> files == origin)
    }

    /** No crash has torn the temp file. */
    ghost predicate WholeTemp()
      reads this
    {
      temp.Some? ==> plan.Some? && temp.value == plan.value.after
    }

    /** The target holds the before bytes and every visible path is as it was when the plan was made. */
    ghost predicate AtBefore()
      reads this
    {
      plan.Some? && Get(files, plan.value.path) == Some(plan.value.before) && AgreeVisible(git, files, origin)
    }

    /** The target holds the planned bytes, Git shows them, and every other visible path is as it was. */
    ghost predicate AtAfter()
      reads this
    {
      plan.Some? && Get(files, plan.value.path) == Some(plan.value.after) && Shows() && AgreeVisible(git, files, Image())
    }

    ghost predicate RowsBefore()
      reads this
    {
      plan.Some? && revision == plan.value.revisionBefore && stateHash == plan.value.hashBefore
    }

    /** What to do, for arbitrary files, temp and rows: execute only from verified before bytes, recover only
        from verified planned bytes, replay only from verified effect bytes, and otherwise diverge. */
    method Decide() returns (r: Decision)
      requires plan.Some? ==> Planned()
      ensures r == Execute <==>
        command == Claimed || (command == Executing && RowsBefore() && AtBefore() && WholeTemp())
      ensures r == RecoverPlannedAfter <==>
        command == Executing && RowsBefore() && !AtBefore() && AtAfter() && temp == None && effect == None
      ensures r == IdempotentReplay <==>
        && command == EffectRecorded && plan.Some? && effect.Some? && temp == None
        && revision == effect.value.revisionAfter && stateHash == effect.value.plan.hashAfter
        && Get(files, plan.value.path) == Some(plan.value.after) && ComputeStateHash(git, files) == effect.value.plan.hashAfter
    {
      if command == Claimed { return Execute; }
      if plan.None? { return Diverged; }
      var p := plan.value;
      var target, actual := Get(files, p.path), ComputeStateHash(git, files);
      if target.None? { return Diverged; }
      HashAgrees(git, files, origin);
      OverrideMeans(git, origin, p.path, p.after, files);
      if command == Executing {
        if revision == p.revisionBefore && stateHash == p.hashBefore && target == Some(p.before) && actual == p.hashBefore {
          if temp.Some? && temp.value != p.after { return Diverged; }
          return Execute;
        }
        if revision == p.revisionBefore && stateHash == p.hashBefore && target == Some(p.after) && actual == p.hashAfter
           && temp.None? && effect.None? {
          return RecoverPlannedAfter;
        }
        return Diverged;
      }
      if command == EffectRecorded {
        if effect.Some? && revision == effect.value.revisionAfter && stateHash == effect.value.plan.hashAfter
           && target == Some(p.after) && actual == effect.value.plan.hashAfter && temp.None? {
          return IdempotentReplay;
        }
      }
      return Diverged;
    }

    /** Undisturbed, the before bytes mean the original files. */
    lemma BackToBefore()
      requires UnderWay() && !tampered && Get(files, plan.value.path) == Some(plan.value.before)
      ensures files == origin
    {
      if files != origin {
        SameFiles(files, origin);
      }
    }

    // ----- Durable steps -----

    method Tick() returns (go: bool)
      modifies this`fuel
      ensures go <==> old(fuel) > 0
      ensures fuel == if go then old(fuel) - 1 else 0
    {
      go := fuel > 0;
      if go { fuel := fuel - 1; }
    }

    /** Hands the command to manual reconciliation. */
    method Manual() returns (reply: Reply)
      requires Inv()
      modifies this`fuel, this`command
      ensures Inv() && reply in {Crashed, Reconcile}
      ensures command == if reply == Reconcile && old(command) in {Claimed, Executing, EffectRecorded} then ManualReconciliation else old(command)
      ensures old(fuel) > 0 ==> reply == Reconcile
    {
      var go := Tick();
      if !go { return Crashed; }
      if command in {Claimed, Executing, EffectRecorded} {
        command := ManualReconciliation;
      }
      return Reconcile;
    }

    method Deny(state: CommandState) returns (reply: Reply)
      requires Inv() && command == Claimed && state in {CommandState.PolicyDenied, CommandState.StaleRevision, CommandState.StateMismatch}
      modifies this`fuel, this`command
      ensures Inv() && (reply == Crashed || reply == Denied(state))
      ensures command == if reply == Crashed then Claimed else state
      ensures old(fuel) > 0 ==> reply != Crashed
    {
      var go := Tick();
      if !go { return Crashed; }
      command := state;
      return Denied(state);
    }

    /** The gate, the edit and the plan row of a freshly claimed command. */
    method MakePlan(req: Request) returns (reply: Option<Reply>)
      requires Inv() && command == Claimed
      modifies this`fuel, this`command, this`plan
      ensures Inv() && (reply == None <==> command == Executing)
      ensures reply == None ==> plan.value.path == req.path && Ok(plan.value.after) == Edited(req, plan.value.before)
      ensures reply == None ==> Admissible(git, origin, start, startHash, req)
      ensures Admissible(git, origin, start, startHash, req) && old(fuel) > 0 ==> reply == None
      ensures reply == None ==> fuel == old(fuel) - 1
      ensures reply.Some? ==> plan == None && !reply.value.Finished?
      ensures Admissible(git, origin, start, startHash, req) ==> command in {Claimed, Executing}
    {
      var actual := ComputeStateHash(git, files);
      if actual != stateHash {
        var r := Manual();
        return Some(r);
      }
      if req.expectedRevision != revision {
        var r := Deny(CommandState.StaleRevision);
        return Some(r);
      }
      if req.expectedHash.Some? && req.expectedHash.value != stateHash {
        var r := Deny(CommandState.StateMismatch);
        return Some(r);
      }
      var before := Get(files, req.path);
      if before.None? {
        return Some(Raised(MissingFile));
      }
      var after := Edited(req, before.value);
      if after.Err? {
        var r := Deny(CommandState.PolicyDenied);
        return Some(r);
      }
      var go := Tick();
      if !go { return Some(Crashed); }
      plan := Some(Plan(req.path, before.value, after.value, revision, stateHash,
                        OverrideStateHash(git, files, req.path, after.value)));
      command := Executing;
      return None;
    }

    /** Temp file, then atomic replacement. A temp with other bytes, or one beside a target that no longer
        holds the before bytes, is refused. */
    method ApplyPlanned() returns (reply: Option<Reply>)
      requires Inv() && command == Executing && (!tampered ==> files == origin)
      modifies this`fuel, this`files, this`temp
      ensures Inv()
      ensures old(temp).Some? && (old(temp).value != plan.value.after || Get(old(files), plan.value.path) != Some(plan.value.before)) ==>
                reply.Some? && reply.value.Raised? && temp == old(temp)
      ensures files == if reply == None then Put(old(files), plan.value.path, Some(plan.value.after)) else old(files)
      ensures reply == None ==> temp == None
      ensures reply.Some? && torn == None && old(WholeTemp()) ==> WholeTemp()
      ensures reply.Some? ==> !reply.value.Finished?
      ensures old(WholeTemp()) && Get(old(files), plan.value.path) == Some(plan.value.before) && old(fuel) >= 2 ==>
                reply == None && fuel >= old(fuel) - 2
    {
      var p := plan.value;
      if temp.Some? {
        if temp.value != p.after { return Some(Raised(ManualReconciliationRequired)); }
        if p.path !in files { return Some(Raised(MissingFile)); }
        if files[p.path] != p.before { return Some(Raised(ManualReconciliationRequired)); }
      } else {
        var go := Tick();
        if !go {
          temp := torn;
          return Some(Crashed);
        }
        temp := Some(p.after);
      }
      var go := Tick();
      if !go { return Some(Crashed); }
      files := Put(files, p.path, Some(p.after));
      temp := None;
      return None;
    }

    /** The effect transaction: one compare-and-swap of the workspace row with the effect and command rows,
        or the replay of an effect already there. */
    method RecordEffect() returns (reply: Option<Reply>)
      requires plan.Some?
      modifies this`fuel, this`revision, this`stateHash, this`effect, this`command
      ensures reply == None && old(effect) == None ==>
        && old(command) == Executing && old(RowsBefore())
        && effect == Some(EffectFor(plan.value)) && command == EffectRecorded
        && revision == plan.value.revisionBefore + 1 && stateHash == plan.value.hashAfter
      ensures reply.Some? || old(effect).Some? ==>
        effect == old(effect) && command == old(command) && revision == old(revision) && stateHash == old(stateHash)
      ensures old(effect).Some? ==> (reply == None <==>
        && effect == Some(EffectFor(plan.value)) && command == EffectRecorded
        && revision == plan.value.revisionBefore + 1 && stateHash == plan.value.hashAfter)
      ensures old(effect) == None && old(command) == Executing && old(RowsBefore()) ==>
        (reply == None || reply == Some(Crashed)) && (old(fuel) > 0 ==> reply == None)
      ensures reply.Some? ==> !reply.value.Finished?
    {
      var p := plan.value;
      if effect.Some? {
        if effect.value == EffectFor(p) && command == EffectRecorded && revision == p.revisionBefore + 1 && stateHash == p.hashAfter {
          return None;
        }
        return Some(Raised(JournalConflict));
      }
      if command != Executing { return Some(Raised(InvalidStateTransition)); }
      if revision != p.revisionBefore || stateHash != p.hashBefore { return Some(Raised(JournalConflict)); }
      var go := Tick();
      if !go { return Some(Crashed); }
      revision, stateHash := p.revisionBefore + 1, p.hashAfter;
      effect := Some(EffectFor(p));
      command := EffectRecorded;
      return None;
    }

    /** The test profile runs after the effect; it may leave any files behind. */
    method RunProfile(status: ProfileStatus, debris: Option<FileMap>) returns (reply: Reply)
      requires Inv() && command == EffectRecorded
      modifies this`files, this`tampered
      ensures Inv() && reply == Finished(status)
      ensures if debris.Some? then files == debris.value else files == old(files) && tampered == old(tampered)
    {
      if debris.Some? {
        files := debris.value;
        tampered := true;
      }
      return Finished(status);
    }

    /** The file map changed at most by writing the target, and that only from verified before bytes,
        or by the profile run. */
    ghost predicate Careful(was: FileMap, debris: Option<FileMap>)
      reads this
    {
      || files == was || (effect.Some? && debris.Some? && files == debris.value)
      || (plan.Some? && Get(was, plan.value.path) == Some(plan.value.before) && AgreeVisible(git, was, origin)
          && files == Put(was, plan.value.path, Some(plan.value.after)))
    }

    /** From verified bytes to a recorded effect. */
    method Conclude(status: ProfileStatus, debris: Option<FileMap>) returns (reply: Reply)
      requires Inv() && command == Executing && AtAfter() && temp == None && (!tampered ==> files == Image())
      modifies this`fuel, this`files, this`revision, this`stateHash, this`effect, this`command, this`tampered
      ensures Inv() && command in {Executing, EffectRecorded}
      ensures command == EffectRecorded <==> reply.Finished?
      ensures reply.Finished? ==> reply.status == status && effect.Some?
      ensures reply.Finished? && debris.Some? ==> files == debris.value
      ensures !(reply.Finished? && debris.Some?) ==> files == old(files) && tampered == old(tampered)
      ensures old(fuel) >= 1 ==> reply.Finished?
    {
      var r := RecordEffect();
      if r.Some? { return r.value; }
      reply := RunProfile(status, debris);
    }

    method WriteAndRecord(req: Request, status: ProfileStatus, debris: Option<FileMap>) returns (reply: Reply)
      requires Inv() && command == Executing && AtBefore() && WholeTemp()
      modifies this`fuel, this`files, this`temp, this`revision, this`stateHash, this`effect, this`command, this`tampered
      ensures Inv() && command in {Executing, EffectRecorded} && Careful(old(files), debris)
      ensures command == EffectRecorded <==> reply.Finished?
      ensures reply.Finished? ==> reply.status == status
      ensures torn == None && command == Executing ==> WholeTemp()
      ensures command == Executing ==> tampered == old(tampered)
      ensures old(fuel) >= 3 ==> (reply.Finished? <==> Shows())
    {
      if !tampered {
        BackToBefore();
      }
      ghost var was := files;
      var r := ApplyPlanned();
      if r.Some? { return r.value; }
      PutAgrees(git, was, origin, plan.value.path, Some(plan.value.after));
      OverrideMeans(git, origin, plan.value.path, plan.value.after, files);
      if ComputeStateHash(git, files) != plan.value.hashAfter {
        return Raised(JournalCorrupt);
      }
      reply := Conclude(status, debris);
    }

    /** The plan is this request's. */
    ghost predicate Serves(req: Request)
      reads this
    {
      plan.Some? ==> plan.value.path == req.path && Ok(plan.value.after) == Edited(req, plan.value.before)
    }

    /** The planned content will show in Git's listing. */
    ghost predicate Shows()
      reads this
    {
      plan.Some? && Traced(git, plan.value.path, plan.value.after)
    }

    method FromClaimed(req: Request, status: ProfileStatus, debris: Option<FileMap>) returns (reply: Reply)
      requires Inv() && command == Claimed
      modifies this`fuel, this`files, this`temp, this`plan, this`revision, this`stateHash, this`effect, this`command, this`tampered
      ensures Inv() && Serves(req) && (reply.Finished? ==> command == EffectRecorded && reply.status == status)
      ensures Careful(old(files), debris) && (torn == None ==> WholeTemp())
      ensures Admissible(git, origin, start, startHash, req) ==> Undecided(req)
      ensures Admissible(git, origin, start, startHash, req) && old(fuel) >= 4 ==> plan.Some? && (effect.Some? <==> Shows())
    {
      var r := MakePlan(req);
      if r.Some? {
        return r.value;
      }
      reply := WriteAndRecord(req, status, debris);
    }

    /** Goes on from verified bytes: writes from the before bytes, or only records the planned ones. */
    method Resume(write: bool, req: Request, status: ProfileStatus, debris: Option<FileMap>) returns (reply: Reply)
      requires Inv() && command == Executing && WholeTemp()
      requires if write then AtBefore() else AtAfter() && temp == None && (!tampered ==> files == Image())
      modifies this`fuel, this`files, this`temp, this`revision, this`stateHash, this`effect, this`command, this`tampered
      ensures Inv() && command in {Executing, EffectRecorded} && Careful(old(files), debris)
      ensures command == EffectRecorded <==> reply.Finished?
      ensures reply.Finished? ==> reply.status == status
      ensures torn == None && command == Executing ==> WholeTemp()
      ensures command == Executing ==> tampered == old(tampered)
      ensures old(fuel) >= 3 ==> (reply.Finished? <==> Shows())
    {
      if write {
        reply := WriteAndRecord(req, status, debris);
      } else {
        reply := Conclude(status, debris);
      }
    }

    /** Recovery of an executing command, over arbitrary files: the effect is recorded exactly when the
        planned content shows in Git and the bytes are verified, before or after; otherwise nothing is
        written and the command goes to manual reconciliation. */
    method FromExecuting(req: Request, status: ProfileStatus, debris: Option<FileMap>) returns (reply: Reply)
      requires Inv() && command == Executing
      modifies this`fuel, this`files, this`temp, this`revision, this`stateHash, this`effect, this`command, this`tampered
      ensures Inv() && (reply.Finished? ==> command == EffectRecorded && reply.status == status)
      ensures Careful(old(files), debris) && (torn == None && old(WholeTemp()) ==> WholeTemp())
      ensures old(WholeTemp() && !tampered) ==> Undecided(req)
      ensures old(WholeTemp()) && old(fuel) >= 4 ==>
                (effect.Some? <==> Shows() && old(AtBefore() || (AtAfter() && temp == None)))
      ensures !old((AtBefore() && WholeTemp()) || (!AtBefore() && AtAfter() && temp == None)) ==>
                files == old(files) && effect == None && (old(fuel) > 0 ==> reply == Reconcile && command == ManualReconciliation)
    {
      if !tampered {
        CalmIsVerified();
      }
      var decision := Decide();
      if decision == Diverged {
        reply := Manual();
      } else {
        reply := Resume(decision == Execute, req, status, debris);
      }
    }

    /** Undisturbed, the files are verified before bytes, or planned bytes verified as such if Git shows them. */
    lemma CalmIsVerified()
      requires UnderWay() && !tampered
      ensures AtBefore() || (files == Image() && temp == None && (AtAfter() <==> Shows()))
    {
    }

    /** A recorded effect is only verified again, never repeated. */
    method FromRecorded(req: Request, status: ProfileStatus, debris: Option<FileMap>) returns (reply: Reply)
      requires Inv() && command == EffectRecorded
      modifies this`fuel, this`files, this`command, this`tampered
      ensures Inv() && (reply.Finished? ==> command == EffectRecorded && reply.status == status)
      ensures Undecided(req) && plan.Some? && effect.Some? && Shows() && Careful(old(files), debris)
      ensures old(fuel) > 0 ==> (reply.Finished? <==> old(AtAfter()))
    {
      OverrideMeans(git, origin, plan.value.path, plan.value.after, files);
      var decision := Decide();
      if decision == Diverged {
        reply := Manual();
      } else {
        reply := RunProfile(status, debris);
      }
    }

    /** Any other state: nothing is executed any more. */
    method FromEnded() returns (reply: Reply)
      requires Inv() && command !in {Claimed, Executing, EffectRecorded}
      modifies this`fuel, this`command
      ensures Inv() && command == old(command) && !reply.Finished?
    {
      reply := Manual();
    }

    /** One process life: execute a fresh command or recover an interrupted one, on whatever files it finds.
        The invariant holds, the plan never changes, a recorded effect is never repeated, and the target is
        written only from verified before bytes. */
    method ExecuteOrRecover(req: Request, status: ProfileStatus, debris: Option<FileMap>) returns (reply: Reply)
      requires Inv() && Serves(req)
      modifies this`fuel, this`files, this`temp, this`plan, this`revision, this`stateHash, this`effect, this`command, this`tampered
      ensures Inv() && Serves(req) && (reply.Finished? ==> command == EffectRecorded && reply.status == status)
      ensures Careful(old(files), debris)
      ensures old(plan).Some? ==> plan == old(plan)
      ensures old(effect).Some? ==> effect == old(effect) && revision == old(revision)
      ensures torn == None && old(WholeTemp()) ==> WholeTemp()
      ensures old(WholeTemp()) && old(Undecided(req)) ==> Undecided(req)
      ensures old(WholeTemp()) && old(Undecided(req)) && old(fuel) >= 4 ==> plan.Some? && (effect.Some? <==> Shows())
    {
      Stage(req);
      if command == Claimed {
        reply := FromClaimed(req, status, debris);
      } else if command == Executing {
        reply := FromExecuting(req, status, debris);
      } else if command == EffectRecorded {
        reply := FromRecorded(req, status, debris);
      } else {
        reply := FromEnded();
      }
    }

    /** What each stage already has. */
    lemma Stage(req: Request)
      requires Inv()
      ensures command == Claimed ==> plan.None? && effect.None? && (Undecided(req) ==> Admissible(git, origin, start, startHash, req))
      ensures command == Executing ==> plan.Some? && effect.None? && (Undecided(req) ==> !tampered)
      ensures command == Executing && !tampered && Shows() ==> AtBefore() || (AtAfter() && temp == None)
      ensures command == EffectRecorded ==> temp.None?
      ensures command !in {Claimed, Executing, EffectRecorded} && Undecided(req) ==> plan.Some? && (effect.Some? <==> Shows())
    {
      if command == Executing && !tampered {
        CalmIsVerified();
      }
    }

    /** The invariant, and with `whole` also an intact temp and an undecided request. */
    ghost predicate Sane(req: Request, whole: bool)
      reads this
    {
      Inv() && Serves(req) && (whole ==> WholeTemp() && Undecided(req))
    }

    /** Someone else replaces the files. */
    method Disturb(req: Request, foreign: FileMap)
      requires Sane(req, false)
      modifies this`files, this`origin, this`tampered
      ensures Sane(req, false) && files == foreign
      ensures command != Claimed ==> origin == old(origin)
    {
      files := foreign;
      if command == Claimed {
        origin := files;
      } else {
        tampered := true;
      }
    }

    /** A process starts under its own schedule. */
    method Schedule(req: Request, fuel: nat, torn: Option<Bytes>, ghost whole: bool)
      requires Sane(req, whole)
      modifies this`fuel, this`torn
      ensures Sane(req, whole) && this.fuel == fuel && this.torn == torn
    {
      this.fuel, this.torn := fuel, torn;
    }

    /** A process starts, possibly after someone else replaced the files. */
    method Begin(req: Request, fuel: nat, torn: Option<Bytes>, foreign: Option<FileMap>, ghost whole: bool)
      requires Sane(req, whole)
      modifies this`fuel, this`torn, this`files, this`origin, this`tampered
      ensures Sane(req, whole && foreign == None) && this.fuel == fuel && this.torn == torn
      ensures files == if foreign.Some? then foreign.value else old(files)
      ensures foreign == None || command != Claimed ==> origin == old(origin)
    {
      Schedule(req, fuel, torn, whole);
      if foreign.Some? {
        Disturb(req, foreign.value);
      }
    }

    lemma PlanComesFirst()
      requires Inv()
      ensures plan.Some? ==> command != Claimed
    {
    }

    lemma Counts()
      requires Inv()
      ensures revision == start + (if effect.Some? then 1 else 0)
      ensures !tampered ==> files == origin || (plan.Some? && files == Image())
    {
    }

    /** An admissible request can only be waiting, under way, effected, or given up because its content
        would not show. */
    ghost predicate Undecided(req: Request)
      reads this
    {
      match command
      case Claimed => Admissible(git, origin, start, startHash, req)
      case Executing => !tampered
      case EffectRecorded => true
      case ManualReconciliation => effect.Some? || (plan.Some? && !Shows())
      case _ => false
    }
  }

  datatype Reply = Finished(status: ProfileStatus) | Reconcile | Denied(state: CommandState) | Raised(code: ErrorCode) | Crashed

  function Edited(req: Request, before: Bytes): Result<Bytes> {
    RunEdits(before, UniformLineEnding(before), req.edits)
  }

  /** The gate and the edit accept the request. */
  predicate Admissible(git: Checkout, files: FileMap, revision: nat, stateHash: StateHash, req: Request) {
    && ComputeStateHash(git, files) == stateHash && req.expectedRevision == revision
    && (req.expectedHash.Some? ==> req.expectedHash.value == stateHash)
    && req.path in files && Edited(req, files[req.path]).Ok?
  }

  /** The planned content is what the edits make of the before bytes, one after the other. */
  lemma EditedMeans(req: Request, before: Bytes, after: Bytes)
    ensures Edited(req, before) == Ok(after) <==> EditMeaning.EditsAll(before, req.edits, after)
  {
    EditMeaning.RunExactly(before, req.edits, after);
  }

  /** A request is admissible exactly if the files and the journal are as it expects and the edits apply. */
  lemma AdmissibleMeans(git: Checkout, files: FileMap, revision: nat, stateHash: StateHash, req: Request)
    ensures Admissible(git, files, revision, stateHash, req) <==>
      && ComputeStateHash(git, files) == stateHash && req.expectedRevision == revision
      && (req.expectedHash == None || req.expectedHash == Some(stateHash))
      && req.path in files && exists after :: EditMeaning.EditsAll(files[req.path], req.edits, after)
  {
    if req.path in files {
      if Edited(req, files[req.path]).Ok? {
        EditedMeans(req, files[req.path], Edited(req, files[req.path]).value);
      }
      if after :| EditMeaning.EditsAll(files[req.path], req.edits, after) {
        EditedMeans(req, files[req.path], after);
      }
    }
  }

  /** How one life goes: what others did to the files before it, how many durable steps it takes, what a
      temp write cut short leaves behind, and what its profile run does. */
  datatype Life = Life(foreign: Option<FileMap>, fuel: nat, torn: Option<Bytes>, status: ProfileStatus, debris: Option<FileMap>)

  predicate Gentle(life: Life) {
    life.torn == None && life.foreign == None
  }

  /** Any schedule of lives that tears no temp file and meets no foreign change, then one that is left alone.
      From an admissible request the outcome is settled by one question: does the planned content differ
      from HEAD and show in Git's listing? If so exactly one effect is recorded, the revision moves by exactly
      one, and unless a profile run changed files the target holds the planned bytes and every other file
      is as before. If not, no effect is ever recorded and the revision never moves. */
  method RunLives(d: Desk, req: Request, lives: seq<Life>, last: Life) returns (reply: Reply)
    requires d.Inv() && d.command == Claimed
    requires Admissible(d.git, d.origin, d.start, d.startHash, req)
    requires last.fuel >= 4 && forall i :: 0 <= i < |lives| ==> Gentle(lives[i])
    modifies d
    ensures d.Inv() && d.Planned() && d.Serves(req)
    ensures d.effect.Some? <==> Traced(d.git, req.path, d.plan.value.after)
    ensures d.effect.Some? ==> d.effect.value.plan == d.plan.value && d.effect.value.revisionAfter == d.revision == d.start + 1
    ensures d.effect.Some? && !d.tampered ==> d.files == Put(d.origin, req.path, Some(d.plan.value.after))
    ensures d.effect.None? ==> d.revision == d.start && d.stateHash == d.startHash
    ensures d.origin == old(d.origin) && d.start == old(d.start) && d.startHash == old(d.startHash)
  {
    CrashingLives(d, req, lives);
    d.Begin(req, last.fuel, None, None, true);
    reply := d.ExecuteOrRecover(req, last.status, last.debris);
  }

  /** Any schedule at all, foreign changes and torn temps included: never a second effect, and the revision
      moves exactly when the effect is recorded; undisturbed, never a half-written target. */
  method CrashingLives(d: Desk, req: Request, lives: seq<Life>)
    requires d.Inv() && d.Serves(req)
    modifies d
    ensures d.Inv() && d.Serves(req)
    ensures d.revision == d.start + (if d.effect.Some? then 1 else 0)
    ensures !d.tampered ==> d.files == d.origin || (d.plan.Some? && d.files == d.Image())
    ensures old(d.effect).Some? ==> d.effect == old(d.effect)
    ensures old(d.plan).Some? ==> d.plan == old(d.plan) && d.origin == old(d.origin)
    ensures old(d.WholeTemp() && d.Undecided(req)) && (forall i :: 0 <= i < |lives| ==> Gentle(lives[i])) ==>
              d.WholeTemp() && d.Undecided(req) && d.origin == old(d.origin)
    ensures d.start == old(d.start) && d.startHash == old(d.startHash)
  {
    ghost var whole := d.WholeTemp() && d.Undecided(req);
    for i := 0 to |lives|
      invariant d.Sane(req, whole) && (old(d.effect).Some? ==> d.effect == old(d.effect))
      invariant old(d.plan).Some? ==> d.plan == old(d.plan) && d.origin == old(d.origin)
      invariant old(d.WholeTemp() && d.Undecided(req)) && (forall k :: 0 <= k < i ==> Gentle(lives[k])) ==>
                  whole && d.origin == old(d.origin)
      invariant d.start == old(d.start) && d.startHash == old(d.startHash)
    {
      OneLife(d, req, lives[i], whole);
      whole := whole && Gentle(lives[i]);
    }
    d.Counts();
  }

  /** One life under its own schedule. */
  method OneLife(d: Desk, req: Request, life: Life, ghost whole: bool)
    requires d.Sane(req, whole)
    modifies d
    ensures d.Sane(req, whole && Gentle(life))
    ensures old(d.effect).Some? ==> d.effect == old(d.effect)
    ensures old(d.plan).Some? ==> d.plan == old(d.plan)
    ensures old(d.plan).Some? || life.foreign == None ==> d.origin == old(d.origin)
    ensures d.start == old(d.start) && d.startHash == old(d.startHash)
    ensures d.Careful(if life.foreign.Some? then life.foreign.value else old(d.files), life.debris)
  {
    d.PlanComesFirst();
    d.Begin(req, life.fuel, life.torn, life.foreign, whole);
    var _ := d.ExecuteOrRecover(req, life.status, life.debris);
  }
}

/** Revision conservation: every workspace revision is accounted for by the commands that advanced it. */
module Ledger {
  import opened Base
  import opened Models
  import opened Workspace

  type CommandId = nat
  type SessionId = nat

  /** Which runtime the dispatcher sends the command to; fixed by its operation. */
  datatype Kind = SingleFile | MultiFile

  datatype CommandRow = CommandRow(session: SessionId, kind: Kind, state: CommandState)
  datatype WorkspaceRow = WorkspaceRow(revision: nat, stateHash: StateHash)
  datatype PlanRow = PlanRow(session: SessionId, revisionBefore: nat, hashBefore: StateHash, hashAfter: StateHash)
  datatype CheckpointRow = CheckpointRow(session: SessionId, batch: Checkpoint)

  function Singles(effects: map<CommandId, PlanRow>, sid: SessionId): set<CommandId> {
    set c | c in effects && effects[c].session == sid
  }

  function Batches(checkpoints: map<CommandId, CheckpointRow>, sid: SessionId): set<CommandId> {
    set c | c in checkpoints && checkpoints[c].session == sid && checkpoints[c].batch.state == Committed
  }

  /** The commands of a session that advanced its revision: a recorded effect or a committed batch. */
  function Contributors(effects: map<CommandId, PlanRow>, checkpoints: map<CommandId, CheckpointRow>, sid: SessionId): set<CommandId> {
    Singles(effects, sid) + Batches(checkpoints, sid)
  }

  ghost function Advances(effects: map<CommandId, PlanRow>, checkpoints: map<CommandId, CheckpointRow>, sid: SessionId): nat {
    |Contributors(effects, checkpoints, sid)|
  }

  /** Each workspace stands at its registered revision plus one for every contributing command. */
  ghost predicate Conserved(workspaces: map<SessionId, WorkspaceRow>, registered: map<SessionId, nat>,
                            effects: map<CommandId, PlanRow>, checkpoints: map<CommandId, CheckpointRow>) {
    && registered.Keys == workspaces.Keys
    && (forall sid {:trigger Advances(effects, checkpoints, sid)} :: sid in workspaces ==>
          workspaces[sid].revision == registered[sid] + Advances(effects, checkpoints, sid))
  }

  /** Rows belong to a command of their kind and session, and every contribution to a workspace. */
  ghost predicate Rooted(commands: map<CommandId, CommandRow>, workspaces: map<SessionId, WorkspaceRow>, plans: map<CommandId, PlanRow>,
                         effects: map<CommandId, PlanRow>, checkpoints: map<CommandId, CheckpointRow>) {
    && (forall c :: c in plans ==> c in commands && commands[c].kind == SingleFile && commands[c].session == plans[c].session)
    && (forall c :: c in effects ==> c in plans && effects[c] == plans[c] && effects[c].session in workspaces)
    && (forall c :: c in checkpoints ==>
          c in commands && commands[c].kind == MultiFile && commands[c].session == checkpoints[c].session
          && checkpoints[c].session in workspaces)
  }

  lemma OneMoreContributor(before: set<CommandId>, after: set<CommandId>, c: CommandId)
    requires after == before + {c} && c !in before
    ensures |after| == |before| + 1
  {
  }

  /** A new effect is one more contributor to its own session and none to the others. */
  lemma EffectAdvances(effects: map<CommandId, PlanRow>, checkpoints: map<CommandId, CheckpointRow>, c: CommandId, plan: PlanRow, sid: SessionId)
    requires c !in effects && c !in checkpoints
    ensures Advances(effects[c := plan], checkpoints, sid)
         == Advances(effects, checkpoints, sid) + (if sid == plan.session then 1 else 0)
  {
    SinglesAfter(effects, c, plan, sid);
    NotABatch(checkpoints, c, sid);
    UnionGrows(Batches(checkpoints, sid), Singles(effects, sid), c);
    Swap(effects, checkpoints, sid);
    Swap(effects[c := plan], checkpoints, sid);
  }

  lemma Swap(effects: map<CommandId, PlanRow>, checkpoints: map<CommandId, CheckpointRow>, sid: SessionId)
    ensures Contributors(effects, checkpoints, sid) == Batches(checkpoints, sid) + Singles(effects, sid)
  {
  }

  lemma SinglesAfter(effects: map<CommandId, PlanRow>, c: CommandId, plan: PlanRow, sid: SessionId)
    requires c !in effects
    ensures Singles(effects[c := plan], sid) == Singles(effects, sid) + (if sid == plan.session then {c} else {})
    ensures c !in Singles(effects, sid)
  {
  }

  lemma NotABatch(checkpoints: map<CommandId, CheckpointRow>, c: CommandId, sid: SessionId)
    requires c !in checkpoints
    ensures c !in Batches(checkpoints, sid)
  {
  }

  lemma EffectCounts(workspaces: map<SessionId, WorkspaceRow>, registered: map<SessionId, nat>, effects: map<CommandId, PlanRow>,
                     checkpoints: map<CommandId, CheckpointRow>, c: CommandId, plan: PlanRow, w: WorkspaceRow)
    requires Conserved(workspaces, registered, effects, checkpoints) && c !in effects && c !in checkpoints
    requires plan.session in workspaces && w.revision == workspaces[plan.session].revision + 1
    ensures Conserved(workspaces[plan.session := w], registered, effects[c := plan], checkpoints)
  {
    assert workspaces[plan.session := w].Keys == workspaces.Keys;
    forall sid | sid in workspaces
      ensures workspaces[plan.session := w][sid].revision == registered[sid] + Advances(effects[c := plan], checkpoints, sid)
    {
      EffectAdvances(effects, checkpoints, c, plan, sid);
    }
  }

  /** A batch that commits is one more contributor; any other checkpoint move is none. */
  lemma CheckpointAdvances(effects: map<CommandId, PlanRow>, checkpoints: map<CommandId, CheckpointRow>, c: CommandId, k: CheckpointRow, sid: SessionId)
    requires c !in effects && (c in checkpoints ==> checkpoints[c].batch.state != Committed)
    ensures Advances(effects, checkpoints[c := k], sid)
         == Advances(effects, checkpoints, sid) + (if sid == k.session && k.batch.state == Committed then 1 else 0)
  {
    BatchesAfter(checkpoints, c, k, sid);
    NotASingle(effects, c, sid);
    UnionGrows(Singles(effects, sid), Batches(checkpoints, sid), c);
  }

  lemma NotASingle(effects: map<CommandId, PlanRow>, c: CommandId, sid: SessionId)
    requires c !in effects
    ensures c !in Singles(effects, sid)
  {
  }

  lemma UnionGrows(a: set<CommandId>, b: set<CommandId>, c: CommandId)
    requires c !in a && c !in b
    ensures |a + (b + {c})| == |a + b| + 1 && b + {} == b
  {
    assert a + (b + {c}) == (a + b) + {c};
  }

  lemma BatchesAfter(checkpoints: map<CommandId, CheckpointRow>, c: CommandId, k: CheckpointRow, sid: SessionId)
    requires c in checkpoints ==> checkpoints[c].batch.state != Committed
    ensures Batches(checkpoints[c := k], sid) == Batches(checkpoints, sid) + (if sid == k.session && k.batch.state == Committed then {c} else {})
    ensures c !in Batches(checkpoints, sid)
  {
  }

  lemma CheckpointCounts(workspaces: map<SessionId, WorkspaceRow>, registered: map<SessionId, nat>, effects: map<CommandId, PlanRow>,
                         checkpoints: map<CommandId, CheckpointRow>, c: CommandId, k: CheckpointRow, w: WorkspaceRow)
    requires Conserved(workspaces, registered, effects, checkpoints) && c !in effects && k.session in workspaces
    requires c in checkpoints ==> checkpoints[c].batch.state != Committed
    requires w.revision == workspaces[k.session].revision + (if k.batch.state == Committed then 1 else 0)
    ensures Conserved(workspaces[k.session := w], registered, effects, checkpoints[c := k])
  {
    forall sid | sid in workspaces
      ensures workspaces[k.session := w][sid].revision == registered[sid] + Advances(effects, checkpoints[c := k], sid)
    {
      CheckpointAdvances(effects, checkpoints, c, k, sid);
    }
  }

  lemma RegistrationCounts(workspaces: map<SessionId, WorkspaceRow>, registered: map<SessionId, nat>, effects: map<CommandId, PlanRow>,
                           checkpoints: map<CommandId, CheckpointRow>, sid: SessionId, w: WorkspaceRow)
    requires Conserved(workspaces, registered, effects, checkpoints) && sid !in workspaces
    requires forall c :: c in effects ==> effects[c].session != sid
    requires forall c :: c in checkpoints ==> checkpoints[c].session != sid
    ensures Conserved(workspaces[sid := w], registered[sid := w.revision], effects, checkpoints)
  {
    assert Contributors(effects, checkpoints, sid) == {};
    assert Advances(effects, checkpoints, sid) == 0;
  }

  /** The compare-and-swap of a workspace row: it stood exactly at the before values and now at the after ones. */
  ghost predicate Swapped(was: map<SessionId, WorkspaceRow>, now: map<SessionId, WorkspaceRow>, sid: SessionId,
                          revision: nat, hashBefore: StateHash, hashAfter: StateHash) {
    sid in was && was[sid] == WorkspaceRow(revision, hashBefore) && now == was[sid := WorkspaceRow(revision + 1, hashAfter)]
  }

  /** The row of a committed batch. */
  function Closed(k: CheckpointRow): CheckpointRow {
    k.(batch := CommittedRow(k.batch))
  }

  class Ledger {
    var commands: map<CommandId, CommandRow>
    var workspaces: map<SessionId, WorkspaceRow>
    var plans: map<CommandId, PlanRow>
    var effects: map<CommandId, PlanRow>
    var checkpoints: map<CommandId, CheckpointRow>
    var profiles: map<CommandId, bool>
    ghost var registered: map<SessionId, nat>

    ghost predicate Valid()
      reads this
    {
      Conserved(workspaces, registered, effects, checkpoints) && Rooted(commands, workspaces, plans, effects, checkpoints)
    }

    constructor ()
      ensures Valid()
    {
      commands, workspaces, plans, effects, checkpoints, profiles, registered := map[], map[], map[], map[], map[], map[], map[];
    }

    method AddCommand(c: CommandId, sid: SessionId, kind: Kind) returns (ok: bool)
      requires Valid()
      modifies this`commands
      ensures Valid() && ok == (c !in old(commands))
      ensures commands == if ok then old(commands)[c := CommandRow(sid, kind, Discovered)] else old(commands)
    {
      ok := c !in commands;
      if ok { commands := commands[c := CommandRow(sid, kind, Discovered)]; }
    }

    /** A command row moves along the table; no revision is involved. */
    method MoveCommand(c: CommandId, to: CommandState) returns (ok: bool)
      requires Valid()
      modifies this`commands
      ensures Valid() && ok == (c in old(commands) && to in CommandSuccessors(old(commands)[c].state))
      ensures commands == if ok then old(commands)[c := old(commands)[c].(state := to)] else old(commands)
    {
      ok := c in commands && to in CommandSuccessors(commands[c].state);
      if ok { commands := commands[c := commands[c].(state := to)]; }
    }

    method RegisterWorkspace(sid: SessionId, revision: nat, stateHash: StateHash) returns (ok: bool)
      requires Valid()
      modifies this`workspaces, this`registered
      ensures Valid() && ok == (sid !in old(workspaces))
      ensures workspaces == if ok then old(workspaces)[sid := WorkspaceRow(revision, stateHash)] else old(workspaces)
      ensures registered == if ok then old(registered)[sid := revision] else old(registered)
    {
      ok := sid !in workspaces;
      if ok {
        RegistrationCounts(workspaces, registered, effects, checkpoints, sid, WorkspaceRow(revision, stateHash));
        workspaces := workspaces[sid := WorkspaceRow(revision, stateHash)];
        registered := registered[sid := revision];
      }
    }

    method RecordPlan(c: CommandId, plan: PlanRow) returns (ok: bool)
      requires Valid()
      modifies this`plans, this`commands
      ensures Valid() && (c in old(plans) ==> plans == old(plans))
      ensures plans == if ok then old(plans)[c := plan] else old(plans)
    {
      if c in plans || c !in commands { return false; }
      var row := commands[c];
      if row.kind != SingleFile || row.session != plan.session || row.state != Claimed || plan.session !in workspaces { return false; }
      if workspaces[plan.session] != WorkspaceRow(plan.revisionBefore, plan.hashBefore) { return false; }
      plans := plans[c := plan];
      commands := commands[c := row.(state := Executing)];
      return true;
    }

    /** The effect transaction: swaps the workspace row and inserts the effect, or replays one already there. */
    method RecordEffect(c: CommandId) returns (ok: bool)
      requires Valid()
      modifies this`workspaces, this`effects, this`commands
      ensures Valid()
      ensures ok ==> c in plans
      ensures effects == if ok && c !in old(effects) then old(effects)[c := plans[c]] else old(effects)
      ensures !(ok && c !in old(effects)) ==> workspaces == old(workspaces) && commands == old(commands)
      ensures ok && c !in old(effects) ==> Swapped(old(workspaces), workspaces, plans[c].session, plans[c].revisionBefore,
                                                   plans[c].hashBefore, plans[c].hashAfter)
    {
      if c !in plans || c !in commands { return false; }
      var p := plans[c];
      if c in effects {
        return commands[c].state == EffectRecorded
               && p.session in workspaces && workspaces[p.session] == WorkspaceRow(p.revisionBefore + 1, p.hashAfter);
      }
      if commands[c].state != Executing { return false; }
      if p.session !in workspaces || workspaces[p.session] != WorkspaceRow(p.revisionBefore, p.hashBefore) { return false; }
      EffectCounts(workspaces, registered, effects, checkpoints, c, p, WorkspaceRow(p.revisionBefore + 1, p.hashAfter));
      workspaces := workspaces[p.session := WorkspaceRow(p.revisionBefore + 1, p.hashAfter)];
      effects := effects[c := p];
      commands := commands[c := commands[c].(state := EffectRecorded)];
      return true;
    }

    method RecordCheckpoint(c: CommandId, sid: SessionId, batch: Checkpoint) returns (ok: bool)
      requires Valid() && batch.state == Planned && batch.revisionAfter == None
      modifies this`checkpoints
      ensures Valid() && (c in old(checkpoints) ==> checkpoints == old(checkpoints))
      ensures ok && c !in old(checkpoints) ==> checkpoints == old(checkpoints)[c := CheckpointRow(sid, batch)]
      ensures !ok ==> checkpoints == old(checkpoints)
    {
      if c in checkpoints {
        return checkpoints[c].session == sid && SameCheckpoint(checkpoints[c].batch, batch);
      }
      if c !in commands || commands[c].session != sid || commands[c].kind != MultiFile || sid !in workspaces { return false; }
      if workspaces[sid] != WorkspaceRow(batch.revisionBefore, batch.hashBefore) { return false; }
      var k := CheckpointRow(sid, batch);
      CheckpointCounts(workspaces, registered, effects, checkpoints, c, k, workspaces[sid]);
      assert workspaces[sid := workspaces[sid]] == workspaces;
      checkpoints := checkpoints[c := k];
      return true;
    }

    /** Apply, roll back or block: moves the row without touching a revision. A committed row never moves. */
    method MarkCheckpoint(c: CommandId, to: CheckpointState) returns (ok: bool)
      requires Valid() && to != Committed
      modifies this`checkpoints
      ensures Valid()
      ensures ok ==> c in old(checkpoints) && checkpoints == old(checkpoints)[c := old(checkpoints)[c].(batch := old(checkpoints)[c].batch.(state := to))]
      ensures !ok ==> checkpoints == old(checkpoints)
      ensures c in old(checkpoints) && old(checkpoints)[c].batch.state == Committed ==> checkpoints == old(checkpoints)
    {
      if c !in checkpoints { return false; }
      var k := checkpoints[c];
      if k.batch.state == to {
        assert checkpoints == checkpoints[c := k.(batch := k.batch.(state := to))];
        return true;
      }
      if k.batch.state !in CheckpointPredecessors(to) { return false; }
      CheckpointCounts(workspaces, registered, effects, checkpoints, c, k.(batch := k.batch.(state := to)), workspaces[k.session]);
      assert workspaces[k.session := workspaces[k.session]] == workspaces;
      checkpoints := checkpoints[c := k.(batch := k.batch.(state := to))];
      return true;
    }

    /** Commits an applied batch: swaps the workspace row and closes the checkpoint; a replay changes nothing. */
    method CommitBatch(c: CommandId) returns (ok: bool)
      requires Valid()
      modifies this`workspaces, this`checkpoints
      ensures Valid() && ok == old(MayCommit(c))
      ensures ok ==> c in old(checkpoints) && c in checkpoints && checkpoints[c].batch.state == Committed
      ensures ok && old(checkpoints)[c].batch.state != Committed ==>
                old(checkpoints)[c].batch.state == Applied
                && checkpoints == old(checkpoints)[c := Closed(old(checkpoints)[c])]
                && Swapped(old(workspaces), workspaces, checkpoints[c].session, checkpoints[c].batch.revisionBefore,
                           checkpoints[c].batch.hashBefore, checkpoints[c].batch.hashAfter)
      ensures c in old(checkpoints) && old(checkpoints)[c].batch.state == Committed ==>
                workspaces == old(workspaces) && checkpoints == old(checkpoints)
      ensures !ok ==> workspaces == old(workspaces) && checkpoints == old(checkpoints)
    {
      if c !in checkpoints { return false; }
      var k := checkpoints[c];
      if k.batch.state == Committed {
        return workspaces[k.session].revision == k.batch.revisionBefore + 1 && workspaces[k.session].stateHash == k.batch.hashAfter;
      }
      if k.batch.state != Applied || workspaces[k.session] != WorkspaceRow(k.batch.revisionBefore, k.batch.hashBefore) { return false; }
      CheckpointCounts(workspaces, registered, effects, checkpoints, c, Closed(k), WorkspaceRow(k.batch.revisionBefore + 1, k.batch.hashAfter));
      workspaces := workspaces[k.session := WorkspaceRow(k.batch.revisionBefore + 1, k.batch.hashAfter)];
      checkpoints := checkpoints[c := Closed(k)];
      return true;
    }

    /** The batch is applied and its workspace stands at the before values, or it is committed already and
        the workspace stands at the after values. */
    predicate MayCommit(c: CommandId)
      reads this
    {
      c in checkpoints && checkpoints[c].session in workspaces &&
      var b, row := checkpoints[c].batch, workspaces[checkpoints[c].session];
      || (b.state == Applied && row == WorkspaceRow(b.revisionBefore, b.hashBefore))
      || (b.state == Committed && row == WorkspaceRow(b.revisionBefore + 1, b.hashAfter))
    }

    method RecordProfile(c: CommandId, success: bool) returns (ok: bool)
      requires Valid()
      modifies this`profiles
      ensures Valid() && (c in old(profiles) ==> profiles == old(profiles) && ok == (profiles[c] == success))
      ensures c !in old(profiles) ==>
                ok == (c in commands && commands[c].state == Executing && c in checkpoints && checkpoints[c].batch.state == Applied)
                && profiles == if ok then old(profiles)[c := success] else old(profiles)
    {
      if c in profiles { return profiles[c] == success; }
      if c !in commands || commands[c].state != Executing || c !in checkpoints || checkpoints[c].batch.state != Applied { return false; }
      profiles := profiles[c := success];
      return true;
    }

    /** A verdict is there and the checkpoint fits it: recorded already, or executing and ready to be recorded. */
    predicate MayFinalize(c: CommandId)
      reads this
    {
      c in commands && c in checkpoints && c in profiles &&
      var state := checkpoints[c].batch.state;
      || (commands[c].state == EffectRecorded && state == if profiles[c] then Committed else RolledBack)
      || (commands[c].state == Executing && if profiles[c] then MayCommit(c) else state == RolledBack)
    }

    /** Binds the batch outcome to the command: a success commits once, a failure must be rolled back. */
    method Finalize(c: CommandId) returns (ok: bool)
      requires Valid()
      modifies this`workspaces, this`checkpoints, this`commands
      ensures Valid() && ok == old(MayFinalize(c))
      ensures ok ==> c in profiles && c in checkpoints && checkpoints[c].batch.state == if profiles[c] then Committed else RolledBack
      ensures commands == if ok then old(commands)[c := old(commands)[c].(state := EffectRecorded)] else old(commands)
      ensures ok && old(checkpoints)[c].batch.state == Applied ==>
                checkpoints == old(checkpoints)[c := Closed(old(checkpoints)[c])]
                && Swapped(old(workspaces), workspaces, checkpoints[c].session, checkpoints[c].batch.revisionBefore,
                           checkpoints[c].batch.hashBefore, checkpoints[c].batch.hashAfter)
      ensures !ok || old(checkpoints)[c].batch.state != Applied ==> workspaces == old(workspaces) && checkpoints == old(checkpoints)
      ensures c in profiles && !profiles[c] ==> workspaces == old(workspaces)
    {
      if c !in commands || c !in checkpoints || c !in profiles { return false; }
      if commands[c].state == EffectRecorded {
        assert commands == commands[c := commands[c].(state := EffectRecorded)];
        return checkpoints[c].batch.state == if profiles[c] then Committed else RolledBack;
      }
      if commands[c].state != Executing { return false; }
      ok := BindCheckpoint(c);
      if ok { commands := commands[c := commands[c].(state := EffectRecorded)]; }
    }

    /** The checkpoint's part of the final transaction. */
    method BindCheckpoint(c: CommandId) returns (ok: bool)
      requires Valid() && c in checkpoints && c in profiles
      modifies this`workspaces, this`checkpoints
      ensures Valid() && ok == old(if profiles[c] then MayCommit(c) else checkpoints[c].batch.state == RolledBack)
      ensures ok ==> c in checkpoints && checkpoints[c].batch.state == if profiles[c] then Committed else RolledBack
      ensures ok && old(checkpoints)[c].batch.state == Applied ==>
                checkpoints == old(checkpoints)[c := Closed(old(checkpoints)[c])]
                && Swapped(old(workspaces), workspaces, checkpoints[c].session, checkpoints[c].batch.revisionBefore,
                           checkpoints[c].batch.hashBefore, checkpoints[c].batch.hashAfter)
      ensures !ok || old(checkpoints)[c].batch.state != Applied ==> workspaces == old(workspaces) && checkpoints == old(checkpoints)
      ensures !profiles[c] ==> workspaces == old(workspaces)
    {
      if profiles[c] {
        ok := CommitBatch(c);
      } else {
        ok := checkpoints[c].batch.state == RolledBack;
      }
    }
  }

  /** In every reachable state the two kinds of contribution never meet in one command, so the revision
      is the registered one plus the effects plus the committed batches. */
  lemma RevisionIsConserved(g: Ledger, sid: SessionId)
    requires g.Valid() && sid in g.workspaces
    ensures Singles(g.effects, sid) * Batches(g.checkpoints, sid) == {}
    ensures g.workspaces[sid].revision == g.registered[sid] + |Singles(g.effects, sid)| + |Batches(g.checkpoints, sid)|
  {
    Apart(g, sid);
    assert Advances(g.effects, g.checkpoints, sid) == |Singles(g.effects, sid)| + |Batches(g.checkpoints, sid)|;
  }

  lemma Apart(g: Ledger, sid: SessionId)
    requires g.Valid()
    ensures Singles(g.effects, sid) * Batches(g.checkpoints, sid) == {}
  {
    if c :| c in Singles(g.effects, sid) && c in Batches(g.checkpoints, sid) {
      assert false;
    }
  }
}

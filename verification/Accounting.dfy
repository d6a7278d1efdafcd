/** The coordinator and the ledger: what the runtime does to its rows is what the ledger accounts for. */
module Accounting {
  import opened Base
  import opened Models
  import opened Workspace
  import opened World
  import opened PatchPlanner
  import opened Ledger
  import PatchRuntime

  /** The ledger's rows for command `c` of session `sid` are the coordinator's. */
  ghost predicate Mirrors(g: Ledger, w: World, c: CommandId, sid: SessionId)
    reads g, w
  {
    && c in g.commands && g.commands[c] == CommandRow(sid, MultiFile, w.command)
    && sid in g.workspaces && g.workspaces[sid] == WorkspaceRow(w.revision, w.stateHash)
    && (w.checkpoint.None? ==> c !in g.checkpoints)
    && (w.checkpoint.Some? ==> c in g.checkpoints && g.checkpoints[c] == CheckpointRow(sid, w.checkpoint.value))
    && (w.profile.None? ==> c !in g.profiles)
    && (w.profile.Some? ==> c in g.profiles && g.profiles[c] == (w.profile.value == Success))
  }

  /** The coordinator's final transaction is the ledger's: on mirrored rows they succeed together, unless the
      process dies before it, and the rows are mirrored again. */
  method FinalizeMirrored(g: Ledger, w: World, site: Site, doc: PatchRuntime.Document, c: CommandId, sid: SessionId)
    returns (r: Option<PatchRuntime.Reply>, ok: bool)
    requires g.Valid() && Mirrors(g, w, c, sid)
    requires PatchRuntime.Inv(w, site, doc) && w.command in {Executing, EffectRecorded} && w.profile.Some? && w.checkpoint.Some?
    requires w.command == Executing && w.profile == Some(Success) ==>
               w.checkpoint.value.state == Applied && PatchRuntime.Verified(w, site, doc)
    modifies w`checkpoint, w`command, w`revision, w`stateHash, w`fuel, w`settled, g`workspaces, g`checkpoints, g`commands
    ensures g.Valid() && Mirrors(g, w, c, sid) && PatchRuntime.Inv(w, site, doc)
    ensures r.None? <==> ok
    ensures r == Some(PatchRuntime.Interrupted) || r.None? == old(g.MayFinalize(c))
  {
    r := PatchRuntime.Finalize(w, site, doc);
    if r == Some(PatchRuntime.Interrupted) {
      return r, false;
    }
    ok := g.Finalize(c);
  }

  /** The tables that revision conservation speaks about. */
  datatype Books = Books(workspaces: map<SessionId, WorkspaceRow>, registered: map<SessionId, nat>,
                         effects: map<CommandId, PlanRow>, checkpoints: map<CommandId, CheckpointRow>)

  ghost predicate Balanced(b: Books) {
    Conserved(b.workspaces, b.registered, b.effects, b.checkpoints)
  }

  /** The books with the rows of one command and its workspace as the coordinator has them. */
  function Entered(b: Books, c: CommandId, sid: SessionId, row: WorkspaceRow, checkpoint: Option<Checkpoint>): Books {
    b.(workspaces := b.workspaces[sid := row],
       checkpoints := match checkpoint
                      case None => b.checkpoints - {c}
                      case Some(k) => b.checkpoints[c := CheckpointRow(sid, k)])
  }

  /** What a stretch of the runtime may do to these rows: nothing, or one commit. */
  ghost predicate OneCommit(was: WorkspaceRow, before: Option<Checkpoint>, now: WorkspaceRow, after: Option<Checkpoint>) {
    match (before, after)
    case (None, None) => now == was
    case (Some(k), None) => false
    case (_, Some(k)) =>
      if before.Some? && before.value.state == Committed then k == before.value && now == was
      else now.revision == was.revision + if k.state == Committed then 1 else 0
  }

  lemma CommitBalances(b: Books, c: CommandId, sid: SessionId, was: WorkspaceRow, before: Option<Checkpoint>,
                       now: WorkspaceRow, after: Option<Checkpoint>)
    requires Balanced(Entered(b, c, sid, was, before)) && c !in b.effects && OneCommit(was, before, now, after)
    ensures Balanced(Entered(b, c, sid, now, after))
  {
    var e, f := Entered(b, c, sid, was, before), Entered(b, c, sid, now, after);
    assert f.workspaces == e.workspaces[sid := now];
    if after.None? || (before.Some? && before.value.state == Committed) {
      assert f == e;
    } else {
      assert f.checkpoints == e.checkpoints[c := CheckpointRow(sid, after.value)];
      CheckpointCounts(e.workspaces, e.registered, e.effects, e.checkpoints, c, CheckpointRow(sid, after.value), now);
    }
  }

  /** Whatever books balance with the rows of a command before any schedule of process lives, crashes, foreign
      changes and test runs balance with its rows afterwards. */
  method LivesBalance(w: World, site: Site, doc: PatchRuntime.Document, lives: seq<PatchRuntime.ServiceLife>,
                      ghost b: Books, ghost c: CommandId, ghost sid: SessionId)
    returns (replies: seq<PatchRuntime.Reply>)
    requires PatchRuntime.Inv(w, site, doc) && c !in b.effects
    requires Balanced(Entered(b, c, sid, WorkspaceRow(w.revision, w.stateHash), w.checkpoint))
    modifies w
    ensures PatchRuntime.Inv(w, site, doc)
    ensures Balanced(Entered(b, c, sid, WorkspaceRow(w.revision, w.stateHash), w.checkpoint))
    ensures OneCommit(old(WorkspaceRow(w.revision, w.stateHash)), old(w.checkpoint),
                      WorkspaceRow(w.revision, w.stateHash), w.checkpoint)
  {
    ghost var was, before := WorkspaceRow(w.revision, w.stateHash), w.checkpoint;
    replies := PatchRuntime.RunLives(w, site, doc, lives);
    CommitBalances(b, c, sid, was, before, WorkspaceRow(w.revision, w.stateHash), w.checkpoint);
  }
}

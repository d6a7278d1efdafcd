/** Safety of the command queue over every run of transactions. */
module Scheduling {
  import opened Base
  import opened Models
  import opened JournalTables

  ghost predicate OneRunning(sessions: map<SessionId, Session>) {
    forall a, b :: a in sessions && b in sessions && IsRunning(sessions[a].state) && IsRunning(sessions[b].state) ==> a == b
  }

  ghost predicate OneWorker(commands: map<Slot, Command>) {
    forall a, b :: a in commands && b in commands && IsWorker(commands[a].state) && IsWorker(commands[b].state) ==> a == b
  }

  /** The schema's constraints on command rows: positive numbers and an existing session. */
  ghost predicate Homed(commands: map<Slot, Command>, sids: set<SessionId>) {
    forall s :: s in commands ==> s.number > 0 && s.session in sids
  }

  /** Exactly the collision codes block. */
  ghost predicate Graded(issues: map<IssueKey, bool>) {
    forall k :: k in issues ==> (issues[k] <==> IsCollision(k.code))
  }

  ghost predicate Sound(t: Tables) {
    && OneRunning(t.sessions) && OneWorker(t.commands)
    && Homed(t.commands, t.sessions.Keys) && t.manifests.Keys <= t.sessions.Keys
    && t.receipts.Keys <= t.commands.Keys && Graded(t.issues)
  }

  // ----- What every transaction respects -----

  /** Command rows stay, keep their commit and move only along the transition table. */
  ghost predicate CommandsMove(c: map<Slot, Command>, d: map<Slot, Command>) {
    && (forall s :: s in c ==>
          s in d && d[s].commit == c[s].commit && (d[s].state == c[s].state || d[s].state in CommandSuccessors(c[s].state)))
    && (forall s :: s in d && s !in c ==> d[s].state == Discovered)
  }

  ghost predicate SessionsMove(a: map<SessionId, Session>, b: map<SessionId, Session>) {
    forall sid :: sid in a ==>
      sid in b && b[sid].repository == a[sid].repository && b[sid].base == a[sid].base && b[sid].created == a[sid].created
      && (b[sid].state == a[sid].state || b[sid].state in SessionSuccessors(a[sid].state))
  }

  ghost predicate Extends<K, V>(a: map<K, V>, b: map<K, V>) {
    forall k :: k in a ==> k in b && b[k] == a[k]
  }

  /** Receipts, manifests and issues are only ever added. */
  ghost predicate Moves(t: Tables, u: Tables) {
    && CommandsMove(t.commands, u.commands) && SessionsMove(t.sessions, u.sessions)
    && Extends(t.receipts, u.receipts) && Extends(t.manifests, u.manifests) && Extends(t.issues, u.issues)
  }

  lemma AddsIssue(issues: map<IssueKey, bool>, k: IssueKey, blocking: bool)
    requires Graded(issues) && (blocking <==> IsCollision(k.code))
    ensures Graded(AddIssue(issues, k, blocking)) && Extends(issues, AddIssue(issues, k, blocking))
  {
  }

  /** New rows start as Discovered. */
  lemma AddsCommands(c: map<Slot, Command>, d: map<Slot, Command>, sids: set<SessionId>)
    requires OneWorker(c) && Homed(c, sids) && forall s :: s in d ==> d[s].state == Discovered && s !in c
    requires Homed(d, sids)
    ensures OneWorker(c + d) && Homed(c + d, sids) && CommandsMove(c, c + d)
  {
  }

  lemma AddsCommand(c: map<Slot, Command>, slot: Slot, new_: Command, sids: set<SessionId>)
    requires OneWorker(c) && Homed(c, sids) && slot !in c && new_.state == Discovered
    requires slot.number > 0 && slot.session in sids
    ensures OneWorker(c[slot := new_]) && Homed(c[slot := new_], sids) && CommandsMove(c, c[slot := new_])
  {
  }

  lemma AddsSession(a: map<SessionId, Session>, sid: SessionId, s: Session)
    requires OneRunning(a) && sid !in a && s.state == Created
    ensures OneRunning(a[sid := s]) && SessionsMove(a, a[sid := s])
  {
  }

  lemma SessionChanges(a: map<SessionId, Session>, sid: SessionId, s: Session)
    requires OneRunning(a) && sid in a && (s == a[sid] || s.state in SessionSuccessors(a[sid].state))
    requires s.repository == a[sid].repository && s.base == a[sid].base && s.created == a[sid].created
    requires IsRunning(s.state) && s != a[sid] ==> forall r :: r in a && r != sid ==> !IsRunning(a[r].state)
    ensures OneRunning(a[sid := s]) && SessionsMove(a, a[sid := s])
  {
  }

  lemma CommandChanges(c: map<Slot, Command>, slot: Slot, d: Command, sids: set<SessionId>)
    requires OneWorker(c) && Homed(c, sids) && slot in c && (d == c[slot] || d.state in CommandSuccessors(c[slot].state)) && d.commit == c[slot].commit
    requires IsWorker(d.state) && d != c[slot] ==> forall r :: r in c && r != slot ==> !IsWorker(c[r].state)
    ensures OneWorker(c[slot := d]) && Homed(c[slot := d], sids) && CommandsMove(c, c[slot := d])
  {
  }

  lemma PromotionStep(t: Tables, sid: SessionId)
    requires Sound(t) && !PromotionFails(t, sid) && sid in t.sessions
    ensures Sound(Promoted(t, sid)) && Moves(t, Promoted(t, sid))
  {
    var ready := Promotable(t, sid);
    var more := map s | s in ready :: Fresh(t.pending[s]);
    forall s | s in more ensures s.number > 0 && s.session in t.sessions.Keys {
      assert s == Slot(sid, s.number);
    }
    AddsCommands(t.commands, more, t.sessions.Keys);
  }

  lemma ManifestStep(t: Tables, sid: SessionId, m: Manifest, now: Time)
    requires Sound(t)
    ensures Sound(SawManifest(t, sid, m, now)) && Moves(t, SawManifest(t, sid, m, now))
  {
    if (sid in t.manifests && t.manifests[sid] != m)
       || (sid !in t.manifests && sid in t.sessions
           && (t.sessions[sid].repository != m.repository || t.sessions[sid].base != m.base)) {
      IssueStep(t, IssueKey(ManifestFile(sid), SessionIdCollision, Hash(m.raw)), true);
    } else if PromotionFails(t, sid) {
      IssueStep(t, IssueKey(ManifestFile(sid), CorruptJournal, Hash(m.raw)), false);
    } else {
      SeenManifestStep(t, sid, m, now);
    }
  }

  lemma SeenManifestStep(t: Tables, sid: SessionId, m: Manifest, now: Time)
    requires Sound(t) && (sid in t.manifests ==> t.manifests[sid] == m) && !PromotionFails(t, sid)
    ensures var u := Promoted(WithManifest(t, sid, m, now), sid); Sound(u) && Moves(t, u)
  {
    FirstManifest(t, sid, m, now);
    PromotionStep(WithManifest(t, sid, m, now), sid);
  }

  lemma FirstManifest(t: Tables, sid: SessionId, m: Manifest, now: Time)
    requires Sound(t) && (sid in t.manifests ==> t.manifests[sid] == m)
    ensures Sound(WithManifest(t, sid, m, now)) && Moves(t, WithManifest(t, sid, m, now))
    ensures PromotionFails(WithManifest(t, sid, m, now), sid) == PromotionFails(t, sid)
    ensures sid in WithManifest(t, sid, m, now).sessions
  {
    if sid !in t.sessions {
      AddsSession(t.sessions, sid, Session(m.repository, m.base, Created, now));
    }
  }

  lemma IssueStep(t: Tables, k: IssueKey, blocking: bool)
    requires Sound(t) && (blocking <==> IsCollision(k.code))
    ensures Sound(t.(issues := AddIssue(t.issues, k, blocking))) && Moves(t, t.(issues := AddIssue(t.issues, k, blocking)))
  {
    AddsIssue(t.issues, k, blocking);
  }

  lemma ReceiptStep(t: Tables, slot: Slot, r: Receipt)
    requires Sound(t) && slot in t.commands && slot !in t.receipts
    ensures Sound(t.(receipts := t.receipts[slot := r])) && Moves(t, t.(receipts := t.receipts[slot := r]))
  {
  }

  lemma RecordStep(t: Tables, slot: Slot, doc: Doc)
    requires Sound(t) && slot !in t.commands && slot.number > 0 && slot.session in t.sessions && doc.content.Text?
    ensures var u := t.(commands := t.commands[slot := Fresh(doc)], receipts := t.receipts[slot := ReceiptFor(doc)]);
            Sound(u) && Moves(t, u)
  {
    AddsCommand(t.commands, slot, Fresh(doc), t.sessions.Keys);
  }

  lemma DocumentStep(t: Tables, slot: Slot, doc: Doc)
    requires Sound(t)
    ensures Sound(SawCommand(t, slot, doc)) && Moves(t, SawCommand(t, slot, doc))
  {
    if slot.session !in t.manifests {
      if slot in t.pending && t.pending[slot] != doc { IssueStep(t, CommandIssue(slot, SequenceCollision, doc), true); }
    } else if slot in t.receipts {
      if t.receipts[slot] != ReceiptFor(doc) { IssueStep(t, CommandIssue(slot, CommandIdCollision, doc), true); }
    } else if slot in t.commands {
      IssueStep(t, CommandIssue(slot, SequenceCollision, doc), true);
      ReceiptStep(t, slot, ReceiptFor(doc));
    } else if !doc.content.Text? {
      IssueStep(t, CommandIssue(slot, BadPayload, doc), false);
    } else if slot.number == 0 {
      IssueStep(t, CommandIssue(slot, CorruptJournal, doc), false);
    } else {
      RecordStep(t, slot, doc);
    }
  }

  lemma SessionStep(t: Tables, sid: SessionId, s: SessionState)
    requires Sound(t) && sid in t.sessions && s in SessionSuccessors(t.sessions[sid].state)
    requires IsRunning(s) ==> forall r :: r in t.sessions && r != sid ==> !IsRunning(t.sessions[r].state)
    ensures Sound(SetSession(t, sid, s)) && Moves(t, SetSession(t, sid, s))
  {
    SessionChanges(t.sessions, sid, t.sessions[sid].(state := s));
    assert SetSession(t, sid, s).sessions.Keys == t.sessions.Keys;
  }

  lemma CommandStep(t: Tables, slot: Slot, s: CommandState)
    requires Sound(t) && slot in t.commands && s in CommandSuccessors(t.commands[slot].state)
    requires IsWorker(s) ==> forall r :: r in t.commands && r != slot ==> !IsWorker(t.commands[r].state)
    ensures Sound(SetState(t, slot, s)) && Moves(t, SetState(t, slot, s))
  {
    CommandChanges(t.commands, slot, t.commands[slot].(state := s), t.sessions.Keys);
  }

  lemma CommandsExpire(t: Tables, sid: SessionId)
    requires OneWorker(t.commands) && Homed(t.commands, t.sessions.Keys)
    ensures OneWorker(ExpireAll(t.commands, sid)) && Homed(ExpireAll(t.commands, sid), t.sessions.Keys)
    ensures CommandsMove(t.commands, ExpireAll(t.commands, sid)) && ExpireAll(t.commands, sid).Keys == t.commands.Keys
  {
  }

  lemma StartedExpires(t: Tables, sid: SessionId)
    requires Sound(t) && sid in t.sessions && t.sessions[sid].state == Created
    ensures Sound(SessionExpired(t, sid)) && Moves(t, SessionExpired(t, sid))
  {
    CommandsExpire(t, sid);
    SessionChanges(t.sessions, sid, t.sessions[sid].(state := Aborted));
    assert SetSession(t, sid, Aborted).sessions.Keys == t.sessions.Keys;
    SoundParts(t, SessionExpired(t, sid));
  }

  lemma AbortedExpires(t: Tables, sid: SessionId)
    requires Sound(t) && sid in t.sessions && t.sessions[sid].state == Aborted
    ensures Sound(SessionExpired(t, sid)) && Moves(t, SessionExpired(t, sid))
  {
    CommandsExpire(t, sid);
    assert SetSession(t, sid, Aborted).sessions == t.sessions;
    assert SessionsMove(t.sessions, t.sessions);
    SoundParts(t, SessionExpired(t, sid));
  }

  lemma ExpiryStep(t: Tables, sid: SessionId)
    requires Sound(t)
    ensures Sound(SessionExpired(t, sid)) && Moves(t, SessionExpired(t, sid))
  {
    if sid in t.sessions && t.sessions[sid].state == Created {
      StartedExpires(t, sid);
    } else if sid in t.sessions && t.sessions[sid].state == Aborted {
      AbortedExpires(t, sid);
    }
  }

  lemma TargetMeans(t: Tables, sid: SessionId)
    requires Target(t, sid)
    ensures sid in t.sessions && t.sessions[sid].state in {Created, Active, Completing}
    ensures t.sessions[sid].state == Created ==> forall r :: r in t.sessions ==> !IsRunning(t.sessions[r].state)
  {
    forall r | r in t.sessions && IsRunning(t.sessions[r].state) ensures Running(t, r) {}
  }

  lemma ClaimStep(t: Tables, now: Time, slot: Slot)
    requires Sound(t) && Claimable(t, now, slot)
    ensures slot.session in t.sessions && Sound(TakeClaim(t, slot)) && Moves(t, TakeClaim(t, slot))
    ensures Running(TakeClaim(t, slot), slot.session) && IsIn(TakeClaim(t, slot), slot, Claimed)
  {
    TargetMeans(t, slot.session);
    CommandStep(t, slot, Claimed);
    if t.sessions[slot.session].state == Created {
      SessionStep(t, slot.session, Active);
      var u := SetState(t, slot, Claimed);
      assert SetSession(u, slot.session, Active).sessions.Keys == t.sessions.Keys;
    }
  }

  lemma BlockStep(t: Tables, slot: Slot)
    requires Sound(t)
    ensures Sound(RecoveryBlocked(t, slot)) && Moves(t, RecoveryBlocked(t, slot))
  {
    if MayBlock(t, slot) {
      var c, s := t.commands[slot], t.sessions[slot.session];
      CommandChanges(t.commands, slot, CommandToManual(c), t.sessions.Keys);
      SessionChanges(t.sessions, slot.session, SessionToManual(s));
      SoundParts(t, RecoveryBlocked(t, slot));
    }
  }

  lemma SoundParts(t: Tables, v: Tables)
    requires Sound(t) && OneRunning(v.sessions) && OneWorker(v.commands) && Homed(v.commands, t.sessions.Keys)
    requires v.sessions.Keys == t.sessions.Keys && CommandsMove(t.commands, v.commands) && SessionsMove(t.sessions, v.sessions)
    requires v == t.(commands := v.commands, sessions := v.sessions)
    ensures Sound(v) && Moves(t, v)
  {
  }

  lemma ValidateStep(t: Tables, slot: Slot, text: string)
    requires Sound(t)
    ensures Sound(Step(t, Validate(slot, text))) && Moves(t, Step(t, Validate(slot, text)))
  {
    if IsIn(t, slot, Discovered) {
      CommandChanges(t.commands, slot, t.commands[slot].(text := text, state := Validated), t.sessions.Keys);
    }
  }

  lemma RejectStep(t: Tables, slot: Slot, code: Code)
    requires Sound(t)
    ensures Sound(Step(t, Reject(slot, code))) && Moves(t, Step(t, Reject(slot, code)))
  {
    if IsIn(t, slot, Discovered) && slot in t.receipts && !IsCollision(code) {
      CommandStep(t, slot, Rejected);
      AddsIssue(t.issues, IssueKey(CommandFile(slot), code, t.receipts[slot].hash), false);
    }
  }

  lemma InvalidStep(t: Tables, source: Source, code: Code, content: Content)
    requires Sound(t)
    ensures Sound(Step(t, SeeInvalid(source, code, content))) && Moves(t, Step(t, SeeInvalid(source, code, content)))
  {
    if !IsCollision(code) {
      IssueStep(t, IssueKey(source, code, Hash(content)), false);
    }
  }

  lemma DecisionStep(t: Tables, a: Action)
    requires Sound(t) && (a.Validate? || a.Reject? || a.ExpireCommand? || a.SeeInvalid?)
    ensures Sound(Step(t, a)) && Moves(t, Step(t, a))
  {
    match a
    case SeeInvalid(source, code, content) => InvalidStep(t, source, code, content);
    case Validate(slot, text) => ValidateStep(t, slot, text);
    case Reject(slot, code) => RejectStep(t, slot, code);
    case ExpireCommand(slot) =>
      if IsIn(t, slot, Discovered) {
        CommandStep(t, slot, Expired);
      }
  }

  lemma InsertSession(t: Tables, a: Action)
    requires Sound(t) && a.CreateSession?
    ensures Sound(Step(t, a)) && Moves(t, Step(t, a))
  {
    if a.sid !in t.sessions {
      AddsSession(t.sessions, a.sid, Session(a.repository, a.base, Created, a.now));
    }
  }

  lemma InsertCommand(t: Tables, a: Action)
    requires Sound(t) && a.RecordCommand?
    ensures Sound(Step(t, a)) && Moves(t, Step(t, a))
  {
    if a.slot !in t.commands && a.slot.number > 0 && a.slot.session in t.sessions {
      AddsCommand(t.commands, a.slot, Command(a.text, a.commit, Discovered), t.sessions.Keys);
    }
  }

  lemma MoveStep(t: Tables, a: Action)
    requires Sound(t) && (a.MoveCommand? || a.MoveSession?)
    ensures Sound(Step(t, a)) && Moves(t, Step(t, a))
  {
    if a.MoveCommand? {
      if a.to != Claimed && MayMoveCommand(t, a.slot, a.from, a.to) {
        CommandStep(t, a.slot, a.to);
      }
    } else if MayMoveSession(t, a.sid, a.before, a.after) {
      forall r | r in t.sessions && r != a.sid && IsRunning(a.after) ensures !IsRunning(t.sessions[r].state) {
        assert !Running(t, r);
      }
      SessionStep(t, a.sid, a.after);
    }
  }

  /** Every transaction keeps the tables sound and moves rows only along the transition tables. */
  lemma StepSafe(t: Tables, a: Action)
    requires Sound(t)
    ensures Sound(Step(t, a)) && Moves(t, Step(t, a))
  {
    match a
    case SeeManifest(sid, m, now) => ManifestStep(t, sid, m, now);
    case SeeCommand(slot, doc) => DocumentStep(t, slot, doc);
    case ExpireSession(sid) => ExpiryStep(t, sid);
    case Claim(now) => if Choice(t, now).Some? { ClaimStep(t, now, Choice(t, now).value); }
    case BlockRecovery(slot) => BlockStep(t, slot);
    case CreateSession(_, _, _, _) => InsertSession(t, a);
    case RecordCommand(_, _, _) => InsertCommand(t, a);
    case MoveCommand(_, _, _) => MoveStep(t, a);
    case MoveSession(_, _, _) => MoveStep(t, a);
    case _ => DecisionStep(t, a);
  }

  // ----- Whole runs -----

  ghost function Run(acts: seq<Action>): Tables {
    if acts == [] then Empty else Step(Run(acts[..|acts| - 1]), acts[|acts| - 1])
  }

  /** The tables just before action `i`. */
  ghost function At(acts: seq<Action>, i: nat): Tables
    requires i <= |acts|
  {
    Run(acts[..i])
  }

  ghost function ClaimAt(acts: seq<Action>, i: nat): Option<Slot>
    requires i < |acts|
  {
    if acts[i].Claim? then Choice(At(acts, i), acts[i].now) else None
  }

  lemma AtNext(acts: seq<Action>, i: nat)
    requires i < |acts|
    ensures At(acts, i + 1) == Step(At(acts, i), acts[i])
  {
    assert acts[..i + 1][..i] == acts[..i];
  }

  /** In every reachable state at most one session runs, at most one command works, the schema's
      constraints hold, and exactly the collision issues block. */
  lemma {:induction false} RunsAreSound(acts: seq<Action>)
    ensures Sound(Run(acts))
    decreases |acts|
  {
    if acts != [] {
      RunsAreSound(acts[..|acts| - 1]);
      StepSafe(Run(acts[..|acts| - 1]), acts[|acts| - 1]);
    }
  }

  /** A command that has left the queue. */
  predicate Begun(s: CommandState) { s !in {Discovered, Validated} }

  ghost predicate CommandsLater(c: map<Slot, Command>, d: map<Slot, Command>) {
    forall s :: s in c ==>
      && s in d && d[s].commit == c[s].commit
      && (IsDone(c[s].state) ==> IsDone(d[s].state))
      && (Begun(c[s].state) ==> Begun(d[s].state))
      && (IsTerminal(c[s].state) ==> d[s].state == c[s].state)
  }

  ghost predicate SessionsLater(a: map<SessionId, Session>, b: map<SessionId, Session>) {
    forall sid :: sid in a ==>
      && sid in b && b[sid].repository == a[sid].repository && b[sid].base == a[sid].base && b[sid].created == a[sid].created
      && (IsSessionTerminal(a[sid].state) ==> b[sid].state == a[sid].state)
  }

  /** What stays true from one state to any later one. */
  ghost predicate Later(t: Tables, u: Tables) {
    && CommandsLater(t.commands, u.commands) && SessionsLater(t.sessions, u.sessions)
    && Extends(t.receipts, u.receipts) && Extends(t.manifests, u.manifests) && Extends(t.issues, u.issues)
  }

  /** The done states are closed under the transition table, and so are the begun ones. */
  lemma TableClosed(s: CommandState, r: CommandState)
    requires r in CommandSuccessors(s)
    ensures (IsDone(s) ==> IsDone(r)) && (Begun(s) ==> Begun(r)) && !IsTerminal(s)
  {
  }

  lemma CommandsMoveLater(c: map<Slot, Command>, d: map<Slot, Command>)
    requires CommandsMove(c, d)
    ensures CommandsLater(c, d)
  {
    forall s | s in c && d[s].state != c[s].state
      ensures (IsDone(c[s].state) ==> IsDone(d[s].state)) && (Begun(c[s].state) ==> Begun(d[s].state)) && !IsTerminal(c[s].state)
    {
      TableClosed(c[s].state, d[s].state);
    }
  }

  lemma MovesLater(t: Tables, u: Tables)
    requires Moves(t, u)
    ensures Later(t, u)
  {
    CommandsMoveLater(t.commands, u.commands);
  }

  /** Done stays done, begun stays begun, terminal rows freeze, and recorded identities never change. */
  lemma {:induction false} RunLater(acts: seq<Action>, i: nat, j: nat)
    requires i <= j <= |acts|
    ensures Later(At(acts, i), At(acts, j))
    decreases j
  {
    if i < j {
      RunLater(acts, i, j - 1);
      RunsAreSound(acts[..j - 1]);
      AtNext(acts, j - 1);
      StepSafe(At(acts, j - 1), acts[j - 1]);
      MovesLater(At(acts, j - 1), At(acts, j));
      LaterTransitive(At(acts, i), At(acts, j - 1), At(acts, j));
    }
  }

  lemma LaterTransitive(t: Tables, u: Tables, v: Tables)
    requires Later(t, u) && Later(u, v)
    ensures Later(t, v)
  {
  }

  /** No other command works and no other session runs. */
  ghost predicate Alone(t: Tables, slot: Slot) {
    && (forall s :: s in t.commands && IsWorker(t.commands[s].state) ==> s == slot)
    && (forall r :: r in t.sessions && IsRunning(t.sessions[r].state) ==> r == slot.session)
  }

  /** A claim happens only on an idle, unblocked queue; its session is then the one running session
      and its command the one worker. */
  lemma ClaimExcludes(acts: seq<Action>, i: nat, slot: Slot)
    requires i < |acts| && ClaimAt(acts, i) == Some(slot)
    ensures Idle(At(acts, i)) && !Blocked(At(acts, i)) && IsIn(At(acts, i), slot, Validated)
    ensures IsIn(At(acts, i + 1), slot, Claimed) && Running(At(acts, i + 1), slot.session) && Alone(At(acts, i + 1), slot)
  {
    AtNext(acts, i);
    RunsAreSound(acts[..i]);
    ClaimAlone(At(acts, i), acts[i].now, slot);
  }

  lemma ChosenIs(t: Tables, now: Time, slot: Slot)
    requires Choice(t, now) == Some(slot)
    ensures Idle(t) && !Blocked(t) && IsIn(t, slot, Validated)
    ensures slot.session in t.sessions && Step(t, Claim(now)) == TakeClaim(t, slot)
  {
    TargetMeans(t, slot.session);
  }

  lemma ClaimAlone(t: Tables, now: Time, slot: Slot)
    requires Sound(t) && Choice(t, now) == Some(slot)
    ensures Idle(t) && !Blocked(t) && IsIn(t, slot, Validated)
    ensures IsIn(Step(t, Claim(now)), slot, Claimed) && Running(Step(t, Claim(now)), slot.session)
    ensures Alone(Step(t, Claim(now)), slot)
  {
    ChosenIs(t, now, slot);
    ClaimStep(t, now, slot);
    SoundAlone(TakeClaim(t, slot), slot);
  }

  lemma SoundAlone(t: Tables, slot: Slot)
    requires Sound(t) && IsIn(t, slot, Claimed) && Running(t, slot.session)
    ensures Alone(t, slot)
  {
  }

  /** Below `slot` the session holds exactly the numbers from 1 on. */
  ghost predicate GapFree(t: Tables, slot: Slot) {
    forall k: nat :: k < slot.number ==> (Slot(slot.session, k) in t.commands <==> k >= 1)
  }

  /** When `n` is claimed the session holds exactly 1 .. n-1 below it, all done, then and ever after. */
  lemma PredecessorsDone(acts: seq<Action>, i: nat, j: nat, slot: Slot)
    requires i < j <= |acts| && ClaimAt(acts, i) == Some(slot)
    ensures slot.number >= 1 && GapFree(At(acts, j), slot) && Cleared(At(acts, j), slot)
    ensures slot in At(acts, j).commands && Begun(At(acts, j).commands[slot].state)
  {
    ClaimExcludes(acts, i, slot);
    RunLater(acts, i, j);
    RunLater(acts, i + 1, j);
    RunsAreSound(acts[..i]);
    RunsAreSound(acts[..j]);
    assert Cleared(At(acts, i), slot);
    forall k | 1 <= k < slot.number
      ensures Slot(slot.session, k) in At(acts, j).commands && IsDone(At(acts, j).commands[Slot(slot.session, k)].state)
    {
      assert Slot(slot.session, k) in At(acts, i).commands;
    }
  }

  /** Claims in one session strictly increase; in particular no command is claimed twice. */
  lemma ClaimsIncrease(acts: seq<Action>, i: nat, j: nat, first: Slot, second: Slot)
    requires i < j < |acts| && ClaimAt(acts, i) == Some(first) && ClaimAt(acts, j) == Some(second)
    requires first.session == second.session
    ensures first.number < second.number
  {
    PredecessorsDone(acts, i, j, first);
    ClaimExcludes(acts, j, second);
    RunsAreSound(acts[..j]);
    assert second == Slot(first.session, second.number) && first == Slot(first.session, first.number);
  }

  /** Nothing is ever claimed in a session that has ended. */
  lemma EndedNeverClaimed(acts: seq<Action>, i: nat, j: nat, slot: Slot)
    requires i <= j < |acts| && slot.session in At(acts, i).sessions
    requires IsSessionTerminal(At(acts, i).sessions[slot.session].state)
    ensures ClaimAt(acts, j) != Some(slot)
  {
    RunLater(acts, i, j);
    if ClaimAt(acts, j) == Some(slot) {
      TargetMeans(At(acts, j), slot.session);
      assert false;
    }
  }

  /** A blocking issue ends all claiming. */
  lemma BlockedNeverClaims(acts: seq<Action>, i: nat, j: nat)
    requires i <= j < |acts| && Blocked(At(acts, i))
    ensures ClaimAt(acts, j) == None
  {
    RunLater(acts, i, j);
    var k :| k in At(acts, i).issues && At(acts, i).issues[k];
    assert k in At(acts, j).issues && At(acts, j).issues[k];
  }

  // ----- First writer wins -----

  /** The slot already holds something other than this document. */
  predicate Conflicts(t: Tables, slot: Slot, doc: Doc) {
    if slot in t.receipts then t.receipts[slot] != ReceiptFor(doc)
    else if slot in t.commands
    then doc.content != Text(t.commands[slot].text) || t.commands[slot].commit != Some(doc.commit)
    else slot in t.pending && t.pending[slot] != doc
  }

  /** The journal looks at the holder: the staged row before the manifest, the command row after it. */
  predicate Looks(t: Tables, slot: Slot, doc: Doc) {
    if slot.session in t.manifests then slot in t.commands else slot in t.pending && t.pending[slot] != doc
  }

  /** A blocking issue naming this very document. */
  ghost predicate Named(t: Tables, slot: Slot, doc: Doc) {
    exists c :: IsCollision(c) && CommandIssue(slot, c, doc) in t.issues && t.issues[CommandIssue(slot, c, doc)]
  }

  lemma NamesIssue(t: Tables, slot: Slot, doc: Doc, c: Code)
    requires Sound(t) && IsCollision(c)
    ensures Named(t.(issues := AddIssue(t.issues, CommandIssue(slot, c, doc), true)), slot, doc)
  {
    assert CommandIssue(slot, c, doc) in AddIssue(t.issues, CommandIssue(slot, c, doc), true);
  }

  /** A differing document leaves the holder as it was and, when the holder is looked at, a blocking
      issue that names the document. */
  lemma DifferingBlocks(t: Tables, slot: Slot, doc: Doc)
    requires Sound(t) && Conflicts(t, slot, doc) && Looks(t, slot, doc)
    ensures Named(SawCommand(t, slot, doc), slot, doc)
    ensures SawCommand(t, slot, doc) == t.(issues := SawCommand(t, slot, doc).issues)
  {
    NamesIssue(t, slot, doc, SequenceCollision);
    NamesIssue(t, slot, doc, CommandIdCollision);
  }

  /** Otherwise it adds no blocking issue. */
  lemma UnlookedPasses(t: Tables, slot: Slot, doc: Doc)
    requires Sound(t) && Conflicts(t, slot, doc) && !Looks(t, slot, doc)
    ensures forall k :: k in SawCommand(t, slot, doc).issues && SawCommand(t, slot, doc).issues[k] ==> k in t.issues
  {
  }

  /** From a differing document on, no run claims anything. */
  lemma CollisionFreezes(acts: seq<Action>, i: nat, j: nat)
    requires i < j < |acts| && acts[i].SeeCommand?
    requires Conflicts(At(acts, i), acts[i].slot, acts[i].doc) && Looks(At(acts, i), acts[i].slot, acts[i].doc)
    ensures ClaimAt(acts, j) == None
  {
    RunsAreSound(acts[..i]);
    AtNext(acts, i);
    DifferingBlocks(At(acts, i), acts[i].slot, acts[i].doc);
    var c :| IsCollision(c) && CommandIssue(acts[i].slot, c, acts[i].doc) in At(acts, i + 1).issues
      && At(acts, i + 1).issues[CommandIssue(acts[i].slot, c, acts[i].doc)];
    BlockedNeverClaims(acts, i + 1, j);
  }

  /** A second, different manifest freezes the queue too. */
  lemma ManifestCollisionFreezes(acts: seq<Action>, i: nat, j: nat)
    requires i < j < |acts| && acts[i].SeeManifest?
    requires acts[i].sid in At(acts, i).manifests && At(acts, i).manifests[acts[i].sid] != acts[i].manifest
    ensures ClaimAt(acts, j) == None
  {
    RunsAreSound(acts[..i]);
    AtNext(acts, i);
    RunsAreSound(acts[..i + 1]);
    assert IssueKey(ManifestFile(acts[i].sid), SessionIdCollision, Hash(acts[i].manifest.raw)) in At(acts, i + 1).issues;
    BlockedNeverClaims(acts, i + 1, j);
  }

  /** An unlooked-at conflict: the staged holder did not decode when its manifest came, so the next
      decodable document takes the slot without an issue; the conflict blocks as soon as the manifest
      is seen again. */
  lemma OverlookedConflict(t: Tables, slot: Slot, doc: Doc, now: Time)
    requires Sound(t) && slot.session in t.manifests && slot in t.pending && slot !in t.commands
    requires t.pending[slot] != doc && doc.content.Text? && slot.number > 0
    requires !PromotionFails(t, slot.session)
    ensures Conflicts(t, slot, doc) && !Looks(t, slot, doc)
    ensures SawCommand(t, slot, doc).issues == t.issues && SawCommand(t, slot, doc).commands[slot] == Fresh(doc)
    ensures Blocked(SawManifest(SawCommand(t, slot, doc), slot.session, t.manifests[slot.session], now))
  {
    DocumentStep(t, slot, doc);
    LeftoverBlocks(SawCommand(t, slot, doc), slot, now);
  }

  /** A leftover beside a recorded command blocks as soon as its manifest is seen again. */
  lemma LeftoverBlocks(t: Tables, slot: Slot, now: Time)
    requires Sound(t) && slot.session in t.manifests && slot in t.pending && slot in t.commands
    requires !PromotionFails(t, slot.session)
    ensures Blocked(SawManifest(t, slot.session, t.manifests[slot.session], now))
  {
    var w := WithManifest(t, slot.session, t.manifests[slot.session], now);
    var k := Obstacle(w, slot);
    assert slot !in Promotable(w, slot.session);
    assert k in Obstacles(w, slot.session);
    assert k in Promoted(w, slot.session).issues && Promoted(w, slot.session).issues[k];
  }
}

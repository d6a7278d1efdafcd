/** What the journal's transactions leave in the rows, said in the rows' own fields: what an arriving document
    becomes, which command is claimed, and what a claim or a decision changes. */
module JournalRows {
  import opened Base
  import opened Models
  import opened JournalTables
  import opened Scheduling
  import Ingestion
  import Journal

  // ----- Arriving documents -----

  /** A command row holds exactly the bytes and the commit of a document, and nothing has happened to it yet. */
  ghost predicate HoldsDocument(c: Command, doc: Doc) {
    Text(c.text) == doc.content && c.commit == Some(doc.commit) && c.state == Discovered
  }

  ghost predicate Certifies(r: Receipt, doc: Doc) {
    r.commit == doc.commit && r.hash.of == doc.content
  }

  /** A decodable document for a free slot of a session with a manifest becomes a row with its own bytes and
      commit; no other row changes. */
  lemma DocumentBecomesRow(t: Tables, slot: Slot, doc: Doc)
    requires slot.session in t.manifests && slot !in t.commands && slot !in t.receipts
    requires doc.content.Text? && slot.number > 0
    ensures var u := SawCommand(t, slot, doc);
      && slot in u.commands && HoldsDocument(u.commands[slot], doc)
      && slot in u.receipts && Certifies(u.receipts[slot], doc)
      && u.commands - {slot} == t.commands && u.receipts - {slot} == t.receipts
      && u.sessions == t.sessions && u.manifests == t.manifests && u.pending == t.pending && u.issues == t.issues
  {
    var u := SawCommand(t, slot, doc);
    assert u.commands - {slot} == t.commands && u.receipts - {slot} == t.receipts;
  }

  /** Before its manifest a document only waits, unread; the first one keeps the place. */
  lemma DocumentWaits(t: Tables, slot: Slot, doc: Doc)
    requires slot.session !in t.manifests
    ensures var u := SawCommand(t, slot, doc);
      && slot in u.pending && u.pending[slot] == (if slot in t.pending then t.pending[slot] else doc)
      && u.pending - {slot} == t.pending - {slot} && u == t.(pending := u.pending, issues := u.issues)
  {
    if slot !in t.pending {
      assert t.pending[slot := doc] - {slot} == t.pending - {slot};
    }
  }

  /** A manifest that neither differs from a recorded one nor names another checkout, for a session with no staged
      zero document. */
  ghost predicate Welcome(t: Tables, sid: SessionId, m: Manifest) {
    && (sid in t.manifests ==> t.manifests[sid] == m)
    && (sid in t.sessions && sid !in t.manifests ==>
          t.sessions[sid].repository == m.repository && t.sessions[sid].base == m.base)
    && (Slot(sid, 0) in t.pending && Slot(sid, 0) !in t.commands ==> !t.pending[Slot(sid, 0)].content.Text?)
  }

  /** The staged document of this slot can become a row. */
  predicate Ripe(t: Tables, sid: SessionId, s: Slot) {
    s in t.pending && s.session == sid && s !in t.commands && t.pending[s].content.Text?
  }

  /** Its session row: created with the manifest's checkout, or the one that was there. */
  lemma ManifestOpensSession(t: Tables, sid: SessionId, m: Manifest, now: Time)
    requires Welcome(t, sid, m)
    ensures var u := SawManifest(t, sid, m, now);
      && sid in u.manifests && u.manifests[sid] == m && u.manifests - {sid} == t.manifests - {sid}
      && sid in u.sessions && u.sessions - {sid} == t.sessions - {sid}
      && (if sid in t.sessions then u.sessions[sid] == t.sessions[sid]
          else u.sessions[sid].repository == m.repository && u.sessions[sid].base == m.base
               && u.sessions[sid].created == now && u.sessions[sid].state == Created)
  {
    var u := SawManifest(t, sid, m, now);
    assert u.manifests == t.manifests[sid := m];
    assert u.manifests - {sid} == t.manifests - {sid};
    assert u.sessions - {sid} == t.sessions - {sid};
  }

  /** A manifest that differs from the recorded one, or names another checkout than the session, changes no row and
      leaves a blocking collision with its own bytes. */
  lemma ManifestClashes(t: Tables, sid: SessionId, m: Manifest, now: Time)
    requires Sound(t)
    requires (sid in t.manifests && t.manifests[sid] != m)
      || (sid !in t.manifests && sid in t.sessions && (t.sessions[sid].repository != m.repository || t.sessions[sid].base != m.base))
    ensures var u := SawManifest(t, sid, m, now); var k := IssueKey(ManifestFile(sid), SessionIdCollision, Hash(m.raw));
      k in u.issues && u.issues[k] && u.issues - {k} == t.issues - {k} && u == t.(issues := u.issues)
  {
    var u := SawManifest(t, sid, m, now);
    var k := IssueKey(ManifestFile(sid), SessionIdCollision, Hash(m.raw));
    assert u.issues - {k} == t.issues - {k};
  }

  /** A document that cannot be read or placed leaves at most a non-blocking issue with its bytes. */
  lemma InvalidIsNoted(t: Tables, source: Source, code: Code, content: Content)
    requires !IsCollision(code)
    ensures var u := Step(t, SeeInvalid(source, code, content)); var k := IssueKey(source, code, Hash(content));
      k in u.issues && (k !in t.issues ==> !u.issues[k]) && u.issues - {k} == t.issues - {k} && u == t.(issues := u.issues)
  {
    var u := Step(t, SeeInvalid(source, code, content));
    var k := IssueKey(source, code, Hash(content));
    assert u.issues - {k} == t.issues - {k};
  }

  lemma Promotes(t: Tables, sid: SessionId, m: Manifest, now: Time)
    requires Welcome(t, sid, m)
    ensures SawManifest(t, sid, m, now) == Promoted(WithManifest(t, sid, m, now), sid)
    ensures forall s :: s in Promotable(WithManifest(t, sid, m, now), sid) <==> Ripe(t, sid, s)
  {
  }

  /** Exactly the ripe documents become rows, each with its own bytes and commit; every other command row stays. */
  lemma PromotionMakesCommands(t: Tables, sid: SessionId, m: Manifest, now: Time, s: Slot)
    requires Welcome(t, sid, m)
    ensures var u := SawManifest(t, sid, m, now);
      && (s in u.commands <==> s in t.commands || Ripe(t, sid, s))
      && (s in t.commands ==> u.commands[s] == t.commands[s])
      && (Ripe(t, sid, s) ==> HoldsDocument(u.commands[s], t.pending[s]))
  {
    Promotes(t, sid, m, now);
  }

  /** Their receipts certify those documents, and they leave the staging area; the others stay there. */
  lemma PromotionMakesReceipts(t: Tables, sid: SessionId, m: Manifest, now: Time, s: Slot)
    requires Welcome(t, sid, m)
    ensures var u := SawManifest(t, sid, m, now);
      && (s in u.receipts <==> s in t.receipts || Ripe(t, sid, s))
      && (Ripe(t, sid, s) ==> Certifies(u.receipts[s], t.pending[s]))
      && (s in t.receipts && !Ripe(t, sid, s) ==> u.receipts[s] == t.receipts[s])
      && (s in u.pending <==> s in t.pending && !Ripe(t, sid, s))
      && (s in u.pending ==> u.pending[s] == t.pending[s])
  {
    Promotes(t, sid, m, now);
  }

  /** After any part of an arrival every row holds the bytes and commit of its document in the set, and there is a row
      for every decodable document whose manifest has come too. */
  lemma ArrivedRows(lib: Ingestion.Library, acts: seq<Action>, s: Slot)
    requires Ingestion.Clean(lib) && Ingestion.Deliveries(lib, acts)
    ensures s in Run(acts).commands <==>
      s in lib.docs && s in Ingestion.SeenDocs(acts) && s.session in Ingestion.SeenManifests(acts) && s.session in lib.manifests
      && lib.docs[s].content.Text? && s.number > 0
    ensures s in Run(acts).commands ==> HoldsDocument(Run(acts).commands[s], lib.docs[s])
    ensures s in Run(acts).receipts <==> s in Run(acts).commands
    ensures s in Run(acts).receipts ==> Certifies(Run(acts).receipts[s], lib.docs[s])
  {
    Ingestion.PartOfArrival(lib, acts);
  }

  /** A blocking issue with the document's place, its own bytes and a collision code. */
  ghost predicate Denounces(issues: map<IssueKey, bool>, k: IssueKey, slot: Slot, doc: Doc) {
    && k in issues && issues[k]
    && k.source == CommandFile(slot) && k.hash.of == doc.content && k.code in {CommandIdCollision, SequenceCollision}
  }

  /** A differing document that is looked at leaves such an issue. */
  lemma ConflictIsNamed(t: Tables, slot: Slot, doc: Doc)
    requires Sound(t) && Conflicts(t, slot, doc) && Looks(t, slot, doc)
    ensures exists k :: Denounces(SawCommand(t, slot, doc).issues, k, slot, doc)
  {
    DifferingBlocks(t, slot, doc);
    var u := SawCommand(t, slot, doc);
    var c := if slot.session in t.manifests && slot in t.receipts then CommandIdCollision else SequenceCollision;
    assert CommandIssue(slot, c, doc) in u.issues && u.issues[CommandIssue(slot, c, doc)];
    assert Denounces(u.issues, CommandIssue(slot, c, doc), slot, doc);
  }

  // ----- Which command is claimed -----

  /** The command that a claim at `now` takes, in the fields of the tables: no blocking issue, nobody at work, the
      running session if there is one and otherwise the oldest created session whose first command is validated, not
      expired, the lowest validated command, and everything before it there and done. */
  ghost predicate Servable(t: Tables, now: Time, slot: Slot) {
    var sid := slot.session;
    && (forall k :: k in t.issues ==> !t.issues[k])
    && (forall s :: s in t.commands ==> t.commands[s].state !in {Claimed, Executing, EffectRecorded})
    && sid in t.sessions && (sid in t.manifests ==> now < t.manifests[sid].expires)
    && (|| t.sessions[sid].state in {Active, Completing}
        || (&& t.sessions[sid].state == Created
            && (forall r :: r in t.sessions ==> t.sessions[r].state !in {Active, Completing})
            && FirstInLine(t, sid)))
    && slot in t.commands && t.commands[slot].state == Validated
    && (forall i :: 1 <= i < slot.number ==>
          && Slot(sid, i) in t.commands
          && t.commands[Slot(sid, i)].state !in {Discovered, Validated, Claimed, Executing, EffectRecorded})
  }

  /** A created session waits for its turn once its first command is validated. */
  predicate Waits(t: Tables, sid: SessionId) {
    sid in t.sessions && t.sessions[sid].state == Created
    && Slot(sid, 1) in t.commands && t.commands[Slot(sid, 1)].state == Validated
  }

  predicate Before(a: Time, sid: SessionId, b: Time, other: SessionId) {
    a < b || (a == b && sid <= other)
  }

  ghost predicate FirstInLine(t: Tables, sid: SessionId) {
    && Waits(t, sid)
    && forall r :: Waits(t, r) ==> Before(t.sessions[sid].created, sid, t.sessions[r].created, r)
  }

  /** Whose turn it is. */
  lemma TurnExactly(t: Tables, sid: SessionId)
    requires Sound(t) && sid in t.sessions
    ensures Target(t, sid) <==>
      || t.sessions[sid].state in {Active, Completing}
      || (&& t.sessions[sid].state == Created
          && (forall r :: r in t.sessions ==> t.sessions[r].state !in {Active, Completing})
          && FirstInLine(t, sid))
  {
    forall r ensures Startable(t, r) <==> Waits(t, r) {}
    if t.sessions[sid].state in {Active, Completing} {
      assert Running(t, sid);
    } else if r :| r in t.sessions && t.sessions[r].state in {Active, Completing} {
      assert Running(t, r);
    }
  }

  lemma LowestWhenCleared(t: Tables, slot: Slot)
    requires Sound(t) && IsIn(t, slot, Validated) && Cleared(t, slot)
    ensures Lowest(t, slot)
  {
    forall s: Slot | s.session == slot.session && IsIn(t, s, Validated) ensures slot.number <= s.number {
      assert s == Slot(slot.session, s.number) && s.number > 0;
    }
  }

  lemma DoneMeans(s: CommandState)
    ensures IsDone(s) <==> s !in {Discovered, Validated, Claimed, Executing, EffectRecorded}
    ensures IsWorker(s) <==> s in {Claimed, Executing, EffectRecorded}
  {
  }

  lemma ClaimableExactly(t: Tables, now: Time, slot: Slot)
    requires Sound(t)
    ensures Claimable(t, now, slot) <==> Servable(t, now, slot)
  {
    forall s: CommandState ensures IsDone(s) <==> s !in {Discovered, Validated, Claimed, Executing, EffectRecorded} {
      DoneMeans(s);
    }
    if slot.session in t.sessions {
      TurnExactly(t, slot.session);
    } else if Target(t, slot.session) {
      TargetMeans(t, slot.session);
    }
    if Cleared(t, slot) && IsIn(t, slot, Validated) {
      LowestWhenCleared(t, slot);
    }
  }

  /** In every run a claim takes a command exactly when the tables say so. */
  lemma ClaimExactly(acts: seq<Action>, i: nat, slot: Slot)
    requires i < |acts| && acts[i].Claim?
    ensures ClaimAt(acts, i) == Some(slot) <==> Servable(At(acts, i), acts[i].now, slot)
  {
    var t := At(acts, i);
    RunsAreSound(acts[..i]);
    ClaimableExactly(t, acts[i].now, slot);
    if Claimable(t, acts[i].now, slot) {
      var c := Choice(t, acts[i].now);
      assert c.Some?;
      Journal.ClaimableUnique(t, acts[i].now, slot, c.value);
    }
  }

  /** First come, first served: a claim that starts a session starts the oldest waiting one, by creation time and
      then by id, and it starts it with its first command. */
  lemma OldestIsStarted(acts: seq<Action>, i: nat, slot: Slot, r: SessionId)
    requires i < |acts| && ClaimAt(acts, i) == Some(slot)
    requires slot.session in At(acts, i).sessions && At(acts, i).sessions[slot.session].state == Created
    requires r in At(acts, i).sessions && At(acts, i).sessions[r].state == Created
    requires Slot(r, 1) in At(acts, i).commands && At(acts, i).commands[Slot(r, 1)].state == Validated
    ensures slot.number == 1
    ensures var s, w := At(acts, i).sessions[slot.session], At(acts, i).sessions[r];
      s.created < w.created || (s.created == w.created && slot.session <= r)
  {
    ClaimExactly(acts, i, slot);
    RunsAreSound(acts[..i]);
    var t := At(acts, i);
    assert Waits(t, slot.session) && Waits(t, r);
    assert slot == Slot(slot.session, slot.number) && slot.number > 0;
  }

  /** Of two waiting sessions the younger is never started while the older still waits. */
  lemma NoOvertaking(acts: seq<Action>, i: nat, j: nat, older: SessionId, younger: SessionId, slot: Slot)
    requires i <= j < |acts| && Waits(At(acts, i), older) && Waits(At(acts, i), younger)
    requires At(acts, i).sessions[older].created < At(acts, i).sessions[younger].created
    requires ClaimAt(acts, j) == Some(slot) && slot.session == younger && At(acts, j).sessions[younger].state == Created
    ensures !Waits(At(acts, j), older)
  {
    RunLater(acts, i, j);
    if Waits(At(acts, j), older) {
      OldestIsStarted(acts, j, slot, older);
    }
  }

  // ----- What a claim and a decision change -----

  /** A claim moves its command to Claimed and a created session to Active, and changes nothing else. */
  lemma ClaimChanges(acts: seq<Action>, i: nat, slot: Slot)
    requires i < |acts| && ClaimAt(acts, i) == Some(slot)
    ensures var t, u := At(acts, i), At(acts, i + 1);
      && slot in t.commands && slot in u.commands && slot.session in t.sessions && slot.session in u.sessions
      && u.commands[slot].state == Claimed
      && u.commands[slot].text == t.commands[slot].text && u.commands[slot].commit == t.commands[slot].commit
      && u.commands - {slot} == t.commands - {slot}
      && u.sessions[slot.session].state == (if t.sessions[slot.session].state == Created then Active else t.sessions[slot.session].state)
      && u.sessions[slot.session].created == t.sessions[slot.session].created
      && u.sessions - {slot.session} == t.sessions - {slot.session}
      && u.manifests == t.manifests && u.receipts == t.receipts && u.pending == t.pending && u.issues == t.issues
  {
    AtNext(acts, i);
    var t := At(acts, i);
    ChosenIs(t, acts[i].now, slot);
    TakeChanges(t, slot);
  }

  lemma TakeChanges(t: Tables, slot: Slot)
    requires slot in t.commands && slot.session in t.sessions
    ensures var u := TakeClaim(t, slot);
      && u.commands[slot] == t.commands[slot].(state := Claimed) && u.commands - {slot} == t.commands - {slot}
      && u.sessions - {slot.session} == t.sessions - {slot.session}
      && slot.session in u.sessions
      && u.sessions[slot.session] ==
           t.sessions[slot.session].(state := if t.sessions[slot.session].state == Created then Active else t.sessions[slot.session].state)
      && u.manifests == t.manifests && u.receipts == t.receipts && u.pending == t.pending && u.issues == t.issues
  {
    var u := TakeClaim(t, slot);
    assert u.commands - {slot} == t.commands - {slot};
    assert u.sessions - {slot.session} == t.sessions - {slot.session};
  }

  /** Only discovered commands with a receipt are decided; the row keeps its commit, and no other row changes. */
  lemma ValidationChanges(t: Tables, slot: Slot, text: string)
    requires slot in t.commands
    ensures var u := Step(t, Validate(slot, text));
      && slot in u.commands && u.commands - {slot} == t.commands - {slot} && u == t.(commands := u.commands)
      && u.commands[slot].commit == t.commands[slot].commit
      && (if t.commands[slot].state == Discovered && slot in t.receipts
          then u.commands[slot].state == Validated && u.commands[slot].text == text
          else u.commands[slot] == t.commands[slot])
  {
    var u := Step(t, Validate(slot, text));
    assert u.commands - {slot} == t.commands - {slot};
  }

  /** A rejection keeps the bytes and leaves a non-blocking issue that names the received document. */
  lemma RejectionChanges(t: Tables, slot: Slot, code: Code)
    requires slot in t.commands && t.commands[slot].state == Discovered && slot in t.receipts && !IsCollision(code)
    ensures var u := Step(t, Reject(slot, code)); var k := IssueKey(CommandFile(slot), code, t.receipts[slot].hash);
      && slot in u.commands && u.commands - {slot} == t.commands - {slot}
      && u.commands[slot].state == Rejected
      && u.commands[slot].text == t.commands[slot].text && u.commands[slot].commit == t.commands[slot].commit
      && k in u.issues && (k !in t.issues ==> !u.issues[k]) && u.issues - {k} == t.issues - {k}
      && u.sessions == t.sessions && u.manifests == t.manifests && u.receipts == t.receipts && u.pending == t.pending
  {
    var u := Step(t, Reject(slot, code));
    var k := IssueKey(CommandFile(slot), code, t.receipts[slot].hash);
    assert u.commands - {slot} == t.commands - {slot};
    assert u.issues - {k} == t.issues - {k};
  }

  /** Expiry aborts a session that never started and expires exactly its discovered commands. */
  lemma ExpiryChanges(t: Tables, sid: SessionId, s: Slot)
    requires sid in t.sessions && t.sessions[sid].state == Created
    ensures var u := Step(t, ExpireSession(sid));
      && sid in u.sessions && u.sessions[sid].state == Aborted && u.sessions - {sid} == t.sessions - {sid}
      && (s in u.commands <==> s in t.commands)
      && (s in t.commands ==>
            && u.commands[s].text == t.commands[s].text && u.commands[s].commit == t.commands[s].commit
            && u.commands[s].state == if s.session == sid && t.commands[s].state == Discovered then Expired else t.commands[s].state)
      && u.manifests == t.manifests && u.receipts == t.receipts && u.pending == t.pending && u.issues == t.issues
  {
    var u := Step(t, ExpireSession(sid));
    assert u.sessions - {sid} == t.sessions - {sid};
  }

  /** A command is moved exactly when it is where the caller thinks, the table allows the move and, if it is to work,
      nobody else does; then only its state changes. */
  lemma TransitionChanges(t: Tables, slot: Slot, from: CommandState, to: CommandState)
    requires to != Claimed
    ensures var u := Step(t, MoveCommand(slot, from, to));
      if slot in t.commands && t.commands[slot].state == from && to in CommandSuccessors(from)
         && (to in {Executing, EffectRecorded} ==>
               forall s :: s in t.commands && s != slot ==> t.commands[s].state !in {Claimed, Executing, EffectRecorded})
      then u == t.(commands := t.commands[slot := t.commands[slot].(state := to)])
      else u == t
  {
    forall s: CommandState ensures IsWorker(s) <==> s in {Claimed, Executing, EffectRecorded} {
      DoneMeans(s);
    }
  }

  /** The same for sessions, of which one may run. */
  lemma SessionTransitionChanges(t: Tables, sid: SessionId, before: SessionState, after: SessionState)
    ensures var u := Step(t, MoveSession(sid, before, after));
      if sid in t.sessions && t.sessions[sid].state == before && after in SessionSuccessors(before)
         && (after in {Active, Completing} ==>
               forall r :: r in t.sessions && r != sid ==> t.sessions[r].state !in {Active, Completing})
      then u == t.(sessions := t.sessions[sid := t.sessions[sid].(state := after)])
      else u == t
  {
    forall r: SessionState ensures IsRunning(r) <==> r in {Active, Completing} {}
    forall r ensures Running(t, r) <==> r in t.sessions && t.sessions[r].state in {Active, Completing} {}
  }

  /** Recovery that cannot go on takes a working command and its session to manual reconciliation, both or neither. */
  lemma RecoveryChanges(t: Tables, slot: Slot)
    requires slot in t.commands && slot.session in t.sessions
    requires t.commands[slot].state in {Claimed, Executing, EffectRecorded} && t.sessions[slot.session].state in {Active, Completing}
    ensures var u := Step(t, BlockRecovery(slot));
      && u.commands == t.commands[slot := t.commands[slot].(state := ManualReconciliation)]
      && u.sessions == t.sessions[slot.session := t.sessions[slot.session].(state := SessionManual)]
      && u.manifests == t.manifests && u.receipts == t.receipts && u.pending == t.pending && u.issues == t.issues
  {
  }
}

/** The journal as an object: each method is one transaction, and the tables always are the result
    of the run of transactions so far. */
module Journal {
  import opened Base
  import opened Models
  import opened JournalTables
  import opened Scheduling

  // ----- Part of a promotion -----

  lemma PromotedNone(t: Tables)
    ensures PromotedPart(t, {}, {}) == t
  {
    var u := PromotedPart(t, {}, {});
    assert u.commands == t.commands && u.receipts == t.receipts && u.pending == t.pending && u.issues == t.issues;
  }

  lemma OneMoreCommand(commands: map<Slot, Command>, pending: map<Slot, Doc>, ready: set<Slot>, s: Slot)
    requires forall r :: r in ready + {s} ==> r in pending && pending[r].content.Text?
    ensures forall r :: r in ready ==> r in pending && pending[r].content.Text?
    ensures commands + CommandRows(pending, ready + {s}) == (commands + CommandRows(pending, ready))[s := Fresh(pending[s])]
  {
    assert forall r :: r in ready ==> r in ready + {s};
  }

  lemma OneMoreReceipt(receipts: map<Slot, Receipt>, pending: map<Slot, Doc>, ready: set<Slot>, s: Slot)
    requires ready + {s} <= pending.Keys
    ensures ready <= pending.Keys
    ensures receipts + ReceiptRows(pending, ready + {s}) == (receipts + ReceiptRows(pending, ready))[s := ReceiptFor(pending[s])]
  {
  }

  lemma OneMoreReady(t: Tables, ready: set<Slot>, keys: set<IssueKey>, s: Slot)
    requires forall r :: r in ready + {s} ==> r in t.pending && t.pending[r].content.Text?
    ensures forall r :: r in ready ==> r in t.pending && t.pending[r].content.Text?
    ensures var u, v := PromotedPart(t, ready, keys), PromotedPart(t, ready + {s}, keys);
      && v.commands == u.commands[s := Fresh(t.pending[s])]
      && v.receipts == u.receipts[s := ReceiptFor(t.pending[s])]
      && v.pending == u.pending - {s} && v.issues == u.issues
  {
    OneMoreCommand(t.commands, t.pending, ready, s);
    OneMoreReceipt(t.receipts, t.pending, ready, s);
    assert t.pending - (ready + {s}) == t.pending - ready - {s};
  }

  lemma OneMoreKey(t: Tables, ready: set<Slot>, keys: set<IssueKey>, k: IssueKey)
    requires forall r :: r in ready ==> r in t.pending && t.pending[r].content.Text?
    ensures PromotedPart(t, ready, keys + {k}).issues
            == AddIssue(PromotedPart(t, ready, keys).issues, k, IsCollision(k.code))
  {
  }

  /** The rows in `seen` have been looked at: the promotable ones are `ready`, the others left `keys`. */
  ghost predicate Halfway(t: Tables, sid: SessionId, seen: set<Slot>, ready: set<Slot>, keys: set<IssueKey>) {
    && seen <= Staged(t, sid) && ready == Promotable(t, sid) * seen
    && (forall s :: s in seen && s !in ready ==> Obstacle(t, s) in keys)
    && (forall k :: k in keys ==> exists s :: s in seen && s !in ready && k == Obstacle(t, s))
  }

  lemma AllTheWay(t: Tables, sid: SessionId, ready: set<Slot>, keys: set<IssueKey>)
    requires Halfway(t, sid, Staged(t, sid), ready, keys)
    ensures ready == Promotable(t, sid) && keys == Obstacles(t, sid)
  {
    forall k ensures k in keys <==> k in Obstacles(t, sid) {
      if k in keys {
        var s :| s in Staged(t, sid) && s !in ready && k == Obstacle(t, s);
      }
      if k in Obstacles(t, sid) {
        var s :| s in t.pending && s.session == sid && s !in Promotable(t, sid) && k == Obstacle(t, s);
        assert s in Staged(t, sid);
      }
    }
  }

  lemma StillThere(t: Tables, sid: SessionId, ready: set<Slot>, keys: set<IssueKey>, rows: set<Slot>, s: Slot)
    requires rows <= Staged(t, sid) && Halfway(t, sid, Staged(t, sid) - rows, ready, keys) && s in rows
    ensures s !in ready && s in t.pending && s in PromotedPart(t, ready, keys).pending
    ensures PromotedPart(t, ready, keys).pending[s] == t.pending[s]
    ensures s in PromotedPart(t, ready, keys).commands <==> s in t.commands
  {
  }

  lemma Obstructed(t: Tables, sid: SessionId, rows: set<Slot>, ready: set<Slot>, keys: set<IssueKey>, s: Slot)
    requires rows <= Staged(t, sid) && Halfway(t, sid, Staged(t, sid) - rows, ready, keys) && s in rows
    requires s !in Promotable(t, sid)
    ensures Halfway(t, sid, Staged(t, sid) - (rows - {s}), ready, keys + {Obstacle(t, s)})
  {
    assert Staged(t, sid) - (rows - {s}) == Staged(t, sid) - rows + {s};
  }

  lemma Readied(t: Tables, sid: SessionId, rows: set<Slot>, ready: set<Slot>, keys: set<IssueKey>, s: Slot)
    requires rows <= Staged(t, sid) && Halfway(t, sid, Staged(t, sid) - rows, ready, keys) && s in rows
    requires s in Promotable(t, sid)
    ensures Halfway(t, sid, Staged(t, sid) - (rows - {s}), ready + {s}, keys)
  {
    assert Staged(t, sid) - (rows - {s}) == Staged(t, sid) - rows + {s};
  }

  // ----- Predecessors by counting -----

  ghost function NumbersBelow(sid: SessionId, n: nat): set<Slot> {
    set k: nat | 1 <= k < n :: Slot(sid, k)
  }

  lemma {:induction false} NumbersBelowSize(sid: SessionId, n: nat)
    requires n >= 1
    ensures |NumbersBelow(sid, n)| == n - 1
    decreases n
  {
    if n == 1 {
      assert NumbersBelow(sid, 1) == {};
    } else {
      NumbersBelowSize(sid, n - 1);
      assert NumbersBelow(sid, n) == NumbersBelow(sid, n - 1) + {Slot(sid, n - 1)};
    }
  }

  lemma SubsetOfSameSize<T>(a: set<T>, b: set<T>)
    requires a <= b && |a| == |b|
    ensures a == b
  {
    assert b == a + (b - a);
  }

  function Earlier(commands: map<Slot, Command>, slot: Slot): set<Slot> {
    set s | s in commands && s.session == slot.session && s.number < slot.number
  }

  /** Counting the earlier rows and looking at their states decides whether 1 .. n-1 are all there and done. */
  lemma CountDecides(t: Tables, slot: Slot)
    requires Homed(t.commands, t.sessions.Keys) && slot.number >= 1
    ensures Cleared(t, slot) <==>
      |Earlier(t.commands, slot)| == slot.number - 1 && forall s :: s in Earlier(t.commands, slot) ==> IsDone(t.commands[s].state)
  {
    var below, earlier := NumbersBelow(slot.session, slot.number), Earlier(t.commands, slot);
    NumbersBelowSize(slot.session, slot.number);
    forall s | s in earlier ensures s in below {
      assert s == Slot(slot.session, s.number);
    }
    if |earlier| == slot.number - 1 {
      SubsetOfSameSize(earlier, below);
    }
    if Cleared(t, slot) {
      forall s | s in below ensures s in earlier {
        assert s == Slot(slot.session, s.number);
      }
      assert earlier == below;
      forall s | s in earlier ensures IsDone(t.commands[s].state) {
        assert s == Slot(slot.session, s.number);
      }
    } else if earlier == below {
      var i :| 1 <= i < slot.number && !(Slot(slot.session, i) in t.commands && IsDone(t.commands[Slot(slot.session, i)].state));
      assert Slot(slot.session, i) in below;
    }
  }

  lemma ClaimableUnique(t: Tables, now: Time, a: Slot, b: Slot)
    requires Claimable(t, now, a) && Claimable(t, now, b)
    ensures a == b
  {
  }

  /** A document of a polled snapshot under a manifest or command path: what it says, or why it cannot be
      read or placed. */
  datatype ManifestSeen = GoodManifest(sid: SessionId, manifest: Manifest) | BadManifest(source: Source, code: Code, content: Content)
  datatype CommandSeen = GoodCommand(slot: Slot, doc: Doc) | BadCommand(source: Source, code: Code, content: Content)

  function ManifestAction(d: ManifestSeen, now: Time): Action {
    match d
    case GoodManifest(sid, m) => SeeManifest(sid, m, now)
    case BadManifest(source, code, content) => SeeInvalid(source, code, content)
  }

  function CommandAction(d: CommandSeen): Action {
    match d
    case GoodCommand(slot, doc) => SeeCommand(slot, doc)
    case BadCommand(source, code, content) => SeeInvalid(source, code, content)
  }

  function ManifestActions(docs: seq<ManifestSeen>, now: Time): seq<Action> {
    if docs == [] then [] else ManifestActions(docs[..|docs| - 1], now) + [ManifestAction(docs[|docs| - 1], now)]
  }

  function CommandActions(docs: seq<CommandSeen>): seq<Action> {
    if docs == [] then [] else CommandActions(docs[..|docs| - 1]) + [CommandAction(docs[|docs| - 1])]
  }

  class Journal {
    var sessions: map<SessionId, Session>
    var manifests: map<SessionId, Manifest>
    var commands: map<Slot, Command>
    var receipts: map<Slot, Receipt>
    var pending: map<Slot, Doc>
    var issues: map<IssueKey, bool>
    ghost var log: seq<Action>

    ghost function View(): Tables
      reads this
    {
      Tables(sessions, manifests, commands, receipts, pending, issues)
    }

    ghost predicate Valid()
      reads this
    {
      View() == Run(log) && Sound(View())
    }

    constructor ()
      ensures Valid() && log == []
    {
      sessions, manifests, commands, receipts, pending, issues := map[], map[], map[], map[], map[], map[];
      log := [];
      new;
      RunsAreSound([]);
    }

    /** Ends a transaction: the tables are those of the run with one more action. */
    ghost method Commit(a: Action)
      requires View() == Step(Run(log), a)
      modifies this`log
      ensures Valid() && log == old(log) + [a]
    {
      log := log + [a];
      assert log[..|log| - 1] == old(log);
      RunsAreSound(log);
    }

    method AddRow(k: IssueKey, blocking: bool) returns (created: bool)
      modifies this`issues
      ensures issues == AddIssue(old(issues), k, blocking) && created == (k !in old(issues))
    {
      created := k !in issues;
      if created {
        issues := issues[k := blocking];
      }
    }

    /** Notes why a staged row cannot be promoted. */
    method Obstruct(k: IssueKey, blocking: bool, ghost t: Tables, ghost ready: set<Slot>, ghost keys: set<IssueKey>)
      requires forall r :: r in ready ==> r in t.pending && t.pending[r].content.Text?
      requires View() == PromotedPart(t, ready, keys) && blocking == IsCollision(k.code)
      modifies this`issues
      ensures View() == PromotedPart(t, ready, keys + {k})
    {
      OneMoreKey(t, ready, keys, k);
      var _ := AddRow(k, blocking);
    }

    method Insert(s: Slot, doc: Doc, ghost t: Tables, ghost ready: set<Slot>, ghost keys: set<IssueKey>)
      requires forall r :: r in ready + {s} ==> r in t.pending && t.pending[r].content.Text?
      requires View() == PromotedPart(t, ready, keys) && doc == t.pending[s]
      modifies this`commands, this`receipts, this`pending
      ensures View() == PromotedPart(t, ready + {s}, keys)
    {
      OneMoreReady(t, ready, keys, s);
      commands := commands[s := Fresh(doc)];
      receipts := receipts[s := ReceiptFor(doc)];
      pending := pending - {s};
    }

    /** The promotion loop, in whatever order the rows come, is the promotion of all rows at once. */
    method PromoteStaged(sid: SessionId) returns (ok: bool)
      modifies this`commands, this`receipts, this`pending, this`issues
      ensures ok <==> !PromotionFails(old(View()), sid)
      ensures ok ==> View() == Promoted(old(View()), sid)
    {
      ghost var t := View();
      var rows := set s | s in pending && s.session == sid;
      ghost var ready, keys := {}, {};
      PromotedNone(t);
      while rows != {}
        invariant rows <= Staged(t, sid) && Halfway(t, sid, Staged(t, sid) - rows, ready, keys)
        invariant View() == PromotedPart(t, ready, keys)
        invariant Slot(sid, 0) !in ready
        decreases |rows|
      {
        var s :| s in rows;
        StillThere(t, sid, ready, keys, rows, s);
        var doc := pending[s];
        if s in commands || !doc.content.Text? {
          Obstructed(t, sid, rows, ready, keys, s);
          Obstruct(CommandIssue(s, if s in commands then SequenceCollision else BadPayload, doc), s in commands, t, ready, keys);
          keys := keys + {Obstacle(t, s)};
        } else if s.number == 0 {
          assert s == Slot(sid, 0);
          return false;
        } else {
          Readied(t, sid, rows, ready, keys, s);
          Insert(s, doc, t, ready, keys);
          ready := ready + {s};
        }
        rows := rows - {s};
      }
      assert Staged(t, sid) - rows == Staged(t, sid);
      AllTheWay(t, sid, ready, keys);
      ok := true;
    }

    /** A manifest document arrives. */
    method RecordSessionManifest(sid: SessionId, m: Manifest, now: Time)
      requires Valid()
      modifies this
      ensures Valid() && log == old(log) + [SeeManifest(sid, m, now)]
    {
      if sid in manifests && manifests[sid] != m {
        var _ := AddRow(IssueKey(ManifestFile(sid), SessionIdCollision, Hash(m.raw)), true);
      } else if sid !in manifests && sid in sessions && (sessions[sid].repository != m.repository || sessions[sid].base != m.base) {
        var _ := AddRow(IssueKey(ManifestFile(sid), SessionIdCollision, Hash(m.raw)), true);
      } else {
        RecordAndPromote(sid, m, now);
      }
      Commit(SeeManifest(sid, m, now));
    }

    /** The insert-and-promote transaction, rolled back when the promotion fails. */
    method RecordAndPromote(sid: SessionId, m: Manifest, now: Time)
      requires sid in manifests ==> manifests[sid] == m
      modifies this`sessions, this`manifests, this`commands, this`receipts, this`pending, this`issues
      ensures PromotionFails(old(View()), sid) ==> View() == old(View()).(
                issues := AddIssue(old(issues), IssueKey(ManifestFile(sid), CorruptJournal, Hash(m.raw)), false))
      ensures !PromotionFails(old(View()), sid) ==> View() == Promoted(WithManifest(old(View()), sid, m, now), sid)
    {
      var saved := (sessions, manifests, commands, receipts, pending, issues);
      if sid !in sessions {
        sessions := sessions[sid := Session(m.repository, m.base, Created, now)];
      }
      manifests := manifests[sid := m];
      assert View() == WithManifest(old(View()), sid, m, now);
      assert PromotionFails(View(), sid) == PromotionFails(old(View()), sid);
      var ok := PromoteStaged(sid);
      if !ok {
        sessions, manifests, commands, receipts, pending, issues := saved.0, saved.1, saved.2, saved.3, saved.4, saved.5;
        var _ := AddRow(IssueKey(ManifestFile(sid), CorruptJournal, Hash(m.raw)), false);
      }
    }

    /** A command document arrives. */
    method RecordIngestedCommand(slot: Slot, doc: Doc)
      requires Valid()
      modifies this
      ensures Valid() && log == old(log) + [SeeCommand(slot, doc)]
    {
      if slot.session !in manifests {
        if slot !in pending {
          pending := pending[slot := doc];
        } else if pending[slot] != doc {
          var _ := AddRow(CommandIssue(slot, SequenceCollision, doc), true);
        }
      } else if slot in receipts {
        if receipts[slot] != ReceiptFor(doc) {
          var _ := AddRow(CommandIssue(slot, CommandIdCollision, doc), true);
        }
      } else if slot in commands {
        if doc.content == Text(commands[slot].text) && commands[slot].commit == Some(doc.commit) {
          receipts := receipts[slot := ReceiptFor(doc)];
        } else {
          var _ := AddRow(CommandIssue(slot, SequenceCollision, doc), true);
        }
      } else if !doc.content.Text? {
        var _ := AddRow(CommandIssue(slot, BadPayload, doc), false);
      } else if slot.number == 0 {
        var _ := AddRow(CommandIssue(slot, CorruptJournal, doc), false);
      } else {
        commands := commands[slot := Fresh(doc)];
        receipts := receipts[slot := ReceiptFor(doc)];
      }
      Commit(SeeCommand(slot, doc));
    }

    /** A document that cannot be parsed or placed is noted without blocking. */
    method NoteInvalid(source: Source, code: Code, content: Content)
      requires Valid() && !IsCollision(code)
      modifies this
      ensures Valid() && log == old(log) + [SeeInvalid(source, code, content)]
    {
      var _ := AddRow(IssueKey(source, code, Hash(content)), false);
      Commit(SeeInvalid(source, code, content));
    }

    method IngestManifests(seen: seq<ManifestSeen>, now: Time)
      requires Valid() && forall i :: 0 <= i < |seen| && seen[i].BadManifest? ==> !IsCollision(seen[i].code)
      modifies this
      ensures Valid() && log == old(log) + ManifestActions(seen, now)
    {
      for i := 0 to |seen|
        invariant Valid() && log == old(log) + ManifestActions(seen[..i], now)
      {
        assert seen[..i + 1][..i] == seen[..i];
        match seen[i]
        case GoodManifest(sid, m) => RecordSessionManifest(sid, m, now);
        case BadManifest(source, code, content) => NoteInvalid(source, code, content);
      }
      assert seen[..|seen|] == seen;
    }

    method IngestCommands(seen: seq<CommandSeen>)
      requires Valid() && forall i :: 0 <= i < |seen| && seen[i].BadCommand? ==> !IsCollision(seen[i].code)
      modifies this
      ensures Valid() && log == old(log) + CommandActions(seen)
    {
      for i := 0 to |seen|
        invariant Valid() && log == old(log) + CommandActions(seen[..i])
      {
        assert seen[..i + 1][..i] == seen[..i];
        match seen[i]
        case GoodCommand(slot, doc) => RecordIngestedCommand(slot, doc);
        case BadCommand(source, code, content) => NoteInvalid(source, code, content);
      }
      assert seen[..|seen|] == seen;
    }

    /** One polled snapshot: manifests first, then command documents, each its own transaction. */
    method IngestSnapshot(seenManifests: seq<ManifestSeen>, seenCommands: seq<CommandSeen>, now: Time)
      requires Valid()
      requires forall i :: 0 <= i < |seenManifests| && seenManifests[i].BadManifest? ==> !IsCollision(seenManifests[i].code)
      requires forall i :: 0 <= i < |seenCommands| && seenCommands[i].BadCommand? ==> !IsCollision(seenCommands[i].code)
      modifies this
      ensures Valid() && log == old(log) + ManifestActions(seenManifests, now) + CommandActions(seenCommands)
    {
      IngestManifests(seenManifests, now);
      IngestCommands(seenCommands);
    }

    /** Aborts an expired session that never started and expires its undecided commands. */
    method ExpireSessionAndCommands(sid: SessionId)
      requires Valid()
      modifies this
      ensures Valid() && log == old(log) + [ExpireSession(sid)]
    {
      if sid in sessions && sessions[sid].state in {Created, Aborted} {
        sessions := sessions[sid := sessions[sid].(state := Aborted)];
        ExpireDiscovered(sid);
      }
      Commit(ExpireSession(sid));
    }

    method ExpireDiscovered(sid: SessionId)
      modifies this`commands
      ensures commands == ExpireAll(old(commands), sid)
    {
      var rows := set s | s in commands && s.session == sid && commands[s].state == Discovered;
      while rows != {}
        invariant rows <= commands.Keys && commands.Keys == old(commands).Keys
        invariant forall s :: s in commands ==>
          if s in rows then s.session == sid && commands[s].state == Discovered && commands[s] == old(commands)[s]
          else commands[s] == ExpireAll(old(commands), sid)[s]
        decreases |rows|
      {
        var s :| s in rows;
        commands := commands[s := commands[s].(state := Expired)];
        rows := rows - {s};
      }
      assert commands == ExpireAll(old(commands), sid);
    }

    // ----- Claiming -----

    /** The first session by creation time, then id. */
    method Oldest(among: set<SessionId>) returns (best: SessionId)
      requires among != {} && among <= sessions.Keys
      ensures best in among && forall r :: r in among ==> Older(View(), best, r)
    {
      best :| best in among;
      var rest := among - {best};
      while rest != {}
        invariant rest <= among && best in among
        invariant forall r :: r in among && r !in rest ==> Older(View(), best, r)
        decreases |rest|
      {
        var r :| r in rest;
        if !(sessions[best].created < sessions[r].created || (sessions[best].created == sessions[r].created && best <= r)) {
          best := r;
        }
        rest := rest - {r};
      }
    }

    /** The session whose turn it is. */
    method FindTarget() returns (r: Option<SessionId>)
      ensures r.Some? ==> Target(View(), r.value)
      ensures r.None? ==> forall sid :: !Target(View(), sid)
    {
      var running := set sid | sid in sessions && IsRunning(sessions[sid].state);
      assert forall sid :: sid in running <==> Running(View(), sid);
      if running != {} {
        var sid := Oldest(running);
        return Some(sid);
      }
      var startable := set sid | sid in sessions && sessions[sid].state == Created
                                 && Slot(sid, 1) in commands && commands[Slot(sid, 1)].state == Validated;
      assert forall sid :: sid in startable <==> Startable(View(), sid);
      if startable == {} {
        return None;
      }
      var sid := Oldest(startable);
      return Some(sid);
    }

    method FindLowest(sid: SessionId) returns (r: Option<Slot>)
      ensures r.Some? ==> r.value.session == sid && Lowest(View(), r.value)
      ensures r.None? ==> forall s: Slot :: s.session == sid ==> !Lowest(View(), s)
    {
      var rest := set s | s in commands && s.session == sid && commands[s].state == Validated;
      assert forall s: Slot :: s.session == sid && IsIn(View(), s, Validated) ==> s in rest;
      if rest == {} {
        return None;
      }
      var best :| best in rest;
      rest := rest - {best};
      while rest != {}
        invariant best.session == sid && IsIn(View(), best, Validated)
        invariant forall s :: s in rest ==> s.session == sid && IsIn(View(), s, Validated)
        invariant forall s: Slot :: s.session == sid && IsIn(View(), s, Validated) && s !in rest ==> best.number <= s.number
        decreases |rest|
      {
        var s :| s in rest;
        if s.number < best.number {
          best := s;
        }
        rest := rest - {s};
      }
      r := Some(best);
    }

    /** Counts the earlier rows, then looks at each state. */
    method PredecessorsDone(slot: Slot) returns (ok: bool)
      requires Sound(View()) && slot.number >= 1
      ensures ok <==> Cleared(View(), slot)
    {
      CountDecides(View(), slot);
      if slot.number == 1 {
        return true;
      }
      var rest := Earlier(commands, slot);
      if |rest| != slot.number - 1 {
        return false;
      }
      while rest != {}
        invariant rest <= Earlier(commands, slot)
        invariant forall s :: s in Earlier(commands, slot) && s !in rest ==> IsDone(commands[s].state)
        decreases |rest|
      {
        var s :| s in rest;
        if !IsDone(commands[s].state) {
          return false;
        }
        rest := rest - {s};
      }
      return true;
    }

    /** Which command may be claimed now. */
    method Select(now: Time) returns (r: Option<Slot>)
      requires Sound(View())
      ensures r == Choice(View(), now)
    {
      if exists k | k in issues :: issues[k] { return None; }
      if exists s | s in commands :: IsWorker(commands[s].state) { return None; }
      var target := FindTarget();
      if target.None? { return None; }
      ghost var c := Choice(View(), now);
      assert c.Some? ==> c.value.session == target.value;
      if target.value in manifests && now >= manifests[target.value].expires { return None; }
      r := FindLowest(target.value);
      if r.None? { return; }
      assert c.Some? ==> c == r;
      var ok := PredecessorsDone(r.value);
      if !ok { return None; }
      assert Claimable(View(), now, r.value);
    }

    /** The single-queue claim. */
    method ClaimNext(now: Time) returns (r: Option<Slot>)
      requires Valid()
      modifies this
      ensures Valid() && log == old(log) + [Claim(now)]
      ensures r == Choice(old(View()), now)
    {
      r := Select(now);
      if r.Some? {
        TargetMeans(View(), r.value.session);
        TakeSlot(r.value);
      }
      Commit(Claim(now));
    }

    method TakeSlot(slot: Slot)
      requires slot in commands && slot.session in sessions
      modifies this`sessions, this`commands
      ensures View() == TakeClaim(old(View()), slot)
    {
      if sessions[slot.session].state == Created {
        sessions := sessions[slot.session := sessions[slot.session].(state := Active)];
      }
      commands := commands[slot := commands[slot].(state := Claimed)];
    }

    // ----- Single-row transactions -----

    method NewSession(sid: SessionId, repository: nat, base: Sha, now: Time)
      requires Valid()
      modifies this
      ensures Valid() && log == old(log) + [CreateSession(sid, repository, base, now)]
    {
      if sid !in sessions {
        sessions := sessions[sid := Session(repository, base, Created, now)];
      }
      Commit(CreateSession(sid, repository, base, now));
    }

    method NewCommand(slot: Slot, text: string, commit: Option<Sha>)
      requires Valid()
      modifies this
      ensures Valid() && log == old(log) + [RecordCommand(slot, text, commit)]
    {
      if slot !in commands && slot.number > 0 && slot.session in sessions {
        commands := commands[slot := Command(text, commit, Discovered)];
      }
      Commit(RecordCommand(slot, text, commit));
    }

    method ValidateCommand(slot: Slot, text: string)
      requires Valid()
      modifies this
      ensures Valid() && log == old(log) + [Validate(slot, text)]
    {
      if slot in commands && commands[slot].state == Discovered && slot in receipts {
        commands := commands[slot := commands[slot].(text := text, state := Validated)];
      }
      Commit(Validate(slot, text));
    }

    method RejectCommand(slot: Slot, code: Code)
      requires Valid() && !IsCollision(code)
      modifies this
      ensures Valid() && log == old(log) + [Reject(slot, code)]
    {
      if slot in commands && commands[slot].state == Discovered && slot in receipts {
        commands := commands[slot := commands[slot].(state := Rejected)];
        var _ := AddRow(IssueKey(CommandFile(slot), code, receipts[slot].hash), false);
      }
      Commit(Reject(slot, code));
    }

    method ExpireOne(slot: Slot)
      requires Valid()
      modifies this
      ensures Valid() && log == old(log) + [ExpireCommand(slot)]
    {
      if slot in commands && commands[slot].state == Discovered {
        commands := commands[slot := commands[slot].(state := Expired)];
      }
      Commit(ExpireCommand(slot));
    }

    method TransitionCommand(slot: Slot, from: CommandState, to: CommandState) returns (ok: bool)
      requires Valid() && to != Claimed
      modifies this
      ensures ok == MayMoveCommand(old(View()), slot, from, to)
      ensures Valid() && log == old(log) + [MoveCommand(slot, from, to)]
    {
      ok := MayMoveCommand(Tables(sessions, manifests, commands, receipts, pending, issues), slot, from, to);
      if ok {
        commands := commands[slot := commands[slot].(state := to)];
      }
      Commit(MoveCommand(slot, from, to));
    }

    method TransitionSession(sid: SessionId, before: SessionState, after: SessionState) returns (ok: bool)
      requires Valid()
      modifies this
      ensures ok == MayMoveSession(old(View()), sid, before, after)
      ensures Valid() && log == old(log) + [MoveSession(sid, before, after)]
    {
      ok := MayMoveSession(Tables(sessions, manifests, commands, receipts, pending, issues), sid, before, after);
      if ok {
        sessions := sessions[sid := sessions[sid].(state := after)];
      }
      Commit(MoveSession(sid, before, after));
    }

    method MarkRecoveryBlocked(slot: Slot)
      requires Valid()
      modifies this
      ensures Valid() && log == old(log) + [BlockRecovery(slot)]
    {
      if MayBlock(Tables(sessions, manifests, commands, receipts, pending, issues), slot) {
        commands := commands[slot := CommandToManual(commands[slot])];
        sessions := sessions[slot.session := SessionToManual(sessions[slot.session])];
      }
      Commit(BlockRecovery(slot));
    }

    // ----- Validation of discovered commands -----

    /** Aborts every session whose manifest has expired before it started. */
    method ExpireStaleSessions(now: Time)
      requires Valid()
      modifies this
      ensures Valid() && Follows(old(log), log) && manifests == old(manifests)
      ensures forall sid :: sid in manifests && now >= manifests[sid].expires && sid in sessions ==> sessions[sid].state != Created
    {
      var rest: set<SessionId> := manifests.Keys;
      while rest != {}
        invariant Valid() && Follows(old(log), log) && manifests == old(manifests) && rest <= manifests.Keys
        invariant forall sid :: sid in manifests && sid !in rest && now >= manifests[sid].expires && sid in sessions ==>
          sessions[sid].state != Created
        decreases |rest|
      {
        var sid :| sid in rest;
        rest := rest - {sid};
        if now >= manifests[sid].expires && sid in sessions && sessions[sid].state == Created {
          ghost var before := log;
          ExpiredIs(View(), sid);
          RunStep(log, ExpireSession(sid));
          ExpireSessionAndCommands(sid);
          FollowsOne(old(log), before, ExpireSession(sid));
        }
      }
    }

    /** Decides one discovered command: exactly the transaction that its verdict calls for, if any. A command
        without ingestion metadata stops the pass. */
    method Decide(slot: Slot, verdict: Verdict, now: Time) returns (ok: bool)
      requires Valid() && (verdict.Bad? ==> !IsCollision(verdict.code))
      modifies this
      ensures Valid() && Follows(old(log), log)
      ensures ok <==> !Unreceipted(old(View()), slot)
      ensures View() == Decided(old(View()), slot, verdict, now)
    {
      FollowsSelf(log);
      ok := !Unreceipted(Tables(sessions, manifests, commands, receipts, pending, issues), slot);
      var decision := Called(Tables(sessions, manifests, commands, receipts, pending, issues), slot, verdict, now);
      match decision
      case None =>
      case Some(ExpireSession(sid)) =>
        Executed(log, decision.value);
        ExpireSessionAndCommands(sid);
      case Some(Reject(s, code)) =>
        Executed(log, decision.value);
        RejectCommand(s, code);
      case Some(ExpireCommand(s)) =>
        Executed(log, decision.value);
        ExpireOne(s);
      case Some(Validate(s, text)) =>
        CountGapFree(View(), s);
        Executed(log, decision.value);
        ValidateCommand(s, text);
    }

    /** The validation pass. A command becomes validated only once its predecessors are all there, and when
        the pass runs through, one that is still discovered has a reason to be. */
    method ValidatePending(verdicts: map<Slot, Verdict>, now: Time) returns (ok: bool)
      requires Valid() && forall s :: s in verdicts && verdicts[s].Bad? ==> !IsCollision(verdicts[s].code)
      modifies this
      ensures Valid() && Follows(old(log), log)
      ensures ok ==> forall s :: s in verdicts && IsIn(View(), s, Discovered) ==> Waits(View(), s, verdicts[s], now)
      ensures !ok ==> exists s :: Unreceipted(View(), s)
    {
      ExpireStaleSessions(now);
      var rest := set s | s in commands && s in verdicts && commands[s].state == Discovered;
      while rest != {}
        invariant Valid() && Follows(old(log), log) && rest <= verdicts.Keys
        invariant AllWait(View(), verdicts, rest, now)
        decreases |rest|
      {
        var s :| s in rest;
        ghost var before, was := log, View();
        ok := Decide(s, verdicts[s], now);
        FollowsTransitive(old(log), before, log);
        if !ok {
          assert View() == was && Unreceipted(View(), s);
          return false;
        }
        AllStillWait(was, verdicts, rest, s, now);
        rest := rest - {s};
      }
      ok := true;
    }
  }

  /** A discovered command of a recorded session without ingestion metadata. */
  predicate Unreceipted(t: Tables, slot: Slot) {
    IsIn(t, slot, Discovered) && slot.session in t.manifests && slot !in t.receipts
  }

  /** The transaction a discovered command calls for. */
  function Called(t: Tables, slot: Slot, verdict: Verdict, now: Time): (r: Option<Action>)
    ensures r.Some? ==> r.value.ExpireSession? || r.value.Reject? || r.value.ExpireCommand? || r.value.Validate?
    ensures r.Some? && r.value.Validate? ==> (slot.number <= 1 || |Earlier(t.commands, slot)| == slot.number - 1)
    ensures r.Some? && !r.value.ExpireSession? ==> r.value.slot == slot
  {
    if !IsIn(t, slot, Discovered) || slot.session !in t.manifests || slot !in t.receipts then None
    else if now >= t.manifests[slot.session].expires then Some(ExpireSession(slot.session))
    else
      match verdict
      case Bad(code) => Some(Reject(slot, code))
      case Parsed(text, expires) =>
        if now >= expires then Some(ExpireCommand(slot))
        else if slot.number > 1 && |Earlier(t.commands, slot)| != slot.number - 1 then None
        else Some(Validate(slot, text))
  }

  ghost function Decided(t: Tables, slot: Slot, verdict: Verdict, now: Time): Tables {
    match Called(t, slot, verdict, now)
    case None => t
    case Some(a) => Step(t, a)
  }

  /** Why a command may stay discovered: no manifest, a running or ended session whose manifest has expired, or
      a gap before it. */
  ghost predicate Waits(t: Tables, slot: Slot, verdict: Verdict, now: Time) {
    || slot.session !in t.manifests
    || (now >= t.manifests[slot.session].expires
        && (slot.session !in t.sessions || t.sessions[slot.session].state !in {Created, Aborted}))
    || (slot.number > 1 && |Earlier(t.commands, slot)| != slot.number - 1)
  }

  /** Outside `rest` every command that is still discovered waits. */
  ghost predicate AllWait(t: Tables, verdicts: map<Slot, Verdict>, rest: set<Slot>, now: Time) {
    forall s :: s in verdicts && s !in rest && IsIn(t, s, Discovered) ==> Waits(t, s, verdicts[s], now)
  }

  lemma AllStillWait(t: Tables, verdicts: map<Slot, Verdict>, rest: set<Slot>, s: Slot, now: Time)
    requires AllWait(t, verdicts, rest, now) && s in verdicts && !Unreceipted(t, s)
    requires verdicts[s].Bad? ==> !IsCollision(verdicts[s].code)
    ensures AllWait(Decided(t, s, verdicts[s], now), verdicts, rest - {s}, now)
  {
    var u := Decided(t, s, verdicts[s], now);
    forall x | x in verdicts && x !in rest - {s} && IsIn(u, x, Discovered) ensures Waits(u, x, verdicts[x], now) {
      DecidedKeeps(t, s, verdicts[s], x, now);
      StillWaits(t, s, verdicts[s], x, verdicts[x], now);
    }
  }

  lemma DecidedKeeps(t: Tables, s: Slot, verdict: Verdict, x: Slot, now: Time)
    requires IsIn(Decided(t, s, verdict, now), x, Discovered)
    ensures IsIn(t, x, Discovered)
  {
    if Called(t, s, verdict, now).Some? {
      DecisionKeeps(t, Called(t, s, verdict, now).value);
    }
  }

  /** Deciding one command leaves it settled or waiting, and leaves waiting commands waiting. */
  lemma StillWaits(t: Tables, s: Slot, verdict: Verdict, x: Slot, other: Verdict, now: Time)
    requires (x == s ==> verdict == other) && !Unreceipted(t, s)
    requires x != s ==> (IsIn(t, x, Discovered) ==> Waits(t, x, other, now))
    requires IsIn(Decided(t, s, verdict, now), x, Discovered) && (verdict.Bad? ==> !IsCollision(verdict.code))
    ensures Waits(Decided(t, s, verdict, now), x, other, now)
  {
    var a := Called(t, s, verdict, now);
    if a.Some? {
      DecisionKeeps(t, a.value);
      EarlierKept(t.commands, Step(t, a.value).commands, x);
    }
  }

  /** Decisions add no row and undo nothing; a command still discovered was so before. */
  ghost predicate Kept(t: Tables, u: Tables) {
    && u.manifests == t.manifests && u.receipts == t.receipts && u.commands.Keys == t.commands.Keys && u.sessions.Keys == t.sessions.Keys
    && (forall x :: IsIn(u, x, Discovered) ==> IsIn(t, x, Discovered))
    && (forall sid :: sid in t.sessions && t.sessions[sid].state !in {Created, Aborted} ==> u.sessions[sid] == t.sessions[sid])
  }

  lemma ExpiryKeeps(t: Tables, sid: SessionId)
    ensures Kept(t, SessionExpired(t, sid))
  {
    var u := SessionExpired(t, sid);
    if u != t {
      assert u.sessions.Keys == t.sessions.Keys && u.commands.Keys == t.commands.Keys;
      forall x | IsIn(u, x, Discovered) ensures IsIn(t, x, Discovered) {
        assert u.commands[x] == ExpireAll(t.commands, sid)[x];
      }
    }
  }

  lemma RowKeeps(t: Tables, u: Tables, slot: Slot, c: Command)
    requires slot in t.commands && c.state != Discovered && u == t.(commands := t.commands[slot := c], issues := u.issues)
    ensures Kept(t, u)
  {
    assert u.commands.Keys == t.commands.Keys;
  }

  lemma DecisionKeeps(t: Tables, a: Action)
    requires a.ExpireSession? || a.Reject? || a.ExpireCommand? || a.Validate?
    ensures Kept(t, Step(t, a))
  {
    var u := Step(t, a);
    if a.ExpireSession? {
      ExpiryKeeps(t, a.sid);
    } else if u != t {
      RowKeeps(t, u, a.slot, u.commands[a.slot]);
    }
  }

  lemma EarlierKept(c: map<Slot, Command>, d: map<Slot, Command>, x: Slot)
    requires c.Keys == d.Keys
    ensures Earlier(c, x) == Earlier(d, x)
  {
  }

  lemma ExpiredIs(t: Tables, sid: SessionId)
    requires sid in t.sessions && t.sessions[sid].state == Created
    ensures Step(t, ExpireSession(sid)).sessions == t.sessions[sid := t.sessions[sid].(state := Aborted)]
    ensures Step(t, ExpireSession(sid)).manifests == t.manifests
  {
  }

  lemma RunStep(acts: seq<Action>, a: Action)
    ensures Run(acts + [a]) == Step(Run(acts), a)
  {
    assert (acts + [a])[..|acts|] == acts;
  }

  /** A decision extends the run lawfully. */
  lemma Executed(acts: seq<Action>, a: Action)
    requires a.Validate? ==> GapFree(Run(acts), a.slot)
    ensures Run(acts + [a]) == Step(Run(acts), a) && Follows(acts, acts + [a])
  {
    RunStep(acts, a);
    FollowsSelf(acts);
    FollowsOne(acts, acts, a);
  }

  /** What parsing a command envelope says. */
  datatype Verdict = Bad(code: Code) | Parsed(text: string, expires: Time)

  /** The later log continues the earlier one, and validates commands only behind a gap-free prefix. */
  ghost predicate Follows(a: seq<Action>, b: seq<Action>) {
    a <= b && forall i :: |a| <= i < |b| && b[i].Validate? ==> GapFree(At(b, i), b[i].slot)
  }

  lemma FollowsSelf(a: seq<Action>)
    ensures Follows(a, a)
  {
  }

  lemma FollowsTransitive(a: seq<Action>, b: seq<Action>, c: seq<Action>)
    requires Follows(a, b) && Follows(b, c)
    ensures Follows(a, c)
  {
    forall i | |a| <= i < |c| && c[i].Validate? ensures GapFree(At(c, i), c[i].slot) {
      if i < |b| {
        assert b[..i] == c[..i] && b[i] == c[i];
        assert GapFree(At(b, i), b[i].slot);
      }
    }
  }

  lemma FollowsOne(a: seq<Action>, b: seq<Action>, act: Action)
    requires Follows(a, b) && (act.Validate? ==> GapFree(Run(b), act.slot))
    ensures Follows(a, b + [act])
  {
    var c := b + [act];
    assert c[..|b|] == b;
    assert Follows(b, c);
    FollowsTransitive(a, b, c);
  }

  lemma CountGapFree(t: Tables, slot: Slot)
    requires Homed(t.commands, t.sessions.Keys) && slot in t.commands
    requires slot.number <= 1 || |Earlier(t.commands, slot)| == slot.number - 1
    ensures GapFree(t, slot)
  {
    var below, earlier := NumbersBelow(slot.session, slot.number), Earlier(t.commands, slot);
    NumbersBelowSize(slot.session, slot.number);
    forall s | s in earlier ensures s in below {
      assert s == Slot(slot.session, s.number);
    }
    if slot.number > 1 {
      SubsetOfSameSize(earlier, below);
    }
    forall k: nat | k < slot.number ensures Slot(slot.session, k) in t.commands <==> k >= 1 {
      if k >= 1 {
        assert Slot(slot.session, k) in below;
      }
    }
  }
}

/** Arrival-order independence of ingestion, and exactly when it holds. */
module Ingestion {
  import opened Base
  import opened Models
  import opened JournalTables
  import opened Scheduling

  /** A collision-free document set: at most one manifest per session, one document per slot. */
  datatype Library = Library(manifests: map<SessionId, Manifest>, docs: map<Slot, Doc>)

  predicate Delivers(lib: Library, a: Action) {
    match a
    case SeeManifest(sid, m, _) => sid in lib.manifests && lib.manifests[sid] == m
    case SeeCommand(slot, doc) => slot in lib.docs && lib.docs[slot] == doc
    case _ => false
  }

  ghost function SeenManifests(acts: seq<Action>): set<SessionId> {
    if acts == [] then {}
    else SeenManifests(acts[..|acts| - 1]) + (if acts[|acts| - 1].SeeManifest? then {acts[|acts| - 1].sid} else {})
  }

  ghost function SeenDocs(acts: seq<Action>): set<Slot> {
    if acts == [] then {}
    else SeenDocs(acts[..|acts| - 1]) + (if acts[|acts| - 1].SeeCommand? then {acts[|acts| - 1].slot} else {})
  }

  ghost predicate Deliveries(lib: Library, acts: seq<Action>) {
    forall i :: 0 <= i < |acts| ==> Delivers(lib, acts[i])
  }

  /** Every document of the set arrives, in any order and any number of times. */
  ghost predicate Arrival(lib: Library, acts: seq<Action>) {
    Deliveries(lib, acts) && SeenManifests(acts) == lib.manifests.Keys && SeenDocs(acts) == lib.docs.Keys
  }

  predicate Accepted(lib: Library, slot: Slot) {
    slot in lib.docs && slot.session in lib.manifests && lib.docs[slot].content.Text? && slot.number > 0
  }

  /** No decodable document numbered zero belongs to a session of the set. */
  ghost predicate Clean(lib: Library) {
    forall slot :: slot in lib.docs && slot.session in lib.manifests && lib.docs[slot].content.Text? ==> slot.number > 0
  }

  // ----- What a session and its commands look like after any part of an arrival -----

  ghost predicate SessionsAs(lib: Library, sessions: map<SessionId, Session>, sids: set<SessionId>) {
    && sessions.Keys == sids && sids <= lib.manifests.Keys
    && (forall sid :: sid in sessions ==>
          && sessions[sid].repository == lib.manifests[sid].repository
          && sessions[sid].base == lib.manifests[sid].base && sessions[sid].state == Created)
  }

  ghost predicate ManifestsAs(lib: Library, manifests: map<SessionId, Manifest>, sids: set<SessionId>) {
    manifests.Keys == sids && Extends(manifests, lib.manifests)
  }

  ghost predicate CommandsAs(lib: Library, commands: map<Slot, Command>, sids: set<SessionId>, slots: set<Slot>) {
    && (forall s :: s in commands <==> s in slots && s.session in sids && Accepted(lib, s))
    && (forall s :: s in commands ==> commands[s] == Fresh(lib.docs[s]))
  }

  ghost predicate ReceiptsAs(lib: Library, receipts: map<Slot, Receipt>, sids: set<SessionId>, slots: set<Slot>) {
    && (forall s :: s in receipts <==> s in slots && s.session in sids && Accepted(lib, s))
    && (forall s :: s in receipts ==> receipts[s] == ReceiptFor(lib.docs[s]))
  }

  /** Staged: everything seen whose manifest is not, and leftovers that do not decode. */
  ghost predicate PendingAs(lib: Library, pending: map<Slot, Doc>, sids: set<SessionId>, slots: set<Slot>) {
    && Extends(pending, lib.docs) && pending.Keys <= slots
    && (forall s :: s in pending && s.session in sids ==> !pending[s].content.Text?)
    && (forall s :: s in slots && s.session !in sids ==> s in pending)
  }

  ghost predicate Quiet(issues: map<IssueKey, bool>) {
    forall k :: k in issues ==> !issues[k]
  }

  ghost predicate Ingested(lib: Library, t: Tables, sids: set<SessionId>, slots: set<Slot>) {
    && SessionsAs(lib, t.sessions, sids) && ManifestsAs(lib, t.manifests, sids)
    && CommandsAs(lib, t.commands, sids, slots) && ReceiptsAs(lib, t.receipts, sids, slots)
    && PendingAs(lib, t.pending, sids, slots) && Quiet(t.issues) && slots <= lib.docs.Keys
  }

  lemma DocumentStages(lib: Library, t: Tables, sids: set<SessionId>, slots: set<Slot>, slot: Slot)
    requires Ingested(lib, t, sids, slots) && slot in lib.docs && slot.session !in sids
    ensures Ingested(lib, SawCommand(t, slot, lib.docs[slot]), sids, slots + {slot})
  {
  }

  lemma RowsRecord(lib: Library, t: Tables, sids: set<SessionId>, slots: set<Slot>, slot: Slot)
    requires CommandsAs(lib, t.commands, sids, slots) && ReceiptsAs(lib, t.receipts, sids, slots)
    requires slot.session in sids && Accepted(lib, slot)
    ensures CommandsAs(lib, t.commands[slot := Fresh(lib.docs[slot])], sids, slots + {slot})
    ensures ReceiptsAs(lib, t.receipts[slot := ReceiptFor(lib.docs[slot])], sids, slots + {slot})
    ensures slot in t.commands ==> t.commands[slot := Fresh(lib.docs[slot])] == t.commands
    ensures slot in t.receipts ==> t.receipts[slot := ReceiptFor(lib.docs[slot])] == t.receipts
    ensures slot in t.receipts <==> slot in t.commands
  {
  }

  lemma DocumentRecords(lib: Library, t: Tables, sids: set<SessionId>, slots: set<Slot>, slot: Slot)
    requires Ingested(lib, t, sids, slots) && slot.session in sids && Accepted(lib, slot)
    ensures Ingested(lib, SawCommand(t, slot, lib.docs[slot]), sids, slots + {slot})
  {
    var u := SawCommand(t, slot, lib.docs[slot]);
    RowsRecord(lib, t, sids, slots, slot);
    assert u.commands == t.commands[slot := Fresh(lib.docs[slot])];
    assert u.receipts == t.receipts[slot := ReceiptFor(lib.docs[slot])];
    assert PendingAs(lib, u.pending, sids, slots + {slot});
  }

  lemma DocumentFails(lib: Library, t: Tables, sids: set<SessionId>, slots: set<Slot>, slot: Slot)
    requires Ingested(lib, t, sids, slots) && slot.session in sids && slot in lib.docs && !lib.docs[slot].content.Text?
    ensures Ingested(lib, SawCommand(t, slot, lib.docs[slot]), sids, slots + {slot})
  {
    var u := SawCommand(t, slot, lib.docs[slot]);
    assert slot !in t.receipts && slot !in t.commands;
    assert PendingAs(lib, u.pending, sids, slots + {slot});
  }

  lemma DocumentArrives(lib: Library, t: Tables, sids: set<SessionId>, slots: set<Slot>, slot: Slot)
    requires Clean(lib) && Ingested(lib, t, sids, slots) && slot in lib.docs
    ensures Ingested(lib, SawCommand(t, slot, lib.docs[slot]), sids, slots + {slot})
  {
    if slot.session !in sids {
      DocumentStages(lib, t, sids, slots, slot);
    } else if lib.docs[slot].content.Text? {
      DocumentRecords(lib, t, sids, slots, slot);
    } else {
      DocumentFails(lib, t, sids, slots, slot);
    }
  }

  lemma PromotesAll(lib: Library, t: Tables, sid: SessionId, sids: set<SessionId>, slots: set<Slot>)
    requires Clean(lib) && sid in lib.manifests && CommandsAs(lib, t.commands, sids, slots) && ReceiptsAs(lib, t.receipts, sids, slots)
    requires PendingAs(lib, t.pending, sids, slots) && slots <= lib.docs.Keys
    ensures !PromotionFails(t, sid)
    ensures forall s :: s in Promotable(t, sid) <==> s in slots && sid !in sids && s.session == sid && Accepted(lib, s)
    ensures forall s :: s in Promotable(t, sid) ==> t.pending[s] == lib.docs[s]
    ensures forall s :: s in Staged(t, sid) ==> s !in t.commands
  {
  }

  lemma PromotedTables(lib: Library, t: Tables, sids: set<SessionId>, slots: set<Slot>, sid: SessionId)
    requires Clean(lib) && sid in lib.manifests && CommandsAs(lib, t.commands, sids, slots) && ReceiptsAs(lib, t.receipts, sids, slots)
    requires PendingAs(lib, t.pending, sids, slots) && slots <= lib.docs.Keys
    ensures CommandsAs(lib, Promoted(t, sid).commands, sids + {sid}, slots)
    ensures ReceiptsAs(lib, Promoted(t, sid).receipts, sids + {sid}, slots)
  {
    PromotesAll(lib, t, sid, sids, slots);
  }

  lemma PromotedPending(lib: Library, t: Tables, sids: set<SessionId>, slots: set<Slot>, sid: SessionId)
    requires Clean(lib) && sid in lib.manifests && CommandsAs(lib, t.commands, sids, slots) && ReceiptsAs(lib, t.receipts, sids, slots)
    requires PendingAs(lib, t.pending, sids, slots) && slots <= lib.docs.Keys
    ensures PendingAs(lib, Promoted(t, sid).pending, sids + {sid}, slots)
  {
    PromotesAll(lib, t, sid, sids, slots);
  }

  lemma PromotedQuiet(lib: Library, t: Tables, sids: set<SessionId>, slots: set<Slot>, sid: SessionId)
    requires Clean(lib) && sid in lib.manifests && CommandsAs(lib, t.commands, sids, slots) && ReceiptsAs(lib, t.receipts, sids, slots)
    requires PendingAs(lib, t.pending, sids, slots) && slots <= lib.docs.Keys && Quiet(t.issues)
    ensures Quiet(Promoted(t, sid).issues)
  {
    PromotesAll(lib, t, sid, sids, slots);
    forall k | k in Obstacles(t, sid) ensures !IsCollision(k.code) {
      var s :| s in t.pending && s.session == sid && s !in Promotable(t, sid) && k == Obstacle(t, s);
      assert s in Staged(t, sid);
    }
  }

  lemma ManifestArrives(lib: Library, t: Tables, sids: set<SessionId>, slots: set<Slot>, sid: SessionId, now: Time)
    requires Clean(lib) && Ingested(lib, t, sids, slots) && sid in lib.manifests
    ensures Ingested(lib, SawManifest(t, sid, lib.manifests[sid], now), sids + {sid}, slots)
  {
    var m := lib.manifests[sid];
    var w := WithManifest(t, sid, m, now);
    PromotesAll(lib, t, sid, sids, slots);
    PromotedTables(lib, w, sids, slots, sid);
    PromotedPending(lib, w, sids, slots, sid);
    PromotedQuiet(lib, w, sids, slots, sid);
    assert SessionsAs(lib, w.sessions, sids + {sid});
    assert ManifestsAs(lib, w.manifests, sids + {sid});
    assert SawManifest(t, sid, m, now) == Promoted(w, sid);
  }

  lemma {:induction false} PartOfArrival(lib: Library, acts: seq<Action>)
    requires Clean(lib) && Deliveries(lib, acts)
    ensures Ingested(lib, Run(acts), SeenManifests(acts), SeenDocs(acts))
    decreases |acts|
  {
    if acts != [] {
      var init, last := acts[..|acts| - 1], acts[|acts| - 1];
      assert Delivers(lib, last);
      PartOfArrival(lib, init);
      if last.SeeManifest? {
        ManifestArrives(lib, Run(init), SeenManifests(init), SeenDocs(init), last.sid, last.now);
      } else {
        DocumentArrives(lib, Run(init), SeenManifests(init), SeenDocs(init), last.slot);
      }
    }
  }

  /** What the whole document set comes to: every session, every decodable document as a discovered
      command with its own bytes and commit, nothing else, and no blocking issue. */
  ghost predicate Settled(lib: Library, t: Tables) {
    && SessionsAs(lib, t.sessions, lib.manifests.Keys) && t.manifests == lib.manifests
    && t.commands == (map s | s in lib.docs && Accepted(lib, s) :: Fresh(lib.docs[s]))
    && t.receipts == (map s | s in lib.docs && Accepted(lib, s) :: ReceiptFor(lib.docs[s]))
    && !Blocked(t)
  }

  /** Every arrival of a clean document set settles it, whatever the order and the repetitions. */
  lemma ArrivalSettles(lib: Library, acts: seq<Action>)
    requires Clean(lib) && Arrival(lib, acts)
    ensures Settled(lib, Run(acts))
  {
    PartOfArrival(lib, acts);
    var t := Run(acts);
    assert t.manifests == lib.manifests;
    assert t.commands == (map s | s in lib.docs && Accepted(lib, s) :: Fresh(lib.docs[s]));
    assert t.receipts == (map s | s in lib.docs && Accepted(lib, s) :: ReceiptFor(lib.docs[s]));
  }

  /** A decodable document numbered zero is staged and its session has no manifest. */
  ghost predicate Barred(t: Tables, sid: SessionId) {
    sid !in t.manifests && Slot(sid, 0) in t.pending && t.pending[Slot(sid, 0)].content.Text?
  }

  lemma BarredOwnManifest(t: Tables, sid: SessionId, m: Manifest, now: Time)
    requires Slot(sid, 0) !in t.commands && Barred(t, sid)
    ensures Barred(SawManifest(t, sid, m, now), sid)
  {
    assert Slot(sid, 0) in Promotable(t, sid);
  }

  lemma BarredOtherManifest(t: Tables, sid: SessionId, other: SessionId, m: Manifest, now: Time)
    requires Barred(t, sid) && other != sid
    ensures Barred(SawManifest(t, other, m, now), sid)
  {
    assert Slot(sid, 0) !in Promotable(WithManifest(t, other, m, now), other);
  }

  lemma BarredManifest(t: Tables, sid: SessionId, other: SessionId, m: Manifest, now: Time)
    requires Sound(t) && Barred(t, sid)
    ensures Barred(SawManifest(t, other, m, now), sid)
  {
    if other == sid {
      assert Slot(sid, 0) !in t.commands;
      BarredOwnManifest(t, sid, m, now);
    } else {
      BarredOtherManifest(t, sid, other, m, now);
    }
  }

  lemma BarredDocument(t: Tables, sid: SessionId, slot: Slot, doc: Doc)
    requires Barred(t, sid)
    ensures Barred(SawCommand(t, slot, doc), sid)
  {
  }

  lemma OthersKeepManifests(t: Tables, a: Action)
    requires !a.SeeManifest? && !a.SeeCommand?
    ensures Step(t, a).manifests == t.manifests
  {
  }

  lemma OthersKeepPending(t: Tables, a: Action)
    requires !a.SeeManifest? && !a.SeeCommand?
    ensures Step(t, a).pending == t.pending
  {
  }

  lemma OthersKeepReceipts(t: Tables, a: Action)
    requires !a.SeeManifest? && !a.SeeCommand?
    ensures Step(t, a).receipts == t.receipts
  {
  }

  lemma OthersKeep(t: Tables, a: Action)
    requires !a.SeeManifest? && !a.SeeCommand?
    ensures Step(t, a).manifests == t.manifests && Step(t, a).pending == t.pending && Step(t, a).receipts == t.receipts
  {
    OthersKeepManifests(t, a);
    OthersKeepPending(t, a);
    OthersKeepReceipts(t, a);
  }

  /** Every transaction keeps a barred session barred: recording its manifest rolls back. */
  lemma BarredStep(t: Tables, a: Action, sid: SessionId)
    requires Sound(t) && Barred(t, sid)
    ensures Barred(Step(t, a), sid)
  {
    if a.SeeManifest? {
      BarredManifest(t, sid, a.sid, a.manifest, a.now);
    } else if a.SeeCommand? {
      BarredDocument(t, sid, a.slot, a.doc);
    } else {
      OthersKeep(t, a);
    }
  }

  /** So the session never gets its manifest, in any run. */
  lemma {:induction false} BarredForever(acts: seq<Action>, i: nat, j: nat, sid: SessionId)
    requires i <= j <= |acts| && Barred(At(acts, i), sid)
    ensures Barred(At(acts, j), sid)
    decreases j
  {
    if i < j {
      BarredForever(acts, i, j - 1, sid);
      RunsAreSound(acts[..j - 1]);
      AtNext(acts, j - 1);
      BarredStep(At(acts, j - 1), acts[j - 1], sid);
    }
  }

  lemma {:induction false} SeenAfter(a: Action, acts: seq<Action>)
    ensures SeenManifests([a] + acts) == SeenManifests([a]) + SeenManifests(acts)
    ensures SeenDocs([a] + acts) == SeenDocs([a]) + SeenDocs(acts)
    decreases |acts|
  {
    if acts == [] {
      assert [a] + acts == [a];
    } else {
      assert ([a] + acts)[..|acts|] == [a] + acts[..|acts| - 1];
      SeenAfter(a, acts[..|acts| - 1]);
    }
  }

  /** An arrival that starts with such a document leaves its session unrecorded. */
  lemma ZeroFirst(lib: Library, acts: seq<Action>, slot: Slot)
    requires Arrival(lib, acts) && slot in lib.docs && slot.number == 0
    requires slot.session in lib.manifests && lib.docs[slot].content.Text?
    ensures Arrival(lib, [SeeCommand(slot, lib.docs[slot])] + acts)
    ensures slot.session !in Run([SeeCommand(slot, lib.docs[slot])] + acts).manifests
  {
    var first := SeeCommand(slot, lib.docs[slot]);
    var all := [first] + acts;
    SeenAfter(first, acts);
    assert SeenManifests([first]) == {} && SeenDocs([first]) == {slot};
    assert Deliveries(lib, all);
    assert all[..0] == [] && Run(all[..0]) == Empty;
    AtNext(all, 0);
    assert slot == Slot(slot.session, 0);
    assert Barred(At(all, 1), slot.session);
    BarredForever(all, 1, |all|, slot.session);
    assert all[..|all|] == all;
  }

  /** Ingestion is independent of the arrival order exactly for the clean document sets. */
  lemma OrderIndependentExactly(lib: Library, some: seq<Action>)
    requires Arrival(lib, some)
    ensures Clean(lib) <==> forall acts :: Arrival(lib, acts) ==> Settled(lib, Run(acts))
  {
    forall acts | Arrival(lib, acts) && Clean(lib) ensures Settled(lib, Run(acts)) {
      ArrivalSettles(lib, acts);
    }
    if !Clean(lib) {
      var slot :| slot in lib.docs && slot.session in lib.manifests && lib.docs[slot].content.Text? && slot.number == 0;
      ZeroFirst(lib, some, slot);
      assert !Settled(lib, Run([SeeCommand(slot, lib.docs[slot])] + some));
    }
  }

  /** The same document set in two orders: manifest first settles nothing less than the session;
      document first loses it. */
  lemma ZeroDocumentDisagrees(sid: SessionId, m: Manifest, doc: Doc, now: Time)
    requires doc.content.Text?
    ensures sid in Run([SeeManifest(sid, m, now), SeeCommand(Slot(sid, 0), doc)]).manifests
    ensures sid !in Run([SeeCommand(Slot(sid, 0), doc), SeeManifest(sid, m, now)]).manifests
  {
    var a, b := SeeManifest(sid, m, now), SeeCommand(Slot(sid, 0), doc);
    RunTwo(a, b);
    RunTwo(b, a);
    EmptyPromotes(sid, m, now);
    ZeroStaged(sid, doc);
    assert PromotionFails(Step(Empty, b), sid);
  }

  lemma EmptyPromotes(sid: SessionId, m: Manifest, now: Time)
    ensures sid in Step(Empty, SeeManifest(sid, m, now)).manifests
  {
    assert Promotable(Empty, sid) == {};
  }

  lemma ZeroStaged(sid: SessionId, doc: Doc)
    requires doc.content.Text?
    ensures var t := Step(Empty, SeeCommand(Slot(sid, 0), doc)); sid !in t.manifests && sid !in t.sessions && Slot(sid, 0) in Promotable(t, sid)
  {
  }

  lemma RunTwo(a: Action, b: Action)
    ensures Run([a, b]) == Step(Step(Empty, a), b)
  {
    assert [a, b][..1] == [a] && [a][..0] == [];
    assert Run([a]) == Step(Empty, a);
  }

  // ----- Which conflicts are overlooked, over every run -----

  /** Receipts come after their manifest, and what a manifest leaves staged without a command does not decode. */
  ghost predicate Tidy(t: Tables) {
    && (forall s :: s in t.receipts ==> s.session in t.manifests)
    && (forall s :: s in t.pending && s.session in t.manifests && s !in t.commands ==> !t.pending[s].content.Text?)
  }

  lemma PromotedTidy(t: Tables, sid: SessionId)
    requires sid in t.manifests && forall s :: s in t.receipts ==> s.session in t.manifests
    requires forall s :: s in t.pending && s.session in t.manifests && s.session != sid && s !in t.commands ==>
               !t.pending[s].content.Text?
    ensures Tidy(Promoted(t, sid))
  {
    var u := Promoted(t, sid);
    forall s | s in u.receipts ensures s.session in u.manifests {
      assert s in t.receipts || s in Promotable(t, sid);
    }
    forall s | s in u.pending && s.session in u.manifests && s !in u.commands ensures !u.pending[s].content.Text? {
      assert s !in Promotable(t, sid);
    }
  }

  lemma ManifestTidy(t: Tables, sid: SessionId, m: Manifest, now: Time)
    requires Tidy(t)
    ensures Tidy(SawManifest(t, sid, m, now))
  {
    if (sid in t.manifests && t.manifests[sid] != m) || PromotionFails(t, sid)
       || (sid !in t.manifests && sid in t.sessions && (t.sessions[sid].repository != m.repository || t.sessions[sid].base != m.base)) {
      var u := SawManifest(t, sid, m, now);
      assert u == t.(issues := u.issues);
    } else {
      PromotedTidy(WithManifest(t, sid, m, now), sid);
    }
  }

  /** A transaction that leaves what is staged, adds rows, and gives at most `slot` a receipt. */
  lemma DirectTidy(t: Tables, u: Tables, slot: Slot)
    requires Tidy(t) && u.manifests == t.manifests && u.pending == t.pending && slot.session in t.manifests
    requires forall s :: s in t.commands ==> s in u.commands
    requires forall s :: s in u.receipts ==> s in t.receipts || s == slot
    ensures Tidy(u)
  {
  }

  lemma StagedTidy(t: Tables, slot: Slot, doc: Doc)
    requires Tidy(t) && slot.session !in t.manifests
    ensures Tidy(t.(pending := t.pending[slot := doc]))
  {
  }

  lemma IssueTidy(t: Tables, issues: map<IssueKey, bool>)
    requires Tidy(t)
    ensures Tidy(t.(issues := issues))
  {
  }

  lemma DocumentTidy(t: Tables, slot: Slot, doc: Doc)
    requires Tidy(t)
    ensures Tidy(SawCommand(t, slot, doc))
  {
    if slot.session in t.manifests {
      DirectKeepsManifests(t, slot, doc);
      DirectKeepsStaged(t, slot, doc);
      DirectKeepsRows(t, slot, doc);
      DirectReceipts(t, slot, doc);
      DirectTidy(t, SawCommand(t, slot, doc), slot);
    } else if slot !in t.pending {
      StagedTidy(t, slot, doc);
    } else {
      IssueTidy(t, SawCommand(t, slot, doc).issues);
    }
  }

  lemma DirectKeepsManifests(t: Tables, slot: Slot, doc: Doc)
    ensures RecordDocument(t, slot, doc).manifests == t.manifests
  {
  }

  lemma DirectKeepsStaged(t: Tables, slot: Slot, doc: Doc)
    ensures RecordDocument(t, slot, doc).pending == t.pending
  {
  }

  lemma DirectKeepsRows(t: Tables, slot: Slot, doc: Doc)
    ensures forall s :: s in t.commands ==> s in RecordDocument(t, slot, doc).commands
  {
  }

  lemma DirectReceipts(t: Tables, slot: Slot, doc: Doc)
    ensures forall s :: s in RecordDocument(t, slot, doc).receipts ==> s in t.receipts || s == slot
  {
  }

  lemma OthersTidy(t: Tables, u: Tables)
    requires Tidy(t) && u.manifests == t.manifests && u.pending == t.pending && u.receipts == t.receipts
    requires t.commands.Keys <= u.commands.Keys
    ensures Tidy(u)
  {
  }

  lemma StepTidy(t: Tables, a: Action)
    requires Sound(t) && Tidy(t)
    ensures Tidy(Step(t, a))
  {
    if a.SeeManifest? {
      ManifestTidy(t, a.sid, a.manifest, a.now);
    } else if a.SeeCommand? {
      DocumentTidy(t, a.slot, a.doc);
    } else {
      StepSafe(t, a);
      OthersKeep(t, a);
      RowsStay(t, Step(t, a));
      OthersTidy(t, Step(t, a));
    }
  }

  lemma RowsStay(t: Tables, u: Tables)
    requires Moves(t, u)
    ensures t.commands.Keys <= u.commands.Keys
  {
  }

  lemma {:induction false} RunsAreTidy(acts: seq<Action>)
    ensures Tidy(Run(acts))
    decreases |acts|
  {
    if acts != [] {
      RunsAreTidy(acts[..|acts| - 1]);
      RunsAreSound(acts[..|acts| - 1]);
      StepTidy(Run(acts[..|acts| - 1]), acts[|acts| - 1]);
    }
  }

  /** In every reachable state a conflict is overlooked exactly in two cases: the manifest left an
      undecodable document in the slot, or a command was recorded by hand before its manifest and
      nothing else is staged. */
  lemma OverlookedExactly(acts: seq<Action>, slot: Slot, doc: Doc)
    requires Conflicts(Run(acts), slot, doc)
    ensures var t := Run(acts);
      !Looks(t, slot, doc) <==>
        if slot.session in t.manifests then slot !in t.commands && slot in t.pending && !t.pending[slot].content.Text?
        else slot in t.commands && (slot in t.pending ==> t.pending[slot] == doc)
  {
    RunsAreTidy(acts);
    RunsAreSound(acts);
  }

  /** A run that reaches the first case: the slot's first document does not decode, its manifest
      comes, and a different document is recorded without any blocking issue. */
  lemma OverlookedReachable(slot: Slot, bad: Doc, m: Manifest, doc: Doc, now: Time)
    requires !bad.content.Text? && doc.content.Text? && slot.number > 0
    ensures var acts := [SeeCommand(slot, bad), SeeManifest(slot.session, m, now)];
      && Conflicts(Run(acts), slot, doc) && !Looks(Run(acts), slot, doc)
      && !Blocked(Step(Run(acts), SeeCommand(slot, doc)))
      && IsIn(Step(Run(acts), SeeCommand(slot, doc)), slot, Discovered)
  {
    var a, b := SeeCommand(slot, bad), SeeManifest(slot.session, m, now);
    RunTwo(a, b);
    var t := Step(Empty, a);
    assert t.pending == map[slot := bad];
    assert Promotable(t, slot.session) == {} && Promotable(WithManifest(t, slot.session, m, now), slot.session) == {};
    assert forall k :: k in Obstacles(WithManifest(t, slot.session, m, now), slot.session) ==> !IsCollision(k.code);
  }

  /** The same bytes under another commit are a differing document: no run claims anything after one. */
  lemma RecommittedFreezes(acts: seq<Action>, i: nat, j: nat, commit: Sha)
    requires i < j < |acts| && acts[i].SeeCommand? && acts[i].slot in At(acts, i).receipts
    requires At(acts, i).receipts[acts[i].slot] == Receipt(commit, Hash(acts[i].doc.content)) && commit != acts[i].doc.commit
    ensures ClaimAt(acts, j) == None
  {
    RunsAreTidy(acts[..i]);
    RunsAreSound(acts[..i]);
    CollisionFreezes(acts, i, j);
  }
}

/** The journal's scheduling and ingestion tables, and what each transaction does to them. */
module JournalTables {
  import opened Base
  import opened Models

  type SessionId = nat
  type Sha = nat
  type Time = nat

  /** Command `number` of a session; it fixes both the command id and the document path. */
  datatype Slot = Slot(session: SessionId, number: nat)

  /** Document bytes, told apart by whether they decode as UTF-8. */
  datatype Content = Text(text: string) | NotUtf8(raw: Bytes)
  /** The raw SHA-256 of a document, taken to be collision free. */
  datatype Hash = Hash(of: Content)

  datatype Doc = Doc(commit: Sha, content: Content)
  datatype Manifest = Manifest(commit: Sha, raw: Content, repository: nat, base: Sha, expires: Time)

  datatype Session = Session(repository: nat, base: Sha, state: SessionState, created: Time)
  datatype Command = Command(text: string, commit: Option<Sha>, state: CommandState)
  datatype Receipt = Receipt(commit: Sha, hash: Hash)

  datatype Source = ManifestFile(session: SessionId) | CommandFile(slot: Slot) | OtherFile(name: string)
  datatype Code = SessionIdCollision | CommandIdCollision | SequenceCollision
                | BadPayload | CorruptJournal | OtherCode(name: string)
  datatype IssueKey = IssueKey(source: Source, code: Code, hash: Hash)

  predicate IsCollision(c: Code) { c in {SessionIdCollision, CommandIdCollision, SequenceCollision} }

  datatype Tables = Tables(
    sessions: map<SessionId, Session>,
    manifests: map<SessionId, Manifest>,
    commands: map<Slot, Command>,
    receipts: map<Slot, Receipt>,
    pending: map<Slot, Doc>,
    issues: map<IssueKey, bool>)

  const Empty: Tables := Tables(map[], map[], map[], map[], map[], map[])

  /** An issue row is written once; its key is unique. */
  function AddIssue(issues: map<IssueKey, bool>, k: IssueKey, blocking: bool): map<IssueKey, bool> {
    if k in issues then issues else issues[k := blocking]
  }

  predicate Blocked(t: Tables) {
    exists k :: k in t.issues && t.issues[k]
  }

  function CommandIssue(slot: Slot, code: Code, doc: Doc): IssueKey {
    IssueKey(CommandFile(slot), code, Hash(doc.content))
  }

  function Fresh(doc: Doc): Command
    requires doc.content.Text?
  {
    Command(doc.content.text, Some(doc.commit), Discovered)
  }

  function ReceiptFor(doc: Doc): Receipt { Receipt(doc.commit, Hash(doc.content)) }

  // ----- Promotion of staged documents -----

  function Staged(t: Tables, sid: SessionId): set<Slot> {
    set s | s in t.pending && s.session == sid
  }

  function Promotable(t: Tables, sid: SessionId): set<Slot> {
    set s | s in t.pending && s.session == sid && s !in t.commands && t.pending[s].content.Text?
  }

  /** The issue a staged document that cannot be promoted leaves. */
  function Obstacle(t: Tables, s: Slot): IssueKey
    requires s in t.pending
  {
    CommandIssue(s, if s in t.commands then SequenceCollision else BadPayload, t.pending[s])
  }

  function Obstacles(t: Tables, sid: SessionId): set<IssueKey> {
    set s | s in t.pending && s.session == sid && s !in Promotable(t, sid) :: Obstacle(t, s)
  }

  function CommandRows(pending: map<Slot, Doc>, ready: set<Slot>): map<Slot, Command>
    requires forall s :: s in ready ==> s in pending && pending[s].content.Text?
  {
    map s | s in ready :: Fresh(pending[s])
  }

  function ReceiptRows(pending: map<Slot, Doc>, ready: set<Slot>): map<Slot, Receipt>
    requires ready <= pending.Keys
  {
    map s | s in ready :: ReceiptFor(pending[s])
  }

  function IssueRows(keys: set<IssueKey>): map<IssueKey, bool> {
    map k | k in keys :: IsCollision(k.code)
  }

  /** The documents in `ready` become commands; the issues in `keys` are noted. */
  function PromotedPart(t: Tables, ready: set<Slot>, keys: set<IssueKey>): Tables
    requires forall s :: s in ready ==> s in t.pending && t.pending[s].content.Text?
  {
    t.(commands := t.commands + CommandRows(t.pending, ready),
       receipts := t.receipts + ReceiptRows(t.pending, ready),
       pending := t.pending - ready,
       issues := IssueRows(keys) + t.issues)
  }

  /** All staged documents of a session at once: promoted when they decode and the slot is free. */
  function Promoted(t: Tables, sid: SessionId): Tables {
    PromotedPart(t, Promotable(t, sid), Obstacles(t, sid))
  }

  /** The schema's CHECK (sequence > 0) makes the promotion transaction fail. */
  predicate PromotionFails(t: Tables, sid: SessionId) {
    Slot(sid, 0) in Promotable(t, sid)
  }

  // ----- Transactions -----

  /** The transactions that touch these tables. Parse failures and rejections carry a code of their
      own, never a collision code; only the scheduler moves a command to Claimed. */
  datatype Action =
    | CreateSession(sid: SessionId, repository: nat, base: Sha, now: Time)
    | RecordCommand(slot: Slot, text: string, commit: Option<Sha>)
    | SeeManifest(sid: SessionId, manifest: Manifest, now: Time)
    | SeeCommand(slot: Slot, doc: Doc)
    | SeeInvalid(source: Source, code: Code, content: Content)
    | Validate(slot: Slot, text: string)
    | Reject(slot: Slot, code: Code)
    | ExpireCommand(slot: Slot)
    | ExpireSession(sid: SessionId)
    | Claim(now: Time)
    | MoveCommand(slot: Slot, from: CommandState, to: CommandState)
    | MoveSession(sid: SessionId, before: SessionState, after: SessionState)
    | BlockRecovery(slot: Slot)

  /** Manifest arrival: first sight creates the rows and promotes; the same document only promotes again. */
  function SawManifest(t: Tables, sid: SessionId, m: Manifest, now: Time): Tables {
    if sid in t.manifests && t.manifests[sid] != m
    then Collides(t, sid, m)
    else if sid !in t.manifests && sid in t.sessions
            && (t.sessions[sid].repository != m.repository || t.sessions[sid].base != m.base)
    then Collides(t, sid, m)
    else if PromotionFails(t, sid)
    then t.(issues := AddIssue(t.issues, IssueKey(ManifestFile(sid), CorruptJournal, Hash(m.raw)), false))
    else Promoted(WithManifest(t, sid, m, now), sid)
  }

  function Collides(t: Tables, sid: SessionId, m: Manifest): Tables {
    t.(issues := AddIssue(t.issues, IssueKey(ManifestFile(sid), SessionIdCollision, Hash(m.raw)), true))
  }

  function WithManifest(t: Tables, sid: SessionId, m: Manifest, now: Time): Tables {
    t.(sessions := if sid in t.sessions then t.sessions
                   else t.sessions[sid := Session(m.repository, m.base, Created, now)],
       manifests := t.manifests[sid := m])
  }

  /** Command document arrival: staged before the manifest, recorded after it, never overwritten. */
  function SawCommand(t: Tables, slot: Slot, doc: Doc): Tables {
    if slot.session in t.manifests then RecordDocument(t, slot, doc)
    else if slot !in t.pending then t.(pending := t.pending[slot := doc])
    else if t.pending[slot] == doc then t
    else WithIssue(t, CommandIssue(slot, SequenceCollision, doc), true)
  }

  function WithIssue(t: Tables, k: IssueKey, blocking: bool): Tables {
    t.(issues := AddIssue(t.issues, k, blocking))
  }

  function RecordDocument(t: Tables, slot: Slot, doc: Doc): Tables {
    if slot in t.receipts then
      if t.receipts[slot] == ReceiptFor(doc) then t
      else WithIssue(t, CommandIssue(slot, CommandIdCollision, doc), true)
    else if slot in t.commands then
      if doc.content == Text(t.commands[slot].text) && t.commands[slot].commit == Some(doc.commit)
      then t.(receipts := t.receipts[slot := ReceiptFor(doc)])
      else WithIssue(t, CommandIssue(slot, SequenceCollision, doc), true)
    else if !doc.content.Text? then WithIssue(t, CommandIssue(slot, BadPayload, doc), false)
    else if slot.number == 0 then WithIssue(t, CommandIssue(slot, CorruptJournal, doc), false)
    else t.(commands := t.commands[slot := Fresh(doc)], receipts := t.receipts[slot := ReceiptFor(doc)])
  }

  function SetState(t: Tables, slot: Slot, s: CommandState): Tables
    requires slot in t.commands
  {
    t.(commands := t.commands[slot := t.commands[slot].(state := s)])
  }

  function SetSession(t: Tables, sid: SessionId, s: SessionState): Tables
    requires sid in t.sessions
  {
    t.(sessions := t.sessions[sid := t.sessions[sid].(state := s)])
  }

  predicate IsIn(t: Tables, slot: Slot, s: CommandState) {
    slot in t.commands && t.commands[slot].state == s
  }

  /** An expired session that never started is aborted, and its undecided commands expire. */
  function SessionExpired(t: Tables, sid: SessionId): Tables {
    if sid !in t.sessions || t.sessions[sid].state !in {Created, Aborted} then t
    else
      SetSession(t, sid, Aborted).(commands := ExpireAll(t.commands, sid))
  }

  function ExpireAll(commands: map<Slot, Command>, sid: SessionId): map<Slot, Command> {
    map s | s in commands ::
      if s.session == sid && commands[s].state == Discovered then commands[s].(state := Expired) else commands[s]
  }

  // ----- The single-queue claim -----

  predicate Older(t: Tables, a: SessionId, b: SessionId)
    requires a in t.sessions && b in t.sessions
  {
    t.sessions[a].created < t.sessions[b].created || (t.sessions[a].created == t.sessions[b].created && a <= b)
  }

  predicate Startable(t: Tables, sid: SessionId) {
    sid in t.sessions && t.sessions[sid].state == Created && IsIn(t, Slot(sid, 1), Validated)
  }

  predicate Running(t: Tables, sid: SessionId) {
    sid in t.sessions && IsRunning(t.sessions[sid].state)
  }

  /** The oldest running session, or else the oldest one that can start. */
  ghost predicate Target(t: Tables, sid: SessionId) {
    if exists r :: Running(t, r)
    then Running(t, sid) && forall r :: Running(t, r) ==> Older(t, sid, r)
    else Startable(t, sid) && forall r :: Startable(t, r) ==> Older(t, sid, r)
  }

  ghost predicate Idle(t: Tables) {
    forall s :: s in t.commands ==> !IsWorker(t.commands[s].state)
  }

  /** Everything before the slot is there and done. */
  ghost predicate Cleared(t: Tables, slot: Slot) {
    forall i :: 1 <= i < slot.number ==> Slot(slot.session, i) in t.commands && IsDone(t.commands[Slot(slot.session, i)].state)
  }

  ghost predicate Lowest(t: Tables, slot: Slot) {
    IsIn(t, slot, Validated) && forall s: Slot :: s.session == slot.session && IsIn(t, s, Validated) ==> slot.number <= s.number
  }

  ghost predicate Claimable(t: Tables, now: Time, slot: Slot) {
    && !Blocked(t) && Idle(t)
    && Target(t, slot.session)
    && (slot.session in t.manifests ==> now < t.manifests[slot.session].expires)
    && Lowest(t, slot) && Cleared(t, slot)
  }

  function TakeClaim(t: Tables, slot: Slot): Tables
    requires slot in t.commands && slot.session in t.sessions
  {
    var u := SetState(t, slot, Claimed);
    if t.sessions[slot.session].state == Created then SetSession(u, slot.session, Active) else u
  }

  ghost function Choice(t: Tables, now: Time): (r: Option<Slot>)
    ensures r.Some? ==> Claimable(t, now, r.value)
    ensures r.None? ==> forall s :: !Claimable(t, now, s)
  {
    if s :| Claimable(t, now, s) then Some(s) else None
  }

  // ----- One transaction -----

  predicate MayMoveSession(t: Tables, sid: SessionId, before: SessionState, after: SessionState) {
    && sid in t.sessions && t.sessions[sid].state == before && after in SessionSuccessors(before)
    && (IsRunning(after) ==> forall r :: r in t.sessions && r != sid ==> !Running(t, r))
  }

  predicate MayMoveCommand(t: Tables, slot: Slot, from: CommandState, to: CommandState) {
    && IsIn(t, slot, from) && to in CommandSuccessors(from)
    && (IsWorker(to) ==> forall s :: s in t.commands && s != slot ==> !IsWorker(t.commands[s].state))
  }

  predicate MayBlock(t: Tables, slot: Slot) {
    && slot in t.commands && slot.session in t.sessions
    && (IsTerminal(t.commands[slot].state) || ManualReconciliation in CommandSuccessors(t.commands[slot].state))
    && (IsSessionTerminal(t.sessions[slot.session].state)
        || SessionManual in SessionSuccessors(t.sessions[slot.session].state))
  }

  function CommandToManual(c: Command): Command { if IsTerminal(c.state) then c else c.(state := ManualReconciliation) }
  function SessionToManual(s: Session): Session { if IsSessionTerminal(s.state) then s else s.(state := SessionManual) }

  /** Moves command and session to manual reconciliation, where the tables allow both. */
  function RecoveryBlocked(t: Tables, slot: Slot): Tables {
    if !MayBlock(t, slot) then t
    else t.(commands := t.commands[slot := CommandToManual(t.commands[slot])],
            sessions := t.sessions[slot.session := SessionToManual(t.sessions[slot.session])])
  }

  ghost function Step(t: Tables, a: Action): Tables {
    match a
    case CreateSession(sid, repository, base, now) =>
      if sid in t.sessions then t else t.(sessions := t.sessions[sid := Session(repository, base, Created, now)])
    case RecordCommand(slot, text, commit) =>
      if slot in t.commands || slot.number == 0 || slot.session !in t.sessions then t
      else t.(commands := t.commands[slot := Command(text, commit, Discovered)])
    case SeeManifest(sid, m, now) => SawManifest(t, sid, m, now)
    case SeeCommand(slot, doc) => SawCommand(t, slot, doc)
    case SeeInvalid(source, code, content) =>
      if IsCollision(code) then t else t.(issues := AddIssue(t.issues, IssueKey(source, code, Hash(content)), false))
    case Validate(slot, text) =>
      if !IsIn(t, slot, Discovered) || slot !in t.receipts then t
      else t.(commands := t.commands[slot := t.commands[slot].(text := text, state := Validated)])
    case Reject(slot, code) =>
      if !IsIn(t, slot, Discovered) || slot !in t.receipts || IsCollision(code) then t
      else
        SetState(t, slot, Rejected).(
          issues := AddIssue(t.issues, IssueKey(CommandFile(slot), code, t.receipts[slot].hash), false))
    case ExpireCommand(slot) => if IsIn(t, slot, Discovered) then SetState(t, slot, Expired) else t
    case ExpireSession(sid) => SessionExpired(t, sid)
    case Claim(now) =>
      var c := Choice(t, now);
      if c.Some? && c.value.session in t.sessions then TakeClaim(t, c.value) else t
    case MoveCommand(slot, from, to) =>
      if to == Claimed || !MayMoveCommand(t, slot, from, to) then t else SetState(t, slot, to)
    case MoveSession(sid, before, after) =>
      if MayMoveSession(t, sid, before, after) then SetSession(t, sid, after) else t
    case BlockRecovery(slot) => RecoveryBlocked(t, slot)
  }
}

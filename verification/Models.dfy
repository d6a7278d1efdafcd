/** Command and session life cycles: the transition tables and the state classes built on them. */
module Models {
  datatype CommandState =
    | Discovered | Validated | Claimed | Executing | EffectRecorded | ResultStaged | ResultPublished
    | Acknowledged | Rejected | Expired | PolicyDenied | StaleRevision | StateMismatch
    | ManualReconciliation | Cancelled

  datatype SessionState = Created | Active | Completing | Completed | Aborted | SessionManual

  /** What a test-profile run ends with. */
  datatype ProfileStatus = Success | Failed | Timeout | InternalError

  /** The command table with the denial edges out of Claimed that the recovery API installs. */
  function CommandSuccessors(s: CommandState): set<CommandState> {
    match s
    case Discovered => {Validated, Rejected, Expired}
    case Validated => {Claimed, PolicyDenied, StaleRevision, StateMismatch, Cancelled}
    case Claimed =>
      {Executing, Cancelled, ManualReconciliation, StaleRevision, StateMismatch, PolicyDenied}
    case Executing => {EffectRecorded, ResultStaged, Cancelled, ManualReconciliation}
    case EffectRecorded => {ResultStaged, ManualReconciliation}
    case ResultStaged => {ResultPublished, ManualReconciliation}
    case ResultPublished => {Acknowledged}
    case _ => {}
  }

  function SessionSuccessors(s: SessionState): set<SessionState> {
    match s
    case Created => {Active, Aborted}
    case Active => {Completing, Aborted, SessionManual}
    case Completing => {Completed, Aborted, SessionManual}
    case _ => {}
  }

  /** A state is terminal exactly if nothing may follow it, for commands and for sessions. */
  lemma TerminalExactly(s: CommandState, t: SessionState)
    ensures IsTerminal(s) <==> CommandSuccessors(s) == {}
    ensures IsSessionTerminal(t) <==> SessionSuccessors(t) == {}
  {
    assert s.Discovered? ==> Validated in CommandSuccessors(s);
    assert s.Validated? ==> Claimed in CommandSuccessors(s);
    assert s.Claimed? ==> Executing in CommandSuccessors(s);
    assert s.Executing? ==> EffectRecorded in CommandSuccessors(s);
    assert s.EffectRecorded? ==> ResultStaged in CommandSuccessors(s);
    assert s.ResultStaged? ==> ResultPublished in CommandSuccessors(s);
    assert s.ResultPublished? ==> Acknowledged in CommandSuccessors(s);
    assert t.Created? ==> Active in SessionSuccessors(t);
    assert t.Active? ==> Completing in SessionSuccessors(t);
    assert t.Completing? ==> Completed in SessionSuccessors(t);
  }

  /** States in which a command occupies the single worker slot. */
  predicate IsWorker(s: CommandState) {
    s in {Claimed, Executing, EffectRecorded}
  }

  /** States in which a predecessor no longer holds back its successors. */
  predicate IsDone(s: CommandState) {
    s in {ResultStaged, ResultPublished, Acknowledged, Rejected, Expired, PolicyDenied,
          StaleRevision, StateMismatch, ManualReconciliation, Cancelled}
  }

  predicate IsTerminal(s: CommandState) {
    s in {Acknowledged, Rejected, Expired, PolicyDenied, StaleRevision, StateMismatch,
          ManualReconciliation, Cancelled}
  }

  predicate IsRunning(s: SessionState) {
    s in {Active, Completing}
  }

  predicate IsSessionTerminal(s: SessionState) {
    s in {Completed, Aborted, SessionManual}
  }
}

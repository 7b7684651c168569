/** The store object whose methods change script sessions, each against the functions of
    ScriptRuns, and its recovery against ScriptRecovery.  Histories of calls are in EventReader. */
module ScriptStore {
  import opened Wrappers
  import opened Hashing
  import opened ScriptRuns
  import opened ScriptRecovery

  class ScriptRunStore {
    const sha: TextSha256
    var sessions: Sessions
    /** The state after each committed transaction, oldest first. */
    ghost var commits: seq<Sessions>

    constructor (sha: TextSha256)
      ensures this.sha == sha && sessions == map[] && commits == []
    {
      this.sha := sha;
      sessions, commits := map[], [];
    }

    ghost predicate Valid()
      reads this
    {
      AllSound(sessions)
    }

    method AppendEvent(runId: string, sequence: int, e: Event) returns (r: Result<Event, Conflict>)
      modifies this`sessions, this`commits
      ensures match Append(sha, old(sessions), runId, sequence, e)
              case Ok(after) =>
                && sessions == after && commits == old(commits) + [after]
                && r == Ok(after[runId].log[sequence])
              case Err(c) => sessions == old(sessions) && commits == old(commits) && r == Err(c)
    {
      if !KnownEventType(e.eventType) {
        return Err(EventTypeInvalid);
      }
      if runId in sessions && sequence in sessions[runId].log {
        var existing := sessions[runId].log[sequence];
        if existing.eventType != e.eventType || PayloadHash(sha, existing.payload) != PayloadHash(sha, e.payload) {
          return Err(SequenceConflict);
        }
        commits := commits + [sessions];
        return Ok(existing);
      }
      if runId !in sessions {
        return Err(NotFound);
      }
      var current := sessions[runId];
      if sequence != current.run.lastSequence + 1 {
        return Err(SequenceConflict);
      }
      var log := current.log[sequence := e];
      var run := current.run.(lastSequence := sequence, characterCount := current.run.characterCount + TextLength(e));
      sessions := sessions[runId := Session(run, log)];
      commits := commits + [sessions];
      return Ok(e);
    }

    method TransitionRun(runId: string, expected: set<Status>, status: Status,
                         revisionId: string, errorCode: string, evidence: string)
      returns (r: Result<Run, Conflict>)
      modifies this`sessions, this`commits
      ensures match Transition(old(sessions), runId, expected, status, revisionId, errorCode, evidence)
              case Ok(after) =>
                sessions == after && commits == old(commits) + [after] && r == Ok(after[runId].run)
              case Err(c) => sessions == old(sessions) && commits == old(commits) && r == Err(c)
    {
      if runId !in sessions || sessions[runId].run.status !in expected {
        return Err(StatusConflict);
      }
      sessions := sessions[runId := Moved(sessions[runId], status, revisionId, errorCode, evidence)];
      commits := commits + [sessions];
      return Ok(sessions[runId].run);
    }

    /** Succeeds for one caller only: afterwards the run is no longer prepared. */
    method ClaimRun(runId: string) returns (claimed: bool)
      modifies this`sessions, this`commits
      ensures claimed <==> runId in old(sessions) && old(sessions)[runId].run.status == Prepared
      ensures claimed ==>
                sessions == old(sessions)[runId := old(sessions)[runId].(run := old(sessions)[runId].run.(status := Submitting))]
      ensures !claimed ==> sessions == old(sessions)
      ensures commits == old(commits) + [sessions]
    {
      claimed := runId in sessions && sessions[runId].run.status == Prepared;
      if claimed {
        var s := sessions[runId];
        sessions := sessions[runId := s.(run := s.run.(status := Submitting))];
      }
      commits := commits + [sessions];
    }

    /** The terminal event recovery owes a run, unless the run already has one of its type. */
    method NoteOutcome(rt: Runtime, r: string, ghost start: Sessions, ghost earlier: seq<Sessions>)
      requires Valid() && Journal(rt, start, earlier, commits, sessions)
      requires r in sessions && Pending(sessions[r])
      modifies this`sessions, this`commits
      ensures Valid() && Journal(rt, start, earlier, commits, sessions)
      ensures sessions == old(sessions)[r := WithOwedEvent(rt, old(sessions)[r])]
    {
      var session := sessions[r];
      var event := OwedEvent(rt, session);
      if !HasEvent(session, event.eventType) {
        RecordKeepsLogSound(session, event);
        EventCommitExtends(rt, start, earlier, commits, sessions, r);
        var _ := AppendEvent(r, session.run.lastSequence + 1, event);
      }
    }

    /** One finalizing run whose outcome the runtime tables know: its terminal event, then its status. */
    method CloseFinalizing(rt: Runtime, r: string, ghost start: Sessions, ghost earlier: seq<Sessions>)
      requires Valid() && Journal(rt, start, earlier, commits, sessions)
      requires r in sessions && sessions[r].run.status == Finalizing && !JudgeSession(rt, sessions[r]).Unresolved?
      modifies this`sessions, this`commits
      ensures Valid() && Journal(rt, start, earlier, commits, sessions)
      ensures sessions == old(sessions)[r := RecoveredSession(rt, old(sessions)[r])]
    {
      OwedEventRecorded(rt, sessions[r]);
      NoteOutcome(rt, r, start, earlier);
      CloseRun(rt, r, start, earlier);
    }

    /** The status transition once the terminal event is there. */
    method CloseRun(rt: Runtime, r: string, ghost start: Sessions, ghost earlier: seq<Sessions>)
      requires Valid() && Journal(rt, start, earlier, commits, sessions)
      requires r in sessions && sessions[r].run.status == Finalizing && !JudgeSession(rt, sessions[r]).Unresolved?
      requires HasEvent(sessions[r], OwedEvent(rt, sessions[r]).eventType)
      modifies this`sessions, this`commits
      ensures Valid() && Journal(rt, start, earlier, commits, sessions)
      ensures sessions == old(sessions)[r := Closed(rt, old(sessions)[r])]
    {
      ClosingTransition(rt, sessions, r);
      CloseCommitExtends(rt, start, earlier, commits, sessions, r);
      var evidence := sessions[r].run.evidence;
      match JudgeSession(rt, sessions[r]) {
        case Published(revisionId) => var _ := TransitionRun(r, {Finalizing}, Completed, revisionId, "", evidence);
        case Rejected(errorCode) => var _ := TransitionRun(r, {Finalizing}, Failed, "", errorCode, evidence);
      }
    }

    /** First loop: the runs that were finalizing and whose outcome is known. */
    method ResolveFinalizing(rt: Runtime, ghost start: Sessions, ghost earlier: seq<Sessions>)
      requires Valid() && sessions == start && commits == earlier
      modifies this`sessions, this`commits
      ensures Valid() && Journal(rt, start, earlier, commits, sessions)
      ensures FirstDone(rt, start, sessions, {})
    {
      var todo := set r | r in sessions && sessions[r].run.status == Finalizing;
      while todo != {}
        invariant Valid() && FirstDone(rt, start, sessions, todo) && Journal(rt, start, earlier, commits, sessions)
        decreases todo
      {
        var r :| r in todo;
        FirstStep(rt, start, sessions, todo, r);
        if !JudgeSession(rt, sessions[r]).Unresolved? {
          CloseFinalizing(rt, r, start, earlier);
        }
        todo := todo - {r};
      }
    }

    /** Second loop: every run still pending gets a failed event unless it has one. */
    method NoteUnresolved(rt: Runtime, ghost start: Sessions, ghost earlier: seq<Sessions>)
      requires Valid() && Journal(rt, start, earlier, commits, sessions)
      requires forall r :: r in sessions && Pending(sessions[r]) ==> JudgeSession(rt, sessions[r]).Unresolved?
      modifies this`sessions, this`commits
      ensures Valid() && Journal(rt, start, earlier, commits, sessions)
      ensures SecondDone(rt, old(sessions), sessions, {})
    {
      ghost var before := sessions;
      var todo := set r | r in sessions && Pending(sessions[r]);
      while todo != {}
        invariant Valid() && SecondDone(rt, before, sessions, todo) && Journal(rt, start, earlier, commits, sessions)
        decreases todo
      {
        var r :| r in todo;
        SecondStep(rt, before, sessions, todo, r);
        NoteOutcome(rt, r, start, earlier);
        todo := todo - {r};
      }
    }

    /** The closing UPDATE over every run that is still pending. */
    method Sweep(rt: Runtime, ghost start: Sessions, ghost earlier: seq<Sessions>) returns (unknown: nat)
      requires Valid() && Journal(rt, start, earlier, commits, sessions) && ReadyToSweep(rt, sessions)
      modifies this`sessions, this`commits
      ensures Journal(rt, start, earlier, commits, sessions)
      ensures sessions == Swept(rt, old(sessions))
      ensures unknown == |set r | r in old(sessions) && Pending(old(sessions)[r])|
    {
      var pending := set r | r in sessions && Pending(sessions[r]);
      JournalExtends(rt, start, earlier, commits, sessions, Swept(rt, sessions));
      sessions := map r | r in sessions ::
        if r in pending
        then sessions[r].(run := sessions[r].run.(status := UnknownOutcome, errorCode := UNKNOWN))
        else sessions[r];
      assert sessions == Swept(rt, old(sessions));
      commits := commits + [sessions];
      unknown := |pending|;
    }

    /** Every intermediate commit is one of recovery's transactions, so by
        ScriptRecovery.RecoveryIsRestartable a crash after any of them is harmless. */
    method RecoverRuns(rt: Runtime) returns (unknown: nat)
      requires Valid()
      modifies this`sessions, this`commits
      ensures sessions == Recovered(rt, old(sessions)) && Valid()
      ensures unknown == |UnknownOutcomes(rt, old(sessions))|
      ensures Journal(rt, old(sessions), old(commits), commits, sessions)
    {
      ghost var start, earlier := sessions, commits;
      JournalStarts(rt, start, earlier);
      ResolveFinalizing(rt, start, earlier);
      ghost var middle := sessions;
      FirstLoopLeaves(rt, start, middle);
      NoteUnresolved(rt, start, earlier);
      TwoLoopsReadyToSweep(rt, middle, sessions);
      SweepFinishes(rt, start, middle, sessions);
      unknown := Sweep(rt, start, earlier);
      RecoveryOutcome(rt, rt, start);
    }
  }

  /** What the store committed since `earlier`, when it stood at `start`, is a chain of recovery commits up to `now`. */
  ghost predicate Journal(rt: Runtime, start: Sessions, earlier: seq<Sessions>, commits: seq<Sessions>, now: Sessions) {
    && earlier <= commits
    && var states := [start] + commits[|earlier|..];
       CommitChain(rt, states) && states[|states| - 1] == now
  }

  lemma JournalExtends(rt: Runtime, start: Sessions, earlier: seq<Sessions>, commits: seq<Sessions>, a: Sessions, b: Sessions)
    requires Journal(rt, start, earlier, commits, a) && RecoveryCommit(rt, a, b)
    ensures Journal(rt, start, earlier, commits + [b], b)
  {
    var states := [start] + commits[|earlier|..];
    var longer := [start] + (commits + [b])[|earlier|..];
    assert longer == states + [b];
    forall i | 0 <= i < |longer| - 1 ensures RecoveryCommit(rt, longer[i], longer[i + 1]) {
      if i < |states| - 1 { assert RecoveryCommit(rt, states[i], states[i + 1]); }
    }
  }

  lemma JournalStarts(rt: Runtime, start: Sessions, earlier: seq<Sessions>)
    ensures Journal(rt, start, earlier, earlier, start)
  {
  }

  lemma EventCommitExtends(rt: Runtime, start: Sessions, earlier: seq<Sessions>, commits: seq<Sessions>, a: Sessions, r: string)
    requires Journal(rt, start, earlier, commits, a)
    requires r in a && Pending(a[r]) && !HasEvent(a[r], OwedEvent(rt, a[r]).eventType)
    ensures var b := a[r := Record(a[r], OwedEvent(rt, a[r]))];
            Journal(rt, start, earlier, commits + [b], b)
  {
    var b := a[r := Record(a[r], OwedEvent(rt, a[r]))];
    assert EventCommit(rt, a, b, r);
    JournalExtends(rt, start, earlier, commits, a, b);
  }

  lemma CloseCommitExtends(rt: Runtime, start: Sessions, earlier: seq<Sessions>, commits: seq<Sessions>, a: Sessions, r: string)
    requires Journal(rt, start, earlier, commits, a)
    requires r in a && Pending(a[r]) && HasEvent(a[r], OwedEvent(rt, a[r]).eventType)
    requires !JudgeSession(rt, a[r]).Unresolved?
    ensures var b := a[r := Closed(rt, a[r])];
            Journal(rt, start, earlier, commits + [b], b)
  {
    var b := a[r := Closed(rt, a[r])];
    assert CloseCommit(rt, a, b, r);
    JournalExtends(rt, start, earlier, commits, a, b);
  }

  /** The transition that closes a finalizing session. */
  lemma ClosingTransition(rt: Runtime, a: Sessions, r: string)
    requires r in a && a[r].run.status == Finalizing
    ensures match JudgeSession(rt, a[r])
            case Published(revisionId) =>
              Transition(a, r, {Finalizing}, Completed, revisionId, "", a[r].run.evidence) == Ok(a[r := Closed(rt, a[r])])
            case Rejected(errorCode) =>
              Transition(a, r, {Finalizing}, Failed, "", errorCode, a[r].run.evidence) == Ok(a[r := Closed(rt, a[r])])
            case Unresolved => true
  {
  }

  // ---------- the two loops, session by session ----------

  /** Resolve a finalizing session whose outcome is known. */
  function FirstPass(rt: Runtime, s: Session): Session {
    if JudgeSession(rt, s).Unresolved? then s else RecoveredSession(rt, s)
  }

  function SecondPass(rt: Runtime, s: Session): Session {
    if Pending(s) then WithOwedEvent(rt, s) else s
  }

  /** The first loop has dealt with every session but those still to do; the others it need not touch. */
  ghost predicate FirstDone(rt: Runtime, start: Sessions, now: Sessions, todo: set<string>) {
    && now.Keys == start.Keys && (forall r :: r in todo ==> r in start && start[r].run.status == Finalizing)
    && forall r :: r in start ==> now[r] == if r in todo then start[r] else FirstPass(rt, start[r])
  }

  ghost predicate SecondDone(rt: Runtime, before: Sessions, now: Sessions, todo: set<string>) {
    && now.Keys == before.Keys && (forall r :: r in todo ==> r in before && Pending(before[r]))
    && forall r :: r in before ==> now[r] == if r in todo then before[r] else SecondPass(rt, before[r])
  }

  lemma FirstStep(rt: Runtime, start: Sessions, now: Sessions, todo: set<string>, r: string)
    requires FirstDone(rt, start, now, todo) && r in todo
    ensures r in now && now[r] == start[r] && now[r].run.status == Finalizing
    ensures FirstDone(rt, start, now[r := FirstPass(rt, start[r])], todo - {r})
    ensures JudgeSession(rt, now[r]).Unresolved? ==> now[r := FirstPass(rt, start[r])] == now
    ensures !JudgeSession(rt, now[r]).Unresolved? ==> FirstPass(rt, start[r]) == RecoveredSession(rt, now[r])
  {
  }

  lemma SecondStep(rt: Runtime, before: Sessions, now: Sessions, todo: set<string>, r: string)
    requires SecondDone(rt, before, now, todo) && r in todo
    ensures r in now && now[r] == before[r] && Pending(now[r])
    ensures SecondDone(rt, before, now[r := WithOwedEvent(rt, now[r])], todo - {r})
  {
  }

  lemma FirstLoopLeaves(rt: Runtime, start: Sessions, middle: Sessions)
    requires FirstDone(rt, start, middle, {})
    ensures forall r :: r in middle && Pending(middle[r]) ==> JudgeSession(rt, middle[r]).Unresolved?
  {
  }

  lemma TwoLoopsReadyToSweep(rt: Runtime, middle: Sessions, s2: Sessions)
    requires forall r :: r in middle && Pending(middle[r]) ==> JudgeSession(rt, middle[r]).Unresolved?
    requires SecondDone(rt, middle, s2, {})
    ensures ReadyToSweep(rt, s2)
  {
    forall r | r in s2 && Pending(s2[r])
      ensures JudgeSession(rt, s2[r]).Unresolved? && HasEvent(s2[r], "failed")
    {
      if !HasEvent(middle[r], "failed") { OwedEventRecorded(rt, middle[r]); }
    }
  }

  /** The three passes over one session. */
  lemma PassesFinish(rt: Runtime, s: Session)
    ensures var t := SecondPass(rt, FirstPass(rt, s));
            && SweptSession(rt, t) == RecoveredSession(rt, s)
            && (Pending(t) <==> Pending(s) && JudgeSession(rt, s).Unresolved?)
  {
  }

  lemma SweepFinishes(rt: Runtime, start: Sessions, middle: Sessions, s2: Sessions)
    requires FirstDone(rt, start, middle, {}) && SecondDone(rt, middle, s2, {})
    ensures Swept(rt, s2) == Recovered(rt, start)
    ensures (set r | r in s2 && Pending(s2[r])) == UnknownOutcomes(rt, start)
  {
    forall r | r in start
      ensures SweptSession(rt, s2[r]) == RecoveredSession(rt, start[r])
      ensures Pending(s2[r]) <==> Pending(start[r]) && JudgeSession(rt, start[r]).Unresolved?
    {
      PassesFinish(rt, start[r]);
    }
  }
}

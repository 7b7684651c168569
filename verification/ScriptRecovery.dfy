/** Recovery of script runs as a chain of committed transactions: whatever prefix of it a
    crash leaves behind, running it again reaches the state of one uninterrupted run
    (ai_drama_web/store.py, recover_script_generation_runs). */
module ScriptRecovery {
  import opened ScriptRuns

  // ---------- the transactions recovery commits ----------

  ghost predicate EventCommit(rt: Runtime, a: Sessions, b: Sessions, r: string) {
    && r in a && Pending(a[r]) && !HasEvent(a[r], OwedEvent(rt, a[r]).eventType)
    && b == a[r := Record(a[r], OwedEvent(rt, a[r]))]
  }

  ghost predicate CloseCommit(rt: Runtime, a: Sessions, b: Sessions, r: string) {
    && r in a && Pending(a[r]) && HasEvent(a[r], OwedEvent(rt, a[r]).eventType)
    && !JudgeSession(rt, a[r]).Unresolved?
    && b == a[r := Closed(rt, a[r])]
  }

  /** The last UPDATE: every run still pending becomes unknown_outcome. */
  function Swept(rt: Runtime, a: Sessions): Sessions {
    map r | r in a :: SweptSession(rt, a[r])
  }

  function SweptSession(rt: Runtime, s: Session): Session {
    if Pending(s) then Closed(rt, s) else s
  }

  ghost predicate ReadyToSweep(rt: Runtime, a: Sessions) {
    forall r :: r in a && Pending(a[r]) ==> JudgeSession(rt, a[r]).Unresolved? && HasEvent(a[r], "failed")
  }

  ghost predicate RecoveryCommit(rt: Runtime, a: Sessions, b: Sessions) {
    || (exists r :: EventCommit(rt, a, b, r))
    || (exists r :: CloseCommit(rt, a, b, r))
    || (ReadyToSweep(rt, a) && b == Swept(rt, a))
  }

  /** States that follow one another by committed transactions of recovery. */
  ghost predicate CommitChain(rt: Runtime, states: seq<Sessions>) {
    forall i :: 0 <= i < |states| - 1 ==> RecoveryCommit(rt, states[i], states[i + 1])
  }

  ghost predicate Settled(ss: Sessions) {
    forall r :: r in ss ==> !Pending(ss[r])
  }

  lemma OwedEventRecorded(rt: Runtime, s: Session)
    requires Pending(s)
    ensures var t := Record(s, OwedEvent(rt, s));
            && Pending(t) && OwedEvent(rt, t) == OwedEvent(rt, s)
            && HasEvent(t, OwedEvent(rt, s).eventType)
            && RecoveredSession(rt, t) == Closed(rt, t)
  {
    var t := Record(s, OwedEvent(rt, s));
    assert t.log[s.run.lastSequence + 1] == OwedEvent(rt, s);
  }

  lemma SameRecovered(rt: Runtime, a: Sessions, b: Sessions)
    requires a.Keys == b.Keys
    requires forall r :: r in a ==> RecoveredSession(rt, a[r]) == RecoveredSession(rt, b[r])
    ensures Recovered(rt, a) == Recovered(rt, b)
  {
  }

  lemma EventKeepsDestination(rt: Runtime, a: Sessions, b: Sessions, r: string)
    requires EventCommit(rt, a, b, r)
    ensures Recovered(rt, b) == Recovered(rt, a)
  {
    OwedEventRecorded(rt, a[r]);
    SameRecovered(rt, a, b);
  }

  lemma CloseKeepsDestination(rt: Runtime, a: Sessions, b: Sessions, r: string)
    requires CloseCommit(rt, a, b, r)
    ensures Recovered(rt, b) == Recovered(rt, a)
  {
    SameRecovered(rt, a, b);
  }

  lemma SweepKeepsDestination(rt: Runtime, a: Sessions)
    requires ReadyToSweep(rt, a)
    ensures Recovered(rt, Swept(rt, a)) == Recovered(rt, a)
  {
    SameRecovered(rt, a, Swept(rt, a));
  }

  /** No transaction of recovery changes the state recovery is heading for. */
  lemma CommitKeepsDestination(rt: Runtime, a: Sessions, b: Sessions)
    requires RecoveryCommit(rt, a, b)
    ensures Recovered(rt, b) == Recovered(rt, a)
  {
    if r :| EventCommit(rt, a, b, r) {
      EventKeepsDestination(rt, a, b, r);
    } else if r :| CloseCommit(rt, a, b, r) {
      CloseKeepsDestination(rt, a, b, r);
    } else {
      SweepKeepsDestination(rt, a);
    }
  }

  /** The same for any number of them, in any order and over any number of crashes. */
  lemma {:induction false} ChainKeepsDestination(rt: Runtime, states: seq<Sessions>)
    requires states != [] && CommitChain(rt, states)
    ensures Recovered(rt, states[|states| - 1]) == Recovered(rt, states[0])
  {
    if |states| > 1 {
      var front := states[..|states| - 1];
      ChainKeepsDestination(rt, front);
      CommitKeepsDestination(rt, front[|front| - 1], states[|states| - 1]);
    }
  }

  lemma SettledIsRecovered(rt: Runtime, ss: Sessions)
    ensures Settled(ss) <==> Recovered(rt, ss) == ss
  {
  }

  /** Restartability: however recovery is cut up by crashes and reordered, once no run is
      pending the state is the one that an uninterrupted recovery of the first state reaches. */
  lemma RecoveryIsRestartable(rt: Runtime, states: seq<Sessions>)
    requires states != [] && CommitChain(rt, states)
    ensures Settled(states[|states| - 1]) <==> states[|states| - 1] == Recovered(rt, states[0])
  {
    ChainKeepsDestination(rt, states);
    SettledIsRecovered(rt, states[|states| - 1]);
    RecoveredIsSettled(rt, states[0]);
  }

  lemma RecoveredIsSettled(rt: Runtime, ss: Sessions)
    ensures Settled(Recovered(rt, ss))
  {
  }

  /** A pending run always leaves recovery something to commit. */
  lemma RecoveryProgresses(rt: Runtime, ss: Sessions)
    ensures Settled(ss) || exists b :: b != ss && RecoveryCommit(rt, ss, b)
  {
    if !Settled(ss) {
      if r :| r in ss && Pending(ss[r]) && !HasEvent(ss[r], OwedEvent(rt, ss[r]).eventType) {
        var b := ss[r := Record(ss[r], OwedEvent(rt, ss[r]))];
        assert EventCommit(rt, ss, b, r);
        assert b[r].run.lastSequence != ss[r].run.lastSequence;
        assert RecoveryCommit(rt, ss, b);
      } else if r :| r in ss && Pending(ss[r]) && !JudgeSession(rt, ss[r]).Unresolved? {
        var b := ss[r := Closed(rt, ss[r])];
        assert CloseCommit(rt, ss, b, r);
        assert b[r].run.status != ss[r].run.status;
        assert RecoveryCommit(rt, ss, b);
      } else {
        var r :| r in ss && Pending(ss[r]);
        assert Swept(rt, ss)[r].run.status != ss[r].run.status;
        assert RecoveryCommit(rt, ss, Swept(rt, ss));
      }
    }
  }

  /** The runs recovery gives up on. */
  function UnknownOutcomes(rt: Runtime, ss: Sessions): set<string> {
    set r | r in ss && Pending(ss[r]) && JudgeSession(rt, ss[r]).Unresolved?
  }

  /** After recovery: nothing is pending, logs stay sound, each run gained at most one event, and
      recovering again changes nothing and counts nothing, whatever the runtime tables then say. */
  lemma RecoveryOutcome(rt: Runtime, rt': Runtime, ss: Sessions)
    requires AllSound(ss)
    ensures AllSound(Recovered(rt, ss)) && Settled(Recovered(rt, ss))
    ensures forall r :: r in ss ==> |Recovered(rt, ss)[r].log| <= |ss[r].log| + 1
    ensures Recovered(rt', Recovered(rt, ss)) == Recovered(rt, ss)
    ensures UnknownOutcomes(rt', Recovered(rt, ss)) == {}
  {
    var after := Recovered(rt, ss);
    forall r | r in ss ensures LogSound(after[r]) && |after[r].log| <= |ss[r].log| + 1 {
      RecoveredKeepsSound(rt, ss[r]);
    }
    RecoveredIsSettled(rt, ss);
    SettledIsRecovered(rt', after);
  }
}

/** Histories of script-run store calls, and the server-sent-events reader that polls the
    log while they happen (ai_drama_web/routers/scripts.py, event_stream). */
module EventReader {
  import opened Hashing
  import opened JsonText
  import opened ScriptRuns

  // ---------- histories ----------

  datatype Op =
    | CreateRun(runId: string, runtimeRunId: string)
    | ClaimRun(runId: string)
    | AppendEvent(runId: string, sequence: int, event: Event)
    | TransitionRun(runId: string, expected: set<Status>, status: Status,
                    revisionId: string, errorCode: string, evidence: string)
    | RecoverRuns(runtime: Runtime)

  function NewSession(runtimeRunId: string): Session {
    Session(Run(runtimeRunId, Prepared, 0, 0, "", "", ""), map[])
  }

  /** The state after one call; a call that raises leaves the state alone. */
  function Step(sha: TextSha256, ss: Sessions, op: Op): Sessions {
    match op
    case CreateRun(runId, runtimeRunId) =>
      if runId in ss then ss else ss[runId := NewSession(runtimeRunId)]
    case ClaimRun(runId) =>
      if runId in ss && ss[runId].run.status == Prepared
      then ss[runId := ss[runId].(run := ss[runId].run.(status := Submitting))] else ss
    case AppendEvent(runId, sequence, event) =>
      (match Append(sha, ss, runId, sequence, event) case Ok(after) => after case Err(_) => ss)
    case TransitionRun(runId, expected, status, revisionId, errorCode, evidence) =>
      (match Transition(ss, runId, expected, status, revisionId, errorCode, evidence)
       case Ok(after) => after case Err(_) => ss)
    case RecoverRuns(rt) => Recovered(rt, ss)
  }

  /** A run is created once, prepared and with an empty log; a claim moves a prepared run to submitting and
      touches nothing else. */
  lemma CreationByTables(sha: TextSha256, ss: Sessions, runId: string, runtimeRunId: string)
    ensures var after := Step(sha, ss, CreateRun(runId, runtimeRunId));
            if runId in ss then after == ss
            else
              && after.Keys == ss.Keys + {runId} && (forall r :: r in ss ==> after[r] == ss[r])
              && after[runId].log == map[] && after[runId].run.status == Prepared
              && after[runId].run.runtimeRunId == runtimeRunId && after[runId].run.lastSequence == 0
              && after[runId].run.characterCount == 0 && after[runId].run.revisionId == ""
              && after[runId].run.errorCode == "" && after[runId].run.evidence == ""
    ensures var after := Step(sha, ss, ClaimRun(runId));
            if runId in ss && ss[runId].run.status == Prepared then
              && after.Keys == ss.Keys && (forall r :: r in ss && r != runId ==> after[r] == ss[r])
              && after[runId].log == ss[runId].log && after[runId].run == ss[runId].run.(status := Submitting)
            else after == ss
  {
  }

  /** Payloads are Python dicts: no object has a key twice. */
  predicate Legal(op: Op) {
    op.AppendEvent? ==> WellFormed(op.event.payload)
  }

  function Execute(sha: TextSha256, ss: Sessions, ops: seq<Op>): Sessions {
    if ops == [] then ss else Step(sha, Execute(sha, ss, ops[..|ops| - 1]), ops[|ops| - 1])
  }

  /** b's logs extend a's: nothing is removed or rewritten. */
  ghost predicate Extends(a: Sessions, b: Sessions) {
    forall r :: r in a ==> r in b && a[r].run.lastSequence <= b[r].run.lastSequence
                           && forall i :: i in a[r].log ==> i in b[r].log && b[r].log[i] == a[r].log[i]
  }

  lemma AppendKeepsSound(sha: TextSha256, ss: Sessions, runId: string, sequence: int, e: Event)
    requires AllSound(ss) && WellFormed(e.payload)
    requires Append(sha, ss, runId, sequence, e).Ok?
    ensures AllSound(Append(sha, ss, runId, sequence, e).value)
    ensures Extends(ss, Append(sha, ss, runId, sequence, e).value)
  {
    if runId in ss && sequence !in ss[runId].log {
      RecordKeepsLogSound(ss[runId], e);
    }
  }

  lemma RecoveryKeepsSound(rt: Runtime, ss: Sessions)
    requires AllSound(ss)
    ensures AllSound(Recovered(rt, ss)) && Extends(ss, Recovered(rt, ss))
  {
    forall r | r in ss
      ensures LogSound(RecoveredSession(rt, ss[r])) && ss[r].run.lastSequence <= RecoveredSession(rt, ss[r]).run.lastSequence
      ensures forall i :: i in ss[r].log ==> i in RecoveredSession(rt, ss[r]).log && RecoveredSession(rt, ss[r]).log[i] == ss[r].log[i]
    {
      RecoveredKeepsSound(rt, ss[r]);
    }
  }

  /** An update of the columns the event log does not use. */
  lemma OtherColumnsKeepSound(ss: Sessions, runId: string, t: Session)
    requires AllSound(ss) && runId in ss
    requires t.log == ss[runId].log && t.run.lastSequence == ss[runId].run.lastSequence
    requires t.run.characterCount == ss[runId].run.characterCount
    ensures AllSound(ss[runId := t]) && Extends(ss, ss[runId := t])
  {
  }

  lemma StepKeepsSound(sha: TextSha256, ss: Sessions, op: Op)
    requires AllSound(ss) && Legal(op)
    ensures AllSound(Step(sha, ss, op)) && Extends(ss, Step(sha, ss, op))
  {
    match op
    case CreateRun(runId, runtimeRunId) =>
    case ClaimRun(runId) =>
      if runId in ss {
        OtherColumnsKeepSound(ss, runId, ss[runId].(run := ss[runId].run.(status := Submitting)));
      }
    case AppendEvent(runId, sequence, event) =>
      if Append(sha, ss, runId, sequence, event).Ok? { AppendKeepsSound(sha, ss, runId, sequence, event); }
    case TransitionRun(runId, expected, status, revisionId, errorCode, evidence) =>
      if runId in ss {
        OtherColumnsKeepSound(ss, runId, Moved(ss[runId], status, revisionId, errorCode, evidence));
      }
    case RecoverRuns(rt) => RecoveryKeepsSound(rt, ss);
  }

  /** Every reachable log is gapless and counted, and later logs extend earlier ones. */
  lemma {:induction false} HistoryKeepsLogs(sha: TextSha256, ss: Sessions, ops: seq<Op>, earlier: nat)
    requires AllSound(ss) && earlier <= |ops| && forall op :: op in ops ==> Legal(op)
    ensures AllSound(Execute(sha, ss, ops))
    ensures Extends(Execute(sha, ss, ops[..earlier]), Execute(sha, ss, ops))
  {
    if earlier == |ops| {
      assert ops[..earlier] == ops;
      if ops != [] {
        HistoryKeepsLogs(sha, ss, ops[..|ops| - 1], 0);
        StepKeepsSound(sha, Execute(sha, ss, ops[..|ops| - 1]), ops[|ops| - 1]);
      }
    } else {
      var front := ops[..|ops| - 1];
      HistoryKeepsLogs(sha, ss, front, earlier);
      assert front[..earlier] == ops[..earlier];
      StepKeepsSound(sha, Execute(sha, ss, front), ops[|ops| - 1]);
    }
  }

  // ---------- the reader ----------

  datatype Emission = Emission(sequence: int, event: Event)

  /** The stored events with after < sequence <= last, in sequence order. */
  function Slice(log: map<int, Event>, after: int, last: int): (r: seq<Emission>)
    decreases last - after
  {
    if last <= after then []
    else Slice(log, after, last - 1) + (if last in log then [Emission(last, log[last])] else [])
  }

  predicate Terminal(status: Status) {
    status in {Completed, Failed, UnknownOutcome}
  }

  /** What one round of the loop sees: the log its query reads, then the status it reads. */
  datatype Poll = Poll(log: map<int, Event>, last: int, status: Status)

  /** Polls of one run while its log grows. */
  ghost predicate Observed(polls: seq<Poll>) {
    && (forall k :: 0 <= k < |polls| ==> 0 <= polls[k].last && forall i :: i in polls[k].log <==> 1 <= i <= polls[k].last)
    && forall j, k :: 0 <= j <= k < |polls| ==>
         polls[j].last <= polls[k].last && forall i :: i in polls[j].log ==> polls[k].log[i] == polls[j].log[i]
  }

  lemma {:induction false} SliceAgrees(a: map<int, Event>, b: map<int, Event>, after: int, last: int)
    requires forall i :: after < i <= last ==> i in a && i in b && a[i] == b[i]
    ensures Slice(a, after, last) == Slice(b, after, last)
    decreases last - after
  {
    if after < last { SliceAgrees(a, b, after, last - 1); }
  }

  lemma {:induction false} SliceSplits(log: map<int, Event>, a: int, b: int, c: int)
    requires a <= b <= c
    ensures Slice(log, a, c) == Slice(log, a, b) + Slice(log, b, c)
    decreases c - b
  {
    if b < c { SliceSplits(log, a, b, c - 1); }
  }

  /** The n-th emission of a slice of a gapless log carries sequence after + 1 + n: no gap, no repeat. */
  lemma {:induction false} SliceContiguous(log: map<int, Event>, after: int, last: int)
    requires after <= last && forall i :: after < i <= last ==> i in log
    ensures |Slice(log, after, last)| == last - after
    ensures forall n :: 0 <= n < last - after ==> Slice(log, after, last)[n] == Emission(after + 1 + n, log[after + 1 + n])
    decreases last - after
  {
    if after < last { SliceContiguous(log, after, last - 1); }
  }

  /** Where a session stands after some rounds: it sent the stretch after its start up to its cursor. */
  ghost predicate CaughtUp(polls: seq<Poll>, rounds: nat, after: int, cursor: int, sent: seq<Emission>)
    requires rounds <= |polls|
  {
    if rounds == 0 then cursor == after && sent == []
    else
      && cursor == (if after < polls[rounds - 1].last then polls[rounds - 1].last else after)
      && sent == Slice(polls[rounds - 1].log, after, cursor)
  }

  /** The rows of one query, sent in order; the cursor follows the last one. */
  method SendRows(rows: seq<Emission>, start: int) returns (sent: seq<Emission>, cursor: int)
    requires forall n :: 0 <= n < |rows| ==> rows[n].sequence == start + 1 + n
    ensures sent == rows && cursor == start + |rows|
  {
    sent, cursor := [], start;
    for i := 0 to |rows|
      invariant cursor == start + i && sent == rows[..i]
    {
      cursor := rows[i].sequence;
      sent := sent + [rows[i]];
    }
  }

  /** One session of the stream over the polls it makes; it returns at the first terminal status. */
  method EventStream(polls: seq<Poll>, after: nat) returns (emitted: seq<Emission>, cursor: int, rounds: nat)
    requires Observed(polls)
    ensures rounds <= |polls| && CaughtUp(polls, rounds, after, cursor, emitted)
    ensures rounds < |polls| ==> rounds > 0 && polls[rounds - 1].status in {Completed, Failed, UnknownOutcome}
    ensures forall k :: 0 <= k < rounds - 1 ==> polls[k].status !in {Completed, Failed, UnknownOutcome}
  {
    emitted, cursor, rounds := [], after, 0;
    while rounds < |polls|
      invariant rounds <= |polls| && after <= cursor
      invariant CaughtUp(polls, rounds, after, cursor, emitted)
      invariant forall k :: 0 <= k < rounds ==> !Terminal(polls[k].status)
    {
      var poll := polls[rounds];
      var rows := Slice(poll.log, cursor, poll.last);
      if cursor < poll.last { SliceContiguous(poll.log, cursor, poll.last); }
      SliceGrows(polls, rounds, after, cursor, emitted);
      var sent, next := SendRows(rows, cursor);
      emitted, cursor, rounds := emitted + sent, next, rounds + 1;
      if Terminal(poll.status) {
        return;
      }
    }
  }

  /** Polls of one run made at the given times of a history, whatever the status reads return. */
  ghost predicate PollsOf(sha: TextSha256, ss: Sessions, ops: seq<Op>, times: seq<nat>, runId: string, polls: seq<Poll>) {
    && |polls| == |times| && (forall k :: 0 <= k < |times| ==> times[k] <= |ops|)
    && (forall j, k :: 0 <= j <= k < |times| ==> times[j] <= times[k])
    && forall k :: 0 <= k < |times| ==>
         var now := Execute(sha, ss, ops[..times[k]]);
         runId in now && polls[k].log == now[runId].log && polls[k].last == now[runId].run.lastSequence
  }

  lemma PollsOfHistoryAreObserved(sha: TextSha256, ss: Sessions, ops: seq<Op>, times: seq<nat>, runId: string, polls: seq<Poll>)
    requires AllSound(ss) && runId in ss && forall op :: op in ops ==> Legal(op)
    requires PollsOf(sha, ss, ops, times, runId, polls)
    ensures Observed(polls)
  {
    forall j, k | 0 <= j <= k < |times|
      ensures polls[j].last <= polls[k].last
      ensures forall i :: i in polls[j].log ==> i in polls[k].log && polls[k].log[i] == polls[j].log[i]
    {
      var upTo := ops[..times[k]];
      assert upTo[..times[j]] == ops[..times[j]];
      HistoryKeepsLogs(sha, ss, upTo, times[j]);
    }
    forall k | 0 <= k < |times| ensures LogSound(Execute(sha, ss, ops[..times[k]])[runId]) {
      HistoryKeepsLogs(sha, ss, ops[..times[k]], 0);
    }
  }

  lemma SliceGrows(polls: seq<Poll>, k: nat, after: int, cursor: int, sent: seq<Emission>)
    requires Observed(polls) && k < |polls| && 0 <= after <= cursor
    requires CaughtUp(polls, k, after, cursor, sent)
    ensures var rows := Slice(polls[k].log, cursor, polls[k].last);
            CaughtUp(polls, k + 1, after, cursor + |rows|, sent + rows)
  {
    if k > 0 {
      SliceAgrees(polls[k - 1].log, polls[k].log, after, cursor);
    }
    if cursor < polls[k].last {
      SliceContiguous(polls[k].log, cursor, polls[k].last);
      SliceSplits(polls[k].log, after, cursor, polls[k].last);
    }
  }

  // ---------- sessions resumed from the last kept id ----------

  /** One call of EventStream and what its client kept of it: the first `kept` events. */
  datatype Reading = Reading(
    polls: seq<Poll>, times: seq<nat>, after: nat, rounds: nat, cursor: int, emitted: seq<Emission>, kept: nat)

  /** The polls come from the history and the rest is what EventStream promises. */
  ghost predicate ReadingOf(sha: TextSha256, ss: Sessions, ops: seq<Op>, runId: string, x: Reading) {
    && PollsOf(sha, ss, ops, x.times, runId, x.polls)
    && x.rounds <= |x.polls| && CaughtUp(x.polls, x.rounds, x.after, x.cursor, x.emitted)
    && x.kept <= |x.emitted|
  }

  /** The id a client resumes from: the last event it kept, or where it started. */
  function LastKept(x: Reading): int
    requires x.kept <= |x.emitted|
  {
    if x.kept == 0 then x.after else x.emitted[x.kept - 1].sequence
  }

  /** The first session starts at 0 and each later one at the last id kept of the one before. */
  ghost predicate Resumed(readings: seq<Reading>) {
    && (forall j :: 0 <= j < |readings| ==> readings[j].kept <= |readings[j].emitted|)
    && (readings != [] ==> readings[0].after == 0)
    && forall j :: 0 < j < |readings| ==> readings[j].after == LastKept(readings[j - 1])
  }

  function Received(readings: seq<Reading>): seq<Emission>
    requires forall j :: 0 <= j < |readings| ==> readings[j].kept <= |readings[j].emitted|
  {
    if readings == [] then []
    else
      var last := readings[|readings| - 1];
      Received(readings[..|readings| - 1]) + last.emitted[..last.kept]
  }

  lemma LogAtTime(sha: TextSha256, ss: Sessions, ops: seq<Op>, runId: string, time: nat)
    requires AllSound(ss) && runId in ss && (forall op :: op in ops ==> Legal(op)) && time <= |ops|
    ensures var then_, now := Execute(sha, ss, ops[..time]), Execute(sha, ss, ops);
            && runId in then_ && runId in now && LogSound(then_[runId]) && LogSound(now[runId])
            && then_[runId].run.lastSequence <= now[runId].run.lastSequence
            && forall i :: i in then_[runId].log ==> i in now[runId].log && now[runId].log[i] == then_[runId].log[i]
  {
    HistoryKeepsLogs(sha, ss, ops, time);
    HistoryKeepsLogs(sha, ss, ops[..time], 0);
    assert ops[..time][..0] == [] && Execute(sha, ss, []) == ss;
  }

  ghost predicate Gapless(log: map<int, Event>, last: int) {
    0 <= last && forall i :: i in log <==> 1 <= i <= last
  }

  /** The session sent the stretch of a log from its start to its cursor. */
  ghost predicate Stretch(log: map<int, Event>, last: int, x: Reading) {
    && x.kept <= |x.emitted| && x.after <= x.cursor && (x.cursor == x.after || x.cursor <= last)
    && x.emitted == Slice(log, x.after, x.cursor)
  }

  /** What one session sends is a stretch of the log the history ends with. */
  lemma ReadingIsStretch(sha: TextSha256, ss: Sessions, ops: seq<Op>, runId: string, x: Reading)
    requires AllSound(ss) && runId in ss && forall op :: op in ops ==> Legal(op)
    requires ReadingOf(sha, ss, ops, runId, x)
    ensures runId in Execute(sha, ss, ops)
    ensures var final := Execute(sha, ss, ops)[runId];
            Gapless(final.log, final.run.lastSequence) && Stretch(final.log, final.run.lastSequence, x)
  {
    LogAtTime(sha, ss, ops, runId, |ops|);
    assert ops[..|ops|] == ops;
    if x.rounds > 0 {
      var poll := x.polls[x.rounds - 1];
      LogAtTime(sha, ss, ops, runId, x.times[x.rounds - 1]);
      SliceAgrees(poll.log, Execute(sha, ss, ops)[runId].log, x.after, x.cursor);
    }
  }

  /** Keeping the first events of a stretch is keeping a shorter stretch, which ends at the resume id. */
  lemma KeptIsStretch(log: map<int, Event>, last: int, x: Reading)
    requires Gapless(log, last) && Stretch(log, last, x)
    ensures LastKept(x) == x.after + x.kept <= x.cursor
    ensures x.emitted[..x.kept] == Slice(log, x.after, LastKept(x))
  {
    if x.cursor > x.after {
      SliceContiguous(log, x.after, x.cursor);
      SliceContiguous(log, x.after, x.after + x.kept);
      SliceSplits(log, x.after, x.after + x.kept, x.cursor);
    }
  }

  lemma {:induction false} StretchesConcatenate(log: map<int, Event>, last: int, readings: seq<Reading>)
    requires Gapless(log, last) && Resumed(readings) && forall j :: 0 <= j < |readings| ==> Stretch(log, last, readings[j])
    ensures |Received(readings)| <= last && Received(readings) == Slice(log, 0, |Received(readings)|)
    ensures readings != [] ==> LastKept(readings[|readings| - 1]) == |Received(readings)|
    decreases |readings|
  {
    if readings != [] {
      var front, x := readings[..|readings| - 1], readings[|readings| - 1];
      StretchesConcatenate(log, last, front);
      KeptIsStretch(log, last, x);
      assert x.after == |Received(front)|;
      SliceSplits(log, 0, x.after, LastKept(x));
      SliceContiguous(log, 0, LastKept(x));
    }
  }

  /** Whatever a client receives over any number of sessions, each resumed from the last id it kept, is a
      prefix of the run's log: no event is missing, repeated or out of order. */
  lemma ResumedReadersGivePrefix(sha: TextSha256, ss: Sessions, ops: seq<Op>, runId: string, readings: seq<Reading>)
    requires AllSound(ss) && runId in ss && forall op :: op in ops ==> Legal(op)
    requires readings != [] && Resumed(readings)
    requires forall j :: 0 <= j < |readings| ==> ReadingOf(sha, ss, ops, runId, readings[j])
    ensures runId in Execute(sha, ss, ops)
    ensures var final := Execute(sha, ss, ops)[runId];
            && LastKept(readings[|readings| - 1]) <= final.run.lastSequence
            && Received(readings) == Slice(final.log, 0, LastKept(readings[|readings| - 1]))
            && Received(readings) <= Slice(final.log, 0, final.run.lastSequence)
  {
    ReadingIsStretch(sha, ss, ops, runId, readings[0]);
    var final := Execute(sha, ss, ops)[runId];
    forall j | 0 <= j < |readings| ensures Stretch(final.log, final.run.lastSequence, readings[j]) {
      ReadingIsStretch(sha, ss, ops, runId, readings[j]);
    }
    StretchesConcatenate(final.log, final.run.lastSequence, readings);
    SliceSplits(final.log, 0, |Received(readings)|, final.run.lastSequence);
  }
}

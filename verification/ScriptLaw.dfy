/** What the calls on a script run do to its row and its log, read off the tables alone
    (ai_drama_web/store.py): appending, transitions, the character count and recovery. */
module ScriptLaw {
  import opened Wrappers
  import opened Hashing
  import opened JsonText
  import opened CanonicalJson
  import opened ScriptRuns
  import opened ScriptRecovery

  // ---------- appending ----------

  predicate EventTypeAllowed(t: string) {
    t == "stage" || t == "text_delta" || t == "usage" || t == "failed" || t == "revision_completed"
  }

  /** The text a text_delta streams; nothing for any other event. */
  function StreamedText(e: Event): string {
    if e.eventType == "text_delta" && e.payload.Obj? then
      match Lookup(e.payload.fields, "text")
      case Some(Str(text)) => text
      case _ => ""
    else ""
  }

  /** The row one past the last: the event stored, the last sequence moved on, the streamed text counted. */
  predicate Appended(s: Session, t: Session, e: Event) {
    && t.log == s.log[s.run.lastSequence + 1 := e]
    && t.run == s.run.(lastSequence := s.run.lastSequence + 1,
                       characterCount := s.run.characterCount + |StreamedText(e)|)
  }

  /** Every outcome of an append on sound logs: the type is checked first, a stored sequence is replayed on
      an equal event, an unknown run is not found, and only the next sequence is recorded. */
  lemma AppendByTables(sha: TextSha256, ss: Sessions, runId: string, sequence: int, e: Event)
    requires AllSound(ss) && WellFormed(e.payload)
    ensures var r := Append(sha, ss, runId, sequence, e);
            if !EventTypeAllowed(e.eventType) then r == Err(EventTypeInvalid)
            else if runId !in ss then r == Err(NotFound)
            else if sequence in ss[runId].log then
              var stored := ss[runId].log[sequence];
              r == if stored.eventType == e.eventType && SameValue(stored.payload, e.payload) then Ok(ss) else Err(SequenceConflict)
            else if sequence == ss[runId].run.lastSequence + 1 then
              r.Ok? && r.value == ss[runId := r.value[runId]] && Appended(ss[runId], r.value[runId], e)
            else r == Err(SequenceConflict)
  {
    if EventTypeAllowed(e.eventType) && runId in ss && sequence in ss[runId].log {
      ReplayIsExact(sha, ss, runId, sequence, e);
    }
  }

  /** The text a reader has assembled from the first n events. */
  function Assembled(log: map<int, Event>, n: int): string
    decreases n
  {
    if n <= 0 || n !in log then "" else Assembled(log, n - 1) + StreamedText(log[n])
  }

  lemma {:induction false} TotalIsAssembled(log: map<int, Event>, n: int)
    ensures TextTotal(log, n) == |Assembled(log, n)|
    decreases n
  {
    if n > 0 && n in log { TotalIsAssembled(log, n - 1); }
  }

  /** A sound session counts the characters of the text its whole log streams, and every stored event is of
      one of the five types. */
  lemma CharacterCountIsAssembledText(s: Session)
    requires LogSound(s)
    ensures s.run.characterCount == |Assembled(s.log, s.run.lastSequence)|
    ensures forall i :: i in s.log ==> EventTypeAllowed(s.log[i].eventType)
  {
    TotalIsAssembled(s.log, s.run.lastSequence);
  }

  // ---------- transitions ----------

  /** A transition is granted exactly on a stored run in one of the expected statuses; it writes four
      columns of that run and nothing else. */
  lemma TransitionByTables(ss: Sessions, runId: string, expected: set<Status>, status: Status,
                           revisionId: string, errorCode: string, evidence: string)
    ensures var r := Transition(ss, runId, expected, status, revisionId, errorCode, evidence);
            if runId in ss && ss[runId].run.status in expected then
              var s := ss[runId];
              r == Ok(ss[runId := Session(Run(s.run.runtimeRunId, status, s.run.lastSequence, s.run.characterCount,
                                              revisionId, errorCode, evidence), s.log)])
            else r == Err(StatusConflict)
  {
  }

  // ---------- recovery ----------

  predicate Published(rt: Runtime, id: string) {
    id in rt.runs && rt.runs[id].status == "SUCCEEDED" && id in rt.newestRevision
  }

  predicate Broken(rt: Runtime, id: string) {
    && id in rt.runs
    && (rt.runs[id].status == "PARSE_FAILED" || rt.runs[id].status == "VALIDATION_FAILED"
        || rt.runs[id].status == "RUNTIME_FAILED")
  }

  predicate Unfinished(s: Session) {
    s.run.status == Submitting || s.run.status == Streaming || s.run.status == Finalizing
  }

  /** The columns recovery writes, and whether the log got the event: one past the last, unless an event of
      the type is stored. */
  ghost predicate ClosedAs(s: Session, t: Session, status: Status, revisionId: string, errorCode: string, e: Event) {
    && t.run == s.run.(status := status, revisionId := revisionId, errorCode := errorCode, lastSequence := t.run.lastSequence)
    && if exists i :: i in s.log && s.log[i].eventType == e.eventType
       then t.log == s.log && t.run.lastSequence == s.run.lastSequence
       else t.log == s.log[s.run.lastSequence + 1 := e] && t.run.lastSequence == s.run.lastSequence + 1
  }

  /** A finalizing run whose runtime run succeeded and published is completed with the newest revision; one
      whose runtime run failed is failed with its error code, or its status when it has none; every other
      submitting, streaming or finalizing run has an unknown outcome; the rest stay as they are. */
  lemma RecoveryByTables(rt: Runtime, ss: Sessions, r: string)
    requires r in ss
    ensures Recovered(rt, ss).Keys == ss.Keys
    ensures var s, t := ss[r], Recovered(rt, ss)[r];
            var id := s.run.runtimeRunId;
            if s.run.status == Finalizing && Published(rt, id) then
              ClosedAs(s, t, Completed, rt.newestRevision[id], "",
                       Event("revision_completed", Obj([Field("revision_id", Str(rt.newestRevision[id]))])))
            else if s.run.status == Finalizing && Broken(rt, id) then
              var code := if rt.runs[id].errorCode == "" then rt.runs[id].status else rt.runs[id].errorCode;
              ClosedAs(s, t, Failed, "", code, Event("failed", Obj([Field("error_code", Str(code))])))
            else if Unfinished(s) then
              ClosedAs(s, t, UnknownOutcome, s.run.revisionId, "SUBMISSION_OUTCOME_UNKNOWN",
                       Event("failed", Obj([Field("error_code", Str("SUBMISSION_OUTCOME_UNKNOWN"))])))
            else t == s
  {
  }

  /** The runs recovery counts: unfinished, and not finalizing with a runtime run that published or failed. */
  lemma UnknownByTables(rt: Runtime, ss: Sessions)
    ensures UnknownOutcomes(rt, ss) == set r | r in ss && Unfinished(ss[r])
              && !(ss[r].run.status == Finalizing
                   && (Published(rt, ss[r].run.runtimeRunId) || Broken(rt, ss[r].run.runtimeRunId)))
  {
  }
}

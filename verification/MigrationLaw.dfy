/** What the legacy parser makes of a text, read off the lines: each shot's columns are the last values given
    since its heading, and the first offending line decides the error (ai_drama_runtime/storyboard_migration.py). */
module MigrationLaw {
  import opened Wrappers
  import opened StoryboardMigration
  import opened LegacyParsing

  // ---------- reading the lines ----------

  predicate HasShot(lines: seq<Line>) {
    ShotHeading in lines
  }

  /** The lines before the last shot heading. */
  function UpToShot(lines: seq<Line>): (r: seq<Line>)
    ensures |r| <= |lines| && (lines != [] ==> |r| < |lines|)
  {
    if lines == [] then []
    else if lines[|lines| - 1] == ShotHeading then lines[..|lines| - 1]
    else UpToShot(lines[..|lines| - 1])
  }

  /** The lines after the last shot heading. */
  function SinceShot(lines: seq<Line>): seq<Line> {
    if lines == [] || lines[|lines| - 1] == ShotHeading then []
    else SinceShot(lines[..|lines| - 1]) + [lines[|lines| - 1]]
  }

  /** The reference of the last scene heading. */
  function LastReference(lines: seq<Line>): string {
    if lines == [] then ""
    else if lines[|lines| - 1].SceneHeading? then lines[|lines| - 1].reference
    else LastReference(lines[..|lines| - 1])
  }

  /** The value of the last line for the field. */
  function LastValue(lines: seq<Line>, key: FieldName): Option<string> {
    if lines == [] then None
    else if lines[|lines| - 1].FieldLine? && lines[|lines| - 1].key == key then Some(lines[|lines| - 1].value)
    else LastValue(lines[..|lines| - 1], key)
  }

  /** The value of the last line for the field that gives one. */
  function LastText(lines: seq<Line>, key: FieldName): Option<string> {
    if lines == [] then None
    else if lines[|lines| - 1].FieldLine? && lines[|lines| - 1].key == key && lines[|lines| - 1].value != ""
    then Some(lines[|lines| - 1].value)
    else LastText(lines[..|lines| - 1], key)
  }

  predicate TextOr(s: string, found: Option<string>, otherwise: string) {
    s == match found
         case Some(t) => t
         case None => otherwise
  }

  // ---------- the columns of a shot ----------

  predicate FramingColumns(d: Shot, since: seq<Line>) {
    && TextOr(d.size, LastText(since, ShotSize), "medium")
    && TextOr(d.angle, LastText(since, CameraAngle), "eye_level")
    && TextOr(d.framing, LastText(since, VisualComposition), "migrated legacy framing")
  }

  predicate PeopleColumns(d: Shot, since: seq<Line>) {
    && d.pose == LastText(since, CharacterPositions) && d.action == LastText(since, CharacterActions)
    && d.emotion == LastText(since, EmotionPerformance) && d.dialogue == LastText(since, Dialogue)
  }

  predicate NoteColumns(d: Shot, since: seq<Line>) {
    && d.sound == LastText(since, SoundNotes) && d.continuityIn == LastText(since, ContinuityIn)
    && d.continuityOut == LastText(since, ContinuityOut)
  }

  /** The last duration line counts, and the last movement line, whatever their values. */
  predicate LastLineColumns(d: Shot, since: seq<Line>, toInt: ToInt) {
    && (match LastValue(since, DurationSeconds)
        case None => d.duration == 8
        case Some(s) => toInt(s) == Some(d.duration))
    && (match LastValue(since, CameraMovement)
        case None => d.movement == None
        case Some(s) => d.movement == if s in {"", "null", "still"} then None else Some(s))
  }

  predicate SceneColumns(d: Shot, before: seq<Line>, since: seq<Line>) {
    && d.sceneId == SceneId(CountScenes(before))
    && TextOr(d.reference, LastText(since, SourceSceneReference), LastReference(before))
  }

  /** A shot whose heading follows the one stretch of lines and precedes the other. */
  predicate ShotColumns(d: Shot, before: seq<Line>, since: seq<Line>, toInt: ToInt) {
    && FramingColumns(d, since) && PeopleColumns(d, since) && NoteColumns(d, since)
    && LastLineColumns(d, since, toInt) && SceneColumns(d, before, since)
  }

  /** One shot per heading, each with the columns its lines give. */
  ghost predicate Columned(shots: seq<Shot>, lines: seq<Line>, toInt: ToInt)
    decreases |lines|
  {
    if HasShot(lines) then
      && shots != []
      && ShotColumns(shots[|shots| - 1], UpToShot(lines), SinceShot(lines), toInt)
      && Columned(shots[..|shots| - 1], UpToShot(lines), toInt)
    else shots == []
  }

  // ---------- one more line ----------

  lemma Grown(lines: seq<Line>, line: Line)
    ensures (lines + [line])[..|lines + [line]| - 1] == lines && (lines + [line])[|lines + [line]| - 1] == line
  {
  }

  lemma TextGrows(lines: seq<Line>, line: Line, key: FieldName)
    ensures LastText(lines + [line], key)
         == if line.FieldLine? && line.key == key && line.value != "" then Some(line.value) else LastText(lines, key)
  {
    Grown(lines, line);
  }

  lemma ValueGrows(lines: seq<Line>, line: Line, key: FieldName)
    ensures LastValue(lines + [line], key)
         == if line.FieldLine? && line.key == key then Some(line.value) else LastValue(lines, key)
  {
    Grown(lines, line);
  }

  lemma FramingGrows(d: Shot, e: Shot, since: seq<Line>, key: FieldName, value: string, toInt: ToInt)
    requires FramingColumns(d, since) && WithField(d, key, value, toInt) == Ok(e)
    ensures FramingColumns(e, since + [FieldLine(key, value)])
  {
    TextGrows(since, FieldLine(key, value), ShotSize);
    TextGrows(since, FieldLine(key, value), CameraAngle);
    TextGrows(since, FieldLine(key, value), VisualComposition);
  }

  lemma PeopleGrow(d: Shot, e: Shot, since: seq<Line>, key: FieldName, value: string, toInt: ToInt)
    requires PeopleColumns(d, since) && WithField(d, key, value, toInt) == Ok(e)
    ensures PeopleColumns(e, since + [FieldLine(key, value)])
  {
    TextGrows(since, FieldLine(key, value), CharacterPositions);
    TextGrows(since, FieldLine(key, value), CharacterActions);
    TextGrows(since, FieldLine(key, value), EmotionPerformance);
    TextGrows(since, FieldLine(key, value), Dialogue);
  }

  lemma NotesGrow(d: Shot, e: Shot, since: seq<Line>, key: FieldName, value: string, toInt: ToInt)
    requires NoteColumns(d, since) && WithField(d, key, value, toInt) == Ok(e)
    ensures NoteColumns(e, since + [FieldLine(key, value)])
  {
    TextGrows(since, FieldLine(key, value), SoundNotes);
    TextGrows(since, FieldLine(key, value), ContinuityIn);
    TextGrows(since, FieldLine(key, value), ContinuityOut);
  }

  lemma LastLinesGrow(d: Shot, e: Shot, since: seq<Line>, key: FieldName, value: string, toInt: ToInt)
    requires LastLineColumns(d, since, toInt) && WithField(d, key, value, toInt) == Ok(e)
    ensures LastLineColumns(e, since + [FieldLine(key, value)], toInt)
  {
    ValueGrows(since, FieldLine(key, value), DurationSeconds);
    ValueGrows(since, FieldLine(key, value), CameraMovement);
  }

  lemma SceneGrows(d: Shot, e: Shot, before: seq<Line>, since: seq<Line>, key: FieldName, value: string, toInt: ToInt)
    requires SceneColumns(d, before, since) && WithField(d, key, value, toInt) == Ok(e)
    ensures SceneColumns(e, before, since + [FieldLine(key, value)])
  {
    TextGrows(since, FieldLine(key, value), SourceSceneReference);
  }

  lemma FieldGrowsColumns(d: Shot, e: Shot, before: seq<Line>, since: seq<Line>, key: FieldName, value: string, toInt: ToInt)
    requires ShotColumns(d, before, since, toInt) && WithField(d, key, value, toInt) == Ok(e)
    ensures ShotColumns(e, before, since + [FieldLine(key, value)], toInt)
  {
    FramingGrows(d, e, since, key, value, toInt);
    PeopleGrow(d, e, since, key, value, toInt);
    NotesGrow(d, e, since, key, value, toInt);
    LastLinesGrow(d, e, since, key, value, toInt);
    SceneGrows(d, e, before, since, key, value, toInt);
  }

  /** A line that is no field line leaves every column as it is. */
  lemma OtherKeepsColumns(d: Shot, before: seq<Line>, since: seq<Line>, line: Line, toInt: ToInt)
    requires ShotColumns(d, before, since, toInt) && !line.FieldLine?
    ensures ShotColumns(d, before, since + [line], toInt)
  {
    forall key ensures LastText(since + [line], key) == LastText(since, key) {
      TextGrows(since, line, key);
    }
    forall key ensures LastValue(since + [line], key) == LastValue(since, key) {
      ValueGrows(since, line, key);
    }
  }

  lemma NewShotColumns(before: seq<Line>, sceneId: string, shotId: string, order: int, reference: string, toInt: ToInt)
    requires sceneId == SceneId(CountScenes(before)) && reference == LastReference(before)
    ensures ShotColumns(NewShot(sceneId, shotId, order, reference), before, [], toInt)
  {
  }

  // ---------- the parser follows the lines ----------

  /** The fields are the known ones with a line. */
  ghost predicate MetFields(fields: set<FieldName>, since: seq<Line>) {
    forall key :: key in fields <==> key != UnknownField && LastValue(since, key).Some?
  }

  /** The parser's variables, read off the lines so far. */
  ghost predicate Follows(p: Parser, lines: seq<Line>, toInt: ToInt) {
    && |p.scenes| == CountScenes(lines) && p.reference == LastReference(lines)
    && (p.reference != "" ==> p.reference in p.sceneIdByRef && p.sceneIdByRef[p.reference] == SceneId(CountScenes(lines)))
    && (p.current.Some? <==> HasShot(lines))
    && Columned(AllShots(p), lines, toInt)
    && (HasShot(lines) ==> MetFields(p.fields, SinceShot(lines)))
  }

  lemma CutGrows(lines: seq<Line>, line: Line)
    ensures HasShot(lines + [line]) <==> HasShot(lines) || line == ShotHeading
    ensures line != ShotHeading ==> UpToShot(lines + [line]) == UpToShot(lines)
    ensures line != ShotHeading ==> SinceShot(lines + [line]) == SinceShot(lines) + [line]
    ensures line == ShotHeading ==> UpToShot(lines + [line]) == lines && SinceShot(lines + [line]) == []
  {
    Grown(lines, line);
  }

  lemma HeadingsGrow(lines: seq<Line>, line: Line)
    ensures CountScenes(lines + [line]) == CountScenes(lines) + if line.SceneHeading? then 1 else 0
    ensures LastReference(lines + [line]) == if line.SceneHeading? then line.reference else LastReference(lines)
  {
    Grown(lines, line);
  }

  lemma ColumnedKept(shots: seq<Shot>, lines: seq<Line>, line: Line, toInt: ToInt)
    requires Columned(shots, lines, toInt) && !line.FieldLine? && line != ShotHeading
    ensures Columned(shots, lines + [line], toInt)
  {
    CutGrows(lines, line);
    if HasShot(lines) { OtherKeepsColumns(shots[|shots| - 1], UpToShot(lines), SinceShot(lines), line, toInt); }
  }

  lemma ColumnedOpens(shots: seq<Shot>, lines: seq<Line>, d: Shot, toInt: ToInt)
    requires Columned(shots, lines, toInt) && ShotColumns(d, lines, [], toInt)
    ensures Columned(shots + [d], lines + [ShotHeading], toInt)
  {
    CutGrows(lines, ShotHeading);
    assert (shots + [d])[..|shots|] == shots;
  }

  lemma ColumnedParts(shots: seq<Shot>, d: Shot, lines: seq<Line>, toInt: ToInt)
    requires HasShot(lines)
    ensures Columned(shots + [d], lines, toInt)
       <==> ShotColumns(d, UpToShot(lines), SinceShot(lines), toInt) && Columned(shots, UpToShot(lines), toInt)
  {
    var all := shots + [d];
    assert all[|all| - 1] == d && all[..|all| - 1] == shots;
  }

  lemma ColumnedField(shots: seq<Shot>, d: Shot, e: Shot, lines: seq<Line>, key: FieldName, value: string, toInt: ToInt)
    requires Columned(shots + [d], lines, toInt) && HasShot(lines)
    requires forall before, since ::
               ShotColumns(d, before, since, toInt) ==> ShotColumns(e, before, since + [FieldLine(key, value)], toInt)
    ensures Columned(shots + [e], lines + [FieldLine(key, value)], toInt)
  {
    CutGrows(lines, FieldLine(key, value));
    ColumnedParts(shots, d, lines, toInt);
    ColumnedParts(shots, e, lines + [FieldLine(key, value)], toInt);
  }

  lemma SceneFollows(p: Parser, lines: seq<Line>, reference: Reference, toInt: ToInt)
    requires Follows(p, lines, toInt)
    ensures Follows(Entered(p, reference), lines + [SceneHeading(reference)], toInt)
  {
    var line := SceneHeading(reference);
    CutGrows(lines, line);
    HeadingsGrow(lines, line);
    ColumnedKept(AllShots(p), lines, line, toInt);
    assert AllShots(Entered(p, reference)) == AllShots(p);
    forall key ensures LastValue(SinceShot(lines) + [line], key) == LastValue(SinceShot(lines), key) {
      ValueGrows(SinceShot(lines), line, key);
    }
  }

  lemma OtherFollows(p: Parser, lines: seq<Line>, toInt: ToInt)
    requires Follows(p, lines, toInt)
    ensures Follows(p, lines + [Other], toInt)
  {
    CutGrows(lines, Other);
    HeadingsGrow(lines, Other);
    ColumnedKept(AllShots(p), lines, Other, toInt);
    forall key ensures LastValue(SinceShot(lines) + [Other], key) == LastValue(SinceShot(lines), key) {
      ValueGrows(SinceShot(lines), Other, key);
    }
  }

  /** A field line outside any shot is passed over. */
  lemma StrayFollows(p: Parser, lines: seq<Line>, key: FieldName, value: string, toInt: ToInt)
    requires Follows(p, lines, toInt) && p.current.None?
    ensures Follows(p, lines + [FieldLine(key, value)], toInt)
  {
    CutGrows(lines, FieldLine(key, value));
    HeadingsGrow(lines, FieldLine(key, value));
  }

  lemma MetFieldsGrow(fields: set<FieldName>, since: seq<Line>, key: FieldName, value: string)
    requires MetFields(fields, since)
    ensures MetFields(if key in REQUIRED then fields + {key} else fields, since + [FieldLine(key, value)])
  {
    KnownFields(key);
    forall k ensures LastValue(since + [FieldLine(key, value)], k).Some? <==> k == key || LastValue(since, k).Some? {
      ValueGrows(since, FieldLine(key, value), k);
    }
  }

  lemma FieldFollows(p: Parser, e: Shot, lines: seq<Line>, key: FieldName, value: string, toInt: ToInt)
    requires Follows(p, lines, toInt) && p.current.Some?
    requires Columned(p.shots + [e], lines + [FieldLine(key, value)], toInt)
    ensures Follows(p.(current := Some(e), fields := if key in REQUIRED then p.fields + {key} else p.fields),
                    lines + [FieldLine(key, value)], toInt)
  {
    CutGrows(lines, FieldLine(key, value));
    HeadingsGrow(lines, FieldLine(key, value));
    MetFieldsGrow(p.fields, SinceShot(lines), key, value);
  }

  lemma ReadFieldFollows(p: Parser, e: Shot, lines: seq<Line>, key: FieldName, value: string, toInt: ToInt)
    requires Follows(p, lines, toInt) && p.current.Some? && WithField(p.current.value, key, value, toInt) == Ok(e)
    ensures Follows(p.(current := Some(e), fields := if key in REQUIRED then p.fields + {key} else p.fields),
                    lines + [FieldLine(key, value)], toInt)
  {
    var d := p.current.value;
    forall before, since | ShotColumns(d, before, since, toInt)
      ensures ShotColumns(e, before, since + [FieldLine(key, value)], toInt)
    {
      FieldGrowsColumns(d, e, before, since, key, value, toInt);
    }
    ColumnedField(p.shots, d, e, lines, key, value, toInt);
    FieldFollows(p, e, lines, key, value, toInt);
  }

  lemma KnownFields(key: FieldName)
    ensures key in REQUIRED <==> key != UnknownField
  {
  }

  lemma ShotFollows(p: Parser, lines: seq<Line>, toInt: ToInt)
    requires Linked(p) && Follows(p, lines, toInt) && WithShot(p).Ok?
    ensures Follows(WithShot(p).value, lines + [ShotHeading], toInt)
  {
    var q := WithShot(p).value;
    var d := q.current.value;
    CutGrows(lines, ShotHeading);
    HeadingsGrow(lines, ShotHeading);
    NewShotColumns(lines, d.sceneId, d.shotId, d.order, d.reference, toInt);
    ColumnedOpens(AllShots(p), lines, d, toInt);
    assert AllShots(q) == AllShots(p) + [d];
  }

  lemma StepFollows(p: Parser, lines: seq<Line>, line: Line, toInt: ToInt)
    requires Linked(p) && Follows(p, lines, toInt) && Step(p, line, toInt).Ok?
    ensures Follows(Step(p, line, toInt).value, lines + [line], toInt)
  {
    match line
    case SceneHeading(reference) => SceneFollows(p, lines, reference, toInt);
    case ShotHeading => ShotFollows(p, lines, toInt);
    case FieldLine(key, value) =>
      if p.current.Some? {
        ReadFieldFollows(p, WithField(p.current.value, key, value, toInt).value, lines, key, value, toInt);
      } else {
        StrayFollows(p, lines, key, value, toInt);
      }
    case Other => OtherFollows(p, lines, toInt);
  }

  // ---------- the error ----------

  /** Every known field has a line. */
  ghost predicate AllMet(since: seq<Line>) {
    forall key :: key != UnknownField ==> LastValue(since, key).Some?
  }

  /** What is wrong with a line, given the lines before it. */
  ghost function Offence(before: seq<Line>, line: Line, toInt: ToInt): Option<MigrationError> {
    if line == ShotHeading then
      if CountScenes(before) == 0 then Some(ShotBeforeScene)
      else if HasShot(before) && !AllMet(SinceShot(before)) then Some(MissingFields)
      else None
    else if line.FieldLine? && line.key == DurationSeconds && HasShot(before) && toInt(line.value) == None
    then Some(InvalidDuration)
    else None
  }

  lemma {:induction false} ReferenceWhenScenes(lines: seq<Line>)
    ensures LastReference(lines) == "" <==> CountScenes(lines) == 0
  {
    if lines != [] { ReferenceWhenScenes(lines[..|lines| - 1]); }
  }

  lemma MetIff(p: Parser, lines: seq<Line>, toInt: ToInt)
    requires Follows(p, lines, toInt) && HasShot(lines)
    ensures REQUIRED <= p.fields <==> AllMet(SinceShot(lines))
  {
    forall key ensures key in REQUIRED <==> key != UnknownField {
      KnownFields(key);
    }
  }

  lemma HeadingOffends(p: Parser, lines: seq<Line>, toInt: ToInt)
    requires Linked(p) && Follows(p, lines, toInt)
    ensures match Offence(lines, ShotHeading, toInt)
            case Some(e) => WithShot(p) == Err(e)
            case None => WithShot(p).Ok?
  {
    ReferenceWhenScenes(lines);
    if HasShot(lines) { MetIff(p, lines, toInt); }
  }

  lemma FieldOffends(d: Shot, key: FieldName, value: string, toInt: ToInt)
    ensures WithField(d, key, value, toInt).Err? <==> key == DurationSeconds && toInt(value) == None
    ensures WithField(d, key, value, toInt).Err? ==> WithField(d, key, value, toInt).error == InvalidDuration
  {
  }

  lemma StepOffends(p: Parser, lines: seq<Line>, line: Line, toInt: ToInt)
    requires Linked(p) && Follows(p, lines, toInt)
    ensures match Offence(lines, line, toInt)
            case Some(e) => Step(p, line, toInt) == Err(e)
            case None => Step(p, line, toInt).Ok?
  {
    match line
    case ShotHeading => HeadingOffends(p, lines, toInt);
    case FieldLine(key, value) => if p.current.Some? { FieldOffends(p.current.value, key, value, toInt); }
    case _ =>
  }

  ghost predicate NoOffence(lines: seq<Line>, n: nat, toInt: ToInt)
    requires n <= |lines|
  {
    forall m :: 0 <= m < n ==> Offence(lines[..m], lines[m], toInt) == None
  }

  lemma GoodLineFollows(p: Parser, lines: seq<Line>, line: Line, toInt: ToInt)
    requires Linked(p) && Follows(p, lines, toInt) && Offence(lines, line, toInt) == None
    ensures Step(p, line, toInt).Ok? && Follows(Step(p, line, toInt).value, lines + [line], toInt)
  {
    StepOffends(p, lines, line, toInt);
    StepFollows(p, lines, line, toInt);
  }

  ghost predicate ScanKeepsUp(lines: seq<Line>, toInt: ToInt) {
    Scan(lines, toInt).Ok? && Follows(Scan(lines, toInt).value, lines, toInt)
  }

  lemma ScanTakesLine(front: seq<Line>, line: Line, toInt: ToInt)
    requires ScanKeepsUp(front, toInt) && Offence(front, line, toInt) == None
    ensures ScanKeepsUp(front + [line], toInt)
  {
    GoodLineFollows(Scan(front, toInt).value, front, line, toInt);
    ScanTakesStep(front + [line], |front| + 1, toInt);
    assert (front + [line])[..|front|] == front && (front + [line])[..|front| + 1] == front + [line];
  }

  lemma ScanStarts(toInt: ToInt)
    ensures ScanKeepsUp([], toInt)
  {
  }

  lemma LastLineIsGood(lines: seq<Line>, n: nat, toInt: ToInt)
    requires 0 < n <= |lines| && NoOffence(lines, n, toInt)
    ensures Offence(lines[..n - 1], lines[n - 1], toInt) == None && NoOffence(lines, n - 1, toInt)
    ensures lines[..n] == lines[..n - 1] + [lines[n - 1]]
  {
    var m := n - 1;
    assert Offence(lines[..m], lines[m], toInt) == None;
  }

  lemma {:induction false} ScanFollows(lines: seq<Line>, n: nat, toInt: ToInt)
    requires n <= |lines| && NoOffence(lines, n, toInt)
    ensures ScanKeepsUp(lines[..n], toInt)
    decreases n
  {
    if n == 0 {
      ScanStarts(toInt);
      assert lines[..n] == [];
    } else {
      LastLineIsGood(lines, n, toInt);
      ScanFollows(lines, n - 1, toInt);
      ScanTakesLine(lines[..n - 1], lines[n - 1], toInt);
    }
  }

  lemma ScanTakesStep(lines: seq<Line>, n: nat, toInt: ToInt)
    requires 0 < n <= |lines| && Scan(lines[..n - 1], toInt).Ok?
    ensures Scan(lines[..n], toInt) == Step(Scan(lines[..n - 1], toInt).value, lines[n - 1], toInt)
  {
    assert lines[..n][..n - 1] == lines[..n - 1];
  }

  /** The first offending line decides the error. */
  lemma ErrorByLines(lines: seq<Line>, n: nat, e: MigrationError, toInt: ToInt)
    requires n < |lines| && NoOffence(lines, n, toInt) && Offence(lines[..n], lines[n], toInt) == Some(e)
    ensures ParseLegacy(lines, toInt) == Err(e)
  {
    ScanFollows(lines, n, toInt);
    StepOffends(Scan(lines[..n], toInt).value, lines[..n], lines[n], toInt);
    ScanTakesStep(lines, n + 1, toInt);
    ScanFails(lines, toInt, n + 1);
  }

  lemma FinishByLines(p: Parser, lines: seq<Line>, toInt: ToInt)
    requires Follows(p, lines, toInt)
    ensures if HasShot(lines) && !AllMet(SinceShot(lines)) then Finish(p) == Err(MissingFields)
            else
              && Finish(p).Ok? && Columned(Finish(p).value.shots, lines, toInt)
              && Finish(p).value.scenes == p.scenes
  {
    if HasShot(lines) { MetIff(p, lines, toInt); }
  }

  lemma ColumnedEmpty(shots: seq<Shot>, lines: seq<Line>, toInt: ToInt)
    requires Columned(shots, lines, toInt)
    ensures shots == [] <==> !HasShot(lines)
  {
  }

  lemma ParsedFrom(p: Parser, lines: seq<Line>, toInt: ToInt)
    requires Scan(lines, toInt) == Ok(p)
    ensures ParseLegacy(lines, toInt)
         == match Finish(p)
            case Err(e) => Err(e)
            case Ok(q) => if q.scenes == [] || q.shots == [] then Err(LacksScenesOrShots) else Ok((q.scenes, q.shots))
  {
  }

  lemma ScannedWhole(lines: seq<Line>, toInt: ToInt) returns (p: Parser)
    requires NoOffence(lines, |lines|, toInt)
    ensures Scan(lines, toInt) == Ok(p) && Follows(p, lines, toInt) && p.scenes == ScenesOf(lines)
  {
    ScanFollows(lines, |lines|, toInt);
    assert lines[..|lines|] == lines;
    ScenesByLines(lines, toInt);
    p := Scan(lines, toInt).value;
  }

  /** With no offending line the parser fails only at the end: on the last shot's fields, or for want of a
      shot.  Otherwise it returns each scene with its number, and each shot with the columns its lines give. */
  lemma ShotsByLines(lines: seq<Line>, toInt: ToInt)
    requires NoOffence(lines, |lines|, toInt)
    ensures var r := ParseLegacy(lines, toInt);
            if HasShot(lines) && !AllMet(SinceShot(lines)) then r == Err(MissingFields)
            else if !HasShot(lines) then r == Err(LacksScenesOrShots)
            else r.Ok? && r.value.0 == ScenesOf(lines) && Columned(r.value.1, lines, toInt)
  {
    var p := ScannedWhole(lines, toInt);
    ParsedFrom(p, lines, toInt);
    FinishByLines(p, lines, toInt);
    if Finish(p).Ok? { ColumnedEmpty(Finish(p).value.shots, lines, toInt); }
    if HasShot(lines) { ScenesBeforeShots(lines, toInt); }
  }

  lemma ScenesBeforeShots(lines: seq<Line>, toInt: ToInt)
    requires NoOffence(lines, |lines|, toInt) && HasShot(lines)
    ensures CountScenes(lines) > 0
  {
    var m :| 0 <= m < |lines| && lines[m] == ShotHeading;
    assert Offence(lines[..m], lines[m], toInt) == None;
    CountScenesGrows(lines, m);
  }

  lemma {:induction false} CountScenesGrows(lines: seq<Line>, m: nat)
    requires m <= |lines|
    ensures CountScenes(lines[..m]) <= CountScenes(lines)
    decreases |lines|
  {
    if m < |lines| {
      CountScenesGrows(lines[..|lines| - 1], m);
      assert lines[..|lines| - 1][..m] == lines[..m];
    } else {
      assert lines[..m] == lines;
    }
  }

  /** Each scene is numbered by its heading and named by its reference. */
  lemma {:induction false} ScenesByLines(lines: seq<Line>, toInt: ToInt)
    requires Scan(lines, toInt).Ok?
    ensures ScenesOf(lines) == Scan(lines, toInt).value.scenes
    decreases |lines|
  {
    if lines != [] { ScenesByLines(lines[..|lines| - 1], toInt); }
  }

  function ScenesOf(lines: seq<Line>): (r: seq<Scene>)
    ensures |r| == CountScenes(lines)
  {
    if lines == [] then []
    else
      var front := ScenesOf(lines[..|lines| - 1]);
      if lines[|lines| - 1].SceneHeading?
      then front + [Scene("SCENE_" + Padded(|front| + 1), |front| + 1, lines[|lines| - 1].reference)]
      else front
  }
}

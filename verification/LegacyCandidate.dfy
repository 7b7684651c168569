/** The candidate a legacy storyboard is migrated to, and why the validator can fault it only on a
    duration (ai_drama_runtime/storyboard_migration.py). */
module LegacyCandidate {
  import opened Wrappers
  import opened JsonText
  import opened JsonSchema
  import opened Storyboard
  import opened StoryboardShots
  import opened StoryboardValidation
  import opened StoryboardMigration
  import opened LegacyParsing

  // ---------- the dict literals ----------

  const LEGACY: Json := Str("CHAR_LEGACY")

  function VisualJson(d: Shot): Json {
    MakeRecord(VISUAL, [Str(d.framing), Str("legacy subject"), Str("legacy background"), Null])
  }

  function PositionsJson(d: Shot): Json {
    match d.pose
    case None => Arr([])
    case Some(s) => Arr([MakeRecord(POSITION, [LEGACY, Str("center"), Str("foreground"), Str(s), Null])])
  }

  function ActionsJson(d: Shot): Json {
    match d.action
    case None => Arr([])
    case Some(s) => Arr([MakeRecord(ACTION, [LEGACY, Num(1), Str(s)])])
  }

  function EmotionJson(d: Shot): Json {
    match d.emotion
    case None => Arr([])
    case Some(s) => Arr([MakeRecord(EMOTION, [LEGACY, Str(s), Str("medium"), Null])])
  }

  function DialogueJson(d: Shot): Json {
    match d.dialogue
    case None => Arr([])
    case Some(s) => Arr([MakeRecord(DIALOGUE, [LEGACY, Str(s), Bool(true)])])
  }

  function TextsJson(o: Option<string>): Json {
    match o
    case None => Arr([])
    case Some(s) => Arr([Str(s)])
  }

  function ContinuityJson(o: Option<string>): Json {
    MakeRecord(CONTINUITY, [TextsJson(o), Arr([]), Null])
  }

  function MovementJson(d: Shot): Json {
    match d.movement
    case None => Null
    case Some(s) => Obj([Field("type", Str(s))])
  }

  function ShotValues(d: Shot): seq<Json> {
    [Str(d.sceneId), Str(d.shotId), Num(d.order), Str(d.reference), Num(d.duration), Str(d.size), Str(d.angle),
     MovementJson(d), VisualJson(d), PositionsJson(d), ActionsJson(d), EmotionJson(d), DialogueJson(d),
     TextsJson(d.sound), ContinuityJson(d.continuityIn), ContinuityJson(d.continuityOut)]
  }

  function ShotJson(d: Shot): Json {
    MakeRecord(SHOT, ShotValues(d))
  }

  function SceneValues(s: Scene): seq<Json> {
    [Str(s.id), Num(s.order), Str(s.reference), Null, Null, Null, Arr([]), Str("Migrated legacy scene " + s.reference)]
  }

  function SceneJson(s: Scene): Json {
    MakeRecord(SCENE, SceneValues(s))
  }

  function ScenesJson(scenes: seq<Scene>): seq<Json> {
    seq(|scenes|, i requires 0 <= i < |scenes| => SceneJson(scenes[i]))
  }

  function ShotsJson(shots: seq<Shot>): seq<Json> {
    seq(|shots|, i requires 0 <= i < |shots| => ShotJson(shots[i]))
  }

  /** The revision the legacy text came from. */
  datatype Origin = Origin(projectId: string, chapterId: string, artifactId: string, revisionId: string, contentHash: string)

  function SourceJson(o: Origin): Json {
    MakeRecord(SOURCE, [Str(o.artifactId), Str(o.revisionId), Str(o.contentHash)])
  }

  function Candidate(o: Origin, scenes: seq<Scene>, shots: seq<Shot>): Json {
    MakeRecord(STORYBOARD, [Str(SCHEMA_VERSION), Str(o.projectId), Str(o.chapterId), SourceJson(o),
                            Arr(ScenesJson(scenes)), Arr(ShotsJson(shots))])
  }

  // ---------- key names differ, by length or by one letter ----------

  lemma SceneNamesDistinct()
    ensures DistinctNames(SCENE)
  {
  }

  lemma ShotNameLengths(i: nat)
    requires i < |SHOT|
    ensures |SHOT[i].name| == [8, 7, 10, 22, 16, 9, 12, 15, 18, 19, 17, 19, 8, 11, 13, 14][i]
  {
  }

  lemma ShotNamesAlike()
    ensures SHOT[0].name != SHOT[12].name && SHOT[9].name != SHOT[11].name
  {
  }

  lemma LengthsDiffer(i: nat, j: nat)
    requires i < j < 16 && !(i == 0 && j == 12) && !(i == 9 && j == 11)
    ensures var lengths := [8, 7, 10, 22, 16, 9, 12, 15, 18, 19, 17, 19, 8, 11, 13, 14];
            lengths[i] != lengths[j]
  {
  }

  lemma ShotNamesDistinct()
    ensures DistinctNames(SHOT)
  {
    forall i, j | 0 <= i < j < |SHOT| ensures SHOT[i].name != SHOT[j].name {
      if (i == 0 && j == 12) || (i == 9 && j == 11) {
        ShotNamesAlike();
      } else {
        ShotNameLengths(i);
        ShotNameLengths(j);
        LengthsDiffer(i, j);
      }
    }
  }

  lemma SmallNamesDistinct()
    ensures DistinctNames(VISUAL) && DistinctNames(POSITION) && DistinctNames(ACTION)
  {
  }

  lemma OtherNamesDistinct()
    ensures DistinctNames(EMOTION) && DistinctNames(DIALOGUE) && DistinctNames(CONTINUITY)
  {
  }

  lemma HeaderNamesDistinct()
    ensures DistinctNames(STORYBOARD) && DistinctNames(SOURCE)
  {
  }

  // ---------- every migrated record conforms ----------

  lemma VisualConforms(d: Shot)
    requires Filled(d)
    ensures Conforms(VisualJson(d), Record(VISUAL))
  {
    SmallNamesDistinct();
    MadeRecordConforms(VISUAL, [Str(d.framing), Str("legacy subject"), Str("legacy background"), Null]);
  }

  lemma PositionsConform(d: Shot)
    requires Filled(d)
    ensures Conforms(PositionsJson(d), Records(POSITION))
  {
    if d.pose.Some? {
      SmallNamesDistinct();
      MadeRecordConforms(POSITION, [LEGACY, Str("center"), Str("foreground"), Str(d.pose.value), Null]);
    }
  }

  lemma ActionsConform(d: Shot)
    requires Filled(d)
    ensures ActionsSound(ActionsJson(d))
  {
    if d.action.Some? {
      var values := [LEGACY, Num(1), Str(d.action.value)];
      SmallNamesDistinct();
      MadeRecordConforms(ACTION, values);
      MadeRecordHolds(ACTION, values);
      assert At(MakeRecord(ACTION, values), ACTION[1].name) == values[1];
    }
  }

  lemma EmotionConforms(d: Shot)
    requires Filled(d)
    ensures Conforms(EmotionJson(d), Records(EMOTION))
  {
    if d.emotion.Some? {
      OtherNamesDistinct();
      MadeRecordConforms(EMOTION, [LEGACY, Str(d.emotion.value), Str("medium"), Null]);
    }
  }

  lemma DialogueConforms(d: Shot)
    requires Filled(d)
    ensures Conforms(DialogueJson(d), Records(DIALOGUE))
  {
    if d.dialogue.Some? {
      OtherNamesDistinct();
      MadeRecordConforms(DIALOGUE, [LEGACY, Str(d.dialogue.value), Bool(true)]);
    }
  }

  lemma ContinuityConforms(o: Option<string>)
    requires FilledText(o)
    ensures Conforms(ContinuityJson(o), Record(CONTINUITY))
  {
    OtherNamesDistinct();
    MadeRecordConforms(CONTINUITY, [TextsJson(o), Arr([]), Null]);
  }

  /** Each of the 16 values has the shape SHOT wants at its place. */
  predicate ValuesFit(values: seq<Json>, keys: seq<Key>)
    requires |values| == |keys|
  {
    forall k :: 0 <= k < |keys| ==> Conforms(values[k], keys[k].shape)
  }

  lemma ShotTextsFit(d: Shot, k: nat)
    requires Filled(d) && d.sceneId != "" && d.shotId != "" && k < 8
    ensures Conforms(ShotValues(d)[k], SHOT[k].shape)
  {
  }

  lemma ShotRecordsFit(d: Shot, k: nat)
    requires Filled(d) && 8 <= k < 13
    ensures Conforms(ShotValues(d)[k], SHOT[k].shape)
  {
    if k == 8 { VisualConforms(d); }
    else if k == 9 { PositionsConform(d); }
    else if k == 10 { ActionsConform(d); }
    else if k == 11 { EmotionConforms(d); }
    else { DialogueConforms(d); }
  }

  lemma ShotNotesFit(d: Shot, k: nat)
    requires Filled(d) && 13 <= k < 16
    ensures Conforms(ShotValues(d)[k], SHOT[k].shape)
  {
    if k == 14 { ContinuityConforms(d.continuityIn); }
    else if k == 15 { ContinuityConforms(d.continuityOut); }
  }

  lemma ShotValuesFit(d: Shot)
    requires Filled(d) && d.sceneId != "" && d.shotId != ""
    ensures ValuesFit(ShotValues(d), SHOT)
  {
    forall k | 0 <= k < 16 ensures Conforms(ShotValues(d)[k], SHOT[k].shape) {
      if k < 8 { ShotTextsFit(d, k); }
      else if k < 13 { ShotRecordsFit(d, k); }
      else { ShotNotesFit(d, k); }
    }
  }

  /** What the order and mapping rules read of a migrated shot. */
  lemma FieldsOfMade(keys: seq<Key>, values: seq<Json>)
    requires OrderKeys(keys) && |values| == |keys| && DistinctNames(keys)
    ensures var v := MakeRecord(keys, values);
            && IdOf(v, "scene_id") == TextOf(values[0]) && IdOf(v, "shot_id") == TextOf(values[1])
            && NumberOf(v, "shot_order") == NumOf(values[2]) && NumberOf(v, "duration_seconds") == NumOf(values[4])
            && At(v, "character_actions") == values[10]
  {
    MadeRecordHolds(keys, values);
    var v := MakeRecord(keys, values);
    assert At(v, keys[0].name) == values[0] && At(v, keys[1].name) == values[1] && At(v, keys[2].name) == values[2];
    assert At(v, keys[4].name) == values[4] && At(v, keys[10].name) == values[10];
  }

  lemma ShotJsonReads(d: Shot)
    ensures var v := ShotJson(d);
            && IdOf(v, "scene_id") == d.sceneId && IdOf(v, "shot_id") == d.shotId
            && NumberOf(v, "shot_order") == d.order && NumberOf(v, "duration_seconds") == d.duration
            && At(v, "character_actions") == ActionsJson(d)
  {
    ShotNamesDistinct();
    ShotOrderKeys();
    FieldsOfMade(SHOT, ShotValues(d));
  }

  lemma ShotJsonConforms(d: Shot)
    requires Filled(d) && d.sceneId != "" && d.shotId != ""
    ensures ConformsRecord(ShotJson(d), SHOT)
  {
    ShotNamesDistinct();
    ShotValuesFit(d);
    MadeRecordConforms(SHOT, ShotValues(d));
  }

  lemma SceneJsonConforms(s: Scene)
    requires s.id != "" && s.reference != ""
    ensures ConformsRecord(SceneJson(s), SCENE)
  {
    SceneNamesDistinct();
    MadeRecordConforms(SCENE, SceneValues(s));
  }

  lemma SceneJsonReads(s: Scene)
    ensures IdOf(SceneJson(s), "scene_id") == s.id && NumberOf(SceneJson(s), "scene_order") == s.order
  {
    SceneNamesDistinct();
    MadeRecordHolds(SCENE, SceneValues(s));
    assert At(SceneJson(s), SCENE[0].name) == SceneValues(s)[0];
    assert At(SceneJson(s), SCENE[1].name) == SceneValues(s)[1];
  }

  // ---------- identifiers ----------

  lemma DigitIsIdHead(c: char)
    requires IsDigit(c)
    ensures IdHead(c) && IdTail(c) && c != '\n'
  {
  }

  lemma PaddedIdMatches(prefix: string, n: nat)
    ensures IdMatches(prefix, prefix + Padded(n))
  {
    var s, d := prefix + Padded(n), Padded(n);
    PaddedValue(n);
    forall i | 0 <= i < |d| ensures IdHead(d[i]) && IdTail(d[i]) && d[i] != '\n' {
      DigitIsIdHead(d[i]);
    }
    assert s[|s| - 1] == d[|d| - 1];
    assert s[..|prefix|] == prefix;
    assert forall i :: |prefix| <= i < |s| ==> s[i] == d[i - |prefix|];
  }

  // ---------- the scenes and shots of a parsed text ----------

  lemma MigratedScenesSound(scenes: seq<Scene>)
    requires ScenesNumbered(scenes)
    ensures ScenesSound(ScenesJson(scenes))
    ensures forall i :: 0 <= i < |scenes| ==> IdOf(ScenesJson(scenes)[i], "scene_id") == SceneId(i + 1)
  {
    var items := ScenesJson(scenes);
    forall i | 0 <= i < |items|
      ensures ConformsRecord(items[i], SCENE) && SceneIdMatches(items[i])
      ensures IdOf(items[i], "scene_id") == SceneId(i + 1) && NumberOf(items[i], "scene_order") == i + 1
    {
      SceneJsonConforms(scenes[i]);
      SceneJsonReads(scenes[i]);
      PaddedIdMatches("SCENE_", i + 1);
    }
    forall i, j | 0 <= i < j < |items| ensures IdOf(items[i], "scene_id") != IdOf(items[j], "scene_id") {
      PaddedDistinct(i + 1, j + 1);
    }
  }

  lemma KnownSceneMapped(scenes: seq<Scene>, id: string)
    requires ScenesNumbered(scenes) && KnownScene(|scenes|, id)
    ensures id in SceneIds(ScenesJson(scenes))
  {
    var n: nat :| 1 <= n <= |scenes| && id == SceneId(n);
    SceneJsonReads(scenes[n - 1]);
    assert IdOf(ScenesJson(scenes)[n - 1], "scene_id") == id;
  }

  /** A migrated shot on its own: nothing but its duration can be wrong with it. */
  lemma MigratedShotCheck(scenes: seq<Scene>, shots: seq<Shot>, i: nat)
    requires ScenesNumbered(scenes) && ShotsNumbered(shots, |scenes|) && i < |shots|
    ensures ShotCheck(ShotJson(shots[i]), SceneIds(ScenesJson(scenes)), false, false)
         == if 5 <= shots[i].duration <= 15 then None else Some(BadDuration)
  {
    var d := shots[i];
    assert ShotNumbered(shots, i, |scenes|);
    KnownSceneMapped(scenes, d.sceneId);
    PaddedIdMatches("SHOT_", i + 1);
    ShotJsonReads(d);
    ShotJsonConforms(d);
    ActionsConform(d);
    ConformingShotCheck(ShotJson(d), SceneIds(ScenesJson(scenes)));
  }

  lemma ConformingShotCheck(v: Json, sceneIds: set<string>)
    requires ConformsRecord(v, SHOT) && ShotIdMatches(v) && IdOf(v, "scene_id") in sceneIds
    requires ActionsSound(At(v, "character_actions"))
    ensures ShotCheck(v, sceneIds, false, false) == if InRange(v) then None else Some(BadDuration)
  {
    ActionsValidIff(At(v, "character_actions"));
    ShotPieces(v);
  }

  lemma MigratedShotFault(scenes: seq<Scene>, shots: seq<Shot>, i: nat)
    requires ScenesNumbered(scenes) && ShotsNumbered(shots, |scenes|) && i < |shots|
    ensures ShotFaults(ShotsJson(shots), SceneIds(ScenesJson(scenes)))[i]
         == if 5 <= shots[i].duration <= 15 then None else Some(BadDuration)
  {
    var items := ShotsJson(shots);
    forall j | 0 <= j <= i
      ensures IdOf(items[j], "shot_id") == shots[j].shotId && IdOf(items[j], "scene_id") == shots[j].sceneId
      ensures NumberOf(items[j], "shot_order") == shots[j].order
    {
      ShotJsonReads(shots[j]);
    }
    forall j | 0 <= j < i
      ensures shots[j].shotId != shots[i].shotId && (shots[j].sceneId == shots[i].sceneId ==> shots[j].order < shots[i].order)
    {
      NumberedShotsRise(shots, |scenes|, j, i);
    }
    NumberedShotPositive(shots, |scenes|, i);
    assert !ShotIdTaken(items, i) && !ShotOutOfOrder(items, i);
    MigratedShotCheck(scenes, shots, i);
  }

  predicate DurationsInRange(shots: seq<Shot>) {
    forall i :: 0 <= i < |shots| ==> 5 <= shots[i].duration <= 15
  }

  lemma {:induction false} OnlyOneFault(faults: seq<Option<Fault>>, f: Fault)
    requires forall i :: 0 <= i < |faults| ==> faults[i] == None || faults[i] == Some(f)
    ensures FirstFault(faults) == if exists i :: 0 <= i < |faults| && faults[i].Some? then Some(f) else None
  {
    if faults != [] {
      OnlyOneFault(faults[1..], f);
      assert forall i :: 0 < i < |faults| ==> faults[i] == faults[1..][i - 1];
    }
  }

  lemma MigratedShotsFault(scenes: seq<Scene>, shots: seq<Shot>)
    requires ScenesNumbered(scenes) && ShotsNumbered(shots, |scenes|)
    ensures ShotsFault(ShotsJson(shots), SceneIds(ScenesJson(scenes)))
         == if DurationsInRange(shots) then None else Some(BadDuration)
  {
    var faults := ShotFaults(ShotsJson(shots), SceneIds(ScenesJson(scenes)));
    forall i | 0 <= i < |shots| ensures faults[i] == if 5 <= shots[i].duration <= 15 then None else Some(BadDuration) {
      MigratedShotFault(scenes, shots, i);
    }
    OnlyOneFault(faults, BadDuration);
  }

  predicate Identified(o: Origin) {
    o.projectId != "" && o.chapterId != "" && o.artifactId != "" && o.revisionId != "" && o.contentHash != ""
  }

  lemma HeaderReads(o: Origin, scenes: seq<Scene>, shots: seq<Shot>)
    requires Identified(o)
    ensures var v := Candidate(o, scenes, shots);
            && HeaderFault(v) == None
            && At(v, "scenes") == Arr(ScenesJson(scenes)) && At(v, "shots") == Arr(ShotsJson(shots))
  {
    HeaderNamesDistinct();
    var values := [Str(SCHEMA_VERSION), Str(o.projectId), Str(o.chapterId), SourceJson(o),
                   Arr(ScenesJson(scenes)), Arr(ShotsJson(shots))];
    MadeRecordConforms(SOURCE, [Str(o.artifactId), Str(o.revisionId), Str(o.contentHash)]);
    MadeRecordHolds(STORYBOARD, values);
    var v := MakeRecord(STORYBOARD, values);
    assert At(v, STORYBOARD[0].name) == values[0] && At(v, STORYBOARD[1].name) == values[1];
    assert At(v, STORYBOARD[2].name) == values[2] && At(v, STORYBOARD[3].name) == values[3];
    assert At(v, STORYBOARD[4].name) == values[4] && At(v, STORYBOARD[5].name) == values[5];
  }

  /** Whenever the line parser returns and the source ids are not empty, the candidate is valid if and only
      if every duration is from 5 to 15 seconds, and the only fault it can have is a duration. */
  lemma MigrationFaultsOnlyDurations(lines: seq<Line>, toInt: ToInt, o: Origin)
    requires ParseLegacy(lines, toInt).Ok? && Identified(o)
    ensures var (scenes, shots) := ParseLegacy(lines, toInt).value;
            StoryboardFault(Candidate(o, scenes, shots)) == if DurationsInRange(shots) then None else Some(BadDuration)
  {
    ParsedIsNumbered(lines, toInt);
    var (scenes, shots) := ParseLegacy(lines, toInt).value;
    HeaderReads(o, scenes, shots);
    MigratedScenesSound(scenes);
    ScenesValidIff(ScenesJson(scenes));
    MigratedShotsFault(scenes, shots);
  }

  method LegacyMarkdownToCanonical(lines: seq<Line>, toInt: ToInt, o: Origin)
    returns (candidate: Option<Json>, error: Option<MigrationError>, fault: Option<Fault>)
    ensures match ParseLegacy(lines, toInt)
            case Err(e) => candidate == None && error == Some(e) && fault == None
            case Ok((scenes, shots)) =>
              && error == None && fault == StoryboardFault(Candidate(o, scenes, shots))
              && candidate == if fault.Some? then None else Some(Candidate(o, scenes, shots))
  {
    var parsed := ParseLegacyShots(lines, toInt);
    if parsed.Err? {
      return None, Some(parsed.error), None;
    }
    var built := Candidate(o, parsed.value.0, parsed.value.1);
    fault := ValidateStoryboardCanonical(built);
    return if fault.Some? then None else Some(built), None, fault;
  }
}

/** Which fault the validator reports on the shots and on the storyboard around them, with the keys, the
    bounds and the order of the checks written out (ai_drama_runtime/storyboard_canonical.py). */
module ShotLaw {
  import opened Wrappers
  import opened JsonText
  import opened JsonSchema
  import opened SchemaLaw
  import opened Storyboard
  import opened StoryboardShots
  import opened StoryboardValidation
  import opened ValidatorLaw

  // ---------- one shot ----------

  ghost predicate ShotNames(v: Json) {
    ExactKeys(v, ["scene_id", "shot_id", "shot_order", "source_scene_reference", "duration_seconds", "shot_size",
                  "camera_angle", "camera_movement", "visual_composition", "character_positions", "character_actions",
                  "emotion_performance", "dialogue", "sound_notes", "continuity_in", "continuity_out"])
  }

  /** What is checked before the actions, and after the duration. */
  ghost predicate CameraDict(v: Json) {
    && HasText(v, "shot_size") && HasText(v, "camera_angle") && HasDictOrNull(v, "camera_movement")
    && HasVisual(v, "visual_composition") && HasPositions(v, "character_positions")
  }

  ghost predicate ShotDict(v: Json) {
    && ShotNames(v) && HasText(v, "scene_id") && HasText(v, "shot_id") && HasInteger(v, "shot_order")
    && HasText(v, "source_scene_reference") && HasInteger(v, "duration_seconds") && CameraDict(v)
    && HasActions(v, "character_actions") && HasEmotions(v, "emotion_performance") && HasDialogue(v, "dialogue")
    && HasTexts(v, "sound_notes") && HasContinuity(v, "continuity_in") && HasContinuity(v, "continuity_out")
  }

  ghost predicate Mapped(v: Json, sceneIds: set<string>) {
    exists id :: Under(v, "scene_id", Str(id)) && id in sceneIds
  }

  ghost predicate FiveToFifteen(v: Json) {
    exists n :: Under(v, "duration_seconds", Num(n)) && 5 <= n <= 15
  }

  ghost predicate AboveInScene(shots: seq<Json>, i: nat, scene: string, n: int)
    requires i <= |shots|
  {
    forall j, m :: 0 <= j < i && Under(shots[j], "scene_id", Str(scene)) && Under(shots[j], "shot_order", Num(m)) ==> m < n
  }

  /** The order is positive and above those of the earlier shots of the same scene. */
  ghost predicate RisingInScene(shots: seq<Json>, i: nat)
    requires i < |shots|
  {
    exists scene, n ::
      Under(shots[i], "scene_id", Str(scene)) && Under(shots[i], "shot_order", Num(n)) && n > 0 && AboveInScene(shots, i, scene, n)
  }

  ghost predicate ActionsInOrder(v: Json) {
    exists x :: Under(v, "character_actions", x) && ActionsStand(x)
  }

  ghost predicate ShotStands(shots: seq<Json>, sceneIds: set<string>, i: nat)
    requires i < |shots|
  {
    && ShotDict(shots[i]) && Mapped(shots[i], sceneIds) && FreshId(shots, i, "shot_id", "SHOT_") && RisingInScene(shots, i)
    && FiveToFifteen(shots[i]) && ActionsInOrder(shots[i])
  }

  /** The checks that come before the camera, in order. */
  ghost function EarlyCode(shots: seq<Json>, sceneIds: set<string>, i: nat): Option<Fault>
    requires i < |shots|
  {
    var v := shots[i];
    if !ShotNames(v) || !HasText(v, "scene_id") then Some(BadSchema)
    else if !Mapped(v, sceneIds) then Some(BadMapping)
    else if !HasText(v, "shot_id") then Some(BadSchema)
    else if !FreshId(shots, i, "shot_id", "SHOT_") then Some(BadId)
    else if !HasInteger(v, "shot_order") then Some(BadSchema)
    else if !RisingInScene(shots, i) then Some(BadOrder)
    else if !HasText(v, "source_scene_reference") || !HasInteger(v, "duration_seconds") then Some(BadSchema)
    else if !FiveToFifteen(v) then Some(BadDuration)
    else None
  }

  /** What the validator says of a shot that does not stand: a fault of its actions is reported as it is. */
  ghost function ShotCode(shots: seq<Json>, sceneIds: set<string>, i: nat): Option<Fault>
    requires i < |shots|
  {
    var v := shots[i];
    if EarlyCode(shots, sceneIds, i).Some? then EarlyCode(shots, sceneIds, i)
    else if !CameraDict(v) then Some(BadSchema)
    else if !ActionsInOrder(v) then ActionsFault(At(v, "character_actions"))
    else Some(BadSchema)
  }

  // ---------- reading the sixteen keys ----------

  const FIRST_KEYS: seq<Key> := [
    Key("scene_id", Text), Key("shot_id", Text), Key("shot_order", Integer), Key("source_scene_reference", Text)]

  const SECOND_KEYS: seq<Key> := [
    Key("duration_seconds", Integer), Key("shot_size", Text), Key("camera_angle", Text), Key("camera_movement", NullableObject)]

  const THIRD_KEYS: seq<Key> := [
    Key("visual_composition", Record(VISUAL)), Key("character_positions", Records(POSITION)),
    Key("character_actions", Records(ACTION)), Key("emotion_performance", Records(EMOTION))]

  const FOURTH_KEYS: seq<Key> := [
    Key("dialogue", Records(DIALOGUE)), Key("sound_notes", Texts), Key("continuity_in", Record(CONTINUITY)),
    Key("continuity_out", Record(CONTINUITY))]

  predicate ShotTable(keys: seq<Key>) {
    keys == FIRST_KEYS + SECOND_KEYS + THIRD_KEYS + FOURTH_KEYS
  }

  lemma ShotIsTable()
    ensures ShotTable(SHOT)
  {
  }

  lemma ShotNamesOf(keys: seq<Key>)
    requires ShotTable(keys)
    ensures NamesOf(["scene_id", "shot_id", "shot_order", "source_scene_reference", "duration_seconds", "shot_size",
                     "camera_angle", "camera_movement", "visual_composition", "character_positions", "character_actions",
                     "emotion_performance", "dialogue", "sound_notes", "continuity_in", "continuity_out"], keys)
  {
  }

  lemma FirstShapes(v: Json)
    requires WellFormed(v)
    ensures AllShapes(v, FIRST_KEYS) <==>
              && HasText(v, "scene_id") && HasText(v, "shot_id") && HasInteger(v, "shot_order")
              && HasText(v, "source_scene_reference")
  {
    FourShapes(v, FIRST_KEYS, Key("scene_id", Text), Key("shot_id", Text), Key("shot_order", Integer), Key("source_scene_reference", Text));
    TextRead(v, "scene_id");
    TextRead(v, "shot_id");
    IntegerRead(v, "shot_order");
    TextRead(v, "source_scene_reference");
  }

  lemma SecondShapes(v: Json)
    requires WellFormed(v)
    ensures AllShapes(v, SECOND_KEYS) <==>
              && HasInteger(v, "duration_seconds") && HasText(v, "shot_size") && HasText(v, "camera_angle")
              && HasDictOrNull(v, "camera_movement")
  {
    FourShapes(v, SECOND_KEYS, Key("duration_seconds", Integer), Key("shot_size", Text), Key("camera_angle", Text),
               Key("camera_movement", NullableObject));
    IntegerRead(v, "duration_seconds");
    TextRead(v, "shot_size");
    TextRead(v, "camera_angle");
    DictRead(v, "camera_movement");
  }

  lemma ThirdShapes(v: Json)
    requires WellFormed(v)
    ensures AllShapes(v, THIRD_KEYS) <==>
              && HasVisual(v, "visual_composition") && HasPositions(v, "character_positions")
              && HasActions(v, "character_actions") && HasEmotions(v, "emotion_performance")
  {
    FourShapes(v, THIRD_KEYS, Key("visual_composition", Record(VISUAL)), Key("character_positions", Records(POSITION)),
               Key("character_actions", Records(ACTION)), Key("emotion_performance", Records(EMOTION)));
    HasVisualIff(v, "visual_composition");
    HasPositionsIff(v, "character_positions");
    HasActionsIff(v, "character_actions");
    HasEmotionsIff(v, "emotion_performance");
  }

  lemma FourthShapes(v: Json)
    requires WellFormed(v)
    ensures AllShapes(v, FOURTH_KEYS) <==>
              && HasDialogue(v, "dialogue") && HasTexts(v, "sound_notes") && HasContinuity(v, "continuity_in")
              && HasContinuity(v, "continuity_out")
  {
    FourShapes(v, FOURTH_KEYS, Key("dialogue", Records(DIALOGUE)), Key("sound_notes", Texts),
               Key("continuity_in", Record(CONTINUITY)), Key("continuity_out", Record(CONTINUITY)));
    HasDialogueIff(v, "dialogue");
    TextsRead(v, "sound_notes");
    HasContinuityIff(v, "continuity_in");
    HasContinuityIff(v, "continuity_out");
  }

  lemma FourParts(v: Json, keys: seq<Key>, a: seq<Key>, b: seq<Key>, c: seq<Key>, d: seq<Key>)
    requires keys == a + b + c + d
    ensures AllShapes(v, keys) <==> AllShapes(v, a) && AllShapes(v, b) && AllShapes(v, c) && AllShapes(v, d)
  {
    JoinedShapes(v, a, b);
    JoinedShapes(v, a + b, c);
    JoinedShapes(v, a + b + c, d);
  }

  lemma ShotShapes(v: Json, keys: seq<Key>)
    requires WellFormed(v) && ShotTable(keys) && ShotNames(v)
    ensures AllShapes(v, keys) <==> ShotDict(v)
  {
    FourParts(v, keys, FIRST_KEYS, SECOND_KEYS, THIRD_KEYS, FOURTH_KEYS);
    FirstShapes(v);
    SecondShapes(v);
    ThirdShapes(v);
    FourthShapes(v);
  }

  lemma ShotKeysRead(v: Json, keys: seq<Key>)
    requires WellFormed(v) && ShotTable(keys)
    ensures HasKeys(v, keys) <==> ShotNames(v)
    ensures ConformsRecord(v, keys) <==> ShotNames(v) && AllShapes(v, keys)
  {
    var names := ["scene_id", "shot_id", "shot_order", "source_scene_reference", "duration_seconds", "shot_size",
                  "camera_angle", "camera_movement", "visual_composition", "character_positions", "character_actions",
                  "emotion_performance", "dialogue", "sound_notes", "continuity_in", "continuity_out"];
    ShotNamesOf(keys);
    ExactKeysIff(v, names, keys);
    RecordRead(v, names, keys);
  }

  lemma ShotRead(v: Json)
    requires WellFormed(v)
    ensures HasKeys(v, SHOT) <==> ShotNames(v)
    ensures ConformsRecord(v, SHOT) <==> ShotDict(v)
  {
    ShotIsTable();
    ShotKeysRead(v, SHOT);
    if ShotNames(v) { ShotShapes(v, SHOT); }
  }

  lemma CameraRead(v: Json)
    requires WellFormed(v) && ShotNames(v)
    ensures CameraConforms(v) <==> CameraDict(v)
  {
    TextRead(v, "shot_size");
    TextRead(v, "camera_angle");
    DictRead(v, "camera_movement");
    HasVisualIff(v, "visual_composition");
    HasPositionsIff(v, "character_positions");
    ShapeRead(v, "camera_movement", NullableObject);
    ShapeRead(v, "visual_composition", Record(VISUAL));
    ShapeRead(v, "character_positions", Records(POSITION));
    NameIsPresent(v, "camera_movement");
    NameIsPresent(v, "visual_composition");
    NameIsPresent(v, "character_positions");
  }

  lemma NameIsPresent(v: Json, key: string)
    requires WellFormed(v) && ShotNames(v)
    requires key == "camera_movement" || key == "visual_composition" || key == "character_positions" || key == "character_actions"
    ensures Present(v, key)
  {
    PresentIff(v, key);
  }

  lemma ActionsRead(v: Json)
    requires WellFormed(v) && ShotNames(v)
    ensures ActionsFault(At(v, "character_actions")) == None <==> ActionsInOrder(v)
  {
    var x := At(v, "character_actions");
    NameIsPresent(v, "character_actions");
    ReadUnder(v, "character_actions");
    AtIsWellFormed(v, "character_actions");
    ActionsAcceptedByTables(x);
    forall y | Under(v, "character_actions", y) ensures y == x {
      UnderRead(v, "character_actions", y);
    }
  }

  // ---------- mapping, duration, order ----------

  lemma MappedIff(v: Json, sceneIds: set<string>)
    requires WellFormed(v) && HasText(v, "scene_id")
    ensures Mapped(v, sceneIds) <==> IdOf(v, "scene_id") in sceneIds
  {
    TextRead(v, "scene_id");
    forall id | Under(v, "scene_id", Str(id)) ensures id == IdOf(v, "scene_id") {
      UnderRead(v, "scene_id", Str(id));
    }
  }

  lemma DurationIff(v: Json)
    requires WellFormed(v)
    ensures FiveToFifteen(v) <==> InRange(v)
  {
    NumberRead(v, "duration_seconds", NumberOf(v, "duration_seconds"));
    forall n | Under(v, "duration_seconds", Num(n)) ensures n == NumberOf(v, "duration_seconds") {
      NumberRead(v, "duration_seconds", n);
    }
  }

  ghost predicate AllBelow(shots: seq<Json>, i: nat, scene: string, n: int)
    requires i <= |shots|
  {
    forall j :: 0 <= j < i && IdOf(shots[j], "scene_id") == scene ==> NumberOf(shots[j], "shot_order") < n
  }

  lemma AboveInSceneIff(shots: seq<Json>, i: nat, scene: string, n: int)
    requires AllWellFormed(shots) && i <= |shots| && n > 0 && scene != ""
    ensures AboveInScene(shots, i, scene, n) <==> AllBelow(shots, i, scene, n)
  {
    forall j | 0 <= j < i ensures Under(shots[j], "scene_id", Str(scene)) <==> IdOf(shots[j], "scene_id") == scene {
      IdRead(shots[j], "scene_id", scene);
    }
    forall j, m | 0 <= j < i && Under(shots[j], "shot_order", Num(m)) ensures NumberOf(shots[j], "shot_order") == m {
      NumberRead(shots[j], "shot_order", m);
    }
    forall j | 0 <= j < i && NumberOf(shots[j], "shot_order") != 0
      ensures Under(shots[j], "shot_order", Num(NumberOf(shots[j], "shot_order")))
    {
      NumberRead(shots[j], "shot_order", NumberOf(shots[j], "shot_order"));
    }
  }

  lemma RisingInSceneRead(shots: seq<Json>, i: nat)
    requires AllWellFormed(shots) && i < |shots| && HasText(shots[i], "scene_id") && HasInteger(shots[i], "shot_order")
    ensures var scene, n := IdOf(shots[i], "scene_id"), NumberOf(shots[i], "shot_order");
            RisingInScene(shots, i) <==> n > 0 && AboveInScene(shots, i, scene, n)
  {
    TextRead(shots[i], "scene_id");
    IntegerRead(shots[i], "shot_order");
    forall s | Under(shots[i], "scene_id", Str(s)) ensures s == IdOf(shots[i], "scene_id") {
      UnderRead(shots[i], "scene_id", Str(s));
    }
    forall m | Under(shots[i], "shot_order", Num(m)) ensures m == NumberOf(shots[i], "shot_order") {
      UnderRead(shots[i], "shot_order", Num(m));
    }
  }

  lemma RisingInSceneIff(shots: seq<Json>, i: nat)
    requires AllWellFormed(shots) && i < |shots| && HasText(shots[i], "scene_id") && HasInteger(shots[i], "shot_order")
    ensures RisingInScene(shots, i) <==> !ShotOutOfOrder(shots, i)
  {
    var scene, n := IdOf(shots[i], "scene_id"), NumberOf(shots[i], "shot_order");
    RisingInSceneRead(shots, i);
    TextRead(shots[i], "scene_id");
    UnderRead(shots[i], "scene_id", Str(scene));
    if n > 0 { AboveInSceneIff(shots, i, scene, n); }
  }

  lemma ShotIdIff(shots: seq<Json>, i: nat)
    requires AllWellFormed(shots) && i < |shots| && HasText(shots[i], "shot_id")
    ensures FreshId(shots, i, "shot_id", "SHOT_") <==> ShotIdMatches(shots[i]) && !ShotIdTaken(shots, i)
  {
    FreshIdIff(shots, i, "shot_id", "SHOT_");
  }

  // ---------- the fault of a shot ----------

  /** The checks before the camera, as the code takes them. */
  function EarlyCheck(v: Json, sceneIds: set<string>, taken: bool, outOfOrder: bool): Option<Fault> {
    if !HasKeys(v, SHOT) || !Conforms(At(v, "scene_id"), Text) then Some(BadSchema)
    else if IdOf(v, "scene_id") !in sceneIds then Some(BadMapping)
    else if !Conforms(At(v, "shot_id"), Text) then Some(BadSchema)
    else if !ShotIdMatches(v) || taken then Some(BadId)
    else if !Conforms(At(v, "shot_order"), Integer) then Some(BadSchema)
    else if outOfOrder then Some(BadOrder)
    else if !Conforms(At(v, "source_scene_reference"), Text) || !Conforms(At(v, "duration_seconds"), Integer) then Some(BadSchema)
    else if !InRange(v) then Some(BadDuration)
    else None
  }

  lemma CheckSplits(v: Json, sceneIds: set<string>, taken: bool, outOfOrder: bool)
    ensures ShotCheck(v, sceneIds, taken, outOfOrder)
         == var early := EarlyCheck(v, sceneIds, taken, outOfOrder);
            if early.Some? then early
            else if !CameraConforms(v) then Some(BadSchema)
            else if ActionsFault(At(v, "character_actions")).Some? then ActionsFault(At(v, "character_actions"))
            else if !ConformsRecord(v, SHOT) then Some(BadSchema)
            else None
  {
  }

  lemma TextsOfShotRead(v: Json)
    requires WellFormed(v)
    ensures HasText(v, "scene_id") <==> Conforms(At(v, "scene_id"), Text)
    ensures HasText(v, "shot_id") <==> Conforms(At(v, "shot_id"), Text)
    ensures HasInteger(v, "shot_order") <==> Conforms(At(v, "shot_order"), Integer)
    ensures HasText(v, "source_scene_reference") <==> Conforms(At(v, "source_scene_reference"), Text)
    ensures HasInteger(v, "duration_seconds") <==> Conforms(At(v, "duration_seconds"), Integer)
  {
    TextRead(v, "scene_id");
    TextRead(v, "shot_id");
    IntegerRead(v, "shot_order");
    TextRead(v, "source_scene_reference");
    IntegerRead(v, "duration_seconds");
  }

  /** What depends on the scenes and on the earlier shots. */
  lemma ConditionsRead(shots: seq<Json>, sceneIds: set<string>, i: nat)
    requires AllWellFormed(shots) && i < |shots|
    ensures var v := shots[i];
            && (HasText(v, "scene_id") ==> (Mapped(v, sceneIds) <==> IdOf(v, "scene_id") in sceneIds))
            && (HasText(v, "shot_id") ==> (FreshId(shots, i, "shot_id", "SHOT_") <==> ShotIdMatches(v) && !ShotIdTaken(shots, i)))
            && (HasText(v, "scene_id") && HasInteger(v, "shot_order") ==> (RisingInScene(shots, i) <==> !ShotOutOfOrder(shots, i)))
  {
    if HasText(shots[i], "scene_id") { MappedIff(shots[i], sceneIds); }
    if HasText(shots[i], "shot_id") { ShotIdIff(shots, i); }
    if HasText(shots[i], "scene_id") && HasInteger(shots[i], "shot_order") { RisingInSceneIff(shots, i); }
  }

  lemma EarlyRead(shots: seq<Json>, sceneIds: set<string>, i: nat)
    requires AllWellFormed(shots) && i < |shots|
    ensures EarlyCheck(shots[i], sceneIds, ShotIdTaken(shots, i), ShotOutOfOrder(shots, i)) == EarlyCode(shots, sceneIds, i)
  {
    var v := shots[i];
    ShotRead(v);
    TextsOfShotRead(v);
    ConditionsRead(shots, sceneIds, i);
    DurationIff(v);
  }

  lemma EarlyPasses(shots: seq<Json>, sceneIds: set<string>, i: nat)
    requires i < |shots|
    ensures ShotStands(shots, sceneIds, i)
       <==> EarlyCode(shots, sceneIds, i).None? && ShotDict(shots[i]) && ActionsInOrder(shots[i])
    ensures EarlyCode(shots, sceneIds, i).None? ==> ShotNames(shots[i])
  {
  }

  lemma LateRead(v: Json)
    requires WellFormed(v) && ShotNames(v)
    ensures CameraConforms(v) <==> CameraDict(v)
    ensures ActionsFault(At(v, "character_actions")) == None <==> ActionsInOrder(v)
    ensures ConformsRecord(v, SHOT) <==> ShotDict(v)
    ensures ShotDict(v) ==> CameraDict(v)
  {
    ShotRead(v);
    CameraRead(v);
    ActionsRead(v);
  }

  lemma ShotFaultRead(shots: seq<Json>, sceneIds: set<string>, i: nat)
    requires AllWellFormed(shots) && i < |shots|
    ensures ShotFaults(shots, sceneIds)[i] == if ShotStands(shots, sceneIds, i) then None else ShotCode(shots, sceneIds, i)
    ensures !ShotStands(shots, sceneIds, i) ==> ShotCode(shots, sceneIds, i).Some?
  {
    CheckSplits(shots[i], sceneIds, ShotIdTaken(shots, i), ShotOutOfOrder(shots, i));
    EarlyRead(shots, sceneIds, i);
    EarlyPasses(shots, sceneIds, i);
    if EarlyCode(shots, sceneIds, i).None? { LateRead(shots[i]); }
  }

  /** The shots are accepted exactly when all stand. */
  lemma ShotsAcceptedByTables(shots: seq<Json>, sceneIds: set<string>)
    requires AllWellFormed(shots)
    ensures ShotsFault(shots, sceneIds) == None <==> forall i :: 0 <= i < |shots| ==> ShotStands(shots, sceneIds, i)
  {
    FirstFaultNone(ShotFaults(shots, sceneIds));
    forall i | 0 <= i < |shots| ensures ShotFaults(shots, sceneIds)[i] == None <==> ShotStands(shots, sceneIds, i) {
      ShotFaultRead(shots, sceneIds, i);
    }
  }

  /** The first shot that does not stand decides the fault. */
  lemma ShotFaultByTables(shots: seq<Json>, sceneIds: set<string>, i: nat)
    requires AllWellFormed(shots) && i < |shots| && !ShotStands(shots, sceneIds, i)
    requires forall j :: 0 <= j < i ==> ShotStands(shots, sceneIds, j)
    ensures ShotsFault(shots, sceneIds) == ShotCode(shots, sceneIds, i)
  {
    var faults := ShotFaults(shots, sceneIds);
    forall j | 0 <= j < i ensures faults[j] == None {
      ShotFaultRead(shots, sceneIds, j);
    }
    ShotFaultRead(shots, sceneIds, i);
    FirstFaultAt(faults, i);
  }

  // ---------- the storyboard ----------

  ghost predicate HeaderDict(v: Json) {
    && ExactKeys(v, ["schema_version", "project_id", "chapter_id", "source", "scenes", "shots"])
    && Under(v, "schema_version", Str("storyboard-canonical-v1"))
    && HasText(v, "project_id") && HasText(v, "chapter_id") && HasSource(v, "source")
  }

  lemma HeaderRead(v: Json)
    requires WellFormed(v)
    ensures HeaderFault(v) == if HeaderDict(v) then None else Some(BadSchema)
  {
    ExactKeysIff(v, ["schema_version", "project_id", "chapter_id", "source", "scenes", "shots"], STORYBOARD);
    if ExactKeys(v, ["schema_version", "project_id", "chapter_id", "source", "scenes", "shots"]) {
      HeaderFieldsRead(v);
    }
  }

  lemma HeaderFieldsRead(v: Json)
    requires WellFormed(v) && ExactKeys(v, ["schema_version", "project_id", "chapter_id", "source", "scenes", "shots"])
    ensures At(v, "schema_version") == Str(SCHEMA_VERSION) <==> Under(v, "schema_version", Str("storyboard-canonical-v1"))
    ensures Conforms(At(v, "project_id"), Text) <==> HasText(v, "project_id")
    ensures Conforms(At(v, "chapter_id"), Text) <==> HasText(v, "chapter_id")
    ensures Conforms(At(v, "source"), Record(SOURCE)) <==> HasSource(v, "source")
  {
    TextRead(v, "project_id");
    TextRead(v, "chapter_id");
    HasSourceIff(v, "source");
    ShapeRead(v, "source", Record(SOURCE));
    PresentIff(v, "source");
    IdRead(v, "schema_version", "storyboard-canonical-v1");
  }

  lemma SceneIdsByTables(scenes: seq<Json>, id: string)
    requires AllWellFormed(scenes) && id != ""
    ensures id in SceneIds(scenes) <==> exists i :: 0 <= i < |scenes| && Under(scenes[i], "scene_id", Str(id))
  {
    forall i | 0 <= i < |scenes| ensures Under(scenes[i], "scene_id", Str(id)) <==> IdOf(scenes[i], "scene_id") == id {
      IdRead(scenes[i], "scene_id", id);
    }
    if id in SceneIds(scenes) {
      var i :| 0 <= i < |scenes| && IdOf(scenes[i], "scene_id") == id;
      assert Under(scenes[i], "scene_id", Str(id));
    }
  }

  /** The header is checked first, then the scenes, then the shots against the ids of those scenes. */
  lemma StoryboardByTables(v: Json, scenes: Json, shots: Json)
    requires WellFormed(v) && HeaderDict(v) && Under(v, "scenes", scenes) && Under(v, "shots", shots)
    ensures StoryboardFault(v) ==
              if !scenes.Arr? then Some(BadSchema)
              else if ScenesFault(scenes.items).Some? then ScenesFault(scenes.items)
              else if !shots.Arr? then Some(BadSchema)
              else ShotsFault(shots.items, SceneIds(scenes.items))
  {
    HeaderRead(v);
    UnderRead(v, "scenes", scenes);
    UnderRead(v, "shots", shots);
  }

  lemma BadHeaderByTables(v: Json)
    requires WellFormed(v) && !HeaderDict(v)
    ensures StoryboardFault(v) == Some(BadSchema)
  {
    HeaderRead(v);
  }
}

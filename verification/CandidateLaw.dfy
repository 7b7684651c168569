/** The dicts a legacy storyboard is migrated to, key by key, and the three-digit ids
    (ai_drama_runtime/storyboard_migration.py). */
module CandidateLaw {
  import opened Wrappers
  import opened JsonText
  import opened JsonRoundTrip
  import opened JsonSchema
  import opened SchemaLaw
  import opened Storyboard
  import opened StoryboardMigration
  import opened LegacyCandidate

  /** Decimal, at least three digits, and no zero in front of more than three. */
  lemma PaddedByDigits(n: nat)
    ensures var s := Padded(n);
            && |s| >= 3 && (forall i :: 0 <= i < |s| ==> 48 <= s[i] as int <= 57) && DecimalValue(s) == n
            && (|s| > 3 ==> s[0] != '0')
  {
    PaddedValue(n);
    DigitsShape(n);
    forall i | 0 <= i < |Padded(n)| ensures 48 <= Padded(n)[i] as int <= 57 {
      assert IsDigit(Padded(n)[i]);
    }
  }

  lemma IdsByTables(n: nat)
    ensures SceneId(n) == "SCENE_" + Padded(n) && ShotId(n) == "SHOT_" + Padded(n)
  {
  }

  lemma MadeUnder(keys: seq<Key>, values: seq<Json>, k: nat, key: string, x: Json)
    requires |keys| == |values| && k < |keys| && keys[k].name == key && values[k] == x
    ensures Under(MakeRecord(keys, values), key, x)
  {
    assert MakeRecord(keys, values).fields[k] == Field(key, x);
  }

  lemma VisualByTables(d: Shot)
    ensures var v := VisualJson(d);
            && Under(v, "framing", Str(d.framing)) && Under(v, "subject_focus", Str("legacy subject"))
            && Under(v, "background_relation", Str("legacy background")) && Under(v, "screen_direction", Null)
  {
    var values := [Str(d.framing), Str("legacy subject"), Str("legacy background"), Null];
    MadeUnder(VISUAL, values, 0, "framing", Str(d.framing));
    MadeUnder(VISUAL, values, 1, "subject_focus", Str("legacy subject"));
    MadeUnder(VISUAL, values, 2, "background_relation", Str("legacy background"));
    MadeUnder(VISUAL, values, 3, "screen_direction", Null);
  }

  predicate NothingFor(v: Json, o: Option<string>) {
    o.None? ==> v == Arr([])
  }

  predicate OneFor(v: Json, o: Option<string>) {
    o.Some? ==> v.Arr? && |v.items| == 1
  }

  lemma PositionsByTables(d: Shot)
    ensures NothingFor(PositionsJson(d), d.pose) && OneFor(PositionsJson(d), d.pose)
    ensures d.pose.Some? ==>
              var v := PositionsJson(d).items[0];
              && Under(v, "character_id", Str("CHAR_LEGACY")) && Under(v, "screen_zone", Str("center"))
              && Under(v, "depth", Str("foreground")) && Under(v, "pose", Str(d.pose.value)) && Under(v, "facing", Null)
  {
    if d.pose.Some? {
      var values := [LEGACY, Str("center"), Str("foreground"), Str(d.pose.value), Null];
      MadeUnder(POSITION, values, 0, "character_id", Str("CHAR_LEGACY"));
      MadeUnder(POSITION, values, 1, "screen_zone", Str("center"));
      MadeUnder(POSITION, values, 2, "depth", Str("foreground"));
      MadeUnder(POSITION, values, 3, "pose", Str(d.pose.value));
      MadeUnder(POSITION, values, 4, "facing", Null);
    }
  }

  lemma ActionsByTables(d: Shot)
    ensures NothingFor(ActionsJson(d), d.action) && OneFor(ActionsJson(d), d.action)
    ensures d.action.Some? ==>
              var v := ActionsJson(d).items[0];
              && Under(v, "character_id", Str("CHAR_LEGACY")) && Under(v, "action_order", Num(1))
              && Under(v, "action", Str(d.action.value))
  {
    if d.action.Some? {
      var values := [LEGACY, Num(1), Str(d.action.value)];
      MadeUnder(ACTION, values, 0, "character_id", Str("CHAR_LEGACY"));
      MadeUnder(ACTION, values, 1, "action_order", Num(1));
      MadeUnder(ACTION, values, 2, "action", Str(d.action.value));
    }
  }

  lemma EmotionByTables(d: Shot)
    ensures NothingFor(EmotionJson(d), d.emotion) && OneFor(EmotionJson(d), d.emotion)
    ensures d.emotion.Some? ==>
              var v := EmotionJson(d).items[0];
              && Under(v, "character_id", Str("CHAR_LEGACY")) && Under(v, "emotion", Str(d.emotion.value))
              && Under(v, "intensity", Str("medium")) && Under(v, "performance_note", Null)
  {
    if d.emotion.Some? {
      var values := [LEGACY, Str(d.emotion.value), Str("medium"), Null];
      MadeUnder(EMOTION, values, 0, "character_id", Str("CHAR_LEGACY"));
      MadeUnder(EMOTION, values, 1, "emotion", Str(d.emotion.value));
      MadeUnder(EMOTION, values, 2, "intensity", Str("medium"));
      MadeUnder(EMOTION, values, 3, "performance_note", Null);
    }
  }

  lemma DialogueByTables(d: Shot)
    ensures NothingFor(DialogueJson(d), d.dialogue) && OneFor(DialogueJson(d), d.dialogue)
    ensures d.dialogue.Some? ==>
              var v := DialogueJson(d).items[0];
              && Under(v, "speaker_character_id", Str("CHAR_LEGACY")) && Under(v, "text", Str(d.dialogue.value))
              && Under(v, "lip_sync_required", Bool(true))
  {
    if d.dialogue.Some? {
      var values := [LEGACY, Str(d.dialogue.value), Bool(true)];
      MadeUnder(DIALOGUE, values, 0, "speaker_character_id", Str("CHAR_LEGACY"));
      MadeUnder(DIALOGUE, values, 1, "text", Str(d.dialogue.value));
      MadeUnder(DIALOGUE, values, 2, "lip_sync_required", Bool(true));
    }
  }

  predicate ListOf(v: Json, o: Option<string>) {
    v == match o
         case None => Arr([])
         case Some(s) => Arr([Str(s)])
  }

  /** A continuity note holds its text under must_preserve and nothing else. */
  ghost predicate Continuity(v: Json, o: Option<string>) {
    exists kept ::
      && Under(v, "must_preserve", kept) && ListOf(kept, o) && Under(v, "must_change", Arr([]))
      && Under(v, "source_unit_or_shot_id", Null)
  }

  lemma ContinuityByTables(o: Option<string>)
    ensures Continuity(ContinuityJson(o), o)
  {
    var values := [TextsJson(o), Arr([]), Null];
    MadeUnder(CONTINUITY, values, 0, "must_preserve", TextsJson(o));
    MadeUnder(CONTINUITY, values, 1, "must_change", Arr([]));
    MadeUnder(CONTINUITY, values, 2, "source_unit_or_shot_id", Null);
  }

  ghost predicate PlaceFields(v: Json, d: Shot) {
    && Under(v, "scene_id", Str(d.sceneId)) && Under(v, "shot_id", Str(d.shotId)) && Under(v, "shot_order", Num(d.order))
    && Under(v, "source_scene_reference", Str(d.reference))
  }

  ghost predicate CameraFields(v: Json, d: Shot) {
    && Under(v, "duration_seconds", Num(d.duration)) && Under(v, "shot_size", Str(d.size))
    && Under(v, "camera_angle", Str(d.angle))
  }

  ghost predicate RecordFields(v: Json, d: Shot) {
    && Under(v, "camera_movement", match d.movement
                                   case None => Null
                                   case Some(s) => Obj([Field("type", Str(s))]))
    && Under(v, "visual_composition", VisualJson(d)) && Under(v, "character_positions", PositionsJson(d))
    && Under(v, "character_actions", ActionsJson(d)) && Under(v, "emotion_performance", EmotionJson(d))
    && Under(v, "dialogue", DialogueJson(d))
  }

  ghost predicate NoteFields(v: Json, d: Shot) {
    && Under(v, "sound_notes", TextsJson(d.sound)) && ListOf(TextsJson(d.sound), d.sound)
    && Under(v, "continuity_in", ContinuityJson(d.continuityIn)) && Under(v, "continuity_out", ContinuityJson(d.continuityOut))
  }

  /** The names of the shot's keys at their places. */
  predicate NamedAt(keys: seq<Key>) {
    && |keys| == 16
    && keys[0].name == "scene_id" && keys[1].name == "shot_id" && keys[2].name == "shot_order"
    && keys[3].name == "source_scene_reference" && keys[4].name == "duration_seconds" && keys[5].name == "shot_size"
    && keys[6].name == "camera_angle" && keys[7].name == "camera_movement" && keys[8].name == "visual_composition"
    && keys[9].name == "character_positions" && keys[10].name == "character_actions" && keys[11].name == "emotion_performance"
    && keys[12].name == "dialogue" && keys[13].name == "sound_notes" && keys[14].name == "continuity_in"
    && keys[15].name == "continuity_out"
  }

  lemma ShotIsNamed()
    ensures NamedAt(SHOT)
  {
  }

  lemma PlaceByTables(d: Shot, keys: seq<Key>)
    requires NamedAt(keys)
    ensures PlaceFields(MakeRecord(keys, ShotValues(d)), d)
  {
    var values := ShotValues(d);
    MadeUnder(keys, values, 0, "scene_id", Str(d.sceneId));
    MadeUnder(keys, values, 1, "shot_id", Str(d.shotId));
    MadeUnder(keys, values, 2, "shot_order", Num(d.order));
    MadeUnder(keys, values, 3, "source_scene_reference", Str(d.reference));
  }

  lemma CameraByTables(d: Shot, keys: seq<Key>)
    requires NamedAt(keys)
    ensures CameraFields(MakeRecord(keys, ShotValues(d)), d)
  {
    var values := ShotValues(d);
    MadeUnder(keys, values, 4, "duration_seconds", Num(d.duration));
    MadeUnder(keys, values, 5, "shot_size", Str(d.size));
    MadeUnder(keys, values, 6, "camera_angle", Str(d.angle));
  }

  lemma RecordsByTables(d: Shot, keys: seq<Key>)
    requires NamedAt(keys)
    ensures RecordFields(MakeRecord(keys, ShotValues(d)), d)
  {
    var values := ShotValues(d);
    MadeUnder(keys, values, 7, "camera_movement", MovementJson(d));
    MadeUnder(keys, values, 8, "visual_composition", VisualJson(d));
    MadeUnder(keys, values, 9, "character_positions", PositionsJson(d));
    MadeUnder(keys, values, 10, "character_actions", ActionsJson(d));
    MadeUnder(keys, values, 11, "emotion_performance", EmotionJson(d));
    MadeUnder(keys, values, 12, "dialogue", DialogueJson(d));
  }

  lemma NotesByTables(d: Shot, keys: seq<Key>)
    requires NamedAt(keys)
    ensures NoteFields(MakeRecord(keys, ShotValues(d)), d)
  {
    var values := ShotValues(d);
    MadeUnder(keys, values, 13, "sound_notes", TextsJson(d.sound));
    MadeUnder(keys, values, 14, "continuity_in", ContinuityJson(d.continuityIn));
    MadeUnder(keys, values, 15, "continuity_out", ContinuityJson(d.continuityOut));
  }

  /** A migrated shot holds each of its columns under its own key. */
  lemma ShotByTables(d: Shot)
    ensures PlaceFields(ShotJson(d), d) && CameraFields(ShotJson(d), d)
    ensures RecordFields(ShotJson(d), d) && NoteFields(ShotJson(d), d)
  {
    ShotIsNamed();
    PlaceByTables(d, SHOT);
    CameraByTables(d, SHOT);
    RecordsByTables(d, SHOT);
    NotesByTables(d, SHOT);
  }

  lemma SceneByTables(s: Scene)
    ensures var v := SceneJson(s);
            && Under(v, "scene_id", Str(s.id)) && Under(v, "scene_order", Num(s.order))
            && Under(v, "source_scene_reference", Str(s.reference))
            && Under(v, "location", Null) && Under(v, "time", Null) && Under(v, "interior_exterior", Null)
            && Under(v, "characters", Arr([])) && Under(v, "summary", Str("Migrated legacy scene " + s.reference))
  {
    var values := SceneValues(s);
    MadeUnder(SCENE, values, 0, "scene_id", Str(s.id));
    MadeUnder(SCENE, values, 1, "scene_order", Num(s.order));
    MadeUnder(SCENE, values, 2, "source_scene_reference", Str(s.reference));
    MadeUnder(SCENE, values, 3, "location", Null);
    MadeUnder(SCENE, values, 4, "time", Null);
    MadeUnder(SCENE, values, 5, "interior_exterior", Null);
    MadeUnder(SCENE, values, 6, "characters", Arr([]));
    MadeUnder(SCENE, values, 7, "summary", Str("Migrated legacy scene " + s.reference));
  }

  lemma SourceByTables(o: Origin)
    ensures var v := SourceJson(o);
            && Under(v, "script_artifact_id", Str(o.artifactId)) && Under(v, "script_revision_id", Str(o.revisionId))
            && Under(v, "script_content_hash", Str(o.contentHash))
  {
    var values := [Str(o.artifactId), Str(o.revisionId), Str(o.contentHash)];
    MadeUnder(SOURCE, values, 0, "script_artifact_id", Str(o.artifactId));
    MadeUnder(SOURCE, values, 1, "script_revision_id", Str(o.revisionId));
    MadeUnder(SOURCE, values, 2, "script_content_hash", Str(o.contentHash));
  }

  /** The candidate names its origin and holds one dict a scene and one a shot, in order. */
  lemma CandidateByTables(o: Origin, scenes: seq<Scene>, shots: seq<Shot>)
    ensures var v := Candidate(o, scenes, shots);
            && Under(v, "schema_version", Str("storyboard-canonical-v1"))
            && Under(v, "project_id", Str(o.projectId)) && Under(v, "chapter_id", Str(o.chapterId))
            && Under(v, "source", SourceJson(o))
            && Under(v, "scenes", Arr(ScenesJson(scenes))) && Under(v, "shots", Arr(ShotsJson(shots)))
    ensures |ScenesJson(scenes)| == |scenes| && forall i :: 0 <= i < |scenes| ==> ScenesJson(scenes)[i] == SceneJson(scenes[i])
    ensures |ShotsJson(shots)| == |shots| && forall i :: 0 <= i < |shots| ==> ShotsJson(shots)[i] == ShotJson(shots[i])
  {
    var values := [Str(SCHEMA_VERSION), Str(o.projectId), Str(o.chapterId), SourceJson(o),
                   Arr(ScenesJson(scenes)), Arr(ShotsJson(shots))];
    MadeUnder(STORYBOARD, values, 0, "schema_version", Str("storyboard-canonical-v1"));
    MadeUnder(STORYBOARD, values, 1, "project_id", Str(o.projectId));
    MadeUnder(STORYBOARD, values, 2, "chapter_id", Str(o.chapterId));
    MadeUnder(STORYBOARD, values, 3, "source", SourceJson(o));
    MadeUnder(STORYBOARD, values, 4, "scenes", Arr(ScenesJson(scenes)));
    MadeUnder(STORYBOARD, values, 5, "shots", Arr(ShotsJson(shots)));
  }
}

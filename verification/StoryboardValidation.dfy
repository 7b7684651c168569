/** A canonical storyboard as a whole: when the validator accepts it, that it stays accepted once
    serialised and read back, and what that means for its stored hash
    (ai_drama_runtime/storyboard_canonical.py, ai_drama_runtime/parser.py, ai_drama_runtime/services.py). */
module StoryboardValidation {
  import opened Wrappers
  import opened Hashing
  import opened JsonText
  import opened CanonicalJson
  import opened JsonSchema
  import opened Storyboard
  import opened StoryboardShots

  function SceneIds(scenes: seq<Json>): set<string> {
    set i | 0 <= i < |scenes| :: IdOf(scenes[i], "scene_id")
  }

  function HeaderFault(v: Json): Option<Fault> {
    if !HasKeys(v, STORYBOARD) || At(v, "schema_version") != Str(SCHEMA_VERSION) then Some(BadSchema)
    else if !Conforms(At(v, "project_id"), Text) || !Conforms(At(v, "chapter_id"), Text) then Some(BadSchema)
    else if !Conforms(At(v, "source"), Record(SOURCE)) then Some(BadSchema)
    else None
  }

  /** What validate_storyboard_canonical reports. */
  function StoryboardFault(v: Json): Option<Fault> {
    match HeaderFault(v)
    case Some(f) => Some(f)
    case None =>
      var scenes, shots := At(v, "scenes"), At(v, "shots");
      if !scenes.Arr? then Some(BadSchema)
      else
        match ScenesFault(scenes.items)
        case Some(f) => Some(f)
        case None => if shots.Arr? then ShotsFault(shots.items, SceneIds(scenes.items)) else Some(BadSchema)
  }

  method ValidateStoryboardCanonical(v: Json) returns (fault: Option<Fault>)
    ensures fault == StoryboardFault(v)
  {
    fault := HeaderFault(v);
    if fault.Some? {
      return;
    }
    fault := ValidateScenes(At(v, "scenes"));
    if fault.Some? {
      return;
    }
    fault := ValidateShots(At(v, "shots"), SceneIds(At(v, "scenes").items));
  }

  ghost predicate StoryboardSound(v: Json) {
    && HeaderFault(v) == None
    && At(v, "scenes").Arr? && ScenesSound(At(v, "scenes").items)
    && At(v, "shots").Arr? && ShotsSound(At(v, "shots").items, SceneIds(At(v, "scenes").items))
  }

  /** The validator accepts exactly the storyboards whose every shot sits, uniquely named and in order,
      under one of the uniquely named, ordered scenes. */
  lemma StoryboardValidIff(v: Json)
    ensures StoryboardFault(v) == None <==> StoryboardSound(v)
  {
    if At(v, "scenes").Arr? {
      ScenesValidIff(At(v, "scenes").items);
      if At(v, "shots").Arr? { ShotsValidIff(At(v, "shots").items, SceneIds(At(v, "scenes").items)); }
    }
  }

  // ---------- validity survives serialisation ----------

  lemma AsciiIsFixed(p: Pass, s: string)
    requires IsAscii(s)
    ensures Fixes(p, s)
  {
  }

  /** Names of a schema without nested records. */
  lemma FlatNames(p: Pass, keys: seq<Key>)
    requires forall k :: 0 <= k < |keys| ==> IsAscii(keys[k].name) && !keys[k].shape.Record? && !keys[k].shape.Records?
    ensures FixedNames(p, Record(keys)) && FixedNames(p, Records(keys))
  {
  }

  lemma FirstSceneNamesAscii(k: nat)
    requires k < 4
    ensures IsAscii(SCENE[k].name)
  {
  }

  lemma LastSceneNamesAscii(k: nat)
    requires 4 <= k < 8
    ensures IsAscii(SCENE[k].name)
  {
  }

  lemma SceneNames(p: Pass)
    ensures FixedNames(p, Record(SCENE))
  {
    forall k | 0 <= k < |SCENE| ensures IsAscii(SCENE[k].name) {
      if k < 4 { FirstSceneNamesAscii(k); } else { LastSceneNamesAscii(k); }
    }
    FlatNames(p, SCENE);
  }

  lemma ActionNames(p: Pass)
    ensures FixedNames(p, Record(ACTION)) && FixedNames(p, Records(ACTION))
  {
    FlatNames(p, ACTION);
  }

  lemma VisualNames(p: Pass)
    ensures FixedNames(p, Record(VISUAL))
  {
    FlatNames(p, VISUAL);
  }

  lemma SourceNames(p: Pass)
    ensures FixedNames(p, Record(SOURCE))
  {
    FlatNames(p, SOURCE);
  }

  lemma PositionNames(p: Pass)
    ensures FixedNames(p, Records(POSITION))
  {
    FlatNames(p, POSITION);
  }

  lemma EmotionNames(p: Pass)
    ensures FixedNames(p, Records(EMOTION))
  {
    FlatNames(p, EMOTION);
  }

  lemma DialogueNames(p: Pass)
    ensures FixedNames(p, Records(DIALOGUE))
  {
    FlatNames(p, DIALOGUE);
  }

  lemma ContinuityNames(p: Pass)
    ensures FixedNames(p, Record(CONTINUITY))
  {
    FlatNames(p, CONTINUITY);
  }

  lemma FirstShotNamesAscii(k: nat)
    requires k < 4
    ensures IsAscii(SHOT[k].name)
  {
  }

  lemma SecondShotNamesAscii(k: nat)
    requires 4 <= k < 8
    ensures IsAscii(SHOT[k].name)
  {
  }

  lemma ThirdShotNamesAscii(k: nat)
    requires 8 <= k < 10
    ensures IsAscii(SHOT[k].name)
  {
  }

  lemma FourthShotNamesAscii(k: nat)
    requires 10 <= k < 12
    ensures IsAscii(SHOT[k].name)
  {
  }

  lemma LastShotNamesAscii(k: nat)
    requires 12 <= k < 16
    ensures IsAscii(SHOT[k].name)
  {
  }

  lemma ShotNameIsAscii(k: nat)
    requires k < |SHOT|
    ensures IsAscii(SHOT[k].name)
  {
    if k < 4 {
      FirstShotNamesAscii(k);
    } else if k < 8 {
      SecondShotNamesAscii(k);
    } else if k < 10 {
      ThirdShotNamesAscii(k);
    } else if k < 12 {
      FourthShotNamesAscii(k);
    } else {
      LastShotNamesAscii(k);
    }
  }

  lemma ShotShapesFixed(p: Pass, k: nat)
    requires k < |SHOT|
    ensures FixedNames(p, SHOT[k].shape)
  {
    VisualNames(p);
    PositionNames(p);
    ActionNames(p);
    EmotionNames(p);
    DialogueNames(p);
    ContinuityNames(p);
  }

  lemma ShotNames(p: Pass)
    ensures FixedNames(p, Record(SHOT))
  {
    forall k | 0 <= k < |SHOT| ensures Fixes(p, SHOT[k].name) && FixedNames(p, SHOT[k].shape) {
      ShotNameIsAscii(k);
      AsciiIsFixed(p, SHOT[k].name);
      ShotShapesFixed(p, k);
    }
  }

  lemma ListApplies(p: Pass, v: Json)
    requires v.Arr?
    ensures Apply(p, v).Arr? && |Apply(p, v).items| == |v.items|
    ensures forall i :: 0 <= i < |v.items| ==> Apply(p, v).items[i] == Apply(p, v.items[i])
  {
  }

  lemma LeafApplies(p: Pass, x: Json)
    ensures NumOf(Apply(p, x)) == NumOf(x)
    ensures IsAscii(TextOf(x)) ==> TextOf(Apply(p, x)) == TextOf(x)
  {
  }

  /** What a pass keeps of one field. */
  lemma FieldApplies(p: Pass, v: Json, keys: seq<Key>, k: nat, key: string)
    requires WellFormed(v) && FixedNames(p, Record(keys)) && ConformsRecord(v, keys) && k < |keys| && keys[k].name == key
    ensures At(Apply(p, v), key) == Apply(p, At(v, key))
    ensures NumberOf(Apply(p, v), key) == NumberOf(v, key)
    ensures IsAscii(IdOf(v, key)) ==> IdOf(Apply(p, v), key) == IdOf(v, key)
  {
    AtApplies(p, v, keys, k);
    LeafApplies(p, At(v, key));
  }

  lemma MatchedIdIsAscii(prefix: string, s: string)
    requires IsAscii(prefix) && IdMatches(prefix, s)
    ensures IsAscii(s)
  {
    var core := WithoutLineFeed(s);
    forall i | 0 <= i < |s| ensures s[i] as int < 128 {
      if i < |prefix| { assert core[i] == core[..|prefix|][i]; }
    }
  }

  lemma SceneIdIsAscii(v: Json)
    requires SceneIdMatches(v)
    ensures IsAscii(IdOf(v, "scene_id"))
  {
    MatchedIdIsAscii("SCENE_", IdOf(v, "scene_id"));
  }

  lemma ShotIdIsAscii(v: Json)
    requires ShotIdMatches(v)
    ensures IsAscii(IdOf(v, "shot_id"))
  {
    MatchedIdIsAscii("SHOT_", IdOf(v, "shot_id"));
  }

  predicate SameSceneKeys(v: Json, w: Json) {
    IdOf(v, "scene_id") == IdOf(w, "scene_id") && NumberOf(v, "scene_order") == NumberOf(w, "scene_order")
  }

  predicate SceneOrderKeys(keys: seq<Key>) {
    |keys| == 8 && keys[0].name == "scene_id" && keys[1].name == "scene_order"
  }

  lemma SceneHasOrderKeys()
    ensures SceneOrderKeys(SCENE)
  {
  }

  lemma FieldsOfSceneApply(p: Pass, v: Json, keys: seq<Key>)
    requires SceneOrderKeys(keys)
    requires WellFormed(v) && FixedNames(p, Record(keys)) && ConformsRecord(v, keys) && IsAscii(IdOf(v, "scene_id"))
    ensures ConformsRecord(Apply(p, v), keys) && SameSceneKeys(Apply(p, v), v)
  {
    RecordConformsApplies(p, v, keys);
    FieldApplies(p, v, keys, 0, "scene_id");
    FieldApplies(p, v, keys, 1, "scene_order");
  }

  lemma SceneFieldsApply(p: Pass, v: Json)
    requires WellFormed(v) && ConformsRecord(v, SCENE) && IsAscii(IdOf(v, "scene_id"))
    ensures ConformsRecord(Apply(p, v), SCENE) && SameSceneKeys(Apply(p, v), v)
  {
    SceneNames(p);
    SceneHasOrderKeys();
    FieldsOfSceneApply(p, v, SCENE);
  }

  lemma SceneApplies(p: Pass, v: Json)
    requires WellFormed(v) && ConformsRecord(v, SCENE) && SceneIdMatches(v)
    ensures ConformsRecord(Apply(p, v), SCENE) && SameSceneKeys(Apply(p, v), v)
  {
    SceneIdIsAscii(v);
    SceneFieldsApply(p, v);
  }

  lemma ScenesApply(p: Pass, v: Json)
    requires WellFormed(v) && v.Arr? && ScenesSound(v.items)
    ensures Apply(p, v).Arr? && ScenesSound(Apply(p, v).items)
    ensures SceneIds(Apply(p, v).items) == SceneIds(v.items)
  {
    ListApplies(p, v);
    var items := Apply(p, v).items;
    forall i | 0 <= i < |items|
      ensures ConformsRecord(items[i], SCENE) && SameSceneKeys(items[i], v.items[i])
    {
      SceneApplies(p, v.items[i]);
    }
  }

  lemma SceneIdsAscii(scenes: seq<Json>)
    requires ScenesSound(scenes)
    ensures forall s :: s in SceneIds(scenes) ==> IsAscii(s)
  {
    forall s | s in SceneIds(scenes) ensures IsAscii(s) {
      var i :| 0 <= i < |scenes| && IdOf(scenes[i], "scene_id") == s;
      SceneIdIsAscii(scenes[i]);
    }
  }

  lemma ActionsApply(p: Pass, v: Json)
    requires WellFormed(v) && ActionsSound(v)
    ensures ActionsSound(Apply(p, v))
  {
    ActionNames(p);
    ConformsApplies(p, v, Records(ACTION));
    ListApplies(p, v);
    forall i | 0 <= i < |v.items| ensures NumberOf(Apply(p, v).items[i], "action_order") == NumberOf(v.items[i], "action_order") {
      FieldApplies(p, v.items[i], ACTION, 1, "action_order");
    }
  }

  /** What the order and mapping rules look at in a shot. */
  predicate SameShotKeys(v: Json, w: Json) {
    && IdOf(v, "shot_id") == IdOf(w, "shot_id") && SameScene(v, w)
    && NumberOf(v, "shot_order") == NumberOf(w, "shot_order")
    && NumberOf(v, "duration_seconds") == NumberOf(w, "duration_seconds")
  }

  /** Where SHOT keeps those fields. */
  predicate OrderKeys(keys: seq<Key>) {
    && |keys| == 16 && keys[0].name == "scene_id" && keys[1].name == "shot_id" && keys[2].name == "shot_order"
    && keys[4].name == "duration_seconds" && keys[10].name == "character_actions"
  }

  lemma ShotOrderKeys()
    ensures OrderKeys(SHOT)
  {
  }

  lemma FieldsOfShotApply(p: Pass, v: Json, keys: seq<Key>)
    requires OrderKeys(keys) && WellFormed(v) && FixedNames(p, Record(keys)) && ConformsRecord(v, keys)
    requires IsAscii(IdOf(v, "scene_id")) && IsAscii(IdOf(v, "shot_id"))
    ensures ConformsRecord(Apply(p, v), keys) && SameShotKeys(Apply(p, v), v)
    ensures At(Apply(p, v), "character_actions") == Apply(p, At(v, "character_actions"))
  {
    RecordConformsApplies(p, v, keys);
    FieldApplies(p, v, keys, 0, "scene_id");
    FieldApplies(p, v, keys, 1, "shot_id");
    FieldApplies(p, v, keys, 2, "shot_order");
    FieldApplies(p, v, keys, 4, "duration_seconds");
    FieldApplies(p, v, keys, 10, "character_actions");
  }

  lemma ShotKeysApply(p: Pass, v: Json)
    requires WellFormed(v) && ConformsRecord(v, SHOT) && IsAscii(IdOf(v, "scene_id")) && IsAscii(IdOf(v, "shot_id"))
    ensures ConformsRecord(Apply(p, v), SHOT) && SameShotKeys(Apply(p, v), v)
    ensures At(Apply(p, v), "character_actions") == Apply(p, At(v, "character_actions"))
  {
    ShotNames(p);
    ShotOrderKeys();
    FieldsOfShotApply(p, v, SHOT);
  }

  lemma ShotApplies(p: Pass, v: Json, sceneIds: set<string>)
    requires WellFormed(v) && ShotSound(v, sceneIds) && forall s :: s in sceneIds ==> IsAscii(s)
    ensures ShotSound(Apply(p, v), sceneIds) && SameShotKeys(Apply(p, v), v)
  {
    ShotIdIsAscii(v);
    ShotKeysApply(p, v);
    AtIsWellFormed(v, "character_actions");
    ActionsApply(p, At(v, "character_actions"));
  }

  lemma ShotsApply(p: Pass, v: Json, sceneIds: set<string>)
    requires WellFormed(v) && v.Arr? && ShotsSound(v.items, sceneIds) && forall s :: s in sceneIds ==> IsAscii(s)
    ensures Apply(p, v).Arr? && ShotsSound(Apply(p, v).items, sceneIds)
  {
    ListApplies(p, v);
    forall i | 0 <= i < |v.items|
      ensures ShotSound(Apply(p, v).items[i], sceneIds) && SameShotKeys(Apply(p, v).items[i], v.items[i])
    {
      ShotApplies(p, v.items[i], sceneIds);
    }
  }

  lemma StoryboardNames(p: Pass)
    ensures FixedNames(p, Record(STORYBOARD))
  {
    SourceNames(p);
    forall k | 0 <= k < |STORYBOARD| ensures IsAscii(STORYBOARD[k].name) {
      HeaderNamesAscii(k);
    }
  }

  lemma HeaderNamesAscii(k: nat)
    requires k < |STORYBOARD|
    ensures IsAscii(STORYBOARD[k].name)
  {
  }

  lemma HeaderConforms(v: Json)
    requires HeaderFault(v) == None
    ensures ConformsRecord(v, STORYBOARD)
  {
  }

  lemma FieldsOfHeaderApply(p: Pass, v: Json, keys: seq<Key>)
    requires |keys| == 6 && keys[0].name == "schema_version" && keys[4].name == "scenes" && keys[5].name == "shots"
    requires WellFormed(v) && FixedNames(p, Record(keys)) && ConformsRecord(v, keys)
    ensures ConformsRecord(Apply(p, v), keys)
    ensures At(Apply(p, v), "schema_version") == Apply(p, At(v, "schema_version"))
    ensures At(Apply(p, v), "scenes") == Apply(p, At(v, "scenes")) && At(Apply(p, v), "shots") == Apply(p, At(v, "shots"))
  {
    RecordConformsApplies(p, v, keys);
    FieldApplies(p, v, keys, 0, "schema_version");
    FieldApplies(p, v, keys, 4, "scenes");
    FieldApplies(p, v, keys, 5, "shots");
  }

  lemma HeaderRecordApplies(p: Pass, v: Json)
    requires WellFormed(v) && ConformsRecord(v, STORYBOARD)
    ensures ConformsRecord(Apply(p, v), STORYBOARD)
    ensures At(Apply(p, v), "schema_version") == Apply(p, At(v, "schema_version"))
    ensures At(Apply(p, v), "scenes") == Apply(p, At(v, "scenes")) && At(Apply(p, v), "shots") == Apply(p, At(v, "shots"))
  {
    StoryboardNames(p);
    FieldsOfHeaderApply(p, v, STORYBOARD);
  }

  lemma VersionIsFixed(p: Pass)
    ensures Apply(p, Str(SCHEMA_VERSION)) == Str(SCHEMA_VERSION)
  {
    AsciiIsFixed(p, SCHEMA_VERSION);
  }

  lemma HeaderApplies(p: Pass, v: Json)
    requires WellFormed(v) && HeaderFault(v) == None
    ensures HeaderFault(Apply(p, v)) == None
    ensures At(Apply(p, v), "scenes") == Apply(p, At(v, "scenes")) && At(Apply(p, v), "shots") == Apply(p, At(v, "shots"))
  {
    HeaderConforms(v);
    HeaderRecordApplies(p, v);
    VersionIsFixed(p);
    HeaderPieces(Apply(p, v));
  }

  lemma HeaderPieces(v: Json)
    requires ConformsRecord(v, STORYBOARD)
    ensures Conforms(At(v, "project_id"), Text) && Conforms(At(v, "chapter_id"), Text)
    ensures Conforms(At(v, "source"), Record(SOURCE))
  {
    Piece(v, STORYBOARD, 1, Key("project_id", Text));
    Piece(v, STORYBOARD, 2, Key("chapter_id", Text));
    Piece(v, STORYBOARD, 3, Key("source", Record(SOURCE)));
  }

  /** An accepted storyboard stays accepted when it is normalised, and when its keys are sorted. */
  lemma SoundApplies(p: Pass, v: Json)
    requires WellFormed(v) && StoryboardSound(v)
    ensures StoryboardSound(Apply(p, v))
  {
    HeaderApplies(p, v);
    AtIsWellFormed(v, "scenes");
    AtIsWellFormed(v, "shots");
    ScenesApply(p, At(v, "scenes"));
    SceneIdsAscii(At(v, "scenes").items);
    ShotsApply(p, At(v, "shots"), SceneIds(At(v, "scenes").items));
  }

  // ---------- the stored hash ----------

  datatype HashError = Invalid(fault: Fault) | EmptyString

  /** canonical_storyboard_hash. */
  function StoryboardHash(sha: TextSha256, nfc: Nfc, v: Json): Result<string, HashError> {
    match StoryboardFault(v)
    case Some(f) => Err(Invalid(f))
    case None =>
      match Serialize(nfc, v)
      case Err(_) => Err(EmptyString)
      case Ok(text) => Ok(sha(text))
  }

  /** A generated storyboard is stored as its canonical text under the digest of that text, and hashed
      after the text has been parsed again: the content hash is the content object's id. */
  lemma ContentHashIsObjectId(sha: TextSha256, nfc: Nfc, v: Json)
    requires WellFormed(v) && StoryboardFault(v) == None && Accepted(v)
    ensures var text := Serialize(nfc, v).value;
            ParseText(text).Done? && StoryboardHash(sha, nfc, ParseText(text).value) == Ok(sha(text))
  {
    StoryboardValidIff(v);
    var n := Normalize(nfc, v);
    SoundApplies(Normalizing(nfc), v);
    NormalizeReachesNormal(nfc, v);
    NormalIsWellFormed(nfc, n);
    SoundApplies(Sorting, n);
    StoryboardValidIff(Canon(n));
    ParseAfterSerialize(nfc, v);
    SerializeAfterParse(nfc, v);
  }

  /** Two storyboards get one hash exactly when their normal forms are equal. */
  lemma HashDecidesSameNormalForm(sha: TextSha256, nfc: Nfc, v: Json, w: Json)
    requires StoryboardHash(sha, nfc, v).Ok? && StoryboardHash(sha, nfc, w).Ok?
    ensures StoryboardHash(sha, nfc, v) == StoryboardHash(sha, nfc, w) <==> SameValue(Normalize(nfc, v), Normalize(nfc, w))
  {
    SerializeDecidesSameNormalForm(nfc, v, w);
  }
}

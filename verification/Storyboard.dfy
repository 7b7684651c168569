/** Validation of a canonical storyboard (ai_drama_runtime/storyboard_canonical.py). */
module Storyboard {
  import opened Wrappers
  import opened JsonText
  import opened JsonSchema

  datatype Fault = BadSchema | BadId | BadOrder | BadMapping | BadDuration

  // ---------- the schema ----------

  const SCENE: seq<Key> := [
    Key("scene_id", Text), Key("scene_order", Integer), Key("source_scene_reference", Text),
    Key("location", NullableText), Key("time", NullableText), Key("interior_exterior", NullableText),
    Key("characters", Texts), Key("summary", Text)]

  const VISUAL: seq<Key> := [
    Key("framing", Text), Key("subject_focus", Text), Key("background_relation", Text), Key("screen_direction", NullableText)]

  const POSITION: seq<Key> := [
    Key("character_id", Text), Key("screen_zone", Text), Key("depth", Text), Key("pose", Text), Key("facing", NullableText)]

  const ACTION: seq<Key> := [Key("character_id", Text), Key("action_order", Integer), Key("action", Text)]

  const EMOTION: seq<Key> := [
    Key("character_id", Text), Key("emotion", Text), Key("intensity", Text), Key("performance_note", NullableText)]

  const DIALOGUE: seq<Key> := [Key("speaker_character_id", Text), Key("text", Text), Key("lip_sync_required", Flag)]

  const CONTINUITY: seq<Key> := [Key("must_preserve", Texts), Key("must_change", Texts), Key("source_unit_or_shot_id", NullableText)]

  const SHOT: seq<Key> := [
    Key("scene_id", Text), Key("shot_id", Text), Key("shot_order", Integer), Key("source_scene_reference", Text),
    Key("duration_seconds", Integer), Key("shot_size", Text), Key("camera_angle", Text),
    Key("camera_movement", NullableObject), Key("visual_composition", Record(VISUAL)),
    Key("character_positions", Records(POSITION)), Key("character_actions", Records(ACTION)),
    Key("emotion_performance", Records(EMOTION)), Key("dialogue", Records(DIALOGUE)), Key("sound_notes", Texts),
    Key("continuity_in", Record(CONTINUITY)), Key("continuity_out", Record(CONTINUITY))]

  const SOURCE: seq<Key> := [
    Key("script_artifact_id", Text), Key("script_revision_id", Text), Key("script_content_hash", Text)]

  const STORYBOARD: seq<Key> := [
    Key("schema_version", Any), Key("project_id", Text), Key("chapter_id", Text), Key("source", Record(SOURCE)),
    Key("scenes", Any), Key("shots", Any)]

  const SCHEMA_VERSION := "storyboard-canonical-v1"

  // ---------- the first fault of a list ----------

  function FirstFault(faults: seq<Option<Fault>>): Option<Fault> {
    if faults == [] then None
    else if faults[0].Some? then faults[0]
    else FirstFault(faults[1..])
  }

  lemma {:induction false} FirstFaultNone(faults: seq<Option<Fault>>)
    ensures FirstFault(faults) == None <==> forall i :: 0 <= i < |faults| ==> faults[i] == None
  {
    if faults != [] {
      FirstFaultNone(faults[1..]);
      assert forall i :: 0 < i < |faults| ==> faults[i] == faults[1..][i - 1];
    }
  }

  lemma {:induction false} FirstFaultAt(faults: seq<Option<Fault>>, i: nat)
    requires i < |faults| && faults[i].Some? && forall j :: 0 <= j < i ==> faults[j] == None
    ensures FirstFault(faults) == faults[i]
  {
    if i > 0 { FirstFaultAt(faults[1..], i - 1); }
  }

  // ---------- identifiers ----------

  predicate IdHead(c: char) {
    'A' <= c <= 'Z' || '0' <= c <= '9'
  }

  predicate IdTail(c: char) {
    IdHead(c) || c == '_' || c == '-'
  }

  /** The dollar sign of the pattern also matches before one line feed at the end. */
  function WithoutLineFeed(s: string): string {
    if s != [] && s[|s| - 1] == '\n' then s[..|s| - 1] else s
  }

  /** ^PREFIX[A-Z0-9][A-Z0-9_-]*$ */
  predicate IdMatches(prefix: string, s: string) {
    var core := WithoutLineFeed(s);
    && |core| > |prefix| && core[..|prefix|] == prefix && IdHead(core[|prefix|])
    && forall i :: |prefix| < i < |core| ==> IdTail(core[i])
  }

  function TextOf(v: Json): string {
    if v.Str? then v.s else ""
  }

  function NumOf(v: Json): int {
    if v.Num? then v.n else 0
  }

  function IdOf(v: Json, key: string): string {
    TextOf(At(v, key))
  }

  function NumberOf(v: Json, key: string): int {
    NumOf(At(v, key))
  }

  predicate SceneIdMatches(v: Json) {
    IdMatches("SCENE_", IdOf(v, "scene_id"))
  }

  predicate ShotIdMatches(v: Json) {
    IdMatches("SHOT_", IdOf(v, "shot_id"))
  }

  // ---------- scenes: the fault the validator reports ----------

  predicate SceneIdTaken(scenes: seq<Json>, i: nat)
    requires i < |scenes|
  {
    exists j :: 0 <= j < i && IdOf(scenes[j], "scene_id") == IdOf(scenes[i], "scene_id")
  }

  predicate SceneOutOfOrder(scenes: seq<Json>, i: nat)
    requires i < |scenes|
  {
    || NumberOf(scenes[i], "scene_order") <= 0
    || exists j :: 0 <= j < i && NumberOf(scenes[j], "scene_order") >= NumberOf(scenes[i], "scene_order")
  }

  /** What is wrong with scene i, given the scenes before it. */
  function SceneFault(scenes: seq<Json>, i: nat): Option<Fault>
    requires i < |scenes|
  {
    var v := scenes[i];
    if !HasKeys(v, SCENE) || !Conforms(At(v, "scene_id"), Text) then Some(BadSchema)
    else if !SceneIdMatches(v) || SceneIdTaken(scenes, i) then Some(BadId)
    else if !Conforms(At(v, "scene_order"), Integer) then Some(BadSchema)
    else if SceneOutOfOrder(scenes, i) then Some(BadOrder)
    else if !ConformsRecord(v, SCENE) then Some(BadSchema)
    else None
  }

  function SceneFaults(scenes: seq<Json>): seq<Option<Fault>> {
    seq(|scenes|, i requires 0 <= i < |scenes| => SceneFault(scenes, i))
  }

  /** The validator stops at the first faulty scene. */
  function ScenesFault(scenes: seq<Json>): Option<Fault> {
    FirstFault(SceneFaults(scenes))
  }

  ghost predicate ScenesSound(scenes: seq<Json>) {
    && (forall i :: 0 <= i < |scenes| ==>
          ConformsRecord(scenes[i], SCENE) && SceneIdMatches(scenes[i]) && NumberOf(scenes[i], "scene_order") > 0)
    && (forall i, j :: 0 <= i < j < |scenes| ==> IdOf(scenes[i], "scene_id") != IdOf(scenes[j], "scene_id"))
    && (forall i, j :: 0 <= i < j < |scenes| ==> NumberOf(scenes[i], "scene_order") < NumberOf(scenes[j], "scene_order"))
  }

  ghost predicate SceneSound(scenes: seq<Json>, i: nat)
    requires i < |scenes|
  {
    && ConformsRecord(scenes[i], SCENE) && SceneIdMatches(scenes[i])
    && !SceneIdTaken(scenes, i) && !SceneOutOfOrder(scenes, i)
  }

  lemma SceneFaultIff(scenes: seq<Json>, i: nat)
    requires i < |scenes|
    ensures SceneFault(scenes, i) == None <==> SceneSound(scenes, i)
  {
  }

  lemma SceneSoundAll(scenes: seq<Json>)
    ensures (forall i :: 0 <= i < |scenes| ==> SceneSound(scenes, i)) <==> ScenesSound(scenes)
  {
    if forall i :: 0 <= i < |scenes| ==> SceneSound(scenes, i) {
      forall i, j | 0 <= i < j < |scenes|
        ensures IdOf(scenes[i], "scene_id") != IdOf(scenes[j], "scene_id")
        ensures NumberOf(scenes[i], "scene_order") < NumberOf(scenes[j], "scene_order")
      {
        assert SceneSound(scenes, j);
      }
      forall i | 0 <= i < |scenes|
        ensures ConformsRecord(scenes[i], SCENE) && SceneIdMatches(scenes[i]) && NumberOf(scenes[i], "scene_order") > 0
      {
        assert SceneSound(scenes, i);
      }
    }
  }

  /** The scene validator accepts exactly the sound scene lists. */
  lemma ScenesValidIff(scenes: seq<Json>)
    ensures ScenesFault(scenes) == None <==> ScenesSound(scenes)
  {
    FirstFaultNone(SceneFaults(scenes));
    forall i | 0 <= i < |scenes| ensures SceneFaults(scenes)[i] == None <==> SceneSound(scenes, i) {
      SceneFaultIff(scenes, i);
    }
    SceneSoundAll(scenes);
  }

  // ---------- scenes: the loop ----------

  /** The checks of one round, in order, against the ids seen and the last order. */
  function SceneCheck(scene: Json, seenIds: set<string>, previousOrder: int): Option<Fault> {
    if !HasKeys(scene, SCENE) || !Conforms(At(scene, "scene_id"), Text) then Some(BadSchema)
    else if !SceneIdMatches(scene) || IdOf(scene, "scene_id") in seenIds then Some(BadId)
    else if !Conforms(At(scene, "scene_order"), Integer) then Some(BadSchema)
    else if NumberOf(scene, "scene_order") <= previousOrder then Some(BadOrder)
    else if !ConformsRecord(scene, SCENE) then Some(BadSchema)
    else None
  }

  predicate IdSeen(scenes: seq<Json>, i: nat, key: string, s: string)
    requires i <= |scenes|
  {
    exists j :: 0 <= j < i && IdOf(scenes[j], key) == s
  }

  /** What the loop variables hold before round i. */
  ghost predicate ScenesSeen(scenes: seq<Json>, i: nat, seenIds: set<string>, previousOrder: int)
    requires i <= |scenes|
  {
    && (forall s :: s in seenIds <==> IdSeen(scenes, i, "scene_id", s))
    && previousOrder >= 0
    && (forall j :: 0 <= j < i ==> NumberOf(scenes[j], "scene_order") <= previousOrder)
    && (previousOrder == 0 || exists j :: 0 <= j < i && NumberOf(scenes[j], "scene_order") == previousOrder)
  }

  lemma SceneRound(scenes: seq<Json>, i: nat, seenIds: set<string>, previousOrder: int)
    requires i < |scenes| && ScenesSeen(scenes, i, seenIds, previousOrder)
    ensures SceneCheck(scenes[i], seenIds, previousOrder) == SceneFault(scenes, i)
  {
  }

  lemma IdSeenGrows(scenes: seq<Json>, i: nat, key: string, s: string)
    requires i < |scenes|
    ensures IdSeen(scenes, i + 1, key, s) <==> IdSeen(scenes, i, key, s) || IdOf(scenes[i], key) == s
  {
  }

  lemma ScenesSeenGrows(scenes: seq<Json>, i: nat, seenIds: set<string>, previousOrder: int)
    requires i < |scenes| && ScenesSeen(scenes, i, seenIds, previousOrder)
    requires NumberOf(scenes[i], "scene_order") > previousOrder
    ensures ScenesSeen(scenes, i + 1, seenIds + {IdOf(scenes[i], "scene_id")}, NumberOf(scenes[i], "scene_order"))
  {
    forall s ensures s in seenIds + {IdOf(scenes[i], "scene_id")} <==> IdSeen(scenes, i + 1, "scene_id", s) {
      IdSeenGrows(scenes, i, "scene_id", s);
    }
  }

  ghost predicate ScenesPassed(scenes: seq<Json>, i: nat, seenIds: set<string>, previousOrder: int)
    requires i <= |scenes|
  {
    ScenesSeen(scenes, i, seenIds, previousOrder) && forall j :: 0 <= j < i ==> SceneFaults(scenes)[j] == None
  }

  lemma SceneFails(scenes: seq<Json>, i: nat, seenIds: set<string>, previousOrder: int)
    requires i < |scenes| && ScenesPassed(scenes, i, seenIds, previousOrder) && SceneFaults(scenes)[i].Some?
    ensures ScenesFault(scenes) == SceneFaults(scenes)[i]
  {
    FirstFaultAt(SceneFaults(scenes), i);
  }

  lemma ScenePasses(scenes: seq<Json>, i: nat, seenIds: set<string>, previousOrder: int)
    requires i < |scenes| && ScenesPassed(scenes, i, seenIds, previousOrder) && SceneFaults(scenes)[i] == None
    requires NumberOf(scenes[i], "scene_order") > previousOrder
    ensures ScenesPassed(scenes, i + 1, seenIds + {IdOf(scenes[i], "scene_id")}, NumberOf(scenes[i], "scene_order"))
  {
    ScenesSeenGrows(scenes, i, seenIds, previousOrder);
  }

  lemma ScenesDone(scenes: seq<Json>, seenIds: set<string>, previousOrder: int)
    requires ScenesPassed(scenes, |scenes|, seenIds, previousOrder)
    ensures ScenesFault(scenes) == None
  {
    FirstFaultNone(SceneFaults(scenes));
  }

  method ValidateScenes(value: Json) returns (fault: Option<Fault>)
    ensures fault == if value.Arr? then ScenesFault(value.items) else Some(BadSchema)
  {
    if !value.Arr? {
      return Some(BadSchema);
    }
    var scenes := value.items;
    var seenIds: set<string> := {};
    var previousOrder := 0;
    for i := 0 to |scenes|
      invariant ScenesPassed(scenes, i, seenIds, previousOrder)
    {
      SceneRound(scenes, i, seenIds, previousOrder);
      fault := SceneCheck(scenes[i], seenIds, previousOrder);
      if fault.Some? {
        SceneFails(scenes, i, seenIds, previousOrder);
        return;
      }
      ScenePasses(scenes, i, seenIds, previousOrder);
      seenIds := seenIds + {IdOf(scenes[i], "scene_id")};
      previousOrder := NumberOf(scenes[i], "scene_order");
    }
    ScenesDone(scenes, seenIds, previousOrder);
    return None;
  }
}

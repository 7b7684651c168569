/** Validation of canonical shot prompts: ids are unique and orders rise modulo NFC
    (ai_drama_runtime/shot_prompt_canonical.py). */
module ShotPrompts {
  import opened Wrappers
  import opened JsonText
  import opened CanonicalJson
  import opened JsonSchema
  import opened Storyboard

  const PROMPT: seq<Key> := [
    Key("shot_id", Text), Key("shot_order", Integer), Key("duration_seconds", Integer), Key("scene_id", Text),
    Key("character_ids", Texts), Key("prop_ids", Texts), Key("asset_refs", SomeTexts), Key("camera", AnyObject),
    Key("action", Text), Key("emotion", Text), Key("dialogue", AnyArray), Key("positive_prompt", Text),
    Key("negative_prompt", Text), Key("continuity_notes", Texts), Key("agnes_video_params", AnyObject)]

  function ShotKey(nfc: Nfc, v: Json): string {
    nfc(IdOf(v, "shot_id"))
  }

  function SceneKey(nfc: Nfc, v: Json): string {
    nfc(IdOf(v, "scene_id"))
  }

  function OrderOf(v: Json): int {
    NumberOf(v, "shot_order")
  }

  predicate InRange(v: Json) {
    5 <= NumberOf(v, "duration_seconds") <= 15
  }

  predicate Taken(nfc: Nfc, shots: seq<Json>, i: nat)
    requires i < |shots|
  {
    exists j :: 0 <= j < i && ShotKey(nfc, shots[j]) == ShotKey(nfc, shots[i])
  }

  predicate OutOfOrder(nfc: Nfc, shots: seq<Json>, i: nat)
    requires i < |shots|
  {
    || OrderOf(shots[i]) <= 0
    || exists j :: 0 <= j < i && SceneKey(nfc, shots[j]) == SceneKey(nfc, shots[i]) && OrderOf(shots[j]) >= OrderOf(shots[i])
  }

  /** The checks of one shot in order; taken and outOfOrder stand for what depends on earlier shots. */
  function PromptCheck(v: Json, taken: bool, outOfOrder: bool): Option<Fault> {
    if !HasKeys(v, PROMPT) || !Conforms(At(v, "shot_id"), Text) then Some(BadSchema)
    else if taken then Some(BadId)
    else if !Conforms(At(v, "shot_order"), Integer) || !Conforms(At(v, "duration_seconds"), Integer) then Some(BadSchema)
    else if !InRange(v) then Some(BadDuration)
    else if !Conforms(At(v, "scene_id"), Text) then Some(BadSchema)
    else if outOfOrder then Some(BadOrder)
    else if !ConformsRecord(v, PROMPT) then Some(BadSchema)
    else None
  }

  function PromptFaults(nfc: Nfc, shots: seq<Json>): seq<Option<Fault>> {
    seq(|shots|, i requires 0 <= i < |shots| => PromptCheck(shots[i], Taken(nfc, shots, i), OutOfOrder(nfc, shots, i)))
  }

  function PromptsFault(nfc: Nfc, v: Json): Option<Fault> {
    if !v.Arr? || v.items == [] then Some(BadSchema) else FirstFault(PromptFaults(nfc, v.items))
  }

  ghost predicate PromptSound(v: Json) {
    ConformsRecord(v, PROMPT) && InRange(v) && OrderOf(v) > 0
  }

  ghost predicate PromptsSound(nfc: Nfc, shots: seq<Json>) {
    && shots != []
    && (forall i :: 0 <= i < |shots| ==> PromptSound(shots[i]))
    && (forall i, j :: 0 <= i < j < |shots| ==> ShotKey(nfc, shots[i]) != ShotKey(nfc, shots[j]))
    && (forall i, j :: 0 <= i < j < |shots| && SceneKey(nfc, shots[i]) == SceneKey(nfc, shots[j])
          ==> OrderOf(shots[i]) < OrderOf(shots[j]))
  }

  predicate PromptKeys(keys: seq<Key>) {
    && |keys| == 15 && keys[0] == Key("shot_id", Text) && keys[1] == Key("shot_order", Integer)
    && keys[2] == Key("duration_seconds", Integer) && keys[3] == Key("scene_id", Text)
  }

  lemma PromptHasKeys()
    ensures PromptKeys(PROMPT)
  {
  }

  lemma PiecesOf(v: Json, keys: seq<Key>)
    requires PromptKeys(keys) && ConformsRecord(v, keys)
    ensures Conforms(At(v, "shot_id"), Text) && Conforms(At(v, "shot_order"), Integer)
    ensures Conforms(At(v, "duration_seconds"), Integer) && Conforms(At(v, "scene_id"), Text)
  {
  }

  lemma PromptPieces(v: Json)
    requires ConformsRecord(v, PROMPT)
    ensures Conforms(At(v, "shot_id"), Text) && Conforms(At(v, "shot_order"), Integer)
    ensures Conforms(At(v, "duration_seconds"), Integer) && Conforms(At(v, "scene_id"), Text)
  {
    PromptHasKeys();
    PiecesOf(v, PROMPT);
  }

  lemma PromptCheckIff(v: Json, taken: bool, outOfOrder: bool)
    requires OrderOf(v) <= 0 ==> outOfOrder
    ensures PromptCheck(v, taken, outOfOrder) == None <==> PromptSound(v) && !taken && !outOfOrder
  {
    if ConformsRecord(v, PROMPT) { PromptPieces(v); }
  }

  ghost predicate PromptPasses(nfc: Nfc, shots: seq<Json>, i: nat)
    requires i < |shots|
  {
    PromptSound(shots[i]) && !Taken(nfc, shots, i) && !OutOfOrder(nfc, shots, i)
  }

  lemma AllPass(nfc: Nfc, shots: seq<Json>)
    requires shots != []
    ensures (forall i :: 0 <= i < |shots| ==> PromptPasses(nfc, shots, i)) <==> PromptsSound(nfc, shots)
  {
    if forall i :: 0 <= i < |shots| ==> PromptPasses(nfc, shots, i) {
      forall i | 0 <= i < |shots| ensures PromptSound(shots[i]) {
        assert PromptPasses(nfc, shots, i);
      }
      forall i, j | 0 <= i < j < |shots|
        ensures ShotKey(nfc, shots[i]) != ShotKey(nfc, shots[j])
        ensures SceneKey(nfc, shots[i]) == SceneKey(nfc, shots[j]) ==> OrderOf(shots[i]) < OrderOf(shots[j])
      {
        assert PromptPasses(nfc, shots, j);
      }
    }
  }

  /** The validator accepts exactly the lists whose ids differ, and whose orders rise within each scene,
      after normalisation. */
  lemma PromptsValidIff(nfc: Nfc, v: Json)
    ensures PromptsFault(nfc, v) == None <==> v.Arr? && PromptsSound(nfc, v.items)
  {
    if v.Arr? && v.items != [] {
      var shots := v.items;
      FirstFaultNone(PromptFaults(nfc, shots));
      forall i | 0 <= i < |shots| ensures PromptFaults(nfc, shots)[i] == None <==> PromptPasses(nfc, shots, i) {
        PromptCheckIff(shots[i], Taken(nfc, shots, i), OutOfOrder(nfc, shots, i));
      }
      AllPass(nfc, shots);
    }
  }

  // ---------- normalisation ----------

  lemma FirstNamesAscii(k: nat)
    requires k < 8
    ensures IsAscii(PROMPT[k].name)
  {
  }

  lemma LastNamesAscii(k: nat)
    requires 8 <= k < 15
    ensures IsAscii(PROMPT[k].name)
  {
  }

  lemma PromptIsFlat(k: nat)
    requires k < |PROMPT|
    ensures !PROMPT[k].shape.Record? && !PROMPT[k].shape.Records?
  {
  }

  lemma PromptNames(p: Pass)
    ensures FixedNames(p, Record(PROMPT))
  {
    forall k | 0 <= k < |PROMPT| ensures Fixes(p, PROMPT[k].name) && FixedNames(p, PROMPT[k].shape) {
      if k < 8 { FirstNamesAscii(k); } else { LastNamesAscii(k); }
      PromptIsFlat(k);
    }
  }

  lemma TextNormalizes(nfc: Nfc, x: Json)
    ensures TextOf(Normalize(nfc, x)) == nfc(TextOf(x)) && NumOf(Normalize(nfc, x)) == NumOf(x)
  {
  }

  lemma FieldsOfPromptNormalize(nfc: Nfc, v: Json, keys: seq<Key>)
    requires PromptKeys(keys) && WellFormed(v) && FixedNames(Normalizing(nfc), Record(keys)) && ConformsRecord(v, keys)
    ensures var w := Normalize(nfc, v);
            && ConformsRecord(w, keys)
            && IdOf(w, "shot_id") == ShotKey(nfc, v) && IdOf(w, "scene_id") == SceneKey(nfc, v)
            && OrderOf(w) == OrderOf(v) && NumberOf(w, "duration_seconds") == NumberOf(v, "duration_seconds")
  {
    var p := Normalizing(nfc);
    RecordConformsApplies(p, v, keys);
    AtApplies(p, v, keys, 0);
    AtApplies(p, v, keys, 1);
    AtApplies(p, v, keys, 2);
    AtApplies(p, v, keys, 3);
    TextNormalizes(nfc, At(v, "shot_id"));
    TextNormalizes(nfc, At(v, "shot_order"));
    TextNormalizes(nfc, At(v, "duration_seconds"));
    TextNormalizes(nfc, At(v, "scene_id"));
  }

  /** What normalisation leaves of a shot: its keys become its stored ids. */
  ghost predicate Normalized(nfc: Nfc, v: Json, w: Json) {
    && PromptSound(w) && OrderOf(w) == OrderOf(v)
    && IdOf(w, "shot_id") == ShotKey(nfc, v) == ShotKey(nfc, w) && SceneKey(nfc, w) == SceneKey(nfc, v)
  }

  lemma PromptFieldsNormalize(nfc: Nfc, v: Json)
    requires WellFormed(v) && ConformsRecord(v, PROMPT)
    ensures var w := Normalize(nfc, v);
            && ConformsRecord(w, PROMPT)
            && IdOf(w, "shot_id") == ShotKey(nfc, v) && IdOf(w, "scene_id") == SceneKey(nfc, v)
            && OrderOf(w) == OrderOf(v) && NumberOf(w, "duration_seconds") == NumberOf(v, "duration_seconds")
  {
    PromptNames(Normalizing(nfc));
    PromptHasKeys();
    FieldsOfPromptNormalize(nfc, v, PROMPT);
  }

  lemma KeysStay(nfc: Nfc, v: Json, w: Json)
    requires IdOf(w, "shot_id") == ShotKey(nfc, v) && IdOf(w, "scene_id") == SceneKey(nfc, v)
    ensures ShotKey(nfc, w) == ShotKey(nfc, v) && SceneKey(nfc, w) == SceneKey(nfc, v)
  {
  }

  lemma SoundStays(v: Json, w: Json)
    requires PromptSound(v) && ConformsRecord(w, PROMPT)
    requires OrderOf(w) == OrderOf(v) && NumberOf(w, "duration_seconds") == NumberOf(v, "duration_seconds")
    ensures PromptSound(w)
  {
  }

  lemma PromptNormalizes(nfc: Nfc, v: Json)
    requires WellFormed(v) && PromptSound(v)
    ensures Normalized(nfc, v, Normalize(nfc, v))
  {
    PromptFieldsNormalize(nfc, v);
    KeysStay(nfc, v, Normalize(nfc, v));
    SoundStays(v, Normalize(nfc, v));
  }

  lemma NormalizedSound(nfc: Nfc, shots: seq<Json>, normal: seq<Json>)
    requires PromptsSound(nfc, shots) && |normal| == |shots|
    requires forall i :: 0 <= i < |shots| ==> Normalized(nfc, shots[i], normal[i])
    ensures PromptsSound(nfc, normal)
    ensures forall i, j :: 0 <= i < j < |normal| ==> IdOf(normal[i], "shot_id") != IdOf(normal[j], "shot_id")
  {
  }

  /** An accepted list stays accepted when normalised, and the ids it then stores are distinct as they stand. */
  lemma AcceptedPromptsNormalize(nfc: Nfc, v: Json)
    requires WellFormed(v) && PromptsFault(nfc, v) == None
    ensures PromptsFault(nfc, Normalize(nfc, v)) == None
    ensures var shots := Normalize(nfc, v).items;
            forall i, j :: 0 <= i < j < |shots| ==> IdOf(shots[i], "shot_id") != IdOf(shots[j], "shot_id")
  {
    PromptsValidIff(nfc, v);
    var w := Normalize(nfc, v);
    forall i | 0 <= i < |v.items| ensures Normalized(nfc, v.items[i], w.items[i]) {
      PromptNormalizes(nfc, v.items[i]);
    }
    NormalizedSound(nfc, v.items, w.items);
    PromptsValidIff(nfc, w);
  }

  // ---------- the loop ----------

  predicate KeySeen(nfc: Nfc, shots: seq<Json>, i: nat, s: string)
    requires i <= |shots|
  {
    exists j :: 0 <= j < i && ShotKey(nfc, shots[j]) == s
  }

  predicate Attained(nfc: Nfc, shots: seq<Json>, i: nat, s: string, order: int)
    requires i <= |shots|
  {
    exists j :: 0 <= j < i && SceneKey(nfc, shots[j]) == s && OrderOf(shots[j]) == order
  }

  function Previous(orderByScene: map<string, int>, s: string): int {
    if s in orderByScene then orderByScene[s] else 0
  }

  ghost predicate OrdersSeen(nfc: Nfc, shots: seq<Json>, i: nat, orderByScene: map<string, int>)
    requires i <= |shots|
  {
    && (forall j :: 0 <= j < i ==> OrderOf(shots[j]) <= Previous(orderByScene, SceneKey(nfc, shots[j])))
    && (forall s :: s in orderByScene ==> orderByScene[s] > 0 && Attained(nfc, shots, i, s, orderByScene[s]))
  }

  ghost predicate Passed(nfc: Nfc, shots: seq<Json>, i: nat, seenIds: set<string>, orderByScene: map<string, int>)
    requires i <= |shots|
  {
    && (forall s :: s in seenIds <==> KeySeen(nfc, shots, i, s))
    && OrdersSeen(nfc, shots, i, orderByScene)
    && forall j :: 0 <= j < i ==> PromptFaults(nfc, shots)[j] == None
  }

  lemma OrderDecided(nfc: Nfc, shots: seq<Json>, i: nat, orderByScene: map<string, int>)
    requires i < |shots| && OrdersSeen(nfc, shots, i, orderByScene)
    ensures OutOfOrder(nfc, shots, i) <==> OrderOf(shots[i]) <= Previous(orderByScene, SceneKey(nfc, shots[i]))
  {
  }

  lemma OrdersSeenGrows(nfc: Nfc, shots: seq<Json>, i: nat, orderByScene: map<string, int>)
    requires i < |shots| && OrdersSeen(nfc, shots, i, orderByScene)
    requires OrderOf(shots[i]) > Previous(orderByScene, SceneKey(nfc, shots[i]))
    ensures OrdersSeen(nfc, shots, i + 1, orderByScene[SceneKey(nfc, shots[i]) := OrderOf(shots[i])])
  {
    var scene := SceneKey(nfc, shots[i]);
    var next := orderByScene[scene := OrderOf(shots[i])];
    forall s | s in next ensures next[s] > 0 && Attained(nfc, shots, i + 1, s, next[s]) {
      if s != scene { AttainedGrows(nfc, shots, i, s, orderByScene[s]); }
    }
    forall j | 0 <= j < i + 1 ensures OrderOf(shots[j]) <= Previous(next, SceneKey(nfc, shots[j])) {
    }
  }

  lemma AttainedGrows(nfc: Nfc, shots: seq<Json>, i: nat, s: string, order: int)
    requires i < |shots| && Attained(nfc, shots, i, s, order)
    ensures Attained(nfc, shots, i + 1, s, order)
  {
  }

  lemma Round(nfc: Nfc, shots: seq<Json>, i: nat, seenIds: set<string>, orderByScene: map<string, int>)
    requires i < |shots| && Passed(nfc, shots, i, seenIds, orderByScene)
    ensures Taken(nfc, shots, i) <==> ShotKey(nfc, shots[i]) in seenIds
    ensures OutOfOrder(nfc, shots, i) <==> OrderOf(shots[i]) <= Previous(orderByScene, SceneKey(nfc, shots[i]))
    ensures PromptFaults(nfc, shots)[i].Some? ==> FirstFault(PromptFaults(nfc, shots)) == PromptFaults(nfc, shots)[i]
  {
    assert Taken(nfc, shots, i) <==> KeySeen(nfc, shots, i, ShotKey(nfc, shots[i]));
    OrderDecided(nfc, shots, i, orderByScene);
    if PromptFaults(nfc, shots)[i].Some? { FirstFaultAt(PromptFaults(nfc, shots), i); }
  }

  lemma OneMorePassed(nfc: Nfc, shots: seq<Json>, i: nat, seenIds: set<string>, orderByScene: map<string, int>)
    requires i < |shots| && Passed(nfc, shots, i, seenIds, orderByScene) && PromptFaults(nfc, shots)[i] == None
    requires OrderOf(shots[i]) > Previous(orderByScene, SceneKey(nfc, shots[i]))
    ensures Passed(nfc, shots, i + 1, seenIds + {ShotKey(nfc, shots[i])},
                   orderByScene[SceneKey(nfc, shots[i]) := OrderOf(shots[i])])
  {
    OrdersSeenGrows(nfc, shots, i, orderByScene);
    forall s ensures s in seenIds + {ShotKey(nfc, shots[i])} <==> KeySeen(nfc, shots, i + 1, s) {
      KeySeenGrows(nfc, shots, i, s);
    }
  }

  lemma KeySeenGrows(nfc: Nfc, shots: seq<Json>, i: nat, s: string)
    requires i < |shots|
    ensures KeySeen(nfc, shots, i + 1, s) <==> KeySeen(nfc, shots, i, s) || ShotKey(nfc, shots[i]) == s
  {
  }

  lemma CheckOrder(v: Json, taken: bool, outOfOrder: bool)
    requires PromptCheck(v, taken, outOfOrder) == None
    ensures !outOfOrder
  {
  }

  method ValidateShots(nfc: Nfc, value: Json) returns (fault: Option<Fault>)
    ensures fault == PromptsFault(nfc, value)
  {
    if !value.Arr? || value.items == [] {
      return Some(BadSchema);
    }
    var shots := value.items;
    var seenIds: set<string> := {};
    var orderByScene: map<string, int> := map[];
    for i := 0 to |shots|
      invariant Passed(nfc, shots, i, seenIds, orderByScene)
    {
      Round(nfc, shots, i, seenIds, orderByScene);
      var id, scene, order := ShotKey(nfc, shots[i]), SceneKey(nfc, shots[i]), OrderOf(shots[i]);
      fault := PromptCheck(shots[i], id in seenIds, order <= Previous(orderByScene, scene));
      if fault.Some? {
        return;
      }
      CheckOrder(shots[i], id in seenIds, order <= Previous(orderByScene, scene));
      OneMorePassed(nfc, shots, i, seenIds, orderByScene);
      seenIds := seenIds + {id};
      orderByScene := orderByScene[scene := order];
    }
    FirstFaultNone(PromptFaults(nfc, shots));
    return None;
  }
}

/** Which fault the shot prompt validator reports, with the keys, the bounds and the order of the checks
    written out (ai_drama_runtime/shot_prompt_canonical.py). */
module PromptLaw {
  import opened Wrappers
  import opened JsonText
  import opened CanonicalJson
  import opened JsonSchema
  import opened SchemaLaw
  import opened Storyboard
  import V = ValidatorLaw
  import P = ShotPrompts

  ghost predicate PromptNames(v: Json) {
    ExactKeys(v, ["shot_id", "shot_order", "duration_seconds", "scene_id", "character_ids", "prop_ids", "asset_refs",
                  "camera", "action", "emotion", "dialogue", "positive_prompt", "negative_prompt", "continuity_notes",
                  "agnes_video_params"])
  }

  ghost predicate PromptDict(v: Json) {
    && PromptNames(v) && HasText(v, "shot_id") && HasInteger(v, "shot_order") && HasInteger(v, "duration_seconds")
    && HasText(v, "scene_id") && HasTexts(v, "character_ids") && HasTexts(v, "prop_ids") && HasSomeTexts(v, "asset_refs")
    && HasDict(v, "camera") && HasText(v, "action") && HasText(v, "emotion") && HasList(v, "dialogue")
    && HasText(v, "positive_prompt") && HasText(v, "negative_prompt") && HasTexts(v, "continuity_notes")
    && HasDict(v, "agnes_video_params")
  }

  /** A text under the key whose normal form is s. */
  ghost predicate NormalUnder(nfc: Nfc, v: Json, key: string, s: string) {
    exists t :: Under(v, key, Str(t)) && t != "" && nfc(t) == s
  }

  ghost predicate FreshNormalId(nfc: Nfc, shots: seq<Json>, i: nat)
    requires i < |shots|
  {
    forall j, s :: 0 <= j < i && NormalUnder(nfc, shots[i], "shot_id", s) ==> !NormalUnder(nfc, shots[j], "shot_id", s)
  }

  ghost predicate FiveToFifteen(v: Json) {
    exists n :: Under(v, "duration_seconds", Num(n)) && 5 <= n <= 15
  }

  ghost predicate AboveInScene(nfc: Nfc, shots: seq<Json>, i: nat, scene: string, n: int)
    requires i <= |shots|
  {
    forall j, m :: 0 <= j < i && NormalUnder(nfc, shots[j], "scene_id", scene) && Under(shots[j], "shot_order", Num(m)) ==> m < n
  }

  ghost predicate RisingInScene(nfc: Nfc, shots: seq<Json>, i: nat)
    requires i < |shots|
  {
    exists scene, n ::
      && NormalUnder(nfc, shots[i], "scene_id", scene) && Under(shots[i], "shot_order", Num(n)) && n > 0
      && AboveInScene(nfc, shots, i, scene, n)
  }

  ghost predicate PromptStands(nfc: Nfc, shots: seq<Json>, i: nat)
    requires i < |shots|
  {
    PromptDict(shots[i]) && FreshNormalId(nfc, shots, i) && FiveToFifteen(shots[i]) && RisingInScene(nfc, shots, i)
  }

  /** What the validator says of a prompt that does not stand. */
  ghost function PromptCode(nfc: Nfc, shots: seq<Json>, i: nat): Fault
    requires i < |shots|
  {
    var v := shots[i];
    if !PromptNames(v) || !HasText(v, "shot_id") then BadSchema
    else if !FreshNormalId(nfc, shots, i) then BadId
    else if !HasInteger(v, "shot_order") || !HasInteger(v, "duration_seconds") then BadSchema
    else if !FiveToFifteen(v) then BadDuration
    else if !HasText(v, "scene_id") then BadSchema
    else if !RisingInScene(nfc, shots, i) then BadOrder
    else BadSchema
  }

  // ---------- reading the fifteen keys ----------

  const FIRST_KEYS: seq<Key> := [
    Key("shot_id", Text), Key("shot_order", Integer), Key("duration_seconds", Integer), Key("scene_id", Text)]

  const SECOND_KEYS: seq<Key> := [
    Key("character_ids", Texts), Key("prop_ids", Texts), Key("asset_refs", SomeTexts), Key("camera", AnyObject)]

  const THIRD_KEYS: seq<Key> := [
    Key("action", Text), Key("emotion", Text), Key("dialogue", AnyArray), Key("positive_prompt", Text)]

  const FOURTH_KEYS: seq<Key> := [Key("negative_prompt", Text), Key("continuity_notes", Texts), Key("agnes_video_params", AnyObject)]

  predicate PromptTable(keys: seq<Key>) {
    keys == FIRST_KEYS + SECOND_KEYS + THIRD_KEYS + FOURTH_KEYS
  }

  lemma PromptIsTable()
    ensures PromptTable(P.PROMPT)
  {
  }

  lemma PromptNamesOf(keys: seq<Key>)
    requires PromptTable(keys)
    ensures NamesOf(["shot_id", "shot_order", "duration_seconds", "scene_id", "character_ids", "prop_ids", "asset_refs",
                     "camera", "action", "emotion", "dialogue", "positive_prompt", "negative_prompt", "continuity_notes",
                     "agnes_video_params"], keys)
  {
  }

  lemma FirstShapes(v: Json)
    requires WellFormed(v)
    ensures AllShapes(v, FIRST_KEYS) <==>
              && HasText(v, "shot_id") && HasInteger(v, "shot_order") && HasInteger(v, "duration_seconds") && HasText(v, "scene_id")
  {
    FourShapes(v, FIRST_KEYS, Key("shot_id", Text), Key("shot_order", Integer), Key("duration_seconds", Integer), Key("scene_id", Text));
    TextRead(v, "shot_id");
    IntegerRead(v, "shot_order");
    IntegerRead(v, "duration_seconds");
    TextRead(v, "scene_id");
  }

  lemma SecondShapes(v: Json)
    requires WellFormed(v)
    ensures AllShapes(v, SECOND_KEYS) <==>
              && HasTexts(v, "character_ids") && HasTexts(v, "prop_ids") && HasSomeTexts(v, "asset_refs") && HasDict(v, "camera")
  {
    FourShapes(v, SECOND_KEYS, Key("character_ids", Texts), Key("prop_ids", Texts), Key("asset_refs", SomeTexts), Key("camera", AnyObject));
    TextsRead(v, "character_ids");
    TextsRead(v, "prop_ids");
    TextsRead(v, "asset_refs");
    DictRead(v, "camera");
  }

  lemma ThirdShapes(v: Json)
    requires WellFormed(v)
    ensures AllShapes(v, THIRD_KEYS) <==>
              && HasText(v, "action") && HasText(v, "emotion") && HasList(v, "dialogue") && HasText(v, "positive_prompt")
  {
    FourShapes(v, THIRD_KEYS, Key("action", Text), Key("emotion", Text), Key("dialogue", AnyArray), Key("positive_prompt", Text));
    TextRead(v, "action");
    TextRead(v, "emotion");
    ListRead(v, "dialogue");
    TextRead(v, "positive_prompt");
  }

  lemma FourthShapes(v: Json)
    requires WellFormed(v)
    ensures AllShapes(v, FOURTH_KEYS) <==>
              && HasText(v, "negative_prompt") && HasTexts(v, "continuity_notes") && HasDict(v, "agnes_video_params")
  {
    ThreeShapes(v, FOURTH_KEYS, Key("negative_prompt", Text), Key("continuity_notes", Texts), Key("agnes_video_params", AnyObject));
    TextRead(v, "negative_prompt");
    TextsRead(v, "continuity_notes");
    DictRead(v, "agnes_video_params");
  }

  lemma PromptShapes(v: Json, keys: seq<Key>)
    requires WellFormed(v) && PromptTable(keys) && PromptNames(v)
    ensures AllShapes(v, keys) <==> PromptDict(v)
  {
    JoinedShapes(v, FIRST_KEYS, SECOND_KEYS);
    JoinedShapes(v, FIRST_KEYS + SECOND_KEYS, THIRD_KEYS);
    JoinedShapes(v, FIRST_KEYS + SECOND_KEYS + THIRD_KEYS, FOURTH_KEYS);
    FirstShapes(v);
    SecondShapes(v);
    ThirdShapes(v);
    FourthShapes(v);
  }

  lemma PromptKeysRead(v: Json, keys: seq<Key>)
    requires WellFormed(v) && PromptTable(keys)
    ensures HasKeys(v, keys) <==> PromptNames(v)
    ensures ConformsRecord(v, keys) <==> PromptNames(v) && AllShapes(v, keys)
  {
    var names := ["shot_id", "shot_order", "duration_seconds", "scene_id", "character_ids", "prop_ids", "asset_refs",
                  "camera", "action", "emotion", "dialogue", "positive_prompt", "negative_prompt", "continuity_notes",
                  "agnes_video_params"];
    PromptNamesOf(keys);
    ExactKeysIff(v, names, keys);
    RecordRead(v, names, keys);
  }

  lemma PromptRead(v: Json)
    requires WellFormed(v)
    ensures HasKeys(v, P.PROMPT) <==> PromptNames(v)
    ensures ConformsRecord(v, P.PROMPT) <==> PromptDict(v)
  {
    PromptIsTable();
    PromptKeysRead(v, P.PROMPT);
    if PromptNames(v) { PromptShapes(v, P.PROMPT); }
  }

  // ---------- ids, durations and orders ----------

  lemma NormalRead(nfc: Nfc, v: Json, key: string, s: string)
    requires WellFormed(v) && HasText(v, key)
    ensures NormalUnder(nfc, v, key, s) <==> nfc(IdOf(v, key)) == s
  {
    TextRead(v, key);
    IdRead(v, key);
    if NormalUnder(nfc, v, key, s) {
      var t :| Under(v, key, Str(t)) && t != "" && nfc(t) == s;
      UnderRead(v, key, Str(t));
    }
  }

  lemma IdRead(v: Json, key: string)
    requires WellFormed(v) && HasText(v, key)
    ensures Under(v, key, Str(IdOf(v, key))) && IdOf(v, key) != ""
  {
    TextRead(v, key);
    UnderRead(v, key, Str(IdOf(v, key)));
  }

  lemma DurationIff(v: Json)
    requires WellFormed(v)
    ensures FiveToFifteen(v) <==> P.InRange(v)
  {
    V.NumberRead(v, "duration_seconds", NumberOf(v, "duration_seconds"));
    forall n | Under(v, "duration_seconds", Num(n)) ensures n == NumberOf(v, "duration_seconds") {
      V.NumberRead(v, "duration_seconds", n);
    }
  }

  /** The shots before this one have text ids. */
  ghost predicate Texted(shots: seq<Json>, i: nat)
    requires i <= |shots|
  {
    forall j :: 0 <= j < i ==>
      WellFormed(shots[j]) && HasText(shots[j], "shot_id") && HasText(shots[j], "scene_id") && HasInteger(shots[j], "shot_order")
  }

  lemma FreshIff(nfc: Nfc, shots: seq<Json>, i: nat)
    requires i < |shots| && Texted(shots, i) && WellFormed(shots[i]) && HasText(shots[i], "shot_id")
    ensures FreshNormalId(nfc, shots, i) <==> !P.Taken(nfc, shots, i)
  {
    forall s ensures NormalUnder(nfc, shots[i], "shot_id", s) <==> P.ShotKey(nfc, shots[i]) == s {
      NormalRead(nfc, shots[i], "shot_id", s);
    }
    forall j, s | 0 <= j < i ensures NormalUnder(nfc, shots[j], "shot_id", s) <==> P.ShotKey(nfc, shots[j]) == s {
      NormalRead(nfc, shots[j], "shot_id", s);
    }
    assert NormalUnder(nfc, shots[i], "shot_id", P.ShotKey(nfc, shots[i]));
  }

  ghost predicate AllBelow(nfc: Nfc, shots: seq<Json>, i: nat, scene: string, n: int)
    requires i <= |shots|
  {
    forall j :: 0 <= j < i && P.SceneKey(nfc, shots[j]) == scene ==> P.OrderOf(shots[j]) < n
  }

  lemma AboveIff(nfc: Nfc, shots: seq<Json>, i: nat, scene: string, n: int)
    requires i <= |shots| && Texted(shots, i)
    ensures AboveInScene(nfc, shots, i, scene, n) <==> AllBelow(nfc, shots, i, scene, n)
  {
    forall j | 0 <= j < i
      ensures NormalUnder(nfc, shots[j], "scene_id", scene) <==> P.SceneKey(nfc, shots[j]) == scene
      ensures Under(shots[j], "shot_order", Num(P.OrderOf(shots[j])))
    {
      NormalRead(nfc, shots[j], "scene_id", scene);
      IntegerRead(shots[j], "shot_order");
    }
    forall j, m | 0 <= j < i && Under(shots[j], "shot_order", Num(m)) ensures P.OrderOf(shots[j]) == m {
      V.NumberRead(shots[j], "shot_order", m);
    }
  }

  lemma RisingRead(nfc: Nfc, shots: seq<Json>, i: nat)
    requires i < |shots| && WellFormed(shots[i]) && HasText(shots[i], "scene_id") && HasInteger(shots[i], "shot_order")
    ensures var scene, n := P.SceneKey(nfc, shots[i]), P.OrderOf(shots[i]);
            RisingInScene(nfc, shots, i) <==> n > 0 && AboveInScene(nfc, shots, i, scene, n)
  {
    IntegerRead(shots[i], "shot_order");
    forall s ensures NormalUnder(nfc, shots[i], "scene_id", s) <==> P.SceneKey(nfc, shots[i]) == s {
      NormalRead(nfc, shots[i], "scene_id", s);
    }
    forall m | Under(shots[i], "shot_order", Num(m)) ensures m == P.OrderOf(shots[i]) {
      UnderRead(shots[i], "shot_order", Num(m));
    }
    assert NormalUnder(nfc, shots[i], "scene_id", P.SceneKey(nfc, shots[i]));
  }

  lemma RisingIff(nfc: Nfc, shots: seq<Json>, i: nat)
    requires i < |shots| && Texted(shots, i)
    requires WellFormed(shots[i]) && HasText(shots[i], "scene_id") && HasInteger(shots[i], "shot_order")
    ensures RisingInScene(nfc, shots, i) <==> !P.OutOfOrder(nfc, shots, i)
  {
    RisingRead(nfc, shots, i);
    AboveIff(nfc, shots, i, P.SceneKey(nfc, shots[i]), P.OrderOf(shots[i]));
  }

  // ---------- the fault of a prompt ----------

  lemma PromptFaultRead(nfc: Nfc, shots: seq<Json>, i: nat)
    requires i < |shots| && Texted(shots, i) && WellFormed(shots[i])
    ensures P.PromptFaults(nfc, shots)[i] == if PromptStands(nfc, shots, i) then None else Some(PromptCode(nfc, shots, i))
  {
    var v := shots[i];
    PromptRead(v);
    TextRead(v, "shot_id");
    IntegerRead(v, "shot_order");
    IntegerRead(v, "duration_seconds");
    TextRead(v, "scene_id");
    DurationIff(v);
    if HasText(v, "shot_id") { FreshIff(nfc, shots, i); }
    if HasText(v, "scene_id") && HasInteger(v, "shot_order") { RisingIff(nfc, shots, i); }
  }

  ghost predicate AllStand(nfc: Nfc, shots: seq<Json>, i: nat)
    requires i <= |shots|
  {
    forall j :: 0 <= j < i ==> PromptStands(nfc, shots, j)
  }

  lemma StandingPass(nfc: Nfc, shots: seq<Json>, i: nat)
    requires i <= |shots| && V.AllWellFormed(shots) && AllStand(nfc, shots, i)
    ensures Texted(shots, i) && forall j :: 0 <= j < i ==> P.PromptFaults(nfc, shots)[j] == None
  {
    forall j | 0 <= j < i
      ensures HasText(shots[j], "shot_id") && HasText(shots[j], "scene_id") && HasInteger(shots[j], "shot_order")
    {
      assert PromptStands(nfc, shots, j);
    }
    forall j | 0 <= j < i ensures P.PromptFaults(nfc, shots)[j] == None {
      assert Texted(shots, j);
      PromptFaultRead(nfc, shots, j);
    }
  }

  /** The first prompt that does not stand decides the fault; a list that is empty or no list is refused. */
  lemma PromptFaultByTables(nfc: Nfc, shots: seq<Json>, i: nat)
    requires V.AllWellFormed(shots) && i < |shots| && AllStand(nfc, shots, i) && !PromptStands(nfc, shots, i)
    ensures P.PromptsFault(nfc, Arr(shots)) == Some(PromptCode(nfc, shots, i))
  {
    StandingPass(nfc, shots, i);
    PromptFaultRead(nfc, shots, i);
    V.FirstFaulty(P.PromptFaults(nfc, shots), i, PromptCode(nfc, shots, i));
  }

  lemma PromptsAcceptedByTables(nfc: Nfc, v: Json)
    requires WellFormed(v)
    ensures P.PromptsFault(nfc, v) == None <==> v.Arr? && v.items != [] && AllStand(nfc, v.items, |v.items|)
    ensures !v.Arr? || v.items == [] ==> P.PromptsFault(nfc, v) == Some(BadSchema)
  {
    if v.Arr? && v.items != [] {
      if AllStand(nfc, v.items, |v.items|) {
        StandingPass(nfc, v.items, |v.items|);
        FirstFaultNone(P.PromptFaults(nfc, v.items));
      } else {
        var i := FirstNotStanding(nfc, v.items, 0);
        PromptFaultByTables(nfc, v.items, i);
      }
    }
  }

  lemma {:induction false} FirstNotStanding(nfc: Nfc, shots: seq<Json>, n: nat) returns (i: nat)
    requires n <= |shots| && AllStand(nfc, shots, n) && !AllStand(nfc, shots, |shots|)
    ensures i < |shots| && AllStand(nfc, shots, i) && !PromptStands(nfc, shots, i)
    decreases |shots| - n
  {
    if n == |shots| {
      assert false;
    } else if PromptStands(nfc, shots, n) {
      i := FirstNotStanding(nfc, shots, n + 1);
    } else {
      i := n;
    }
  }
}

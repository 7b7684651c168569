/** Which fault the storyboard validator reports, and when it reports none, with the keys, the id pattern, the
    bounds and the order of the checks written out (ai_drama_runtime/storyboard_canonical.py). */
module ValidatorLaw {
  import opened Wrappers
  import opened JsonText
  import opened JsonSchema
  import opened SchemaLaw
  import opened Storyboard
  import opened StoryboardShots
  import opened StoryboardValidation

  // ---------- the id pattern, by code point ----------

  /** A capital letter or a digit. */
  predicate HeadChar(c: char) {
    65 <= c as int <= 90 || 48 <= c as int <= 57
  }

  /** Also an underscore or a hyphen. */
  predicate TailChars(s: string) {
    forall i :: 0 <= i < |s| ==> HeadChar(s[i]) || s[i] as int == 95 || s[i] as int == 45
  }

  predicate PatternText(prefix: string, s: string, head: char, tail: string) {
    && HeadChar(head) && TailChars(tail)
    && (s == prefix + [head] + tail || s == prefix + [head] + tail + [10 as char])
  }

  ghost predicate Pattern(prefix: string, s: string) {
    exists head, tail :: PatternText(prefix, s, head, tail)
  }

  lemma PatternMatches(prefix: string, s: string, head: char, tail: string)
    requires PatternText(prefix, s, head, tail)
    ensures IdMatches(prefix, s)
  {
    var core := prefix + [head] + tail;
    assert core[|core| - 1] == if tail == [] then head else tail[|tail| - 1];
    assert WithoutLineFeed(s) == core;
    assert core[..|prefix|] == prefix;
    forall i | |prefix| < i < |core| ensures IdTail(core[i]) {
      assert core[i] == tail[i - |prefix| - 1];
    }
  }

  lemma MatchesPattern(prefix: string, s: string)
    requires IdMatches(prefix, s)
    ensures Pattern(prefix, s)
  {
    var core := WithoutLineFeed(s);
    var tail := core[|prefix| + 1..];
    assert core == prefix + [core[|prefix|]] + tail;
    assert PatternText(prefix, s, core[|prefix|], tail);
  }

  lemma PatternIff(prefix: string, s: string)
    ensures IdMatches(prefix, s) <==> Pattern(prefix, s)
  {
    if IdMatches(prefix, s) { MatchesPattern(prefix, s); }
    if Pattern(prefix, s) {
      var head, tail :| PatternText(prefix, s, head, tail);
      PatternMatches(prefix, s, head, tail);
    }
  }

  // ---------- ids and orders within a list ----------

  predicate AllWellFormed(vs: seq<Json>) {
    forall i :: 0 <= i < |vs| ==> WellFormed(vs[i])
  }

  ghost predicate NotUsed(vs: seq<Json>, i: nat, key: string, id: string)
    requires i <= |vs|
  {
    forall j :: 0 <= j < i ==> !Under(vs[j], key, Str(id))
  }

  ghost predicate FreshId(vs: seq<Json>, i: nat, key: string, prefix: string)
    requires i < |vs|
  {
    exists id :: Under(vs[i], key, Str(id)) && Pattern(prefix, id) && NotUsed(vs, i, key, id)
  }

  ghost predicate Above(vs: seq<Json>, i: nat, key: string, n: int)
    requires i <= |vs|
  {
    forall j, m :: 0 <= j < i && Under(vs[j], key, Num(m)) ==> m < n
  }

  ghost predicate Rising(vs: seq<Json>, i: nat, key: string)
    requires i < |vs|
  {
    exists n :: Under(vs[i], key, Num(n)) && n > 0 && Above(vs, i, key, n)
  }

  lemma IdRead(v: Json, key: string, id: string)
    requires WellFormed(v) && id != ""
    ensures Under(v, key, Str(id)) <==> IdOf(v, key) == id
  {
    if Under(v, key, Str(id)) { UnderRead(v, key, Str(id)); }
    if IdOf(v, key) == id {
      assert Present(v, key);
      ReadUnder(v, key);
    }
  }

  lemma NumberRead(v: Json, key: string, n: int)
    requires WellFormed(v)
    ensures Under(v, key, Num(n)) ==> NumberOf(v, key) == n
    ensures NumberOf(v, key) == n && n != 0 ==> Under(v, key, Num(n))
  {
    if Under(v, key, Num(n)) { UnderRead(v, key, Num(n)); }
    if NumberOf(v, key) == n && n != 0 {
      assert Present(v, key);
      ReadUnder(v, key);
    }
  }

  lemma NotUsedIff(vs: seq<Json>, i: nat, key: string, id: string)
    requires AllWellFormed(vs) && i <= |vs| && id != ""
    ensures NotUsed(vs, i, key, id) <==> !IdSeen(vs, i, key, id)
  {
    forall j | 0 <= j < i ensures Under(vs[j], key, Str(id)) <==> IdOf(vs[j], key) == id {
      IdRead(vs[j], key, id);
    }
  }

  lemma FreshIdIff(vs: seq<Json>, i: nat, key: string, prefix: string)
    requires AllWellFormed(vs) && i < |vs| && HasText(vs[i], key)
    ensures FreshId(vs, i, key, prefix) <==> IdMatches(prefix, IdOf(vs[i], key)) && !IdSeen(vs, i, key, IdOf(vs[i], key))
  {
    var id := IdOf(vs[i], key);
    TextRead(vs[i], key);
    IdRead(vs[i], key, id);
    PatternIff(prefix, id);
    NotUsedIff(vs, i, key, id);
    forall s | Under(vs[i], key, Str(s)) ensures s == id {
      UnderRead(vs[i], key, Str(s));
    }
  }

  lemma AboveIff(vs: seq<Json>, i: nat, key: string, n: int)
    requires AllWellFormed(vs) && i <= |vs| && n > 0
    ensures Above(vs, i, key, n) <==> forall j :: 0 <= j < i ==> NumberOf(vs[j], key) < n
  {
    if Above(vs, i, key, n) {
      forall j | 0 <= j < i ensures NumberOf(vs[j], key) < n {
        NumberRead(vs[j], key, NumberOf(vs[j], key));
      }
    }
    forall j, m | 0 <= j < i && Under(vs[j], key, Num(m)) ensures NumberOf(vs[j], key) == m {
      NumberRead(vs[j], key, m);
    }
  }

  lemma RisingIff(vs: seq<Json>, i: nat, key: string)
    requires AllWellFormed(vs) && i < |vs| && HasInteger(vs[i], key)
    ensures Rising(vs, i, key)
       <==> NumberOf(vs[i], key) > 0 && forall j :: 0 <= j < i ==> NumberOf(vs[j], key) < NumberOf(vs[i], key)
  {
    var n := NumberOf(vs[i], key);
    IntegerRead(vs[i], key);
    if n > 0 { AboveIff(vs, i, key, n); }
    forall m | Under(vs[i], key, Num(m)) ensures m == n {
      NumberRead(vs[i], key, m);
    }
  }

  // ---------- the first faulty entry ----------

  lemma FirstFaulty(faults: seq<Option<Fault>>, i: nat, f: Fault)
    requires i < |faults| && faults[i] == Some(f) && forall j :: 0 <= j < i ==> faults[j] == None
    ensures FirstFault(faults) == Some(f)
  {
    FirstFaultAt(faults, i);
  }

  // ---------- scenes ----------

  ghost predicate SceneKeys(v: Json) {
    ExactKeys(v, ["scene_id", "scene_order", "source_scene_reference", "location", "time", "interior_exterior",
                  "characters", "summary"])
  }

  ghost predicate SceneDict(v: Json) {
    && SceneKeys(v)
    && HasText(v, "scene_id") && HasInteger(v, "scene_order") && HasText(v, "source_scene_reference")
    && HasTextOrNull(v, "location") && HasTextOrNull(v, "time") && HasTextOrNull(v, "interior_exterior")
    && HasTexts(v, "characters") && HasText(v, "summary")
  }

  /** A scene with all its fields, a new id of the pattern, and an order above those before it. */
  ghost predicate SceneStands(scenes: seq<Json>, i: nat)
    requires i < |scenes|
  {
    SceneDict(scenes[i]) && FreshId(scenes, i, "scene_id", "SCENE_") && Rising(scenes, i, "scene_order")
  }

  /** What the validator says of a scene that does not stand. */
  ghost function SceneCode(scenes: seq<Json>, i: nat): Fault
    requires i < |scenes|
  {
    if !SceneKeys(scenes[i]) || !HasText(scenes[i], "scene_id") then BadSchema
    else if !FreshId(scenes, i, "scene_id", "SCENE_") then BadId
    else if !HasInteger(scenes[i], "scene_order") then BadSchema
    else if !Rising(scenes, i, "scene_order") then BadOrder
    else BadSchema
  }

  predicate SceneTable(keys: seq<Key>) {
    keys == [
      Key("scene_id", Text), Key("scene_order", Integer), Key("source_scene_reference", Text), Key("location", NullableText)]
    + [Key("time", NullableText), Key("interior_exterior", NullableText), Key("characters", Texts), Key("summary", Text)]
  }

  lemma SceneIsTable()
    ensures SceneTable(SCENE)
  {
  }

  lemma SceneNamesOf(keys: seq<Key>)
    requires SceneTable(keys)
    ensures NamesOf(["scene_id", "scene_order", "source_scene_reference", "location", "time", "interior_exterior",
                     "characters", "summary"], keys)
  {
  }

  lemma FirstSceneShapes(v: Json)
    requires WellFormed(v)
    ensures AllShapes(v, [Key("scene_id", Text), Key("scene_order", Integer), Key("source_scene_reference", Text), Key("location", NullableText)])
       <==> HasText(v, "scene_id") && HasInteger(v, "scene_order") && HasText(v, "source_scene_reference") && HasTextOrNull(v, "location")
  {
    FourShapes(v, [Key("scene_id", Text), Key("scene_order", Integer), Key("source_scene_reference", Text), Key("location", NullableText)],
               Key("scene_id", Text), Key("scene_order", Integer), Key("source_scene_reference", Text), Key("location", NullableText));
    TextRead(v, "scene_id");
    IntegerRead(v, "scene_order");
    TextRead(v, "source_scene_reference");
    TextOrNullRead(v, "location");
  }

  lemma LastSceneShapes(v: Json)
    requires WellFormed(v)
    ensures AllShapes(v, [Key("time", NullableText), Key("interior_exterior", NullableText), Key("characters", Texts), Key("summary", Text)])
       <==> HasTextOrNull(v, "time") && HasTextOrNull(v, "interior_exterior") && HasTexts(v, "characters") && HasText(v, "summary")
  {
    FourShapes(v, [Key("time", NullableText), Key("interior_exterior", NullableText), Key("characters", Texts), Key("summary", Text)],
               Key("time", NullableText), Key("interior_exterior", NullableText), Key("characters", Texts), Key("summary", Text));
    TextOrNullRead(v, "time");
    TextOrNullRead(v, "interior_exterior");
    TextsRead(v, "characters");
    TextRead(v, "summary");
  }

  lemma SceneRead(v: Json)
    requires WellFormed(v)
    ensures HasKeys(v, SCENE) <==> SceneKeys(v)
    ensures ConformsRecord(v, SCENE) <==> SceneDict(v)
  {
    var names := ["scene_id", "scene_order", "source_scene_reference", "location", "time", "interior_exterior",
                  "characters", "summary"];
    SceneIsTable();
    SceneNamesOf(SCENE);
    ExactKeysIff(v, names, SCENE);
    RecordRead(v, names, SCENE);
    FirstSceneShapes(v);
    LastSceneShapes(v);
    JoinedShapes(v,
      [Key("scene_id", Text), Key("scene_order", Integer), Key("source_scene_reference", Text), Key("location", NullableText)],
      [Key("time", NullableText), Key("interior_exterior", NullableText), Key("characters", Texts), Key("summary", Text)]);
  }

  lemma SceneIdTakenIff(scenes: seq<Json>, i: nat)
    requires AllWellFormed(scenes) && i < |scenes| && HasText(scenes[i], "scene_id")
    ensures FreshId(scenes, i, "scene_id", "SCENE_") <==> SceneIdMatches(scenes[i]) && !SceneIdTaken(scenes, i)
  {
    FreshIdIff(scenes, i, "scene_id", "SCENE_");
  }

  lemma SceneOrderIff(scenes: seq<Json>, i: nat)
    requires AllWellFormed(scenes) && i < |scenes| && HasInteger(scenes[i], "scene_order")
    ensures Rising(scenes, i, "scene_order") <==> !SceneOutOfOrder(scenes, i)
  {
    RisingIff(scenes, i, "scene_order");
  }

  lemma SceneFaultRead(scenes: seq<Json>, i: nat)
    requires AllWellFormed(scenes) && i < |scenes|
    ensures SceneFault(scenes, i) == if SceneStands(scenes, i) then None else Some(SceneCode(scenes, i))
  {
    SceneRead(scenes[i]);
    TextRead(scenes[i], "scene_id");
    IntegerRead(scenes[i], "scene_order");
    if HasText(scenes[i], "scene_id") { SceneIdTakenIff(scenes, i); }
    if HasInteger(scenes[i], "scene_order") { SceneOrderIff(scenes, i); }
  }

  /** The scenes are accepted exactly when all stand. */
  lemma ScenesAcceptedByTables(scenes: seq<Json>)
    requires AllWellFormed(scenes)
    ensures ScenesFault(scenes) == None <==> forall i :: 0 <= i < |scenes| ==> SceneStands(scenes, i)
  {
    FirstFaultNone(SceneFaults(scenes));
    forall i | 0 <= i < |scenes| ensures SceneFaults(scenes)[i] == None <==> SceneStands(scenes, i) {
      SceneFaultRead(scenes, i);
    }
  }

  /** The first scene that does not stand decides the fault. */
  lemma SceneFaultByTables(scenes: seq<Json>, i: nat)
    requires AllWellFormed(scenes) && i < |scenes| && !SceneStands(scenes, i)
    requires forall j :: 0 <= j < i ==> SceneStands(scenes, j)
    ensures ScenesFault(scenes) == Some(SceneCode(scenes, i))
  {
    forall j | 0 <= j <= i ensures SceneFaults(scenes)[j] == if SceneStands(scenes, j) then None else Some(SceneCode(scenes, j)) {
      SceneFaultRead(scenes, j);
    }
    FirstFaulty(SceneFaults(scenes), i, SceneCode(scenes, i));
  }

  // ---------- actions ----------

  ghost predicate ActionStands(items: seq<Json>, i: nat)
    requires i < |items|
  {
    ActionDict(items[i]) && Rising(items, i, "action_order")
  }

  ghost function ActionCode(items: seq<Json>, i: nat): Fault
    requires i < |items|
  {
    if !ExactKeys(items[i], ["character_id", "action_order", "action"]) then BadSchema
    else if !HasText(items[i], "character_id") || !HasInteger(items[i], "action_order") then BadSchema
    else if !Rising(items, i, "action_order") then BadOrder
    else BadSchema
  }

  lemma ActionFaultRead(items: seq<Json>, i: nat)
    requires AllWellFormed(items) && i < |items|
    ensures ActionFault(items, i) == if ActionStands(items, i) then None else Some(ActionCode(items, i))
  {
    ActionRead(items[i]);
    ExactKeysIff(items[i], ["character_id", "action_order", "action"], ACTION);
    TextRead(items[i], "character_id");
    IntegerRead(items[i], "action_order");
    if HasInteger(items[i], "action_order") { RisingIff(items, i, "action_order"); }
  }

  ghost predicate ActionsStand(v: Json) {
    v.Arr? && forall i :: 0 <= i < |v.items| ==> ActionStands(v.items, i)
  }

  lemma ActionsAcceptedByTables(v: Json)
    requires WellFormed(v)
    ensures ActionsFault(v) == None <==> ActionsStand(v)
    ensures !v.Arr? ==> ActionsFault(v) == Some(BadSchema)
  {
    if v.Arr? {
      FirstFaultNone(ActionFaults(v.items));
      forall i | 0 <= i < |v.items| ensures ActionFaults(v.items)[i] == None <==> ActionStands(v.items, i) {
        ActionFaultRead(v.items, i);
      }
    }
  }

  lemma ActionFaultByTables(items: seq<Json>, i: nat)
    requires AllWellFormed(items) && i < |items| && !ActionStands(items, i)
    requires forall j :: 0 <= j < i ==> ActionStands(items, j)
    ensures ActionsFault(Arr(items)) == Some(ActionCode(items, i))
  {
    forall j | 0 <= j <= i ensures ActionFaults(items)[j] == if ActionStands(items, j) then None else Some(ActionCode(items, j)) {
      ActionFaultRead(items, j);
    }
    FirstFaulty(ActionFaults(items), i, ActionCode(items, i));
  }
}

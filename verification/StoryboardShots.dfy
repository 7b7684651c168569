/** Validation of the shots of a canonical storyboard (ai_drama_runtime/storyboard_canonical.py). */
module StoryboardShots {
  import opened Wrappers
  import opened JsonText
  import opened JsonSchema
  import opened Storyboard

  // ---------- actions of one shot ----------

  predicate ActionOutOfOrder(items: seq<Json>, i: nat)
    requires i < |items|
  {
    || NumberOf(items[i], "action_order") <= 0
    || exists j :: 0 <= j < i && NumberOf(items[j], "action_order") >= NumberOf(items[i], "action_order")
  }

  function ActionFault(items: seq<Json>, i: nat): Option<Fault>
    requires i < |items|
  {
    var v := items[i];
    if !HasKeys(v, ACTION) || !Conforms(At(v, "character_id"), Text) || !Conforms(At(v, "action_order"), Integer)
    then Some(BadSchema)
    else if ActionOutOfOrder(items, i) then Some(BadOrder)
    else if !ConformsRecord(v, ACTION) then Some(BadSchema)
    else None
  }

  function ActionFaults(items: seq<Json>): seq<Option<Fault>> {
    seq(|items|, i requires 0 <= i < |items| => ActionFault(items, i))
  }

  function ActionsFault(v: Json): Option<Fault> {
    if v.Arr? then FirstFault(ActionFaults(v.items)) else Some(BadSchema)
  }

  /** Actions numbered strictly upwards from at least 1. */
  ghost predicate ActionsSound(v: Json) {
    && Conforms(v, Records(ACTION))
    && (forall i :: 0 <= i < |v.items| ==> NumberOf(v.items[i], "action_order") > 0)
    && (forall i, j :: 0 <= i < j < |v.items| ==> NumberOf(v.items[i], "action_order") < NumberOf(v.items[j], "action_order"))
  }

  lemma ActionPieces(v: Json)
    requires ConformsRecord(v, ACTION)
    ensures Conforms(At(v, "character_id"), Text) && Conforms(At(v, "action_order"), Integer)
  {
    assert ACTION[0] == Key("character_id", Text) && ACTION[1] == Key("action_order", Integer);
  }

  lemma ActionFaultIff(items: seq<Json>, i: nat)
    requires i < |items|
    ensures ActionFault(items, i) == None <==> ConformsRecord(items[i], ACTION) && !ActionOutOfOrder(items, i)
  {
    if ConformsRecord(items[i], ACTION) { ActionPieces(items[i]); }
  }

  lemma ActionsValidIff(v: Json)
    ensures ActionsFault(v) == None <==> ActionsSound(v)
  {
    if v.Arr? {
      FirstFaultNone(ActionFaults(v.items));
      forall i | 0 <= i < |v.items|
        ensures ActionFaults(v.items)[i] == None <==> ConformsRecord(v.items[i], ACTION) && !ActionOutOfOrder(v.items, i)
      {
        ActionFaultIff(v.items, i);
      }
    }
  }

  /** What the loop over the actions knows before round i. */
  ghost predicate ActionsPassed(items: seq<Json>, i: nat, previous: int)
    requires i <= |items|
  {
    && previous >= 0
    && (forall j :: 0 <= j < i ==> NumberOf(items[j], "action_order") <= previous && ActionFaults(items)[j] == None)
    && (previous == 0 || exists j :: 0 <= j < i && NumberOf(items[j], "action_order") == previous)
  }

  lemma ActionRound(items: seq<Json>, i: nat, previous: int)
    requires i < |items| && ActionsPassed(items, i, previous)
    ensures ActionOutOfOrder(items, i) <==> NumberOf(items[i], "action_order") <= previous
    ensures ActionFaults(items)[i].Some? ==> FirstFault(ActionFaults(items)) == ActionFaults(items)[i]
  {
    if ActionFaults(items)[i].Some? { FirstFaultAt(ActionFaults(items), i); }
  }

  lemma ActionPassed(items: seq<Json>, i: nat, previous: int)
    requires i < |items| && ActionsPassed(items, i, previous)
    requires ActionFaults(items)[i] == None && NumberOf(items[i], "action_order") > previous
    ensures ActionsPassed(items, i + 1, NumberOf(items[i], "action_order"))
  {
  }

  method ValidateCharacterActions(value: Json) returns (fault: Option<Fault>)
    ensures fault == ActionsFault(value)
  {
    if !value.Arr? {
      return Some(BadSchema);
    }
    var items := value.items;
    var previous := 0;
    for i := 0 to |items|
      invariant ActionsPassed(items, i, previous)
    {
      var item := items[i];
      ActionRound(items, i, previous);
      if !HasKeys(item, ACTION) || !Conforms(At(item, "character_id"), Text) || !Conforms(At(item, "action_order"), Integer) {
        return Some(BadSchema);
      }
      if NumberOf(item, "action_order") <= previous {
        return Some(BadOrder);
      }
      if !ConformsRecord(item, ACTION) {
        return Some(BadSchema);
      }
      ActionPassed(items, i, previous);
      previous := NumberOf(item, "action_order");
    }
    FirstFaultNone(ActionFaults(items));
    return None;
  }

  // ---------- shots: the fault the validator reports ----------

  predicate ShotIdTaken(shots: seq<Json>, i: nat)
    requires i < |shots|
  {
    exists j :: 0 <= j < i && IdOf(shots[j], "shot_id") == IdOf(shots[i], "shot_id")
  }

  predicate SameScene(v: Json, w: Json) {
    IdOf(v, "scene_id") == IdOf(w, "scene_id")
  }

  predicate ShotOutOfOrder(shots: seq<Json>, i: nat)
    requires i < |shots|
  {
    || NumberOf(shots[i], "shot_order") <= 0
    || exists j :: 0 <= j < i && SameScene(shots[j], shots[i]) && NumberOf(shots[j], "shot_order") >= NumberOf(shots[i], "shot_order")
  }

  predicate InRange(v: Json) {
    5 <= NumberOf(v, "duration_seconds") <= 15
  }

  predicate CameraConforms(v: Json) {
    && Conforms(At(v, "shot_size"), Text) && Conforms(At(v, "camera_angle"), Text)
    && Conforms(At(v, "camera_movement"), NullableObject) && Conforms(At(v, "visual_composition"), Record(VISUAL))
    && Conforms(At(v, "character_positions"), Records(POSITION))
  }

  /** The checks of one shot in order; taken and outOfOrder stand for what depends on earlier shots. */
  function ShotCheck(v: Json, sceneIds: set<string>, taken: bool, outOfOrder: bool): Option<Fault> {
    if !HasKeys(v, SHOT) || !Conforms(At(v, "scene_id"), Text) then Some(BadSchema)
    else if IdOf(v, "scene_id") !in sceneIds then Some(BadMapping)
    else if !Conforms(At(v, "shot_id"), Text) then Some(BadSchema)
    else if !ShotIdMatches(v) || taken then Some(BadId)
    else if !Conforms(At(v, "shot_order"), Integer) then Some(BadSchema)
    else if outOfOrder then Some(BadOrder)
    else if !Conforms(At(v, "source_scene_reference"), Text) || !Conforms(At(v, "duration_seconds"), Integer)
    then Some(BadSchema)
    else if !InRange(v) then Some(BadDuration)
    else if !CameraConforms(v) then Some(BadSchema)
    else if ActionsFault(At(v, "character_actions")).Some? then ActionsFault(At(v, "character_actions"))
    else if !ConformsRecord(v, SHOT) then Some(BadSchema)
    else None
  }

  function ShotFaults(shots: seq<Json>, sceneIds: set<string>): seq<Option<Fault>> {
    seq(|shots|, i requires 0 <= i < |shots| => ShotCheck(shots[i], sceneIds, ShotIdTaken(shots, i), ShotOutOfOrder(shots, i)))
  }

  /** The validator stops at the first faulty shot. */
  function ShotsFault(shots: seq<Json>, sceneIds: set<string>): Option<Fault> {
    FirstFault(ShotFaults(shots, sceneIds))
  }

  /** What one shot must satisfy on its own. */
  ghost predicate ShotSound(v: Json, sceneIds: set<string>) {
    && ConformsRecord(v, SHOT) && ShotIdMatches(v) && IdOf(v, "scene_id") in sceneIds && InRange(v)
    && ActionsSound(At(v, "character_actions")) && NumberOf(v, "shot_order") > 0
  }

  ghost predicate ShotsSound(shots: seq<Json>, sceneIds: set<string>) {
    && (forall i :: 0 <= i < |shots| ==> ShotSound(shots[i], sceneIds))
    && (forall i, j :: 0 <= i < j < |shots| ==> IdOf(shots[i], "shot_id") != IdOf(shots[j], "shot_id"))
    && (forall i, j :: 0 <= i < j < |shots| && SameScene(shots[i], shots[j])
          ==> NumberOf(shots[i], "shot_order") < NumberOf(shots[j], "shot_order"))
  }

  /** The keys of SHOT the checks single out. */
  predicate ShotKeys(keys: seq<Key>) {
    && |keys| == 16
    && keys[0] == Key("scene_id", Text) && keys[1] == Key("shot_id", Text) && keys[2] == Key("shot_order", Integer)
    && keys[3] == Key("source_scene_reference", Text) && keys[4] == Key("duration_seconds", Integer)
    && keys[5] == Key("shot_size", Text) && keys[6] == Key("camera_angle", Text)
    && keys[7] == Key("camera_movement", NullableObject) && keys[8] == Key("visual_composition", Record(VISUAL))
    && keys[9] == Key("character_positions", Records(POSITION)) && keys[10] == Key("character_actions", Records(ACTION))
  }

  lemma ShotHasKeys()
    ensures ShotKeys(SHOT)
  {
  }

  lemma PiecesOf(v: Json, keys: seq<Key>)
    requires ShotKeys(keys) && ConformsRecord(v, keys)
    ensures Conforms(At(v, "scene_id"), Text) && Conforms(At(v, "shot_id"), Text) && Conforms(At(v, "shot_order"), Integer)
    ensures Conforms(At(v, "source_scene_reference"), Text) && Conforms(At(v, "duration_seconds"), Integer)
    ensures CameraConforms(v) && Conforms(At(v, "character_actions"), Records(ACTION))
  {
    Piece(v, keys, 0, Key("scene_id", Text));
    Piece(v, keys, 1, Key("shot_id", Text));
    Piece(v, keys, 2, Key("shot_order", Integer));
    Piece(v, keys, 3, Key("source_scene_reference", Text));
    Piece(v, keys, 4, Key("duration_seconds", Integer));
    Piece(v, keys, 5, Key("shot_size", Text));
    Piece(v, keys, 6, Key("camera_angle", Text));
    Piece(v, keys, 7, Key("camera_movement", NullableObject));
    Piece(v, keys, 8, Key("visual_composition", Record(VISUAL)));
    Piece(v, keys, 9, Key("character_positions", Records(POSITION)));
    Piece(v, keys, 10, Key("character_actions", Records(ACTION)));
  }

  lemma ShotPieces(v: Json)
    requires ConformsRecord(v, SHOT)
    ensures Conforms(At(v, "scene_id"), Text) && Conforms(At(v, "shot_id"), Text) && Conforms(At(v, "shot_order"), Integer)
    ensures Conforms(At(v, "source_scene_reference"), Text) && Conforms(At(v, "duration_seconds"), Integer)
    ensures CameraConforms(v) && Conforms(At(v, "character_actions"), Records(ACTION))
  {
    ShotHasKeys();
    PiecesOf(v, SHOT);
  }

  lemma ShotCheckIff(v: Json, sceneIds: set<string>, taken: bool, outOfOrder: bool)
    requires NumberOf(v, "shot_order") <= 0 ==> outOfOrder
    ensures ShotCheck(v, sceneIds, taken, outOfOrder) == None <==> ShotSound(v, sceneIds) && !taken && !outOfOrder
  {
    ActionsValidIff(At(v, "character_actions"));
    if ShotSound(v, sceneIds) { SoundShotCheck(v, sceneIds, taken, outOfOrder); }
  }

  lemma SoundShotCheck(v: Json, sceneIds: set<string>, taken: bool, outOfOrder: bool)
    requires ConformsRecord(v, SHOT) && ShotIdMatches(v) && IdOf(v, "scene_id") in sceneIds && InRange(v)
    requires ActionsFault(At(v, "character_actions")) == None
    ensures ShotCheck(v, sceneIds, taken, outOfOrder) == None <==> !taken && !outOfOrder
  {
    ShotPieces(v);
  }

  ghost predicate ShotPasses(shots: seq<Json>, sceneIds: set<string>, i: nat)
    requires i < |shots|
  {
    ShotSound(shots[i], sceneIds) && !ShotIdTaken(shots, i) && !ShotOutOfOrder(shots, i)
  }

  lemma ShotPassesAll(shots: seq<Json>, sceneIds: set<string>)
    ensures (forall i :: 0 <= i < |shots| ==> ShotPasses(shots, sceneIds, i)) <==> ShotsSound(shots, sceneIds)
  {
    if forall i :: 0 <= i < |shots| ==> ShotPasses(shots, sceneIds, i) {
      forall i | 0 <= i < |shots| ensures ShotSound(shots[i], sceneIds) {
        assert ShotPasses(shots, sceneIds, i);
      }
      forall i, j | 0 <= i < j < |shots|
        ensures IdOf(shots[i], "shot_id") != IdOf(shots[j], "shot_id")
        ensures SameScene(shots[i], shots[j]) ==> NumberOf(shots[i], "shot_order") < NumberOf(shots[j], "shot_order")
      {
        assert ShotPasses(shots, sceneIds, j);
      }
    }
  }

  /** The shot validator accepts exactly the sound shot lists. */
  lemma ShotsValidIff(shots: seq<Json>, sceneIds: set<string>)
    ensures ShotsFault(shots, sceneIds) == None <==> ShotsSound(shots, sceneIds)
  {
    FirstFaultNone(ShotFaults(shots, sceneIds));
    forall i | 0 <= i < |shots| ensures ShotFaults(shots, sceneIds)[i] == None <==> ShotPasses(shots, sceneIds, i) {
      ShotCheckIff(shots[i], sceneIds, ShotIdTaken(shots, i), ShotOutOfOrder(shots, i));
    }
    ShotPassesAll(shots, sceneIds);
  }

  // ---------- shots: the loop ----------

  function Previous(orderByScene: map<string, int>, s: string): int {
    if s in orderByScene then orderByScene[s] else 0
  }

  /** orderByScene holds the largest order met in each scene. */
  ghost predicate OrdersSeen(shots: seq<Json>, i: nat, orderByScene: map<string, int>)
    requires i <= |shots|
  {
    && (forall j :: 0 <= j < i ==> NumberOf(shots[j], "shot_order") <= Previous(orderByScene, IdOf(shots[j], "scene_id")))
    && (forall s :: s in orderByScene ==> orderByScene[s] > 0 && Attained(shots, i, s, orderByScene[s]))
  }

  predicate Attained(shots: seq<Json>, i: nat, s: string, order: int)
    requires i <= |shots|
  {
    exists j :: 0 <= j < i && IdOf(shots[j], "scene_id") == s && NumberOf(shots[j], "shot_order") == order
  }

  ghost predicate ShotsPassed(shots: seq<Json>, sceneIds: set<string>, i: nat, seenIds: set<string>, orderByScene: map<string, int>)
    requires i <= |shots|
  {
    && (forall s :: s in seenIds <==> IdSeen(shots, i, "shot_id", s))
    && OrdersSeen(shots, i, orderByScene)
    && NoneBefore(ShotFaults(shots, sceneIds), i)
  }

  predicate NoneBefore(faults: seq<Option<Fault>>, i: nat)
    requires i <= |faults|
  {
    forall j :: 0 <= j < i ==> faults[j] == None
  }

  lemma SeenGrows(shots: seq<Json>, i: nat, seenIds: set<string>)
    requires i < |shots| && forall s :: s in seenIds <==> IdSeen(shots, i, "shot_id", s)
    ensures forall s :: s in seenIds + {IdOf(shots[i], "shot_id")} <==> IdSeen(shots, i + 1, "shot_id", s)
  {
  }

  lemma OrderDecided(shots: seq<Json>, i: nat, orderByScene: map<string, int>)
    requires i < |shots| && OrdersSeen(shots, i, orderByScene)
    ensures ShotOutOfOrder(shots, i)
       <==> NumberOf(shots[i], "shot_order") <= Previous(orderByScene, IdOf(shots[i], "scene_id"))
  {
  }

  lemma OrdersSeenGrows(shots: seq<Json>, i: nat, orderByScene: map<string, int>)
    requires i < |shots| && OrdersSeen(shots, i, orderByScene)
    requires NumberOf(shots[i], "shot_order") > Previous(orderByScene, IdOf(shots[i], "scene_id"))
    ensures OrdersSeen(shots, i + 1, orderByScene[IdOf(shots[i], "scene_id") := NumberOf(shots[i], "shot_order")])
  {
    var scene, order := IdOf(shots[i], "scene_id"), NumberOf(shots[i], "shot_order");
    var next := orderByScene[scene := order];
    forall s | s in next ensures next[s] > 0 && Attained(shots, i + 1, s, next[s]) {
      if s != scene { assert Attained(shots, i, s, orderByScene[s]); }
    }
  }

  lemma ShotRound(shots: seq<Json>, sceneIds: set<string>, i: nat, seenIds: set<string>, orderByScene: map<string, int>)
    requires i < |shots| && ShotsPassed(shots, sceneIds, i, seenIds, orderByScene)
    ensures ShotIdTaken(shots, i) <==> IdOf(shots[i], "shot_id") in seenIds
    ensures ShotOutOfOrder(shots, i)
       <==> NumberOf(shots[i], "shot_order") <= Previous(orderByScene, IdOf(shots[i], "scene_id"))
    ensures ShotFaults(shots, sceneIds)[i].Some? ==> ShotsFault(shots, sceneIds) == ShotFaults(shots, sceneIds)[i]
  {
    assert ShotIdTaken(shots, i) <==> IdSeen(shots, i, "shot_id", IdOf(shots[i], "shot_id"));
    OrderDecided(shots, i, orderByScene);
    if ShotFaults(shots, sceneIds)[i].Some? { FirstFaultAt(ShotFaults(shots, sceneIds), i); }
  }

  lemma ShotPassed(shots: seq<Json>, sceneIds: set<string>, i: nat, seenIds: set<string>, orderByScene: map<string, int>)
    requires i < |shots| && ShotsPassed(shots, sceneIds, i, seenIds, orderByScene) && ShotFaults(shots, sceneIds)[i] == None
    requires NumberOf(shots[i], "shot_order") > Previous(orderByScene, IdOf(shots[i], "scene_id"))
    ensures ShotsPassed(shots, sceneIds, i + 1, seenIds + {IdOf(shots[i], "shot_id")},
                        orderByScene[IdOf(shots[i], "scene_id") := NumberOf(shots[i], "shot_order")])
  {
    OrdersSeenGrows(shots, i, orderByScene);
    SeenGrows(shots, i, seenIds);
  }

  method ValidateShots(value: Json, sceneIds: set<string>) returns (fault: Option<Fault>)
    ensures fault == if value.Arr? then ShotsFault(value.items, sceneIds) else Some(BadSchema)
  {
    if !value.Arr? {
      return Some(BadSchema);
    }
    var shots := value.items;
    var seenIds: set<string> := {};
    var orderByScene: map<string, int> := map[];
    for i := 0 to |shots|
      invariant ShotsPassed(shots, sceneIds, i, seenIds, orderByScene)
    {
      ShotRound(shots, sceneIds, i, seenIds, orderByScene);
      var scene, order := IdOf(shots[i], "scene_id"), NumberOf(shots[i], "shot_order");
      fault := CheckShot(shots[i], sceneIds, IdOf(shots[i], "shot_id") in seenIds, order <= Previous(orderByScene, scene));
      if fault.Some? {
        return;
      }
      ShotCheckOrder(shots[i], sceneIds, IdOf(shots[i], "shot_id") in seenIds, order <= Previous(orderByScene, scene));
      ShotPassed(shots, sceneIds, i, seenIds, orderByScene);
      seenIds := seenIds + {IdOf(shots[i], "shot_id")};
      orderByScene := orderByScene[scene := order];
    }
    FirstFaultNone(ShotFaults(shots, sceneIds));
    return None;
  }

  lemma ShotCheckOrder(v: Json, sceneIds: set<string>, taken: bool, outOfOrder: bool)
    requires ShotCheck(v, sceneIds, taken, outOfOrder) == None
    ensures !taken && !outOfOrder
  {
  }

  method CheckShot(v: Json, sceneIds: set<string>, taken: bool, outOfOrder: bool) returns (fault: Option<Fault>)
    ensures fault == ShotCheck(v, sceneIds, taken, outOfOrder)
  {
    if !HasKeys(v, SHOT) || !Conforms(At(v, "scene_id"), Text) {
      return Some(BadSchema);
    }
    if IdOf(v, "scene_id") !in sceneIds {
      return Some(BadMapping);
    }
    if !Conforms(At(v, "shot_id"), Text) {
      return Some(BadSchema);
    }
    if !ShotIdMatches(v) || taken {
      return Some(BadId);
    }
    if !Conforms(At(v, "shot_order"), Integer) {
      return Some(BadSchema);
    }
    if outOfOrder {
      return Some(BadOrder);
    }
    if !Conforms(At(v, "source_scene_reference"), Text) || !Conforms(At(v, "duration_seconds"), Integer) {
      return Some(BadSchema);
    }
    if !InRange(v) {
      return Some(BadDuration);
    }
    if !CameraConforms(v) {
      return Some(BadSchema);
    }
    fault := ValidateCharacterActions(At(v, "character_actions"));
    if fault.None? && !ConformsRecord(v, SHOT) {
      fault := Some(BadSchema);
    }
  }
}

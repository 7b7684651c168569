/** Rendering order of a canonical storyboard: shots are grouped by scene and written under their
    scene (ai_drama_runtime/storyboard_renderer.py). */
module StoryboardRenderer {
  import opened Wrappers
  import opened JsonText
  import opened JsonSchema
  import opened Storyboard
  import opened StoryboardShots
  import opened StoryboardValidation

  /** A scene heading and the shots written below it. */
  datatype Section = Section(scene: Json, shots: seq<Json>)

  function SceneOf(v: Json): string {
    IdOf(v, "scene_id")
  }

  /** The shots of one scene, in input order. */
  function ShotsOf(shots: seq<Json>, id: string): seq<Json> {
    if shots == [] then []
    else
      var last := shots[|shots| - 1];
      ShotsOf(shots[..|shots| - 1], id) + if SceneOf(last) == id then [last] else []
  }

  function Sections(scenes: seq<Json>, shots: seq<Json>): seq<Section> {
    seq(|scenes|, i requires 0 <= i < |scenes| => Section(scenes[i], ShotsOf(shots, SceneOf(scenes[i]))))
  }

  /** shots_by_scene.setdefault(id, []).append(shot), shot by shot. */
  method GroupShots(shots: seq<Json>) returns (groups: map<string, seq<Json>>)
    ensures forall id :: ShotsOf(shots, id) == if id in groups then groups[id] else []
  {
    groups := map[];
    for i := 0 to |shots|
      invariant forall id :: ShotsOf(shots[..i], id) == if id in groups then groups[id] else []
    {
      assert shots[..i + 1][..i] == shots[..i];
      var id := SceneOf(shots[i]);
      if id !in groups {
        groups := groups[id := []];
      }
      groups := groups[id := groups[id] + [shots[i]]];
    }
    assert shots[..|shots|] == shots;
  }

  method RenderStoryboard(v: Json) returns (r: Result<seq<Section>, Fault>)
    ensures match StoryboardFault(v)
            case Some(f) => r == Err(f)
            case None => r == Ok(Sections(At(v, "scenes").items, At(v, "shots").items))
  {
    var fault := ValidateStoryboardCanonical(v);
    if fault.Some? {
      return Err(fault.value);
    }
    var sections := WriteSections(At(v, "scenes").items, At(v, "shots").items);
    return Ok(sections);
  }

  method WriteSections(scenes: seq<Json>, shots: seq<Json>) returns (sections: seq<Section>)
    ensures sections == Sections(scenes, shots)
  {
    var groups := GroupShots(shots);
    sections := [];
    for i := 0 to |scenes|
      invariant sections == Sections(scenes, shots)[..i]
    {
      var id := SceneOf(scenes[i]);
      assert Sections(scenes, shots)[..i + 1] == Sections(scenes, shots)[..i] + [Sections(scenes, shots)[i]];
      sections := sections + [Section(scenes[i], if id in groups then groups[id] else [])];
    }
  }

  // ---------- the written shots ----------

  /** The shots of the first n sections, in the order they are written. */
  function Written(scenes: seq<Json>, shots: seq<Json>, n: nat): seq<Json>
    requires n <= |scenes|
  {
    if n == 0 then [] else Written(scenes, shots, n - 1) + ShotsOf(shots, SceneOf(scenes[n - 1]))
  }

  lemma {:induction false} ShotsOfBelong(shots: seq<Json>, id: string)
    ensures forall k :: 0 <= k < |ShotsOf(shots, id)| ==> SceneOf(ShotsOf(shots, id)[k]) == id && ShotsOf(shots, id)[k] in shots
  {
    if shots != [] {
      var front := shots[..|shots| - 1];
      ShotsOfBelong(front, id);
      assert forall s :: s in front ==> s in shots;
    }
  }

  /** How often v occurs is how often it occurs in the list of its own scene. */
  lemma {:induction false} ShotsOfCounts(shots: seq<Json>, id: string, v: Json)
    ensures multiset(ShotsOf(shots, id))[v] == if SceneOf(v) == id then multiset(shots)[v] else 0
  {
    if shots != [] {
      var front, last := shots[..|shots| - 1], shots[|shots| - 1];
      ShotsOfCounts(front, id, v);
      assert shots == front + [last];
      assert multiset(shots) == multiset(front) + multiset{last};
    }
  }

  predicate HasScene(scenes: seq<Json>, n: nat, id: string)
    requires n <= |scenes|
  {
    exists i :: 0 <= i < n && SceneOf(scenes[i]) == id
  }

  predicate DistinctScenes(scenes: seq<Json>) {
    forall i, j :: 0 <= i < j < |scenes| ==> SceneOf(scenes[i]) != SceneOf(scenes[j])
  }

  lemma HasSceneSplit(scenes: seq<Json>, n: nat, id: string)
    requires 0 < n <= |scenes| && DistinctScenes(scenes)
    ensures HasScene(scenes, n, id) <==> HasScene(scenes, n - 1, id) || SceneOf(scenes[n - 1]) == id
    ensures !(HasScene(scenes, n - 1, id) && SceneOf(scenes[n - 1]) == id)
  {
  }

  lemma {:induction false} WrittenCounts(scenes: seq<Json>, shots: seq<Json>, n: nat, v: Json)
    requires n <= |scenes| && DistinctScenes(scenes)
    ensures multiset(Written(scenes, shots, n))[v] == if HasScene(scenes, n, SceneOf(v)) then multiset(shots)[v] else 0
  {
    if n > 0 {
      WrittenCounts(scenes, shots, n - 1, v);
      ShotsOfCounts(shots, SceneOf(scenes[n - 1]), v);
      HasSceneSplit(scenes, n, SceneOf(v));
    }
  }

  /** scene_order of the scene with the given id. */
  function SceneOrder(scenes: seq<Json>, id: string): int {
    if scenes == [] then 0
    else if SceneOf(scenes[0]) == id then NumberOf(scenes[0], "scene_order")
    else SceneOrder(scenes[1..], id)
  }

  lemma {:induction false} SceneOrderAt(scenes: seq<Json>, i: nat)
    requires i < |scenes| && DistinctScenes(scenes)
    ensures SceneOrder(scenes, SceneOf(scenes[i])) == NumberOf(scenes[i], "scene_order")
  {
    if i > 0 { SceneOrderAt(scenes[1..], i - 1); }
  }

  /** Strictly before in (scene_order, shot_order). */
  predicate Precedes(scenes: seq<Json>, v: Json, w: Json) {
    var a, b := SceneOrder(scenes, SceneOf(v)), SceneOrder(scenes, SceneOf(w));
    a < b || (a == b && NumberOf(v, "shot_order") < NumberOf(w, "shot_order"))
  }

  ghost predicate Ordered(scenes: seq<Json>, out: seq<Json>) {
    forall i, j :: 0 <= i < j < |out| ==> Precedes(scenes, out[i], out[j])
  }

  predicate RisesInScene(shots: seq<Json>) {
    forall i, j :: 0 <= i < j < |shots| && SameScene(shots[i], shots[j])
      ==> NumberOf(shots[i], "shot_order") < NumberOf(shots[j], "shot_order")
  }

  lemma {:induction false} ShotsOfOrdered(scenes: seq<Json>, shots: seq<Json>, id: string)
    requires RisesInScene(shots)
    ensures Ordered(scenes, ShotsOf(shots, id))
  {
    if shots != [] {
      var front, last := shots[..|shots| - 1], shots[|shots| - 1];
      ShotsOfOrdered(scenes, front, id);
      ShotsOfBelong(front, id);
      forall k | 0 <= k < |ShotsOf(front, id)| && SceneOf(last) == id ensures Precedes(scenes, ShotsOf(front, id)[k], last) {
        var i :| 0 <= i < |front| && front[i] == ShotsOf(front, id)[k];
        assert SameScene(shots[i], last);
      }
    }
  }

  lemma {:induction false} WrittenBelong(scenes: seq<Json>, shots: seq<Json>, n: nat, k: nat)
    requires n <= |scenes| && k < |Written(scenes, shots, n)|
    ensures HasScene(scenes, n, SceneOf(Written(scenes, shots, n)[k]))
  {
    var before := Written(scenes, shots, n - 1);
    if k < |before| {
      WrittenBelong(scenes, shots, n - 1, k);
    } else {
      ShotsOfBelong(shots, SceneOf(scenes[n - 1]));
    }
  }

  lemma {:induction false} WrittenOrdered(scenes: seq<Json>, shots: seq<Json>, n: nat)
    requires n <= |scenes| && ScenesSound(scenes) && RisesInScene(shots)
    ensures Ordered(scenes, Written(scenes, shots, n))
  {
    if n > 0 {
      var before, own := Written(scenes, shots, n - 1), ShotsOf(shots, SceneOf(scenes[n - 1]));
      WrittenOrdered(scenes, shots, n - 1);
      ShotsOfOrdered(scenes, shots, SceneOf(scenes[n - 1]));
      ShotsOfBelong(shots, SceneOf(scenes[n - 1]));
      SceneOrderAt(scenes, n - 1);
      forall j, k | 0 <= j < |before| && 0 <= k < |own| ensures Precedes(scenes, before[j], own[k]) {
        WrittenBelong(scenes, shots, n - 1, j);
        var i :| 0 <= i < n - 1 && SceneOf(scenes[i]) == SceneOf(before[j]);
        SceneOrderAt(scenes, i);
      }
    }
  }

  lemma EachShotHasScene(scenes: seq<Json>, shots: seq<Json>, v: Json)
    requires ShotsSound(shots, SceneIds(scenes)) && v in shots
    ensures HasScene(scenes, |scenes|, SceneOf(v))
  {
  }

  lemma WrittenIsPermutation(scenes: seq<Json>, shots: seq<Json>)
    requires ScenesSound(scenes) && ShotsSound(shots, SceneIds(scenes))
    ensures multiset(Written(scenes, shots, |scenes|)) == multiset(shots)
  {
    forall v ensures multiset(Written(scenes, shots, |scenes|))[v] == multiset(shots)[v] {
      WrittenCounts(scenes, shots, |scenes|, v);
      if v in shots { EachShotHasScene(scenes, shots, v); }
    }
  }

  /** The shots written, section after section. */
  function ShotsWritten(sections: seq<Section>): seq<Json> {
    if sections == [] then [] else ShotsWritten(sections[..|sections| - 1]) + sections[|sections| - 1].shots
  }

  lemma {:induction false} SectionsWrite(scenes: seq<Json>, shots: seq<Json>, n: nat)
    requires n <= |scenes|
    ensures ShotsWritten(Sections(scenes, shots)[..n]) == Written(scenes, shots, n)
  {
    if n > 0 {
      SectionsWrite(scenes, shots, n - 1);
      assert Sections(scenes, shots)[..n][..n - 1] == Sections(scenes, shots)[..n - 1];
    }
  }

  ghost predicate UnderOwnScene(s: Section) {
    forall k :: 0 <= k < |s.shots| ==> SceneOf(s.shots[k]) == SceneOf(s.scene)
  }

  /** For every accepted storyboard the rendered shots are the input shots, each once, each below the
      heading of its own scene, strictly ordered by scene and shot order; the headings are the scenes. */
  lemma RenderingIsSortedPermutation(v: Json)
    requires StoryboardFault(v) == None
    ensures At(v, "scenes").Arr? && At(v, "shots").Arr?
    ensures var scenes, shots := At(v, "scenes").items, At(v, "shots").items;
            var sections := Sections(scenes, shots);
            && multiset(ShotsWritten(sections)) == multiset(shots) && Ordered(scenes, ShotsWritten(sections))
            && |sections| == |scenes|
            && forall i :: 0 <= i < |sections| ==> sections[i].scene == scenes[i] && UnderOwnScene(sections[i])
  {
    StoryboardValidIff(v);
    var scenes, shots := At(v, "scenes").items, At(v, "shots").items;
    var sections := Sections(scenes, shots);
    SectionsWrite(scenes, shots, |scenes|);
    assert sections[..|scenes|] == sections;
    WrittenIsPermutation(scenes, shots);
    WrittenOrdered(scenes, shots, |scenes|);
    forall i | 0 <= i < |scenes| ensures UnderOwnScene(sections[i]) {
      ShotsOfBelong(shots, SceneOf(scenes[i]));
    }
  }
}

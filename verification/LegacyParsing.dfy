/** What the legacy parser guarantees whenever it returns: numbered scenes, numbered shots under existing
    scenes, and shot orders that count 1, 2, 3, ... within each scene
    (ai_drama_runtime/storyboard_migration.py). */
module LegacyParsing {
  import opened Wrappers
  import opened StoryboardMigration

  function CountScenes(lines: seq<Line>): nat {
    if lines == [] then 0
    else CountScenes(lines[..|lines| - 1]) + if lines[|lines| - 1].SceneHeading? then 1 else 0
  }

  function CountShots(lines: seq<Line>): nat {
    if lines == [] then 0
    else CountShots(lines[..|lines| - 1]) + if lines[|lines| - 1].ShotHeading? then 1 else 0
  }

  /** How many of the shots belong to a scene. */
  function CountIn(shots: seq<Shot>, sceneId: string): nat {
    if shots == [] then 0
    else CountIn(shots[..|shots| - 1], sceneId) + if shots[|shots| - 1].sceneId == sceneId then 1 else 0
  }

  predicate KnownScene(n: nat, id: string) {
    exists i: nat :: 1 <= i <= n && id == SceneId(i)
  }

  ghost predicate ScenesNumbered(scenes: seq<Scene>) {
    forall i :: 0 <= i < |scenes| ==>
      scenes[i].id == SceneId(i + 1) && scenes[i].order == i + 1 && scenes[i].reference != ""
  }

  predicate FilledText(o: Option<string>) {
    o.Some? ==> o.value != ""
  }

  /** Every text the parser copies into a shot is non-empty. */
  predicate Filled(d: Shot) {
    && d.reference != "" && d.size != "" && d.angle != "" && d.framing != ""
    && FilledText(d.movement) && FilledText(d.pose) && FilledText(d.action) && FilledText(d.emotion)
    && FilledText(d.dialogue) && FilledText(d.sound) && FilledText(d.continuityIn) && FilledText(d.continuityOut)
  }

  /** Shot k is number k + 1, belongs to a scene, and counts the shots of that scene up to itself. */
  ghost predicate ShotNumbered(shots: seq<Shot>, k: nat, n: nat)
    requires k < |shots|
  {
    && shots[k].shotId == ShotId(k + 1) && KnownScene(n, shots[k].sceneId)
    && shots[k].order == CountIn(shots[..k + 1], shots[k].sceneId)
    && Filled(shots[k])
  }

  ghost predicate ShotsNumbered(shots: seq<Shot>, n: nat) {
    forall k :: 0 <= k < |shots| ==> ShotNumbered(shots, k, n)
  }

  function OrderIn(orderByScene: map<string, int>, id: string): int {
    if id in orderByScene then orderByScene[id] else 0
  }

  ghost predicate Counted(orderByScene: map<string, int>, shots: seq<Shot>) {
    forall id :: OrderIn(orderByScene, id) == CountIn(shots, id)
  }

  ghost predicate ReferencesKnown(p: Parser) {
    forall r :: r in p.sceneIdByRef ==> KnownScene(|p.scenes|, p.sceneIdByRef[r])
  }

  ghost predicate ParserSound(p: Parser) {
    && ScenesNumbered(p.scenes) && ReferencesKnown(p)
    && ShotsNumbered(AllShots(p), |p.scenes|) && Counted(p.orderByScene, AllShots(p))
  }

  lemma KnownSceneGrows(n: nat, id: string)
    ensures KnownScene(n, id) ==> KnownScene(n + 1, id)
    ensures KnownScene(n + 1, SceneId(n + 1))
  {
  }

  lemma MoreScenesKeepShots(shots: seq<Shot>, n: nat)
    requires ShotsNumbered(shots, n)
    ensures ShotsNumbered(shots, n + 1)
  {
    var m := n + 1;
    forall k | 0 <= k < |shots| ensures ShotNumbered(shots, k, m) {
      assert ShotNumbered(shots, k, n);
      KnownSceneGrows(n, shots[k].sceneId);
    }
  }

  lemma EnteredKeepsReferences(p: Parser, reference: Reference)
    requires ReferencesKnown(p)
    ensures ReferencesKnown(Entered(p, reference))
  {
    var q, n := Entered(p, reference), |p.scenes|;
    forall r | r in q.sceneIdByRef ensures KnownScene(n + 1, q.sceneIdByRef[r]) {
      KnownSceneGrows(n, q.sceneIdByRef[r]);
    }
  }

  lemma EnteredKeepsSound(p: Parser, reference: Reference)
    requires ParserSound(p)
    ensures ParserSound(Entered(p, reference))
  {
    EnteredKeepsReferences(p, reference);
    MoreScenesKeepShots(AllShots(p), |p.scenes|);
    assert AllShots(Entered(p, reference)) == AllShots(p);
  }

  lemma FinishKeepsSound(p: Parser)
    requires ParserSound(p) && Finish(p).Ok?
    ensures ParserSound(Finish(p).value) && AllShots(Finish(p).value) == AllShots(p)
  {
  }

  lemma PrefixNumbered(shots: seq<Shot>, d: Shot, n: nat, k: nat)
    requires k < |shots| && ShotNumbered(shots, k, n)
    ensures ShotNumbered(shots + [d], k, n)
  {
    assert (shots + [d])[..k + 1] == shots[..k + 1];
  }

  lemma LastNumbered(shots: seq<Shot>, d: Shot, n: nat)
    requires d.shotId == ShotId(|shots| + 1) && KnownScene(n, d.sceneId) && Filled(d)
    requires d.order == CountIn(shots, d.sceneId) + 1
    ensures ShotNumbered(shots + [d], |shots|, n)
  {
    CountInAppend(shots, d, d.sceneId);
    assert (shots + [d])[|shots|] == d;
    assert (shots + [d])[..|shots| + 1] == shots + [d];
  }

  /** Adding a shot at the end keeps the numbering of the others. */
  lemma AppendKeepsNumbers(shots: seq<Shot>, d: Shot, n: nat)
    requires ShotsNumbered(shots, n) && ShotNumbered(shots + [d], |shots|, n)
    ensures ShotsNumbered(shots + [d], n)
  {
    var all := shots + [d];
    forall k | 0 <= k < |all| ensures ShotNumbered(all, k, n) {
      if k < |shots| { PrefixNumbered(shots, d, n, k); }
    }
  }

  lemma CountInAppend(shots: seq<Shot>, d: Shot, id: string)
    ensures CountIn(shots + [d], id) == CountIn(shots, id) + if d.sceneId == id then 1 else 0
  {
  }

  lemma OpenedKeepsSound(p: Parser)
    requires ParserSound(p) && p.reference in p.sceneIdByRef && p.reference != "" && p.current.None?
    ensures ParserSound(Opened(p))
  {
    var q := Opened(p);
    var d := q.current.value;
    LastNumbered(p.shots, d, |p.scenes|);
    AppendKeepsNumbers(p.shots, d, |p.scenes|);
    forall id ensures OrderIn(q.orderByScene, id) == CountIn(AllShots(q), id) {
      CountInAppend(p.shots, d, id);
    }
  }

  predicate SameNumbers(d: Shot, e: Shot) {
    e.shotId == d.shotId && e.sceneId == d.sceneId && e.order == d.order
  }

  lemma WithFieldKeeps(d: Shot, key: FieldName, value: string, toInt: ToInt)
    requires Filled(d) && WithField(d, key, value, toInt).Ok?
    ensures var e := WithField(d, key, value, toInt).value; Filled(e) && SameNumbers(d, e)
  {
  }

  /** Counts and numbers look only at what a field line leaves alone. */
  lemma {:induction false} CountInAgrees(a: seq<Shot>, b: seq<Shot>, id: string)
    requires |a| == |b| && forall k :: 0 <= k < |a| ==> a[k].sceneId == b[k].sceneId
    ensures CountIn(a, id) == CountIn(b, id)
  {
    if a != [] { CountInAgrees(a[..|a| - 1], b[..|b| - 1], id); }
  }

  lemma RewriteKeepsNumbers(a: seq<Shot>, b: seq<Shot>, n: nat)
    requires ShotsNumbered(a, n) && |a| == |b|
    requires forall k :: 0 <= k < |a| ==> SameNumbers(a[k], b[k]) && Filled(b[k])
    ensures ShotsNumbered(b, n)
  {
    forall k | 0 <= k < |b| ensures ShotNumbered(b, k, n) {
      assert ShotNumbered(a, k, n);
      CountInAgrees(a[..k + 1], b[..k + 1], b[k].sceneId);
    }
  }

  lemma FieldKeepsSound(p: Parser, key: FieldName, value: string, toInt: ToInt)
    requires ParserSound(p) && Linked(p) && p.current.Some? && WithField(p.current.value, key, value, toInt).Ok?
    ensures ParserSound(Step(p, FieldLine(key, value), toInt).value)
  {
    var q := Step(p, FieldLine(key, value), toInt).value;
    var a, b := AllShots(p), AllShots(q);
    assert ShotNumbered(a, |a| - 1, |p.scenes|);
    WithFieldKeeps(p.current.value, key, value, toInt);
    forall k | 0 <= k < |a| ensures SameNumbers(a[k], b[k]) && Filled(b[k]) {
      assert ShotNumbered(a, k, |p.scenes|);
    }
    RewriteKeepsNumbers(a, b, |p.scenes|);
    forall id ensures OrderIn(q.orderByScene, id) == CountIn(b, id) {
      CountInAgrees(a, b, id);
    }
  }

  lemma StepKeepsSound(p: Parser, line: Line, toInt: ToInt)
    requires ParserSound(p) && Linked(p) && Step(p, line, toInt).Ok?
    ensures ParserSound(Step(p, line, toInt).value)
  {
    match line
    case SceneHeading(reference) => EnteredKeepsSound(p, reference);
    case ShotHeading =>
      FinishKeepsSound(p);
      OpenedKeepsSound(Finish(p).value);
    case FieldLine(key, value) => if p.current.Some? { FieldKeepsSound(p, key, value, toInt); }
    case Other =>
  }

  lemma StepCounts(p: Parser, line: Line, toInt: ToInt)
    requires Linked(p) && Step(p, line, toInt).Ok?
    ensures var q := Step(p, line, toInt).value;
            && |q.scenes| == |p.scenes| + (if line.SceneHeading? then 1 else 0)
            && |AllShots(q)| == |AllShots(p)| + (if line.ShotHeading? then 1 else 0)
  {
  }

  lemma {:induction false} ScanKeepsSound(lines: seq<Line>, toInt: ToInt)
    requires Scan(lines, toInt).Ok?
    ensures var p := Scan(lines, toInt).value;
            ParserSound(p) && |p.scenes| == CountScenes(lines) && |AllShots(p)| == CountShots(lines)
    decreases |lines|
  {
    if lines != [] {
      var front := lines[..|lines| - 1];
      ScanKeepsSound(front, toInt);
      StepKeepsSound(Scan(front, toInt).value, lines[|lines| - 1], toInt);
      StepCounts(Scan(front, toInt).value, lines[|lines| - 1], toInt);
    }
  }

  /** Whenever the parser returns there is one scene per scene heading and one shot per shot heading, both
      numbered in order, every shot sits under an existing scene, and its order counts the shots of that
      scene up to itself. */
  lemma ParsedIsNumbered(lines: seq<Line>, toInt: ToInt)
    requires ParseLegacy(lines, toInt).Ok?
    ensures var (scenes, shots) := ParseLegacy(lines, toInt).value;
            && |scenes| == CountScenes(lines) && |shots| == CountShots(lines) && scenes != [] && shots != []
            && ScenesNumbered(scenes) && ShotsNumbered(shots, |scenes|)
  {
    ScanKeepsSound(lines, toInt);
    FinishKeepsSound(Scan(lines, toInt).value);
  }

  lemma {:induction false} CountInGrows(shots: seq<Shot>, i: nat, j: nat, id: string)
    requires i < j < |shots| && shots[j].sceneId == id
    ensures CountIn(shots[..i + 1], id) < CountIn(shots[..j + 1], id)
    decreases j
  {
    assert shots[..j + 1][..j] == shots[..j];
    CountInMonotone(shots, i + 1, j, id);
  }

  lemma {:induction false} CountInMonotone(shots: seq<Shot>, i: nat, j: nat, id: string)
    requires i <= j <= |shots|
    ensures CountIn(shots[..i], id) <= CountIn(shots[..j], id)
    decreases j
  {
    if i < j {
      CountInMonotone(shots, i, j - 1, id);
      assert shots[..j][..j - 1] == shots[..j - 1];
    }
  }

  /** So ids never repeat, and orders rise strictly within a scene from 1. */
  lemma NumberedShotsRise(shots: seq<Shot>, n: nat, i: nat, j: nat)
    requires ShotsNumbered(shots, n) && i < j < |shots|
    ensures shots[i].shotId != shots[j].shotId
    ensures shots[i].sceneId == shots[j].sceneId ==> shots[i].order < shots[j].order
  {
    assert ShotNumbered(shots, i, n) && ShotNumbered(shots, j, n);
    PaddedDistinct(i + 1, j + 1);
    CountInGrows(shots, i, j, shots[j].sceneId);
  }

  lemma NumberedShotPositive(shots: seq<Shot>, n: nat, i: nat)
    requires ShotsNumbered(shots, n) && i < |shots|
    ensures shots[i].order >= 1
  {
    assert ShotNumbered(shots, i, n);
    assert shots[..i + 1][i] == shots[i];
  }
}

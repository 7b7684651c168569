/** Migration of a legacy Markdown storyboard: the line-driven parser
    (ai_drama_runtime/storyboard_migration.py).  Lines arrive classified: which pattern a stripped line
    matches, and its groups. */
module StoryboardMigration {
  import opened Wrappers
  import opened JsonText
  import opened JsonRoundTrip

  /** A scene heading's reference is never empty: its pattern ends in one or more characters of a
      stripped line. */
  type Reference = s: string | s != "" witness "1"

  /** The field names the parser knows; any other name is ignored. */
  datatype FieldName =
    | SourceSceneReference | DurationSeconds | ShotSize | CameraAngle | CameraMovement | VisualComposition
    | CharacterPositions | CharacterActions | EmotionPerformance | Dialogue | SoundNotes | ContinuityIn | ContinuityOut
    | UnknownField

  datatype Line =
    | SceneHeading(reference: Reference)
    | ShotHeading
    | FieldLine(key: FieldName, value: string)
    | Other

  datatype Scene = Scene(id: string, order: int, reference: string)

  datatype Shot = Shot(
    sceneId: string, shotId: string, order: int, reference: string, duration: int, size: string, angle: string,
    movement: Option<string>, framing: string, pose: Option<string>, action: Option<string>, emotion: Option<string>,
    dialogue: Option<string>, sound: Option<string>, continuityIn: Option<string>, continuityOut: Option<string>)

  datatype MigrationError = ShotBeforeScene | MissingFields | InvalidDuration | LacksScenesOrShots

  /** int(): None when it raises ValueError. */
  type ToInt = string -> Option<int>

  // ---------- identifiers ----------

  /** "%03d" */
  function Padded(n: nat): string {
    var d := Digits(n);
    if |d| == 1 then "00" + d else if |d| == 2 then "0" + d else d
  }

  function SceneId(n: nat): string {
    "SCENE_" + Padded(n)
  }

  function ShotId(n: nat): string {
    "SHOT_" + Padded(n)
  }

  predicate AllDigits(s: string) {
    forall i :: 0 <= i < |s| ==> IsDigit(s[i])
  }

  lemma {:induction false} LeadingZero(ds: string)
    requires AllDigits(ds)
    ensures AllDigits("0" + ds) && DecimalValue("0" + ds) == DecimalValue(ds)
    decreases |ds|
  {
    assert IsDigit('0');
    assert forall i :: 0 < i < |"0" + ds| ==> ("0" + ds)[i] == ds[i - 1];
    if ds != [] {
      var front := ds[..|ds| - 1];
      LeadingZero(front);
      assert ("0" + ds)[..|ds|] == "0" + front;
    }
  }

  lemma PaddedValue(n: nat)
    ensures Padded(n) != "" && AllDigits(Padded(n)) && DecimalValue(Padded(n)) == n
  {
    var d := Digits(n);
    DigitsShape(n);
    LeadingZero(d);
    LeadingZero("0" + d);
    assert "0" + ("0" + d) == "00" + d;
  }

  lemma PaddedDistinct(m: nat, n: nat)
    requires m != n
    ensures Padded(m) != Padded(n) && SceneId(m) != SceneId(n) && ShotId(m) != ShotId(n)
  {
    PaddedValue(m);
    PaddedValue(n);
    assert SceneId(m)[6..] == Padded(m) && SceneId(n)[6..] == Padded(n);
    assert ShotId(m)[5..] == Padded(m) && ShotId(n)[5..] == Padded(n);
  }

  // ---------- the parser ----------

  const REQUIRED: set<FieldName> := {
    SourceSceneReference, DurationSeconds, ShotSize, CameraAngle, CameraMovement, VisualComposition, CharacterPositions,
    CharacterActions, EmotionPerformance, Dialogue, SoundNotes, ContinuityIn, ContinuityOut}

  function NewShot(sceneId: string, shotId: string, order: int, reference: string): Shot {
    Shot(sceneId, shotId, order, reference, 8, "medium", "eye_level", None, "migrated legacy framing",
         None, None, None, None, None, None, None)
  }

  function Movement(value: string): Option<string> {
    if value == "" || value == "null" || value == "still" then None else Some(value)
  }

  /** One field line of a shot: an empty value changes nothing, except for movement and duration. */
  function WithField(d: Shot, key: FieldName, value: string, toInt: ToInt): Result<Shot, MigrationError> {
    if key == DurationSeconds then
      match toInt(value)
      case Some(n) => Ok(d.(duration := n))
      case None => Err(InvalidDuration)
    else if key == CameraMovement then Ok(d.(movement := Movement(value)))
    else if value == "" then Ok(d)
    else
      Ok(match key
         case SourceSceneReference => d.(reference := value)
         case ShotSize => d.(size := value)
         case CameraAngle => d.(angle := value)
         case VisualComposition => d.(framing := value)
         case CharacterPositions => d.(pose := Some(value))
         case CharacterActions => d.(action := Some(value))
         case EmotionPerformance => d.(emotion := Some(value))
         case Dialogue => d.(dialogue := Some(value))
         case SoundNotes => d.(sound := Some(value))
         case ContinuityIn => d.(continuityIn := Some(value))
         case ContinuityOut => d.(continuityOut := Some(value))
         case _ => d)
  }

  /** The parser's local variables. */
  datatype Parser = Parser(
    reference: string,
    sceneIdByRef: map<string, string>,
    orderByScene: map<string, int>,
    scenes: seq<Scene>,
    shots: seq<Shot>,
    current: Option<Shot>,
    fields: set<FieldName>)

  const START := Parser("", map[], map[], [], [], None, {})

  /** The shots so far, the current one last. */
  function AllShots(p: Parser): seq<Shot> {
    match p.current
    case None => p.shots
    case Some(d) => p.shots + [d]
  }

  function Finish(p: Parser): Result<Parser, MigrationError> {
    if p.current.None? then Ok(p)
    else if !(REQUIRED <= p.fields) then Err(MissingFields)
    else Ok(p.(shots := p.shots + [p.current.value], current := None))
  }

  predicate Linked(p: Parser) {
    p.reference != "" ==> p.reference in p.sceneIdByRef
  }

  function Entered(p: Parser, reference: string): Parser {
    var id := SceneId(|p.scenes| + 1);
    p.(reference := reference, sceneIdByRef := p.sceneIdByRef[reference := id],
       scenes := p.scenes + [Scene(id, |p.scenes| + 1, reference)])
  }

  function Opened(p: Parser): Parser
    requires p.reference in p.sceneIdByRef && p.current.None?
  {
    var id := p.sceneIdByRef[p.reference];
    var order := (if id in p.orderByScene then p.orderByScene[id] else 0) + 1;
    p.(orderByScene := p.orderByScene[id := order], fields := {},
       current := Some(NewShot(id, ShotId(|p.shots| + 1), order, p.reference)))
  }

  function WithShot(p: Parser): Result<Parser, MigrationError>
    requires Linked(p)
  {
    if p.reference == "" then Err(ShotBeforeScene)
    else
      match Finish(p)
      case Err(e) => Err(e)
      case Ok(q) => Ok(Opened(q))
  }

  function Step(p: Parser, line: Line, toInt: ToInt): (r: Result<Parser, MigrationError>)
    requires Linked(p)
    ensures r.Ok? ==> Linked(r.value)
  {
    match line
    case SceneHeading(reference) => Ok(Entered(p, reference))
    case ShotHeading => WithShot(p)
    case FieldLine(key, value) =>
      if p.current.None? then Ok(p)
      else
        (match WithField(p.current.value, key, value, toInt)
         case Err(e) => Err(e)
         case Ok(d) => Ok(p.(current := Some(d), fields := if key in REQUIRED then p.fields + {key} else p.fields)))
    case Other => Ok(p)
  }

  function Scan(lines: seq<Line>, toInt: ToInt): (r: Result<Parser, MigrationError>)
    ensures r.Ok? ==> Linked(r.value)
  {
    if lines == [] then Ok(START)
    else
      match Scan(lines[..|lines| - 1], toInt)
      case Err(e) => Err(e)
      case Ok(p) => Step(p, lines[|lines| - 1], toInt)
  }

  function ParseLegacy(lines: seq<Line>, toInt: ToInt): Result<(seq<Scene>, seq<Shot>), MigrationError> {
    match Scan(lines, toInt)
    case Err(e) => Err(e)
    case Ok(p) =>
      match Finish(p)
      case Err(e) => Err(e)
      case Ok(q) => if q.scenes == [] || q.shots == [] then Err(LacksScenesOrShots) else Ok((q.scenes, q.shots))
  }

  lemma {:induction false} ScanFails(lines: seq<Line>, toInt: ToInt, n: nat)
    requires n <= |lines| && Scan(lines[..n], toInt).Err?
    ensures Scan(lines, toInt) == Scan(lines[..n], toInt)
    decreases |lines|
  {
    if n < |lines| {
      assert lines[..|lines| - 1][..n] == lines[..n];
      ScanFails(lines[..|lines| - 1], toInt, n);
    } else {
      assert lines[..n] == lines;
    }
  }

  /** The local variables of the parser, which its nested function and its line loop update. */
  class LineReader {
    var currentReference: string
    var sceneIdByRef: map<string, string>
    var orderByScene: map<string, int>
    var scenes: seq<Scene>
    var shots: seq<Shot>
    var current: Option<Shot>
    var currentFields: set<FieldName>
    var sceneOrder: nat
    var shotIndex: nat

    constructor ()
      ensures Valid() && Contents() == START
    {
      currentReference, sceneOrder, shotIndex := "", 0, 0;
      sceneIdByRef, orderByScene, scenes, shots := map[], map[], [], [];
      current, currentFields := None, {};
    }

    predicate Valid()
      reads this
    {
      && sceneOrder == |scenes| && shotIndex == |shots| + (if current.Some? then 1 else 0)
      && Linked(Contents())
    }

    function Contents(): Parser
      reads this
    {
      Parser(currentReference, sceneIdByRef, orderByScene, scenes, shots, current, currentFields)
    }

    method EnterScene(reference: Reference)
      requires Valid()
      modifies this
      ensures Valid() && Contents() == Entered(old(Contents()), reference)
    {
      sceneOrder := sceneOrder + 1;
      currentReference := reference;
      sceneIdByRef := sceneIdByRef[currentReference := SceneId(sceneOrder)];
      scenes := scenes + [Scene(SceneId(sceneOrder), sceneOrder, currentReference)];
    }

    /** Appends the current shot once all required fields have been met; `current` itself is replaced later. */
    method FinishCurrent() returns (raised: Option<MigrationError>)
      modifies this`shots
      ensures match Finish(old(Contents()))
              case Ok(q) => raised == None && shots == q.shots
              case Err(e) => raised == Some(e) && shots == old(shots)
    {
      if current.None? {
        return None;
      }
      if !(REQUIRED <= currentFields) {
        return Some(MissingFields);
      }
      shots := shots + [current.value];
      return None;
    }

    method OpenShot() returns (raised: Option<MigrationError>)
      requires Valid()
      modifies this
      ensures match WithShot(old(Contents()))
              case Ok(q) => raised == None && Valid() && Contents() == q
              case Err(e) => raised == Some(e)
    {
      if currentReference == "" {
        return Some(ShotBeforeScene);
      }
      raised := FinishCurrent();
      if raised.Some? {
        return;
      }
      shotIndex := shotIndex + 1;
      currentFields := {};
      var sceneId := sceneIdByRef[currentReference];
      orderByScene := orderByScene[sceneId := (if sceneId in orderByScene then orderByScene[sceneId] else 0) + 1];
      current := Some(NewShot(sceneId, ShotId(shotIndex), orderByScene[sceneId], currentReference));
    }

    method ReadField(key: FieldName, value: string, toInt: ToInt) returns (raised: Option<MigrationError>)
      requires Valid()
      modifies this`current, this`currentFields
      ensures match Step(old(Contents()), FieldLine(key, value), toInt)
              case Ok(q) => raised == None && Valid() && Contents() == q
              case Err(e) => raised == Some(e)
    {
      if current.None? {
        return None;
      }
      if key in REQUIRED {
        currentFields := currentFields + {key};
      }
      var updated := WithField(current.value, key, value, toInt);
      if updated.Err? {
        return Some(updated.error);
      }
      current := Some(updated.value);
      return None;
    }

    method ReadLine(line: Line, toInt: ToInt) returns (raised: Option<MigrationError>)
      requires Valid()
      modifies this
      ensures match Step(old(Contents()), line, toInt)
              case Ok(q) => raised == None && Valid() && Contents() == q
              case Err(e) => raised == Some(e)
    {
      match line
      case SceneHeading(reference) =>
        EnterScene(reference);
        return None;
      case ShotHeading => raised := OpenShot();
      case FieldLine(key, value) => raised := ReadField(key, value, toInt);
      case Other => return None;
    }
  }

  method ParseLegacyShots(lines: seq<Line>, toInt: ToInt) returns (r: Result<(seq<Scene>, seq<Shot>), MigrationError>)
    ensures r == ParseLegacy(lines, toInt)
  {
    var reader := new LineReader();
    for i := 0 to |lines|
      invariant fresh(reader) && reader.Valid() && Scan(lines[..i], toInt) == Ok(reader.Contents())
    {
      assert lines[..i + 1][..i] == lines[..i];
      var raised := reader.ReadLine(lines[i], toInt);
      if raised.Some? {
        ScanFails(lines, toInt, i + 1);
        return Err(raised.value);
      }
    }
    assert lines[..|lines|] == lines;
    var raised := reader.FinishCurrent();
    if raised.Some? {
      return Err(raised.value);
    }
    return if reader.scenes == [] || reader.shots == [] then Err(LacksScenesOrShots) else Ok((reader.scenes, reader.shots));
  }
}

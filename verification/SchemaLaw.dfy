/** What the shape checks accept, read off the fields of a dict with the key names written out
    (ai_drama_runtime/storyboard_canonical.py, ai_drama_runtime/shot_prompt_canonical.py). */
module SchemaLaw {
  import opened JsonText
  import opened JsonSchema
  import opened Storyboard

  // ---------- a dict's fields ----------

  predicate Under(v: Json, key: string, x: Json) {
    v.Obj? && Field(key, x) in v.fields
  }

  ghost predicate Has(v: Json, key: string) {
    exists x :: Under(v, key, x)
  }

  /** A dict whose keys are exactly the names. */
  ghost predicate ExactKeys(v: Json, names: seq<string>) {
    v.Obj? && forall key :: Has(v, key) <==> key in names
  }

  predicate SomeText(x: Json) {
    x.Str? && |x.s| > 0
  }

  predicate TextList(x: Json) {
    x.Arr? && forall y :: y in x.items ==> SomeText(y)
  }

  ghost predicate HasText(v: Json, key: string) {
    exists x :: Under(v, key, x) && SomeText(x)
  }

  ghost predicate HasTextOrNull(v: Json, key: string) {
    Under(v, key, Null) || HasText(v, key)
  }

  ghost predicate HasInteger(v: Json, key: string) {
    exists x :: Under(v, key, x) && x.Num?
  }

  ghost predicate HasFlag(v: Json, key: string) {
    Under(v, key, Bool(true)) || Under(v, key, Bool(false))
  }

  ghost predicate HasTexts(v: Json, key: string) {
    exists x :: Under(v, key, x) && TextList(x)
  }

  ghost predicate HasSomeTexts(v: Json, key: string) {
    exists x :: Under(v, key, x) && TextList(x) && x.items != []
  }

  ghost predicate HasDict(v: Json, key: string) {
    exists x :: Under(v, key, x) && x.Obj?
  }

  ghost predicate HasDictOrNull(v: Json, key: string) {
    Under(v, key, Null) || HasDict(v, key)
  }

  ghost predicate HasList(v: Json, key: string) {
    exists x :: Under(v, key, x) && x.Arr?
  }

  // ---------- what is under a key ----------

  ghost predicate HasShape(v: Json, key: string, shape: Shape) {
    exists x :: Under(v, key, x) && Conforms(x, shape)
  }

  lemma UnderRead(v: Json, key: string, x: Json)
    requires WellFormed(v) && Under(v, key, x)
    ensures Present(v, key) && At(v, key) == x
  {
    LookupFinds(v.fields, Field(key, x));
  }

  lemma ReadUnder(v: Json, key: string)
    requires Present(v, key)
    ensures Under(v, key, At(v, key))
  {
  }

  lemma PresentIff(v: Json, key: string)
    requires WellFormed(v)
    ensures Present(v, key) <==> Has(v, key)
  {
    if Present(v, key) { ReadUnder(v, key); }
    if Has(v, key) {
      var x :| Under(v, key, x);
      UnderRead(v, key, x);
    }
  }

  lemma ShapeRead(v: Json, key: string, shape: Shape)
    requires WellFormed(v)
    ensures HasShape(v, key, shape) <==> Present(v, key) && Conforms(At(v, key), shape)
  {
    if Present(v, key) && Conforms(At(v, key), shape) { ReadUnder(v, key); }
    if HasShape(v, key, shape) {
      var x :| Under(v, key, x) && Conforms(x, shape);
      UnderRead(v, key, x);
    }
  }

  lemma TextRead(v: Json, key: string)
    requires WellFormed(v)
    ensures HasShape(v, key, Text) <==> HasText(v, key)
    ensures HasText(v, key) <==> Conforms(At(v, key), Text)
    ensures HasText(v, key) ==> Under(v, key, Str(IdOf(v, key)))
  {
    ShapeRead(v, key, Text);
    if HasText(v, key) {
      var x :| Under(v, key, x) && SomeText(x);
      UnderRead(v, key, x);
    }
    if HasShape(v, key, Text) {
      var x :| Under(v, key, x) && Conforms(x, Text);
      assert SomeText(x);
    }
  }

  lemma TextOrNullRead(v: Json, key: string)
    requires WellFormed(v)
    ensures HasShape(v, key, NullableText) <==> HasTextOrNull(v, key)
  {
    TextRead(v, key);
    if HasShape(v, key, NullableText) {
      var x :| Under(v, key, x) && Conforms(x, NullableText);
      assert x.Null? || Conforms(x, Text);
    }
    if Under(v, key, Null) { assert Conforms(Null, NullableText); }
    if HasText(v, key) {
      var x :| Under(v, key, x) && SomeText(x);
      assert Conforms(x, NullableText);
    }
  }

  lemma IntegerRead(v: Json, key: string)
    requires WellFormed(v)
    ensures HasShape(v, key, Integer) <==> HasInteger(v, key)
    ensures HasInteger(v, key) <==> Conforms(At(v, key), Integer)
    ensures HasInteger(v, key) ==> Under(v, key, Num(NumberOf(v, key)))
  {
    ShapeRead(v, key, Integer);
    if HasInteger(v, key) {
      var x :| Under(v, key, x) && x.Num?;
      UnderRead(v, key, x);
    }
    if HasShape(v, key, Integer) {
      var x :| Under(v, key, x) && Conforms(x, Integer);
      assert x.Num?;
    }
  }

  lemma FlagRead(v: Json, key: string)
    ensures HasShape(v, key, Flag) <==> HasFlag(v, key)
  {
    if HasShape(v, key, Flag) {
      var x :| Under(v, key, x) && Conforms(x, Flag);
      assert x == Bool(true) || x == Bool(false);
    }
    if Under(v, key, Bool(true)) { assert Conforms(Bool(true), Flag); }
    if Under(v, key, Bool(false)) { assert Conforms(Bool(false), Flag); }
  }

  lemma TextListConforms(x: Json)
    ensures Conforms(x, Texts) <==> TextList(x)
    ensures Conforms(x, SomeTexts) <==> TextList(x) && x.items != []
  {
    if x.Arr? {
      if TextList(x) {
        forall i | 0 <= i < |x.items| ensures NonEmpty(x.items[i]) { assert x.items[i] in x.items; }
      }
    }
  }

  lemma TextsRead(v: Json, key: string)
    ensures HasShape(v, key, Texts) <==> HasTexts(v, key)
    ensures HasShape(v, key, SomeTexts) <==> HasSomeTexts(v, key)
  {
    forall x ensures Conforms(x, Texts) <==> TextList(x) { TextListConforms(x); }
    forall x ensures Conforms(x, SomeTexts) <==> TextList(x) && x.items != [] { TextListConforms(x); }
  }

  lemma DictRead(v: Json, key: string)
    ensures HasShape(v, key, AnyObject) <==> HasDict(v, key)
    ensures HasShape(v, key, NullableObject) <==> HasDictOrNull(v, key)
  {
    if HasShape(v, key, NullableObject) {
      var x :| Under(v, key, x) && Conforms(x, NullableObject);
      assert x == Null || x.Obj?;
    }
    if Under(v, key, Null) { assert Conforms(Null, NullableObject); }
    if HasDict(v, key) {
      var x :| Under(v, key, x) && x.Obj?;
      assert Conforms(x, NullableObject) && Conforms(x, AnyObject);
    }
    if HasShape(v, key, AnyObject) {
      var x :| Under(v, key, x) && Conforms(x, AnyObject);
      assert x.Obj?;
    }
  }

  lemma ListRead(v: Json, key: string)
    ensures HasShape(v, key, AnyArray) <==> HasList(v, key)
  {
    if HasList(v, key) {
      var x :| Under(v, key, x) && x.Arr?;
      assert Conforms(x, AnyArray);
    }
    if HasShape(v, key, AnyArray) {
      var x :| Under(v, key, x) && Conforms(x, AnyArray);
      assert x.Arr?;
    }
  }

  lemma AnyRead(v: Json, key: string)
    ensures HasShape(v, key, Any) <==> Has(v, key)
  {
    if Has(v, key) {
      var x :| Under(v, key, x);
      assert Conforms(x, Any);
    }
  }

  // ---------- a whole record ----------

  predicate NamesOf(names: seq<string>, keys: seq<Key>) {
    |names| == |keys| && forall k :: 0 <= k < |keys| ==> names[k] == keys[k].name
  }

  lemma NamedIff(names: seq<string>, keys: seq<Key>, s: string)
    requires NamesOf(names, keys)
    ensures Named(keys, s) <==> s in names
  {
    if Named(keys, s) {
      var k :| 0 <= k < |keys| && keys[k].name == s;
      assert names[k] == s;
    }
    if s in names {
      var k :| 0 <= k < |names| && names[k] == s;
      assert keys[k].name == s;
    }
  }

  lemma ExactKeysIff(v: Json, names: seq<string>, keys: seq<Key>)
    requires WellFormed(v) && NamesOf(names, keys)
    ensures HasKeys(v, keys) <==> ExactKeys(v, names)
  {
    if HasKeys(v, keys) {
      forall key ensures Has(v, key) <==> key in names {
        KeyAllowed(v, names, keys, key);
      }
    }
    if ExactKeys(v, names) {
      forall k | 0 <= k < |keys| ensures Present(v, keys[k].name) {
        assert names[k] in names;
        PresentIff(v, keys[k].name);
      }
      forall i | 0 <= i < |v.fields| ensures Named(keys, v.fields[i].key) {
        assert Under(v, v.fields[i].key, v.fields[i].value);
        NamedIff(names, keys, v.fields[i].key);
      }
    }
  }

  lemma KeyAllowed(v: Json, names: seq<string>, keys: seq<Key>, key: string)
    requires WellFormed(v) && NamesOf(names, keys) && HasKeys(v, keys)
    ensures Has(v, key) <==> key in names
  {
    NamedIff(names, keys, key);
    if Has(v, key) {
      var x :| Under(v, key, x);
      var i :| 0 <= i < |v.fields| && v.fields[i] == Field(key, x);
      assert Named(keys, v.fields[i].key);
    }
    if Named(keys, key) {
      var k :| 0 <= k < |keys| && keys[k].name == key;
      assert Present(v, keys[k].name);
      PresentIff(v, key);
    }
  }

  ghost predicate AllShapes(v: Json, keys: seq<Key>) {
    forall k :: 0 <= k < |keys| ==> HasShape(v, keys[k].name, keys[k].shape)
  }

  /** A record conforms when its keys are the names and a value of the wanted shape is under each. */
  lemma RecordRead(v: Json, names: seq<string>, keys: seq<Key>)
    requires WellFormed(v) && NamesOf(names, keys)
    ensures ConformsRecord(v, keys) <==> ExactKeys(v, names) && AllShapes(v, keys)
  {
    ExactKeysIff(v, names, keys);
    if HasKeys(v, keys) {
      forall k | 0 <= k < |keys|
        ensures HasShape(v, keys[k].name, keys[k].shape) <==> Conforms(At(v, keys[k].name), keys[k].shape)
      {
        assert Present(v, keys[k].name);
        ShapeRead(v, keys[k].name, keys[k].shape);
      }
    }
  }

  // ---------- the nested records ----------

  lemma ThreeShapes(v: Json, keys: seq<Key>, a: Key, b: Key, c: Key)
    requires keys == [a, b, c]
    ensures AllShapes(v, keys) <==> HasShape(v, a.name, a.shape) && HasShape(v, b.name, b.shape) && HasShape(v, c.name, c.shape)
  {
    assert keys[0] == a && keys[1] == b && keys[2] == c;
  }

  lemma JoinedShapes(v: Json, xs: seq<Key>, ys: seq<Key>)
    ensures AllShapes(v, xs + ys) <==> AllShapes(v, xs) && AllShapes(v, ys)
  {
    var keys := xs + ys;
    if AllShapes(v, keys) {
      forall k | 0 <= k < |xs| ensures HasShape(v, xs[k].name, xs[k].shape) { assert keys[k] == xs[k]; }
      forall k | 0 <= k < |ys| ensures HasShape(v, ys[k].name, ys[k].shape) { assert keys[|xs| + k] == ys[k]; }
    }
  }

  lemma FourShapes(v: Json, keys: seq<Key>, a: Key, b: Key, c: Key, d: Key)
    requires keys == [a, b, c, d]
    ensures AllShapes(v, keys) <==>
              && HasShape(v, a.name, a.shape) && HasShape(v, b.name, b.shape) && HasShape(v, c.name, c.shape)
              && HasShape(v, d.name, d.shape)
  {
    assert keys[0] == a && keys[1] == b && keys[2] == c && keys[3] == d;
  }

  lemma FiveShapes(v: Json, keys: seq<Key>, a: Key, b: Key, c: Key, d: Key, e: Key)
    requires keys == [a, b, c, d, e]
    ensures AllShapes(v, keys) <==>
              && HasShape(v, a.name, a.shape) && HasShape(v, b.name, b.shape) && HasShape(v, c.name, c.shape)
              && HasShape(v, d.name, d.shape) && HasShape(v, e.name, e.shape)
  {
    assert keys[0] == a && keys[1] == b && keys[2] == c && keys[3] == d && keys[4] == e;
  }

  ghost predicate VisualDict(v: Json) {
    && ExactKeys(v, ["framing", "subject_focus", "background_relation", "screen_direction"])
    && HasText(v, "framing") && HasText(v, "subject_focus") && HasText(v, "background_relation")
    && HasTextOrNull(v, "screen_direction")
  }

  ghost predicate PositionDict(v: Json) {
    && ExactKeys(v, ["character_id", "screen_zone", "depth", "pose", "facing"])
    && HasText(v, "character_id") && HasText(v, "screen_zone") && HasText(v, "depth") && HasText(v, "pose")
    && HasTextOrNull(v, "facing")
  }

  ghost predicate ActionDict(v: Json) {
    && ExactKeys(v, ["character_id", "action_order", "action"])
    && HasText(v, "character_id") && HasInteger(v, "action_order") && HasText(v, "action")
  }

  ghost predicate EmotionDict(v: Json) {
    && ExactKeys(v, ["character_id", "emotion", "intensity", "performance_note"])
    && HasText(v, "character_id") && HasText(v, "emotion") && HasText(v, "intensity")
    && HasTextOrNull(v, "performance_note")
  }

  ghost predicate DialogueDict(v: Json) {
    && ExactKeys(v, ["speaker_character_id", "text", "lip_sync_required"])
    && HasText(v, "speaker_character_id") && HasText(v, "text") && HasFlag(v, "lip_sync_required")
  }

  ghost predicate ContinuityDict(v: Json) {
    && ExactKeys(v, ["must_preserve", "must_change", "source_unit_or_shot_id"])
    && HasTexts(v, "must_preserve") && HasTexts(v, "must_change") && HasTextOrNull(v, "source_unit_or_shot_id")
  }

  ghost predicate SourceDict(v: Json) {
    && ExactKeys(v, ["script_artifact_id", "script_revision_id", "script_content_hash"])
    && HasText(v, "script_artifact_id") && HasText(v, "script_revision_id") && HasText(v, "script_content_hash")
  }

  lemma VisualRead(v: Json)
    requires WellFormed(v)
    ensures ConformsRecord(v, VISUAL) <==> VisualDict(v)
  {
    RecordRead(v, ["framing", "subject_focus", "background_relation", "screen_direction"], VISUAL);
    VisualShapes(v, VISUAL);
  }

  lemma VisualShapes(v: Json, keys: seq<Key>)
    requires WellFormed(v)
    requires keys == [Key("framing", Text), Key("subject_focus", Text), Key("background_relation", Text), Key("screen_direction", NullableText)]
    ensures AllShapes(v, keys) <==>
              && HasText(v, "framing") && HasText(v, "subject_focus") && HasText(v, "background_relation")
              && HasTextOrNull(v, "screen_direction")
  {
    FourShapes(v, keys, Key("framing", Text), Key("subject_focus", Text), Key("background_relation", Text), Key("screen_direction", NullableText));
    TextRead(v, "framing");
    TextRead(v, "subject_focus");
    TextRead(v, "background_relation");
    TextOrNullRead(v, "screen_direction");
  }

  lemma PositionRead(v: Json)
    requires WellFormed(v)
    ensures ConformsRecord(v, POSITION) <==> PositionDict(v)
  {
    RecordRead(v, ["character_id", "screen_zone", "depth", "pose", "facing"], POSITION);
    PositionShapes(v, POSITION);
  }

  lemma PositionShapes(v: Json, keys: seq<Key>)
    requires WellFormed(v)
    requires keys == [Key("character_id", Text), Key("screen_zone", Text), Key("depth", Text), Key("pose", Text), Key("facing", NullableText)]
    ensures AllShapes(v, keys) <==>
              && HasText(v, "character_id") && HasText(v, "screen_zone") && HasText(v, "depth")
              && HasText(v, "pose") && HasTextOrNull(v, "facing")
  {
    FiveShapes(v, keys, Key("character_id", Text), Key("screen_zone", Text), Key("depth", Text), Key("pose", Text), Key("facing", NullableText));
    TextRead(v, "character_id");
    TextRead(v, "screen_zone");
    TextRead(v, "depth");
    TextRead(v, "pose");
    TextOrNullRead(v, "facing");
  }

  lemma ActionRead(v: Json)
    requires WellFormed(v)
    ensures ConformsRecord(v, ACTION) <==> ActionDict(v)
  {
    RecordRead(v, ["character_id", "action_order", "action"], ACTION);
    ActionShapes(v, ACTION);
  }

  lemma ActionShapes(v: Json, keys: seq<Key>)
    requires WellFormed(v)
    requires keys == [Key("character_id", Text), Key("action_order", Integer), Key("action", Text)]
    ensures AllShapes(v, keys) <==>
              && HasText(v, "character_id") && HasInteger(v, "action_order") && HasText(v, "action")
  {
    ThreeShapes(v, keys, Key("character_id", Text), Key("action_order", Integer), Key("action", Text));
    TextRead(v, "character_id");
    IntegerRead(v, "action_order");
    TextRead(v, "action");
  }

  lemma EmotionRead(v: Json)
    requires WellFormed(v)
    ensures ConformsRecord(v, EMOTION) <==> EmotionDict(v)
  {
    RecordRead(v, ["character_id", "emotion", "intensity", "performance_note"], EMOTION);
    EmotionShapes(v, EMOTION);
  }

  lemma EmotionShapes(v: Json, keys: seq<Key>)
    requires WellFormed(v)
    requires keys == [Key("character_id", Text), Key("emotion", Text), Key("intensity", Text), Key("performance_note", NullableText)]
    ensures AllShapes(v, keys) <==>
              && HasText(v, "character_id") && HasText(v, "emotion") && HasText(v, "intensity")
              && HasTextOrNull(v, "performance_note")
  {
    FourShapes(v, keys, Key("character_id", Text), Key("emotion", Text), Key("intensity", Text), Key("performance_note", NullableText));
    TextRead(v, "character_id");
    TextRead(v, "emotion");
    TextRead(v, "intensity");
    TextOrNullRead(v, "performance_note");
  }

  lemma DialogueRead(v: Json)
    requires WellFormed(v)
    ensures ConformsRecord(v, DIALOGUE) <==> DialogueDict(v)
  {
    RecordRead(v, ["speaker_character_id", "text", "lip_sync_required"], DIALOGUE);
    DialogueShapes(v, DIALOGUE);
  }

  lemma DialogueShapes(v: Json, keys: seq<Key>)
    requires WellFormed(v)
    requires keys == [Key("speaker_character_id", Text), Key("text", Text), Key("lip_sync_required", Flag)]
    ensures AllShapes(v, keys) <==>
              && HasText(v, "speaker_character_id") && HasText(v, "text") && HasFlag(v, "lip_sync_required")
  {
    ThreeShapes(v, keys, Key("speaker_character_id", Text), Key("text", Text), Key("lip_sync_required", Flag));
    TextRead(v, "speaker_character_id");
    TextRead(v, "text");
    FlagRead(v, "lip_sync_required");
  }

  lemma ContinuityRead(v: Json)
    requires WellFormed(v)
    ensures ConformsRecord(v, CONTINUITY) <==> ContinuityDict(v)
  {
    RecordRead(v, ["must_preserve", "must_change", "source_unit_or_shot_id"], CONTINUITY);
    ContinuityShapes(v, CONTINUITY);
  }

  lemma ContinuityShapes(v: Json, keys: seq<Key>)
    requires WellFormed(v)
    requires keys == [Key("must_preserve", Texts), Key("must_change", Texts), Key("source_unit_or_shot_id", NullableText)]
    ensures AllShapes(v, keys) <==>
              && HasTexts(v, "must_preserve") && HasTexts(v, "must_change")
              && HasTextOrNull(v, "source_unit_or_shot_id")
  {
    ThreeShapes(v, keys, Key("must_preserve", Texts), Key("must_change", Texts), Key("source_unit_or_shot_id", NullableText));
    TextsRead(v, "must_preserve");
    TextsRead(v, "must_change");
    TextOrNullRead(v, "source_unit_or_shot_id");
  }

  lemma SourceRead(v: Json)
    requires WellFormed(v)
    ensures ConformsRecord(v, SOURCE) <==> SourceDict(v)
  {
    RecordRead(v, ["script_artifact_id", "script_revision_id", "script_content_hash"], SOURCE);
    SourceShapes(v, SOURCE);
  }

  lemma SourceShapes(v: Json, keys: seq<Key>)
    requires WellFormed(v)
    requires keys == [Key("script_artifact_id", Text), Key("script_revision_id", Text), Key("script_content_hash", Text)]
    ensures AllShapes(v, keys) <==>
              && HasText(v, "script_artifact_id") && HasText(v, "script_revision_id") && HasText(v, "script_content_hash")
  {
    ThreeShapes(v, keys, Key("script_artifact_id", Text), Key("script_revision_id", Text), Key("script_content_hash", Text));
    TextRead(v, "script_artifact_id");
    TextRead(v, "script_revision_id");
    TextRead(v, "script_content_hash");
  }

  // ---------- records under a key ----------

  ghost predicate HasVisual(v: Json, key: string) {
    exists x :: Under(v, key, x) && VisualDict(x)
  }

  ghost predicate HasContinuity(v: Json, key: string) {
    exists x :: Under(v, key, x) && ContinuityDict(x)
  }

  ghost predicate HasSource(v: Json, key: string) {
    exists x :: Under(v, key, x) && SourceDict(x)
  }

  ghost predicate PositionList(x: Json) {
    x.Arr? && forall i :: 0 <= i < |x.items| ==> PositionDict(x.items[i])
  }

  ghost predicate HasPositions(v: Json, key: string) {
    exists x :: Under(v, key, x) && PositionList(x)
  }

  ghost predicate ActionList(x: Json) {
    x.Arr? && forall i :: 0 <= i < |x.items| ==> ActionDict(x.items[i])
  }

  ghost predicate HasActions(v: Json, key: string) {
    exists x :: Under(v, key, x) && ActionList(x)
  }

  ghost predicate EmotionList(x: Json) {
    x.Arr? && forall i :: 0 <= i < |x.items| ==> EmotionDict(x.items[i])
  }

  ghost predicate HasEmotions(v: Json, key: string) {
    exists x :: Under(v, key, x) && EmotionList(x)
  }

  ghost predicate DialogueList(x: Json) {
    x.Arr? && forall i :: 0 <= i < |x.items| ==> DialogueDict(x.items[i])
  }

  ghost predicate HasDialogue(v: Json, key: string) {
    exists x :: Under(v, key, x) && DialogueList(x)
  }

  lemma UnderIsWellFormed(v: Json, key: string, x: Json)
    requires WellFormed(v) && Under(v, key, x)
    ensures WellFormed(x)
  {
  }

  lemma HasVisualIff(v: Json, key: string)
    requires WellFormed(v)
    ensures HasShape(v, key, Record(VISUAL)) <==> HasVisual(v, key)
  {
    forall x | Under(v, key, x) ensures Conforms(x, Record(VISUAL)) <==> VisualDict(x) {
      UnderIsWellFormed(v, key, x);
      VisualRead(x);
    }
  }

  lemma HasContinuityIff(v: Json, key: string)
    requires WellFormed(v)
    ensures HasShape(v, key, Record(CONTINUITY)) <==> HasContinuity(v, key)
  {
    forall x | Under(v, key, x) ensures Conforms(x, Record(CONTINUITY)) <==> ContinuityDict(x) {
      UnderIsWellFormed(v, key, x);
      ContinuityRead(x);
    }
  }

  lemma HasSourceIff(v: Json, key: string)
    requires WellFormed(v)
    ensures HasShape(v, key, Record(SOURCE)) <==> HasSource(v, key)
  {
    forall x | Under(v, key, x) ensures Conforms(x, Record(SOURCE)) <==> SourceDict(x) {
      UnderIsWellFormed(v, key, x);
      SourceRead(x);
    }
  }

  lemma PositionListIff(x: Json)
    requires WellFormed(x)
    ensures Conforms(x, Records(POSITION)) <==> PositionList(x)
  {
    if x.Arr? {
      forall i | 0 <= i < |x.items| ensures ConformsRecord(x.items[i], POSITION) <==> PositionDict(x.items[i]) {
        PositionRead(x.items[i]);
      }
    }
  }

  lemma HasPositionsIff(v: Json, key: string)
    requires WellFormed(v)
    ensures HasShape(v, key, Records(POSITION)) <==> HasPositions(v, key)
  {
    forall x | Under(v, key, x) ensures Conforms(x, Records(POSITION)) <==> PositionList(x) {
      UnderIsWellFormed(v, key, x);
      PositionListIff(x);
    }
  }

  lemma ActionListIff(x: Json)
    requires WellFormed(x)
    ensures Conforms(x, Records(ACTION)) <==> ActionList(x)
  {
    if x.Arr? {
      forall i | 0 <= i < |x.items| ensures ConformsRecord(x.items[i], ACTION) <==> ActionDict(x.items[i]) {
        ActionRead(x.items[i]);
      }
    }
  }

  lemma HasActionsIff(v: Json, key: string)
    requires WellFormed(v)
    ensures HasShape(v, key, Records(ACTION)) <==> HasActions(v, key)
  {
    forall x | Under(v, key, x) ensures Conforms(x, Records(ACTION)) <==> ActionList(x) {
      UnderIsWellFormed(v, key, x);
      ActionListIff(x);
    }
  }

  lemma EmotionListIff(x: Json)
    requires WellFormed(x)
    ensures Conforms(x, Records(EMOTION)) <==> EmotionList(x)
  {
    if x.Arr? {
      forall i | 0 <= i < |x.items| ensures ConformsRecord(x.items[i], EMOTION) <==> EmotionDict(x.items[i]) {
        EmotionRead(x.items[i]);
      }
    }
  }

  lemma HasEmotionsIff(v: Json, key: string)
    requires WellFormed(v)
    ensures HasShape(v, key, Records(EMOTION)) <==> HasEmotions(v, key)
  {
    forall x | Under(v, key, x) ensures Conforms(x, Records(EMOTION)) <==> EmotionList(x) {
      UnderIsWellFormed(v, key, x);
      EmotionListIff(x);
    }
  }

  lemma DialogueListIff(x: Json)
    requires WellFormed(x)
    ensures Conforms(x, Records(DIALOGUE)) <==> DialogueList(x)
  {
    if x.Arr? {
      forall i | 0 <= i < |x.items| ensures ConformsRecord(x.items[i], DIALOGUE) <==> DialogueDict(x.items[i]) {
        DialogueRead(x.items[i]);
      }
    }
  }

  lemma HasDialogueIff(v: Json, key: string)
    requires WellFormed(v)
    ensures HasShape(v, key, Records(DIALOGUE)) <==> HasDialogue(v, key)
  {
    forall x | Under(v, key, x) ensures Conforms(x, Records(DIALOGUE)) <==> DialogueList(x) {
      UnderIsWellFormed(v, key, x);
      DialogueListIff(x);
    }
  }
}

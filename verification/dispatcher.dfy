/** `InsertUnicodeOperator.execute` (B_Unicode/__init__.py, lines 75-101):
    insert one symbol into whichever destination the active editor offers.

    The Blender state the operator reads and writes is modelled as an
    immutable value (`Host`) and the operator as a pure function from the
    host state and the symbol to an `Outcome`: the new host state, the
    operator's return value and the message it reported, or the Python
    exception it raised. */
module Dispatcher {
  import opened Wrappers
  import opened Registry

  /** The strip type that accepts text (line 87). */
  const TextStripKind: string := "TEXT"

  /** The object type of text objects (line 93). */
  const FontKind: string := "FONT"

  /** The three messages the operator reports (lines 90, 98 and 100). */
  const StripWarning: string := "Please select a text strip to add the character."
  const ObjectInfo: string := "Unicode added to 3D Viewport text object."
  const ObjectWarning: string := "Please select a text object in the 3D Viewport."

  /** What Python raises at line 77 when the context has no editor space
      (the operator run from a script, say: it defines no `poll`). */
  const NoSpaceError: string := "AttributeError: 'NoneType' object has no attribute 'type'"

  /** What Python raises at line 86 when the scene has no sequence editor. */
  const NoSequenceEditorError: string := "AttributeError: 'NoneType' object has no attribute 'active_strip'"

  /** A text datablock open in a text editor. `cursor` is the insertion
      point, an offset into `body`. */
  datatype TextBuffer = TextBuffer(name: string, body: string, cursor: nat)

  /** A sequencer strip: its name, its type tag (`TEXT`, `MOVIE`, ...) and its
      text content (meaningful only for `TEXT` strips). */
  datatype Strip = Strip(name: string, kind: string, text: string)

  /** A scene's sequence editor: its strips and the index of the active one,
      if any. */
  datatype SequenceEditor = SequenceEditor(strips: seq<Strip>, active: Option<nat>)

  /** A scene object: its name, its type tag (`MESH`, `FONT`, ...) and the
      body text of its curve data (meaningful only for `FONT` objects). */
  datatype SceneObject = SceneObject(name: string, kind: string, body: string)

  /** A scene: its objects in scene order, and its sequence editor, which a
      scene that never used the sequencer does not have. */
  datatype Scene = Scene(objects: seq<SceneObject>, sequenceEditor: Option<SequenceEditor>)

  /** The space types lines 78, 83 and 91 compare against. */
  const HandledSpaceTypes: set<string> := {"TEXT_EDITOR", "SEQUENCE_EDITOR", "VIEW_3D"}

  /** The editor the operator was invoked from, tagged by its space type, or
      `NoSpace` when `context.space_data` is None. Only a text editor carries
      a reference of its own: the text it shows. */
  datatype Space =
    | NoSpace
    | TextEditor(text: Option<TextBuffer>)
    | SequenceEditorSpace
    | View3D
    | OtherSpace(spaceType: string)

  /** The part of Blender's state the operator reads and writes. */
  datatype Host = Host(space: Space, scene: Scene) {

    /** Blender's references are live: the active strip is one of the strips
        and a text's cursor lies within its body. Any other editor has a
        space type the operator does not compare against. */
    predicate WellFormed() {
      && (space.OtherSpace? ==> space.spaceType !in HandledSpaceTypes)
      && (space.TextEditor? && space.text.Some? ==> space.text.value.cursor <= |space.text.value.body|)
      && (scene.sequenceEditor.Some? && scene.sequenceEditor.value.active.Some? ==>
            scene.sequenceEditor.value.active.value < |scene.sequenceEditor.value.strips|)
    }
  }

  /** The message passed to `self.report`, if any. */
  datatype Report = Silent | Info(message: string) | Warning(message: string)

  /** The values a Blender operator may return. */
  datatype OperatorResult = Finished | Cancelled | PassThrough | RunningModal

  /** What one call of the operator produces. */
  datatype Outcome =
    | Returned(result: OperatorResult, host: Host, report: Report)
    | Raised(error: string)

  predicate IsFont(o: SceneObject) {
    o.kind == FontKind
  }

  /** `k` is the position of the first `FONT` object of `objects`. */
  predicate IsFirstFont(objects: seq<SceneObject>, k: nat) {
    && k < |objects|
    && IsFont(objects[k])
    && forall j :: 0 <= j < k ==> !IsFont(objects[j])
  }

  predicate HasFont(objects: seq<SceneObject>) {
    exists j :: 0 <= j < |objects| && IsFont(objects[j])
  }

  /** `Text.write`: the symbol is inserted at the cursor, and the cursor
      then advances to the end of the text block. */
  function Write(t: TextBuffer, s: string): (t': TextBuffer)
    requires t.cursor <= |t.body|
    ensures t'.name == t.name
    ensures |t'.body| == |t.body| + |s| && t'.cursor == |t'.body|
    ensures t'.body[..t.cursor] == t.body[..t.cursor]
    ensures t'.body[t.cursor..t.cursor + |s|] == s
    ensures t'.body[t.cursor + |s|..] == t.body[t.cursor..]
    ensures t.cursor == |t.body| ==> t'.body == t.body + s
  {
    var body := t.body[..t.cursor] + s + t.body[t.cursor..];
    TextBuffer(t.name, body, |body|)
  }

  /** The position of the first `FONT` object in scene order, if any. */
  function FirstFont(objects: seq<SceneObject>): (r: Option<nat>)
    ensures r.Some? ==> IsFirstFont(objects, r.value)
    ensures r.None? ==> !HasFont(objects)
  {
    if objects == [] then None
    else if IsFont(objects[0]) then Some(0)
    else
      match FirstFont(objects[1..])
      case None => None
      case Some(i) => Some(i + 1)
  }

  /** The list comprehension of line 93: the `FONT` objects, in scene order. */
  function TextObjects(objects: seq<SceneObject>): (fonts: seq<SceneObject>)
    ensures |fonts| <= |objects|
    ensures forall o :: o in fonts ==> o in objects && IsFont(o)
    ensures forall j :: 0 <= j < |objects| && IsFont(objects[j]) ==> objects[j] in fonts
  {
    if objects == [] then []
    else
      var rest := TextObjects(objects[1..]);
      assert forall j :: 1 <= j < |objects| ==> objects[j] == objects[1..][j - 1];
      (if IsFont(objects[0]) then [objects[0]] else []) + rest
  }

  /** The positions of the `FONT` objects at or after position `from`, in
      increasing order: an independent description of which objects line 93
      keeps. */
  function FontPositions(objects: seq<SceneObject>, from: nat): (idx: seq<nat>)
    requires from <= |objects|
    ensures forall i :: 0 <= i < |idx| ==> from <= idx[i] < |objects| && IsFont(objects[idx[i]])
    ensures forall i, j :: 0 <= i < j < |idx| ==> idx[i] < idx[j]
    ensures forall j :: from <= j < |objects| && IsFont(objects[j]) ==> j in idx
    decreases |objects| - from
  {
    if from == |objects| then []
    else (if IsFont(objects[from]) then [from] else []) + FontPositions(objects, from + 1)
  }

  /** `strip and strip.type == 'TEXT'` (line 87): the index of the active
      strip when there is one and it is a text strip. */
  function ActiveTextStrip(ed: SequenceEditor): (r: Option<nat>)
    ensures r.Some? <==> ed.active.Some? && ed.active.value < |ed.strips| && ed.strips[ed.active.value].kind == TextStripKind
    ensures r.Some? ==> r == ed.active
  {
    match ed.active
    case None => None
    case Some(i) => if i < |ed.strips| && ed.strips[i].kind == TextStripKind then Some(i) else None
  }

  /** Appends `s` to the text of strip `i`; every other strip is kept. */
  function AppendToStrip(ed: SequenceEditor, i: nat, s: string): (ed': SequenceEditor)
    requires i < |ed.strips|
    ensures ed'.active == ed.active && |ed'.strips| == |ed.strips|
    ensures ed'.strips[i] == ed.strips[i].(text := ed.strips[i].text + s)
    ensures forall j :: 0 <= j < |ed.strips| && j != i ==> ed'.strips[j] == ed.strips[j]
  {
    ed.(strips := ed.strips[i := ed.strips[i].(text := ed.strips[i].text + s)])
  }

  /** Appends `s` to the body of object `k`; every other object is kept. */
  function AppendToObject(objects: seq<SceneObject>, k: nat, s: string): (objects': seq<SceneObject>)
    requires k < |objects|
    ensures |objects'| == |objects|
    ensures objects'[k] == objects[k].(body := objects[k].body + s)
    ensures forall j :: 0 <= j < |objects| && j != k ==> objects'[j] == objects[j]
  {
    objects[k := objects[k].(body := objects[k].body + s)]
  }

  /** `InsertUnicodeOperator.execute` with `unicode_char == ch`. */
  function Execute(host: Host, ch: Symbol): (out: Outcome)
    requires host.WellFormed()
    ensures out.Raised? <==> host.space.NoSpace? || (host.space.SequenceEditorSpace? && host.scene.sequenceEditor.None?)
    ensures out.Raised? ==> out.error == if host.space.NoSpace? then NoSpaceError else NoSequenceEditorError
    ensures out.Returned? ==> out.result == Finished && out.host.WellFormed()
    ensures out.Returned? ==> out.host.space.TextEditor? == host.space.TextEditor?
    ensures out.Returned? ==> (out.report.Info? <==> host.space.View3D? && HasFont(host.scene.objects))
    ensures out.Returned? ==>
      (out.report.Warning? <==>
        || (host.space.SequenceEditorSpace? && ActiveTextStrip(host.scene.sequenceEditor.value).None?)
        || (host.space.View3D? && !HasFont(host.scene.objects)))
    ensures out.Returned? && !out.report.Silent? ==> out.report.message in {StripWarning, ObjectInfo, ObjectWarning}
    ensures out.Returned? && out.report.Warning? ==> out.host == host
  {
    match host.space
    case NoSpace => Raised(NoSpaceError)
    case TextEditor(text) =>
      (match text
       case Some(t) => Returned(Finished, host.(space := TextEditor(Some(Write(t, ch)))), Silent)
       case None => Returned(Finished, host, Silent))
    case SequenceEditorSpace =>
      (match host.scene.sequenceEditor
       case None => Raised(NoSequenceEditorError)
       case Some(ed) =>
         match ActiveTextStrip(ed)
         case Some(i) =>
           Returned(Finished, host.(scene := host.scene.(sequenceEditor := Some(AppendToStrip(ed, i, ch)))), Silent)
         case None => Returned(Finished, host, Warning(StripWarning)))
    case View3D =>
      (match FirstFont(host.scene.objects)
       case Some(k) =>
         Returned(Finished, host.(scene := host.scene.(objects := AppendToObject(host.scene.objects, k, ch))), Info(ObjectInfo))
       case None => Returned(Finished, host, Warning(ObjectWarning)))
    case OtherSpace(_) => Returned(Finished, host, Silent)
  }

  // ----- What each branch changes, and that nothing else changes -----

  /** Text editor (lines 78-82): a present text receives the symbol at its
      cursor; without a text nothing changes. Nothing is reported. */
  lemma TextEditorBranch(host: Host, ch: Symbol)
    requires host.WellFormed() && host.space.TextEditor?
    ensures var out := Execute(host, ch);
      && out.Returned? && out.result == Finished && out.report == Silent
      && out.host.scene == host.scene
      && (host.space.text.None? ==> out.host == host)
      && (host.space.text.Some? ==> out.host.space == TextEditor(Some(Write(host.space.text.value, ch))))
  {
  }

  /** Sequence editor (lines 83-90): an active `TEXT` strip gets the symbol
      appended and every other strip, the active index and the objects are
      kept; otherwise the strip warning is reported and nothing changes. */
  lemma SequenceEditorBranch(host: Host, ch: Symbol)
    requires host.WellFormed() && host.space.SequenceEditorSpace? && host.scene.sequenceEditor.Some?
    ensures var out := Execute(host, ch);
      var ed := host.scene.sequenceEditor.value;
      && out.Returned? && out.result == Finished
      && (if ed.active.Some? && ed.strips[ed.active.value].kind == TextStripKind then
            var i := ed.active.value;
            && out.report == Silent
            && out.host.space == host.space
            && out.host.scene.objects == host.scene.objects
            && out.host.scene.sequenceEditor.Some?
            && var ed' := out.host.scene.sequenceEditor.value;
            && ed'.active == ed.active
            && |ed'.strips| == |ed.strips|
            && ed'.strips[i] == ed.strips[i].(text := ed.strips[i].text + ch)
            && forall j :: 0 <= j < |ed.strips| && j != i ==> ed'.strips[j] == ed.strips[j]
          else
            out.report == Warning(StripWarning) && out.host == host)
  {
  }

  /** No editor space (line 77): reading the space type raises, so the
      operator neither returns nor reports. */
  lemma NoSpaceRaises(host: Host, ch: Symbol)
    requires host.WellFormed() && host.space.NoSpace?
    ensures Execute(host, ch) == Raised(NoSpaceError)
  {
  }

  /** Sequence editor without a sequence editor in the scene: line 86 raises,
      so the operator neither returns nor reports. */
  lemma SequenceEditorMissing(host: Host, ch: Symbol)
    requires host.WellFormed() && host.space.SequenceEditorSpace? && host.scene.sequenceEditor.None?
    ensures Execute(host, ch) == Raised(NoSequenceEditorError)
  {
  }

  /** 3D viewport with a `FONT` object (lines 93-98): only the first one in
      scene order gets the symbol appended to its body; every earlier and
      later object, the sequence editor and the space are kept, and the
      informational message is reported. */
  lemma View3DBranch(host: Host, ch: Symbol, k: nat)
    requires host.WellFormed() && host.space.View3D?
    requires IsFirstFont(host.scene.objects, k)
    ensures var out := Execute(host, ch);
      var objects := host.scene.objects;
      && out.Returned? && out.result == Finished && out.report == Info(ObjectInfo)
      && out.host.space == host.space
      && out.host.scene.sequenceEditor == host.scene.sequenceEditor
      && |out.host.scene.objects| == |objects|
      && out.host.scene.objects[k] == objects[k].(body := objects[k].body + ch)
      && forall j :: 0 <= j < |objects| && j != k ==> out.host.scene.objects[j] == objects[j]
  {
  }

  /** 3D viewport without a `FONT` object (lines 94 and 99-100): the object
      warning is reported and nothing changes. */
  lemma View3DNoFont(host: Host, ch: Symbol)
    requires host.WellFormed() && host.space.View3D? && !HasFont(host.scene.objects)
    ensures Execute(host, ch) == Returned(Finished, host, Warning(ObjectWarning))
  {
  }

  /** Any other editor (a space type none of lines 78, 83 and 91 names): the
      operator finishes silently and changes nothing. */
  lemma OtherSpaceBranch(host: Host, ch: Symbol)
    requires host.WellFormed() && host.space.OtherSpace?
    ensures Execute(host, ch) == Returned(Finished, host, Silent)
  {
  }

  // ----- Choosing the 3D viewport's target -----

  /** The comprehension distributes over concatenation. */
  lemma {:induction false} TextObjectsAppend(a: seq<SceneObject>, b: seq<SceneObject>)
    ensures TextObjects(a + b) == TextObjects(a) + TextObjects(b)
    decreases |a|
  {
    if a == [] {
      assert a + b == b;
    } else {
      assert (a + b)[1..] == a[1..] + b;
      TextObjectsAppend(a[1..], b);
    }
  }

  /** The search by position agrees with the source's comprehension: there is
      a first `FONT` object exactly when `text_objects` is non-empty, and it is
      `text_objects[0]`. */
  lemma {:induction false} FirstFontIsHeadOfTextObjects(objects: seq<SceneObject>)
    ensures FirstFont(objects).None? <==> TextObjects(objects) == []
    ensures FirstFont(objects).Some? ==> TextObjects(objects)[0] == objects[FirstFont(objects).value]
    decreases |objects|
  {
    if objects != [] && !IsFont(objects[0]) {
      FirstFontIsHeadOfTextObjects(objects[1..]);
    }
  }

  /** The comprehension keeps exactly the objects at the `FONT` positions, in
      increasing position order: the `i`-th kept object of `objects[from..]`
      is the object at the `i`-th `FONT` position from `from` on. */
  lemma {:induction false} TextObjectsAtFontPositions(objects: seq<SceneObject>, from: nat)
    requires from <= |objects|
    ensures |TextObjects(objects[from..])| == |FontPositions(objects, from)|
    ensures forall i :: 0 <= i < |FontPositions(objects, from)| ==>
      TextObjects(objects[from..])[i] == objects[FontPositions(objects, from)[i]]
    decreases |objects| - from
  {
    if from < |objects| {
      var rest := objects[from..];
      assert rest[1..] == objects[from + 1..];
      TextObjectsAtFontPositions(objects, from + 1);
      var fonts, later := TextObjects(rest), TextObjects(objects[from + 1..]);
      var idx, laterIdx := FontPositions(objects, from), FontPositions(objects, from + 1);
      if IsFont(objects[from]) {
        assert fonts == [objects[from]] + later;
        assert idx == [from] + laterIdx;
        forall i | 0 < i < |idx|
          ensures fonts[i] == objects[idx[i]]
        {
          assert fonts[i] == later[i - 1] && idx[i] == laterIdx[i - 1];
        }
      } else {
        assert fonts == later && idx == laterIdx;
      }
    }
  }

  /** Two scenes with the same `FONT` objects in the same order, however the
      other objects are placed, send the symbol to the same object. */
  lemma SameTextObjectsSameTarget(a: seq<SceneObject>, b: seq<SceneObject>)
    requires TextObjects(a) == TextObjects(b)
    ensures FirstFont(a).Some? <==> FirstFont(b).Some?
    ensures FirstFont(a).Some? ==> a[FirstFont(a).value] == b[FirstFont(b).value]
  {
    FirstFontIsHeadOfTextObjects(a);
    FirstFontIsHeadOfTextObjects(b);
  }

  /** Adding an object that is not a text object anywhere in the scene does
      not change which object receives the symbol. */
  lemma UnrelatedObjectKeepsTarget(objects: seq<SceneObject>, p: nat, o: SceneObject)
    requires p <= |objects| && !IsFont(o)
    ensures var objects' := objects[..p] + [o] + objects[p..];
      && (FirstFont(objects').Some? <==> FirstFont(objects).Some?)
      && (FirstFont(objects).Some? ==> objects'[FirstFont(objects').value] == objects[FirstFont(objects).value])
  {
    var objects' := objects[..p] + [o] + objects[p..];
    assert TextObjects([o]) == [] by {
      assert [o][1..] == [];
    }
    calc {
      TextObjects(objects');
    == { TextObjectsAppend(objects[..p] + [o], objects[p..]); }
      TextObjects(objects[..p] + [o]) + TextObjects(objects[p..]);
    == { TextObjectsAppend(objects[..p], [o]); }
      TextObjects(objects[..p]) + TextObjects(objects[p..]);
    == { TextObjectsAppend(objects[..p], objects[p..]); assert objects[..p] + objects[p..] == objects; }
      TextObjects(objects);
    }
    SameTextObjectsSameTarget(objects', objects);
  }

  /** Only the type tags decide the target: scenes whose objects have the same
      types position by position pick the same position. */
  lemma {:induction false} FirstFontSeesOnlyKinds(a: seq<SceneObject>, b: seq<SceneObject>)
    requires |a| == |b|
    requires forall j :: 0 <= j < |a| ==> a[j].kind == b[j].kind
    ensures FirstFont(a) == FirstFont(b)
    decreases |a|
  {
    if a != [] && !IsFont(a[0]) {
      FirstFontSeesOnlyKinds(a[1..], b[1..]);
    }
  }

  /** Inserting twice in the 3D viewport appends both symbols, in order, to
      the same object: an insertion never moves the target. */
  lemma View3DRepeat(host: Host, a: Symbol, b: Symbol)
    requires host.WellFormed() && host.space.View3D? && HasFont(host.scene.objects)
    ensures var first := Execute(host, a);
      && first.Returned?
      && var second := Execute(first.host, b);
      && second.Returned?
      && FirstFont(second.host.scene.objects) == FirstFont(host.scene.objects)
      && var k := FirstFont(host.scene.objects).value;
      && second.host.scene.objects[k].body == host.scene.objects[k].body + a + b
  {
    var k := FirstFont(host.scene.objects).value;
    var first := Execute(host, a);
    View3DBranch(host, a, k);
    FirstFontSeesOnlyKinds(first.host.scene.objects, host.scene.objects);
    View3DBranch(first.host, b, k);
    var second := Execute(first.host, b);
    FirstFontSeesOnlyKinds(second.host.scene.objects, first.host.scene.objects);
  }

  // ----- The text editor's insertion -----

  /** Writing `a` then `b`: `a` lands at the cursor, and since the cursor
      then stands at the end of the text, `b` is appended after everything. */
  lemma WriteTwice(t: TextBuffer, a: string, b: string)
    requires t.cursor <= |t.body|
    ensures Write(Write(t, a), b).body == t.body[..t.cursor] + a + t.body[t.cursor..] + b
    ensures Write(Write(t, a), b).cursor == |t.body| + |a| + |b|
  {
    var w := Write(t, a);
    assert w.body[..w.cursor] == w.body;
  }

  // ----- Worked examples -----

  /** A text at its end holding "abc" becomes "abc★". */
  lemma TextEditorExample()
    ensures var t := TextBuffer("Text", "abc", 3);
      var host := Host(TextEditor(Some(t)), Scene([], None));
      Execute(host, "★") == Returned(Finished, Host(TextEditor(Some(TextBuffer("Text", "abc★", 4))), Scene([], None)), Silent)
  {
    assert "abc"[..3] + "★" + "abc"[3..] == "abc★";
  }

  /** A mesh, then two text objects: the first text object alone changes. */
  lemma View3DExample()
    ensures var a := SceneObject("A", "MESH", "");
      var b := SceneObject("B", FontKind, "x");
      var c := SceneObject("C", FontKind, "y");
      var host := Host(View3D, Scene([a, b, c], None));
      Execute(host, "★") == Returned(Finished, Host(View3D, Scene([a, b.(body := "x★"), c], None)), Info(ObjectInfo))
  {
    var a := SceneObject("A", "MESH", "");
    var b := SceneObject("B", FontKind, "x");
    var c := SceneObject("C", FontKind, "y");
    assert [a, b, c][1..] == [b, c];
    assert FirstFont([a, b, c]) == Some(1);
    assert b.body + "★" == "x★";
  }
}

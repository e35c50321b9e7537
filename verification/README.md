# B Unicode: registry and insertion dispatcher in Dafny

B Unicode is a Blender add-on (one file, `B_Unicode/__init__.py`). It shows a
grid of Unicode symbols grouped by category and inserts the symbol the user
clicks into the active destination. Three editors are supported: the text
editor's open text, the active text strip of the video sequence editor, and
the body of a text (`FONT`) object in the 3D viewport.

This project models the two parts of the add-on that contain logic.

- `Registry` (`registry.dfy`) holds the category registry. It has the 25
  items of the `active_category` enum with their identifiers, display names
  and default. It has the table that `get_unicode_characters` consults,
  symbol for symbol. It defines `Lookup` (the `.get(category, [])`
  fallback) and the `[:100]` slice that the panel draws.
- `Panel` (`panel.dfy`) models the buttons `draw_unicode_panel` creates for
  the selected category.
- `Dispatcher` (`dispatcher.dfy`) models `InsertUnicodeOperator.execute` as a
  pure function `Execute(host, ch)`. The Blender state it reads and writes
  is an immutable `Host`: the active editor (a tagged union of text editor,
  sequence editor, 3D viewport or any other editor) and the scene (objects
  in scene order, optional sequence editor with its strips and active
  index). `Execute` returns an `Outcome`. That is either `Returned` with the
  operator's return value, the new host state and the report (`Silent`,
  `Info` or `Warning` with the exact message), or `Raised` with the Python
  exception.
- `Wrappers` (`wrappers.dfy`) holds the `Option` type.

Modelling choices:

- `Text.write` follows Blender's documented behaviour: it writes at the
  cursor and then advances the cursor to the end of the text block. The
  cursor is a flat offset `c`. The body becomes `body[..c] + ch + body[c..]`
  and the cursor becomes its length. A second insertion therefore appends.
- Two lines can raise `AttributeError`, and the model returns `Raised(...)`
  for both rather than mapping them to a warning:
  - line 77, when the context has no editor space (`Space.NoSpace`); the
    operator defines no `poll`, so a script can call it that way;
  - line 86, when the scene has no sequence editor.
- `Host.WellFormed` says that Blender's references are live: the active
  strip index lies within the strip list, and a text's cursor lies within
  its body. It also says that an `OtherSpace` carries a space type other
  than the three the operator compares against. `Execute` requires it and
  preserves it.
- Where a looser reading would be possible, the model follows the code:
  - A text editor with no open text does nothing and reports nothing.
  - A missing sequence editor raises rather than being skipped.
  - The only report the operator ever issues is one of three fixed
    messages.
  - The comment on line 24 says "first 50", but the code slices
    `[:100]`, so the display limit is 100.

## Model

| member | source | states |
|---|---|---|
| Registry.SelectorIdsAreKeys | B_Unicode/__init__.py:108-134 | every identifier of the category selector is a key of the symbol table |
| Registry.KeysAreSelectorIds | B_Unicode/__init__.py:141-168 | every key of the symbol table is an identifier of the selector, so the key set and the 25 identifiers coincide |
| Registry.GroupsFitPanel | B_Unicode/__init__.py:142-166 | every registered group is non-empty and has at most 100 symbols |
| Registry.SelectorIdsDistinct | B_Unicode/__init__.py:108-134 | no two selector items share an identifier |
| Registry.DefaultIsCategory | B_Unicode/__init__.py:107-135 | the default category "Symbols" is one of the selector identifiers |
| Registry.DefaultLookup | B_Unicode/__init__.py:135-142 | the default category looks up to the "Symbols" group of the table |
| Registry.Lookup | B_Unicode/__init__.py:140-169 | the result is non-empty exactly when the name is a selector identifier; an unknown name yields the empty list instead of failing |
| Registry.LookupIsExact | B_Unicode/__init__.py:169 | lookup is exact-match: another letter case ("symbols") or a trailing blank ("Symbols ") finds nothing |
| Registry.DisplayNameIsNotKey | B_Unicode/__init__.py:116-169 | the "Heart" item is displayed as "Heart Symbols", and that display name finds nothing in the table |
| Registry.DisplaySlice | B_Unicode/__init__.py:24 | the shown list is a prefix of the group, of length min(limit, group length) |
| Registry.WholeGroupShown | B_Unicode/__init__.py:20-24 | the 100-symbol cap never hides a registered symbol: the slice of any category is its whole group |
| Panel.Buttons | B_Unicode/__init__.py:18-25 | one button per shown symbol, in table order, at most 100; each is captioned with its symbol, calls `text.insert_unicode` and inserts that symbol |
| Panel.UnknownCategoryDrawsNothing | B_Unicode/__init__.py:19-25 | an unknown category draws an empty grid |
| Panel.EverySymbolHasButton | B_Unicode/__init__.py:23-25 | every symbol of the active category gets a button; the default settings offer the whole "Symbols" group |
| Dispatcher.Write | B_Unicode/__init__.py:82 | the text keeps everything before and after the cursor and holds the symbol at the cursor; the cursor then stands at the end of the text block; at the end of the text this is an append |
| Dispatcher.WriteTwice | B_Unicode/__init__.py:82 | writing `a` then `b` puts `a` at the cursor and `b` after the whole text, with the cursor at the end |
| Dispatcher.ActiveTextStrip | B_Unicode/__init__.py:86-87 | a strip is selected exactly when there is an active strip of type `TEXT`, and it is the active one |
| Dispatcher.AppendToStrip | B_Unicode/__init__.py:88 | the chosen strip's text becomes old text + symbol; every other strip and the active index are kept |
| Dispatcher.FirstFont | B_Unicode/__init__.py:93-96 | the result is the position of a `FONT` object with no `FONT` object before it, or none when the scene has no `FONT` object |
| Dispatcher.TextObjects | B_Unicode/__init__.py:93 | the comprehension keeps only `FONT` objects taken from the scene, and keeps every `FONT` object of the scene |
| Dispatcher.FontPositions | B_Unicode/__init__.py:93 | the positions it lists are strictly increasing, each holds a `FONT` object, and every `FONT` position from the start index on is listed |
| Dispatcher.TextObjectsAtFontPositions | B_Unicode/__init__.py:93 | `text_objects` is the scene's objects at the `FONT` positions, in scene order: its `i`-th element is the object at the `i`-th `FONT` position |
| Dispatcher.TextObjectsAppend | B_Unicode/__init__.py:93 | the comprehension over a concatenation is the concatenation of the comprehensions |
| Dispatcher.FirstFontIsHeadOfTextObjects | B_Unicode/__init__.py:93-96 | a first `FONT` object exists exactly when `text_objects` is non-empty, and it is `text_objects[0]` |
| Dispatcher.SameTextObjectsSameTarget | B_Unicode/__init__.py:93-96 | two scenes with the same `FONT` objects in the same order send the symbol to the same object |
| Dispatcher.UnrelatedObjectKeepsTarget | B_Unicode/__init__.py:93-96 | inserting a non-`FONT` object anywhere in the scene does not change the target |
| Dispatcher.FirstFontSeesOnlyKinds | B_Unicode/__init__.py:93 | only the objects' type tags decide the target position |
| Dispatcher.AppendToObject | B_Unicode/__init__.py:97 | the chosen object's body becomes old body + symbol; every other object is kept |
| Dispatcher.Execute | B_Unicode/__init__.py:75-101 | it raises exactly when there is no editor space (line 77) or in a sequence editor whose scene has no sequence editor (line 86), with the matching `AttributeError`; otherwise it always returns FINISHED with a well-formed state; it reports Info exactly in the 3D viewport with a `FONT` object, and Warning exactly for a missing or non-`TEXT` active strip or a viewport without `FONT` objects; a warning leaves the state unchanged |
| Dispatcher.TextEditorBranch | B_Unicode/__init__.py:78-82 | in the text editor a present text receives the symbol at its cursor, the scene is kept, no text means no change, and nothing is reported |
| Dispatcher.SequenceEditorBranch | B_Unicode/__init__.py:83-90 | an active `TEXT` strip gets the symbol appended while other strips, the active index, the objects and the editor are kept; otherwise the strip warning is reported and nothing changes |
| Dispatcher.NoSpaceRaises | B_Unicode/__init__.py:77 | without an editor space, reading its type raises `AttributeError` |
| Dispatcher.SequenceEditorMissing | B_Unicode/__init__.py:85-86 | a scene without a sequence editor makes the operator raise `AttributeError` |
| Dispatcher.View3DBranch | B_Unicode/__init__.py:91-98 | only the first `FONT` object gets the symbol appended to its body; earlier and later objects, the sequence editor and the editor are kept; the Info message is reported |
| Dispatcher.View3DNoFont | B_Unicode/__init__.py:94-100 | with no `FONT` object the object warning is reported and nothing changes |
| Dispatcher.OtherSpaceBranch | B_Unicode/__init__.py:77-101 | in an editor whose type is none of `TEXT_EDITOR`, `SEQUENCE_EDITOR` and `VIEW_3D` the operator returns FINISHED silently and changes nothing |
| Dispatcher.View3DRepeat | B_Unicode/__init__.py:93-97 | two insertions in the 3D viewport append both symbols, in order, to the same object |
| Dispatcher.TextEditorExample | B_Unicode/__init__.py:80-82 | a text "abc" with the cursor at its end becomes "abc★" |
| Dispatcher.View3DExample | B_Unicode/__init__.py:93-98 | in the scene [mesh A, text B, text C] only B receives the symbol, and Info is reported |

## Left out

- Panel classes, `draw` methods, the row and grid layout calls,
  `register`/`unregister` and the `bpy.props` declarations (lines 13-17,
  28-65 and 172-192). These are Blender UI wiring with no logic of their own.
- The internals of Blender's `Text.write`. Selections, line/column cursors and
  undo are not modelled. The cursor is a flat offset into the body.
- Curve data shared between several `FONT` objects. Each object owns its
  body, so appending to one object never shows up in another.
- Line 93 reads `bpy.context.scene` where the other branches read
  `context.scene`. The model treats both as the same scene.
- Stale references. An active strip removed between lookup and use is not
  modelled: `Host.WellFormed` requires live references.
- Rendering and grapheme segmentation. Symbols are opaque strings. Duplicates
  inside a group (for example in "Face Emojis") are kept as written, and no
  property is stated about them.
- How Blender displays reports. A report is only a value of the outcome.

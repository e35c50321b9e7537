/** The logic inside `draw_unicode_panel` (B_Unicode/__init__.py, lines
    13-25): which buttons the panel offers for the selected category. The
    layout calls themselves (rows, the five-column grid) are not modelled. */
module Panel {
  import opened Registry

  /** The scene's `unicode_settings` property group: the selected category. */
  datatype Settings = Settings(activeCategory: Category)

  /** Settings as Blender first creates them: the enum's default item. */
  const DefaultSettings: Settings := Settings(DefaultCategory)

  /** The operator every grid button invokes (line 70). */
  const InsertOperatorId: string := "text.insert_unicode"

  /** One grid button: its caption, the operator it calls, and the symbol it
      stores in the operator's `unicode_char` property. */
  datatype Button = Button(text: string, operatorId: string, unicodeChar: Symbol)

  /** The buttons drawn for `settings`: one per symbol of the capped slice of
      the active category, in table order, each captioned with its symbol and
      inserting exactly that symbol. */
  function Buttons(settings: Settings): (buttons: seq<Button>)
    ensures var group := Lookup(settings.activeCategory);
      && |buttons| == (if |group| < DisplayLimit then |group| else DisplayLimit)
      && forall i :: 0 <= i < |buttons| ==>
           && buttons[i].text == group[i]
           && buttons[i].unicodeChar == group[i]
           && buttons[i].operatorId == InsertOperatorId
  {
    var shown := DisplaySlice(Lookup(settings.activeCategory), DisplayLimit);
    seq(|shown|, i requires 0 <= i < |shown| => Button(shown[i], InsertOperatorId, shown[i]))
  }

  /** An unknown category draws an empty grid rather than failing. */
  lemma UnknownCategoryDrawsNothing(settings: Settings)
    requires !IsCategory(settings.activeCategory)
    ensures Buttons(settings) == []
  {
  }

  /** Every symbol of the active category gets a button, and the panel with
      default settings offers the whole "Symbols" group. */
  lemma EverySymbolHasButton(settings: Settings)
    ensures |Buttons(settings)| == |Lookup(settings.activeCategory)|
    ensures settings == DefaultSettings ==> |Buttons(settings)| == |SymbolsGroup|
  {
    if settings == DefaultSettings {
      DefaultLookup();
    }
  }
}

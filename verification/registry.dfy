/** The category-to-symbol registry of the B Unicode add-on
    (B_Unicode/__init__.py): the items of the category selector, the fixed
    table that `get_unicode_characters` looks categories up in, and the capped
    slice of a category that the panel draws. */
module Registry {

  /** A symbol is opaque text: one code point or a multi-code-point emoji
      sequence (variation selectors and zero-width joiners included). */
  type Symbol = string

  /** A category identifier. Lookups match it exactly: no case folding,
      trimming or normalisation. */
  type Category = string

  /** One item of the `active_category` enum property: identifier, the name
      shown in the selector, and a (here always empty) description. */
  datatype EnumItem = EnumItem(identifier: Category, name: string, description: string)

  /** The selector's items, in selector order (lines 108-134). */
  const CategoryItems: seq<EnumItem> := [
    EnumItem("Symbols", "Symbols", ""),
    EnumItem("Greek Letters", "Greek Letters", ""),
    EnumItem("Math Operators", "Math Operators", ""),
    EnumItem("Currency", "Currency", ""),
    EnumItem("Arrow & Bracket", "Arrow & Bracket", ""),
    EnumItem("Ballot & Marks", "Ballot & Marks", ""),
    EnumItem("Roman Numerals", "Roman Numerals", ""),
    EnumItem("Heart", "Heart Symbols", ""),
    EnumItem("Musical", "Musical Symbols", ""),
    EnumItem("Hand Emojis", "Hand Emojis", ""),
    EnumItem("Face Emojis", "Face Emojis", ""),
    EnumItem("Plants", "Plants", ""),
    EnumItem("Weather", "Weather", ""),
    EnumItem("Fruits", "Fruits", ""),
    EnumItem("Vegetables", "Vegetables", ""),
    EnumItem("Food & Drink", "Food & Drink", ""),
    EnumItem("Animal & Nature", "Animal & Nature", ""),
    EnumItem("Space & Celestial", "Space & Celestial", ""),
    EnumItem("Technology", "Technology", ""),
    EnumItem("Vehicles", "Vehicles", ""),
    EnumItem("Card & Chess", "Card & Chess", ""),
    EnumItem("Games", "Games", ""),
    EnumItem("Building", "Building", ""),
    EnumItem("House & Office", "House & Office", ""),
    EnumItem("Other", "Other", "")
  ]

  /** The selector's default item (line 135). */
  const DefaultCategory: Category := "Symbols"

  /** The panel draws at most this many symbols of the active category (line 24). */
  const DisplayLimit: nat := 100

  /** The groups of the table, one per key, in table order. */
  datatype Group =
    | Symbols
    | HandEmojis
    | FaceEmojis
    | Plants
    | Weather
    | Fruits
    | Vegetables
    | FoodAndDrink
    | AnimalAndNature
    | SpaceAndCelestial
    | Technology
    | Vehicles
    | GreekLetters
    | MathOperators
    | Currency
    | ArrowAndBracket
    | BallotAndMarks
    | RomanNumerals
    | Heart
    | Musical
    | CardAndChess
    | Games
    | Building
    | HouseAndOffice
    | Other

  /** The symbols of each group as the table lists them (lines 142-166),
      duplicates kept. */
  function Members(g: Group): seq<Symbol> {
    match g
    case Symbols => SymbolsGroup
    case HandEmojis => HandEmojisGroup
    case FaceEmojis => FaceEmojisGroup
    case Plants => PlantsGroup
    case Weather => WeatherGroup
    case Fruits => FruitsGroup
    case Vegetables => VegetablesGroup
    case FoodAndDrink => FoodAndDrinkGroup
    case AnimalAndNature => AnimalAndNatureGroup
    case SpaceAndCelestial => SpaceAndCelestialGroup
    case Technology => TechnologyGroup
    case Vehicles => VehiclesGroup
    case GreekLetters => GreekLettersGroup
    case MathOperators => MathOperatorsGroup
    case Currency => CurrencyGroup
    case ArrowAndBracket => ArrowAndBracketGroup
    case BallotAndMarks => BallotAndMarksGroup
    case RomanNumerals => RomanNumeralsGroup
    case Heart => HeartGroup
    case Musical => MusicalGroup
    case CardAndChess => CardAndChessGroup
    case Games => GamesGroup
    case Building => BuildingGroup
    case HouseAndOffice => HouseAndOfficeGroup
    case Other => OtherGroup
  }

  // line 142
  const SymbolsGroup: seq<Symbol> := [
    "©", "®", "™", "♱", "☽", "☭", "卍", "☢", "⚑", "☮", "☯", "⚠",
    "⚒", "⚓", "⚔", "⚛", "☣", "⌚", "⌛", "👀", "💢", "☘", "∞", "🐾",
    "💋", "👣", "☠", "💀", "👻", "🎃", "👑"
  ]

  // line 143
  const HandEmojisGroup: seq<Symbol> := [
    "👋", "🤚", "✋", "🖐️", "👏", "🤲", "👌", "✌️", "🤞", "🤟", "🤘", "👈",
    "👉", "👆", "👇", "👍", "👎"
  ]

  // line 144
  const FaceEmojisGroup: seq<Symbol> := [
    "😀", "😁", "😂", "🤣", "😃", "😄", "😅", "😆", "😇", "😈", "😉", "😊",
    "😋", "😌", "😍", "😘", "😗", "😙", "😚", "😜", "😝", "😛", "😎", "😏",
    "😒", "😓", "😔", "😕", "😖", "😗", "😙", "😚", "😜", "😝", "😛", "😋",
    "😇", "😎", "🤓", "😏", "😺", "🙃", "🥺", "🤗", "🤭", "🤫", "🤔", "🤐",
    "😶", "😏", "😵", "🤯", "🤠", "😷", "🤒", "🤕", "🤢", "🤧", "😇", "😔"
  ]

  // line 145
  const PlantsGroup: seq<Symbol> := [
    "🌸", "🌺", "🌻", "🌼", "🌷", "🌹", "🥀", "💐", "🌾", "🌱", "🌿", "🍀",
    "🍁", "🍂", "🍃", "🌳", "🌲", "🎄", "🌴", "🌵"
  ]

  // line 146
  const WeatherGroup: seq<Symbol> := [
    "☀️", "🌤️", "⛅", "🌥️", "☁️", "🌦️", "🌧️", "⛈️", "🌩️", "🌨️", "🌪️", "🌫️",
    "🌬️", "❄️", "☃️", "⛄", "🌨️", "🧊", "💦", "💧", "🌈", "⚡", "🔥", "💥",
    "💨", "🌡️"
  ]

  // line 147
  const FruitsGroup: seq<Symbol> := [
    "🍎", "🍏", "🍐", "🍊", "🍋", "🍌", "🍉", "🍇", "🍓", "🍈", "🍒", "🍑",
    "🥭", "🍍", "🥥", "🥝", "🍅"
  ]

  // line 148
  const VegetablesGroup: seq<Symbol> := [
    "🥕", "🌽", "🥒", "🥬", "🥦", "🧄", "🧅", "🍆", "🍠", "🥔", "🌶️"
  ]

  // line 149
  const FoodAndDrinkGroup: seq<Symbol> := [
    "🍔", "🍟", "🍕", "🌭", "🌮", "🌯", "🥗", "🥙", "🍲", "🍜", "🍝", "🥘",
    "🥩", "🍖", "🍗", "🍤", "🍳", "🥞", "🧇", "🥓", "🧀", "🥐", "🥖", "🥨",
    "🥯", "🍞", "🧈", "🧂", "🍿", "🍩", "🍪", "🎂", "🍰", "🧁", "🥧", "🍫",
    "🍬", "🍭", "🍮", "🍯", "🍼", "🥤", "☕", "🍵", "🍶", "🍹", "🍸", "🍺",
    "🍻", "🥂", "🍾"
  ]

  // line 150
  const AnimalAndNatureGroup: seq<Symbol> := [
    "🐶", "🐱", "🐭", "🐹", "🐰", "🦊", "🐻", "🐼", "🐨", "🐯", "🦁", "🐮",
    "🐷", "🐸", "🐵", "🐔", "🐧", "🐦", "🐤", "🐣", "🐥", "🦆", "🦅", "🦉",
    "🦇", "🐺", "🐗", "🐴", "🦄", "🐝", "🐛", "🦋", "🐌", "🐞", "🐜", "🪲",
    "🐢", "🐍", "🦎", "🐙", "🦑", "🦐", "🦀", "🐡", "🐠", "🐟", "🐳", "🐋",
    "🦈", "🐊", "🦧", "🦍", "🦓", "🦒", "🐆", "🐅", "🐘", "🦏", "🦛", "🐪",
    "🐫", "🦙", "🦘", "🐃", "🐂", "🐄", "🐎", "🐖", "🐏", "🐑", "🦌", "🐕",
    "🐩", "🦮", "🐕‍🦺", "🐈", "🐓", "🦃", "🦚", "🦜", "🦢", "🦩", "🕊", "🐇",
    "🐁", "🐀", "🐿", "🦔", "🐉", "🐲"
  ]

  // line 151
  const SpaceAndCelestialGroup: seq<Symbol> := [
    "🌌", "🌠", "🌇", "🌅", "🌄", "🌉", "🌃", "🌆", "🌗", "🌖", "🌕", "🌔",
    "🌓", "🌒", "🌑", "🌘", "🌎", "🌍", "🌏", "🌙", "☀️", "⭐", "🌟", "✨",
    "🌞", "🌝", "🌚", "🌛", "🌜", "☄️", "🌠", "🪐"
  ]

  // line 152
  const TechnologyGroup: seq<Symbol> := [
    "💻", "🖥️", "🖨️", "⌨️", "🖱️", "🖲️", "💽", "💾", "💿", "📀", "🎥", "📷",
    "📹", "📺", "📻", "📱", "📲", "☎️", "📞", "📟", "📠", "🔋", "🔌", "💡",
    "🔦", "🕹️", "🖼️", "🪟", "💰", "💵", "💴", "💶", "💷", "💳"
  ]

  // line 153
  const VehiclesGroup: seq<Symbol> := [
    "🚗", "🚕", "🚙", "🚌", "🚎", "🏎️", "🚓", "🚑", "🚒", "🚐", "🚚", "🚛",
    "🚜", "🚲", "🛴", "🛵", "🏍️", "🛺", "✈️", "🛫", "🛬", "🛩️", "🚁", "🛸",
    "🛶", "🚀", "🛰️", "🚢", "⛴️", "🛳️", "⛵", "🚤", "🛥️", "🛶", "⛽", "🚂",
    "🚃", "🚄", "🚅", "🚆", "🚇", "🚛", "🚜", "🛹", "🚡", "🚠", "🚟"
  ]

  // line 154
  const GreekLettersGroup: seq<Symbol> := [
    "α", "β", "γ", "δ", "ε", "ζ", "η", "θ", "ι", "κ", "λ", "μ",
    "ν", "ξ", "ο", "π", "ρ", "σ", "τ", "υ", "φ", "χ", "ψ", "ω",
    "Α", "Β", "Γ", "Δ", "Ε", "Ζ", "Η", "Θ", "Ι", "Κ", "Λ", "Μ",
    "Ν", "Ξ", "Ο", "Π", "Ρ", "Σ", "Τ", "Υ", "Φ", "Χ", "Ψ", "Ω"
  ]

  // line 155
  const MathOperatorsGroup: seq<Symbol> := [
    "∞", "π", "∑", "√", "≈", "≠", "≡", "±", "∓", "≡", "≪", "≫",
    "∏", "∂", "∇", "∫", "∮", "∝", "∩", "∪", "⊂", "⊃", "⊆", "⊇",
    "⊥", "∠", "∼", "≺", "≻", "⊕", "⊗", "⊥", "≻"
  ]

  // line 156
  const CurrencyGroup: seq<Symbol> := [
    "$", "€", "£", "¥", "₹", "₣", "₤", "₣", "₽", "₳", "฿", "￠",
    "₡", "₢", "₫", "₦", "₱", "¤", "₴", "₸", "₰", "៛", "₪", "₪",
    "₠", "﷼", "円", "元", "圓", "㍐", "원", "৳", "৲", "₮"
  ]

  // line 157
  const ArrowAndBracketGroup: seq<Symbol> := [
    "←", "↑", "→", "↓", "↔️", "↕️", "🔼", "🔽", "↗", "↖", "↘", "↙",
    "➔", "➞", "➝", "⇄", "⇅", "〈", "〉", "❪", "❫", "❰", "❱", "❲",
    "❳", "⟦", "⟧", "⧼", "⧽", "⸨", "⸩", "❮", "❯", "⟪", "⟫", "⦑",
    "⦒", "︽", "︾"
  ]

  // line 158
  const BallotAndMarksGroup: seq<Symbol> := [
    "⬛", "♦", "🔶", "🔸", "🔘", "ℹ", "■", "□", "☑", "☒", "✓", "✔",
    "✅", "𝤿", "✗", "❌", "❎", "•", "∙", "⊙", "⊚", "⊛", "◉", "○",
    "◌", "◍", "◎", "●", "◘", "◦", "。", "⁌", "⁍", "◆", "◇", "◈",
    "★", "☆", "❖", "⋄", "☸", "✤", "✱", "✲", "✦", "✧"
  ]

  // line 159
  const RomanNumeralsGroup: seq<Symbol> := [
    "Ⅰ", "Ⅱ", "Ⅲ", "Ⅳ", "Ⅴ", "Ⅵ", "Ⅶ", "Ⅷ", "Ⅸ", "Ⅹ", "Ⅺ", "Ⅻ",
    "Ⅼ", "Ⅽ", "Ⅾ", "Ⅿ"
  ]

  // line 160
  const HeartGroup: seq<Symbol> := [
    "❦", "♡", "❤", "❤️", "💔", "💝", "💓", "💕", "💖", "💗", "💞", "💘",
    "💙", "🫀", "💟", "💑", "💏", "❧", "☙", "❥", "❣", "➳", "ღ", "🎔",
    "💌"
  ]

  // line 161
  const MusicalGroup: seq<Symbol> := [
    "♩", "♪", "♬", "♭", "♮", "🎶", "🎵", "♫", "🎼", "🎤", "🎧", "🎷",
    "🎸", "🎹", "🎺", "🎻", "🥁", "🔔", "🔊", "📯", "🎛", "🎚", "🎙", "📻"
  ]

  // line 162
  const CardAndChessGroup: seq<Symbol> := [
    "♠", "♣", "♥", "♦", "♔", "♕", "♖", "♗", "♘", "♙", "♚", "♛",
    "♜", "♝", "♞", "♟"
  ]

  // line 163
  const GamesGroup: seq<Symbol> := [
    "⚽", "🏀", "🏈", "⚾", "🎾", "🏐", "🎱", "🏓", "🥌", "🏏", "🎳", "🎲",
    "🧩", "🪀", "🎯", "🎮", "🧸"
  ]

  // line 164
  const BuildingGroup: seq<Symbol> := [
    "🏠", "🏡", "🏢", "🏣", "🏥", "🏦", "🏨", "🏩", "🏪", "🏬", "🏛", "💒",
    "🎪"
  ]

  // line 165
  const HouseAndOfficeGroup: seq<Symbol> := [
    "🛋", "🛏", "🪑", "🚪", "🚽", "🧻", "🧴", "🧼", "🛁", "🚿", "🧹", "🧺",
    "🛒", "🖊", "🖋", "✒", "📚", "📖", "📎", "📌", "📏", "📐", "🗂", "📄",
    "📅", "📉", "📊", "📈"
  ]

  // line 166
  const OtherGroup: seq<Symbol> := [
    "🦠", "🚰", "💉", "💊", "🚦", "🚥", "🔮", "🎉", "🎊", "🎂", "🎁", "🎈",
    "💡", "🎇", "💫", "🎆", "🏳", "🏴", "🏳️‍🌈", "🏳️", "🏴‍☠️"
  ]

  /** `unicode_categories` (lines 141-168): each key, matched exactly, names
      its group. */
  const Table: map<Category, Group> := map[
    "Symbols" := Symbols,
    "Hand Emojis" := HandEmojis,
    "Face Emojis" := FaceEmojis,
    "Plants" := Plants,
    "Weather" := Weather,
    "Fruits" := Fruits,
    "Vegetables" := Vegetables,
    "Food & Drink" := FoodAndDrink,
    "Animal & Nature" := AnimalAndNature,
    "Space & Celestial" := SpaceAndCelestial,
    "Technology" := Technology,
    "Vehicles" := Vehicles,
    "Greek Letters" := GreekLetters,
    "Math Operators" := MathOperators,
    "Currency" := Currency,
    "Arrow & Bracket" := ArrowAndBracket,
    "Ballot & Marks" := BallotAndMarks,
    "Roman Numerals" := RomanNumerals,
    "Heart" := Heart,
    "Musical" := Musical,
    "Card & Chess" := CardAndChess,
    "Games" := Games,
    "Building" := Building,
    "House & Office" := HouseAndOffice,
    "Other" := Other
  ]

  /** The identifier of the selector's `i`-th item. */
  function SelectorId(i: nat): Category
    requires i < |CategoryItems|
  {
    CategoryItems[i].identifier
  }

  /** True when `c` is the identifier of one of the selector's items. */
  predicate IsCategory(c: Category) {
    exists i :: 0 <= i < |CategoryItems| && SelectorId(i) == c
  }

  /** Every selector identifier is a key of the table. */
  lemma SelectorIdsAreKeys()
    ensures forall i :: 0 <= i < |CategoryItems| ==> SelectorId(i) in Table
  {
  }

  /** The table's keys spelled out in table order, five at a time; used
      only in proofs. */
  ghost const KeysPart1: set<Category> := {"Symbols", "Hand Emojis", "Face Emojis", "Plants", "Weather"}
  ghost const KeysPart2: set<Category> := {"Fruits", "Vegetables", "Food & Drink", "Animal & Nature", "Space & Celestial"}
  ghost const KeysPart3: set<Category> := {"Technology", "Vehicles", "Greek Letters", "Math Operators", "Currency"}
  ghost const KeysPart4: set<Category> := {"Arrow & Bracket", "Ballot & Marks", "Roman Numerals", "Heart", "Musical"}
  ghost const KeysPart5: set<Category> := {"Card & Chess", "Games", "Building", "House & Office", "Other"}

  lemma TableKeysSpelledOut()
    ensures Table.Keys == KeysPart1 + KeysPart2 + KeysPart3 + KeysPart4 + KeysPart5
  {
  }

  lemma KeysPart1AreSelectorIds()
    ensures forall c :: c in KeysPart1 ==> IsCategory(c)
  {
    forall c | c in KeysPart1
      ensures IsCategory(c)
    {
      if c == "Symbols" {
        assert SelectorId(0) == c;
      } else if c == "Hand Emojis" {
        assert SelectorId(9) == c;
      } else if c == "Face Emojis" {
        assert SelectorId(10) == c;
      } else if c == "Plants" {
        assert SelectorId(11) == c;
      } else if c == "Weather" {
        assert SelectorId(12) == c;
      }
    }
  }

  lemma KeysPart2AreSelectorIds()
    ensures forall c :: c in KeysPart2 ==> IsCategory(c)
  {
    forall c | c in KeysPart2
      ensures IsCategory(c)
    {
      if c == "Fruits" {
        assert SelectorId(13) == c;
      } else if c == "Vegetables" {
        assert SelectorId(14) == c;
      } else if c == "Food & Drink" {
        assert SelectorId(15) == c;
      } else if c == "Animal & Nature" {
        assert SelectorId(16) == c;
      } else if c == "Space & Celestial" {
        assert SelectorId(17) == c;
      }
    }
  }

  lemma KeysPart3AreSelectorIds()
    ensures forall c :: c in KeysPart3 ==> IsCategory(c)
  {
    forall c | c in KeysPart3
      ensures IsCategory(c)
    {
      if c == "Technology" {
        assert SelectorId(18) == c;
      } else if c == "Vehicles" {
        assert SelectorId(19) == c;
      } else if c == "Greek Letters" {
        assert SelectorId(1) == c;
      } else if c == "Math Operators" {
        assert SelectorId(2) == c;
      } else if c == "Currency" {
        assert SelectorId(3) == c;
      }
    }
  }

  lemma KeysPart4AreSelectorIds()
    ensures forall c :: c in KeysPart4 ==> IsCategory(c)
  {
    forall c | c in KeysPart4
      ensures IsCategory(c)
    {
      if c == "Arrow & Bracket" {
        assert SelectorId(4) == c;
      } else if c == "Ballot & Marks" {
        assert SelectorId(5) == c;
      } else if c == "Roman Numerals" {
        assert SelectorId(6) == c;
      } else if c == "Heart" {
        assert SelectorId(7) == c;
      } else if c == "Musical" {
        assert SelectorId(8) == c;
      }
    }
  }

  lemma KeysPart5AreSelectorIds()
    ensures forall c :: c in KeysPart5 ==> IsCategory(c)
  {
    forall c | c in KeysPart5
      ensures IsCategory(c)
    {
      if c == "Card & Chess" {
        assert SelectorId(20) == c;
      } else if c == "Games" {
        assert SelectorId(21) == c;
      } else if c == "Building" {
        assert SelectorId(22) == c;
      } else if c == "House & Office" {
        assert SelectorId(23) == c;
      } else if c == "Other" {
        assert SelectorId(24) == c;
      }
    }
  }

  /** Every key of the table is a selector identifier. */
  lemma KeysAreSelectorIds()
    ensures forall c :: c in Table ==> IsCategory(c)
  {
    TableKeysSpelledOut();
    KeysPart1AreSelectorIds();
    KeysPart2AreSelectorIds();
    KeysPart3AreSelectorIds();
    KeysPart4AreSelectorIds();
    KeysPart5AreSelectorIds();
  }

  lemma GroupsPart1FitPanel()
    ensures 0 < |SymbolsGroup| <= DisplayLimit
    ensures 0 < |HandEmojisGroup| <= DisplayLimit
    ensures 0 < |FaceEmojisGroup| <= DisplayLimit
    ensures 0 < |PlantsGroup| <= DisplayLimit
    ensures 0 < |WeatherGroup| <= DisplayLimit
  {
  }

  lemma GroupsPart2FitPanel()
    ensures 0 < |FruitsGroup| <= DisplayLimit
    ensures 0 < |VegetablesGroup| <= DisplayLimit
    ensures 0 < |FoodAndDrinkGroup| <= DisplayLimit
    ensures 0 < |AnimalAndNatureGroup| <= DisplayLimit
    ensures 0 < |SpaceAndCelestialGroup| <= DisplayLimit
  {
  }

  lemma GroupsPart3FitPanel()
    ensures 0 < |TechnologyGroup| <= DisplayLimit
    ensures 0 < |VehiclesGroup| <= DisplayLimit
    ensures 0 < |GreekLettersGroup| <= DisplayLimit
    ensures 0 < |MathOperatorsGroup| <= DisplayLimit
    ensures 0 < |CurrencyGroup| <= DisplayLimit
  {
  }

  lemma GroupsPart4FitPanel()
    ensures 0 < |ArrowAndBracketGroup| <= DisplayLimit
    ensures 0 < |BallotAndMarksGroup| <= DisplayLimit
    ensures 0 < |RomanNumeralsGroup| <= DisplayLimit
    ensures 0 < |HeartGroup| <= DisplayLimit
    ensures 0 < |MusicalGroup| <= DisplayLimit
  {
  }

  lemma GroupsPart5FitPanel()
    ensures 0 < |CardAndChessGroup| <= DisplayLimit
    ensures 0 < |GamesGroup| <= DisplayLimit
    ensures 0 < |BuildingGroup| <= DisplayLimit
    ensures 0 < |HouseAndOfficeGroup| <= DisplayLimit
    ensures 0 < |OtherGroup| <= DisplayLimit
  {
  }

  /** Every group is non-empty and fits the panel. */
  lemma GroupsFitPanel()
    ensures forall g: Group :: 0 < |Members(g)| <= DisplayLimit
  {
    GroupsPart1FitPanel();
    GroupsPart2FitPanel();
    GroupsPart3FitPanel();
    GroupsPart4FitPanel();
    GroupsPart5FitPanel();
    forall g: Group
      ensures 0 < |Members(g)| <= DisplayLimit
    {
      match g
      case Symbols =>
      case HandEmojis =>
      case FaceEmojis =>
      case Plants =>
      case Weather =>
      case Fruits =>
      case Vegetables =>
      case FoodAndDrink =>
      case AnimalAndNature =>
      case SpaceAndCelestial =>
      case Technology =>
      case Vehicles =>
      case GreekLetters =>
      case MathOperators =>
      case Currency =>
      case ArrowAndBracket =>
      case BallotAndMarks =>
      case RomanNumerals =>
      case Heart =>
      case Musical =>
      case CardAndChess =>
      case Games =>
      case Building =>
      case HouseAndOffice =>
      case Other =>
    }
  }

  /** `get_unicode_characters`: the group registered for `category`, or the
      empty list for a name that is not a key (the `.get(category, [])`
      fallback); an unknown name never fails. */
  function Lookup(category: Category): (symbols: seq<Symbol>)
    ensures symbols != [] <==> IsCategory(category)
    ensures !IsCategory(category) ==> symbols == []
    ensures |symbols| <= DisplayLimit
  {
    SelectorIdsAreKeys();
    KeysAreSelectorIds();
    GroupsFitPanel();
    if category in Table then Members(Table[category]) else []
  }

  /** The `[:limit]` slice: the first `limit` symbols, or all of them when
      there are fewer. */
  function DisplaySlice(symbols: seq<Symbol>, limit: nat): (shown: seq<Symbol>)
    ensures shown <= symbols
    ensures |shown| == if |symbols| < limit then |symbols| else limit
  {
    if |symbols| <= limit then symbols else symbols[..limit]
  }

  /** The default category is a selector identifier. */
  lemma DefaultIsCategory()
    ensures IsCategory(DefaultCategory)
  {
    assert SelectorId(0) == DefaultCategory;
  }

  /** The default category looks up to the "Symbols" group. */
  lemma DefaultLookup()
    ensures Lookup(DefaultCategory) == SymbolsGroup
  {
    assert DefaultCategory in Table && Table[DefaultCategory] == Symbols;
  }

  /** Keys match exactly: a different letter case or a trailing blank finds
      nothing. */
  lemma LookupIsExact()
    ensures Lookup("symbols") == []
    ensures Lookup("Symbols ") == []
  {
    assert "symbols" !in Table;
    assert "Symbols " !in Table;
  }

  /** The selector's display name is not a key: "Heart Symbols" finds
      nothing although the "Heart" item is displayed under that name. */
  lemma DisplayNameIsNotKey()
    ensures CategoryItems[7].identifier == "Heart" && CategoryItems[7].name == "Heart Symbols"
    ensures Lookup("Heart Symbols") == []
  {
    assert "Heart Symbols" !in Table;
  }

  /** No two selector items share an identifier. */
  lemma SelectorIdsDistinct()
    ensures forall i, j :: 0 <= i < j < |CategoryItems| ==> SelectorId(i) != SelectorId(j)
  {
  }

  /** Every group fits under the display limit, so the panel's slice of any
      category is the whole group: the cap never hides a registered symbol. */
  lemma WholeGroupShown(category: Category)
    ensures DisplaySlice(Lookup(category), DisplayLimit) == Lookup(category)
  {
  }
}

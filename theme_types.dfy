/**
  The vocabulary of the theme engine: palette colour names, legacy colour
  names, the semantic colour schema (categories and their slots), theme
  variants and the shape of a resolved theme.
 */
module ThemeTypes {
  import opened Strings

  // ---------------------------------------------------------------------
  // Palette colour names, in the three groups the palette is declared in.
  // ---------------------------------------------------------------------

  /** The core Voyager colours. */
  const CoreColorNames: set<string> :=
    {"orange", "mango", "lilac", "purple", "brick", "naples", "paleBlue",
     "skyBlue", "bigBlue", "gray"}

  /** The extended palette. */
  const ExtendedColorNames: set<string> :=
    {"evening", "midnight", "cool", "honey", "cardinal", "tangerine", "green",
     "galaxy", "ghost", "moonshine", "wheat", "roseblush"}

  /** The additional LCARS colours. */
  const AdditionalColorNames: set<string> :=
    {"mars", "martian", "ice", "gold", "peach", "butterscotch", "tomato",
     "violet", "african-violet", "almond", "almond-creme", "bluey", "sky",
     "sunflower", "magenta", "violet-creme", "space-white", "goldfinch",
     "camel", "candlelight", "evening-shade", "dandelion",
     "gold-pressed-latinum", "rust", "tamarillo", "twilight", "ocean",
     "pacific", "pumpkin", "sage", "sandy-desert", "text-block", "viol",
     "wisteria"}

  /** Every LCARS palette colour name. */
  const LcarsColorNames: set<string> :=
    CoreColorNames + ExtendedColorNames + AdditionalColorNames

  /** The three pre-semantic colour names kept for backward compatibility. */
  const LegacyColorNames: set<string> := {"main", "alt1", "alt2"}

  /** A name accepted wherever a theme colour is named. */
  predicate IsThemeColor(name: string) {
    name in LcarsColorNames || name in LegacyColorNames
  }

  // ---------------------------------------------------------------------
  // The semantic colour schema.
  // ---------------------------------------------------------------------

  const FrameSlots: seq<string> :=
    ["primary", "secondary", "accent", "divider", "corner", "sidebar", "topbar"]
  const ActionSlots: seq<string> :=
    ["primary", "primaryHover", "primaryActive", "secondary", "secondaryHover",
     "secondaryActive", "disabled", "focus"]
  const NavigationSlots: seq<string> :=
    ["item", "itemHover", "itemActive", "itemDisabled", "indicator", "breadcrumb"]
  const StatusSlots: seq<string> :=
    ["info", "infoLight", "success", "successLight", "warning", "warningLight",
     "warningCritical", "error", "errorLight", "errorCritical", "neutral"]
  const ContentSlots: seq<string> :=
    ["primary", "secondary", "tertiary", "inverse", "link", "linkHover",
     "linkVisited", "code", "heading"]
  const BackgroundSlots: seq<string> :=
    ["base", "elevated", "elevatedHigher", "depressed", "overlay", "stripe"]
  const DataSlots: seq<string> :=
    ["series1", "series2", "series3", "series4", "series5", "positive",
     "negative", "neutral"]
  const LcarsSlots: seq<string> :=
    ["sweep", "elbow", "pill", "bracket", "terminal", "hologram", "alert", "caution"]
  const InterfaceSlots: seq<string> := ["active", "inactive", "hover", "pressed"]
  const SystemSlots: seq<string> := ["success", "warning", "error", "info"]

  /** The eight categories every semantic mapping must provide. */
  const RequiredCategories: seq<string> :=
    ["frame", "action", "navigation", "status", "content", "background", "data", "lcars"]

  /** The two deprecated categories a mapping may omit. */
  const LegacyCategories: seq<string> := ["interface", "system"]

  /** The slots the schema declares for a category; none for an unknown one. */
  function SlotsOf(category: string): seq<string> {
    match category
    case "frame" => FrameSlots
    case "action" => ActionSlots
    case "navigation" => NavigationSlots
    case "status" => StatusSlots
    case "content" => ContentSlots
    case "background" => BackgroundSlots
    case "data" => DataSlots
    case "lcars" => LcarsSlots
    case "interface" => InterfaceSlots
    case "system" => SystemSlots
    case _ => []
  }

  /** A semantic mapping: category name to slot name to colour value. */
  type SemanticColors = map<string, map<string, string>>

  /** The mapping has the category with every slot the schema declares for it. */
  predicate HasCategory(s: SemanticColors, category: string) {
    category in s && forall slot | slot in SlotsOf(category) :: slot in s[category]
  }

  /** The mapping conforms to the schema: every required category with all
      its slots, and each legacy category either absent or complete. */
  predicate IsSemanticColors(s: SemanticColors) {
    (forall c | c in RequiredCategories :: HasCategory(s, c))
    && (forall c | c in LegacyCategories && c in s :: HasCategory(s, c))
  }

  /** Every colour in the mapping is a non-empty string, so that a lookup
      walking the mapping never stops at a falsy value. */
  predicate Populated(s: SemanticColors) {
    forall c, slot | c in s && slot in s[c] :: s[c][slot] != ""
  }

  // ---------------------------------------------------------------------
  // Variants and themes.
  // ---------------------------------------------------------------------

  datatype ThemeVariant = Voyager | Tng | Ds9 | Discovery | Custom
  {
    /** The identifier a variant is known by. */
    function Name(): string {
      match this
      case Voyager => "voyager"
      case Tng => "tng"
      case Ds9 => "ds9"
      case Discovery => "discovery"
      case Custom => "custom"
    }
  }

  datatype ThemeVariantConfig = ThemeVariantConfig(name: ThemeVariant, semantic: SemanticColors)

  datatype FrameSize = Sm | Md | Lg

  /** A value for each frame size. */
  datatype BySize<T> = BySize(sm: T, md: T, lg: T)

  datatype TextColors = TextColors(primary: string, secondary: string, accent: string)
  datatype StatusColors = StatusColors(active: string, inactive: string, warning: string, error: string)

  datatype ThemeColorSet = ThemeColorSet(
    lcars: map<string, string>,
    semantic: SemanticColors,
    main: string,
    alt1: string,
    alt2: string,
    background: string,
    text: TextColors,
    status: StatusColors)

  datatype Border = Border(radius: BySize<int>, width: int)
  datatype FrameConfig = FrameConfig(size: BySize<int>, border: Border)
  datatype Spacing = Spacing(xs: int, sm: int, md: int, lg: int, xl: int)
  datatype Typography = Typography(fontFamily: string, fontSize: BySize<string>)

  /** A fully resolved theme. `color` is the flat legacy accessor. */
  datatype Theme = Theme(
    variant: ThemeVariant,
    colors: ThemeColorSet,
    color: map<string, string>,
    frame: FrameConfig,
    spacing: Spacing,
    typography: Typography)

  /** The flat accessor answers for every theme colour name and for
      `background`, as the theme's type promises. */
  predicate HasColorAccessor(t: Theme) {
    LcarsColorNames <= t.color.Keys && LegacyColorNames <= t.color.Keys
    && "background" in t.color
  }

  /** What the engine writes to the developer console. The wording of the
      messages is not modelled, only what they are about. */
  datatype Notice =
    | UnknownThemeColor(color: string)
    | DeprecatedColor(colorName: string, component: string, alternatives: seq<string>)
    | InvalidSemanticPath(path: string)
    | UnknownColor(color: string)

  /** A result together with the console notices produced on the way. */
  datatype Logged<T> = Logged(value: T, notices: seq<Notice>)

  /** The shape of a `#RRGGBB` colour, the notation every palette colour is
      written in: seven characters beginning with `#` (the six digits
      themselves are not inspected). */
  predicate IsHexColor(s: string) {
    |s| == 7 && s[0] == '#'
  }

  // ---------------------------------------------------------------------
  // Facts about the vocabulary.
  // ---------------------------------------------------------------------

  /** No palette name is a legacy name or `background`, so the lookups that
      try legacy names first never shadow a palette colour, and neither
      does the flattened accessor's `background` entry. */
  lemma LegacyNamesNotInPalette()
    ensures forall n | n in LcarsColorNames :: n !in LegacyColorNames && n != "background"
  {
    CoreNamesReserved();
    ExtendedNamesReserved();
    AdditionalNamesReserved();
  }

  lemma CoreNamesReserved()
    ensures forall n | n in CoreColorNames :: n != "main" && n != "alt1" && n != "alt2" && n != "background"
  {
  }

  lemma ExtendedNamesReserved()
    ensures forall n | n in ExtendedColorNames :: n != "main" && n != "alt1" && n != "alt2" && n != "background"
  {
  }

  lemma AdditionalNamesReserved()
    ensures forall n | n in AdditionalColorNames :: n != "main" && n != "alt1" && n != "alt2" && n != "background"
  {
  }

  /** The schema's category sizes, 63 required slots in all. */
  lemma SchemaShape()
    ensures |FrameSlots| == 7 && |ActionSlots| == 8 && |NavigationSlots| == 6
    ensures |StatusSlots| == 11 && |ContentSlots| == 9 && |BackgroundSlots| == 6
    ensures |DataSlots| == 8 && |LcarsSlots| == 8
    ensures |InterfaceSlots| == 4 && |SystemSlots| == 4
    ensures |RequiredCategories| == 8 && RequiredCategories[0] == "frame"
    ensures forall c | c in RequiredCategories :: c !in LegacyCategories
  {
  }

  /** No slot name of the schema contains a dot. */
  predicate SlotsDotFree(slots: seq<string>) {
    forall i | 0 <= i < |slots| :: DotFree(slots[i])
  }

  /** Category and slot names contain no dot, so `category.slot` can be
      split back into its parts. */
  lemma SchemaDotFree(category: string)
    ensures category in RequiredCategories || category in LegacyCategories ==> DotFree(category)
    ensures SlotsDotFree(SlotsOf(category))
  {
    if category in RequiredCategories || category in LegacyCategories {
      CategoryNamesDotFree();
    }
    match category
    case "frame" => FrameSlotsDotFree();
    case "action" => ActionSlotsDotFree();
    case "navigation" => NavigationSlotsDotFree();
    case "status" => StatusSlotsDotFree();
    case "content" => ContentSlotsDotFree();
    case "background" => BackgroundSlotsDotFree();
    case "data" => DataSlotsDotFree();
    case "lcars" => LcarsSlotsDotFree();
    case "interface" => InterfaceSlotsDotFree();
    case "system" => SystemSlotsDotFree();
    case _ =>
  }

  lemma CategoryNamesDotFree()
    ensures forall c | c in RequiredCategories || c in LegacyCategories :: DotFree(c)
  {
  }

  lemma FrameSlotsDotFree() ensures SlotsDotFree(FrameSlots) { }
  lemma ActionSlotsDotFree() ensures SlotsDotFree(ActionSlots) { }
  lemma NavigationSlotsDotFree() ensures SlotsDotFree(NavigationSlots) { }
  lemma StatusSlotsDotFree() ensures SlotsDotFree(StatusSlots) { }
  lemma ContentSlotsDotFree() ensures SlotsDotFree(ContentSlots) { }
  lemma BackgroundSlotsDotFree() ensures SlotsDotFree(BackgroundSlots) { }
  lemma DataSlotsDotFree() ensures SlotsDotFree(DataSlots) { }
  lemma LcarsSlotsDotFree() ensures SlotsDotFree(LcarsSlots) { }
  lemma InterfaceSlotsDotFree() ensures SlotsDotFree(InterfaceSlots) { }
  lemma SystemSlotsDotFree() ensures SlotsDotFree(SystemSlots) { }

  /** The legacy categories are optional: removing them from a conforming
      mapping leaves a conforming mapping. */
  lemma LegacyCategoriesOptional(s: SemanticColors)
    requires IsSemanticColors(s)
    ensures IsSemanticColors(s - {"interface", "system"})
    ensures !("interface" in s - {"interface", "system"})
  {
    var t := s - {"interface", "system"};
    forall c | c in RequiredCategories
      ensures HasCategory(t, c)
    {
      assert HasCategory(s, c);
      assert c != "interface" && c != "system";
    }
  }

  /** The required categories are not optional: a mapping without one of
      them does not conform, whatever else it holds. */
  lemma RequiredCategoryNeeded(s: SemanticColors, category: string)
    requires category in RequiredCategories
    ensures !IsSemanticColors(s - {category})
  {
    assert !HasCategory(s - {category}, category);
  }
}

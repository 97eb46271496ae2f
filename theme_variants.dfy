/**
  The four built-in theme variants, each a complete semantic colour mapping
  over the palette, the registry that names them, and the variant lookup.

  A built-in table is written as one column per category: the category's
  entries in the order the schema lists its slots, each entry either a
  reference to a palette colour or a literal colour string. The mapping is
  each column resolved and paired with the slot names. Every built-in table
  spells out exactly the schema's categories and slots, legacy ones
  included, and uses literals only in `background`.
 */
module Variants {
  import opened ThemeTypes
  import opened ThemeUtils

  /** Every category a built-in table spells out. */
  const Categories: seq<string> := RequiredCategories + LegacyCategories

  // ---------------------------------------------------------------------
  // Building a mapping from columns.
  // ---------------------------------------------------------------------

  /** A colour as a table writes it: `lcarsColors.<name>` or a literal. */
  datatype Entry = Ref(name: string) | Literal(value: string)

  /** Every reference in the column names a palette colour. */
  predicate Resolvable(column: seq<Entry>) {
    forall i | 0 <= i < |column| :: column[i].Ref? ==> column[i].name in LcarsColorNames
  }

  /** The colour an entry stands for: the palette's colour of that name, or
      the literal itself. */
  function Resolve(e: Entry): (color: string)
    requires e.Ref? ==> e.name in LcarsColorNames
    ensures e.Ref? ==> e.name in Palette && color == Palette[e.name]
    ensures e.Ref? ==> color in Palette.Values && IsHexColor(color)
    ensures e.Literal? ==> color == e.value
  {
    match e
    case Ref(name) => Lcars(name)
    case Literal(value) => value
  }

  /** The colours of a column, entry by entry. */
  function ResolveAll(column: seq<Entry>): (colors: seq<string>)
    requires Resolvable(column)
    ensures |colors| == |column|
    ensures forall i | 0 <= i < |column| :: colors[i] == Resolve(column[i])
  {
    seq(|column|, i requires 0 <= i < |column| => Resolve(column[i]))
  }

  /** An object literal `{ slots[0]: colors[0], ... }`: later entries win,
      as they do in JavaScript. */
  function Zip(slots: seq<string>, colors: seq<string>): (m: map<string, string>)
    requires |slots| == |colors|
    ensures m.Keys == set slot | slot in slots
    ensures forall slot | slot in m :: m[slot] in colors
    decreases |slots|
  {
    if slots == [] then map[]
    else map[slots[0] := colors[0]] + Zip(slots[1..], colors[1..])
  }

  /** A slot that no later entry repeats is bound to its own colour. */
  lemma {:induction false} ZipAt(slots: seq<string>, colors: seq<string>, i: nat)
    requires |slots| == |colors| && i < |slots|
    requires slots[i] !in slots[i + 1..]
    ensures slots[i] in Zip(slots, colors) && Zip(slots, colors)[slots[i]] == colors[i]
    decreases i
  {
    if i > 0 {
      assert slots[1..][i - 1] == slots[i];
      assert slots[1..][i..] == slots[i + 1..];
      ZipAt(slots[1..], colors[1..], i - 1);
    } else {
      var rest := Zip(slots[1..], colors[1..]);
      assert slots[0] !in rest;
    }
  }

  /** One entry per schema slot of `category`, and literals, non-empty
      ones, only in `background`. */
  predicate Shaped(category: string, column: seq<Entry>) {
    |column| == |SlotsOf(category)|
    && forall i | 0 <= i < |column| ::
         column[i].Literal? ==> column[i].value != "" && category == "background"
  }

  /** A column for `category`: shaped for it, and every reference naming a
      palette colour. */
  predicate ColumnFits(category: string, column: seq<Entry>) {
    Shaped(category, column) && Resolvable(column)
  }

  /** A variant's table: one column per category the table spells out. */
  datatype Table = Table(
    frame: seq<Entry>, action: seq<Entry>, navigation: seq<Entry>, status: seq<Entry>,
    content: seq<Entry>, background: seq<Entry>, data: seq<Entry>, lcars: seq<Entry>,
    legacyInterface: seq<Entry>, legacySystem: seq<Entry>)

  /** The column of a category; none for a category the table lacks. */
  function Column(t: Table, category: string): seq<Entry> {
    match category
    case "frame" => t.frame
    case "action" => t.action
    case "navigation" => t.navigation
    case "status" => t.status
    case "content" => t.content
    case "background" => t.background
    case "data" => t.data
    case "lcars" => t.lcars
    case "interface" => t.legacyInterface
    case "system" => t.legacySystem
    case _ => []
  }

  /** Every category's column fits it, stated field by field. */
  predicate FieldsFit(t: Table) {
    ColumnFits("frame", t.frame) && ColumnFits("action", t.action)
    && ColumnFits("navigation", t.navigation) && ColumnFits("status", t.status)
    && ColumnFits("content", t.content) && ColumnFits("background", t.background)
    && ColumnFits("data", t.data) && ColumnFits("lcars", t.lcars)
    && ColumnFits("interface", t.legacyInterface) && ColumnFits("system", t.legacySystem)
  }

  /** Every category's column fits it. */
  predicate Fits(t: Table) {
    forall c | c in Categories :: ColumnFits(c, Column(t, c))
  }

  /** The categories a table spells out, one by one. */
  lemma CategoryCases(c: string)
    requires c in Categories
    ensures c == "frame" || c == "action" || c == "navigation" || c == "status" || c == "content"
      || c == "background" || c == "data" || c == "lcars" || c == "interface" || c == "system"
  {
  }

  /** Any category's column fits it. */
  lemma FitsAt(t: Table, c: string)
    requires FieldsFit(t) && c in Categories
    ensures ColumnFits(c, Column(t, c))
  {
    CategoryCases(c);
  }

  /** A table whose fields fit fits. */
  lemma FieldsFitFits(t: Table)
    requires FieldsFit(t)
    ensures Fits(t)
  {
    forall c | c in Categories
      ensures ColumnFits(c, Column(t, c))
    {
      FitsAt(t, c);
    }
  }

  /** The columns the facts below read. */
  lemma NamedColumns(t: Table)
    ensures Column(t, "frame") == t.frame && Column(t, "status") == t.status
    ensures Column(t, "background") == t.background
  {
  }

  /** The mapping whose category `c` binds the schema's slots of `c` to the
      colours of `Column(t, c)`, one by one. */
  function Tabulate(t: Table): (s: SemanticColors)
    requires Fits(t)
    ensures s.Keys == set c | c in Categories
    ensures forall c | c in s :: s[c].Keys == set slot | slot in SlotsOf(c)
    ensures forall c, slot | c in s && slot in s[c] :: s[c][slot] in ResolveAll(Column(t, c))
  {
    map c | c in Categories :: Zip(SlotsOf(c), ResolveAll(Column(t, c)))
  }

  /** Every colour outside `background` comes from the palette. */
  predicate PaletteBacked(s: SemanticColors) {
    forall c, slot | c in s && c != "background" && slot in s[c] :: s[c][slot] in Palette.Values
  }

  /** A table whose columns fit the schema conforms to it, carries both
      legacy categories, has no empty colour, and takes every colour outside
      `background` from the palette. */
  lemma TabulatedConforms(t: Table)
    requires Fits(t)
    ensures IsSemanticColors(Tabulate(t))
    ensures "interface" in Tabulate(t) && "system" in Tabulate(t)
    ensures Populated(Tabulate(t)) && PaletteBacked(Tabulate(t))
  {
    var s := Tabulate(t);
    assert "interface" in Categories && "system" in Categories;
    forall c | c in RequiredCategories
      ensures HasCategory(s, c)
    {
      assert c in Categories;
    }
    forall c, slot | c in s && slot in s[c]
      ensures s[c][slot] != "" && (c != "background" ==> s[c][slot] in Palette.Values)
    {
      assert c in Categories;
      var colors := ResolveAll(Column(t, c));
      var i :| 0 <= i < |colors| && colors[i] == s[c][slot];
      assert colors[i] == Resolve(Column(t, c)[i]);
    }
  }

  /** The colour a tabulated mapping gives the `i`-th slot of a category,
      when no later slot of that category has the same name. */
  lemma TabulatedAt(t: Table, c: string, i: nat)
    requires Fits(t) && c in Categories && i < |SlotsOf(c)|
    requires SlotsOf(c)[i] !in SlotsOf(c)[i + 1..]
    ensures c in Tabulate(t) && SlotsOf(c)[i] in Tabulate(t)[c]
    ensures Tabulate(t)[c][SlotsOf(c)[i]] == Resolve(Column(t, c)[i])
  {
    ZipAt(SlotsOf(c), ResolveAll(Column(t, c)), i);
  }

  /** A slot whose entry names a palette colour holds that colour. */
  lemma TabulatedRef(t: Table, c: string, i: nat, name: string)
    requires Fits(t) && c in Categories && i < |SlotsOf(c)|
    requires SlotsOf(c)[i] !in SlotsOf(c)[i + 1..]
    requires i < |Column(t, c)| && Column(t, c)[i] == Ref(name)
    ensures name in LcarsColorNames
    ensures c in Tabulate(t) && SlotsOf(c)[i] in Tabulate(t)[c]
    ensures Tabulate(t)[c][SlotsOf(c)[i]] == Lcars(name)
  {
    TabulatedAt(t, c, i);
  }

  // ---------------------------------------------------------------------
  // Star Trek: Voyager, themeVariants.ts lines 7-100.
  // ---------------------------------------------------------------------

  /** The Star Trek: Voyager mapping. */
  function VoyagerSemantic(): (s: SemanticColors)
    ensures IsSemanticColors(s) && Populated(s) && PaletteBacked(s)
    ensures "interface" in s && "system" in s
  {
    VoyagerFits();
    TabulatedConforms(VoyagerTable);
    Tabulate(VoyagerTable)
  }

  /** The voyager mapping is its table, tabulated. */
  lemma VoyagerTabulated()
    ensures Fits(VoyagerTable) && VoyagerSemantic() == Tabulate(VoyagerTable)
  {
    VoyagerFits();
  }

  /** The Star Trek: Voyager table, one column per category. */
  const VoyagerTable: Table := Table(
    VoyagerFrame, VoyagerAction, VoyagerNavigation, VoyagerStatus,
    VoyagerContent, VoyagerBackground, VoyagerData, VoyagerLcars,
    VoyagerInterface, VoyagerSystem)

  const VoyagerFrame: seq<Entry> := [
    Ref("evening"), Ref("cool"), Ref("honey"), Ref("midnight"), Ref("evening"), Ref("cool"),
    Ref("evening")]
  const VoyagerAction: seq<Entry> := [
    Ref("orange"), Ref("mango"), Ref("pumpkin"), Ref("lilac"), Ref("purple"), Ref("magenta"),
    Ref("gray"), Ref("skyBlue")]
  const VoyagerNavigation: seq<Entry> := [
    Ref("cool"), Ref("skyBlue"), Ref("green"), Ref("galaxy"), Ref("honey"), Ref("ghost")]
  const VoyagerStatus: seq<Entry> := [
    Ref("cool"), Ref("ice"), Ref("green"), Ref("bluey"), Ref("tangerine"), Ref("peach"),
    Ref("orange"), Ref("cardinal"), Ref("brick"), Ref("mars"), Ref("gray")]
  const VoyagerContent: seq<Entry> := [
    Ref("ghost"), Ref("cool"), Ref("sage"), Ref("moonshine"), Ref("skyBlue"), Ref("bigBlue"),
    Ref("paleBlue"), Ref("green"), Ref("evening")]
  const VoyagerBackground: seq<Entry> := [
    Literal("#000000"), Literal("#111111"), Literal("#222222"), Literal("#000033"),
    Literal("rgba(0, 0, 0, 0.8)"), Literal("#0a0a0a")]
  const VoyagerData: seq<Entry> := [
    Ref("orange"), Ref("cool"), Ref("green"), Ref("purple"), Ref("honey"), Ref("green"),
    Ref("cardinal"), Ref("gray")]
  const VoyagerLcars: seq<Entry> := [
    Ref("evening"), Ref("cool"), Ref("honey"), Ref("midnight"), Ref("green"), Ref("ice"),
    Ref("cardinal"), Ref("tangerine")]
  const VoyagerInterface: seq<Entry> := [
    Ref("green"), Ref("galaxy"), Ref("skyBlue"), Ref("paleBlue")]
  const VoyagerSystem: seq<Entry> := [Ref("green"), Ref("tangerine"), Ref("cardinal"), Ref("cool")]

  /** Every Star Trek: Voyager column fits its category. */
  lemma VoyagerFits()
    ensures Fits(VoyagerTable)
  {
    VoyagerFrameShaped(); VoyagerFrameRefs();
    VoyagerActionShaped(); VoyagerActionRefs();
    VoyagerNavigationShaped(); VoyagerNavigationRefs();
    VoyagerStatusShaped(); VoyagerStatusRefs();
    VoyagerContentShaped(); VoyagerContentRefs();
    VoyagerBackgroundShaped(); VoyagerBackgroundRefs();
    VoyagerDataShaped(); VoyagerDataRefs();
    VoyagerLcarsShaped(); VoyagerLcarsRefs();
    VoyagerInterfaceShaped(); VoyagerInterfaceRefs();
    VoyagerSystemShaped(); VoyagerSystemRefs();
    FieldsFitFits(VoyagerTable);
  }

  lemma VoyagerFrameShaped() ensures Shaped("frame", VoyagerFrame) { }
  lemma VoyagerFrameRefs() ensures Resolvable(VoyagerFrame) { }
  lemma VoyagerActionShaped() ensures Shaped("action", VoyagerAction) { }
  lemma VoyagerActionRefs() ensures Resolvable(VoyagerAction) { }
  lemma VoyagerNavigationShaped() ensures Shaped("navigation", VoyagerNavigation) { }
  lemma VoyagerNavigationRefs() ensures Resolvable(VoyagerNavigation) { }
  lemma VoyagerStatusShaped() ensures Shaped("status", VoyagerStatus) { }
  lemma VoyagerStatusRefs() ensures Resolvable(VoyagerStatus) { }
  lemma VoyagerContentShaped() ensures Shaped("content", VoyagerContent) { }
  lemma VoyagerContentRefs() ensures Resolvable(VoyagerContent) { }
  lemma VoyagerBackgroundShaped() ensures Shaped("background", VoyagerBackground) { }
  lemma VoyagerBackgroundRefs() ensures Resolvable(VoyagerBackground) { }
  lemma VoyagerDataShaped() ensures Shaped("data", VoyagerData) { }
  lemma VoyagerDataRefs() ensures Resolvable(VoyagerData) { }
  lemma VoyagerLcarsShaped() ensures Shaped("lcars", VoyagerLcars) { }
  lemma VoyagerLcarsRefs() ensures Resolvable(VoyagerLcars) { }
  lemma VoyagerInterfaceShaped() ensures Shaped("interface", VoyagerInterface) { }
  lemma VoyagerInterfaceRefs() ensures Resolvable(VoyagerInterface) { }
  lemma VoyagerSystemShaped() ensures Shaped("system", VoyagerSystem) { }
  lemma VoyagerSystemRefs() ensures Resolvable(VoyagerSystem) { }

  // ---------------------------------------------------------------------
  // The Next Generation, themeVariants.ts lines 105-198.
  // ---------------------------------------------------------------------

  /** The The Next Generation mapping. */
  function TngSemantic(): (s: SemanticColors)
    ensures IsSemanticColors(s) && Populated(s) && PaletteBacked(s)
    ensures "interface" in s && "system" in s
  {
    TngFits();
    TabulatedConforms(TngTable);
    Tabulate(TngTable)
  }

  /** The tng mapping is its table, tabulated. */
  lemma TngTabulated()
    ensures Fits(TngTable) && TngSemantic() == Tabulate(TngTable)
  {
    TngFits();
  }

  /** The The Next Generation table, one column per category. */
  const TngTable: Table := Table(
    TngFrame, TngAction, TngNavigation, TngStatus,
    TngContent, TngBackground, TngData, TngLcars,
    TngInterface, TngSystem)

  const TngFrame: seq<Entry> := [
    Ref("orange"), Ref("lilac"), Ref("paleBlue"), Ref("purple"), Ref("orange"), Ref("lilac"),
    Ref("orange")]
  const TngAction: seq<Entry> := [
    Ref("bigBlue"), Ref("skyBlue"), Ref("evening"), Ref("honey"), Ref("peach"), Ref("naples"),
    Ref("gray"), Ref("paleBlue")]
  const TngNavigation: seq<Entry> := [
    Ref("lilac"), Ref("purple"), Ref("bigBlue"), Ref("galaxy"), Ref("orange"), Ref("ghost")]
  const TngStatus: seq<Entry> := [
    Ref("paleBlue"), Ref("ice"), Ref("green"), Ref("bluey"), Ref("honey"), Ref("peach"),
    Ref("orange"), Ref("brick"), Ref("roseblush"), Ref("cardinal"), Ref("gray")]
  const TngContent: seq<Entry> := [
    Ref("ghost"), Ref("lilac"), Ref("sage"), Ref("moonshine"), Ref("paleBlue"), Ref("skyBlue"),
    Ref("purple"), Ref("green"), Ref("orange")]
  const TngBackground: seq<Entry> := [
    Literal("#000000"), Literal("#111111"), Literal("#222222"), Literal("#110011"),
    Literal("rgba(0, 0, 0, 0.8)"), Literal("#0a0a0a")]
  const TngData: seq<Entry> := [
    Ref("orange"), Ref("lilac"), Ref("bigBlue"), Ref("green"), Ref("honey"), Ref("green"),
    Ref("brick"), Ref("gray")]
  const TngLcars: seq<Entry> := [
    Ref("orange"), Ref("lilac"), Ref("paleBlue"), Ref("purple"), Ref("green"), Ref("ice"),
    Ref("cardinal"), Ref("honey")]
  const TngInterface: seq<Entry> := [Ref("green"), Ref("galaxy"), Ref("skyBlue"), Ref("paleBlue")]
  const TngSystem: seq<Entry> := [Ref("green"), Ref("tangerine"), Ref("cardinal"), Ref("cool")]

  /** Every The Next Generation column fits its category. */
  lemma TngFits()
    ensures Fits(TngTable)
  {
    TngFrameShaped(); TngFrameRefs();
    TngActionShaped(); TngActionRefs();
    TngNavigationShaped(); TngNavigationRefs();
    TngStatusShaped(); TngStatusRefs();
    TngContentShaped(); TngContentRefs();
    TngBackgroundShaped(); TngBackgroundRefs();
    TngDataShaped(); TngDataRefs();
    TngLcarsShaped(); TngLcarsRefs();
    TngInterfaceShaped(); TngInterfaceRefs();
    TngSystemShaped(); TngSystemRefs();
    FieldsFitFits(TngTable);
  }

  lemma TngFrameShaped() ensures Shaped("frame", TngFrame) { }
  lemma TngFrameRefs() ensures Resolvable(TngFrame) { }
  lemma TngActionShaped() ensures Shaped("action", TngAction) { }
  lemma TngActionRefs() ensures Resolvable(TngAction) { }
  lemma TngNavigationShaped() ensures Shaped("navigation", TngNavigation) { }
  lemma TngNavigationRefs() ensures Resolvable(TngNavigation) { }
  lemma TngStatusShaped() ensures Shaped("status", TngStatus) { }
  lemma TngStatusRefs() ensures Resolvable(TngStatus) { }
  lemma TngContentShaped() ensures Shaped("content", TngContent) { }
  lemma TngContentRefs() ensures Resolvable(TngContent) { }
  lemma TngBackgroundShaped() ensures Shaped("background", TngBackground) { }
  lemma TngBackgroundRefs() ensures Resolvable(TngBackground) { }
  lemma TngDataShaped() ensures Shaped("data", TngData) { }
  lemma TngDataRefs() ensures Resolvable(TngData) { }
  lemma TngLcarsShaped() ensures Shaped("lcars", TngLcars) { }
  lemma TngLcarsRefs() ensures Resolvable(TngLcars) { }
  lemma TngInterfaceShaped() ensures Shaped("interface", TngInterface) { }
  lemma TngInterfaceRefs() ensures Resolvable(TngInterface) { }
  lemma TngSystemShaped() ensures Shaped("system", TngSystem) { }
  lemma TngSystemRefs() ensures Resolvable(TngSystem) { }

  // ---------------------------------------------------------------------
  // Deep Space Nine, themeVariants.ts lines 203-296.
  // ---------------------------------------------------------------------

  /** The Deep Space Nine mapping. */
  function Ds9Semantic(): (s: SemanticColors)
    ensures IsSemanticColors(s) && Populated(s) && PaletteBacked(s)
    ensures "interface" in s && "system" in s
  {
    Ds9Fits();
    TabulatedConforms(Ds9Table);
    Tabulate(Ds9Table)
  }

  /** The ds9 mapping is its table, tabulated. */
  lemma Ds9Tabulated()
    ensures Fits(Ds9Table) && Ds9Semantic() == Tabulate(Ds9Table)
  {
    Ds9Fits();
  }

  /** The Deep Space Nine table, one column per category. */
  const Ds9Table: Table := Table(
    Ds9Frame, Ds9Action, Ds9Navigation, Ds9Status,
    Ds9Content, Ds9Background, Ds9Data, Ds9Lcars,
    Ds9Interface, Ds9System)

  const Ds9Frame: seq<Entry> := [
    Ref("bigBlue"), Ref("purple"), Ref("mango"), Ref("galaxy"), Ref("bigBlue"), Ref("purple"),
    Ref("bigBlue")]
  const Ds9Action: seq<Entry> := [
    Ref("mango"), Ref("orange"), Ref("pumpkin"), Ref("wheat"), Ref("camel"), Ref("rust"),
    Ref("galaxy"), Ref("violet")]
  const Ds9Navigation: seq<Entry> := [
    Ref("purple"), Ref("magenta"), Ref("mango"), Ref("galaxy"), Ref("gold"), Ref("sage")]
  const Ds9Status: seq<Entry> := [
    Ref("bigBlue"), Ref("sage"), Ref("green"), Ref("bluey"), Ref("gold"), Ref("butterscotch"),
    Ref("mango"), Ref("tamarillo"), Ref("brick"), Ref("rust"), Ref("galaxy")]
  const Ds9Content: seq<Entry> := [
    Ref("sage"), Ref("purple"), Ref("galaxy"), Ref("space-white"), Ref("violet"),
    Ref("african-violet"), Ref("purple"), Ref("green"), Ref("bigBlue")]
  const Ds9Background: seq<Entry> := [
    Literal("#000000"), Literal("#0a0a11"), Literal("#1a1a22"), Literal("#000022"),
    Literal("rgba(0, 0, 0, 0.85)"), Literal("#080810")]
  const Ds9Data: seq<Entry> := [
    Ref("mango"), Ref("bigBlue"), Ref("purple"), Ref("gold"), Ref("green"), Ref("green"),
    Ref("tamarillo"), Ref("galaxy")]
  const Ds9Lcars: seq<Entry> := [
    Ref("bigBlue"), Ref("purple"), Ref("mango"), Ref("galaxy"), Ref("green"), Ref("sage"),
    Ref("rust"), Ref("gold")]
  const Ds9Interface: seq<Entry> := [
    Ref("green"), Ref("galaxy"), Ref("violet"), Ref("african-violet")]
  const Ds9System: seq<Entry> := [Ref("green"), Ref("gold"), Ref("tamarillo"), Ref("bigBlue")]

  /** Every Deep Space Nine column fits its category. */
  lemma Ds9Fits()
    ensures Fits(Ds9Table)
  {
    Ds9FrameShaped(); Ds9FrameRefs();
    Ds9ActionShaped(); Ds9ActionRefs();
    Ds9NavigationShaped(); Ds9NavigationRefs();
    Ds9StatusShaped(); Ds9StatusRefs();
    Ds9ContentShaped(); Ds9ContentRefs();
    Ds9BackgroundShaped(); Ds9BackgroundRefs();
    Ds9DataShaped(); Ds9DataRefs();
    Ds9LcarsShaped(); Ds9LcarsRefs();
    Ds9InterfaceShaped(); Ds9InterfaceRefs();
    Ds9SystemShaped(); Ds9SystemRefs();
    FieldsFitFits(Ds9Table);
  }

  lemma Ds9FrameShaped() ensures Shaped("frame", Ds9Frame) { }
  lemma Ds9FrameRefs() ensures Resolvable(Ds9Frame) { }
  lemma Ds9ActionShaped() ensures Shaped("action", Ds9Action) { }
  lemma Ds9ActionRefs() ensures Resolvable(Ds9Action) { }
  lemma Ds9NavigationShaped() ensures Shaped("navigation", Ds9Navigation) { }
  lemma Ds9NavigationRefs() ensures Resolvable(Ds9Navigation) { }
  lemma Ds9StatusShaped() ensures Shaped("status", Ds9Status) { }
  lemma Ds9StatusRefs() ensures Resolvable(Ds9Status) { }
  lemma Ds9ContentShaped() ensures Shaped("content", Ds9Content) { }
  lemma Ds9ContentRefs() ensures Resolvable(Ds9Content) { }
  lemma Ds9BackgroundShaped() ensures Shaped("background", Ds9Background) { }
  lemma Ds9BackgroundRefs() ensures Resolvable(Ds9Background) { }
  lemma Ds9DataShaped() ensures Shaped("data", Ds9Data) { }
  lemma Ds9DataRefs() ensures Resolvable(Ds9Data) { }
  lemma Ds9LcarsShaped() ensures Shaped("lcars", Ds9Lcars) { }
  lemma Ds9LcarsRefs() ensures Resolvable(Ds9Lcars) { }
  lemma Ds9InterfaceShaped() ensures Shaped("interface", Ds9Interface) { }
  lemma Ds9InterfaceRefs() ensures Resolvable(Ds9Interface) { }
  lemma Ds9SystemShaped() ensures Shaped("system", Ds9System) { }
  lemma Ds9SystemRefs() ensures Resolvable(Ds9System) { }

  // ---------------------------------------------------------------------
  // Discovery, themeVariants.ts lines 301-394.
  // ---------------------------------------------------------------------

  /** The Discovery mapping. */
  function DiscoverySemantic(): (s: SemanticColors)
    ensures IsSemanticColors(s) && Populated(s) && PaletteBacked(s)
    ensures "interface" in s && "system" in s
  {
    DiscoveryFits();
    TabulatedConforms(DiscoveryTable);
    Tabulate(DiscoveryTable)
  }

  /** The discovery mapping is its table, tabulated. */
  lemma DiscoveryTabulated()
    ensures Fits(DiscoveryTable) && DiscoverySemantic() == Tabulate(DiscoveryTable)
  {
    DiscoveryFits();
  }

  /** The Discovery table, one column per category. */
  const DiscoveryTable: Table := Table(
    DiscoveryFrame, DiscoveryAction, DiscoveryNavigation, DiscoveryStatus,
    DiscoveryContent, DiscoveryBackground, DiscoveryData, DiscoveryLcars,
    DiscoveryInterface, DiscoverySystem)

  const DiscoveryFrame: seq<Entry> := [
    Ref("pacific"), Ref("ocean"), Ref("gold"), Ref("twilight"), Ref("pacific"), Ref("ocean"),
    Ref("pacific")]
  const DiscoveryAction: seq<Entry> := [
    Ref("gold"), Ref("sunflower"), Ref("dandelion"), Ref("pacific"), Ref("bluey"),
    Ref("ocean"), Ref("text-block"), Ref("gold-pressed-latinum")]
  const DiscoveryNavigation: seq<Entry> := [
    Ref("pacific"), Ref("bluey"), Ref("gold"), Ref("text-block"), Ref("gold-pressed-latinum"),
    Ref("sky")]
  const DiscoveryStatus: seq<Entry> := [
    Ref("pacific"), Ref("sky"), Ref("green"), Ref("bluey"), Ref("sunflower"),
    Ref("candlelight"), Ref("gold"), Ref("tomato"), Ref("almond-creme"), Ref("mars"),
    Ref("text-block")]
  const DiscoveryContent: seq<Entry> := [
    Ref("sky"), Ref("pacific"), Ref("sage"), Ref("space-white"), Ref("gold"),
    Ref("gold-pressed-latinum"), Ref("sunflower"), Ref("green"), Ref("pacific")]
  const DiscoveryBackground: seq<Entry> := [
    Literal("#000000"), Literal("#001122"), Literal("#002244"), Literal("#000011"),
    Literal("rgba(0, 0, 17, 0.9)"), Literal("#000a14")]
  const DiscoveryData: seq<Entry> := [
    Ref("gold"), Ref("pacific"), Ref("green"), Ref("tomato"), Ref("violet"), Ref("green"),
    Ref("tomato"), Ref("text-block")]
  const DiscoveryLcars: seq<Entry> := [
    Ref("pacific"), Ref("ocean"), Ref("gold"), Ref("twilight"), Ref("green"),
    Ref("gold-pressed-latinum"), Ref("tomato"), Ref("sunflower")]
  const DiscoveryInterface: seq<Entry> := [
    Ref("green"), Ref("text-block"), Ref("bluey"), Ref("ocean")]
  const DiscoverySystem: seq<Entry> := [
    Ref("green"), Ref("sunflower"), Ref("tomato"), Ref("pacific")]

  /** Every Discovery column fits its category. */
  lemma DiscoveryFits()
    ensures Fits(DiscoveryTable)
  {
    DiscoveryFrameShaped(); DiscoveryFrameRefs();
    DiscoveryActionShaped(); DiscoveryActionRefs();
    DiscoveryNavigationShaped(); DiscoveryNavigationRefs();
    DiscoveryStatusShaped(); DiscoveryStatusRefs();
    DiscoveryContentShaped(); DiscoveryContentRefs();
    DiscoveryBackgroundShaped(); DiscoveryBackgroundRefs();
    DiscoveryDataShaped(); DiscoveryDataRefs();
    DiscoveryLcarsShaped(); DiscoveryLcarsRefs();
    DiscoveryInterfaceShaped(); DiscoveryInterfaceRefs();
    DiscoverySystemShaped(); DiscoverySystemRefs();
    FieldsFitFits(DiscoveryTable);
  }

  lemma DiscoveryFrameShaped() ensures Shaped("frame", DiscoveryFrame) { }
  lemma DiscoveryFrameRefs() ensures Resolvable(DiscoveryFrame) { }
  lemma DiscoveryActionShaped() ensures Shaped("action", DiscoveryAction) { }
  lemma DiscoveryActionRefs() ensures Resolvable(DiscoveryAction) { }
  lemma DiscoveryNavigationShaped() ensures Shaped("navigation", DiscoveryNavigation) { }
  lemma DiscoveryNavigationRefs() ensures Resolvable(DiscoveryNavigation) { }
  lemma DiscoveryStatusShaped() ensures Shaped("status", DiscoveryStatus) { }
  lemma DiscoveryStatusRefs() ensures Resolvable(DiscoveryStatus) { }
  lemma DiscoveryContentShaped() ensures Shaped("content", DiscoveryContent) { }
  lemma DiscoveryContentRefs() ensures Resolvable(DiscoveryContent) { }
  lemma DiscoveryBackgroundShaped() ensures Shaped("background", DiscoveryBackground) { }
  lemma DiscoveryBackgroundRefs() ensures Resolvable(DiscoveryBackground) { }
  lemma DiscoveryDataShaped() ensures Shaped("data", DiscoveryData) { }
  lemma DiscoveryDataRefs() ensures Resolvable(DiscoveryData) { }
  lemma DiscoveryLcarsShaped() ensures Shaped("lcars", DiscoveryLcars) { }
  lemma DiscoveryLcarsRefs() ensures Resolvable(DiscoveryLcars) { }
  lemma DiscoveryInterfaceShaped() ensures Shaped("interface", DiscoveryInterface) { }
  lemma DiscoveryInterfaceRefs() ensures Resolvable(DiscoveryInterface) { }
  lemma DiscoverySystemShaped() ensures Shaped("system", DiscoverySystem) { }
  lemma DiscoverySystemRefs() ensures Resolvable(DiscoverySystem) { }

  // ---------------------------------------------------------------------
  // The registry and the lookups.
  // ---------------------------------------------------------------------

  /** The mapping each variant ships with; a custom variant ships none of
      its own. */
  function BuiltInSemantic(v: ThemeVariant): (s: SemanticColors)
    ensures v != Custom ==> IsSemanticColors(s) && Populated(s) && PaletteBacked(s)
    ensures v != Custom ==> "interface" in s && "system" in s
    ensures v == Custom ==> s == map[]
  {
    match v
    case Voyager => VoyagerSemantic()
    case Tng => TngSemantic()
    case Ds9 => Ds9Semantic()
    case Discovery => DiscoverySemantic()
    case Custom => map[]
  }

  /** The configuration registered for a variant: its name and its table. */
  function BuiltIn(v: ThemeVariant): ThemeVariantConfig {
    ThemeVariantConfig(v, BuiltInSemantic(v))
  }

  /** `themeVariants`: the registry, from each built-in variant's name to the
      variant whose configuration `BuiltIn` gives. */
  const ThemeVariants: map<string, ThemeVariant> :=
    map["voyager" := Voyager, "tng" := Tng, "ds9" := Ds9, "discovery" := Discovery]

  /** `getThemeVariant`: the registered variant of that name, or voyager for
      any other name, `custom` included. It never fails, and what it returns
      is always a complete built-in mapping with no empty colour. */
  function GetThemeVariant(variant: string): (config: ThemeVariantConfig)
    ensures variant in ThemeVariants ==> config == BuiltIn(ThemeVariants[variant])
    ensures variant !in ThemeVariants ==> config == BuiltIn(Voyager)
    ensures config.name != Custom && config.name.Name() in ThemeVariants
    ensures IsSemanticColors(config.semantic) && Populated(config.semantic)
  {
    RegistryShape();
    BuiltIn(if variant in ThemeVariants then ThemeVariants[variant] else Voyager)
  }

  /** `createCustomVariant`: wraps the caller's mapping under the name
      `custom`, unchanged and unchecked. */
  function CreateCustomVariant(semantic: SemanticColors): (config: ThemeVariantConfig)
    ensures config.name == Custom && config.name.Name() !in ThemeVariants
    ensures config.semantic == semantic
  {
    RegistryShape();
    ThemeVariantConfig(Custom, semantic)
  }

  // ---------------------------------------------------------------------
  // Facts about the registry.
  // ---------------------------------------------------------------------

  /** The registry holds exactly the four built-in variants, each under its
      own name. */
  lemma RegistryShape()
    ensures ThemeVariants.Keys == {"voyager", "tng", "ds9", "discovery"}
    ensures forall key | key in ThemeVariants :: ThemeVariants[key].Name() == key
    ensures forall key | key in ThemeVariants :: ThemeVariants[key] != Custom
    ensures "custom" !in ThemeVariants
  {
  }

  /** A custom variant is taken as given: even the empty mapping, which
      lacks every category, is accepted. */
  lemma CustomVariantUnchecked()
    ensures CreateCustomVariant(map[]).name == Custom
    ensures !IsSemanticColors(CreateCustomVariant(map[]).semantic)
  {
    assert !HasCategory(map[], "frame");
  }

  /** Looking up any name the registry does not hold, `custom` among them,
      gives voyager, not a custom variant. */
  lemma UnknownNamesGiveVoyager()
    ensures forall name | name !in ThemeVariants :: GetThemeVariant(name) == GetThemeVariant("voyager")
    ensures "custom" !in ThemeVariants && GetThemeVariant("custom") == GetThemeVariant("voyager")
    ensures GetThemeVariant("voyager").name == Voyager
  {
    assert "custom" !in ThemeVariants;
    assert ThemeVariants["voyager"] == Voyager;
  }

  /** The lookup is a pure function: switching voyager, then tng, then back
      to voyager reproduces the identical voyager mapping. */
  lemma SwitchingBackRestoresVoyager()
    ensures
      var first := GetThemeVariant("voyager");
      var second := GetThemeVariant("tng");
      var third := GetThemeVariant("voyager");
      third == first && second != first && second.name == Tng
  {
    RegistryShape();
  }

  // The slots the facts below read, by position in their category.

  lemma FramePrimarySlot()
    ensures "frame" in Categories && |SlotsOf("frame")| == 7
    ensures SlotsOf("frame")[0] == "primary" && "primary" !in SlotsOf("frame")[1..]
  {
  }

  lemma StatusSuccessSlot()
    ensures "status" in Categories && |SlotsOf("status")| == 11
    ensures SlotsOf("status")[2] == "success" && "success" !in SlotsOf("status")[3..]
  {
  }

  lemma BackgroundOverlaySlot()
    ensures "background" in Categories && |SlotsOf("background")| == 6
    ensures SlotsOf("background")[4] == "overlay" && "overlay" !in SlotsOf("background")[5..]
  {
  }

  /** A string that is not seven characters long is no palette colour. */
  lemma NotPaletteColor(color: string)
    requires |color| != 7
    ensures color !in Palette.Values
  {
    PaletteIsHex();
  }

  /** Voyager's primary frame colour is the palette's evening blue. */
  lemma VoyagerFramePrimary()
    ensures "frame" in VoyagerSemantic() && "primary" in VoyagerSemantic()["frame"]
    ensures VoyagerSemantic()["frame"]["primary"] == Lcars("evening")
  {
    assert VoyagerFrame[0] == Ref("evening");
    VoyagerTabulated();
    FramePrimarySlot();
    NamedColumns(VoyagerTable);
    assert VoyagerTable.frame[0] == Ref("evening");
    TabulatedRef(VoyagerTable, "frame", 0, "evening");
  }

  /** Voyager signals success in the palette's green. */
  lemma VoyagerStatusSuccess()
    ensures "status" in VoyagerSemantic() && "success" in VoyagerSemantic()["status"]
    ensures VoyagerSemantic()["status"]["success"] == Lcars("green")
  {
    assert VoyagerStatus[2] == Ref("green");
    VoyagerTabulated();
    StatusSuccessSlot();
    NamedColumns(VoyagerTable);
    assert VoyagerTable.status[2] == Ref("green");
    TabulatedRef(VoyagerTable, "status", 2, "green");
  }

  /** The Next Generation frames in the palette's orange. */
  lemma TngFramePrimary()
    ensures "frame" in TngSemantic() && "primary" in TngSemantic()["frame"]
    ensures TngSemantic()["frame"]["primary"] == Lcars("orange")
  {
    assert TngFrame[0] == Ref("orange");
    TngTabulated();
    FramePrimarySlot();
    NamedColumns(TngTable);
    assert TngTable.frame[0] == Ref("orange");
    TabulatedRef(TngTable, "frame", 0, "orange");
  }

  // Background slots are literal strings that need not be palette colours:
  // every variant's overlay is an `rgba(...)` string.

  lemma VoyagerOverlay()
    ensures "background" in VoyagerSemantic() && "overlay" in VoyagerSemantic()["background"]
    ensures VoyagerSemantic()["background"]["overlay"] == "rgba(0, 0, 0, 0.8)"
    ensures VoyagerSemantic()["background"]["overlay"] !in Palette.Values
  {
    VoyagerTabulated();
    BackgroundOverlaySlot();
    NamedColumns(VoyagerTable);
    TabulatedAt(VoyagerTable, "background", 4);
    assert VoyagerTable.background[4] == Literal("rgba(0, 0, 0, 0.8)");
    NotPaletteColor("rgba(0, 0, 0, 0.8)");
  }

  lemma TngOverlay()
    ensures "background" in TngSemantic() && "overlay" in TngSemantic()["background"]
    ensures TngSemantic()["background"]["overlay"] == "rgba(0, 0, 0, 0.8)"
    ensures TngSemantic()["background"]["overlay"] !in Palette.Values
  {
    TngTabulated();
    BackgroundOverlaySlot();
    NamedColumns(TngTable);
    TabulatedAt(TngTable, "background", 4);
    assert TngTable.background[4] == Literal("rgba(0, 0, 0, 0.8)");
    NotPaletteColor("rgba(0, 0, 0, 0.8)");
  }

  lemma Ds9Overlay()
    ensures "background" in Ds9Semantic() && "overlay" in Ds9Semantic()["background"]
    ensures Ds9Semantic()["background"]["overlay"] == "rgba(0, 0, 0, 0.85)"
    ensures Ds9Semantic()["background"]["overlay"] !in Palette.Values
  {
    Ds9Tabulated();
    BackgroundOverlaySlot();
    NamedColumns(Ds9Table);
    TabulatedAt(Ds9Table, "background", 4);
    assert Ds9Table.background[4] == Literal("rgba(0, 0, 0, 0.85)");
    NotPaletteColor("rgba(0, 0, 0, 0.85)");
  }

  lemma DiscoveryOverlay()
    ensures "background" in DiscoverySemantic() && "overlay" in DiscoverySemantic()["background"]
    ensures DiscoverySemantic()["background"]["overlay"] == "rgba(0, 0, 17, 0.9)"
    ensures DiscoverySemantic()["background"]["overlay"] !in Palette.Values
  {
    DiscoveryTabulated();
    BackgroundOverlaySlot();
    NamedColumns(DiscoveryTable);
    TabulatedAt(DiscoveryTable, "background", 4);
    assert DiscoveryTable.background[4] == Literal("rgba(0, 0, 17, 0.9)");
    NotPaletteColor("rgba(0, 0, 17, 0.9)");
  }
}

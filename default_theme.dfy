/**
  The default theme: the voyager variant's mapping, the legacy colour
  fields bound to its frame colours, the palette, and the flattened `color`
  accessor that older components read.

  The composition is written once, as `Compose`, for any conforming mapping
  and any palette; the default theme is `Compose` applied to the registry's
  voyager mapping and the LCARS palette. The facts about the composition are
  proved for every such pair and then hold for the default theme.
 */
module DefaultTheme {
  import opened ThemeTypes
  import opened ThemeUtils
  import opened Variants

  // The slots the default theme reads from its mapping: present in every
  // conforming mapping.

  lemma FramePresent(s: SemanticColors)
    requires IsSemanticColors(s)
    ensures "frame" in s && "primary" in s["frame"] && "accent" in s["frame"] && "secondary" in s["frame"]
  {
    assert HasCategory(s, RequiredCategories[0]);
  }

  lemma BackgroundPresent(s: SemanticColors)
    requires IsSemanticColors(s)
    ensures "background" in s && "base" in s["background"]
  {
    assert HasCategory(s, RequiredCategories[5]);
  }

  lemma ContentPresent(s: SemanticColors)
    requires IsSemanticColors(s)
    ensures "content" in s && "primary" in s["content"] && "secondary" in s["content"] && "inverse" in s["content"]
  {
    assert HasCategory(s, RequiredCategories[4]);
  }

  lemma StatusPresent(s: SemanticColors)
    requires IsSemanticColors(s)
    ensures "status" in s && "success" in s["status"] && "neutral" in s["status"]
    ensures "warning" in s["status"] && "error" in s["status"]
  {
    assert HasCategory(s, RequiredCategories[3]);
  }

  /** The flattened accessor: the legacy names, then every palette colour,
      then `background`; as in an object literal, later entries win. */
  function FlatColors(main: string, alt1: string, alt2: string, palette: map<string, string>,
                      background: string): map<string, string>
  {
    map["main" := main, "alt1" := alt1, "alt2" := alt2] + palette + map["background" := background]
  }

  /** The theme `defaultTheme` builds around the mapping `s` and the palette. */
  function Compose(s: SemanticColors, palette: map<string, string>): Theme
    requires IsSemanticColors(s)
  {
    FramePresent(s);
    BackgroundPresent(s);
    ContentPresent(s);
    StatusPresent(s);
    var main := s["frame"]["primary"];
    var alt1 := s["frame"]["accent"];
    var alt2 := s["frame"]["secondary"];
    var background := s["background"]["base"];
    Theme(
      Voyager,
      ThemeColorSet(
        palette, s, main, alt1, alt2, background,
        TextColors(s["content"]["primary"], s["content"]["secondary"], s["content"]["inverse"]),
        StatusColors(s["status"]["success"], s["status"]["neutral"], s["status"]["warning"], s["status"]["error"])),
      FlatColors(main, alt1, alt2, palette, background),
      FrameConfig(BySize(16, 100, 130), Border(BySize(20, 26, 40), 5)),
      Spacing(5, 10, 15, 25, 50),
      Typography("'Antonio', 'Arial Narrow', 'Avenir Next Condensed', sans-serif",
                 BySize("0.88rem", "1.35rem", "1.64rem")))
  }

  /** `themeVariants.voyager.semantic` */
  function VoyagerMapping(): (s: SemanticColors)
    ensures s == GetThemeVariant("voyager").semantic
    ensures IsSemanticColors(s) && Populated(s)
  {
    RegistryShape();
    BuiltInSemantic(Voyager)
  }

  /** `defaultTheme` */
  function Default(): Theme {
    Compose(VoyagerMapping(), Palette)
  }

  // ---------------------------------------------------------------------
  // Facts about the composition.
  // ---------------------------------------------------------------------

  /** The theme is the voyager variant carrying the mapping and the palette
      it was built from. */
  lemma ComposedVariant(s: SemanticColors, palette: map<string, string>)
    requires IsSemanticColors(s)
    ensures Compose(s, palette).variant == Voyager && Compose(s, palette).variant.Name() == "voyager"
    ensures Compose(s, palette).colors.semantic == s
    ensures Compose(s, palette).colors.lcars == palette
  {
  }

  /** The legacy colours are the frame's primary, accent and secondary
      colours. */
  lemma LegacyBindings(s: SemanticColors, palette: map<string, string>)
    requires IsSemanticColors(s)
    ensures "frame" in s && "primary" in s["frame"] && "accent" in s["frame"] && "secondary" in s["frame"]
    ensures Compose(s, palette).colors.main == s["frame"]["primary"]
    ensures Compose(s, palette).colors.alt1 == s["frame"]["accent"]
    ensures Compose(s, palette).colors.alt2 == s["frame"]["secondary"]
  {
    FramePresent(s);
  }

  /** The flattened accessor agrees with the legacy fields and with the
      background field, which is the mapping's `background.base`, as long
      as the palette has none of those four names. */
  lemma FlatMatchesLegacy(s: SemanticColors, palette: map<string, string>)
    requires IsSemanticColors(s)
    requires "main" !in palette && "alt1" !in palette && "alt2" !in palette && "background" !in palette
    ensures var t := Compose(s, palette);
      "main" in t.color && "alt1" in t.color && "alt2" in t.color && "background" in t.color
      && t.color["main"] == t.colors.main
      && t.color["alt1"] == t.colors.alt1
      && t.color["alt2"] == t.colors.alt2
      && t.color["background"] == t.colors.background
    ensures "background" in s && "base" in s["background"]
    ensures Compose(s, palette).colors.background == s["background"]["base"]
  {
    BackgroundPresent(s);
  }

  /** Every palette colour other than `background` reads the same through
      the flattened accessor, through the theme's palette and in the
      palette itself. */
  lemma PaletteCopied(s: SemanticColors, palette: map<string, string>)
    requires IsSemanticColors(s)
    ensures forall n | n in palette && n != "background" ::
      n in Compose(s, palette).color && n in Compose(s, palette).colors.lcars
      && Compose(s, palette).color[n] == Compose(s, palette).colors.lcars[n] == palette[n]
  {
  }

  /** Over a palette naming exactly the LCARS colours, the flattened
      accessor answers for every theme colour name and for `background`. */
  lemma ComposedAccessor(s: SemanticColors, palette: map<string, string>)
    requires IsSemanticColors(s) && palette.Keys == LcarsColorNames
    ensures HasColorAccessor(Compose(s, palette))
  {
  }

  /** Over a palette without the legacy names and `background`,
      `getThemeColor` agrees with the flattened accessor for every legacy
      name and every palette name, and never warns. */
  lemma GetThemeColorAgrees(s: SemanticColors, palette: map<string, string>, name: string)
    requires IsSemanticColors(s)
    requires "main" !in palette && "alt1" !in palette && "alt2" !in palette && "background" !in palette
    requires name in LegacyColorNames || name in palette
    ensures name in Compose(s, palette).color
    ensures GetThemeColor(Compose(s, palette), name) == Logged(Compose(s, palette).color[name], [])
  {
    FlatMatchesLegacy(s, palette);
  }

  /** The text and status colours are the mapping's content and status
      slots. */
  lemma DerivedColors(s: SemanticColors, palette: map<string, string>)
    requires IsSemanticColors(s)
    ensures "content" in s && "status" in s
    ensures "primary" in s["content"] && "secondary" in s["content"] && "inverse" in s["content"]
    ensures "success" in s["status"] && "neutral" in s["status"]
    ensures "warning" in s["status"] && "error" in s["status"]
    ensures Compose(s, palette).colors.text ==
      TextColors(s["content"]["primary"], s["content"]["secondary"], s["content"]["inverse"])
    ensures Compose(s, palette).colors.status ==
      StatusColors(s["status"]["success"], s["status"]["neutral"], s["status"]["warning"], s["status"]["error"])
  {
    ContentPresent(s);
    StatusPresent(s);
  }

  // ---------------------------------------------------------------------
  // Facts about the default theme.
  // ---------------------------------------------------------------------

  /** The default theme is the composition of the registry's voyager
      mapping with the LCARS palette. */
  lemma DefaultIsVoyager()
    ensures IsSemanticColors(GetThemeVariant("voyager").semantic)
    ensures Default() == Compose(GetThemeVariant("voyager").semantic, Palette)
  {
  }

  /** On the default theme, `getThemeColor` agrees with the flattened
      accessor for every theme colour name, and never warns. */
  lemma DefaultGetThemeColor(name: string)
    requires IsThemeColor(name)
    ensures name in Default().color
    ensures GetThemeColor(Default(), name) == Logged(Default().color[name], [])
  {
    PaletteNames();
    LegacyNamesNotInPalette();
    GetThemeColorAgrees(VoyagerMapping(), Palette, name);
  }

  /** The default theme's main colour is the palette's evening blue, and
      its active status colour the palette's green. */
  lemma DefaultColors()
    ensures Default().colors.main == Lcars("evening")
    ensures Default().colors.status.active == Lcars("green")
  {
    VoyagerFramePrimary();
    VoyagerStatusSuccess();
  }
}
